/** From the configuration file to the settings the client runs with. */
module Config {
  import opened Wrappers
  import BatchSizing

  /** Go durations are 64-bit nanosecond counts; a product that does not fit wraps around. */
  const TWO_63: int := 0x8000_0000_0000_0000
  const TWO_64: int := 0x1_0000_0000_0000_0000
  const SECOND: int := 1_000_000_000
  const MILLISECOND: int := 1_000_000

  function Wrap(n: int): (w: int)
    ensures -TWO_63 <= w < TWO_63
    ensures (n - w) % TWO_64 == 0
  {
    (n + TWO_63) % TWO_64 - TWO_63
  }

  type Int64 = n: int | -TWO_63 <= n < TWO_63

  /** Numbers default to zero and switches to None when the file leaves them out. */
  datatype ConfigFile = ConfigFile(
    timeout: Int64, maxRetries: Int64, managed: Option<bool>,
    minBatchSize: Int64, maxBatchSize: Int64, maxQueueSize: Int64, targetCpuPercent: real, targetMemPercent: real,
    minBatchIntervalMs: Int64, maxBatchIntervalMs: Int64,
    offlineStorage: Option<bool>, storagePath: string,
    offlineRetryEnabled: Option<bool>, offlineRetryInterval: Int64, offlineRetryLimit: Int64,
    connectivityCheckEnabled: Option<bool>, connectivityCheckInterval: Int64,
    sendHeartbeat: Option<bool>, heartbeatInterval: Int64, debug: bool)

  /** What a count given in the file comes to: itself when positive, the default otherwise. */
  function Chosen(given: int, default: int): int { if given > 0 then given else default }

  /** The same for an interval counted in units, in nanoseconds. */
  function Interval(given: int, unit: int, default: int): int { if given > 0 then Wrap(given * unit) else default }

  function Switch(given: Option<bool>, default: bool): bool { if given.Some? then given.value else default }

  class Config {
    var managed: bool
    var timeout: int
    var maxRetries: int
    var minBatchSize: int
    var maxBatchSize: int
    var maxQueueSize: int
    var targetCpuPercent: real
    var targetMemPercent: real
    var minBatchInterval: int
    var maxBatchInterval: int
    var offlineStorage: bool
    var storagePath: string
    var offlineRetryEnabled: bool
    var offlineRetryInterval: int
    var offlineRetryLimit: int
    var connectivityCheckEnabled: bool
    var connectivityCheckInterval: int
    var sendHeartbeat: bool
    var heartbeatInterval: int
    var debug: bool

    constructor Defaults()
      ensures managed && offlineStorage && offlineRetryEnabled && connectivityCheckEnabled && sendHeartbeat && !debug
      ensures timeout == 10 * SECOND && maxRetries == 3 && offlineRetryLimit == 5
      ensures minBatchSize == 10 && maxBatchSize == 500 && maxQueueSize == 1000
      ensures targetCpuPercent == 70.0 && targetMemPercent == 80.0
      ensures minBatchInterval == 100 * MILLISECOND && maxBatchInterval == SECOND
      ensures offlineRetryInterval == connectivityCheckInterval == heartbeatInterval == 30 * SECOND
      ensures storagePath == "tendrl_storage.db"
    {
      managed, timeout, maxRetries := true, 10 * SECOND, 3;
      minBatchSize, maxBatchSize, maxQueueSize := 10, 500, 1000;
      targetCpuPercent, targetMemPercent := 70.0, 80.0;
      minBatchInterval, maxBatchInterval := 100 * MILLISECOND, SECOND;
      offlineStorage, storagePath := true, "tendrl_storage.db";
      offlineRetryEnabled, offlineRetryInterval, offlineRetryLimit := true, 30 * SECOND, 5;
      connectivityCheckEnabled, connectivityCheckInterval := true, 30 * SECOND;
      sendHeartbeat, heartbeatInterval, debug := true, 30 * SECOND, false;
    }

    ghost function Sizing(): BatchSizing.Sizing
      reads this
    {
      BatchSizing.Sizing(minBatchSize, maxBatchSize, targetCpuPercent, targetMemPercent)
    }

    /** What the rest of the client relies on. */
    ghost predicate Usable()
      reads this
    {
      maxRetries >= 1 && maxQueueSize >= 1 && BatchSizing.Configured(Sizing())
    }

    /** Outside managed mode everything that serves it is off; in it nothing changes. */
    method ApplyManagedGating()
      modifies this`offlineStorage, this`offlineRetryEnabled, this`connectivityCheckEnabled, this`sendHeartbeat
      ensures offlineStorage == (managed && old(offlineStorage))
      ensures offlineRetryEnabled == (managed && old(offlineRetryEnabled))
      ensures connectivityCheckEnabled == (managed && old(connectivityCheckEnabled))
      ensures sendHeartbeat == (managed && old(sendHeartbeat))
    {
      if managed {
        return;
      }
      offlineStorage := false;
      offlineRetryEnabled := false;
      connectivityCheckEnabled := false;
      sendHeartbeat := false;
    }
  }

  method ToConfig(cf: ConfigFile) returns (config: Config)
    ensures fresh(config) && config.Usable()
    ensures config.timeout == Interval(cf.timeout, SECOND, 10 * SECOND)
    ensures config.maxRetries == Chosen(cf.maxRetries, 3) && config.offlineRetryLimit == Chosen(cf.offlineRetryLimit, 5)
    ensures config.minBatchSize == Chosen(cf.minBatchSize, 10) && config.maxBatchSize == Chosen(cf.maxBatchSize, 500)
    ensures config.maxQueueSize == Chosen(cf.maxQueueSize, 1000)
    ensures config.minBatchInterval == Interval(cf.minBatchIntervalMs, MILLISECOND, 100 * MILLISECOND)
    ensures config.maxBatchInterval == Interval(cf.maxBatchIntervalMs, MILLISECOND, SECOND)
    ensures config.offlineRetryInterval == Interval(cf.offlineRetryInterval, SECOND, 30 * SECOND)
    ensures config.connectivityCheckInterval == Interval(cf.connectivityCheckInterval, SECOND, 30 * SECOND)
    ensures config.heartbeatInterval == Interval(cf.heartbeatInterval, SECOND, 30 * SECOND)
    ensures config.targetCpuPercent == if cf.targetCpuPercent > 0.0 then cf.targetCpuPercent else 70.0
    ensures config.targetMemPercent == if cf.targetMemPercent > 0.0 then cf.targetMemPercent else 80.0
    ensures config.storagePath == if cf.storagePath != "" then cf.storagePath else "tendrl_storage.db"
    ensures config.managed == Switch(cf.managed, true) && config.offlineStorage == Switch(cf.offlineStorage, true)
    ensures config.offlineRetryEnabled == Switch(cf.offlineRetryEnabled, true)
    ensures config.connectivityCheckEnabled == Switch(cf.connectivityCheckEnabled, true)
    ensures config.sendHeartbeat == Switch(cf.sendHeartbeat, true) && config.debug == cf.debug
  {
    config := new Config.Defaults();
    OverrideValues(config, cf);
    OverrideIntervals(config, cf);
    OverrideSwitches(config, cf);
  }

  /** Only a switch the file mentions overrides the setting. */
  method Override(given: Option<bool>, current: bool) returns (on: bool)
    ensures on == Switch(given, current)
  {
    on := current;
    if given.Some? {
      on := given.value;
    }
  }

  method OverrideSwitches(config: Config, cf: ConfigFile)
    modifies config`managed, config`offlineStorage, config`offlineRetryEnabled,
      config`connectivityCheckEnabled, config`sendHeartbeat, config`debug
    ensures config.managed == Switch(cf.managed, old(config.managed))
    ensures config.offlineStorage == Switch(cf.offlineStorage, old(config.offlineStorage))
    ensures config.offlineRetryEnabled == Switch(cf.offlineRetryEnabled, old(config.offlineRetryEnabled))
    ensures config.connectivityCheckEnabled == Switch(cf.connectivityCheckEnabled, old(config.connectivityCheckEnabled))
    ensures config.sendHeartbeat == Switch(cf.sendHeartbeat, old(config.sendHeartbeat)) && config.debug == cf.debug
  {
    config.managed := Override(cf.managed, config.managed);
    config.offlineStorage := Override(cf.offlineStorage, config.offlineStorage);
    config.offlineRetryEnabled := Override(cf.offlineRetryEnabled, config.offlineRetryEnabled);
    config.connectivityCheckEnabled := Override(cf.connectivityCheckEnabled, config.connectivityCheckEnabled);
    config.sendHeartbeat := Override(cf.sendHeartbeat, config.sendHeartbeat);
    config.debug := cf.debug;
  }

  method OverrideValues(config: Config, cf: ConfigFile)
    modifies config`maxRetries, config`minBatchSize, config`maxBatchSize, config`maxQueueSize,
      config`targetCpuPercent, config`targetMemPercent, config`offlineRetryLimit, config`storagePath
    ensures config.maxRetries == Chosen(cf.maxRetries, old(config.maxRetries))
    ensures config.minBatchSize == Chosen(cf.minBatchSize, old(config.minBatchSize))
    ensures config.maxBatchSize == Chosen(cf.maxBatchSize, old(config.maxBatchSize))
    ensures config.maxQueueSize == Chosen(cf.maxQueueSize, old(config.maxQueueSize))
    ensures config.offlineRetryLimit == Chosen(cf.offlineRetryLimit, old(config.offlineRetryLimit))
    ensures config.targetCpuPercent ==
      if cf.targetCpuPercent > 0.0 then cf.targetCpuPercent else old(config.targetCpuPercent)
    ensures config.targetMemPercent ==
      if cf.targetMemPercent > 0.0 then cf.targetMemPercent else old(config.targetMemPercent)
    ensures config.storagePath == if cf.storagePath != "" then cf.storagePath else old(config.storagePath)
  {
    if cf.maxRetries > 0 {
      config.maxRetries := cf.maxRetries;
    }
    if cf.minBatchSize > 0 {
      config.minBatchSize := cf.minBatchSize;
    }
    if cf.maxBatchSize > 0 {
      config.maxBatchSize := cf.maxBatchSize;
    }
    if cf.maxQueueSize > 0 {
      config.maxQueueSize := cf.maxQueueSize;
    }
    if cf.targetCpuPercent > 0.0 {
      config.targetCpuPercent := cf.targetCpuPercent;
    }
    if cf.targetMemPercent > 0.0 {
      config.targetMemPercent := cf.targetMemPercent;
    }
    if cf.offlineRetryLimit > 0 {
      config.offlineRetryLimit := cf.offlineRetryLimit;
    }
    if cf.storagePath != "" {
      config.storagePath := cf.storagePath;
    }
  }

  method OverrideIntervals(config: Config, cf: ConfigFile)
    modifies config`timeout, config`minBatchInterval, config`maxBatchInterval, config`offlineRetryInterval,
      config`connectivityCheckInterval, config`heartbeatInterval
    ensures config.timeout == Interval(cf.timeout, SECOND, old(config.timeout))
    ensures config.minBatchInterval == Interval(cf.minBatchIntervalMs, MILLISECOND, old(config.minBatchInterval))
    ensures config.maxBatchInterval == Interval(cf.maxBatchIntervalMs, MILLISECOND, old(config.maxBatchInterval))
    ensures config.offlineRetryInterval == Interval(cf.offlineRetryInterval, SECOND, old(config.offlineRetryInterval))
    ensures config.connectivityCheckInterval ==
      Interval(cf.connectivityCheckInterval, SECOND, old(config.connectivityCheckInterval))
    ensures config.heartbeatInterval == Interval(cf.heartbeatInterval, SECOND, old(config.heartbeatInterval))
  {
    if cf.timeout > 0 {
      config.timeout := Wrap(cf.timeout * SECOND);
    }
    if cf.minBatchIntervalMs > 0 {
      config.minBatchInterval := Wrap(cf.minBatchIntervalMs * MILLISECOND);
    }
    if cf.maxBatchIntervalMs > 0 {
      config.maxBatchInterval := Wrap(cf.maxBatchIntervalMs * MILLISECOND);
    }
    if cf.offlineRetryInterval > 0 {
      config.offlineRetryInterval := Wrap(cf.offlineRetryInterval * SECOND);
    }
    if cf.connectivityCheckInterval > 0 {
      config.connectivityCheckInterval := Wrap(cf.connectivityCheckInterval * SECOND);
    }
    if cf.heartbeatInterval > 0 {
      config.heartbeatInterval := Wrap(cf.heartbeatInterval * SECOND);
    }
  }

  /** A count or a switch given in the file is used as it is; anything left out, or not positive, is the default. */
  lemma GivenOrDefault(given: int, on: bool, unit: int, default: int, switch: bool)
    ensures given > 0 ==> Chosen(given, default) == given
    ensures given <= 0 ==> Chosen(given, default) == default && Interval(given, unit, default) == default
    ensures Switch(Some(on), switch) == on && Switch(None, switch) == switch
  {
  }

  /** An interval is what the file asks for exactly when the product fits; then it is positive. */
  lemma IntervalIsExactIff(given: Int64, unit: int, default: int)
    requires given > 0 && unit > 0
    ensures Interval(given, unit, default) == given * unit <==> given * unit < TWO_63
    ensures given * unit < TWO_63 ==> Interval(given, unit, default) > 0
  {
    assert given * unit > 0;
  }

  /** Otherwise a ticker may be given a negative interval, which time.NewTicker refuses by panicking. */
  lemma AboutThreeCenturiesIsTooLong()
    ensures Interval(9_223_372_036, SECOND, 30 * SECOND) > 0
    ensures Interval(9_223_372_037, SECOND, 30 * SECOND) < 0
  {
    assert Wrap(9_223_372_037 * SECOND) == 9_223_372_037 * SECOND - TWO_64;
  }
}
