/**
 The client object: sending with retries, flushing and storing failed batches, the offline
 retry cycle, Publish, and the queue consumer. What the world does (server replies, clock
 readings, record keys, other goroutines) comes in as arguments.
 */
module Client {
  import opened Wrappers
  import opened Keys
  import opened Storage
  import opened Connectivity
  import opened Messages
  import opened Sending
  import opened BatchSizing
  import opened FailedBatches
  import opened RetryCycle
  import opened RetryDelivery
  import opened Consumer
  import opened ConsumerLaws
  import opened Publishing
  import Config

  class Client {
    const managed: bool
    const offlineStorage: bool
    const requestable: bool               // the endpoint URL parses
    const codec: Codec
    const capacity: nat
    const sizing: Sizing
    const heartbeats: bool
    const heartbeatInterval: int
    const connectivity: ConnectivityState?
    const storage: Storage?
    var maxRetries: int
    var timeout: int
    var queue: seq<Message>
    var lastHeartbeat: int
    ghost var wire: seq<seq<Message>>     // every batch given to SendMessages

    /** A managed client assumes it is online at first; store is its message store, if it has one. */
    constructor (config: Config.Config, codec: Codec, requestable: bool, store: Storage?, now: int)
      requires config.Usable() && (store != null ==> store.Valid())
      ensures Valid() && queue == [] && wire == [] && maxRetries == config.maxRetries && sizing == config.Sizing()
      ensures managed == config.managed && capacity == config.maxQueueSize && offlineStorage == config.offlineStorage
      ensures connectivity != null <==> managed
      ensures connectivity != null ==> fresh(connectivity) && connectivity.online
      ensures storage == if managed && offlineStorage then store else null
      ensures heartbeats == config.sendHeartbeat && heartbeatInterval == config.heartbeatInterval
      ensures lastHeartbeat == now
    {
      this.codec, this.requestable := codec, requestable;
      managed, offlineStorage := config.managed, config.offlineStorage;
      capacity, maxRetries, timeout := config.maxQueueSize, config.maxRetries, config.timeout;
      sizing := Sizing(config.minBatchSize, config.maxBatchSize, config.targetCpuPercent, config.targetMemPercent);
      heartbeats, heartbeatInterval, lastHeartbeat := config.sendHeartbeat, config.heartbeatInterval, now;
      queue, wire, connectivity := [], [], null;
      storage := if config.managed && config.offlineStorage then store else null;
      if config.managed {
        connectivity := new ConnectivityState(now);
      }
    }

    ghost predicate Valid()
      reads this, connectivity, storage
    {
      && (connectivity != null ==> connectivity.Valid())
      && (storage != null ==> storage.Valid())
      && maxRetries >= 1 && |queue| <= capacity && Configured(sizing)
    }

    ghost function Trace(): seq<Change>
      reads this, connectivity
    {
      if connectivity == null then [] else connectivity.trace
    }

    /** The connectivity updates made by a number of attempts. */
    ghost function Noted(net: Network, attempts: nat): seq<Change> {
      if managed && connectivity != null then Reports(net.replies, net.clock, attempts) else []
    }

    lemma NotedNext(net: Network, attempt: nat, before: seq<Change>)
      ensures before + Noted(net, attempt + 1) == before + Noted(net, attempt) +
        if managed && connectivity != null then Report(net.replies(attempt), net.clock(attempt)) else []
    {
    }

    ghost function Bucket(): seq<Record>
      reads this, storage
    {
      if storage == null then [] else storage.bucket
    }

    /** The bucket once the first n messages of a batch that could not be sent are saved, if they can be. */
    ghost function Saved(b: seq<Record>, batch: seq<Message>, stamps: Stamps, n: nat): seq<Record>
      requires n <= |batch|
    {
      if storage == null then b else StoreAll(codec, b, batch, stamps, n)
    }

    predicate IsOnline()
      reads this, connectivity
    {
      !managed || connectivity == null || connectivity.online
    }

    predicate Sendable(messages: seq<Message>) {
      requestable && forall m :: m in messages ==> codec.marshal(m.data).Some?
    }

    /** Sends a batch, retrying; MaxRetries is read afresh each time. */
    method SendMessages(messages: seq<Message>, net: Network) returns (ok: bool, attempts: nat, backoff: nat)
      requires Valid() && Interfered(net, maxRetries)
      modifies this`wire, connectivity
      ensures Valid()
      ensures wire == if messages == [] then old(wire) else old(wire) + [messages]
      ensures messages == [] ==> ok && attempts == 0
      ensures var sendable := requestable && forall m :: m in messages ==> codec.marshal(m.data).Some?;
        messages != [] ==>
          if sendable then Outcome(net, maxRetries, ok, attempts, backoff) else !ok && attempts == 0
      ensures Trace() == old(Trace()) + Noted(net, attempts)
    {
      ok, attempts, backoff := true, 0, 0;
      if messages == [] {
        return;
      }
      wire := wire + [messages];
      if !Sendable(messages) {
        ok := false;
        return;
      }
      ok, attempts, backoff := RetryLoop(net);
    }

    method RetryLoop(net: Network) returns (ok: bool, attempts: nat, backoff: nat)
      requires (connectivity != null ==> connectivity.Valid()) && Interfered(net, maxRetries)
      modifies connectivity
      ensures connectivity != null ==> connectivity.Valid()
      ensures Outcome(net, maxRetries, ok, attempts, backoff)
      ensures Trace() == old(Trace()) + Noted(net, attempts)
    {
      var attempt: nat := 0;
      ok, attempts, backoff := false, 0, 0;
      while attempt <= net.limits(2 * attempt)
        invariant connectivity != null ==> connectivity.Valid()
        invariant Trying(net, maxRetries, attempt)
        invariant !ok && attempts == attempt && backoff == Backoff(attempt)
        invariant Trace() == old(Trace()) + Noted(net, attempt)
        decreases maxRetries - attempt
      {
        var again;
        NotedNext(net, attempt, old(Trace()));
        ok, again := TryOnce(net.replies(attempt), net.clock(attempt), attempt < net.limits(2 * attempt + 1));
        attempts := attempt + 1;
        if !again {
          StopInAttempt(net, maxRetries, attempt);
          return;
        }
        backoff := backoff + attempt + 1;
        attempt := attempt + 1;
      }
      StopAtHead(net, maxRetries, attempt);
    }

    /** One attempt: note what it says about connectivity, and decide whether to try again. */
    method TryOnce(reply: Reply, now: int, retriesLeft: bool) returns (ok: bool, again: bool)
      requires connectivity != null ==> connectivity.Valid()
      modifies connectivity
      ensures connectivity != null ==> connectivity.Valid()
      ensures Trace() == old(Trace()) + if managed && connectivity != null then Report(reply, now) else []
      ensures var tells := managed && connectivity != null && (reply.NetworkError? || reply.Accepted?);
        Trace() == if tells then old(Trace()) + [Change(reply.Accepted?, now)] else old(Trace())
      ensures ok == reply.Accepted? && again == ((reply.Busy? || reply.NetworkError?) && retriesLeft)
    {
      ok, again := false, false;
      match reply
      case NetworkError =>
        if managed && connectivity != null {
          connectivity.Update(false, now);
        }
        again := retriesLeft;
      case Accepted =>
        if managed && connectivity != null {
          connectivity.Update(true, now);
        }
        ok := true;
      case Busy =>
        again := retriesLeft;
      case Refused =>
    }

    /** A health probe: any 2xx or 3xx means online, anything else offline. */
    method CheckConnectivity(status: Option<int>, now: int)
      requires Valid()
      modifies connectivity
      ensures Valid()
      ensures Trace() == old(Trace()) +
        if connectivity == null then []
        else [Change(requestable && status.Some? && 200 <= status.value < 400, now)]
    {
      if connectivity == null {
        return;
      }
      if !requestable || status.None? {
        connectivity.Update(false, now);
        return;
      }
      var isOnline := status.value >= 200 && status.value < 400;
      connectivity.Update(isOnline, now);
    }

    // ---- Failed batches ----

    /** Stores each encodable message of a batch that could not be sent. */
    method StoreFailedBatch(batch: seq<Message>, stamps: Stamps)
      requires Valid()
      modifies storage
      ensures Valid()
      ensures Bucket() == Saved(old(Bucket()), batch, stamps, |batch|)
    {
      if storage == null {
        return;
      }
      var store: Storage := storage;
      ghost var b := store.bucket;
      for i := 0 to |batch|
        invariant store.Valid() && store.bucket == StoreAll(codec, b, batch, stamps, i)
      {
        var data := DataAsString(codec, batch[i].data);
        if data.None? {
          continue;
        }
        var stored := store.Store(stamps.key(i), data.value, TagsOf(batch[i]), TTL, stamps.now(i), stamps.commits(i));
      }
    }

    /** Sends a batch and stores it when the send fails. */
    method FlushBatch(batch: seq<Message>, net: Network, stamps: Stamps) returns (ok: bool, attempts: nat, backoff: nat)
      requires Valid() && Interfered(net, maxRetries)
      modifies this`wire, connectivity, storage
      ensures Valid()
      ensures wire == if batch == [] then old(wire) else old(wire) + [batch]
      ensures batch == [] ==> ok && attempts == 0
      ensures batch != [] && !Sendable(batch) ==> !ok && attempts == 0
      ensures batch != [] && Sendable(batch) ==> Outcome(net, maxRetries, ok, attempts, backoff)
      ensures Trace() == old(Trace()) + Noted(net, attempts)
      ensures Bucket() == if ok then old(Bucket()) else Saved(old(Bucket()), batch, stamps, |batch|)
    {
      if |batch| == 0 {
        return true, 0, 0;
      }
      ok, attempts, backoff := SendMessages(batch, net);
      if !ok {
        StoreFailedBatch(batch, stamps);
      }
    }

    /** The ticker's own copy of the storing loop. */
    method StoreInline(batch: seq<Message>, stamps: Stamps)
      requires storage != null && storage.Valid()
      modifies storage
      ensures storage.Valid()
      ensures storage.bucket == StoreAll(codec, old(storage.bucket), batch, stamps, |batch|)
    {
      for i := 0 to |batch|
        invariant storage.Valid()
        invariant storage.bucket == StoreAll(codec, old(storage.bucket), batch, stamps, i)
      {
        var data := DataAsString(codec, batch[i].data);
        if data.Some? {
          var tags := TagsOf(batch[i]);
          var stored := storage.Store(stamps.key(i), data.value, tags, TTL, stamps.now(i), stamps.commits(i));
        }
      }
    }

    /** What the ticker does with the batch in hand. Its contract is FlushBatch's. */
    method TickFlush(batch: seq<Message>, net: Network, stamps: Stamps) returns (ok: bool, attempts: nat, backoff: nat)
      requires Valid() && Interfered(net, maxRetries)
      modifies this`wire, connectivity, storage
      ensures Valid()
      ensures wire == if batch == [] then old(wire) else old(wire) + [batch]
      ensures batch == [] ==> ok && attempts == 0
      ensures batch != [] && !Sendable(batch) ==> !ok && attempts == 0
      ensures batch != [] && Sendable(batch) ==> Outcome(net, maxRetries, ok, attempts, backoff)
      ensures Trace() == old(Trace()) + Noted(net, attempts)
      ensures Bucket() == if ok then old(Bucket()) else Saved(old(Bucket()), batch, stamps, |batch|)
    {
      ok, attempts, backoff := true, 0, 0;
      if |batch| > 0 {
        ok, attempts, backoff := SendMessages(batch, net);
        if !ok && storage != null {
          StoreInline(batch, stamps);
        }
      }
    }

    // ---- Offline retries ----

    /** Sends with one retry and a short timeout, then puts both settings back. */
    method SendOfflineBatch(batch: seq<Message>, net: Network) returns (ok: bool)
      requires Valid()
      modifies this`wire, this`maxRetries, this`timeout, connectivity
      ensures Valid() && maxRetries == old(maxRetries) && timeout == old(timeout)
      ensures wire == if batch == [] then old(wire) else old(wire) + [batch]
      ensures ok <==> batch == [] || (Sendable(batch) && Succeeds(net.replies, 1))
      ensures var again := net.replies(0).Busy? || net.replies(0).NetworkError?;
        batch != [] && Sendable(batch) ==>
          (ok <==> net.replies(0).Accepted? || (again && net.replies(1).Accepted?))
      ensures Trace() ==
        old(Trace()) + Noted(net, if batch != [] && Sendable(batch) then RetryAttempts(net.replies) else 0)
    {
      RetryByReplies(net.replies);
      var originalTimeout := timeout;
      timeout := OFFLINE_TIMEOUT;
      var originalMaxRetries := maxRetries;
      maxRetries := 1;
      var attempts, backoff;
      ok, attempts, backoff := SendMessages(batch, Network(net.replies, _ => 1, net.clock));
      NotedAlike(Network(net.replies, _ => 1, net.clock), net, attempts);
      maxRetries := originalMaxRetries;
      timeout := originalTimeout;
    }

    lemma NotedAlike(net: Network, other: Network, attempts: nat)
      requires net.replies == other.replies && net.clock == other.clock
      ensures Noted(net, attempts) == Noted(other, attempts)
    {
    }

    /**
     One round of a retry cycle: copy the first records, delete the expired ones, send the
     rest, and delete those too once accepted; either delete may fail.
     */
    method RetryRound(now: int, stamp: nat -> string, net: Network, commits: Commits)
      returns (sent: seq<Key>, failed: bool)
      requires Valid() && storage != null && WritesText(codec)
      modifies this`wire, this`maxRetries, this`timeout, connectivity, storage
      ensures Valid() && maxRetries == old(maxRetries) && timeout == old(timeout)
      ensures RoundResult(old(storage.bucket), now, commits, sent, failed, storage.bucket)
      ensures failed <==> !Taken(requestable, net.replies, sent)
      ensures var stored := Contents(old(storage.bucket)[..Min(ROUND, |old(storage.bucket)|)]);
        && Elements(sent) <= stored.Keys && wire == old(wire) + OneBatch(stored, sent, stamp)
        && OneMoreBatch(old(wire), stored, sent, stamp, wire)
      ensures Trace() == old(Trace()) + Noted(net, if sent != [] && requestable then RetryAttempts(net.replies) else 0)
    {
      var stored := storage.GetBatch(ROUND);
      ghost var b := storage.bucket;
      var batch, expiredIds;
      batch, sent, expiredIds := Partition(stored, now, stamp);
      DropExpired(expiredIds, commits.expired);
      ghost var swept := storage.bucket;
      OutgoingIsText(stored, sent, stamp);
      failed := SendThenDelete(batch, sent, net, commits.sent);
      RoundAddsUp(b, now, commits, sent, expiredIds, failed, swept, storage.bucket);
      OneBatchCarries(old(wire), stored, sent, stamp);
    }

    method DropExpired(ids: seq<Key>, commits: bool)
      requires storage != null && storage.Valid()
      modifies storage
      ensures storage.Valid()
      ensures storage.bucket ==
        if ids != [] && commits then Without(old(storage.bucket), Elements(ids)) else old(storage.bucket)
    {
      if |ids| > 0 {
        var deleted := storage.DeleteBatch(ids, commits);
      }
    }

    method SendThenDelete(batch: seq<Message>, ids: seq<Key>, net: Network, commits: bool) returns (failed: bool)
      requires Valid() && storage != null
      modifies this`wire, this`maxRetries, this`timeout, connectivity, storage
      ensures Valid() && maxRetries == old(maxRetries) && timeout == old(timeout)
      ensures wire == if batch == [] then old(wire) else old(wire) + [batch]
      ensures failed <==> batch != [] && !(Sendable(batch) && Succeeds(net.replies, 1))
      ensures storage.bucket ==
        if batch != [] && !failed && commits then Without(old(storage.bucket), Elements(ids)) else old(storage.bucket)
      ensures Trace() ==
        old(Trace()) + Noted(net, if batch != [] && Sendable(batch) then RetryAttempts(net.replies) else 0)
    {
      failed := false;
      if |batch| > 0 {
        var accepted := SendOfflineBatch(batch, net);
        if accepted {
          var deleted := storage.DeleteBatch(ids, commits);
        } else {
          failed := true;
        }
      }
    }

    ghost function Standing(): Point
      reads this, connectivity, storage
    {
      Point(Bucket(), wire, Trace())
    }

    /**
     One retry cycle, with no other writer to storage. It skips when offline; otherwise it works
     through at most five rounds, and stops early at an empty bucket, a failed fetch or a failed
     send. When every transaction commits the rounds are windows of fifty records in key order.
     */
    method RetryOfflineMessages(clock: nat -> int, stamps: nat -> nat -> string, nets: nat -> Network,
                                commits: nat -> Commits, fetches: nat -> bool)
      returns (handled: nat, failed: bool, sent: seq<seq<Key>>, ghost points: seq<Point>)
      requires Valid() && storage != null && WritesText(codec)
      modifies this`wire, this`maxRetries, this`timeout, connectivity, storage
      ensures Valid() && maxRetries == old(maxRetries) && timeout == old(timeout)
      ensures |sent| == handled + (if failed then 1 else 0) && |sent| <= 5
      ensures var e := Cycling(old(Standing()), clock, stamps, nets, commits, fetches);
        && Cycle(e, sent, failed, points) && points[|sent|] == Standing()
        && (AllCommit(e) ==> Summary(e, handled, failed, sent, Standing()))
      ensures !failed && old(IsOnline()) ==> handled == 5 || storage.bucket == [] || !fetches(handled)
      ensures !old(IsOnline()) ==> sent == []
      ensures FaithfulCycle(Cycling(old(Standing()), clock, stamps, nets, commits, fetches), sent, Standing())
    {
      ghost var e := Cycling(Standing(), clock, stamps, nets, commits, fetches);
      if connectivity != null && !IsOnline() {
        handled, failed, sent, points := 0, false, [], [Standing()];
      } else {
        handled, failed, sent, points := RetryRounds(clock, stamps, nets, commits, fetches);
      }
      CycleSumsUp(e, sent, failed, points, handled);
      CycleIsFaithful(e, sent, failed, points);
    }

    /** The rounds of a cycle. */
    method RetryRounds(clock: nat -> int, stamps: nat -> nat -> string, nets: nat -> Network,
                       commits: nat -> Commits, fetches: nat -> bool)
      returns (handled: nat, failed: bool, sent: seq<seq<Key>>, ghost points: seq<Point>)
      requires Valid() && storage != null && WritesText(codec)
      modifies this`wire, this`maxRetries, this`timeout, connectivity, storage
      ensures Valid() && maxRetries == old(maxRetries) && timeout == old(timeout)
      ensures |sent| == handled + (if failed then 1 else 0) && |sent| <= ROUNDS
      ensures Cycle(Cycling(old(Standing()), clock, stamps, nets, commits, fetches), sent, failed, points)
      ensures points[|sent|] == Standing()
      ensures failed || handled == ROUNDS || storage.bucket == [] || !fetches(handled)
    {
      handled, failed, sent := 0, false, [];
      ghost var e := Cycling(Standing(), clock, stamps, nets, commits, fetches);
      points := [Standing()];
      while handled < ROUNDS
        invariant Valid() && maxRetries == old(maxRetries) && timeout == old(timeout)
        invariant handled <= ROUNDS && |sent| == handled && !failed
        invariant Cycle(e, sent, false, points) && points[|sent|] == Standing()
      {
        if !fetches(handled) || |storage.bucket| == 0 {
          return;
        }
        var ids;
        ids, failed := RoundOf(handled, clock, stamps, nets, commits, e);
        CycleSnoc(e, sent, points, ids, failed, Standing());
        sent, points := sent + [ids], points + [Standing()];
        if failed {
          return;
        }
        handled := handled + 1;
      }
    }

    /** A round as a link of the cycle e. */
    method RoundOf(i: nat, clock: nat -> int, stamps: nat -> nat -> string, nets: nat -> Network,
                   commits: nat -> Commits, ghost e: Env)
      returns (ids: seq<Key>, failed: bool)
      requires Valid() && storage != null && WritesText(codec) && storage.bucket != []
      requires e == Cycling(e.start, clock, stamps, nets, commits, e.fetches)
      modifies this`wire, this`maxRetries, this`timeout, connectivity, storage
      ensures Valid() && maxRetries == old(maxRetries) && timeout == old(timeout)
      ensures Round(e, i, old(Standing()), ids, failed, Standing())
    {
      ids, failed := RetryRound(clock(i), stamps(i), nets(i), commits(i));
    }

    ghost function Cycling(start: Point, clock: nat -> int, stamps: nat -> nat -> string, nets: nat -> Network,
                           commits: nat -> Commits, fetches: nat -> bool): Env {
      Env(start, clock, stamps, managed && connectivity != null, requestable, nets, commits, fetches)
    }

    // ---- Publish ----

    /**
     Sends at once in headless mode or when a response is awaited. Otherwise it stores when offline,
     queues while there is room, stores when there is none, and fails when it can do neither.
     */
    method Publish(data: Data, tags: seq<string>, entity: string, waitResponse: bool, wait: int, stamp: string,
                   net: Network, key: Key, now: int, commits: bool)
      returns (result: Option<PublishError>, ghost attempts: nat)
      requires Valid() && Interfered(net, maxRetries)
      modifies this`queue, this`wire, connectivity, storage
      ensures Valid()
      ensures var m := NewMessage(data, tags, entity, waitResponse, wait, stamp);
        !managed || waitResponse ==>
          && wire == old(wire) + [[m]] && queue == old(queue) && Bucket() == old(Bucket())
          && Honest(requestable && codec.marshal(m.data).Some?, maxRetries, net, Try(result.None?, attempts))
          && (result.None? || result == Some(NotSent)) && Trace() == old(Trace()) + Noted(net, attempts)
      ensures managed && !waitResponse ==> wire == old(wire) && Trace() == old(Trace()) && attempts == 0
      ensures var offline := connectivity != null && old(Trace() != [] && !Trace()[|Trace()| - 1].online);
        var stores, full := offlineStorage && storage != null, |old(queue)| >= capacity;
        managed && !waitResponse ==>
          && ((offline && stores) || (full && stores) ==>
                && queue == old(queue)
                && StoredOrRefused(codec, data, tags, key, now, commits, old(Bucket()), Bucket(), result))
          && (!(offline && stores) && !full ==>
                && queue == old(queue) + [NewMessage(data, tags, entity, waitResponse, wait, stamp)]
                && Bucket() == old(Bucket()) && result == None)
          && (full && !stores ==> queue == old(queue) && Bucket() == old(Bucket()) && result == Some(Full))
      ensures managed && !waitResponse && connectivity != null && offlineStorage && storage != null ==>
        var p := Posting(data, tags, entity, wait, stamp, key, now, commits);
        var s := Snap([], old(queue), old(wire), old(Bucket()), old(Trace()), lastHeartbeat);
        Posted(Settings(), p, s, Snap([], queue, wire, Bucket(), Trace(), lastHeartbeat), result)
    {
      attempts := 0;
      OnlineByTrace();
      var msg := NewMessage(data, tags, entity, waitResponse, wait, stamp);
      if !managed || waitResponse {
        result, attempts := SendNow(msg, net);
      } else if connectivity != null && !IsOnline() && offlineStorage && storage != null {
        result := StoreDirect(data, tags, key, now, commits);
      } else if |queue| < capacity {
        queue := queue + [msg];
        result := None;
      } else if offlineStorage && storage != null {
        result := StoreDirect(data, tags, key, now, commits);
      } else {
        result := Some(Full);
      }
    }

    method SendNow(m: Message, net: Network) returns (result: Option<PublishError>, ghost attempts: nat)
      requires Valid() && Interfered(net, maxRetries)
      modifies this`wire, connectivity
      ensures Valid() && wire == old(wire) + [[m]]
      ensures Honest(requestable && codec.marshal(m.data).Some?, maxRetries, net, Try(result.None?, attempts))
      ensures result.None? || result == Some(NotSent)
      ensures Trace() == old(Trace()) + Noted(net, attempts)
    {
      var ok, n, backoff := SendMessages([m], net);
      attempts := n;
      result := if ok then None else Some(NotSent);
      assert m in [m];
    }

    method StoreDirect(data: Data, tags: seq<string>, key: Key, now: int, commits: bool)
      returns (result: Option<PublishError>)
      requires Valid() && storage != null
      modifies storage
      ensures Valid() && Trace() == old(Trace())
      ensures StoredOrRefused(codec, data, tags, key, now, commits, old(Bucket()), Bucket(), result)
    {
      var text := DataAsString(codec, data);
      if text.None? {
        return Some(Unencodable);
      }
      var stored := storage.Store(key, text.value, tags, TTL, now, commits);
      result := if stored then None else Some(NotStored);
    }

    // ---- The queue consumer ----

    /** The client as its consumer sees it, with buf in hand. */
    ghost function Snapshot(buf: Buffer): Snap
      reads this, connectivity, storage, buf, buf.data
      requires buf.Valid()
    {
      Snap(buf.Contents(), queue, wire, Bucket(), Trace(), lastHeartbeat)
    }

    ghost function Settings(): Setup
      reads this
    {
      Setup(storage != null, managed && connectivity != null, codec, requestable, capacity, sizing, maxRetries,
            heartbeats, heartbeatInterval)
    }

    /** Publishers offer messages; those without room are refused. */
    method Offer(offered: seq<Message>)
      requires Valid()
      modifies this`queue
      ensures Valid() && queue == old(queue) + Admitted(offered, |old(queue)|, capacity)
    {
      for i := 0 to |offered|
        invariant Valid()
        invariant queue == old(queue) + Admitted(offered[..i], |old(queue)|, capacity)
      {
        assert offered[..i + 1] == offered[..i] + [offered[i]];
        if |queue| < capacity {
          queue := queue + [offered[i]];
        }
      }
      assert offered[..|offered|] == offered;
    }

    method Pull(buf: Buffer)
      requires Valid() && buf.Valid() && queue != []
      modifies this`queue, buf, buf.data
      ensures Valid() && buf.Valid() && (buf.data == old(buf.data) || fresh(buf.data))
      ensures Snapshot(buf) == Take(old(Snapshot(buf)))
    {
      var msg := queue[0];
      queue := queue[1..];
      buf.Append(msg);
    }

    /** Flushes the batch in hand and empties the buffer. */
    method FlushBuffer(buf: Buffer, net: Network, stamps: Stamps) returns (ghost try: Try)
      requires Valid() && buf.Valid() && buf.length > 0 && Interfered(net, maxRetries)
      modifies this`wire, connectivity, storage, buf`length
      ensures Valid() && buf.Valid()
      ensures Snapshot(buf) == Flush(Settings(), old(Snapshot(buf)), net, try, stamps)
      ensures Honest(Sendable(old(buf.Contents())), maxRetries, net, try)
    {
      var ok, attempts, backoff := FlushBatch(buf.data[..buf.length], net, stamps);
      buf.Clear();
      try := Try(ok, attempts);
    }

    /** FlushBuffer, as the ticker does it. */
    method TickSend(buf: Buffer, net: Network, stamps: Stamps) returns (ghost try: Try)
      requires Valid() && buf.Valid() && buf.length > 0 && Interfered(net, maxRetries)
      modifies this`wire, connectivity, storage, buf`length
      ensures Valid() && buf.Valid()
      ensures Snapshot(buf) == Flush(Settings(), old(Snapshot(buf)), net, try, stamps)
      ensures Honest(Sendable(old(buf.Contents())), maxRetries, net, try)
    {
      var ok, attempts, backoff := TickFlush(buf.data[..buf.length], net, stamps);
      buf.Clear();
      try := Try(ok, attempts);
    }

    /** Takes the next message, and flushes once the batch is as large as the metrics allow. */
    method TakeNext(buf: Buffer, t: Turn) returns (ghost try: Try)
      requires Valid() && buf.Valid() && queue != [] && Interfered(t.net, maxRetries)
      modifies this`queue, this`wire, connectivity, storage, buf, buf.data
      ensures Valid() && buf.Valid() && (buf.data == old(buf.data) || fresh(buf.data))
      ensures Received(Settings(), old(Snapshot(buf)), t, try, Snapshot(buf))
    {
      Pull(buf);
      try := Try(true, 0);
      if buf.length >= BatchSize(sizing, t.metrics) {
        try := FlushBuffer(buf, t.net, t.stamps);
      }
    }

    /** The ticker's first part: sends what is in hand, then sweeps the store. */
    method TickSweep(buf: Buffer, t: Turn) returns (ghost try: Try)
      requires Valid() && buf.Valid() && Interfered(t.net, maxRetries)
      modifies this`wire, connectivity, storage, buf`length
      ensures Valid() && buf.Valid()
      ensures SentAndSwept(Settings(), old(Snapshot(buf)), t, try, Snapshot(buf))
      ensures var a := old(Snapshot(buf));
        var f := if a.batch != [] then Flush(Settings(), a, t.net, try, t.stamps) else a;
        if storage != null && t.cleans then LeavesUnexpired(f.bucket, t.cleanAt, Bucket()) else Bucket() == f.bucket
    {
      try := Try(true, 0);
      if buf.length > 0 {
        try := TickSend(buf, t.net, t.stamps);
      }
      if storage != null {
        UnexpiredAsMap(storage.bucket, t.cleanAt);
        var cleaned := storage.CleanupExpired(t.cleanAt, t.cleans);
      }
    }

    /** Its second part: a heartbeat when one is due, timed only when it gets through. */
    method TickBeat(buf: Buffer, t: Turn) returns (ghost try: Try)
      requires Valid() && buf.Valid() && Interfered(t.beatNet, maxRetries)
      modifies this`wire, this`lastHeartbeat, connectivity
      ensures Valid() && buf.Valid()
      ensures Beaten(Settings(), old(Snapshot(buf)), t, try, Snapshot(buf))
    {
      try := Try(true, 0);
      OnlineByTrace();
      if heartbeats && IsOnline() {
        if t.beatAt - lastHeartbeat >= heartbeatInterval {
          var ok, attempts, backoff := SendMessages([t.beat], t.beatNet);
          if ok {
            lastHeartbeat := t.beatAt;
          }
          try := Try(ok, attempts);
        }
      }
    }

    lemma OnlineByTrace()
      requires connectivity != null ==> connectivity.Valid()
      ensures IsOnline() <==> (managed && connectivity != null ==> Online(Trace()))
    {
      if connectivity != null {
        OnlineIsLast(connectivity.start, connectivity.trace);
      }
    }

    /** A turn in which the select receives. */
    method ReceiveTurn(buf: Buffer, t: Turn) returns (ghost r: Result)
      requires Valid() && buf.Valid() && Interfered(t.net, maxRetries) && t.event.Receive?
      modifies this`queue, this`wire, connectivity, storage, buf, buf.data
      ensures Valid() && buf.Valid() && (buf.data == old(buf.data) || fresh(buf.data))
      ensures Snapshot(buf) == Turned(Settings(), old(Snapshot(buf)), t, r)
      ensures HonestTurn(Settings(), old(Snapshot(buf)), t, r)
    {
      ghost var c, s := Settings(), Snapshot(buf);
      Offer(t.arrivals);
      ghost var a := Snapshot(buf);
      r := Result(Try(true, 0), Try(true, 0));
      if queue == [] {
        TurnIdle(c, s, t, r);
      } else {
        ghost var try := TakeNext(buf, t);
        TurnReceived(c, s, t, a, try, Snapshot(buf), r.beat);
        r := Result(try, r.beat);
      }
    }

    /** A turn in which the ticker fires. */
    method TickTurn(buf: Buffer, t: Turn) returns (ghost r: Result)
      requires Valid() && buf.Valid() && Interfered(t.net, maxRetries) && Interfered(t.beatNet, maxRetries)
      requires t.event.Tick?
      modifies this`queue, this`wire, this`lastHeartbeat, connectivity, storage, buf`length
      ensures Valid() && buf.Valid()
      ensures Snapshot(buf) == Turned(Settings(), old(Snapshot(buf)), t, r)
      ensures HonestTurn(Settings(), old(Snapshot(buf)), t, r)
    {
      ghost var c, s := Settings(), Snapshot(buf);
      Offer(t.arrivals);
      ghost var a := Snapshot(buf);
      ghost var try := TickSweep(buf, t);
      ghost var w := Snapshot(buf);
      ghost var beat := TickBeat(buf, t);
      r := Result(try, beat);
      TurnTicked(c, s, t, a, try, w, beat, Snapshot(buf));
    }

    /** One turn of the select loop. */
    method OneTurn(buf: Buffer, t: Turn) returns (ghost r: Result)
      requires Valid() && buf.Valid() && Interfered(t.net, maxRetries) && Interfered(t.beatNet, maxRetries)
      modifies this`queue, this`wire, this`lastHeartbeat, connectivity, storage, buf, buf.data
      ensures Valid() && buf.Valid() && (buf.data == old(buf.data) || fresh(buf.data))
      ensures Snapshot(buf) == Turned(Settings(), old(Snapshot(buf)), t, r)
      ensures HonestTurn(Settings(), old(Snapshot(buf)), t, r)
    {
      match t.event
      case Receive => r := ReceiveTurn(buf, t);
      case Tick => r := TickTurn(buf, t);
    }

    /** One more turn of a run that started from s. */
    method NextTurn(buf: Buffer, t: Turn, ghost turns: seq<Turn>, ghost s: Snap, ghost rs: seq<Result>)
      returns (ghost r: Result)
      requires Valid() && buf.Valid() && InterferedTurn(t) && |rs| < |turns| && turns[|rs|] == t
      requires Leads(Settings(), s, turns, rs, Snapshot(buf))
      modifies this`queue, this`wire, this`lastHeartbeat, connectivity, storage, buf, buf.data
      ensures Valid() && buf.Valid() && (buf.data == old(buf.data) || fresh(buf.data))
      ensures Leads(Settings(), s, turns, rs + [r], Snapshot(buf))
    {
      ghost var before := Snapshot(buf);
      r := OneTurn(buf, t);
      OneMoreTurn(Settings(), s, turns, rs, before, r);
    }

    method RunTurns(buf: Buffer, turns: seq<Turn>) returns (ghost rs: seq<Result>)
      requires Valid() && buf.Valid() && forall i :: 0 <= i < |turns| ==> InterferedTurn(turns[i])
      modifies this`queue, this`wire, this`lastHeartbeat, connectivity, storage, buf, buf.data
      ensures Valid() && buf.Valid() && (buf.data == old(buf.data) || fresh(buf.data)) && |rs| == |turns|
      ensures Leads(Settings(), old(Snapshot(buf)), turns, rs, Snapshot(buf))
    {
      ghost var s := Snapshot(buf);
      rs := [];
      for i := 0 to |turns|
        invariant Valid() && buf.Valid() && (buf.data == old(buf.data) || fresh(buf.data)) && |rs| == i
        invariant Leads(Settings(), s, turns, rs, Snapshot(buf))
      {
        assert InterferedTurn(turns[i]);
        ghost var r := NextTurn(buf, turns[i], turns, s, rs);
        rs := rs + [r];
      }
    }

    ghost predicate InterferedTurn(t: Turn)
      reads this
    {
      Interfered(t.net, maxRetries) && Interfered(t.beatNet, maxRetries)
    }

    /** Empties the queue into the batch, with publishers still offering. */
    method Drain(buf: Buffer, offers: seq<seq<Message>>)
      requires Valid() && buf.Valid()
      modifies this`queue, buf, buf.data
      ensures Valid() && buf.Valid() && queue == [] && (buf.data == old(buf.data) || fresh(buf.data))
      ensures buf.Contents() == Gathered(old(buf.Contents()), old(queue), offers, capacity)
    {
      var i := 0;
      while true
        invariant Valid() && buf.Valid() && (buf.data == old(buf.data) || fresh(buf.data)) && 0 <= i <= |offers|
        invariant Gathered(buf.Contents(), queue, offers[i..], capacity)
               == Gathered(old(buf.Contents()), old(queue), offers, capacity)
        decreases |offers| - i, |queue|
      {
        DrainLook(buf.Contents(), queue, offers[i..], capacity);
        if i < |offers| {
          Offer(offers[i]);
          i := i + 1;
        }
        if queue == [] {
          break;
        }
        Pull(buf);
      }
    }

    /**
     After the stop signal: empty the queue, flush, leave. What came before the drain found the
     queue empty goes out; what came late stays behind in the queue.
     */
    method Shutdown(buf: Buffer, e: Ending) returns (ghost try: Try)
      requires Valid() && buf.Valid() && Interfered(e.net, maxRetries)
      modifies this`queue, this`wire, connectivity, storage, buf, buf.data
      ensures Valid() && buf.Valid()
      ensures Snapshot(buf) == Stopped(Settings(), old(Snapshot(buf)), e, try)
      ensures var last := LastBatch(Settings(), old(Snapshot(buf)), e);
        last != [] ==> Honest(Sendable(last), maxRetries, e.net, try)
    {
      Drain(buf, e.offers);
      try := Try(true, 0);
      if buf.length > 0 {
        try := FlushBuffer(buf, e.net, e.stamps);
      }
      Offer(e.late);
    }

    /**
     The consumer: any number of turns, then, if the stop signal comes, the drain. How each
     turn's sends came out is in rs, and how the last one did in try.
     */
    method ProcessQueue(turns: seq<Turn>, ending: Option<Ending>)
      returns (ghost rs: seq<Result>, ghost try: Try, ghost batch: seq<Message>)
      requires Valid() && forall i :: 0 <= i < |turns| ==> InterferedTurn(turns[i])
      requires ending.Some? ==> Interfered(ending.value.net, maxRetries)
      modifies this`queue, this`wire, this`lastHeartbeat, connectivity, storage
      ensures Valid() && |rs| == |turns|
      ensures var c := Settings();
        var s := Snap([], old(queue), old(wire), old(Bucket()), old(Trace()), old(lastHeartbeat));
        var t := After(c, s, turns, rs, |turns|);
        && AllHonest(c, s, turns, rs, |turns|)
        && Snap(batch, queue, wire, Bucket(), Trace(), lastHeartbeat)
             == (if ending.Some? then Stopped(c, t, ending.value, try) else t)
        && (ending.Some? && LastBatch(c, t, ending.value) != [] ==>
              Honest(Sendable(LastBatch(c, t, ending.value)), maxRetries, ending.value.net, try))
    {
      var buf := new Buffer(sizing.maxBatch);
      assert Snapshot(buf) == Snap([], queue, wire, Bucket(), Trace(), lastHeartbeat);
      rs := RunTurns(buf, turns);
      try := Try(true, 0);
      if ending.Some? {
        try := Shutdown(buf, ending.value);
      }
      batch := buf.Contents();
    }
  }

  /** Splits fetched records, in no particular order, into a batch to send and ids to delete. */
  method Partition(stored: map<Key, StoredMessage>, now: int, stamp: nat -> string)
    returns (batch: seq<Message>, idsToDelete: seq<Key>, expiredIds: seq<Key>)
    ensures NoDup(idsToDelete) && Elements(idsToDelete) == LiveKeys(stored, now)
    ensures Elements(idsToDelete) <= stored.Keys
    ensures Elements(expiredIds) == RetryCycle.ExpiredKeys(stored, now)
    ensures batch == Outgoing(stored, idsToDelete, stamp) && CarriesAll(batch, stored, idsToDelete, stamp)
  {
    batch, idsToDelete, expiredIds := [], [], [];
    var todo := stored.Keys;
    while todo != {}
      invariant todo <= stored.Keys
      invariant NoDup(idsToDelete) && Elements(idsToDelete) == LiveKeys(stored, now) - todo
      invariant Elements(expiredIds) == RetryCycle.ExpiredKeys(stored, now) - todo
      invariant Elements(idsToDelete) <= stored.Keys
      invariant batch == Outgoing(stored, idsToDelete, stamp) && |batch| == |idsToDelete|
      decreases todo
    {
      var id :| id in todo;
      OneMoreKey(stored, now, todo, id);
      todo := todo - {id};
      if Expired(stored[id], now) {
        ElementsSnoc(expiredIds, id);
        expiredIds := expiredIds + [id];
      } else {
        ElementsSnoc(idsToDelete, id);
        batch := batch + [RetryMessage(stored[id], stamp(|batch|))];
        idsToDelete := idsToDelete + [id];
      }
    }
    assert CarriesAll(batch, stored, idsToDelete, stamp) by { OutgoingCarries(stored, idsToDelete, stamp); }
  }
}
