/**
 MaxRetries and the HTTP timeout as the offline retrier borrows them: sendOfflineBatch saves both,
 cuts both, sends, and puts both back, while any number of other senders read them with no lock.
 */
module RetryBudget {
  import opened Sending

  /** The two settings a send reads; each is read and written on its own. */
  datatype Settings = Settings(maxRetries: int, timeout: int)

  /** How far the one retrier is in sendOfflineBatch, and what it has saved. */
  datatype RetrierPc =
    | Idle
    | TimeoutSaved(timeout: int)
    | TimeoutCut(timeout: int)
    | BothSaved(timeout: int, maxRetries: int)
    | Retrying(timeout: int, maxRetries: int)
    | MaxRestored(timeout: int)

  datatype Who = Retrier | Sender(id: nat)

  /** A reading of one of the settings. */
  datatype Reading = Limit(who: Who, value: int) | Timeout(who: Who, value: int)

  datatype State = State(now: Settings, pc: RetrierPc, readings: seq<Reading>)

  datatype Step =
    | SaveTimeout
    | CutTimeout
    | SaveMax
    | CutMax
    | RestoreMax
    | RestoreTimeout
    | ReadLimit(who: Who)
    | ReadTimeout(who: Who)

  predicate Init(s: State, configured: Settings) { s == State(configured, Idle, []) }

  predicate Enabled(s: State, step: Step) {
    match step
    case SaveTimeout => s.pc.Idle?
    case CutTimeout => s.pc.TimeoutSaved?
    case SaveMax => s.pc.TimeoutCut?
    case CutMax => s.pc.BothSaved?
    case RestoreMax => s.pc.Retrying?
    case RestoreTimeout => s.pc.MaxRestored?
    case ReadLimit(who) => who.Retrier? ==> s.pc.Retrying?
    case ReadTimeout(who) => who.Retrier? ==> s.pc.Retrying?
  }

  function Apply(s: State, step: Step): State
    requires Enabled(s, step)
  {
    match step
    case SaveTimeout => s.(pc := TimeoutSaved(s.now.timeout))
    case CutTimeout => s.(now := s.now.(timeout := OFFLINE_TIMEOUT), pc := TimeoutCut(s.pc.timeout))
    case SaveMax => s.(pc := BothSaved(s.pc.timeout, s.now.maxRetries))
    case CutMax => s.(now := s.now.(maxRetries := 1), pc := Retrying(s.pc.timeout, s.pc.maxRetries))
    case RestoreMax => s.(now := s.now.(maxRetries := s.pc.maxRetries), pc := MaxRestored(s.pc.timeout))
    case RestoreTimeout => s.(now := s.now.(timeout := s.pc.timeout), pc := Idle)
    case ReadLimit(who) => s.(readings := s.readings + [Limit(who, s.now.maxRetries)])
    case ReadTimeout(who) => s.(readings := s.readings + [Timeout(who, s.now.timeout)])
  }

  predicate IsRun(s: State, steps: seq<Step>)
    decreases |steps|
  {
    steps == [] || (Enabled(s, steps[0]) && IsRun(Apply(s, steps[0]), steps[1..]))
  }

  function Exec(s: State, steps: seq<Step>): State
    requires IsRun(s, steps)
    decreases |steps|
  {
    if steps == [] then s else Exec(Apply(s, steps[0]), steps[1..])
  }

  // ---- What every step keeps ----

  /** The retrier holds what it will put back, and has cut what it has not put back yet. */
  predicate Borrowed(s: State, configured: Settings) {
    match s.pc
    case Idle => s.now == configured
    case TimeoutSaved(timeout) => s.now == configured && timeout == configured.timeout
    case TimeoutCut(timeout) => s.now == configured.(timeout := OFFLINE_TIMEOUT) && timeout == configured.timeout
    case BothSaved(timeout, maxRetries) =>
      s.now == configured.(timeout := OFFLINE_TIMEOUT) && Settings(maxRetries, timeout) == configured
    case Retrying(timeout, maxRetries) =>
      s.now == Settings(1, OFFLINE_TIMEOUT) && Settings(maxRetries, timeout) == configured
    case MaxRestored(timeout) => s.now == configured.(timeout := OFFLINE_TIMEOUT) && timeout == configured.timeout
  }

  /** The retrier reads what it has set; any other sender reads that or what is configured. */
  predicate Explained(r: Reading, configured: Settings) {
    match r
    case Limit(who, value) => value == 1 || (who.Sender? && value == configured.maxRetries)
    case Timeout(who, value) => value == OFFLINE_TIMEOUT || (who.Sender? && value == configured.timeout)
  }

  predicate Inv(s: State, configured: Settings) {
    Borrowed(s, configured) && forall i :: 0 <= i < |s.readings| ==> Explained(s.readings[i], configured)
  }

  lemma {:induction false} InvAlong(s: State, steps: seq<Step>, configured: Settings)
    requires Inv(s, configured) && IsRun(s, steps)
    ensures Inv(Exec(s, steps), configured)
    decreases |steps|
  {
    if steps != [] {
      InvAlong(Apply(s, steps[0]), steps[1..], configured);
    }
  }

  /** However senders and retries interleave, both settings are as configured whenever no retry is under way. */
  lemma RestoredWhenIdle(s: State, steps: seq<Step>, configured: Settings)
    requires Init(s, configured) && IsRun(s, steps)
    ensures var t := Exec(s, steps);
      && (t.pc.Idle? ==> t.now == configured)
      && (t.now.maxRetries != configured.maxRetries ==> t.pc.Retrying? && t.now.maxRetries == 1)
      && (t.now.timeout != configured.timeout ==> !t.pc.Idle? && t.now.timeout == 5)
  {
    InvAlong(s, steps, configured);
  }

  // ---- What one send reads ----

  /** What MaxRetries was read as by one sender, reading by reading. */
  function LimitsRead(readings: seq<Reading>, who: Who): seq<int> {
    if readings == [] then [] else
    var last := readings[|readings| - 1];
    LimitsRead(readings[..|readings| - 1], who) + if last.Limit? && last.who == who then [last.value] else []
  }

  lemma {:induction false} LimitsExplained(readings: seq<Reading>, who: Who, configured: Settings)
    requires forall i :: 0 <= i < |readings| ==> Explained(readings[i], configured)
    ensures forall v :: v in LimitsRead(readings, who) ==> v == 1 || (who.Sender? && v == configured.maxRetries)
  {
    if readings != [] {
      LimitsExplained(readings[..|readings| - 1], who, configured);
      assert Explained(readings[|readings| - 1], configured);
    }
  }

  /** The limits of a send whose readings were these; later ones, never made, read rest. */
  function Limits(read: seq<int>, rest: int): nat -> int { (r: nat) => if r < |read| then read[r] else rest }

  /**
   The readings of any send in any run are those the send loop is proved for: the configured limit
   or 1 for a sender, 1 throughout for the retrier.
   */
  lemma SendsAreInterfered(s: State, steps: seq<Step>, configured: Settings, id: nat, from: nat, own: nat,
                           replies: nat -> Reply, clock: nat -> int)
    requires Init(s, configured) && IsRun(s, steps) && configured.maxRetries >= 1
    requires from <= |LimitsRead(Exec(s, steps).readings, Sender(id))|
    requires own <= |LimitsRead(Exec(s, steps).readings, Retrier)|
    ensures var readings := Exec(s, steps).readings;
      var limits := Limits(LimitsRead(readings, Sender(id))[from..], configured.maxRetries);
      && Interfered(Network(replies, limits, clock), configured.maxRetries)
      && Undisturbed(Network(replies, Limits(LimitsRead(readings, Retrier)[own..], 1), clock), 1)
  {
    InvAlong(s, steps, configured);
    var readings := Exec(s, steps).readings;
    LimitsExplained(readings, Sender(id), configured);
    LimitsExplained(readings, Retrier, configured);
    var sender, retrier := LimitsRead(readings, Sender(id)), LimitsRead(readings, Retrier);
    forall r: nat | r < |sender[from..]| ensures sender[from..][r] in sender { }
    forall r: nat | r < |retrier[own..]| ensures retrier[own..][r] in retrier { }
  }

  // ---- And all of them happen ----

  lemma {:induction false} RunThen(s: State, steps: seq<Step>, more: seq<Step>)
    requires IsRun(s, steps) && IsRun(Exec(s, steps), more)
    ensures IsRun(s, steps + more) && Exec(s, steps + more) == Exec(Exec(s, steps), more)
    decreases |steps|
  {
    if steps == [] {
      assert steps + more == more;
    } else {
      RunThen(Apply(s, steps[0]), steps[1..], more);
      assert (steps + more)[0] == steps[0] && (steps + more)[1..] == steps[1..] + more;
    }
  }

  /** From rest a sender can read the configured limit, or, in the middle of a retry, 1. */
  lemma OneReading(s: State, configured: Settings, id: nat, value: int) returns (steps: seq<Step>)
    requires s.pc.Idle? && s.now == configured && (value == configured.maxRetries || value == 1)
    ensures IsRun(s, steps) && Exec(s, steps) == s.(readings := s.readings + [Limit(Sender(id), value)])
  {
    var read := ReadLimit(Sender(id));
    if value == configured.maxRetries {
      steps := [read];
      assert IsRun(Apply(s, read), steps[1..]);
    } else {
      var s1 := Apply(s, SaveTimeout);
      var s2 := Apply(s1, CutTimeout);
      var s3 := Apply(s2, SaveMax);
      var s4 := Apply(s3, CutMax);
      var s5 := Apply(s4, read);
      var s6 := Apply(s5, RestoreMax);
      OneStep(s6, RestoreTimeout);
      StepBefore(s5, RestoreMax, [RestoreTimeout]);
      StepBefore(s4, read, [RestoreMax, RestoreTimeout]);
      StepBefore(s3, CutMax, [read, RestoreMax, RestoreTimeout]);
      StepBefore(s2, SaveMax, [CutMax, read, RestoreMax, RestoreTimeout]);
      StepBefore(s1, CutTimeout, [SaveMax, CutMax, read, RestoreMax, RestoreTimeout]);
      steps := [SaveTimeout] + [CutTimeout, SaveMax, CutMax, read, RestoreMax, RestoreTimeout];
      StepBefore(s, SaveTimeout, [CutTimeout, SaveMax, CutMax, read, RestoreMax, RestoreTimeout]);
    }
  }

  lemma OneStep(s: State, step: Step)
    requires Enabled(s, step)
    ensures IsRun(s, [step]) && Exec(s, [step]) == Apply(s, step)
  {
    assert [step][1..] == [];
  }

  lemma StepBefore(s: State, step: Step, rest: seq<Step>)
    requires Enabled(s, step) && IsRun(Apply(s, step), rest)
    ensures IsRun(s, [step] + rest) && Exec(s, [step] + rest) == Exec(Apply(s, step), rest)
  {
    assert ([step] + rest)[1..] == rest;
  }

  /** Any sequence of these two values is what some run's sender reads: the send loop assumes nothing less. */
  lemma {:induction false} AnyReadingsHappen(s: State, configured: Settings, id: nat, values: seq<int>)
    returns (steps: seq<Step>)
    requires Init(s, configured) && forall v :: v in values ==> v == configured.maxRetries || v == 1
    ensures IsRun(s, steps) && LimitsRead(Exec(s, steps).readings, Sender(id)) == values
    ensures Exec(s, steps).pc.Idle? && Exec(s, steps).now == configured
  {
    if values == [] {
      steps := [];
    } else {
      var n := |values| - 1;
      assert values[n] in values && forall v :: v in values[..n] ==> v in values;
      var before := AnyReadingsHappen(s, configured, id, values[..n]);
      var t := Exec(s, before);
      var more := OneReading(t, configured, id, values[n]);
      RunThen(s, before, more);
      steps := before + more;
      var read := Limit(Sender(id), values[n]);
      assert (t.readings + [read])[..|t.readings|] == t.readings;
      assert values == values[..n] + [values[n]];
    }
  }
}
