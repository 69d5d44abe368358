/**
 The check-rate protocol between any number of rate setters and the inbound poller: the rate
 under its lock, a one-slot wake-up channel, and a timer the poller re-arms.
 */
module Poller {
  import opened Wrappers

  /**
   Where the poller is: about to read the rate (at start, or woken), about to arm the timer with
   what it read, in its select, busy with a check after the timer fired, or gone.
   */
  datatype PollerPc = Reading | Arming(read: int) | Waiting | Checking | Gone

  /** pending holds the calls to SetMessageCheckRate between their write and their signal. */
  datatype State = State(rate: int, token: bool, pending: set<nat>, pc: PollerPc, armed: Option<int>)

  datatype Step =
    | SetRate(caller: nat, rate: int)   // the guard and the locked write
    | Signal(caller: nat)               // the non-blocking send
    | Fire
    | CheckDone
    | TakeToken
    | Read
    | Arm
    | Leave

  predicate Init(s: State) {
    s.rate > 0 && !s.token && s.pending == {} && s.pc == Reading && s.armed == None
  }

  predicate Enabled(s: State, step: Step) {
    match step
    case SetRate(caller, _) => caller !in s.pending
    case Signal(caller) => caller in s.pending
    case Fire => s.pc.Waiting?
    case CheckDone => s.pc.Checking?
    case TakeToken => s.pc.Waiting? && s.token
    case Read => s.pc.Reading?
    case Arm => s.pc.Arming?
    case Leave => s.pc.Waiting?
  }

  function Apply(s: State, step: Step): State
    requires Enabled(s, step)
  {
    match step
    case SetRate(caller, rate) => if rate <= 0 then s else s.(rate := rate, pending := s.pending + {caller})
    case Signal(caller) => s.(token := true, pending := s.pending - {caller})
    case Fire => s.(pc := Checking)
    case CheckDone => s.(pc := Reading)
    case TakeToken => s.(token := false, pc := Reading)
    case Read => s.(pc := Arming(s.rate))
    case Arm => s.(pc := Waiting, armed := Some(s.pc.read))
    case Leave => s.(pc := Gone)
  }

  predicate IsRun(s: State, steps: seq<Step>)
    decreases |steps|
  {
    steps == [] || (Enabled(s, steps[0]) && IsRun(Apply(s, steps[0]), steps[1..]))
  }

  function Exec(s: State, steps: seq<Step>): State
    requires IsRun(s, steps)
    decreases |steps|
  {
    if steps == [] then s else Exec(Apply(s, steps[0]), steps[1..])
  }

  /** The poller has yet to read the rate before its next wait. */
  predicate YetToRead(s: State) { s.pc.Reading? || s.pc.Checking? }

  /** The interval the next wait runs on, once it has been read. */
  function Interval(s: State): Option<int> { if s.pc.Arming? then Some(s.pc.read) else s.armed }

  /** A rate the poller does not have is announced, about to be announced, or about to be read. */
  predicate Announced(s: State) {
    && s.rate > 0
    && (s.armed.None? ==> YetToRead(s) || s.pc.Arming?)
    && (Interval(s) != Some(s.rate) ==> s.token || s.pending != {} || YetToRead(s))
  }

  lemma {:induction false} AnnouncedAlong(s: State, steps: seq<Step>)
    requires Announced(s) && IsRun(s, steps)
    ensures Announced(Exec(s, steps))
    decreases |steps|
  {
    if steps != [] {
      assert Announced(Apply(s, steps[0]));
      AnnouncedAlong(Apply(s, steps[0]), steps[1..]);
    }
  }

  /** Nothing is under way: no setter before its signal, no token, the poller in its select. */
  predicate Quiescent(s: State) { s.pending == {} && !s.token && s.pc.Waiting? }

  /**
   No rate change is lost, whatever the interleaving: an out-of-date timer is always about to be
   corrected, and at quiescence the timer runs on the current rate.
   */
  lemma NoLostRateChange(s0: State, steps: seq<Step>)
    requires Init(s0) && IsRun(s0, steps)
    ensures var s := Exec(s0, steps);
      && (s.armed != Some(s.rate) ==> s.token || s.pending != {} || YetToRead(s) || s.pc == Arming(s.rate))
      && (Quiescent(s) ==> s.armed == Some(s.rate))
  {
    AnnouncedAlong(s0, steps);
  }

  /** This step sets the rate: a rate that is not positive is ignored. */
  predicate Sets(step: Step) { step.SetRate? && step.rate > 0 }

  lemma {:induction false} NeverSet(s0: State, steps: seq<Step>)
    requires IsRun(s0, steps) && forall i :: 0 <= i < |steps| ==> !Sets(steps[i])
    ensures Exec(s0, steps).rate == s0.rate
    decreases |steps|
  {
    if steps != [] {
      NeverSet(Apply(s0, steps[0]), steps[1..]);
    }
  }

  /** The rate is the last one set in the run; if none was, it is still the one the poller started with. */
  lemma {:induction false} RateIsLastSet(s0: State, steps: seq<Step>, i: nat)
    requires IsRun(s0, steps) && i < |steps| && Sets(steps[i])
    requires forall j :: i < j < |steps| ==> !Sets(steps[j])
    ensures Exec(s0, steps).rate == steps[i].rate
    decreases i
  {
    var rest := steps[1..];
    assert forall j :: 0 <= j < |rest| ==> rest[j] == steps[j + 1];
    if i == 0 {
      NeverSet(Apply(s0, steps[0]), rest);
    } else {
      RateIsLastSet(Apply(s0, steps[0]), rest, i - 1);
    }
  }

  // ---- Settling ----

  /** Steps that finish what is under way; the others start something new, or end the poller. */
  predicate Settling(step: Step) { !step.SetRate? && !step.Fire? && !step.Leave? }

  /** How many settling steps can still follow. */
  function Work(s: State): nat {
    4 * |s.pending| + (if s.token then 3 else 0)
    + match s.pc case Checking => 3 case Reading => 2 case Arming(_) => 1 case _ => 0
  }

  /** Once no setter is called and the timer stays quiet, only so many steps can follow. */
  lemma {:induction false} SettlesWithin(s: State, steps: seq<Step>)
    requires IsRun(s, steps) && forall i :: 0 <= i < |steps| ==> Settling(steps[i])
    ensures |steps| + Work(Exec(s, steps)) <= Work(s)
    ensures Exec(s, steps).rate == s.rate && (Exec(s, steps).pc.Gone? <==> s.pc.Gone?)
    decreases |steps|
  {
    if steps != [] {
      assert Settling(steps[0]);
      match steps[0] {
        case Signal(caller) => assert |s.pending - {caller}| == |s.pending| - 1;
        case _ =>
      }
      SettlesWithin(Apply(s, steps[0]), steps[1..]);
    }
  }

  /** And when none is left to take, the poller waits on the rate last set. */
  lemma SettledIsCurrent(s0: State, steps: seq<Step>)
    requires Init(s0) && IsRun(s0, steps)
    requires var s := Exec(s0, steps); !s.pc.Gone? && forall step :: Settling(step) ==> !Enabled(s, step)
    ensures var s := Exec(s0, steps); Quiescent(s) && s.armed == Some(s.rate)
  {
    var s := Exec(s0, steps);
    assert Settling(CheckDone) && Settling(TakeToken) && Settling(Read) && Settling(Arm);
    if s.pending != {} {
      var caller :| caller in s.pending;
      assert Settling(Signal(caller)) && Enabled(s, Signal(caller));
    }
    NoLostRateChange(s0, steps);
  }
}
