/** The WaitGroup, the done channel and the store: who is alive when storage is closed. */
module Shutdown {
  /** The background goroutines; a client may have any number of tethers. */
  datatype Role =
    | QueueProcessor
    | MetricsUpdater
    | OfflineRetrier
    | ConnectivityMonitor
    | InboundPoller
    | Tether(id: nat)

  datatype Switches = Switches(managed: bool, offlineStorage: bool, offlineRetry: bool, connectivityCheck: bool)

  function With(roles: set<Role>, on: bool, role: Role): set<Role> { if on then roles + {role} else roles }

  /** The goroutines a managed client with these switches is meant to run; a headless one runs none. */
  function Meant(c: Switches): set<Role> {
    if !c.managed then {} else
    var core := {QueueProcessor} + {MetricsUpdater};
    With(With(core, c.offlineStorage && c.offlineRetry, OfflineRetrier), c.connectivityCheck, ConnectivityMonitor)
    + {InboundPoller}
  }

  /** Which those are, switch by switch; tethers are started later, by the user. */
  lemma MeantAre(c: Switches)
    ensures QueueProcessor in Meant(c) <==> c.managed
    ensures MetricsUpdater in Meant(c) <==> c.managed
    ensures InboundPoller in Meant(c) <==> c.managed
    ensures OfflineRetrier in Meant(c) <==> c.managed && c.offlineStorage && c.offlineRetry
    ensures ConnectivityMonitor in Meant(c) <==> c.managed && c.connectivityCheck
    ensures forall role :: role in Meant(c) ==> !role.Tether?
  {
  }

  /** What both constructors do: the count is added up front, the goroutines are started one by one. */
  method StartBackground(c: Switches) returns (wg: nat, live: set<Role>, storageOpen: bool)
    ensures live == Meant(c)
    ensures wg == |live|
    ensures storageOpen == (c.managed && c.offlineStorage)
    ensures OfflineRetrier in live ==> storageOpen
  {
    wg, live, storageOpen := 0, {}, false;
    if c.managed {
      if c.offlineStorage {
        storageOpen := true;
      }
      var goroutineCount := 2;
      if c.offlineStorage && c.offlineRetry {
        goroutineCount := goroutineCount + 1;
      }
      if c.connectivityCheck {
        goroutineCount := goroutineCount + 1;
      }
      wg := wg + goroutineCount;
      live := {QueueProcessor};
      live := Spawn(live, MetricsUpdater);
      if c.offlineStorage && c.offlineRetry {
        live := Spawn(live, OfflineRetrier);
      }
      if c.connectivityCheck {
        live := Spawn(live, ConnectivityMonitor);
      }
      wg, live := StartMessageChecking(c, wg, live);
    }
  }

  /** A go statement. */
  method Spawn(started: set<Role>, role: Role) returns (live: set<Role>)
    requires role !in started
    ensures live == started + {role} && |live| == |started| + 1
  {
    live := started + {role};
  }

  method StartMessageChecking(c: Switches, count: nat, started: set<Role>) returns (wg: nat, live: set<Role>)
    requires count == |started| && InboundPoller !in started
    ensures live == started + (if c.managed then {InboundPoller} else {}) && wg == |live|
  {
    wg, live := count, started;
    if !c.managed {
      assert live == started + {};
      return;
    }
    wg := wg + 1;
    live := Spawn(live, InboundPoller);
  }

  // ---- From start to Stop ----

  datatype StopPc = Running | Waiting | Passed | Stopped

  datatype State = State(
    wg: nat,
    live: set<Role>,
    leaving: set<Role>,        // seen done, finishing what they were at
    doneClosed: bool,
    storageOpen: bool,
    stop: StopPc,
    late: set<Role>,           // started after Stop stopped waiting
    misused: set<Role>         // used the store after it was closed
  )

  datatype Step =
    | Use(role: Role)          // a goroutine stores, reads or deletes, while running or on its way out
    | SeeDone(role: Role)
    | Exit(role: Role)
    | EndTether(role: Role)    // the tether's own stop function
    | StartTether(role: Role)
    | CloseDone
    | WaitReturns
    | CloseStorage

  predicate Init(s: State) {
    && s.wg == |s.live| && s.leaving == {} && !s.doneClosed && s.stop == Running
    && s.late == {} && s.misused == {}
  }

  predicate Enabled(s: State, step: Step) {
    match step
    case Use(role) => role in s.live
    case SeeDone(role) => role in s.live && s.doneClosed
    case Exit(role) => role in s.leaving && role in s.live
    case EndTether(role) => role in s.live && role.Tether?
    case StartTether(role) => role !in s.live && role.Tether?
    case CloseDone => s.stop.Running?
    case WaitReturns => s.stop.Waiting? && s.wg == 0
    case CloseStorage => s.stop.Passed?
  }

  function Apply(s: State, step: Step): State
    requires Enabled(s, step)
  {
    match step
    case Use(role) => if s.stop.Stopped? && !s.storageOpen then s.(misused := s.misused + {role}) else s
    case SeeDone(role) => s.(leaving := s.leaving + {role})
    case Exit(role) =>
      s.(live := s.live - {role}, leaving := s.leaving - {role}, wg := if s.wg > 0 then s.wg - 1 else 0)
    case EndTether(role) => s.(leaving := s.leaving + {role})
    case StartTether(role) =>
      s.(live := s.live + {role}, wg := s.wg + 1,
         late := if s.stop.Passed? || s.stop.Stopped? then s.late + {role} else s.late)
    case CloseDone => s.(doneClosed := true, stop := Waiting)
    case WaitReturns => s.(stop := Passed)
    case CloseStorage => s.(storageOpen := false, stop := Stopped)
  }

  predicate IsRun(s: State, steps: seq<Step>)
    decreases |steps|
  {
    steps == [] || (Enabled(s, steps[0]) && IsRun(Apply(s, steps[0]), steps[1..]))
  }

  function Exec(s: State, steps: seq<Step>): State
    requires IsRun(s, steps)
    decreases |steps|
  {
    if steps == [] then s else Exec(Apply(s, steps[0]), steps[1..])
  }

  ghost predicate Inv(s: State, hadStore: bool) {
    && s.wg == |s.live| && s.leaving <= s.live
    && (s.doneClosed <==> !s.stop.Running?)
    && s.storageOpen == (hadStore && !s.stop.Stopped?)
    && (s.stop.Passed? || s.stop.Stopped? ==> s.live <= s.late)
    && s.misused <= s.late
    && forall role :: role in s.late ==> role.Tether?
  }

  lemma InvKept(s: State, step: Step, hadStore: bool)
    requires Inv(s, hadStore) && Enabled(s, step)
    ensures Inv(Apply(s, step), hadStore)
  {
    match step {
      case Exit(role) => assert |s.live - {role}| == |s.live| - 1;
      case _ =>
    }
  }

  lemma {:induction false} InvAlong(s: State, steps: seq<Step>, hadStore: bool)
    requires Inv(s, hadStore) && IsRun(s, steps)
    ensures Inv(Exec(s, steps), hadStore)
    decreases |steps|
  {
    if steps != [] {
      InvKept(s, steps[0], hadStore);
      InvAlong(Apply(s, steps[0]), steps[1..], hadStore);
    }
  }

  /**
   Over every run with one Stop: the count is the number of live goroutines; a store that was
   opened is closed only once all goroutines started before are gone; so whenever the queue
   processor, the retrier, or any tether started in time touches the store, it is open.
   */
  lemma StoreOutlivesItsUsers(s0: State, steps: seq<Step>)
    requires Init(s0) && IsRun(s0, steps)
    ensures var s := Exec(s0, steps);
      && s.wg == |s.live|
      && (s0.storageOpen && !s.storageOpen ==> forall role :: role in s.live ==> role in s.late && role.Tether?)
      && (forall role :: role in s.misused ==> role in s.late && role.Tether?)
      && (forall role :: role in s.live && role !in s.late ==> s.storageOpen == s0.storageOpen)
  {
    InvAlong(s0, steps, s0.storageOpen);
  }

  // ---- The condition is needed ----

  lemma {:induction false} RunAppend(s: State, steps: seq<Step>, more: seq<Step>)
    requires IsRun(s, steps) && IsRun(Exec(s, steps), more)
    ensures IsRun(s, steps + more) && Exec(s, steps + more) == Exec(Exec(s, steps), more)
    decreases |steps|
  {
    if steps == [] {
      assert steps + more == more;
    } else {
      RunAppend(Apply(s, steps[0]), steps[1..], more);
      assert (steps + more)[1..] == steps[1..] + more;
    }
  }

  lemma OneStep(s: State, step: Step)
    requires Enabled(s, step)
    ensures IsRun(s, [step]) && Exec(s, [step]) == Apply(s, step)
  {
    assert [step][1..] == [];
  }

  /** Once done is closed every goroutine can see it and leave. */
  lemma {:induction false} AllLeave(s: State) returns (steps: seq<Step>)
    requires s.doneClosed && s.wg == |s.live| && s.leaving == {}
    ensures IsRun(s, steps) && Exec(s, steps) == s.(live := {}, wg := 0)
    decreases |s.live|
  {
    if s.live == {} {
      steps := [];
    } else {
      var role :| role in s.live;
      var s1 := s.(leaving := {role});
      OneStep(s, SeeDone(role));
      assert s.leaving + {role} == {role};
      var s2 := s.(live := s.live - {role}, wg := s.wg - 1);
      OneStep(s1, Exit(role));
      assert s1.leaving - {role} == {} && Apply(s1, Exit(role)) == s2;
      RunAppend(s, [SeeDone(role)], [Exit(role)]);
      var rest := AllLeave(s2);
      RunAppend(s, [SeeDone(role)] + [Exit(role)], rest);
      steps := [SeeDone(role)] + [Exit(role)] + rest;
    }
  }

  /** From any start with an open store, a tether started after Stop finds the store closed. */
  lemma LateTetherMeetsClosedStore(s0: State, role: Role) returns (steps: seq<Step>)
    requires Init(s0) && s0.storageOpen && role.Tether? && role !in s0.live
    ensures IsRun(s0, steps) && role in Exec(s0, steps).misused
  {
    var s1 := s0.(doneClosed := true, stop := Waiting);
    OneStep(s0, CloseDone);
    var leave := AllLeave(s1);
    RunAppend(s0, [CloseDone], leave);
    var s2 := s1.(live := {}, wg := 0);
    var s3 := s2.(stop := Passed);
    OneStep(s2, WaitReturns);
    RunAppend(s0, [CloseDone] + leave, [WaitReturns]);
    var s4 := s3.(storageOpen := false, stop := Stopped);
    OneStep(s3, CloseStorage);
    RunAppend(s0, [CloseDone] + leave + [WaitReturns], [CloseStorage]);
    var s5 := Apply(s4, StartTether(role));
    OneStep(s4, StartTether(role));
    RunAppend(s0, [CloseDone] + leave + [WaitReturns] + [CloseStorage], [StartTether(role)]);
    OneStep(s5, Use(role));
    RunAppend(s0, [CloseDone] + leave + [WaitReturns] + [CloseStorage] + [StartTether(role)], [Use(role)]);
    steps := [CloseDone] + leave + [WaitReturns] + [CloseStorage] + [StartTether(role)] + [Use(role)];
  }
}
