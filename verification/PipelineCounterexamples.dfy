/** Runs showing that two plausible claims about the pipeline are false of the code. */
module PipelineCounterexamples {
  import opened Wrappers
  import opened Keys
  import opened Pipeline
  import opened PipelineRuns
  import opened PipelineLoss

  /** The consumer's record keys are a function of the clock reading, as for a one-second timestamp. */
  predicate StampKeyed(stamp: int -> Key, step: Step) {
    step.Con? && step.c.CStore? ==> step.c.key == stamp(step.c.now)
  }

  /** One message is published, fails to send, and is the only record in storage. */
  lemma StoreOne(s0: State, m: Msg, key: Key, allowed: Step -> bool) returns (t: State)
    requires Init(s0) && s0.cfg.storage && s0.cfg.capacity > 0 && m.encodable
    requires allowed(Pub(PubBegin(m))) && allowed(Pub(PubEnqueue(m))) && allowed(Con(CReceive(1)))
    requires allowed(Con(CGiveUp)) && allowed(Con(CStore(key, 0, true))) && allowed(Con(CFinish))
    ensures Reaches(s0, t, allowed)
    ensures t == s0.(seen := {m}, accepted := {m}, enqueued := [m], handed := [[m]],
                     store := map[key := Entry(m, 0, TTL)])
  {
    var s1 := PickUp(s0, m, allowed);
    t := FailAndStore(s1, m, key, 0, allowed);
    ReachTrans(s0, s1, t, allowed);
    assert t.store == map[key := Entry(m, 0, TTL)];
    assert Drop(s1, {key}, None) == s1;
    assert t.seen == {m} && t.accepted == {m} && t.handed == [[m]] && t.enqueued == [m];
  }

  /** Then the retrier copies that record and is about to send it. */
  lemma CopyOne(s0: State, s: State, m: Msg, key: Key, allowed: Step -> bool) returns (t: State)
    requires Reaches(s0, s, allowed) && s.rpc.RIdle? && s.cfg.storage && s.online
    requires s.store == map[key := Entry(m, 0, TTL)]
    requires allowed(Ret(RStart)) && allowed(Ret(RFetch({key})))
    requires allowed(Ret(RSplit(0))) && allowed(Ret(RDeleteExpired(true)))
    ensures Reaches(s0, t, allowed) && t == s.(rpc := RSending(0, s.store))
  {
    assert IsFirst({key}, s.store.Keys, FETCH_LIMIT);
    var s1 := Fetch(s, {key}, allowed);
    assert s1.rpc.got == s.store;
    assert key in s1.rpc.got;
    t := SplitNone(s1, 0, allowed);
    ReachTrans(s0, s, s1, allowed);
    ReachTrans(s0, s1, t, allowed);
  }

  /**
   With keys that repeat within a second, a message stored while an earlier message of the
   same second is being retried is deleted unsent and unexpired along with it.
   */
  lemma SameSecondLosesAMessage(s0: State, stamp: int -> Key) returns (t: State, m: Msg)
    requires Init(s0) && s0.cfg.storage && s0.cfg.capacity > 0
    ensures Reaches(s0, t, step => StampKeyed(stamp, step))
    ensures m in t.accepted && m.encodable && m in t.lost && m !in t.delivered + t.expired
  {
    var keyed := (step: Step) => StampKeyed(stamp, step);
    m := Msg(2, true);
    var key := stamp(0);
    var s2 := StoreOne(s0, Msg(1, true), key, keyed);
    var s4 := CopyOne(s0, s2, Msg(1, true), key, keyed);
    t := StoreOverCopy(s0, s4, Msg(1, true), m, key, keyed);
  }

  /** A second message is stored under the same key; then the retry succeeds and deletes the key. */
  lemma StoreOverCopy(s0: State, s: State, m1: Msg, m: Msg, key: Key, allowed: Step -> bool) returns (t: State)
    requires Reaches(s0, s, allowed) && s.cfg.storage && s.cfg.capacity > 0
    requires s.cpc.Selecting? && s.online && s.queue == [] && s.batch == [] && s.pubs == map[]
    requires s.store == map[key := Entry(m1, 0, TTL)] && s.rpc == RSending(0, s.store)
    requires m.encodable && m !in s.seen && m != m1 && m !in s.delivered + s.expired
    requires allowed(Pub(PubBegin(m))) && allowed(Pub(PubEnqueue(m))) && allowed(Con(CReceive(1)))
    requires allowed(Con(CGiveUp)) && allowed(Con(CStore(key, 0, true))) && allowed(Con(CFinish))
    requires allowed(Ret(RAccepted)) && allowed(Ret(RDeleteSent(true)))
    ensures Reaches(s0, t, allowed)
    ensures m in t.accepted && m in t.lost && m !in t.delivered + t.expired
  {
    var e := Entry(m, 0, TTL);
    var s1 := PickUp(s, m, allowed);
    ReachTrans(s0, s, s1, allowed);
    var s2 := FailAndStore(s1, m, key, 0, allowed);
    ReachTrans(s0, s1, s2, allowed);
    assert s2.store == map[key := e];
    assert s2.expired == s.expired && s2.delivered == s.delivered;
    t := DeliverAndDelete(s0, s2, key, Entry(m1, 0, TTL), e, allowed);
  }

  /** The retried batch is accepted and its one key is deleted, whatever the key now holds. */
  lemma DeliverAndDelete(s0: State, s: State, key: Key, e1: Entry, e2: Entry, allowed: Step -> bool) returns (t: State)
    requires Reaches(s0, s, allowed) && s.rpc == RSending(0, map[key := e1]) && s.store == map[key := e2]
    requires e1.msg != e2.msg && e2.msg !in s.delivered + s.expired
    requires allowed(Ret(RAccepted)) && allowed(Ret(RDeleteSent(true)))
    ensures Reaches(s0, t, allowed) && t.store == map[] && t.accepted == s.accepted
    ensures e2.msg in t.lost && e2.msg !in t.delivered + t.expired && e1.msg in t.delivered
  {
    var s1 := Accept(s0, s, allowed);
    assert Msgs(s.rpc.live) == {e1.msg} by { assert key in s.rpc.live; }
    t := Apply(s1, Ret(RDeleteSent(true)));
    Next(s0, s1, Ret(RDeleteSent(true)), t, allowed);
    assert key in s1.store && key in s1.rpc.live.Keys;
  }

  // ---- Recorded twice ----

  /** Every transaction of the run commits. */
  predicate Commits(step: Step) {
    match step
    case Pub(PubStore(_, _, _, ok)) => ok
    case Con(CStore(_, _, ok)) => ok
    case Con(CClean(_, ok)) => ok
    case Ret(RDeleteExpired(ok)) => ok
    case Ret(RDeleteSent(ok)) => ok
    case _ => true
  }

  /** A run with fresh keys from s to t. */
  ghost predicate FreshRun(s: State, steps: seq<Step>, t: State) {
    IsRun(s, steps) && FreshKeys(s, steps) && AlwaysStoresFailed(s, steps) && Exec(s, steps) == t
  }

  lemma FreshOne(s: State, step: Step, t: State)
    requires Enabled(s, step) && FreshKey(s, step) && StoresFailed(s, step) && Apply(s, step) == t
    ensures FreshRun(s, [step], t)
  {
    var one := [step];
    assert one[0] == step && one[1..] == [];
    assert IsRun(t, []) && FreshKeys(t, []) && AlwaysStoresFailed(t, []);
  }

  lemma {:induction false} FreshThen(s: State, a: seq<Step>, t: State, b: seq<Step>, u: State)
    requires FreshRun(s, a, t) && FreshRun(t, b, u)
    ensures FreshRun(s, a + b, u)
    decreases |a|
  {
    if a == [] {
      assert a + b == b;
    } else {
      FreshThen(Apply(s, a[0]), a[1..], t, b, u);
      assert (a + b)[1..] == a[1..] + b;
    }
  }

  /** The send of a new message fails, and it is stored at time 0. */
  function FailingToSend(m: Msg, key: Key): seq<Step> {
    [Pub(PubBegin(m)), Pub(PubEnqueue(m)), Con(CReceive(1))] + [Con(CGiveUp), Con(CStore(key, 0, true)), Con(CFinish)]
  }

  /** The retrier copies the record a second before its TTL ends. */
  function Copying(key: Key): seq<Step> {
    [Ret(RStart), Ret(RFetch({key})), Ret(RSplit(TTL - 1))] + [Ret(RDeleteExpired(true))]
  }

  /** A second later a tick cleans up; then the retry succeeds. */
  function Purging(): seq<Step> { [Con(CTick), Con(CClean(TTL, true)), Ret(RAccepted)] }

  lemma ThreeSteps(s: State, a: Step, s1: State, b: Step, s2: State, c: Step, t: State)
    requires FreshRun(s, [a], s1) && FreshRun(s1, [b], s2) && FreshRun(s2, [c], t)
    ensures FreshRun(s, [a, b, c], t)
  {
    FreshThen(s, [a], s1, [b], s2);
    FreshThen(s, [a] + [b], s2, [c], t);
    assert [a] + [b] + [c] == [a, b, c];
  }

  lemma PickUpFresh(s: State, m: Msg) returns (t: State)
    requires Init(s) && s.cfg.capacity > 0
    ensures t == s.(seen := {m}, accepted := {m}, enqueued := [m], batch := [m], cpc := Sending(ToSelect))
    ensures FreshRun(s, [Pub(PubBegin(m)), Pub(PubEnqueue(m)), Con(CReceive(1))], t)
  {
    var s1 := s.(seen := {m}, pubs := map[m := ToQueue]);
    FreshOne(s, Pub(PubBegin(m)), s1);
    var s2 := s.(seen := {m}, accepted := {m}, enqueued := [m], queue := [m]);
    assert s1.pubs - {m} == map[];
    FreshOne(s1, Pub(PubEnqueue(m)), s2);
    t := s2.(queue := [], batch := [m], cpc := Sending(ToSelect));
    FreshOne(s2, Con(CReceive(1)), t);
    ThreeSteps(s, Pub(PubBegin(m)), s1, Pub(PubEnqueue(m)), s2, Con(CReceive(1)), t);
  }

  lemma StoreFresh(s: State, m: Msg, key: Key) returns (t: State)
    requires s.cpc == Sending(ToSelect) && s.batch == [m] && m.encodable && s.cfg.storage && s.store == map[]
    requires s.rpc.RIdle? && s.handed == []
    ensures t == s.(handed := [[m]], batch := [], cpc := Selecting, store := map[key := Entry(m, 0, TTL)])
    ensures FreshRun(s, [Con(CGiveUp), Con(CStore(key, 0, true)), Con(CFinish)], t)
  {
    var s1 := s.(cpc := Storing(0, ToSelect));
    FreshOne(s, Con(CGiveUp), s1);
    var s2 := s.(cpc := Storing(1, ToSelect), store := map[key := Entry(m, 0, TTL)]);
    FreshStore(s1, s2, m, key);
    t := s2.(handed := [[m]], batch := [], cpc := Selecting);
    FreshOne(s2, Con(CFinish), t);
    ThreeSteps(s, Con(CGiveUp), s1, Con(CStore(key, 0, true)), s2, Con(CFinish), t);
  }

  lemma FreshStore(s: State, t: State, m: Msg, key: Key)
    requires s.cpc == Storing(0, ToSelect) && s.batch == [m] && m.encodable && s.cfg.storage && s.store == map[]
    requires s.rpc.RIdle? && t == s.(cpc := Storing(1, ToSelect), store := map[key := Entry(m, 0, TTL)])
    ensures FreshRun(s, [Con(CStore(key, 0, true))], t)
  {
    var next := s.(cpc := Storing(1, ToSelect));
    assert Drop(next, {key}, None) == next;
    FreshOne(s, Con(CStore(key, 0, true)), t);
  }

  lemma CopyFresh(s: State, m: Msg, key: Key) returns (t: State)
    requires s.cfg.storage && s.online && s.rpc.RIdle? && s.store == map[key := Entry(m, 0, TTL)]
    ensures t == s.(rpc := RSending(0, s.store)) && FreshRun(s, Copying(key), t)
  {
    assert key in s.store && IsFirst({key}, s.store.Keys, FETCH_LIMIT);
    var s1 := s.(rpc := RLoop(0));
    FreshOne(s, Ret(RStart), s1);
    var s2 := s.(rpc := RFetched(0, s.store));
    assert Select(s.store, {key}) == s.store;
    FreshOne(s1, Ret(RFetch({key})), s2);
    var s3 := s.(rpc := RExpiring(0, TTL - 1, {}, s.store));
    assert ExpiredKeys(s.store, TTL - 1) == {} && s.store - {} == s.store;
    FreshOne(s2, Ret(RSplit(TTL - 1)), s3);
    t := s.(rpc := RSending(0, s.store));
    DropNothing(s3, Some(TTL - 1));
    FreshOne(s3, Ret(RDeleteExpired(true)), t);
    ThreeSteps(s, Ret(RStart), s1, Ret(RFetch({key})), s2, Ret(RSplit(TTL - 1)), s3);
    FreshThen(s, [Ret(RStart), Ret(RFetch({key})), Ret(RSplit(TTL - 1))], s3, [Ret(RDeleteExpired(true))], t);
  }

  lemma PurgeFresh(s: State, m: Msg, key: Key) returns (t: State)
    requires s.cpc.Selecting? && s.batch == [] && s.cfg.storage
    requires s.store == map[key := Entry(m, 0, TTL)] && s.rpc == RSending(0, s.store) && m !in s.delivered
    ensures FreshRun(s, Purging(), t)
    ensures m in t.expired && m in t.delivered && m in t.raced && t.undeleted == s.undeleted
  {
    assert Msgs(s.store) == {m} by { assert key in s.store; }
    var s1 := s.(cpc := Cleaning);
    FreshOne(s, Con(CTick), s1);
    var s2 := Apply(s1, Con(CClean(TTL, true)));
    assert key in ExpiredKeys(s1.store, TTL);
    assert s1.store[key].msg in s2.expired && m in s2.raced;
    FreshOne(s1, Con(CClean(TTL, true)), s2);
    t := Apply(s2, Ret(RAccepted));
    FreshOne(s2, Ret(RAccepted), t);
    ThreeSteps(s, Con(CTick), s1, Con(CClean(TTL, true)), s2, Ret(RAccepted), t);
  }

  lemma RaceCommits(m: Msg, key: Key)
    ensures forall step :: step in FailingToSend(m, key) + (Copying(key) + Purging()) ==> Commits(step)
  {
  }

  /**
   With fresh keys, every transaction committing, and a second between the readings, a message
   ends up recorded both as expired and as delivered: cleanup purges its record while a retry
   of it is under way.
   */
  lemma CleanupRacesRetry(s0: State, m: Msg, key: Key)
    requires Init(s0) && s0.cfg.storage && s0.cfg.capacity > 0 && m.encodable
    ensures var steps := FailingToSend(m, key) + (Copying(key) + Purging());
      && IsRun(s0, steps) && FreshKeys(s0, steps) && AlwaysStoresFailed(s0, steps)
      && (forall step :: step in steps ==> Commits(step))
      && var t := Exec(s0, steps); m in t.expired && m in t.delivered && m in t.raced && t.undeleted == {}
  {
    var s1 := PickUpFresh(s0, m);
    var s2 := StoreFresh(s1, m, key);
    FreshThen(s0, [Pub(PubBegin(m)), Pub(PubEnqueue(m)), Con(CReceive(1))], s1,
              [Con(CGiveUp), Con(CStore(key, 0, true)), Con(CFinish)], s2);
    var s3 := CopyFresh(s2, m, key);
    var t := PurgeFresh(s3, m, key);
    FreshThen(s2, Copying(key), s3, Purging(), t);
    FreshThen(s0, FailingToSend(m, key), s2, Copying(key) + Purging(), t);
    RaceCommits(m, key);
  }
}
