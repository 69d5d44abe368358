/** The offline trap: with nothing left to set Online, a client that went offline never retries. */
module OfflineTrap {
  import opened Wrappers
  import opened Keys
  import opened Pipeline
  import opened PipelineRuns

  /** Offline, with nothing in memory to send and no send or queueing Publish under way. */
  ghost predicate Stalled(s: State) {
    && s.cfg.storage && !s.online && s.queue == [] && s.batch == []
    && (s.cpc.Selecting? || s.cpc.Cleaning? || s.cpc.Beating? || s.cpc.Draining? || s.cpc.Exited?)
    && (s.rpc.RIdle? || s.rpc.RExited?)
    && forall m :: m in s.pubs ==> s.pubs[m].ToStore?
  }

  /** No background activity is configured that would notice the network coming back. */
  predicate NoProbe(s: State) { !s.cfg.connCheck && !s.cfg.handlers }

  predicate NotDirect(step: Step) { !(step.Env? && step.e.DirectSend?) }

  lemma TrapStep(s: State, step: Step)
    requires Stalled(s) && NoProbe(s) && Enabled(s, step) && NotDirect(step)
    ensures var t := Apply(s, step); Stalled(t) && NoProbe(t) && t.delivered == s.delivered
  {
    match step {
      case Pub(p) => match p { case PubStore(_, _, _, _) => case _ => }
      case Con(c) => match c { case CClean(_, _) => case _ => }
      case Ret(r) =>
      case Env(e) =>
    }
  }

  /** Without direct sends the trap is closed: whatever happens, nothing more is ever delivered. */
  lemma {:induction false} TrapIsClosed(s: State, steps: seq<Step>)
    requires Stalled(s) && NoProbe(s) && IsRun(s, steps)
    requires forall i :: 0 <= i < |steps| ==> NotDirect(steps[i])
    ensures Stalled(Exec(s, steps)) && Exec(s, steps).delivered == s.delivered
    decreases |steps|
  {
    if steps != [] {
      assert NotDirect(steps[0]);
      TrapStep(s, steps[0]);
      TrapIsClosed(Apply(s, steps[0]), steps[1..]);
    }
  }

  /** One failed send is enough to fall in, with an unexpired message in storage. */
  lemma TrapIsReachable(s0: State, key: Key) returns (t: State)
    requires Init(s0) && s0.cfg.storage && s0.cfg.capacity > 0
    ensures Reaches(s0, t, _ => true) && Stalled(t) && t.cfg == s0.cfg
    ensures t.store == map[key := Entry(Msg(0, true), 0, TTL)]
  {
    var m := Msg(0, true);
    var s1 := PickUp(s0, m, _ => true);
    var s2 := s1.(online := false);
    Next(s0, s1, Con(CNetError), s2, _ => true);
    t := FailAndStore(s2, m, key, 0, _ => true);
    ReachTrans(s0, s2, t, _ => true);
    assert Drop(s2, {key}, None).store == map[];
  }

  /** A step by which a stalled client learns that the network is back. */
  lemma ProbeLeadsOut(s: State) returns (t: State)
    requires Stalled(s) && !NoProbe(s)
    ensures t == s.(online := true) && Reaches(s, t, NotDirect)
  {
    t := s.(online := true);
    var probe := if s.cfg.connCheck then Check(true) else Poll(true);
    assert NotDirect(Env(probe));
    ReachStep(s, Env(probe), NotDirect);
  }

  /** Online again, one round delivers the unexpired among the first records. */
  lemma RetrySucceeds(s: State, ids: set<Key>, k: Key, now: int) returns (t: State)
    requires s.rpc.RIdle? && s.cfg.storage && s.online
    requires IsFirst(ids, s.store.Keys, FETCH_LIMIT) && k in ids && !Expired(s.store[k], now)
    ensures Reaches(s, t, NotDirect) && t.rpc.RDeleting?
    ensures k in t.rpc.live && t.rpc.live[k] == s.store[k] && s.store[k].msg in t.delivered
  {
    assert k in s.store;
    var s1 := Fetch(s, ids, NotDirect);
    var s2 := Split(s1, now, NotDirect);
    ReachTrans(s, s1, s2, NotDirect);
    assert k in s1.rpc.got - ExpiredKeys(s1.rpc.got, now);
    t := Accept(s, s2, NotDirect);
    assert s2.rpc.live[k].msg in Msgs(s2.rpc.live);
  }

  /** The keys a fetch lists before k. */
  function Before(keys: set<Key>, k: Key): set<Key> { set x | x in keys && Less(x, k) }

  /** A key with fewer than fifty before it is fetched. */
  lemma FetchReaches(keys: set<Key>, k: Key) returns (ids: set<Key>)
    requires k in keys && |Before(keys, k)| < FETCH_LIMIT
    ensures IsFirst(ids, keys, FETCH_LIMIT) && k in ids
  {
    ids := FirstExists(keys, FETCH_LIMIT);
    if k !in ids {
      SubsetSize(ids, Before(keys, k));
      SubsetSize(ids + {k}, keys);
    }
  }

  /** A retry has just delivered the record at k. */
  ghost predicate Redelivered(t: State, k: Key, e: Entry) {
    t.rpc.RDeleting? && k in t.rpc.live && t.rpc.live[k] == e && e.msg in t.delivered
  }

  /**
   The way out: a stalled client holding a live record among its first fifty can come to
   deliver it without a direct send if and only if connectivity checks are on or a message
   handler is registered.
   */
  lemma DeliversIffProbed(s: State, k: Key, now: int)
    requires Stalled(s) && s.rpc.RIdle? && k in s.store && !Expired(s.store[k], now)
    requires |Before(s.store.Keys, k)| < FETCH_LIMIT
    ensures (exists t :: Reaches(s, t, NotDirect) && Redelivered(t, k, s.store[k]))
       <==> s.cfg.connCheck || s.cfg.handlers
  {
    if NoProbe(s) {
      forall t | Reaches(s, t, NotDirect) ensures !t.rpc.RDeleting? {
        var steps: seq<Step> :|
          IsRun(s, steps) && (forall step :: step in steps ==> NotDirect(step)) && Exec(s, steps) == t;
        TrapIsClosed(s, steps);
      }
    } else {
      var s1 := ProbeLeadsOut(s);
      var ids := FetchReaches(s.store.Keys, k);
      var t := RetrySucceeds(s1, ids, k, now);
      ReachTrans(s, s1, t, NotDirect);
      assert Redelivered(t, k, s.store[k]);
    }
  }
}
