/** Exactly when every accepted message is recorded in one place, outside the time between a 2xx and its delete. */
module PipelineOnePlace {
  import opened Wrappers
  import opened Keys
  import opened Pipeline
  import opened PipelineInvariant
  import opened PipelineSteps
  import opened PipelineTheorems

  /** The messages counted both as delivered and as gone undelivered. */
  ghost function Twice(s: State): set<Msg> { s.delivered * (s.expired + s.lost) }

  /** An accepted retry still finds the record of every message it delivers for the first time. */
  predicate FindsRecords(s: State, step: Step)
    requires Enabled(s, step)
  {
    step.Ret? && step.r.RAccepted? ==>
      forall k :: k in s.rpc.live && s.rpc.live[k].msg !in s.delivered ==> s.rpc.live[k].msg in Msgs(s.store)
  }

  /** Removing records counts only undelivered messages as gone. */
  lemma DropCountsOnce(s: State, ks: set<Key>, now: Option<int>)
    ensures Twice(Drop(s, ks, now)) == Twice(s)
  {
    DropHistories(s, ks, now);
  }

  lemma PublishingCountsOnce(s: State, p: PubStep)
    requires PubEnabled(s, p)
    ensures Twice(PubApply(s, p)) == Twice(s)
  {
    match p {
      case PubBegin(_) =>
      case PubEnqueue(_) =>
      case PubStore(m, key, _, _) => DropCountsOnce(s.(pubs := s.pubs - {m}), {key}, None);
    }
  }

  lemma ConsumingCountsOnce(s: State, c: ConStep)
    requires Ordered(s) && Books(s, {}) && ConEnabled(s, c)
    ensures Twice(ConApply(s, c)) == Twice(s)
  {
    match c {
      case CAccepted => AcceptedSplit(s);
      case CStore(key, _, _) =>
        assert s.batch[s.cpc.done] in Held(s);
        DropCountsOnce(s.(cpc := Storing(s.cpc.done + 1, s.cpc.after)), {key}, None);
      case CClean(now, _) => DropCountsOnce(s, ExpiredKeys(s.store, now), Some(now));
      case _ =>
    }
  }

  lemma RetryCounts(s: State)
    requires Books(s, {}) && Copies(s, {}) && RetEnabled(s, RAccepted)
    ensures Twice(s) <= Twice(RetApply(s, RAccepted))
    ensures Twice(RetApply(s, RAccepted)) == Twice(s) <==> FindsRecords(s, Ret(RAccepted))
  {
    var live := s.rpc.live;
    assert LocalCopy(s.rpc) == live;
    forall k | k in live ensures live[k].msg in s.accepted && live[k].msg !in Elements(Held(s)) { }
    if k :| k in live && live[k].msg !in s.delivered && live[k].msg !in Msgs(s.store) {
      assert live[k].msg in Msgs(live);
      assert live[k].msg in Twice(RetApply(s, RAccepted)) - Twice(s);
    }
  }

  lemma RetryingCountsOnce(s: State, r: RetStep)
    requires RetEnabled(s, r) && !r.RAccepted?
    ensures Twice(RetApply(s, r)) == Twice(s)
  {
    match r {
      case RDeleteExpired(_) => DropCountsOnce(s, s.rpc.dead, Some(s.rpc.now));
      case RDeleteSent(_) => DropCountsOnce(s, s.rpc.live.Keys, None);
      case _ =>
    }
  }

  /** A step counts a further message twice exactly when an accepted retry misses an undelivered record. */
  lemma TwiceIsExact(s: State, step: Step)
    requires Inv(s) && Enabled(s, step)
    ensures Twice(s) <= Twice(Apply(s, step))
    ensures Twice(Apply(s, step)) == Twice(s) <==> FindsRecords(s, step)
  {
    match step {
      case Pub(p) => PublishingCountsOnce(s, p);
      case Con(c) => ConsumingCountsOnce(s, c);
      case Ret(r) => if r.RAccepted? { RetryCounts(s); } else { RetryingCountsOnce(s, r); }
      case Env(e) =>
    }
  }

  ghost predicate AlwaysFindsRecords(s: State, steps: seq<Step>)
    requires IsRun(s, steps)
    decreases |steps|
  {
    steps == [] || (FindsRecords(s, steps[0]) && AlwaysFindsRecords(Apply(s, steps[0]), steps[1..]))
  }

  lemma {:induction false} TwiceAlong(s: State, steps: seq<Step>)
    requires Inv(s) && IsRun(s, steps)
    ensures Twice(s) <= Twice(Exec(s, steps))
    ensures Twice(Exec(s, steps)) == Twice(s) <==> AlwaysFindsRecords(s, steps)
    decreases |steps|
  {
    if steps != [] {
      TwiceIsExact(s, steps[0]);
      InvKept(s, steps[0]);
      TwiceAlong(Apply(s, steps[0]), steps[1..]);
    }
  }

  /**
   Every accepted message is recorded in exactly one place, but for delivered ones whose record
   is still stored, if and only if every accepted retry of the run found the records of the
   messages it delivered: none had been removed, as expired or otherwise, while it was under way.
   */
  lemma OnePlaceIff(s0: State, steps: seq<Step>)
    requires Opened(s0) && IsRun(s0, steps)
    ensures var s := Exec(s0, steps);
      (forall m :: m in s.accepted ==> Places(s, m) == 1 || (m in s.delivered && m in Msgs(s.store)))
      <==> AlwaysFindsRecords(s0, steps)
  {
    OpenedInv(s0);
    TwiceAlong(s0, steps);
    InvAlong(s0, steps);
    var s := Exec(s0, steps);
    assert Twice(s0) == {};
    if m :| m in Twice(s) {
      assert m in s.accepted && m !in Msgs(s.store) && Places(s, m) == 2;
    }
  }
}
