/** When the pipeline loses a message, and when a record may leave storage unsent. */
module PipelineLoss {
  import opened Wrappers
  import opened Keys
  import opened Pipeline
  import opened PipelineInvariant
  import opened PipelineSteps
  import opened PipelineTheorems

  /** Every record about to go at one of ks has been delivered, or is past its TTL at the reading used. */
  predicate Spent(s: State, ks: set<Key>, now: Option<int>) {
    forall k :: k in ks && k in s.store ==>
      s.store[k].msg in s.delivered || (now.Some? && Expired(s.store[k], now.value))
  }

  /**
   When a step takes no unsent, unexpired record out of storage: a key it stores under is
   free or holds a delivered record, and the keys it deletes still hold what was copied.
   */
  predicate KeepsUnsent(s: State, step: Step)
    requires Enabled(s, step)
  {
    match step
    case Pub(PubStore(_, key, _, ok)) => ok ==> Spent(s, {key}, None)
    case Con(CStore(key, _, ok)) =>
      s.cfg.storage && s.batch[s.cpc.done].encodable && ok ==> Spent(s, {key}, None)
    case Ret(RDeleteExpired(ok)) => ok ==> Spent(s, s.rpc.dead, Some(s.rpc.now))
    case Ret(RDeleteSent(ok)) => ok ==> forall k :: k in s.rpc.live && k in s.store ==> s.store[k] == s.rpc.live[k]
    case _ => true
  }

  /** Exactly when a step loses nothing: also, a message that could not be sent does get stored. */
  predicate Lossless(s: State, step: Step)
    requires Enabled(s, step)
  {
    KeepsUnsent(s, step)
    && (step.Con? && step.c.CStore? ==> s.cfg.storage && s.batch[s.cpc.done].encodable && step.c.ok)
  }

  /** A record that replaced one the retrier copied has not been delivered. */
  ghost predicate Watched(s: State) {
    var local := LocalCopy(s.rpc);
    && (s.rpc.RDeleting? ==> Msgs(local) <= s.delivered)
    && forall k :: k in local && k in s.store && s.store[k] != local[k] ==> s.store[k].msg !in s.delivered
  }

  lemma WatchedAfterConsumer(s: State, c: ConStep)
    requires Ordered(s) && Books(s, {}) && Watched(s) && ConEnabled(s, c)
    ensures Watched(ConApply(s, c))
  {
    match c {
      case CStore(_, _, _) =>
        assert s.batch[s.cpc.done] in Held(s);
      case CAccepted =>
        AcceptedSplit(s);
        forall k | k in s.store ensures s.store[k].msg !in s.batch {
          assert s.store[k].msg in Msgs(s.store);
        }
      case CClean(_, _) =>
      case _ =>
    }
  }

  lemma WatchedAfterRetrier(s: State, r: RetStep)
    requires OneKey(s.store) && Copies(s, {}) && Watched(s) && RetEnabled(s, r)
    ensures Watched(RetApply(s, r))
  {
    match r {
      case RFetch(_) =>
      case RSplit(_) =>
      case RDeleteExpired(_) =>
      case RAccepted =>
        var live := s.rpc.live;
        forall k | k in live && k in s.store && s.store[k] != live[k] ensures s.store[k].msg !in Msgs(live) {
          assert s.store[k].msg in Msgs(s.store);
        }
      case RDeleteSent(_) =>
      case _ =>
    }
  }

  lemma WatchedAfterPublish(s: State, p: PubStep)
    requires s.accepted !! s.pubs.Keys && s.delivered <= s.accepted && Watched(s) && PubEnabled(s, p)
    ensures Watched(PubApply(s, p))
  {
    match p {
      case PubBegin(_) =>
      case PubEnqueue(_) =>
      case PubStore(_, _, _, _) =>
    }
  }

  lemma WatchedKept(s: State, step: Step)
    requires Inv(s) && Watched(s) && Enabled(s, step)
    ensures Watched(Apply(s, step))
  {
    match step {
      case Pub(p) => WatchedAfterPublish(s, p);
      case Con(c) => WatchedAfterConsumer(s, c);
      case Ret(r) => WatchedAfterRetrier(s, r);
      case Env(e) =>
    }
  }

  lemma DropLoses(s: State, ks: set<Key>, now: Option<int>)
    requires OneKey(s.store) && Msgs(s.store) !! s.lost
    ensures Drop(s, ks, now).lost == s.lost <==> Spent(s, ks, now)
    ensures s.lost <= Drop(s, ks, now).lost
  {
    var d := Drop(s, ks, now);
    forall k | k in ks && k in s.store ensures s.store[k].msg !in s.lost {
      assert s.store[k].msg in Msgs(s.store);
    }
  }

  lemma StoringLoses(s: State, c: ConStep)
    requires OneKey(s.store) && Msgs(s.store) !! s.lost && Elements(Held(s)) !! s.lost
    requires ConEnabled(s, c) && c.CStore?
    ensures ConApply(s, c).lost == s.lost <==> Lossless(s, Con(c))
    ensures s.lost <= ConApply(s, c).lost
  {
    var next := s.(cpc := Storing(s.cpc.done + 1, s.cpc.after));
    assert s.batch[s.cpc.done] in Held(s);
    DropLoses(next, {c.key}, None);
  }

  lemma PublishingLoses(s: State, p: PubStep)
    requires OneKey(s.store) && Msgs(s.store) !! s.lost && PubEnabled(s, p)
    ensures PubApply(s, p).lost == s.lost <==> Lossless(s, Pub(p))
    ensures s.lost <= PubApply(s, p).lost
  {
    match p {
      case PubStore(m, key, _, _) => DropLoses(s.(pubs := s.pubs - {m}), {key}, None);
      case _ =>
    }
  }

  lemma ConsumingLoses(s: State, c: ConStep)
    requires OneKey(s.store) && Msgs(s.store) !! s.lost && ConEnabled(s, c) && !c.CStore?
    ensures ConApply(s, c).lost == s.lost && Lossless(s, Con(c))
  {
    match c {
      case CClean(now, _) => DropLoses(s, ExpiredKeys(s.store, now), Some(now));
      case _ =>
    }
  }

  lemma CopiesAreSpent(s: State)
    requires Watched(s) && s.rpc.RDeleting?
    ensures Spent(s, s.rpc.live.Keys, None)
       <==> forall k :: k in s.rpc.live && k in s.store ==> s.store[k] == s.rpc.live[k]
  {
    forall k | k in s.rpc.live ensures s.rpc.live[k].msg in s.delivered {
      assert s.rpc.live[k].msg in Msgs(s.rpc.live);
    }
  }

  lemma DeletingLoses(s: State, r: RetStep)
    requires OneKey(s.store) && Msgs(s.store) !! s.lost && Watched(s) && RetEnabled(s, r) && r.RDeleteSent?
    ensures RetApply(s, r).lost == s.lost <==> Lossless(s, Ret(r))
    ensures s.lost <= RetApply(s, r).lost
  {
    DropLoses(s, s.rpc.live.Keys, None);
    CopiesAreSpent(s);
  }

  lemma RetryingLoses(s: State, r: RetStep)
    requires OneKey(s.store) && Msgs(s.store) !! s.lost && Watched(s) && RetEnabled(s, r)
    ensures RetApply(s, r).lost == s.lost <==> Lossless(s, Ret(r))
    ensures s.lost <= RetApply(s, r).lost
  {
    match r {
      case RDeleteExpired(_) => DropLoses(s, s.rpc.dead, Some(s.rpc.now));
      case RDeleteSent(_) => DeletingLoses(s, r);
      case _ =>
    }
  }

  /** A step adds to the lost exactly when it is not lossless. */
  lemma LossIsExact(s: State, step: Step)
    requires Inv(s) && Watched(s) && Enabled(s, step)
    ensures Apply(s, step).lost == s.lost <==> Lossless(s, step)
    ensures s.lost <= Apply(s, step).lost
  {
    match step {
      case Pub(p) => PublishingLoses(s, p);
      case Con(c) =>
        if c.CStore? { StoringLoses(s, c); } else { ConsumingLoses(s, c); }
      case Ret(r) => RetryingLoses(s, r);
      case Env(e) =>
    }
  }

  ghost predicate AlwaysLossless(s: State, steps: seq<Step>)
    requires IsRun(s, steps)
    decreases |steps|
  {
    steps == [] || (Lossless(s, steps[0]) && AlwaysLossless(Apply(s, steps[0]), steps[1..]))
  }

  lemma {:induction false} LossAlong(s: State, steps: seq<Step>)
    requires Inv(s) && Watched(s) && IsRun(s, steps)
    ensures s.lost <= Exec(s, steps).lost
    ensures Exec(s, steps).lost == s.lost <==> AlwaysLossless(s, steps)
    decreases |steps|
  {
    if steps != [] {
      LossIsExact(s, steps[0]);
      InvKept(s, steps[0]);
      WatchedKept(s, steps[0]);
      LossAlong(Apply(s, steps[0]), steps[1..]);
    }
  }

  /** A run loses no accepted message if and only if each of its steps is lossless. */
  lemma NothingLostIff(s0: State, steps: seq<Step>)
    requires Opened(s0) && IsRun(s0, steps)
    ensures Exec(s0, steps).lost == {} <==> AlwaysLossless(s0, steps)
  {
    OpenedInv(s0);
    LossAlong(s0, steps);
  }

  // ---- Fresh keys ----

  /** Keys the retrier may still delete. */
  function Reserved(pc: RetrierPc): set<Key> {
    LocalCopy(pc).Keys + if pc.RExpiring? then pc.dead else {}
  }

  /** No record is stored under a key that is in use or about to be deleted. */
  predicate FreshKey(s: State, step: Step)
    requires Enabled(s, step)
  {
    match step
    case Pub(PubStore(_, key, _, ok)) => ok ==> key !in s.store && key !in Reserved(s.rpc)
    case Con(CStore(key, _, ok)) =>
      s.cfg.storage && s.batch[s.cpc.done].encodable && ok ==> key !in s.store && key !in Reserved(s.rpc)
    case _ => true
  }

  /** A message that could not be sent does get stored. */
  predicate StoresFailed(s: State, step: Step)
    requires Enabled(s, step)
  {
    step.Con? && step.c.CStore? ==> s.cfg.storage && s.batch[s.cpc.done].encodable && step.c.ok
  }

  ghost predicate FreshKeys(s: State, steps: seq<Step>)
    requires IsRun(s, steps)
    decreases |steps|
  {
    steps == [] || (FreshKey(s, steps[0]) && FreshKeys(Apply(s, steps[0]), steps[1..]))
  }

  ghost predicate AlwaysStoresFailed(s: State, steps: seq<Step>)
    requires IsRun(s, steps)
    decreases |steps|
  {
    steps == [] || (StoresFailed(s, steps[0]) && AlwaysStoresFailed(Apply(s, steps[0]), steps[1..]))
  }

  /** With fresh keys, a record at a key the retrier holds is the record it copied. */
  ghost predicate Current(s: State) {
    && (forall k :: k in LocalCopy(s.rpc) && k in s.store ==> s.store[k] == LocalCopy(s.rpc)[k])
    && (s.rpc.RExpiring? ==> forall k :: k in s.rpc.dead && k in s.store ==> Expired(s.store[k], s.rpc.now))
  }

  lemma CurrentAfterRetrier(s: State, r: RetStep)
    requires Current(s) && RetEnabled(s, r)
    ensures Current(RetApply(s, r))
  {
    match r {
      case RFetch(_) =>
      case RSplit(_) =>
      case RDeleteExpired(_) =>
      case RDeleteSent(_) =>
      case _ =>
    }
  }

  lemma CurrentAfterConsumer(s: State, c: ConStep)
    requires Current(s) && ConEnabled(s, c) && FreshKey(s, Con(c))
    ensures Current(ConApply(s, c))
  {
    match c {
      case CStore(_, _, _) =>
      case CClean(_, _) =>
      case _ => ConsumerFrame(s, c);
    }
  }

  lemma CurrentAfterPublish(s: State, p: PubStep)
    requires Current(s) && PubEnabled(s, p) && FreshKey(s, Pub(p))
    ensures Current(PubApply(s, p))
  {
    match p {
      case PubBegin(_) =>
      case PubEnqueue(_) =>
      case PubStore(_, _, _, _) =>
    }
  }

  lemma FreshKeepsUnsent(s: State, step: Step)
    requires Current(s) && Enabled(s, step) && FreshKey(s, step)
    ensures KeepsUnsent(s, step) && Current(Apply(s, step))
  {
    match step {
      case Pub(p) => CurrentAfterPublish(s, p);
      case Con(c) => CurrentAfterConsumer(s, c);
      case Ret(r) => CurrentAfterRetrier(s, r);
      case Env(e) =>
    }
  }

  lemma {:induction false} FreshAlong(s: State, steps: seq<Step>)
    requires Inv(s) && Current(s) && IsRun(s, steps) && FreshKeys(s, steps)
    ensures AlwaysKeepsUnsent(s, steps) && Current(Exec(s, steps))
    ensures AlwaysStoresFailed(s, steps) ==> AlwaysLossless(s, steps)
    decreases |steps|
  {
    if steps != [] {
      FreshKeepsUnsent(s, steps[0]);
      InvKept(s, steps[0]);
      FreshAlong(Apply(s, steps[0]), steps[1..]);
    }
  }

  ghost predicate AlwaysKeepsUnsent(s: State, steps: seq<Step>)
    requires IsRun(s, steps)
    decreases |steps|
  {
    steps == [] || (KeepsUnsent(s, steps[0]) && AlwaysKeepsUnsent(Apply(s, steps[0]), steps[1..]))
  }

  lemma OpenedIsCurrent(s: State)
    requires Opened(s)
    ensures Inv(s) && Watched(s) && Current(s)
  {
    OpenedInv(s);
  }

  /**
   With fresh keys, and every message that could not be sent stored, every accepted message is
   held, stored, delivered or past its TTL.
   */
  lemma FreshKeysLoseNothing(s0: State, steps: seq<Step>)
    requires Opened(s0) && IsRun(s0, steps) && FreshKeys(s0, steps) && AlwaysStoresFailed(s0, steps)
    ensures var s := Exec(s0, steps);
      && s.lost == {}
      && (forall m :: m in s.accepted ==> m in Held(s) || m in Msgs(s.store) || m in s.delivered || m in s.expired)
  {
    OpenedIsCurrent(s0);
    FreshAlong(s0, steps);
    NothingLostIff(s0, steps);
    InvAlong(s0, steps);
  }

  // ---- Removal ----

  /** The clock reading on which a step may discard records. */
  function Reading(s: State, step: Step): Option<int>
    requires Enabled(s, step)
  {
    match step
    case Con(CClean(now, _)) => Some(now)
    case Ret(RDeleteExpired(_)) => Some(s.rpc.now)
    case _ => None
  }

  /** Every record a step removes or replaces was answered 2xx, or expired at the reading used. */
  ghost predicate RemovesOnlySpent(s: State, step: Step)
    requires Enabled(s, step)
  {
    var t := Apply(s, step);
    var now := Reading(s, step);
    forall k :: k in s.store && (k in t.store ==> t.store[k] != s.store[k]) ==>
      s.store[k].msg in s.delivered || (now.Some? && Expired(s.store[k], now.value))
  }

  lemma PublishRemoval(s: State, p: PubStep)
    requires Msgs(s.store) <= s.accepted && s.accepted !! s.pubs.Keys && PubEnabled(s, p)
    ensures RemovesOnlySpent(s, Pub(p)) <==> KeepsUnsent(s, Pub(p))
  {
    match p {
      case PubStore(m, key, now, ok) =>
        if ok && key in s.store {
          assert s.store[key].msg in Msgs(s.store);
          assert PubApply(s, p).store[key].msg == m;
        }
      case _ =>
    }
  }

  lemma ConsumerRemoval(s: State, c: ConStep)
    requires Elements(Held(s)) !! Msgs(s.store) && ConEnabled(s, c)
    ensures RemovesOnlySpent(s, Con(c)) <==> KeepsUnsent(s, Con(c))
  {
    match c {
      case CStore(key, now, ok) =>
        var m := s.batch[s.cpc.done];
        assert m in Held(s);
        if s.cfg.storage && m.encodable && ok && key in s.store {
          assert s.store[key].msg in Msgs(s.store);
          assert ConApply(s, c).store[key].msg == m;
        }
      case CClean(_, _) =>
      case _ =>
    }
  }

  lemma RetrierRemoval(s: State, r: RetStep)
    requires Watched(s) && RetEnabled(s, r)
    ensures RemovesOnlySpent(s, Ret(r)) <==> KeepsUnsent(s, Ret(r))
  {
    match r {
      case RDeleteExpired(_) =>
      case RDeleteSent(_) => CopiesAreSpent(s);
      case _ =>
    }
  }

  /**
   No unexpired record leaves storage unsent, exactly when the step stores under a free (or
   delivered) key and deletes only records that are still the ones it copied.
   */
  lemma RemovalIsExact(s: State, step: Step)
    requires Inv(s) && Watched(s) && Enabled(s, step)
    ensures RemovesOnlySpent(s, step) <==> KeepsUnsent(s, step)
  {
    match step {
      case Pub(p) => PublishRemoval(s, p);
      case Con(c) => ConsumerRemoval(s, c);
      case Ret(r) => RetrierRemoval(s, r);
      case Env(e) =>
    }
  }

  ghost predicate AlwaysRemovesOnlySpent(s: State, steps: seq<Step>)
    requires IsRun(s, steps)
    decreases |steps|
  {
    steps == [] || (RemovesOnlySpent(s, steps[0]) && AlwaysRemovesOnlySpent(Apply(s, steps[0]), steps[1..]))
  }

  lemma {:induction false} RemovalAlong(s: State, steps: seq<Step>)
    requires Inv(s) && Watched(s) && IsRun(s, steps)
    ensures AlwaysRemovesOnlySpent(s, steps) <==> AlwaysKeepsUnsent(s, steps)
    decreases |steps|
  {
    if steps != [] {
      RemovalIsExact(s, steps[0]);
      WatchedKept(s, steps[0]);
      InvKept(s, steps[0]);
      RemovalAlong(Apply(s, steps[0]), steps[1..]);
    }
  }

  /**
   Over a whole run storage loses only sent or expired records, if and only if no step stores
   over an undelivered record or deletes a key that was stored again since it was copied.
   */
  lemma RemovesOnlySpentIff(s0: State, steps: seq<Step>)
    requires Opened(s0) && IsRun(s0, steps)
    ensures AlwaysRemovesOnlySpent(s0, steps) <==> AlwaysKeepsUnsent(s0, steps)
  {
    OpenedIsCurrent(s0);
    RemovalAlong(s0, steps);
  }

  /** With fresh keys alone, whatever fails, storage loses only sent or expired records over every run. */
  lemma FreshKeysRemoveOnlySpent(s0: State, steps: seq<Step>)
    requires Opened(s0) && IsRun(s0, steps) && FreshKeys(s0, steps)
    ensures AlwaysRemovesOnlySpent(s0, steps)
  {
    OpenedIsCurrent(s0);
    FreshAlong(s0, steps);
    RemovalAlong(s0, steps);
  }
}
