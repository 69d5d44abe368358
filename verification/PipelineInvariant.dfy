/** What every step of the pipeline keeps, for arbitrary record keys and failures. */
module PipelineInvariant {
  import opened Wrappers
  import opened Keys
  import opened Pipeline

  /** The messages whose records Drop removes. */
  ghost function Removed(s: State, ks: set<Key>): set<Msg> {
    set k | k in s.store && k in ks :: s.store[k].msg
  }

  lemma DropStore(s: State, ks: set<Key>, now: Option<int>)
    requires OneKey(s.store)
    ensures OneKey(Drop(s, ks, now).store)
    ensures Msgs(Drop(s, ks, now).store) == Msgs(s.store) - Removed(s, ks)
  {
    var d := Drop(s, ks, now);
    forall m | m in Msgs(s.store) - Removed(s, ks) ensures m in Msgs(d.store) {
      var k :| k in s.store && s.store[k].msg == m;
      assert k in d.store;
    }
  }

  lemma DropHistories(s: State, ks: set<Key>, now: Option<int>)
    ensures var d := Drop(s, ks, now); var out := Removed(s, ks) - s.delivered;
      && s.expired <= d.expired <= s.expired + out
      && s.lost <= d.lost
      && d.expired + d.lost == s.expired + s.lost + out
      && (d.expired - s.expired) !! (d.lost - s.lost)
      && d.raced == s.raced + out * Msgs(LocalCopy(s.rpc))
  {
  }

  /** Removing records moves each undelivered one to exactly one of expired and lost. */
  lemma DropKeepsBooks(s: State, ks: set<Key>, now: Option<int>, hand: set<Msg>)
    requires Books(s, hand) && Copies(s, hand)
    ensures Books(Drop(s, ks, now), hand)
  {
    var d := Drop(s, ks, now);
    DropStore(s, ks, now);
    DropHistories(s, ks, now);
    assert Held(d) == Held(s);
    assert Removed(s, ks) <= Msgs(s.store);
  }

  lemma DropKeepsCopies(s: State, ks: set<Key>, now: Option<int>, hand: set<Msg>)
    requires Books(s, hand) && Copies(s, hand)
    ensures Copies(Drop(s, ks, now), hand)
  {
    var d := Drop(s, ks, now);
    DropStore(s, ks, now);
    DropHistories(s, ks, now);
    assert Held(d) == Held(s);
  }

  /** Storing a message nobody else holds: the record it overwrites, if any, is dropped first. */
  lemma PutStore(s: State, key: Key, e: Entry)
    requires OneKey(s.store) && e.msg !in Msgs(s.store)
    ensures OneKey(Put(s, key, e).store)
    ensures Msgs(Put(s, key, e).store) == Msgs(s.store) - Removed(s, {key}) + {e.msg}
  {
    var d := Drop(s, {key}, None);
    DropStore(s, {key}, None);
    var p := Put(s, key, e);
    forall m | m in Msgs(d.store) + {e.msg} ensures m in Msgs(p.store) {
      if m != e.msg {
        var k :| k in d.store && d.store[k].msg == m;
        assert k in p.store;
      } else {
        assert key in p.store;
      }
    }
  }

  lemma PutKeeps(s: State, key: Key, e: Entry)
    requires Books(s, {e.msg}) && Copies(s, {e.msg})
    ensures Books(Put(s, key, e), {}) && Copies(Put(s, key, e), {})
  {
    var d := Drop(s, {key}, None);
    DropKeepsBooks(s, {key}, None, {e.msg});
    DropKeepsCopies(s, {key}, None, {e.msg});
    DropStore(s, {key}, None);
    PutStore(s, key, e);
    var p := Put(s, key, e);
    assert Held(p) == Held(d);
    assert key !in d.store;
  }

  /** What is still on the consumer's side has been handed over nowhere. */
  lemma StillPending(s: State)
    requires Ordered(s)
    ensures NoDup(s.batch + s.queue)
    ensures forall m :: m in Concat(s.handed) ==> m !in s.batch + s.queue
  {
    assert s.enqueued == Concat(s.handed) + (s.batch + s.queue);
    NoDupSplit(Concat(s.handed), s.batch + s.queue);
  }

  // ---- Order ----

  /** Ordered and Drained speak only of the lines compared here. */
  ghost predicate SameOrder(s: State, t: State) {
    && t.queue == s.queue && t.batch == s.batch && t.enqueued == s.enqueued
    && t.handed == s.handed && t.drainedAt == s.drainedAt && t.cfg == s.cfg
  }

  /** Everything Books and Copies speak of, except program counters. */
  ghost predicate SameBooks(s: State, t: State) {
    && Held(t) == Held(s) && t.store == s.store && LocalCopy(t.rpc) == LocalCopy(s.rpc) && Window(t) == Window(s)
    && t.accepted == s.accepted && t.delivered == s.delivered && t.expired == s.expired && t.lost == s.lost
    && t.raced == s.raced && t.undeleted == s.undeleted
  }

  lemma TakeKeepsOrder(s: State, t: State)
    requires Ordered(s) && Drained(s) && (s.cpc.Selecting? || s.cpc.Draining?) && s.queue != []
    requires t.batch == s.batch + [s.queue[0]] && t.queue == s.queue[1..]
    requires t.cpc.Draining? || t.cpc.Selecting? || t.cpc == Sending(ToSelect)
    requires t.handed == s.handed && t.enqueued == s.enqueued && t.drainedAt == s.drainedAt && t.cfg == s.cfg
    ensures Ordered(t) && Drained(t)
  {
    assert t.batch + t.queue == s.batch + s.queue;
    assert t.enqueued == Concat(t.handed) + (t.batch + t.queue);
  }

  /** Handing the batch over changes neither the enqueued order nor what the drain owes. */
  lemma FinishKeepsOrder(s: State, t: State)
    requires Ordered(s) && Drained(s) && (s.cpc.Sending? || s.cpc.Storing?)
    requires t.handed == s.handed + [s.batch] && t.batch == [] && t.cpc == Resume(s.cpc.after)
    requires t.queue == s.queue && t.enqueued == s.enqueued && t.drainedAt == s.drainedAt && t.cfg == s.cfg
    ensures Ordered(t) && Drained(t)
  {
    ConcatSnoc(s.handed, s.batch);
    assert Concat(t.handed) + t.batch == Concat(s.handed) + s.batch;
    assert t.enqueued == Concat(t.handed) + t.batch + t.queue;
  }

  lemma DrainEndKeepsOrder(s: State)
    requires Ordered(s) && Drained(s) && ConEnabled(s, CDrainEnd)
    ensures Ordered(ConApply(s, CDrainEnd)) && Drained(ConApply(s, CDrainEnd))
  {
    assert s.enqueued[..|s.enqueued|] == s.enqueued == Concat(s.handed) + s.batch;
  }

  predicate MovesMessages(c: ConStep) {
    c.CReceive? || c.CDrainTake? || c.CAccepted? || c.CFinish? || c.CDrainEnd?
  }

  lemma ConsumerStaysInOrder(s: State, c: ConStep)
    requires ConEnabled(s, c) && !MovesMessages(c)
    ensures SameOrder(s, ConApply(s, c))
    ensures !c.CStore? && !c.CClean? ==> SameBooks(s, ConApply(s, c))
  {
    match c {
      case CStore(_, _, _) =>
      case CClean(_, _) =>
      case _ =>
    }
  }

  lemma ConsumerOrder(s: State, c: ConStep)
    requires Ordered(s) && Drained(s) && ConEnabled(s, c)
    ensures Ordered(ConApply(s, c)) && Drained(ConApply(s, c))
  {
    if c.CReceive? || c.CDrainTake? {
      TakeKeepsOrder(s, ConApply(s, c));
    } else if c.CAccepted? || c.CFinish? {
      FinishKeepsOrder(s, ConApply(s, c));
    } else if c.CDrainEnd? {
      DrainEndKeepsOrder(s);
    } else {
      ConsumerStaysInOrder(s, c);
    }
  }

  lemma EnqueueKeepsOrder(s: State, t: State, m: Msg)
    requires Ordered(s) && Drained(s) && m !in s.enqueued && |s.queue| < s.cfg.capacity
    requires t.queue == s.queue + [m] && t.enqueued == s.enqueued + [m] && t.batch == s.batch && t.cpc == s.cpc
    requires t.handed == s.handed && t.drainedAt == s.drainedAt && t.cfg == s.cfg
    ensures Ordered(t) && Drained(t)
  {
    Regroup(Concat(s.handed) + s.batch, s.queue, [m]);
    if s.drainedAt.Some? {
      var d := s.drainedAt.value;
      assert d <= |s.enqueued| ==> t.enqueued[..d] == s.enqueued[..d];
    }
  }

  lemma PublisherFrame(s: State, p: PubStep)
    requires PubEnabled(s, p) && !(p.PubEnqueue? && |s.queue| < s.cfg.capacity)
    ensures SameOrder(s, PubApply(s, p)) && PubApply(s, p).cpc == s.cpc
    ensures !p.PubStore? ==> SameBooks(s, PubApply(s, p))
  {
    match p {
      case PubBegin(_) =>
      case PubEnqueue(_) =>
      case PubStore(_, _, _, _) =>
    }
  }

  lemma PublisherOrder(s: State, p: PubStep)
    requires Ordered(s) && Drained(s) && Calls(s) && PubEnabled(s, p)
    ensures Ordered(PubApply(s, p)) && Drained(PubApply(s, p))
  {
    var t := PubApply(s, p);
    if p.PubEnqueue? && |s.queue| < s.cfg.capacity {
      EnqueueKeepsOrder(s, t, p.m);
    } else {
      PublisherFrame(s, p);
    }
  }

  lemma RetrierFrame(s: State, r: RetStep)
    requires RetEnabled(s, r)
    ensures var t := RetApply(s, r); SameOrder(s, t) && t.cpc == s.cpc && Held(t) == Held(s)
    ensures var t := RetApply(s, r); t.pubs == s.pubs && t.seen == s.seen && t.accepted == s.accepted
  {
    match r {
      case RDeleteExpired(_) =>
      case RDeleteSent(_) =>
      case _ =>
    }
  }

  lemma ConsumerFrame(s: State, c: ConStep)
    requires ConEnabled(s, c)
    ensures var t := ConApply(s, c); t.pubs == s.pubs && t.seen == s.seen && t.accepted == s.accepted
    ensures var t := ConApply(s, c); t.enqueued == s.enqueued && t.rpc == s.rpc
  {
    match c {
      case CStore(_, _, _) =>
      case CClean(_, _) =>
      case _ =>
    }
  }
}
