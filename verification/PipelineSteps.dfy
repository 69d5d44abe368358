/** The bookkeeping invariant, kept by every step and hence along every run. */
module PipelineSteps {
  import opened Wrappers
  import opened Pipeline
  import opened PipelineInvariant

  lemma SameBooksKeep(s: State, t: State)
    requires Books(s, {}) && Copies(s, {}) && SameBooks(s, t)
    ensures Books(t, {}) && Copies(t, {})
  {
  }

  // ---- The consumer ----

  lemma AcceptedSplit(s: State)
    requires Ordered(s) && s.cpc.Sending?
    ensures Elements(Held(s)) == Elements(s.batch) + Elements(s.queue)
    ensures Elements(s.batch) !! Elements(s.queue)
  {
    StillPending(s);
    NoDupSplit(s.batch, s.queue);
    assert Held(s) == s.batch + s.queue;
  }

  lemma ConsumerDelivers(s: State)
    requires Ordered(s) && Books(s, {}) && Copies(s, {}) && ConEnabled(s, CAccepted)
    ensures Books(ConApply(s, CAccepted), {}) && Copies(ConApply(s, CAccepted), {})
  {
    AcceptedSplit(s);
    assert Held(ConApply(s, CAccepted)) == s.queue;
  }

  lemma HeldIsDistinct(s: State)
    requires Ordered(s)
    ensures NoDup(Held(s))
  {
    StillPending(s);
    var n := DoneCount(s.cpc);
    assert s.batch == s.batch[..n] + s.batch[n..];
    assert s.batch + s.queue == s.batch[..n] + Held(s);
    NoDupSplit(s.batch[..n], Held(s));
  }

  /** The message taken from the front of what is held is nowhere else. */
  lemma TakeFront(s: State, next: State)
    requires NoDup(Held(s)) && Books(s, {}) && Copies(s, {}) && s.cpc.Storing? && s.cpc.done < |s.batch|
    requires next == s.(cpc := Storing(s.cpc.done + 1, s.cpc.after))
    ensures Books(next, {s.batch[s.cpc.done]}) && Copies(next, {s.batch[s.cpc.done]})
  {
    var m := s.batch[s.cpc.done];
    assert Held(s) == [m] + Held(next);
    NoDupSplit([m], Held(next));
    assert Elements(Held(s)) == {m} + Elements(Held(next));
  }

  lemma LoseHand(s: State, m: Msg)
    requires Books(s, {m}) && Copies(s, {m})
    ensures Books(s.(lost := s.lost + {m}), {}) && Copies(s.(lost := s.lost + {m}), {})
  {
    assert Held(s.(lost := s.lost + {m})) == Held(s);
  }

  lemma ConsumerStores(s: State, c: ConStep)
    requires Ordered(s) && Books(s, {}) && Copies(s, {}) && ConEnabled(s, c) && c.CStore?
    ensures Books(ConApply(s, c), {}) && Copies(ConApply(s, c), {})
  {
    var m := s.batch[s.cpc.done];
    var next := s.(cpc := Storing(s.cpc.done + 1, s.cpc.after));
    HeldIsDistinct(s);
    TakeFront(s, next);
    if s.cfg.storage && m.encodable && c.ok {
      PutKeeps(next, c.key, Entry(m, c.now, TTL));
    } else {
      LoseHand(next, m);
    }
  }

  lemma CleanupKeeps(s: State, c: ConStep)
    requires Books(s, {}) && Copies(s, {}) && ConEnabled(s, c) && c.CClean?
    ensures Books(ConApply(s, c), {}) && Copies(ConApply(s, c), {})
  {
    var aged := ExpiredKeys(s.store, c.now);
    if s.cfg.storage && c.ok {
      DropKeepsBooks(s, aged, Some(c.now), {});
      DropKeepsCopies(s, aged, Some(c.now), {});
      SameBooksKeep(Drop(s, aged, Some(c.now)), ConApply(s, c));
    } else {
      SameBooksKeep(s, ConApply(s, c));
    }
  }

  lemma TakeKeepsBooks(s: State, c: ConStep)
    requires Books(s, {}) && Copies(s, {}) && ConEnabled(s, c) && (c.CReceive? || c.CDrainTake?)
    ensures Books(ConApply(s, c), {}) && Copies(ConApply(s, c), {})
  {
    var t := ConApply(s, c);
    assert t.batch + t.queue == s.batch + s.queue;
    assert Held(t) == Held(s);
    SameBooksKeep(s, t);
  }

  lemma FinishKeepsBooks(s: State)
    requires Ordered(s) && Books(s, {}) && Copies(s, {}) && ConEnabled(s, CFinish)
    ensures Books(ConApply(s, CFinish), {}) && Copies(ConApply(s, CFinish), {})
  {
    assert Held(ConApply(s, CFinish)) == s.queue == Held(s);
    SameBooksKeep(s, ConApply(s, CFinish));
  }

  lemma ConsumerBooks(s: State, c: ConStep)
    requires Ordered(s) && Drained(s) && Books(s, {}) && Copies(s, {}) && ConEnabled(s, c)
    ensures Books(ConApply(s, c), {}) && Copies(ConApply(s, c), {})
  {
    match c {
      case CReceive(_) => TakeKeepsBooks(s, c);
      case CDrainTake => TakeKeepsBooks(s, c);
      case CAccepted => ConsumerDelivers(s);
      case CStore(_, _, _) => ConsumerStores(s, c);
      case CFinish => FinishKeepsBooks(s);
      case CDrainEnd => SameBooksKeep(s, ConApply(s, c));
      case CClean(_, _) => CleanupKeeps(s, c);
      case _ => ConsumerStaysInOrder(s, c); SameBooksKeep(s, ConApply(s, c));
    }
  }

  // ---- Publishers ----

  lemma PublisherStores(s: State, p: PubStep)
    requires Calls(s) && Books(s, {}) && Copies(s, {}) && PubEnabled(s, p) && p.PubStore?
    ensures Books(PubApply(s, p), {}) && Copies(PubApply(s, p), {})
  {
    var m := p.m;
    var rest := s.(pubs := s.pubs - {m});
    if p.ok {
      var hand := rest.(accepted := s.accepted + {m});
      assert Held(hand) == Held(s);
      PutKeeps(hand, p.key, Entry(m, p.now, TTL));
      assert Put(hand, p.key, Entry(m, p.now, TTL)) == PubApply(s, p);
    } else {
      assert Held(rest) == Held(s);
    }
  }

  lemma PublisherEnqueues(s: State, p: PubStep)
    requires Calls(s) && Books(s, {}) && Copies(s, {}) && PubEnabled(s, p) && p.PubEnqueue?
    ensures Books(PubApply(s, p), {}) && Copies(PubApply(s, p), {})
  {
    var t := PubApply(s, p);
    if |s.queue| < s.cfg.capacity {
      assert Held(t) == Held(s) + [p.m];
      assert Elements(Held(t)) == Elements(Held(s)) + {p.m};
      assert p.m !in s.accepted;
    } else {
      PublisherFrame(s, p);
      SameBooksKeep(s, t);
    }
  }

  lemma PublisherBooks(s: State, p: PubStep)
    requires Calls(s) && Books(s, {}) && Copies(s, {}) && PubEnabled(s, p)
    ensures Books(PubApply(s, p), {}) && Copies(PubApply(s, p), {})
  {
    match p {
      case PubBegin(_) => PublisherFrame(s, p); SameBooksKeep(s, PubApply(s, p));
      case PubEnqueue(_) => PublisherEnqueues(s, p);
      case PubStore(_, _, _, _) => PublisherStores(s, p);
    }
  }

  lemma PublisherCalls(s: State, p: PubStep)
    requires Calls(s) && PubEnabled(s, p)
    ensures Calls(PubApply(s, p))
  {
    match p {
      case PubBegin(_) =>
      case PubEnqueue(_) =>
      case PubStore(_, _, _, _) =>
    }
  }

  // ---- The retrier ----

  lemma ExpiryKeeps(s: State, r: RetStep)
    requires Books(s, {}) && Copies(s, {}) && RetEnabled(s, r) && r.RDeleteExpired?
    ensures Books(RetApply(s, r), {}) && Copies(RetApply(s, r), {})
  {
    var t := RetApply(s, r);
    RetrierFrame(s, r);
    assert LocalCopy(t.rpc) == s.rpc.live;
    assert Window(t) == {};
    if r.ok {
      DropKeepsBooks(s, s.rpc.dead, Some(s.rpc.now), {});
      DropKeepsCopies(s, s.rpc.dead, Some(s.rpc.now), {});
      SameBooksKeep(Drop(s, s.rpc.dead, Some(s.rpc.now)), t);
    } else {
      SameBooksKeep(s, t);
    }
  }

  lemma FetchKeeps(s: State, r: RetStep)
    requires Books(s, {}) && Copies(s, {}) && RetEnabled(s, r) && r.RFetch?
    ensures Books(RetApply(s, r), {}) && Copies(RetApply(s, r), {})
  {
    var t := RetApply(s, r);
    RetrierFrame(s, r);
    forall k | k in LocalCopy(t.rpc) ensures LocalCopy(t.rpc)[k].msg in Msgs(s.store) {
      assert k in s.store;
    }
  }

  lemma RetrierDelivers(s: State)
    requires Books(s, {}) && Copies(s, {}) && RetEnabled(s, RAccepted)
    ensures Books(RetApply(s, RAccepted), {}) && Copies(RetApply(s, RAccepted), {})
  {
    var t := RetApply(s, RAccepted);
    RetrierFrame(s, RAccepted);
    assert LocalCopy(t.rpc) == LocalCopy(s.rpc) == s.rpc.live;
    assert Window(t) == Msgs(s.rpc.live);
  }

  lemma RetrierDeletes(s: State, r: RetStep)
    requires Books(s, {}) && Copies(s, {}) && RetEnabled(s, r) && r.RDeleteSent?
    ensures Books(RetApply(s, r), {}) && Copies(RetApply(s, r), {})
  {
    var t := RetApply(s, r);
    RetrierFrame(s, r);
    var live := s.rpc.live;
    assert LocalCopy(s.rpc) == live;
    if r.ok {
      var d := Drop(s, live.Keys, None);
      DropKeepsBooks(s, live.Keys, None, {});
      DropStore(s, live.Keys, None);
      forall m | m in Msgs(live) ensures m !in Msgs(d.store) {
        var k :| k in live && live[k].msg == m;
        if m in Msgs(s.store) {
          assert s.store[k] == live[k];
        }
      }
    }
  }

  lemma RetrierDiscards(s: State, r: RetStep)
    requires Books(s, {}) && Copies(s, {}) && RetEnabled(s, r) && (r.RSplit? || r.RGiveUp?)
    ensures Books(RetApply(s, r), {}) && Copies(RetApply(s, r), {})
  {
    RetrierFrame(s, r);
    var was, local := LocalCopy(s.rpc), LocalCopy(RetApply(s, r).rpc);
    forall k | k in local ensures k in was && local[k] == was[k] { }
  }

  lemma RetrierWaits(s: State, r: RetStep)
    requires Books(s, {}) && Copies(s, {}) && RetEnabled(s, r) && (r.RStart? || r.RAbort? || r.RNetError? || r.RExit?)
    ensures Books(RetApply(s, r), {}) && Copies(RetApply(s, r), {})
  {
    SameBooksKeep(s, RetApply(s, r));
  }

  lemma RetrierBooks(s: State, r: RetStep)
    requires Books(s, {}) && Copies(s, {}) && RetEnabled(s, r)
    ensures Books(RetApply(s, r), {}) && Copies(RetApply(s, r), {})
  {
    match r {
      case RFetch(_) => FetchKeeps(s, r);
      case RDeleteExpired(_) => ExpiryKeeps(s, r);
      case RAccepted => RetrierDelivers(s);
      case RDeleteSent(_) => RetrierDeletes(s, r);
      case RSplit(_) => RetrierDiscards(s, r);
      case RGiveUp => RetrierDiscards(s, r);
      case _ => RetrierWaits(s, r);
    }
  }

  // ---- Every step, every run ----

  lemma PublisherInv(s: State, p: PubStep)
    requires Inv(s) && PubEnabled(s, p)
    ensures Inv(PubApply(s, p))
  {
    PublisherOrder(s, p);
    PublisherCalls(s, p);
    PublisherBooks(s, p);
  }

  lemma ConsumerInv(s: State, c: ConStep)
    requires Inv(s) && ConEnabled(s, c)
    ensures Inv(ConApply(s, c))
  {
    ConsumerOrder(s, c);
    ConsumerFrame(s, c);
    ConsumerBooks(s, c);
  }

  lemma RetrierInv(s: State, r: RetStep)
    requires Inv(s) && RetEnabled(s, r)
    ensures Inv(RetApply(s, r))
  {
    RetrierFrame(s, r);
    RetrierBooks(s, r);
  }

  lemma EnvironmentInv(s: State, e: EnvStep)
    requires Inv(s)
    ensures Inv(EnvApply(s, e))
  {
    assert SameBooks(s, EnvApply(s, e));
  }

  lemma InvKept(s: State, step: Step)
    requires Inv(s) && Enabled(s, step)
    ensures Inv(Apply(s, step))
  {
    match step {
      case Pub(p) => PublisherInv(s, p);
      case Con(c) => ConsumerInv(s, c);
      case Ret(r) => RetrierInv(s, r);
      case Env(e) => EnvironmentInv(s, e);
    }
  }

  lemma {:induction false} InvAlong(s: State, steps: seq<Step>)
    requires Inv(s) && IsRun(s, steps)
    ensures Inv(Exec(s, steps))
    decreases |steps|
  {
    if steps != [] {
      InvKept(s, steps[0]);
      InvAlong(Apply(s, steps[0]), steps[1..]);
    }
  }
}
