/**
 The consumer refines the pipeline machine: everything processQueue does, with its arrivals, sends,
 stores, sweeps, heartbeats and shutdown, is a run of the machine's steps on the abstract state.
 */
module ConsumerRefinement {
  import opened Wrappers
  import opened Storage
  import opened Messages
  import opened Sending
  import opened BatchSizing
  import opened FailedBatches
  import opened Consumer
  import opened Keys
  import opened Refinement
  import P = Pipeline
  import opened PipelineTheorems
  import opened PipelineRuns

  /** The machine state shows what the client's consumer sees, in managed mode with storage on. */
  ghost predicate Shows(s: P.State, c: Setup, n: Naming, snap: Snap) {
    && Named(n, s.batch, snap.batch) && Named(n, s.queue, snap.queue)
    && Holds(n, s.store, snap.bucket) && s.cfg.storage && c.kept && Sorted(snap.bucket) && n.codec == c.codec
    && s.online == Online(snap.trace) && c.connected
    && s.cfg.capacity == c.capacity && s.cfg.heartbeat == c.heartbeats
  }

  /** These calls to Publish wait at the queue. */
  ghost predicate Waiting(pubs: map<P.Msg, P.PublisherPc>, names: seq<P.Msg>) {
    NoDup(names) && forall x :: x in names ==> x in pubs && pubs[x] == P.ToQueue
  }

  /** Calls to Publish waiting at the queue with these messages, each with its own name. */
  ghost predicate AtQueue(s: P.State, n: Naming, names: seq<P.Msg>, messages: seq<Message>) {
    Named(n, names, messages) && Waiting(s.pubs, names)
  }

  /** What has been dealt with is the same in both states. */
  ghost predicate SamePast(s: P.State, t: P.State) { t.handed == s.handed && t.delivered == s.delivered }

  /** The two states differ in nothing that publishers and Stop look at. */
  ghost predicate SameCalls(s: P.State, t: P.State) { t.pubs == s.pubs && t.stopped == s.stopped }

  // ---- Arrivals ----

  lemma OneArrives(c: Setup, snap: Snap, m: Message, rest: seq<Message>)
    ensures Arrive(c, snap, [m] + rest) == Arrive(c, Arrive(c, snap, [m]), rest)
  {
    var one := Arrive(c, snap, [m]);
    if |snap.queue| < c.capacity {
      assert one.queue == snap.queue + [m];
      Regroup(snap.queue, [m], Admitted(rest, |one.queue|, c.capacity));
      assert Admitted([m] + rest, |snap.queue|, c.capacity) == [m] + Admitted(rest, |one.queue|, c.capacity);
    } else {
      assert one.queue == snap.queue + [];
      assert Admitted([m] + rest, |snap.queue|, c.capacity) == [] == Admitted(rest, |one.queue|, c.capacity);
    }
  }

  lemma OthersWait(pubs: map<P.Msg, P.PublisherPc>, names: seq<P.Msg>)
    requires names != [] && Waiting(pubs, names)
    ensures Waiting(pubs - {names[0]}, names[1..]) && Waiting(pubs[names[0] := P.ToStore], names[1..])
  {
    assert names == [names[0]] + names[1..];
    NoDupSplit([names[0]], names[1..]);
  }

  lemma EnqueueStep(s: P.State, name: P.Msg) returns (t: P.State)
    requires name in s.pubs && s.pubs[name] == P.ToQueue
    ensures Reaches(s, t, Any)
    ensures t == s.(queue := t.queue, enqueued := t.enqueued, accepted := t.accepted, pubs := t.pubs)
    ensures t.queue == if |s.queue| < s.cfg.capacity then s.queue + [name] else s.queue
    ensures t.pubs == s.pubs - {name} || t.pubs == s.pubs[name := P.ToStore]
  {
    t := P.PubApply(s, P.PubEnqueue(name));
    ReachStep(s, P.Pub(P.PubEnqueue(name)), Any);
  }

  lemma EnqueueRefines(c: Setup, n: Naming, snap: Snap, m: Message, names: seq<P.Msg>, s: P.State)
    returns (t: P.State)
    requires Shows(s, c, n, snap) && names != [] && Waiting(s.pubs, names)
    requires n.kind(names[0]) == KindOf(n.codec, m)
    ensures Reaches(s, t, Any) && Shows(t, c, n, Arrive(c, snap, [m])) && Waiting(t.pubs, names[1..])
    ensures t.cpc == s.cpc && t.stopped == s.stopped && SamePast(s, t)
  {
    assert names[0] in names;
    t := EnqueueStep(s, names[0]);
    OthersWait(s.pubs, names);
    if |snap.queue| < c.capacity {
      NamedConcat(n, s.queue, snap.queue, [names[0]], [m]);
      assert Arrive(c, snap, [m]).queue == snap.queue + [m];
    } else {
      assert Arrive(c, snap, [m]).queue == snap.queue;
    }
  }

  /** Messages offered while the consumer is where it is: those with room enter the queue. */
  lemma {:induction false} OfferRefines(c: Setup, n: Naming, snap: Snap, offered: seq<Message>, later: seq<Message>,
                                        names: seq<P.Msg>, s: P.State) returns (t: P.State)
    requires Shows(s, c, n, snap) && AtQueue(s, n, names, offered + later)
    ensures Reaches(s, t, Any) && Shows(t, c, n, Arrive(c, snap, offered)) && AtQueue(t, n, names[|offered|..], later)
    ensures t.cpc == s.cpc && t.stopped == s.stopped && SamePast(s, t)
    decreases |offered|
  {
    if offered == [] {
      t := s;
      NoSteps(s);
      assert offered + later == later && snap.queue + [] == snap.queue && names[0..] == names;
    } else {
      var m, rest := offered[0], offered[1..];
      assert offered == [m] + rest && (offered + later)[0] == m && (offered + later)[1..] == rest + later;
      var r := EnqueueRefines(c, n, snap, m, names, s);
      OneArrives(c, snap, m, rest);
      assert Named(n, names[1..], rest + later);
      t := OfferRefines(c, n, Arrive(c, snap, [m]), rest, later, names[1..], r);
      ReachTrans(s, r, t, Any);
      assert names[1..][|rest|..] == names[|offered|..];
    }
  }

  // ---- Sending ----

  lemma OneAttempt(reply: Reply, s: P.State) returns (t: P.State)
    requires s.cpc.Sending? && P.Encodable(s.batch)
    ensures Reaches(s, t, Any) && t == s.(online := Heard(s.online, reply))
  {
    if reply.NetworkError? {
      t := P.ConApply(s, P.CNetError);
      ReachStep(s, P.Con(P.CNetError), Any);
    } else {
      t := s;
      NoSteps(s);
    }
  }

  /** Attempts that were not accepted: each network error is noted. */
  lemma {:induction false} AttemptsRefine(replies: nat -> Reply, i: nat, s: P.State) returns (t: P.State)
    requires s.cpc.Sending? && (i > 0 ==> P.Encodable(s.batch))
    ensures Reaches(s, t, Any) && t == s.(online := HeardAll(s.online, replies, i))
  {
    if i == 0 {
      t := s;
      NoSteps(s);
    } else {
      var r := AttemptsRefine(replies, i - 1, s);
      t := OneAttempt(replies(i - 1), r);
      ReachTrans(s, r, t, Any);
    }
  }

  /** In an honest send no attempt before the last was accepted, and the last one was if it succeeded. */
  lemma HonestAttempts(sendable: bool, max: int, net: Network, try: Try)
    requires Honest(sendable, max, net, try)
    ensures try.attempts > 0 ==> sendable
    ensures try.ok ==> try.attempts > 0 && net.replies(try.attempts - 1).Accepted?
    ensures forall a: nat :: a < (if try.ok then try.attempts - 1 else try.attempts) ==> !net.replies(a).Accepted?
  {
    if sendable {
      var backoff: nat :| max >= 0 && Outcome(net, max, try.ok, try.attempts, backoff);
      forall a: nat | a < try.attempts - 1 ensures !net.replies(a).Accepted? { assert GoesOn(net, a); }
    }
  }

  lemma NamesEncodable(n: Naming, names: seq<P.Msg>, c: Setup, batch: seq<Message>)
    requires Labels(n) && Named(n, names, batch) && n.codec == c.codec && CanSend(c, batch)
    ensures P.Encodable(names)
  {
    forall i | 0 <= i < |names| ensures names[i].encodable {
      assert batch[i] in batch && n.kind(names[i]) == KindOf(c.codec, batch[i]);
    }
  }

  /** Between s and t the batch in hand at s has been dealt with. */
  ghost predicate HandsOver(s: P.State, t: P.State, ok: bool) {
    t.handed == s.handed + [s.batch] && t.delivered == s.delivered + if ok then Elements(s.batch) else {}
  }

  lemma StoreFlush(c: Setup, n: Naming, snap: Snap, net: Network, try: Try, stamps: Stamps, s: P.State)
    returns (t: P.State)
    requires Labels(n) && s.cpc.Sending? && !try.ok
    requires Shows(s.(online := Online(snap.trace)), c, n, snap)
    requires s.online == Online(snap.trace + Reported(c, net, try.attempts))
    ensures Reaches(s, t, Any) && Shows(t, c, n, Flush(c, snap, net, try, stamps))
    ensures t.cpc == P.Resume(s.cpc.after) && SameCalls(s, t) && HandsOver(s, t, false)
  {
    var s1 := P.ConApply(s, P.CGiveUp);
    ReachStep(s, P.Con(P.CGiveUp), Any);
    var s2 := StoringRefines(n, snap.bucket, snap.batch, stamps, s1, |snap.batch|);
    ReachTrans(s, s1, s2, Any);
    StoreAllSorted(c.codec, snap.bucket, snap.batch, stamps, |snap.batch|);
    t := P.ConApply(s2, P.CFinish);
    Next(s, s2, P.Con(P.CFinish), t, Any);
  }

  lemma AcceptedFlush(c: Setup, n: Naming, snap: Snap, net: Network, try: Try, stamps: Stamps, s: P.State)
    returns (t: P.State)
    requires Shows(s, c, n, snap) && s.cpc.Sending? && P.Encodable(s.batch)
    requires try.ok && try.attempts > 0 && net.replies(try.attempts - 1).Accepted?
    ensures Reaches(s, t, Any) && Shows(t, c, n, Flush(c, snap, net, try, stamps))
    ensures t.cpc == P.Resume(s.cpc.after) && SameCalls(s, t) && HandsOver(s, t, true)
  {
    OnlineAfter(snap.trace, Reported(c, net, try.attempts));
    var r := AttemptsRefine(net.replies, try.attempts - 1, s);
    AcceptedIsReported(s.online, net.replies, net.clock, try.attempts);
    t := P.ConApply(r, P.CAccepted);
    Next(s, r, P.Con(P.CAccepted), t, Any);
  }

  /** A flush: its attempts, and then accepted, or given up and stored message by message. */
  lemma FlushRefines(c: Setup, n: Naming, snap: Snap, net: Network, try: Try, stamps: Stamps, s: P.State)
    returns (t: P.State)
    requires Labels(n) && Shows(s, c, n, snap) && s.cpc.Sending?
    requires Honest(CanSend(c, snap.batch), c.max, net, try)
    ensures Reaches(s, t, Any) && Shows(t, c, n, Flush(c, snap, net, try, stamps))
    ensures t.cpc == P.Resume(s.cpc.after) && SameCalls(s, t) && HandsOver(s, t, try.ok)
  {
    HonestAttempts(CanSend(c, snap.batch), c.max, net, try);
    if try.attempts > 0 { NamesEncodable(n, s.batch, c, snap.batch); }
    if try.ok {
      t := AcceptedFlush(c, n, snap, net, try, stamps, s);
    } else {
      OnlineAfter(snap.trace, Reported(c, net, try.attempts));
      var r := AttemptsRefine(net.replies, try.attempts, s);
      HeardIsReported(s.online, net.replies, net.clock, try.attempts);
      t := StoreFlush(c, n, snap, net, try, stamps, r);
      ReachTrans(s, r, t, Any);
    }
  }

  // ---- Heartbeats ----

  lemma OneBeatAttempt(reply: Reply, s: P.State) returns (t: P.State)
    requires s.cpc.BeatSending?
    ensures Reaches(s, t, Any) && t == s.(online := Heard(s.online, reply))
  {
    if reply.NetworkError? {
      t := P.ConApply(s, P.CBeatNetError);
      ReachStep(s, P.Con(P.CBeatNetError), Any);
    } else {
      t := s;
      NoSteps(s);
    }
  }

  lemma {:induction false} BeatAttempts(replies: nat -> Reply, i: nat, s: P.State) returns (t: P.State)
    requires s.cpc.BeatSending?
    ensures Reaches(s, t, Any) && t == s.(online := HeardAll(s.online, replies, i))
  {
    if i == 0 {
      t := s;
      NoSteps(s);
    } else {
      var r := BeatAttempts(replies, i - 1, s);
      t := OneBeatAttempt(replies(i - 1), r);
      ReachTrans(s, r, t, Any);
    }
  }

  lemma BeatSends(c: Setup, n: Naming, snap: Snap, turn: Turn, try: Try, s: P.State) returns (t: P.State)
    requires Shows(s, c, n, snap) && s.cpc.BeatSending? && Honest(CanSend(c, [turn.beat]), c.max, turn.beatNet, try)
    ensures Reaches(s, t, Any) && Shows(t, c, n, Beat(c, snap, turn, try)) && t.cpc.Selecting?
    ensures SameCalls(s, t) && SamePast(s, t)
  {
    var net := turn.beatNet;
    HonestAttempts(CanSend(c, [turn.beat]), c.max, net, try);
    OnlineAfter(snap.trace, Reported(c, net, try.attempts));
    var before := if try.ok then try.attempts - 1 else try.attempts;
    var r := BeatAttempts(net.replies, before, s);
    if try.ok {
      AcceptedIsReported(s.online, net.replies, net.clock, try.attempts);
    } else {
      HeardIsReported(s.online, net.replies, net.clock, before);
    }
    t := P.ConApply(r, P.CBeatDone(try.ok));
    Next(s, r, P.Con(P.CBeatDone(try.ok)), t, Any);
  }

  /** The end of a tick: a heartbeat, if one is due. */
  lemma BeatRefines(c: Setup, n: Naming, snap: Snap, turn: Turn, try: Try, s: P.State) returns (t: P.State)
    requires Shows(s, c, n, snap) && s.cpc.Beating?
    requires BeatDue(c, snap, turn.beatAt) ==> Honest(CanSend(c, [turn.beat]), c.max, turn.beatNet, try)
    ensures Reaches(s, t, Any) && t.cpc.Selecting? && SameCalls(s, t) && SamePast(s, t)
    ensures Shows(t, c, n, if BeatDue(c, snap, turn.beatAt) then Beat(c, snap, turn, try) else snap)
  {
    if BeatDue(c, snap, turn.beatAt) {
      var r := P.ConApply(s, P.CBeat);
      ReachStep(s, P.Con(P.CBeat), Any);
      t := BeatSends(c, n, snap, turn, try, r);
      ReachTrans(s, r, t, Any);
    } else {
      t := P.ConApply(s, P.CBeatSkip);
      ReachStep(s, P.Con(P.CBeatSkip), Any);
    }
  }

  // ---- Turns ----

  lemma TakeRefines(c: Setup, n: Naming, snap: Snap, size: nat, s: P.State) returns (t: P.State)
    requires Shows(s, c, n, snap) && s.cpc.Selecting? && snap.queue != []
    ensures Reaches(s, t, Any) && Shows(t, c, n, Take(snap)) && SameCalls(s, t) && SamePast(s, t)
    ensures t.cpc == if |Take(snap).batch| >= size then P.Sending(P.ToSelect) else P.Selecting
  {
    t := P.ConApply(s, P.CReceive(size));
    ReachStep(s, P.Con(P.CReceive(size)), Any);
  }

  /** The records of a store whose time has not passed. */
  ghost function InTime(store: map<Key, P.Entry>, now: int): map<Key, P.Entry> {
    map k | k in store && now < store[k].timestamp + store[k].ttl :: store[k]
  }

  lemma CleanStep(s: P.State, now: int, cleans: bool) returns (t: P.State)
    requires s.cpc.Cleaning? && s.cfg.storage
    ensures Reaches(s, t, Any) && t.store == if cleans then InTime(s.store, now) else s.store
    ensures t == s.(store := t.store, cpc := P.Beating, expired := t.expired, lost := t.lost, raced := t.raced)
  {
    t := P.ConApply(s, P.CClean(now, cleans));
    ReachStep(s, P.Con(P.CClean(now, cleans)), Any);
    assert s.store - P.ExpiredKeys(s.store, now) == InTime(s.store, now);
  }

  lemma SweepTurnRefines(c: Setup, n: Naming, snap: Snap, now: int, cleans: bool, s: P.State) returns (t: P.State)
    requires Shows(s, c, n, snap) && s.cpc.Cleaning?
    ensures Reaches(s, t, Any) && Shows(t, c, n, Sweep(c, snap, now, cleans)) && t.cpc.Beating?
    ensures t.store == if cleans then InTime(s.store, now) else s.store
    ensures SameCalls(s, t) && SamePast(s, t)
  {
    SweepRefines(n, s.store, snap.bucket, now);
    assert s.store - P.ExpiredKeys(s.store, now) == InTime(s.store, now);
    KeepSorted(snap.bucket, LiveAt(now));
    t := CleanStep(s, now, cleans);
  }

  /** A batch handed to the sender, and whether it was accepted. */
  datatype Handing = Handing(messages: seq<Message>, ok: bool)

  /** From s to t the machine dealt with at most this one batch. */
  ghost predicate Hands(n: Naming, s: P.State, t: P.State, one: Option<Handing>) {
    match one
    case None => SamePast(s, t)
    case Some(h) =>
      && |t.handed| == |s.handed| + 1 && t.handed[..|s.handed|] == s.handed
      && Named(n, t.handed[|s.handed|], h.messages)
      && t.delivered == s.delivered + if h.ok then Elements(t.handed[|s.handed|]) else {}
  }

  lemma ReceiveRefines(c: Setup, n: Naming, a: Snap, turn: Turn, try: Try, u: Snap, s: P.State) returns (t: P.State)
    requires Configured(c.sizing) && Labels(n) && Shows(s, c, n, a) && s.cpc.Selecting?
    requires a.queue != [] && Received(c, a, turn, try, u)
    ensures Reaches(s, t, Any) && Shows(t, c, n, u) && t.cpc.Selecting? && SameCalls(s, t)
    ensures Hands(n, s, t, if |Take(a).batch| >= BatchSize(c.sizing, turn.metrics)
                           then Some(Handing(Take(a).batch, try.ok)) else None)
  {
    t := TakeRefines(c, n, a, BatchSize(c.sizing, turn.metrics), s);
    if t.cpc.Sending? {
      var r := t;
      t := FlushRefines(c, n, Take(a), turn.net, try, turn.stamps, r);
      ReachTrans(s, r, t, Any);
    }
  }

  lemma TickFlushRefines(c: Setup, n: Naming, a: Snap, turn: Turn, try: Try, s: P.State) returns (t: P.State)
    requires Labels(n) && Shows(s, c, n, a) && s.cpc.Selecting?
    requires a.batch != [] ==> Honest(CanSend(c, a.batch), c.max, turn.net, try)
    ensures Reaches(s, t, Any) && t.cpc.Cleaning? && SameCalls(s, t)
    ensures Shows(t, c, n, if a.batch != [] then Flush(c, a, turn.net, try, turn.stamps) else a)
    ensures Hands(n, s, t, if a.batch != [] then Some(Handing(a.batch, try.ok)) else None)
  {
    t := P.ConApply(s, P.CTick);
    ReachStep(s, P.Con(P.CTick), Any);
    if a.batch != [] {
      var r := t;
      t := FlushRefines(c, n, a, turn.net, try, turn.stamps, r);
      ReachTrans(s, r, t, Any);
    }
  }

  lemma SentAndSweptRefines(c: Setup, n: Naming, a: Snap, turn: Turn, try: Try, w: Snap, s: P.State)
    returns (t: P.State)
    requires Labels(n) && Shows(s, c, n, a) && s.cpc.Selecting? && SentAndSwept(c, a, turn, try, w)
    ensures Reaches(s, t, Any) && Shows(t, c, n, w) && t.cpc.Beating? && SameCalls(s, t)
    ensures Hands(n, s, t, if a.batch != [] then Some(Handing(a.batch, try.ok)) else None)
  {
    var r := TickFlushRefines(c, n, a, turn, try, s);
    var f := if a.batch != [] then Flush(c, a, turn.net, try, turn.stamps) else a;
    t := SweepTurnRefines(c, n, f, turn.cleanAt, turn.cleans, r);
    ReachTrans(s, r, t, Any);
  }

  lemma TickRefines(c: Setup, n: Naming, a: Snap, turn: Turn, try: Try, w: Snap, beat: Try, u: Snap, s: P.State)
    returns (t: P.State)
    requires Labels(n) && Shows(s, c, n, a) && s.cpc.Selecting?
    requires SentAndSwept(c, a, turn, try, w) && Beaten(c, w, turn, beat, u)
    ensures Reaches(s, t, Any) && Shows(t, c, n, u) && t.cpc.Selecting? && SameCalls(s, t)
    ensures Hands(n, s, t, if a.batch != [] then Some(Handing(a.batch, try.ok)) else None)
  {
    var r := SentAndSweptRefines(c, n, a, turn, try, w, s);
    t := BeatRefines(c, n, w, turn, beat, r);
    ReachTrans(s, r, t, Any);
  }

  lemma TurnParts(c: Setup, s: Snap, t: Turn, r: Result)
    requires Configured(c.sizing) && HonestTurn(c, s, t, r)
    ensures var a, u := Arrive(c, s, t.arrivals), Turned(c, s, t, r);
      && (t.event.Receive? ==> if a.queue == [] then u == a else Received(c, a, t, r.flush, u))
      && (t.event.Tick? ==> SentAndSwept(c, a, t, r.flush, Swept(c, s, t, r.flush))
                            && Beaten(c, Swept(c, s, t, r.flush), t, r.beat, u))
  {
  }

  /** The batch a turn hands to the sender, if it does. */
  function HandedIn(c: Setup, snap: Snap, turn: Turn, r: Result): Option<Handing>
    requires Configured(c.sizing)
  {
    if Flushes(c, snap, turn) then Some(Handing(Reach(c, snap, turn).batch, r.flush.ok)) else None
  }

  /** Every turn of the select is a run of the machine back to its select. */
  lemma TurnRefines(c: Setup, n: Naming, snap: Snap, turn: Turn, r: Result, later: seq<Message>, names: seq<P.Msg>,
                    s: P.State) returns (t: P.State)
    requires Configured(c.sizing) && Labels(n) && Shows(s, c, n, snap) && s.cpc.Selecting?
    requires AtQueue(s, n, names, turn.arrivals + later) && HonestTurn(c, snap, turn, r)
    ensures Reaches(s, t, Any) && Shows(t, c, n, Turned(c, snap, turn, r)) && t.cpc.Selecting?
    ensures AtQueue(t, n, names[|turn.arrivals|..], later) && t.stopped == s.stopped
    ensures Hands(n, s, t, HandedIn(c, snap, turn, r))
  {
    var a := Arrive(c, snap, turn.arrivals);
    var q := OfferRefines(c, n, snap, turn.arrivals, later, names, s);
    TurnParts(c, snap, turn, r);
    var u := Turned(c, snap, turn, r);
    if turn.event.Tick? {
      t := TickRefines(c, n, a, turn, r.flush, Swept(c, snap, turn, r.flush), r.beat, u, q);
    } else if a.queue == [] {
      t := q;
      NoSteps(q);
    } else {
      t := ReceiveRefines(c, n, a, turn, r.flush, u, q);
    }
    ReachTrans(s, q, t, Any);
  }

  // ---- Histories ----

  /** The batches among what was sent, heartbeats left out. */
  function Batches(items: seq<Item>): seq<seq<Message>> {
    if items == [] then [] else
    Batches(items[..|items| - 1]) + if items[|items| - 1].Batch? then [items[|items| - 1].messages] else []
  }

  lemma {:induction false} BatchesConcat(x: seq<Item>, y: seq<Item>)
    ensures Batches(x + y) == Batches(x) + Batches(y)
    decreases |y|
  {
    if y == [] {
      assert x + y == x;
    } else {
      var n := |y| - 1;
      BatchesConcat(x, y[..n]);
      assert (x + y)[..|x + y| - 1] == x + y[..n];
      Regroup(Batches(x), Batches(y[..n]), if y[n].Batch? then [y[n].messages] else []);
    }
  }

  lemma {:induction false} BatchesAreQueued(items: seq<Item>)
    ensures Concat(Batches(items)) == Queued(items)
  {
    if items != [] {
      var n := |items| - 1;
      BatchesAreQueued(items[..n]);
      if items[n].Batch? {
        ConcatSnoc(Batches(items[..n]), items[n].messages);
      } else {
        assert Batches(items) == Batches(items[..n]);
      }
    }
  }

  function BatchIn(one: Option<Handing>): seq<seq<Message>> { if one.Some? then [one.value.messages] else [] }

  function OkIn(one: Option<Handing>): seq<bool> { if one.Some? then [one.value.ok] else [] }

  lemma BatchesOfTurn(c: Setup, s: Snap, t: Turn, r: Result)
    requires Configured(c.sizing)
    ensures Batches(Sent(c, s, t, r)) == BatchIn(HandedIn(c, s, t, r))
  {
    var flush := if Flushes(c, s, t) then [Batch(Reach(c, s, t).batch)] else [];
    var beat := if Beats(c, s, t, r.flush) then [Heartbeat(t.beat)] else [];
    BatchesConcat(flush, beat);
    if Flushes(c, s, t) {
      assert flush[..0] == [] && Batches(flush) == [] + [Reach(c, s, t).batch];
    }
    if Beats(c, s, t, r.flush) {
      assert beat[..0] == [] && Batches(beat) == [] + [];
    }
  }

  /** Which of the batches of the first i turns were accepted. */
  function OksBy(c: Setup, s: Snap, turns: seq<Turn>, rs: seq<Result>, i: nat): seq<bool>
    requires Configured(c.sizing) && i <= |turns| && i <= |rs|
  {
    if i == 0 then [] else
    OksBy(c, s, turns, rs, i - 1) + OkIn(HandedIn(c, After(c, s, turns, rs, i - 1), turns[i - 1], rs[i - 1]))
  }

  /** The messages of the accepted batches. */
  ghost function AcceptedIn(handed: seq<seq<P.Msg>>, oks: seq<bool>): set<P.Msg>
    requires |handed| == |oks|
  {
    set i, x | 0 <= i < |oks| && oks[i] && x in handed[i] :: x
  }

  /** The machine's histories are the client's: batch by batch, and what was accepted. */
  ghost predicate Remembers(s: P.State, n: Naming, batches: seq<seq<Message>>, oks: seq<bool>) {
    && |s.handed| == |batches| == |oks| && (forall i :: 0 <= i < |batches| ==> Named(n, s.handed[i], batches[i]))
    && s.delivered == AcceptedIn(s.handed, oks)
  }

  lemma OneMoreHanding(s: P.State, t: P.State, n: Naming, batches: seq<seq<Message>>, oks: seq<bool>,
                       one: Option<Handing>)
    requires Remembers(s, n, batches, oks) && Hands(n, s, t, one)
    ensures Remembers(t, n, batches + BatchIn(one), oks + OkIn(one))
  {
    if one.None? {
      assert batches + [] == batches && oks + [] == oks;
    } else {
      var all, last := oks + [one.value.ok], |oks|;
      forall i | 0 <= i < last ensures t.handed[i] == s.handed[i] && all[i] == oks[i] {
        assert t.handed[..|s.handed|][i] == t.handed[i];
      }
      assert all[last] == one.value.ok;
      var more := if one.value.ok then Elements(t.handed[last]) else {};
      assert AcceptedIn(t.handed, all) == AcceptedIn(s.handed, oks) + more;
    }
  }

  lemma {:induction false} ConcatNamed(n: Naming, names: seq<seq<P.Msg>>, batches: seq<seq<Message>>)
    requires |names| == |batches| && forall i :: 0 <= i < |names| ==> Named(n, names[i], batches[i])
    ensures Named(n, Concat(names), Concat(batches))
  {
    if names != [] {
      var last := |names| - 1;
      ConcatNamed(n, names[..last], batches[..last]);
      NamedConcat(n, Concat(names[..last]), Concat(batches[..last]), names[last], batches[last]);
    }
  }

  /** Message by message, the machine has handed over what the client queued and sent. */
  lemma HandedNameQueued(s: P.State, n: Naming, items: seq<Item>, oks: seq<bool>)
    requires Remembers(s, n, Batches(items), oks)
    ensures Named(n, Concat(s.handed), Queued(items))
  {
    ConcatNamed(n, s.handed, Batches(items));
    BatchesAreQueued(items);
  }

  /** The arrivals of the turns from the i-th on. */
  function Arrivals(turns: seq<Turn>, i: nat): seq<Message>
    requires i <= |turns|
    decreases |turns| - i
  {
    if i == |turns| then [] else turns[i].arrivals + Arrivals(turns, i + 1)
  }

  /** At its select, the machine shows the client, has these calls waiting, and remembers what was sent. */
  ghost predicate Ready(s: P.State, c: Setup, n: Naming, snap: Snap, names: seq<P.Msg>, messages: seq<Message>,
                        items: seq<Item>, oks: seq<bool>) {
    && Shows(s, c, n, snap) && s.cpc.Selecting? && AtQueue(s, n, names, messages)
    && Remembers(s, n, Batches(items), oks)
  }

  lemma TurnReady(c: Setup, n: Naming, snap: Snap, turn: Turn, r: Result, later: seq<Message>, names: seq<P.Msg>,
                  items: seq<Item>, oks: seq<bool>, s: P.State) returns (t: P.State)
    requires Configured(c.sizing) && Labels(n) && HonestTurn(c, snap, turn, r)
    requires Ready(s, c, n, snap, names, turn.arrivals + later, items, oks)
    ensures Reaches(s, t, Any)
    ensures Ready(t, c, n, Turned(c, snap, turn, r), names[|turn.arrivals|..], later, items + Sent(c, snap, turn, r),
                  oks + OkIn(HandedIn(c, snap, turn, r)))
  {
    t := TurnRefines(c, n, snap, turn, r, later, names, s);
    OneMoreHanding(s, t, n, Batches(items), oks, HandedIn(c, snap, turn, r));
    BatchesOfTurn(c, snap, turn, r);
    BatchesConcat(items, Sent(c, snap, turn, r));
  }

  /** A course of turns: the client, what has been sent and what accepted, before each turn and at the end. */
  datatype Course = Course(snaps: seq<Snap>, sent: seq<seq<Item>>, oks: seq<seq<bool>>)

  ghost predicate CourseAt(c: Setup, k: Course, turns: seq<Turn>, rs: seq<Result>, i: nat)
    requires Configured(c.sizing) && i < |turns| == |rs| && |k.snaps| == |k.sent| == |k.oks| == |turns| + 1
  {
    var a, turn, r := k.snaps[i], turns[i], rs[i];
    && HonestTurn(c, a, turn, r) && k.snaps[i + 1] == Turned(c, a, turn, r)
    && k.sent[i + 1] == k.sent[i] + Sent(c, a, turn, r) && k.oks[i + 1] == k.oks[i] + OkIn(HandedIn(c, a, turn, r))
  }

  ghost predicate IsCourse(c: Setup, k: Course, turns: seq<Turn>, rs: seq<Result>)
    requires Configured(c.sizing)
  {
    && |k.snaps| == |k.sent| == |k.oks| == |turns| + 1 && |turns| == |rs| && k.sent[0] == [] && k.oks[0] == []
    && forall i: nat :: i < |turns| ==> CourseAt(c, k, turns, rs, i)
  }

  /** The course the client's contract gives. */
  function CourseOf(c: Setup, snap: Snap, turns: seq<Turn>, rs: seq<Result>): Course
    requires Configured(c.sizing) && |turns| == |rs|
  {
    Course(seq(|turns| + 1, i requires 0 <= i <= |turns| => After(c, snap, turns, rs, i)),
           seq(|turns| + 1, i requires 0 <= i <= |turns| => SentBy(c, snap, turns, rs, i)),
           seq(|turns| + 1, i requires 0 <= i <= |turns| => OksBy(c, snap, turns, rs, i)))
  }

  lemma CourseOfTurns(c: Setup, snap: Snap, turns: seq<Turn>, rs: seq<Result>)
    requires Configured(c.sizing) && |turns| == |rs| && AllHonest(c, snap, turns, rs, |turns|)
    ensures IsCourse(c, CourseOf(c, snap, turns, rs), turns, rs)
  {
    var k := CourseOf(c, snap, turns, rs);
    forall i: nat | i < |turns| ensures CourseAt(c, k, turns, rs, i) {
      assert HonestAt(c, snap, turns, rs, i);
    }
  }

  lemma CourseStep(c: Setup, n: Naming, k: Course, turns: seq<Turn>, rs: seq<Result>, i: nat, later: seq<Message>,
                   names: seq<P.Msg>, s: P.State) returns (t: P.State)
    requires Configured(c.sizing) && Labels(n) && IsCourse(c, k, turns, rs) && 0 < i <= |turns|
    requires Ready(s, c, n, k.snaps[i - 1], names, Arrivals(turns, i - 1) + later, k.sent[i - 1], k.oks[i - 1])
    ensures Reaches(s, t, Any)
    ensures Ready(t, c, n, k.snaps[i], names[|turns[i - 1].arrivals|..], Arrivals(turns, i) + later, k.sent[i],
                  k.oks[i])
  {
    assert CourseAt(c, k, turns, rs, i - 1);
    Regroup(turns[i - 1].arrivals, Arrivals(turns, i), later);
    t := TurnReady(c, n, k.snaps[i - 1], turns[i - 1], rs[i - 1], Arrivals(turns, i) + later, names, k.sent[i - 1],
                   k.oks[i - 1], s);
  }

  /** So is any number of turns, and the machine remembers what they sent and which batches were accepted. */
  lemma {:induction false} TurnsRefine(c: Setup, n: Naming, k: Course, turns: seq<Turn>, rs: seq<Result>, i: nat,
                                       later: seq<Message>, names: seq<P.Msg>, s: P.State)
    returns (t: P.State, rest: seq<P.Msg>)
    requires Configured(c.sizing) && Labels(n) && IsCourse(c, k, turns, rs) && i <= |turns|
    requires Ready(s, c, n, k.snaps[0], names, Arrivals(turns, 0) + later, k.sent[0], k.oks[0])
    ensures Reaches(s, t, Any)
    ensures Ready(t, c, n, k.snaps[i], rest, Arrivals(turns, i) + later, k.sent[i], k.oks[i])
    decreases i
  {
    if i == 0 {
      t, rest := s, names;
      NoSteps(s);
    } else {
      var q, qs := TurnsRefine(c, n, k, turns, rs, i - 1, later, names, s);
      t := CourseStep(c, n, k, turns, rs, i, later, qs, q);
      rest := qs[|turns[i - 1].arrivals|..];
      ReachTrans(s, q, t, Any);
    }
  }

  // ---- Shutdown ----

  lemma DrainTakeRefines(c: Setup, n: Naming, snap: Snap, s: P.State) returns (t: P.State)
    requires Shows(s, c, n, snap) && s.cpc.Draining? && snap.queue != []
    ensures Reaches(s, t, Any) && Shows(t, c, n, Take(snap)) && t.cpc.Draining? && SameCalls(s, t) && SamePast(s, t)
  {
    t := P.ConApply(s, P.CDrainTake);
    ReachStep(s, P.Con(P.CDrainTake), Any);
  }

  function Offered(offers: seq<seq<Message>>): seq<Message> {
    if offers == [] then [] else offers[0] + Offered(offers[1..])
  }

  lemma ForgetOffers(s: P.State, n: Naming, names: seq<P.Msg>, offers: seq<Message>, later: seq<Message>)
    requires AtQueue(s, n, names, offers + later)
    ensures AtQueue(s, n, names[|offers|..], later)
  {
    var rest := names[|offers|..];
    assert names == names[..|offers|] + rest;
    NoDupSplit(names[..|offers|], rest);
    forall i | 0 <= i < |rest| ensures n.kind(rest[i]) == KindOf(n.codec, later[i]) {
      assert rest[i] == names[|offers| + i] && (offers + later)[|offers| + i] == later[i];
    }
  }

  /** The drain, look by look, with publishers still offering; later offers may stay at the queue. */
  lemma {:induction false} DrainRefines(c: Setup, n: Naming, snap: Snap, offers: seq<seq<Message>>, later: seq<Message>,
                                        names: seq<P.Msg>, s: P.State) returns (t: P.State, rest: seq<P.Msg>)
    requires Shows(s, c, n, snap) && s.cpc.Draining? && AtQueue(s, n, names, Offered(offers) + later)
    ensures Reaches(s, t, Any) && t.cpc.Draining? && AtQueue(t, n, rest, later)
    ensures t.stopped == s.stopped && SamePast(s, t)
    ensures Shows(t, c, n, snap.(batch := Gathered(snap.batch, snap.queue, offers, c.capacity), queue := []))
    decreases |offers|, |snap.queue|
  {
    DrainLook(snap.batch, snap.queue, offers, c.capacity);
    var q, a, tail, left := s, snap, offers, names;
    if offers == [] {
      NoSteps(s);
    } else {
      tail := offers[1..];
      Regroup(offers[0], Offered(tail), later);
      q := OfferRefines(c, n, snap, offers[0], Offered(tail) + later, names, s);
      a, left := Arrive(c, snap, offers[0]), names[|offers[0]|..];
    }
    if a.queue == [] {
      t, rest := q, left[|Offered(tail)|..];
      ForgetOffers(t, n, left, Offered(tail), later);
    } else {
      var r := DrainTakeRefines(c, n, a, q);
      ReachTrans(s, q, r, Any);
      t, rest := DrainRefines(c, n, Take(a), tail, later, left, r);
      ReachTrans(s, r, t, Any);
    }
  }

  /** From the stop signal to the end of the drain. */
  lemma StopRefines(c: Setup, n: Naming, snap: Snap, e: Ending, names: seq<P.Msg>, s: P.State)
    returns (t: P.State, rest: seq<P.Msg>)
    requires Shows(s, c, n, snap) && s.cpc.Selecting? && AtQueue(s, n, names, Offered(e.offers) + e.late)
    ensures Reaches(s, t, Any) && Shows(t, c, n, Drained(c, snap, e)) && AtQueue(t, n, rest, e.late) && SamePast(s, t)
    ensures t.cpc == if LastBatch(c, snap, e) != [] then P.Sending(P.ToExit) else P.Exited
  {
    var s1 := s.(stopped := true);
    if s.stopped {
      NoSteps(s);
    } else {
      ReachStep(s, P.Env(P.StopClient), Any);
    }
    var s2 := P.ConApply(s1, P.CStop);
    Next(s, s1, P.Con(P.CStop), s2, Any);
    var s3;
    s3, rest := DrainRefines(c, n, snap, e.offers, e.late, names, s2);
    ReachTrans(s, s2, s3, Any);
    t := P.ConApply(s3, P.CDrainEnd);
    Next(s, s3, P.Con(P.CDrainEnd), t, Any);
  }

  /** The batch a shutdown hands to the sender, if there is one. */
  function HandedLast(c: Setup, snap: Snap, e: Ending, try: Try): Option<Handing> {
    if LastBatch(c, snap, e) != [] then Some(Handing(LastBatch(c, snap, e), try.ok)) else None
  }

  /** The whole shutdown, from the stop signal to the consumer's exit, is a run of the machine. */
  lemma ShutdownRefines(c: Setup, n: Naming, snap: Snap, e: Ending, try: Try, names: seq<P.Msg>, s: P.State)
    returns (t: P.State)
    requires Labels(n) && Shows(s, c, n, snap) && s.cpc.Selecting? && AtQueue(s, n, names, Offered(e.offers) + e.late)
    requires var last := LastBatch(c, snap, e); last != [] ==> Honest(CanSend(c, last), c.max, e.net, try)
    ensures Reaches(s, t, Any) && Shows(t, c, n, Stopped(c, snap, e, try)) && t.cpc.Exited?
    ensures Hands(n, s, t, HandedLast(c, snap, e, try))
  {
    var d := Drained(c, snap, e);
    var q, rest := StopRefines(c, n, snap, e, names, s);
    var f := d;
    if d.batch != [] {
      var r := q;
      q := FlushRefines(c, n, d, e.net, try, e.stamps, r);
      ReachTrans(s, r, q, Any);
      f := Flush(c, d, e.net, try, e.stamps);
    }
    assert e.late + [] == e.late;
    t := OfferRefines(c, n, f, e.late, [], rest, q);
    ReachTrans(s, q, t, Any);
  }

  // ---- From the start ----

  /** While the client is online, calls to Publish come as far as the queue. */
  lemma {:induction false} PublishersCome(names: seq<P.Msg>, s: P.State) returns (t: P.State)
    requires s.online && NoDup(names) && forall x :: x in names ==> x !in s.seen
    ensures Reaches(s, t, Any) && t == s.(pubs := t.pubs, seen := t.seen)
    ensures forall x :: x in names ==> x in t.pubs && t.pubs[x] == P.ToQueue
    ensures forall x :: x in t.seen <==> x in s.seen || x in names
    decreases |names|
  {
    if names == [] {
      t := s;
      NoSteps(s);
    } else {
      var last := |names| - 1;
      var init, x := names[..last], names[last];
      assert names == init + [x];
      NoDupSplit(init, [x]);
      var r := PublishersCome(init, s);
      t := P.PubApply(r, P.PubBegin(x));
      Next(s, r, P.Pub(P.PubBegin(x)), t, Any);
    }
  }

  lemma PublishersReady(c: Setup, n: Naming, snap: Snap, messages: seq<Message>, names: seq<P.Msg>, s0: P.State)
    returns (t: P.State)
    requires P.Opened(s0) && Shows(s0, c, n, snap)
    requires Named(n, names, messages) && NoDup(names) && forall x :: x in names ==> x !in s0.seen
    ensures Reaches(s0, t, Any) && Ready(t, c, n, snap, names, messages, [], [])
  {
    t := PublishersCome(names, s0);
    assert AcceptedIn([], []) == {};
  }

  lemma NoMoreArrivals(turns: seq<Turn>, later: seq<Message>)
    ensures Arrivals(turns, |turns|) + later == later
  {
    assert [] + later == later;
  }

  lemma TurnsFromStart(c: Setup, n: Naming, snap: Snap, turns: seq<Turn>, rs: seq<Result>, later: seq<Message>,
                       names: seq<P.Msg>, s0: P.State) returns (t: P.State, rest: seq<P.Msg>)
    requires Configured(c.sizing) && Labels(n) && P.Opened(s0) && Shows(s0, c, n, snap)
    requires |turns| == |rs| && AllHonest(c, snap, turns, rs, |turns|)
    requires Named(n, names, Arrivals(turns, 0) + later) && NoDup(names) && forall x :: x in names ==> x !in s0.seen
    ensures Reaches(s0, t, Any)
    ensures var k := CourseOf(c, snap, turns, rs);
      Ready(t, c, n, k.snaps[|turns|], rest, later, k.sent[|turns|], k.oks[|turns|])
  {
    var k := CourseOf(c, snap, turns, rs);
    CourseOfTurns(c, snap, turns, rs);
    var s1 := PublishersReady(c, n, snap, Arrivals(turns, 0) + later, names, s0);
    t, rest := TurnsRefine(c, n, k, turns, rs, |turns|, later, names, s1);
    ReachTrans(s0, s1, t, Any);
    NoMoreArrivals(turns, later);
  }

  /** Everything processQueue sends, turns and shutdown. */
  function AllSent(c: Setup, snap: Snap, turns: seq<Turn>, rs: seq<Result>, e: Ending): seq<Item>
    requires Configured(c.sizing) && |turns| == |rs|
  {
    var last := LastBatch(c, After(c, snap, turns, rs, |turns|), e);
    SentBy(c, snap, turns, rs, |turns|) + if last != [] then [Batch(last)] else []
  }

  /** Which of its batches were accepted. */
  function AllOks(c: Setup, snap: Snap, turns: seq<Turn>, rs: seq<Result>, e: Ending, try: Try): seq<bool>
    requires Configured(c.sizing) && |turns| == |rs|
  {
    OksBy(c, snap, turns, rs, |turns|) + OkIn(HandedLast(c, After(c, snap, turns, rs, |turns|), e, try))
  }

  /** The machine has stopped, shows the stopped client, and remembers what was sent and accepted. */
  ghost predicate Finished(t: P.State, c: Setup, n: Naming, u: Snap, items: seq<Item>, oks: seq<bool>) {
    && t.cpc.Exited? && Shows(t, c, n, u) && Remembers(t, n, Batches(items), oks)
    && Named(n, Concat(t.handed), Queued(items))
  }

  lemma ShutdownFinishes(c: Setup, n: Naming, snap: Snap, e: Ending, try: Try, names: seq<P.Msg>, items: seq<Item>,
                         oks: seq<bool>, s: P.State) returns (t: P.State)
    requires Labels(n) && Ready(s, c, n, snap, names, Offered(e.offers) + e.late, items, oks)
    requires var last := LastBatch(c, snap, e); last != [] ==> Honest(CanSend(c, last), c.max, e.net, try)
    ensures Reaches(s, t, Any)
    ensures var last := LastBatch(c, snap, e);
      Finished(t, c, n, Stopped(c, snap, e, try), items + (if last != [] then [Batch(last)] else []),
               oks + OkIn(HandedLast(c, snap, e, try)))
  {
    var one := HandedLast(c, snap, e, try);
    t := ShutdownRefines(c, n, snap, e, try, names, s);
    OneMoreHanding(s, t, n, Batches(items), oks, one);
    var last := if one.Some? then [Batch(one.value.messages)] else [];
    BatchesConcat(items, last);
    if one.Some? {
      assert last[..0] == [] && Batches(last) == [] + [one.value.messages];
    }
    HandedNameQueued(t, n, items + last, oks + OkIn(one));
  }

  /**
   All that processQueue does from a fresh client on, on whatever store, for any schedule of turns
   and any shutdown, is a run of the machine: it ends in a state that shows the queue, batch,
   bucket and connectivity the method's contract gives, and remembers what was sent and accepted.
   */
  lemma ProcessQueueRefines(c: Setup, n: Naming, snap: Snap, turns: seq<Turn>, rs: seq<Result>, e: Ending, try: Try,
                            names: seq<P.Msg>, s0: P.State) returns (t: P.State)
    requires Configured(c.sizing) && Labels(n) && P.Opened(s0) && Shows(s0, c, n, snap)
    requires |turns| == |rs| && AllHonest(c, snap, turns, rs, |turns|)
    requires Named(n, names, Arrivals(turns, 0) + (Offered(e.offers) + e.late)) && NoDup(names)
    requires forall x :: x in names ==> x !in s0.seen
    requires var last := LastBatch(c, After(c, snap, turns, rs, |turns|), e);
      last != [] ==> Honest(CanSend(c, last), c.max, e.net, try)
    ensures Reaches(s0, t, Any)
    ensures Finished(t, c, n, Stopped(c, After(c, snap, turns, rs, |turns|), e, try), AllSent(c, snap, turns, rs, e),
                     AllOks(c, snap, turns, rs, e, try))
  {
    var r, rest := TurnsFromStart(c, n, snap, turns, rs, Offered(e.offers) + e.late, names, s0);
    var k := CourseOf(c, snap, turns, rs);
    t := ShutdownFinishes(c, n, k.snaps[|turns|], e, try, rest, k.sent[|turns|], k.oks[|turns|], r);
    ReachTrans(s0, r, t, Any);
  }

  /** A record of this kind is in the bucket. */
  ghost predicate Kept(k: Kind, b: seq<Record>) {
    exists key :: key in Contents(b) && KindStored(Contents(b)[key]) == k
  }

  /** Where a message handed to the sender can be once the consumer has stopped. */
  ghost predicate AccountedFor(x: P.Msg, t: P.State, n: Naming, u: Snap, oks: seq<bool>)
    requires |t.handed| == |oks|
  {
    Kept(n.kind(x), u.bucket) || x in AcceptedIn(t.handed, oks) || x in t.expired || x in t.lost
  }

  /**
   So the machine's theorem about what was handed over holds of what processQueue sent: message by
   message, it is kept in the bucket, was in a batch the server accepted, or has expired or been lost.
   */
  lemma SentAreAccountedFor(s0: P.State, t: P.State, c: Setup, n: Naming, u: Snap, items: seq<Item>, oks: seq<bool>)
    requires P.Opened(s0) && Reaches(s0, t, Any) && Finished(t, c, n, u, items, oks)
    ensures forall i :: 0 <= i < |Queued(items)| ==>
      n.kind(Concat(t.handed)[i]) == KindOf(n.codec, Queued(items)[i])
      && AccountedFor(Concat(t.handed)[i], t, n, u, oks)
  {
    var steps :| P.IsRun(s0, steps) && P.Exec(s0, steps) == t;
    FirstInFirstOut(s0, steps);
    forall x | x in Concat(t.handed) ensures AccountedFor(x, t, n, u, oks) {
      if x in P.Msgs(t.store) {
        var k :| k in t.store && t.store[k].msg == x;
        assert EntryFor(n, t.store[k], Contents(u.bucket)[k]);
      }
    }
  }

  /** The machine as it starts on a store. */
  function Starting(c: Setup, store: map<Key, P.Entry>): P.State {
    var stored := P.Msgs(store);
    P.State(P.Config(c.capacity, true, false, false, c.heartbeats), [], [], P.Selecting, store, P.RIdle, map[], true,
            false, stored, stored, [], [], None, {}, {}, {}, {}, {})
  }

  /** There is such a run whatever the messages, alike or not, and whatever the store held before. */
  lemma ProcessQueueRuns(c: Setup, snap: Snap, turns: seq<Turn>, rs: seq<Result>, e: Ending, try: Try)
    returns (n: Naming, s0: P.State, t: P.State)
    requires Configured(c.sizing) && c.kept && c.connected && Sorted(snap.bucket)
    requires snap.batch == snap.queue == [] && snap.trace == []
    requires |turns| == |rs| && AllHonest(c, snap, turns, rs, |turns|)
    requires var last := LastBatch(c, After(c, snap, turns, rs, |turns|), e);
      last != [] ==> Honest(CanSend(c, last), c.max, e.net, try)
    ensures P.Opened(s0) && Shows(s0, c, n, snap) && Labels(n) && Reaches(s0, t, Any)
    ensures Finished(t, c, n, Stopped(c, After(c, snap, turns, rs, |turns|), e, try), AllSent(c, snap, turns, rs, e),
                     AllOks(c, snap, turns, rs, e, try))
  {
    var names, store;
    n, names, store := NamesExist(c.codec, Arrivals(turns, 0) + (Offered(e.offers) + e.late), snap.bucket);
    s0 := Starting(c, store);
    t := ProcessQueueRefines(c, n, snap, turns, rs, e, try, names, s0);
  }
}
