/**
 The retry cycle refines the pipeline machine: its rounds, with failing transactions and sends, are
 runs of the machine's steps on the abstract bucket.
 */
module RetryRefinement {
  import opened Wrappers
  import opened Keys
  import opened Storage
  import opened Messages
  import opened Connectivity
  import opened Sending
  import opened RetryCycle
  import opened RetryDelivery
  import opened Refinement
  import P = Pipeline
  import opened PipelineRuns

  /** The machine state shows the bucket and the connectivity of a point of the cycle. */
  ghost predicate At(s: P.State, n: Naming, p: Point) {
    Holds(n, s.store, p.bucket) && s.online == Online(p.trace) && Sorted(p.bucket)
  }

  lemma FirstWindow(n: Naming, b: seq<Record>, s: P.State)
    requires Sorted(b) && b != [] && Holds(n, s.store, b)
    ensures s.store != map[] && IsFirst(KeySet(b[..Min(ROUND, |b|)]), s.store.Keys, P.FETCH_LIMIT)
  {
    var first := b[..Min(ROUND, |b|)];
    PrefixIsFirst(b, ROUND);
    ContentsKeys(b);
    ContentsKeys(first);
    assert s.store.Keys == Contents(b).Keys == KeySet(b);
    assert Contents(first).Keys == KeySet(first);
    assert b[0] in b && b[0].key in KeySet(b);
  }

  /** The messages of these records. */
  ghost function MsgsAt(store: map<Key, P.Entry>, ids: set<Key>): set<P.Msg> {
    set k | k in ids && k in store :: store[k].msg
  }

  /** The copies at these keys split into expired ones and live ones. */
  ghost predicate Splits(store: map<Key, P.Entry>, ids: set<Key>, now: int, dead: set<Key>, live: set<Key>) {
    var got := P.Select(store, ids);
    var kept := got - P.ExpiredKeys(got, now);
    && P.ExpiredKeys(got, now) == dead && kept.Keys == live && P.Msgs(kept) == MsgsAt(store, live)
    && (kept == map[] <==> live == {})
  }

  /** The machine's split of its copies is the client's. */
  lemma SplitRefines(n: Naming, b: seq<Record>, w: nat, now: int, store: map<Key, P.Entry>)
    requires Sorted(b) && w <= |b| && Holds(n, store, b)
    ensures Splits(store, KeySet(b[..w]), now, RetryCycle.ExpiredKeys(Contents(b[..w]), now),
                   LiveKeys(Contents(b[..w]), now))
  {
    WindowValues(b, w);
    LiveMsgs(store, KeySet(b[..w]), now);
  }

  lemma LiveMsgs(store: map<Key, P.Entry>, ids: set<Key>, now: int)
    ensures var got := P.Select(store, ids);
      var live := got - P.ExpiredKeys(got, now);
      P.Msgs(live) == MsgsAt(store, live.Keys) && (live == map[] <==> live.Keys == {})
  {
    var got := P.Select(store, ids);
    var live := got - P.ExpiredKeys(got, now);
    forall k | k in live ensures k in store && live[k] == store[k] { }
  }

  /** After the split and the first delete: on to the next round, or ready to send these records. */
  ghost predicate Picked(t: P.State, k: nat, store: map<Key, P.Entry>, live: set<Key>) {
    if live == {} then t.rpc == P.NextRound(k)
    else t.rpc.RSending? && t.rpc.k == k && t.rpc.live.Keys == live && P.Msgs(t.rpc.live) == MsgsAt(store, live)
  }

  /** The machine's fetch, split and first delete. */
  lemma FetchAndSweep(s: P.State, ids: set<Key>, now: int, ok: bool, dead: set<Key>, live: set<Key>)
    returns (t: P.State)
    requires s.rpc.RLoop? && s.store != map[] && IsFirst(ids, s.store.Keys, P.FETCH_LIMIT)
    requires Splits(s.store, ids, now, dead, live)
    ensures Reaches(s, t, Any) && t.delivered == s.delivered && t.online == s.online
    ensures t.store == s.store - (if ok then dead else {}) && Picked(t, s.rpc.k, s.store, live)
  {
    var s1 := P.RetApply(s, P.RFetch(ids));
    ReachStep(s, P.Ret(P.RFetch(ids)), Any);
    var s2 := P.RetApply(s1, P.RSplit(now));
    Next(s, s1, P.Ret(P.RSplit(now)), s2, Any);
    t := P.RetApply(s2, P.RDeleteExpired(ok));
    Next(s, s2, P.Ret(P.RDeleteExpired(ok)), t, Any);
    assert s.store - {} == s.store;
  }

  lemma OneRetry(reply: Reply, s: P.State) returns (t: P.State)
    requires s.rpc.RSending?
    ensures Reaches(s, t, Any) && t == s.(online := Heard(s.online, reply))
  {
    if reply.NetworkError? {
      t := P.RetApply(s, P.RNetError);
      ReachStep(s, P.Ret(P.RNetError), Any);
    } else {
      t := s;
      NoSteps(s);
    }
  }

  /** Attempts that were not accepted: each network error is noted. */
  lemma {:induction false} RetriesRefine(replies: nat -> Reply, i: nat, s: P.State) returns (t: P.State)
    requires s.rpc.RSending?
    ensures Reaches(s, t, Any) && t == s.(online := HeardAll(s.online, replies, i))
  {
    if i == 0 {
      t := s;
      NoSteps(s);
    } else {
      var r := RetriesRefine(replies, i - 1, s);
      t := OneRetry(replies(i - 1), r);
      ReachTrans(s, r, t, Any);
    }
  }

  /** What the attempts of a retry report. */
  function RetryReports(net: Network, requestable: bool): seq<Change> {
    if requestable then Reports(net.replies, net.clock, RetryAttempts(net.replies)) else []
  }

  lemma GiveUpRefines(net: Network, requestable: bool, s: P.State) returns (t: P.State)
    requires s.rpc.RSending? && !(requestable && Succeeds(net.replies, 1))
    ensures Reaches(s, t, Any)
    ensures t == s.(rpc := P.RIdle, online := Believes(s.online, RetryReports(net, requestable)))
  {
    NeededStopsAtFirst(net.replies, 1, 0);
    var attempts := if requestable then RetryAttempts(net.replies) else 0;
    var r := RetriesRefine(net.replies, attempts, s);
    HeardIsReported(s.online, net.replies, net.clock, attempts);
    t := P.RetApply(r, P.RGiveUp);
    Next(s, r, P.Ret(P.RGiveUp), t, Any);
  }

  /** The machine's send, and its second delete. */
  lemma AcceptRefines(net: Network, ok: bool, s: P.State) returns (t: P.State)
    requires s.rpc.RSending? && Succeeds(net.replies, 1)
    ensures Reaches(s, t, Any) && t.store == if ok then s.store - s.rpc.live.Keys else s.store
    ensures t.rpc == P.NextRound(s.rpc.k) && t.delivered == s.delivered + P.Msgs(s.rpc.live)
    ensures t.online == Believes(s.online, RetryReports(net, true))
  {
    NeededStopsAtFirst(net.replies, 1, 0);
    var attempts := RetryAttempts(net.replies);
    var r := RetriesRefine(net.replies, attempts - 1, s);
    AcceptedIsReported(s.online, net.replies, net.clock, attempts);
    var q := P.RetApply(r, P.RAccepted);
    Next(s, r, P.Ret(P.RAccepted), q, Any);
    t := P.RetApply(q, P.RDeleteSent(ok));
    Next(s, q, P.Ret(P.RDeleteSent(ok)), t, Any);
  }

  /** The bucket after a round: what its two deletes leave. */
  lemma BucketRefines(n: Naming, store: map<Key, P.Entry>, b: seq<Record>, now: int, commits: Commits, ids: seq<Key>,
                      failed: bool, after: seq<Record>)
    requires Sorted(b) && Holds(n, store, b) && RoundResult(b, now, commits, ids, failed, after)
    ensures var stored := Contents(b[..Min(ROUND, |b|)]);
      var dead := if commits.expired then RetryCycle.ExpiredKeys(stored, now) else {};
      var more := if commits.sent && !failed then LiveKeys(stored, now) else {};
      Sorted(after) && Holds(n, store - dead - more, after)
  {
    var stored := Contents(b[..Min(ROUND, |b|)]);
    var gone := Gone(stored, now, commits, failed);
    KeepSorted(b, NotIn(gone));
    WithoutRefines(n, store, b, gone);
    MinusBoth(store, if commits.expired then RetryCycle.ExpiredKeys(stored, now) else {},
              if commits.sent && !failed then LiveKeys(stored, now) else {});
  }

  lemma MinusBoth(store: map<Key, P.Entry>, a: set<Key>, b: set<Key>)
    ensures store - (a + b) == store - a - b
  {
  }

  /** The first half of a round. */
  lemma SweepWindow(n: Naming, b: seq<Record>, now: int, ok: bool, s: P.State, stored: map<Key, StoredMessage>)
    returns (t: P.State)
    requires Sorted(b) && b != [] && s.rpc.RLoop? && Holds(n, s.store, b) && stored == Contents(b[..Min(ROUND, |b|)])
    ensures Reaches(s, t, Any) && t.delivered == s.delivered && t.online == s.online
    ensures t.store == s.store - (if ok then RetryCycle.ExpiredKeys(stored, now) else {})
    ensures Picked(t, s.rpc.k, s.store, LiveKeys(stored, now))
  {
    var w := Min(ROUND, |b|);
    FirstWindow(n, b, s);
    SplitRefines(n, b, w, now, s.store);
    t := FetchAndSweep(s, KeySet(b[..w]), now, ok, RetryCycle.ExpiredKeys(stored, now), LiveKeys(stored, now));
  }

  /** The second half of a round, when there is something to send. */
  lemma SendRefines(e: Env, i: nat, failed: bool, s: P.State) returns (t: P.State)
    requires s.rpc.RSending? && (failed <==> !(e.requestable && Succeeds(e.nets(i).replies, 1)))
    ensures Reaches(s, t, Any) && t.online == Believes(s.online, RetryReports(e.nets(i), e.requestable))
    ensures t.store == s.store - if e.commits(i).sent && !failed then s.rpc.live.Keys else {}
    ensures t.rpc == if failed then P.RIdle else P.NextRound(s.rpc.k)
    ensures t.delivered == s.delivered + if failed then {} else P.Msgs(s.rpc.live)
  {
    assert s.store - {} == s.store;
    if failed {
      t := GiveUpRefines(e.nets(i), e.requestable, s);
    } else {
      t := AcceptRefines(e.nets(i), e.commits(i).sent, s);
    }
  }

  /** What a round delivers: the messages of the records it sent, if they were taken. */
  ghost function DeliveredIn(store: map<Key, P.Entry>, ids: seq<Key>, failed: bool): set<P.Msg> {
    if failed then {} else MsgsAt(store, Elements(ids))
  }

  ghost predicate OnlyRemoved(from: map<Key, P.Entry>, to: map<Key, P.Entry>) {
    forall k :: k in to ==> k in from && to[k] == from[k]
  }

  /** The second half of a round: nothing to send, or a send and what follows it. */
  lemma SecondHalf(e: Env, i: nat, ids: seq<Key>, failed: bool, store: map<Key, P.Entry>, k: nat, s: P.State)
    returns (t: P.State)
    requires Picked(s, k, store, Elements(ids)) && (failed <==> !Taken(e.requestable, e.nets(i).replies, ids))
    requires e.connected
    ensures Reaches(s, t, Any) && t.online == Believes(s.online, Noted(e, i, ids))
    ensures t.store == s.store - if e.commits(i).sent && !failed then Elements(ids) else {}
    ensures t.rpc == if failed then P.RIdle else P.NextRound(k)
    ensures t.delivered == s.delivered + DeliveredIn(store, ids, failed)
  {
    if ids == [] {
      t := s;
      NoSteps(s);
    } else {
      assert ids[0] in Elements(ids);
      t := SendRefines(e, i, failed, s);
    }
  }

  /** What a round does to the machine. */
  ghost predicate RoundDone(n: Naming, s: P.State, t: P.State, ids: seq<Key>, failed: bool, q: Point)
    requires s.rpc.RLoop?
  {
    && Reaches(s, t, Any) && At(t, n, q) && OnlyRemoved(s.store, t.store)
    && t.rpc == (if failed then P.RIdle else P.NextRound(s.rpc.k))
    && t.delivered == s.delivered + DeliveredIn(s.store, ids, failed)
  }

  /** A round, complete or failed, whichever of its deletes commit. */
  lemma RoundRefines(e: Env, i: nat, n: Naming, p: Point, ids: seq<Key>, failed: bool, q: Point, s: P.State)
    returns (t: P.State)
    requires Round(e, i, p, ids, failed, q) && e.connected && At(s, n, p) && s.rpc.RLoop?
    ensures RoundDone(n, s, t, ids, failed, q)
  {
    var stored := Contents(p.bucket[..Min(ROUND, |p.bucket|)]);
    OnlineAfter(p.trace, Noted(e, i, ids));
    BucketRefines(n, s.store, p.bucket, e.clock(i), e.commits(i), ids, failed, q.bucket);
    var r := SweepWindow(n, p.bucket, e.clock(i), e.commits(i).expired, s, stored);
    t := SecondHalf(e, i, ids, failed, s.store, s.rpc.k, r);
    ReachTrans(s, r, t, Any);
  }

  /** The text of one of the batch's messages, with its tags, is what x stands for. */
  ghost predicate CarriedBy(n: Naming, x: P.Msg, batch: seq<Message>) {
    exists j :: 0 <= j < |batch| && batch[j].data.Text?
      && n.kind(x) == Kind(Some(batch[j].data.text),
                           match batch[j].context case Some(context) => context.tags case None => [])
  }

  /** What a round delivers was in the one batch it put on the wire, each message with its own text and tags. */
  lemma DeliveredWereCarried(e: Env, i: nat, n: Naming, p: Point, ids: seq<Key>, failed: bool, q: Point, s: P.State)
    requires Round(e, i, p, ids, failed, q) && At(s, n, p) && ids != []
    ensures |q.wire| == |p.wire| + 1
    ensures forall x :: x in DeliveredIn(s.store, ids, failed) ==> CarriedBy(n, x, q.wire[|p.wire|])
  {
    RoundCarries(e, i, p, ids, failed, q);
    var batch := q.wire[|p.wire|];
    forall x | x in DeliveredIn(s.store, ids, failed) ensures CarriedBy(n, x, batch) {
      var k :| k in Elements(ids) && k in s.store && s.store[k].msg == x;
      var j :| 0 <= j < |ids| && ids[j] == k;
      assert EntryFor(n, s.store[k], Contents(p.bucket)[k]);
      assert Carries(batch[j], Contents(p.bucket)[k], e.stamps(i)(j));
    }
  }

  /** The records sent by the first i rounds of a cycle, all complete. */
  ghost function SentKeys(sent: seq<seq<Key>>, i: nat): set<Key>
    requires i <= |sent|
  {
    if i == 0 then {} else SentKeys(sent, i - 1) + Elements(sent[i - 1])
  }

  lemma DeliveredMore(past: set<P.Msg>, from: map<Key, P.Entry>, store: map<Key, P.Entry>, keys: set<Key>,
                      ids: seq<Key>, failed: bool)
    requires OnlyRemoved(from, store) && Elements(ids) <= store.Keys
    ensures past + MsgsAt(from, keys) + DeliveredIn(store, ids, failed)
         == past + MsgsAt(from, if failed then keys else keys + Elements(ids))
  {
    forall k | k in Elements(ids) ensures k in from && from[k] == store[k] { }
  }

  lemma RemovedTwice(a: map<Key, P.Entry>, b: map<Key, P.Entry>, c: map<Key, P.Entry>)
    requires OnlyRemoved(a, b) && OnlyRemoved(b, c)
    ensures OnlyRemoved(a, c)
  {
  }

  /** Where a cycle has come to after k rounds: at a point, with these records sent, over or not. */
  ghost predicate CycledTo(n: Naming, s: P.State, t: P.State, p: Point, k: nat, keys: set<Key>, over: bool) {
    && Reaches(s, t, Any) && At(t, n, p) && OnlyRemoved(s.store, t.store)
    && t.delivered == s.delivered + MsgsAt(s.store, keys)
    && t.rpc == if over || k >= ROUNDS then P.RIdle else P.RLoop(k)
  }

  lemma RoundAdds(n: Naming, s: P.State, r: P.State, p: Point, i: nat, keys: set<Key>, ids: seq<Key>, failed: bool,
                  q: Point, t: P.State)
    requires 0 < i <= ROUNDS && CycledTo(n, s, r, p, i - 1, keys, false) && RoundDone(n, r, t, ids, failed, q)
    requires Elements(ids) <= r.store.Keys
    ensures CycledTo(n, s, t, q, i, if failed then keys else keys + Elements(ids), failed)
  {
    ReachTrans(s, r, t, Any);
    RemovedTwice(s.store, r.store, t.store);
    DeliveredMore(s.delivered, s.store, r.store, keys, ids, failed);
  }

  lemma OneMoreRound(e: Env, i: nat, n: Naming, p: Point, ids: seq<Key>, failed: bool, q: Point, keys: set<Key>,
                     s: P.State, r: P.State) returns (t: P.State)
    requires 0 < i <= ROUNDS && Round(e, i - 1, p, ids, failed, q) && e.connected
    requires CycledTo(n, s, r, p, i - 1, keys, false)
    ensures CycledTo(n, s, t, q, i, if failed then keys else keys + Elements(ids), failed)
  {
    t := RoundRefines(e, i - 1, n, p, ids, failed, q, r);
    SentAreStored(e, i - 1, p, ids, failed, q, n, r.store);
    RoundAdds(n, s, r, p, i, keys, ids, failed, q, t);
  }

  lemma NoRounds(n: Naming, s: P.State, p: Point)
    requires At(s, n, p) && s.rpc == P.RLoop(0)
    ensures CycledTo(n, s, s, p, 0, {}, false)
  {
    NoSteps(s);
    assert MsgsAt(s.store, {}) == {};
  }

  lemma RoundOf(e: Env, sent: seq<seq<Key>>, failed: bool, points: seq<Point>, i: nat)
    requires Cycle(e, sent, failed, points) && 0 < i <= |sent|
    ensures Round(e, i - 1, points[i - 1], sent[i - 1], failed && i == |sent|, points[i])
  {
    assert RoundAt(e, sent, failed, points, i - 1);
  }

  lemma CycleStep(e: Env, sent: seq<seq<Key>>, failed: bool, points: seq<Point>, n: Naming, i: nat, s: P.State,
                  r: P.State) returns (t: P.State)
    requires Cycle(e, sent, failed, points) && 0 < i <= |sent| <= ROUNDS && e.connected
    requires CycledTo(n, s, r, points[i - 1], i - 1, SentKeys(sent, i - 1), false)
    ensures var over := failed && i == |sent|;
      CycledTo(n, s, t, points[i], i, SentKeys(sent, if over then i - 1 else i), over)
  {
    RoundOf(e, sent, failed, points, i);
    t := OneMoreRound(e, i, n, points[i - 1], sent[i - 1], failed && i == |sent|, points[i], SentKeys(sent, i - 1),
                      s, r);
  }

  /** A whole cycle of complete rounds and perhaps a failed one. */
  lemma {:induction false} CycleRefines(e: Env, sent: seq<seq<Key>>, failed: bool, points: seq<Point>, n: Naming,
                                        i: nat, s: P.State) returns (t: P.State)
    requires Cycle(e, sent, failed, points) && i <= |sent| <= ROUNDS && e.connected
    requires At(s, n, e.start) && s.rpc == P.RLoop(0)
    ensures var over := failed && i == |sent|;
      CycledTo(n, s, t, points[i], i, SentKeys(sent, if over then i - 1 else i), over)
  {
    if i == 0 {
      t := s;
      NoRounds(n, s, e.start);
    } else {
      var r := CycleRefines(e, sent, failed, points, n, i - 1, s);
      t := CycleStep(e, sent, failed, points, n, i, s, r);
    }
  }

  lemma SentAreStored(e: Env, i: nat, p: Point, ids: seq<Key>, failed: bool, q: Point, n: Naming,
                      store: map<Key, P.Entry>)
    requires Round(e, i, p, ids, failed, q) && Sorted(p.bucket) && Holds(n, store, p.bucket)
    ensures Elements(ids) <= store.Keys
  {
    WindowValues(p.bucket, Min(ROUND, |p.bucket|));
  }

  /**
   All of retryOfflineMessages: the online check, the rounds, and the early end at an empty bucket
   or a failed fetch.
   */
  lemma RetryRefines(e: Env, sent: seq<seq<Key>>, failed: bool, points: seq<Point>, n: Naming, s: P.State)
    returns (t: P.State)
    requires Cycle(e, sent, failed, points) && |sent| <= ROUNDS && e.connected && At(s, n, e.start)
    requires s.rpc.RIdle? && s.cfg.storage && (!Online(e.start.trace) ==> sent == [])
    ensures Reaches(s, t, Any) && At(t, n, points[|sent|]) && t.rpc.RIdle? && OnlyRemoved(s.store, t.store)
    ensures t.delivered == s.delivered + MsgsAt(s.store, SentKeys(sent, if failed then |sent| - 1 else |sent|))
  {
    if !s.online {
      t := s;
      NoSteps(s);
    } else {
      var s1 := P.RetApply(s, P.RStart);
      ReachStep(s, P.Ret(P.RStart), Any);
      var r := CycleRefines(e, sent, failed, points, n, |sent|, s1);
      ReachTrans(s, s1, r, Any);
      t := EndRefines(s, r);
    }
  }

  /** The early end of the loop, if it has not run its course. */
  lemma EndRefines(s: P.State, r: P.State) returns (t: P.State)
    requires Reaches(s, r, Any) && (r.rpc.RLoop? || r.rpc.RIdle?)
    ensures Reaches(s, t, Any) && t == r.(rpc := P.RIdle)
  {
    t := r;
    if r.rpc.RLoop? {
      t := P.RetApply(r, P.RAbort);
      Next(s, r, P.Ret(P.RAbort), t, Any);
    }
  }
}
