/** What an offline retry cycle puts on the wire, and what it may delete, record by record. */
module RetryDelivery {
  import opened Wrappers
  import opened Keys
  import opened Storage
  import opened Messages
  import opened Sending
  import opened RetryCycle

  /** Message by message, the batch carries the records at ids. */
  ghost predicate CarriesAll(batch: seq<Message>, stored: map<Key, StoredMessage>, ids: seq<Key>,
                             stamp: nat -> string) {
    && |batch| == |ids|
    && forall j :: 0 <= j < |ids| ==> ids[j] in stored && Carries(batch[j], stored[ids[j]], stamp(j))
  }

  lemma {:induction false} OutgoingCarries(stored: map<Key, StoredMessage>, ids: seq<Key>, stamp: nat -> string)
    requires Elements(ids) <= stored.Keys
    ensures CarriesAll(Outgoing(stored, ids, stamp), stored, ids, stamp)
  {
    if ids != [] {
      var n := |ids| - 1;
      OutgoingCarries(stored, ids[..n], stamp);
      RetryCarries(stored[ids[n]], stamp(n));
    }
  }

  // ---- One round ----

  /** Among the fifty records a round looks at. */
  ghost predicate LookedAt(b: seq<Record>, k: Key) {
    exists j :: 0 <= j < |b| && j < 50 && b[j].key == k
  }

  ghost predicate PastItsTime(v: StoredMessage, now: int) { now >= v.timestamp + v.ttl }

  /** The server takes the batch of round i: at once, or when asked again after a 429, a 5xx or no response. */
  ghost predicate AnsweredOk(e: Env, i: nat) {
    var replies := e.nets(i).replies;
    e.requestable && (replies(0).Accepted?
                      || ((replies(0).Busy? || replies(0).NetworkError?) && replies(1).Accepted?))
  }

  lemma LookedAtIsWindow(b: seq<Record>, k: Key)
    requires Sorted(b)
    ensures LookedAt(b, k) <==> k in Contents(b[..Min(ROUND, |b|)])
  {
    var w := b[..Min(ROUND, |b|)];
    ContentsKeys(w);
    if k in KeySet(w) {
      var r :| r in w && r.key == k;
      var j :| 0 <= j < |w| && w[j] == r;
      assert b[j].key == k;
    }
    if LookedAt(b, k) {
      var j :| 0 <= j < |b| && j < 50 && b[j].key == k;
      assert w[j] in w;
    }
  }

  /** One more batch, and it carries the records at ids; or none, if there are none. */
  ghost predicate OneMoreBatch(wire: seq<seq<Message>>, stored: map<Key, StoredMessage>, ids: seq<Key>,
                               stamp: nat -> string, longer: seq<seq<Message>>) {
    if ids == [] then longer == wire
    else |longer| == |wire| + 1 && wire <= longer && CarriesAll(longer[|wire|], stored, ids, stamp)
  }

  lemma OneBatchCarries(wire: seq<seq<Message>>, stored: map<Key, StoredMessage>, ids: seq<Key>, stamp: nat -> string)
    requires Elements(ids) <= stored.Keys
    ensures OneMoreBatch(wire, stored, ids, stamp, wire + OneBatch(stored, ids, stamp))
  {
    if ids == [] {
      assert wire + [] == wire;
    } else {
      OutgoingCarries(stored, ids, stamp);
    }
  }

  /** A round puts its records on the wire as they are stored, in one batch, or sends nothing. */
  lemma RoundCarries(e: Env, i: nat, p: Point, ids: seq<Key>, failed: bool, q: Point)
    requires Round(e, i, p, ids, failed, q) && Sorted(p.bucket)
    ensures OneMoreBatch(p.wire, Contents(p.bucket), ids, e.stamps(i), q.wire)
  {
    var w := Min(ROUND, |p.bucket|);
    assert Sends(e, i, p, ids, q);
    if ids == [] {
      assert p.wire + [] == p.wire;
    } else {
      OutgoingCarries(Contents(p.bucket[..w]), ids, e.stamps(i));
      WindowValues(p.bucket, w);
    }
  }

  /** A round picks exactly the records it looks at whose time has not passed. */
  lemma RoundPicks(e: Env, i: nat, p: Point, ids: seq<Key>, failed: bool, q: Point, k: Key)
    requires Round(e, i, p, ids, failed, q) && Sorted(p.bucket) && k in Contents(p.bucket)
    ensures k in ids <==> LookedAt(p.bucket, k) && !PastItsTime(Contents(p.bucket)[k], e.clock(i))
    ensures failed <==> ids != [] && !AnsweredOk(e, i)
  {
    var w := Min(ROUND, |p.bucket|);
    WindowValues(p.bucket, w);
    LookedAtIsWindow(p.bucket, k);
    assert k in ids <==> k in Elements(ids);
    RetryByReplies(e.nets(i).replies);
  }

  /** And it deletes exactly those past their time and, once the server has taken them, those it sent. */
  lemma RoundDeletesExactly(e: Env, i: nat, p: Point, ids: seq<Key>, failed: bool, q: Point, k: Key)
    requires Round(e, i, p, ids, failed, q) && Sorted(p.bucket)
    ensures Sorted(q.bucket) && (k in Contents(q.bucket) ==> k in Contents(p.bucket))
    ensures k in Contents(p.bucket) ==>
      var v := Contents(p.bucket)[k];
      && (k in Contents(q.bucket) ==> Contents(q.bucket)[k] == v)
      && (k !in Contents(q.bucket) <==>
            || (e.commits(i).expired && LookedAt(p.bucket, k) && PastItsTime(v, e.clock(i)))
            || (e.commits(i).sent && k in ids && AnsweredOk(e, i)))
  {
    var stored := Contents(p.bucket[..Min(ROUND, |p.bucket|)]);
    var gone := Gone(stored, e.clock(i), e.commits(i), failed);
    KeepSorted(p.bucket, NotIn(gone));
    WithoutIsDeletion(p.bucket, gone);
    if k in Contents(p.bucket) {
      RoundPicks(e, i, p, ids, failed, q, k);
      LookedAtIsWindow(p.bucket, k);
      WindowValues(p.bucket, Min(ROUND, |p.bucket|));
    }
  }

  // ---- A whole cycle ----

  /** How many of the first n rounds had something to send. */
  function Batches(sent: seq<seq<Key>>, n: nat): nat
    requires n <= |sent|
  {
    if n == 0 then 0 else Batches(sent, n - 1) + if sent[n - 1] != [] then 1 else 0
  }

  /** Records only leave, and those that stay stay as they were. */
  ghost predicate Within(b: seq<Record>, whole: seq<Record>) {
    forall k :: k in Contents(b) ==> k in Contents(whole) && Contents(b)[k] == Contents(whole)[k]
  }

  /** The record was past its time in round i, or the server took the batch of round i that carried it. */
  ghost predicate SpentIn(e: Env, sent: seq<seq<Key>>, i: nat, k: Key)
    requires i < |sent| && k in Contents(e.b)
  {
    PastItsTime(Contents(e.b)[k], e.clock(i)) || (k in sent[i] && AnsweredOk(e, i))
  }

  /** What is left is as it was, and what is gone was spent in one of the first n rounds. */
  ghost predicate OnlySpentGone(e: Env, sent: seq<seq<Key>>, n: nat, b: seq<Record>)
    requires n <= |sent|
  {
    && Within(b, e.b)
    && forall k :: k in Contents(e.b) && k !in Contents(b) ==> exists i: nat :: i < n && SpentIn(e, sent, i, k)
  }

  lemma OneRoundGone(e: Env, sent: seq<seq<Key>>, i: nat, p: Point, failed: bool, q: Point)
    requires i < |sent| && Round(e, i, p, sent[i], failed, q) && Sorted(p.bucket)
    requires OnlySpentGone(e, sent, i, p.bucket)
    ensures Sorted(q.bucket) && OnlySpentGone(e, sent, i + 1, q.bucket)
  {
    KeepSorted(p.bucket, NotIn(Gone(Contents(p.bucket[..Min(ROUND, |p.bucket|)]), e.clock(i), e.commits(i), failed)));
    forall k | k in Contents(q.bucket) ensures k in Contents(e.b) && Contents(q.bucket)[k] == Contents(e.b)[k] {
      RoundDeletesExactly(e, i, p, sent[i], failed, q, k);
    }
    forall k | k in Contents(e.b) && k !in Contents(q.bucket)
      ensures exists j: nat :: j < i + 1 && SpentIn(e, sent, j, k)
    {
      if k in Contents(p.bucket) {
        RoundDeletesExactly(e, i, p, sent[i], failed, q, k);
        assert SpentIn(e, sent, i, k);
      } else {
        var j: nat :| j < i && SpentIn(e, sent, j, k);
      }
    }
  }

  /** So nothing leaves the bucket in a cycle but what expired or was in a batch the server took. */
  lemma {:induction false} CycleDeletesOnlySpent(e: Env, sent: seq<seq<Key>>, failed: bool, points: seq<Point>, n: nat)
    requires Sorted(e.b) && Cycle(e, sent, failed, points) && n <= |sent|
    ensures Sorted(points[n].bucket) && OnlySpentGone(e, sent, n, points[n].bucket)
    decreases n
  {
    if n > 0 {
      CycleDeletesOnlySpent(e, sent, failed, points, n - 1);
      assert RoundAt(e, sent, failed, points, n - 1);
      OneRoundGone(e, sent, n - 1, points[n - 1], failed && n == |sent|, points[n]);
    }
  }

  /** The batch of round i is on the wire behind those of the earlier rounds, with its records as first stored. */
  ghost predicate CarriedIn(e: Env, sent: seq<seq<Key>>, i: nat, wire: seq<seq<Message>>)
    requires i < |sent|
  {
    var at := |e.start.wire| + Batches(sent, i);
    at < |wire| && CarriesAll(wire[at], Contents(e.b), sent[i], e.stamps(i))
  }

  /** The wire has grown by one batch for each of the first n rounds that had something to send. */
  ghost predicate GrownBy(e: Env, sent: seq<seq<Key>>, n: nat, wire: seq<seq<Message>>)
    requires n <= |sent|
  {
    e.start.wire <= wire && |wire| == |e.start.wire| + Batches(sent, n)
  }

  ghost predicate AllCarried(e: Env, sent: seq<seq<Key>>, n: nat, wire: seq<seq<Message>>)
    requires n <= |sent|
  {
    n == 0 || (AllCarried(e, sent, n - 1, wire) && (sent[n - 1] != [] ==> CarriedIn(e, sent, n - 1, wire)))
  }

  /** And by nothing else: each of those batches carries the records of its round. */
  ghost predicate SentAsStored(e: Env, sent: seq<seq<Key>>, n: nat, wire: seq<seq<Message>>)
    requires n <= |sent|
  {
    GrownBy(e, sent, n, wire) && AllCarried(e, sent, n, wire)
  }

  lemma StillCarried(e: Env, sent: seq<seq<Key>>, i: nat, wire: seq<seq<Message>>, longer: seq<seq<Message>>)
    requires i < |sent| && CarriedIn(e, sent, i, wire) && wire <= longer
    ensures CarriedIn(e, sent, i, longer)
  {
  }

  lemma CarriesWhole(batch: seq<Message>, b: seq<Record>, whole: seq<Record>, ids: seq<Key>, stamp: nat -> string)
    requires CarriesAll(batch, Contents(b), ids, stamp) && Within(b, whole)
    ensures CarriesAll(batch, Contents(whole), ids, stamp)
  {
  }

  lemma LastCarried(e: Env, sent: seq<seq<Key>>, n: nat, b: seq<Record>, wire: seq<seq<Message>>,
                    longer: seq<seq<Message>>)
    requires 0 < n <= |sent| && sent[n - 1] != [] && Within(b, e.b) && |wire| == |e.start.wire| + Batches(sent, n - 1)
    requires OneMoreBatch(wire, Contents(b), sent[n - 1], e.stamps(n - 1), longer)
    ensures CarriedIn(e, sent, n - 1, longer)
  {
    CarriesWhole(longer[|wire|], b, e.b, sent[n - 1], e.stamps(n - 1));
  }

  lemma OneRoundGrows(e: Env, sent: seq<seq<Key>>, n: nat, stored: map<Key, StoredMessage>, wire: seq<seq<Message>>,
                      longer: seq<seq<Message>>)
    requires 0 < n <= |sent| && GrownBy(e, sent, n - 1, wire)
    requires OneMoreBatch(wire, stored, sent[n - 1], e.stamps(n - 1), longer)
    ensures GrownBy(e, sent, n, longer)
  {
  }

  lemma {:induction false} OthersCarried(e: Env, sent: seq<seq<Key>>, n: nat, wire: seq<seq<Message>>,
                                         longer: seq<seq<Message>>)
    requires n <= |sent| && AllCarried(e, sent, n, wire) && wire <= longer
    ensures AllCarried(e, sent, n, longer)
    decreases n
  {
    if n > 0 {
      OthersCarried(e, sent, n - 1, wire, longer);
      if sent[n - 1] != [] {
        StillCarried(e, sent, n - 1, wire, longer);
      }
    }
  }

  /** So the batch of round i is where it belongs. */
  lemma {:induction false} CarriedAt(e: Env, sent: seq<seq<Key>>, n: nat, wire: seq<seq<Message>>, i: nat)
    requires i < n <= |sent| && AllCarried(e, sent, n, wire) && sent[i] != []
    ensures CarriedIn(e, sent, i, wire)
    decreases n
  {
    if i < n - 1 {
      CarriedAt(e, sent, n - 1, wire, i);
    }
  }

  lemma OneRoundCarried(e: Env, sent: seq<seq<Key>>, n: nat, b: seq<Record>, wire: seq<seq<Message>>,
                        longer: seq<seq<Message>>)
    requires 0 < n <= |sent| && Within(b, e.b) && SentAsStored(e, sent, n - 1, wire)
    requires OneMoreBatch(wire, Contents(b), sent[n - 1], e.stamps(n - 1), longer)
    ensures AllCarried(e, sent, n, longer)
  {
    OthersCarried(e, sent, n - 1, wire, longer);
    if sent[n - 1] != [] {
      LastCarried(e, sent, n, b, wire, longer);
    }
  }

  lemma LinkCarries(e: Env, sent: seq<seq<Key>>, failed: bool, points: seq<Point>, n: nat)
    requires Cycle(e, sent, failed, points) && 0 < n <= |sent| && Sorted(points[n - 1].bucket)
    ensures OneMoreBatch(points[n - 1].wire, Contents(points[n - 1].bucket), sent[n - 1], e.stamps(n - 1),
                         points[n].wire)
  {
    assert RoundAt(e, sent, failed, points, n - 1);
    RoundCarries(e, n - 1, points[n - 1], sent[n - 1], failed && n == |sent|, points[n]);
  }

  lemma NextRoundCarried(e: Env, sent: seq<seq<Key>>, failed: bool, points: seq<Point>, n: nat)
    requires Sorted(e.b) && Cycle(e, sent, failed, points) && 0 < n <= |sent|
    requires SentAsStored(e, sent, n - 1, points[n - 1].wire)
    ensures SentAsStored(e, sent, n, points[n].wire)
  {
    var p, q := points[n - 1], points[n];
    CycleDeletesOnlySpent(e, sent, failed, points, n - 1);
    LinkCarries(e, sent, failed, points, n);
    OneRoundGrows(e, sent, n, Contents(p.bucket), p.wire, q.wire);
    OneRoundCarried(e, sent, n, p.bucket, p.wire, q.wire);
  }

  /** A cycle sends its records, round by round, with the text and the tags they were stored with. */
  lemma {:induction false} CycleSendsAsStored(e: Env, sent: seq<seq<Key>>, failed: bool, points: seq<Point>, n: nat)
    requires Sorted(e.b) && Cycle(e, sent, failed, points) && n <= |sent|
    ensures SentAsStored(e, sent, n, points[n].wire)
    decreases n
  {
    if n > 0 {
      CycleSendsAsStored(e, sent, failed, points, n - 1);
      NextRoundCarried(e, sent, failed, points, n);
    }
  }

  /** What a cycle comes to: its records on the wire as they were stored, and nothing deleted that was not spent. */
  ghost predicate FaithfulCycle(e: Env, sent: seq<seq<Key>>, end: Point) {
    SentAsStored(e, sent, |sent|, end.wire) && OnlySpentGone(e, sent, |sent|, end.bucket)
  }

  /** Every cycle comes to that, whichever of its fetches, sends and deletes fail. */
  lemma CycleIsFaithful(e: Env, sent: seq<seq<Key>>, failed: bool, points: seq<Point>)
    requires Sorted(e.b) && Cycle(e, sent, failed, points)
    ensures FaithfulCycle(e, sent, points[|sent|])
  {
    CycleSendsAsStored(e, sent, failed, points, |sent|);
    CycleDeletesOnlySpent(e, sent, failed, points, |sent|);
  }
}
