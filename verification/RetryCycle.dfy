/** The bucket during one offline retry cycle: consecutive windows of fifty records in key order. */
module RetryCycle {
  import opened Wrappers
  import opened Keys
  import opened Storage
  import opened Connectivity
  import opened Messages
  import opened Sending

  /** Where round i starts, once every earlier round has been dealt with. */
  function Start(b: seq<Record>, i: nat): (n: nat)
    ensures n <= |b|
  {
    Min(|b|, ROUND * i)
  }

  function Window(b: seq<Record>, i: nat): seq<Record> { b[Start(b, i)..Start(b, i + 1)] }

  function LiveKeys(stored: map<Key, StoredMessage>, now: int): set<Key> {
    set k | k in stored && !Expired(stored[k], now)
  }

  function ExpiredKeys(stored: map<Key, StoredMessage>, now: int): set<Key> {
    set k | k in stored && Expired(stored[k], now)
  }

  /** One more key looked at counts as live or as expired, and not as both. */
  lemma OneMoreKey(stored: map<Key, StoredMessage>, now: int, todo: set<Key>, id: Key)
    requires todo <= stored.Keys && id in todo
    ensures var live, dead := LiveKeys(stored, now), ExpiredKeys(stored, now);
      && live - (todo - {id}) == live - todo + (if Expired(stored[id], now) then {} else {id})
      && dead - (todo - {id}) == dead - todo + (if Expired(stored[id], now) then {id} else {})
      && id !in live - todo
  {
  }

  /** The batch sent for records picked in the order ids, each message with its own timestamp. */
  function Outgoing(stored: map<Key, StoredMessage>, ids: seq<Key>, stamp: nat -> string): seq<Message>
    requires Elements(ids) <= stored.Keys
  {
    if ids == [] then [] else
    var n := |ids| - 1;
    Outgoing(stored, ids[..n], stamp) + [RetryMessage(stored[ids[n]], stamp(n))]
  }

  lemma {:induction false} OutgoingIsText(stored: map<Key, StoredMessage>, ids: seq<Key>, stamp: nat -> string)
    requires Elements(ids) <= stored.Keys
    ensures |Outgoing(stored, ids, stamp)| == |ids|
    ensures forall m :: m in Outgoing(stored, ids, stamp) ==> m.data.Text?
  {
    if ids != [] {
      OutgoingIsText(stored, ids[..|ids| - 1], stamp);
    }
  }

  lemma WindowOfRest(b: seq<Record>, i: nat)
    ensures var rest := b[Start(b, i)..]; var w := Min(ROUND, |rest|);
      rest[..w] == Window(b, i) && rest[w..] == b[Start(b, i + 1)..]
  {
  }

  lemma SortedParts(b: seq<Record>, n: nat)
    requires Sorted(b) && n <= |b|
    ensures Sorted(b[..n]) && Sorted(b[n..])
    ensures KeySet(b[..n]) !! KeySet(b[n..])
  {
    forall r, q | r in b[..n] && q in b[n..] ensures r.key != q.key {
      var i :| 0 <= i < n && b[i] == r;
      var j :| 0 <= j < |b| - n && b[n..][j] == q;
      LessIsStrictTotal(b[i].key, b[n + j].key);
    }
  }

  /** The first records of a bucket have the values they have in the whole. */
  lemma WindowValues(b: seq<Record>, w: nat)
    requires Sorted(b) && w <= |b|
    ensures KeySet(b[..w]) == Contents(b[..w]).Keys
    ensures forall k :: k in Contents(b[..w]) ==> k in Contents(b) && Contents(b)[k] == Contents(b[..w])[k]
  {
    ContentsKeys(b[..w]);
    SortedParts(b, w);
    forall k | k in Contents(b[..w]) ensures k in Contents(b) && Contents(b)[k] == Contents(b[..w])[k] {
      var r :| r in b[..w] && r.key == k;
      RecordAt(b[..w], r);
      RecordAt(b, r);
    }
  }

  /** Deleting the expired keys of the first n records leaves their unexpired ones and the rest. */
  lemma DeleteExpired(b: seq<Record>, n: nat, now: int)
    requires Sorted(b) && n <= |b|
    ensures Without(b, ExpiredKeys(Contents(b[..n]), now)) == Unexpired(b[..n], now) + b[n..]
  {
    var first, rest := b[..n], b[n..];
    var ids := ExpiredKeys(Contents(first), now);
    SortedParts(b, n);
    ContentsKeys(first);
    assert b == first + rest;
    KeepConcat(first, rest, NotIn(ids));
    forall r | r in first ensures NotIn(ids)(r) == LiveAt(now)(r) { RecordAt(first, r); }
    KeepEqual(first, NotIn(ids), LiveAt(now));
    forall r | r in rest ensures NotIn(ids)(r) { assert r.key in KeySet(rest); }
    KeepAll(rest, NotIn(ids));
  }

  lemma {:induction false} KeepEqual(b: seq<Record>, p: Record -> bool, q: Record -> bool)
    requires forall r :: r in b ==> p(r) == q(r)
    ensures Keep(b, p) == Keep(b, q)
  {
    if b != [] {
      assert b[0] in b;
      KeepEqual(b[1..], p, q);
    }
  }

  /** Deleting the live keys as well leaves just the rest. */
  lemma DeleteSent(b: seq<Record>, n: nat, now: int)
    requires Sorted(b) && n <= |b|
    ensures Without(Unexpired(b[..n], now) + b[n..], LiveKeys(Contents(b[..n]), now)) == b[n..]
  {
    var first, rest := b[..n], b[n..];
    var ids := LiveKeys(Contents(first), now);
    SortedParts(b, n);
    ContentsKeys(first);
    KeepConcat(Unexpired(first, now), rest, NotIn(ids));
    KeepElements(first, LiveAt(now));
    forall r | r in Unexpired(first, now) ensures !NotIn(ids)(r) { RecordAt(first, r); }
    forall r | r in rest ensures NotIn(ids)(r) { assert r.key in KeySet(rest); }
    KeepAll(Unexpired(first, now), NotIn(ids));
    KeepAll(rest, NotIn(ids));
  }

  lemma LiveIsUnexpired(b: seq<Record>, now: int)
    requires Sorted(b)
    ensures LiveKeys(Contents(b), now) == KeySet(Unexpired(b, now))
  {
    ContentsKeys(b);
    KeepElements(b, LiveAt(now));
    forall r | r in b ensures r.key in Contents(b) && Contents(b)[r.key] == r.value { RecordAt(b, r); }
    forall k | k in LiveKeys(Contents(b), now) ensures k in KeySet(Unexpired(b, now)) {
      var r :| r in b && r.key == k;
      assert r in Unexpired(b, now);
    }
  }

  lemma WindowAt(b: seq<Record>, i: nat, x: Key) returns (n: nat)
    requires x in KeySet(Window(b, i))
    ensures Start(b, i) <= n < Start(b, i + 1) && b[n].key == x
  {
    var r :| r in Window(b, i) && r.key == x;
    var p :| 0 <= p < |Window(b, i)| && Window(b, i)[p] == r;
    n := Start(b, i) + p;
  }

  /** Every key of an earlier round sorts before every key of a later one. */
  lemma RoundsInKeyOrder(b: seq<Record>, i: nat, j: nat, x: Key, y: Key)
    requires Sorted(b) && i < j && x in KeySet(Window(b, i)) && y in KeySet(Window(b, j))
    ensures Less(x, y)
  {
    var m := WindowAt(b, i, x);
    var n := WindowAt(b, j, y);
    assert m < n;
  }

  /** The bucket after each half of a round, whether or not there was anything to delete. */
  lemma RoundDeletes(b: seq<Record>, n: nat, now: int)
    requires Sorted(b) && n <= |b|
    ensures var stored := Contents(b[..n]); var swept := Unexpired(b[..n], now) + b[n..];
      && Without(b, ExpiredKeys(stored, now)) == swept
      && Without(swept, LiveKeys(stored, now)) == b[n..]
      && (ExpiredKeys(stored, now) == {} ==> b == swept)
      && (LiveKeys(stored, now) == {} ==> swept == b[n..])
      && LiveKeys(stored, now) == KeySet(Unexpired(b[..n], now))
  {
    DeleteExpired(b, n, now);
    DeleteSent(b, n, now);
    KeepAll(b, NotIn({}));
    KeepAll(Unexpired(b[..n], now) + b[n..], NotIn({}));
    SortedParts(b, n);
    LiveIsUnexpired(b[..n], now);
  }

  /** Two deletes in a row are one. */
  lemma WithoutBoth(b: seq<Record>, ids: set<Key>, more: set<Key>)
    ensures Without(Without(b, ids), more) == Without(b, ids + more)
  {
    KeepTwice(b, NotIn(ids), NotIn(more), NotIn(ids + more));
  }

  lemma WithoutNone(b: seq<Record>)
    ensures Without(b, {}) == b
  {
    KeepAll(b, NotIn({}));
  }

  /** Which of a round's two deletes commit. */
  datatype Commits = Commits(expired: bool, sent: bool)

  /** The keys a round removes from the bucket. */
  ghost function Gone(stored: map<Key, StoredMessage>, now: int, commits: Commits, failed: bool): set<Key> {
    (if commits.expired then ExpiredKeys(stored, now) else {})
    + if commits.sent && !failed then LiveKeys(stored, now) else {}
  }

  /** What one round has sent, and what it leaves in the bucket b. */
  ghost predicate RoundResult(b: seq<Record>, now: int, commits: Commits, sent: seq<Key>, failed: bool,
                              after: seq<Record>) {
    var stored := Contents(b[..Min(ROUND, |b|)]);
    NoDup(sent) && Elements(sent) == LiveKeys(stored, now) && after == Without(b, Gone(stored, now, commits, failed))
  }

  lemma RoundAddsUp(b: seq<Record>, now: int, commits: Commits, sent: seq<Key>, expiredIds: seq<Key>, failed: bool,
                    swept: seq<Record>, after: seq<Record>)
    requires NoDup(sent)
    requires var stored := Contents(b[..Min(ROUND, |b|)]);
      Elements(sent) == LiveKeys(stored, now) && Elements(expiredIds) == ExpiredKeys(stored, now)
    requires swept == if expiredIds != [] && commits.expired then Without(b, Elements(expiredIds)) else b
    requires after == if sent != [] && !failed && commits.sent then Without(swept, Elements(sent)) else swept
    ensures RoundResult(b, now, commits, sent, failed, after)
  {
    var first := if commits.expired then Elements(expiredIds) else {};
    var second := if commits.sent && !failed then Elements(sent) else {};
    assert expiredIds == [] ==> Elements(expiredIds) == {};
    assert sent == [] ==> Elements(sent) == {};
    WithoutNone(b);
    WithoutNone(swept);
    assert swept == Without(b, first);
    assert after == Without(swept, second);
    WithoutBoth(b, first, second);
  }

  /** When both deletes commit, the expired records of the window go, and the sent ones if they were taken. */
  lemma RoundLeaves(b: seq<Record>, now: int, sent: seq<Key>, failed: bool, after: seq<Record>)
    requires Sorted(b) && RoundResult(b, now, Commits(true, true), sent, failed, after)
    ensures var w := Min(ROUND, |b|);
      && Elements(sent) == KeySet(Unexpired(b[..w], now))
      && after == (if failed then Unexpired(b[..w], now) + b[w..] else b[w..])
  {
    var w := Min(ROUND, |b|);
    var stored := Contents(b[..w]);
    RoundDeletes(b, w, now);
    WithoutBoth(b, ExpiredKeys(stored, now), LiveKeys(stored, now));
    assert failed ==> ExpiredKeys(stored, now) + {} == ExpiredKeys(stored, now);
  }

  /** Whether the server takes the batch of a round; an empty batch is not sent. */
  ghost predicate Taken(requestable: bool, replies: nat -> Reply, sent: seq<Key>) {
    sent == [] || (requestable && Succeeds(replies, 1))
  }

  /** Round i sends, in some order, exactly the records of its window unexpired at its reading. */
  ghost predicate SentInRound(b: seq<Record>, i: nat, now: int, sent: seq<Key>) {
    NoDup(sent) && Elements(sent) == KeySet(Unexpired(Window(b, i), now))
  }

  /** The first handled rounds over b sent what they should and were taken. */
  ghost predicate Handled(b: seq<Record>, clock: nat -> int, requestable: bool, nets: nat -> Network,
                          handled: nat, sent: seq<seq<Key>>) {
    && handled <= ROUNDS && handled <= |sent|
    && forall i :: 0 <= i < handled ==>
         SentInRound(b, i, clock(i), sent[i]) && Taken(requestable, nets(i).replies, sent[i])
  }

  /** A further round, whose send failed. */
  ghost predicate Stuck(b: seq<Record>, clock: nat -> int, requestable: bool, nets: nat -> Network,
                        handled: nat, sent: seq<seq<Key>>) {
    && handled < ROUNDS && handled < |sent|
    && SentInRound(b, handled, clock(handled), sent[handled])
    && !Taken(requestable, nets(handled).replies, sent[handled])
  }

  /**
   What a cycle leaves of b after handled complete rounds: everything past their windows, less
   the expired records of the next window when a further round failed to send.
   */
  function Remaining(b: seq<Record>, handled: nat, failed: bool, now: int): seq<Record> {
    if failed then Unexpired(Window(b, handled), now) + b[Start(b, handled + 1)..] else b[Start(b, handled)..]
  }

  /** The keys sent in each round are keys of its window. */
  ghost predicate Fits(b: seq<Record>, sent: seq<seq<Key>>) {
    forall i :: 0 <= i < |sent| ==> Elements(sent[i]) <= Contents(Window(b, i)).Keys
  }

  function OneBatch(stored: map<Key, StoredMessage>, ids: seq<Key>, stamp: nat -> string): seq<seq<Message>>
    requires Elements(ids) <= stored.Keys
  {
    if ids == [] then [] else [Outgoing(stored, ids, stamp)]
  }

  /** What the first n rounds put on the wire, leaving out rounds with nothing to send. */
  ghost function Wired(b: seq<Record>, sent: seq<seq<Key>>, n: nat, stamps: nat -> nat -> string): seq<seq<Message>>
    requires Fits(b, sent) && n <= |sent|
  {
    if n == 0 then [] else
    Wired(b, sent, n - 1, stamps) + OneBatch(Contents(Window(b, n - 1)), sent[n - 1], stamps(n - 1))
  }

  /** What the attempts of one round report about connectivity. */
  function Noted(e: Env, i: nat, ids: seq<Key>): seq<Change> {
    if e.connected && e.requestable && ids != []
    then Reports(e.nets(i).replies, e.nets(i).clock, RetryAttempts(e.nets(i).replies)) else []
  }

  /** What the attempts of the first n rounds report. */
  function NotedBy(e: Env, sent: seq<seq<Key>>, n: nat): seq<Change>
    requires n <= |sent|
  {
    if n == 0 then [] else NotedBy(e, sent, n - 1) + Noted(e, n - 1, sent[n - 1])
  }

  // ---- A cycle as a chain of rounds ----

  datatype Point = Point(bucket: seq<Record>, wire: seq<seq<Message>>, trace: seq<Change>)

  /**
   What a cycle starts from and meets: the client at its start, and for each round the clock
   reading, the messages' timestamps, the network, which deletes commit and whether the fetch does.
   */
  datatype Env = Env(start: Point, clock: nat -> int, stamps: nat -> nat -> string, connected: bool, requestable: bool,
                     nets: nat -> Network, commits: nat -> Commits, fetches: nat -> bool)
  {
    const b: seq<Record> := start.bucket
  }

  /** Every transaction of the cycle commits. */
  ghost predicate AllCommit(e: Env) { forall i: nat :: e.commits(i) == Commits(true, true) && e.fetches(i) }

  /** What a round puts on the wire and reports. */
  ghost predicate Sends(e: Env, i: nat, p: Point, ids: seq<Key>, q: Point) {
    var stored := Contents(p.bucket[..Min(ROUND, |p.bucket|)]);
    && Elements(ids) <= stored.Keys && q.wire == p.wire + OneBatch(stored, ids, e.stamps(i))
    && q.trace == p.trace + Noted(e, i, ids)
  }

  /** Round i leads from p to q, sending ids. */
  ghost predicate Round(e: Env, i: nat, p: Point, ids: seq<Key>, failed: bool, q: Point) {
    && p.bucket != [] && RoundResult(p.bucket, e.clock(i), e.commits(i), ids, failed, q.bucket)
    && (failed <==> !Taken(e.requestable, e.nets(i).replies, ids))
    && Sends(e, i, p, ids, q)
  }

  /** A chain of rounds through these points; only the last may have failed. */
  ghost predicate Cycle(e: Env, sent: seq<seq<Key>>, failed: bool, points: seq<Point>) {
    && |points| == |sent| + 1 && points[0] == e.start
    && (failed ==> sent != [])
    && forall i: nat :: i < |sent| ==> RoundAt(e, sent, failed, points, i)
  }

  ghost predicate RoundAt(e: Env, sent: seq<seq<Key>>, failed: bool, points: seq<Point>, i: nat)
    requires |points| == |sent| + 1 && i < |sent|
  {
    Round(e, i, points[i], sent[i], failed && i == |sent| - 1, points[i + 1])
  }

  lemma CycleSnoc(e: Env, sent: seq<seq<Key>>, points: seq<Point>, ids: seq<Key>, failed: bool, q: Point)
    requires Cycle(e, sent, false, points) && Round(e, |sent|, points[|sent|], ids, failed, q)
    ensures Cycle(e, sent + [ids], failed, points + [q])
  {
    forall i: nat | i < |sent| ensures RoundAt(e, sent + [ids], failed, points + [q], i) {
      assert RoundAt(e, sent, false, points, i);
    }
  }

  lemma RoundInWindow(b: seq<Record>, i: nat, now: int, ids: seq<Key>, failed: bool, after: seq<Record>)
    requires Sorted(b) && RoundResult(b[Start(b, i)..], now, Commits(true, true), ids, failed, after)
    ensures SentInRound(b, i, now, ids)
    ensures after == Remaining(b, if failed then i else i + 1, failed, now)
  {
    WindowOfRest(b, i);
    RoundLeaves(b[Start(b, i)..], now, ids, failed, after);
  }

  /** Where the chain stands before round i. */
  lemma {:induction false} BucketAt(e: Env, sent: seq<seq<Key>>, failed: bool, points: seq<Point>, i: nat)
    requires Sorted(e.b) && AllCommit(e) && Cycle(e, sent, failed, points) && i <= |sent| && (failed ==> i < |sent|)
    ensures points[i].bucket == e.b[Start(e.b, i)..]
  {
    if i > 0 {
      BucketAt(e, sent, failed, points, i - 1);
      assert RoundAt(e, sent, failed, points, i - 1);
      RoundInWindow(e.b, i - 1, e.clock(i - 1), sent[i - 1], false, points[i].bucket);
    }
  }

  lemma SentAt(e: Env, sent: seq<seq<Key>>, failed: bool, points: seq<Point>, i: nat)
    requires Sorted(e.b) && AllCommit(e) && Cycle(e, sent, failed, points) && i < |sent|
    ensures var stuck := failed && i == |sent| - 1;
      && SentInRound(e.b, i, e.clock(i), sent[i])
      && (stuck <==> !Taken(e.requestable, e.nets(i).replies, sent[i]))
      && points[i + 1].bucket == Remaining(e.b, if stuck then i else i + 1, stuck, e.clock(i))
  {
    BucketAt(e, sent, failed, points, i);
    assert RoundAt(e, sent, failed, points, i);
    RoundInWindow(e.b, i, e.clock(i), sent[i], failed && i == |sent| - 1, points[i + 1].bucket);
  }

  /** The exact effect of a cycle on the bucket, whatever the number of its rounds. */
  lemma CycleEffect(e: Env, sent: seq<seq<Key>>, failed: bool, points: seq<Point>, handled: nat)
    requires Sorted(e.b) && AllCommit(e) && Cycle(e, sent, failed, points)
    requires |sent| <= ROUNDS && |sent| == handled + if failed then 1 else 0
    ensures Handled(e.b, e.clock, e.requestable, e.nets, handled, sent)
    ensures failed ==> Stuck(e.b, e.clock, e.requestable, e.nets, handled, sent)
    ensures points[|sent|].bucket == Remaining(e.b, handled, failed, e.clock(handled))
  {
    forall i: nat | i < handled
      ensures SentInRound(e.b, i, e.clock(i), sent[i]) && Taken(e.requestable, e.nets(i).replies, sent[i])
    {
      SentAt(e, sent, failed, points, i);
    }
    if failed {
      SentAt(e, sent, failed, points, handled);
    } else {
      BucketAt(e, sent, failed, points, handled);
    }
  }

  lemma SendsFit(e: Env, sent: seq<seq<Key>>, failed: bool, points: seq<Point>, i: nat)
    requires Sorted(e.b) && AllCommit(e) && Cycle(e, sent, failed, points) && i < |sent|
    ensures var stored := Contents(Window(e.b, i));
      Elements(sent[i]) <= stored.Keys && points[i + 1].wire == points[i].wire + OneBatch(stored, sent[i], e.stamps(i))
  {
    BucketAt(e, sent, failed, points, i);
    WindowOfRest(e.b, i);
    assert RoundAt(e, sent, failed, points, i);
    assert Sends(e, i, points[i], sent[i], points[i + 1]);
  }

  lemma CycleFits(e: Env, sent: seq<seq<Key>>, failed: bool, points: seq<Point>)
    requires Sorted(e.b) && AllCommit(e) && Cycle(e, sent, failed, points)
    ensures Fits(e.b, sent)
  {
    forall i: nat | i < |sent| ensures Elements(sent[i]) <= Contents(Window(e.b, i)).Keys {
      SendsFit(e, sent, failed, points, i);
    }
  }

  /** What a cycle puts on the wire. */
  lemma {:induction false} CycleWire(e: Env, sent: seq<seq<Key>>, failed: bool, points: seq<Point>, n: nat)
    requires Sorted(e.b) && AllCommit(e) && Cycle(e, sent, failed, points) && Fits(e.b, sent) && n <= |sent|
    ensures points[n].wire == e.start.wire + Wired(e.b, sent, n, e.stamps)
  {
    if n > 0 {
      CycleWire(e, sent, failed, points, n - 1);
      SendsFit(e, sent, failed, points, n - 1);
      var stored := Contents(Window(e.b, n - 1));
      Regroup(e.start.wire, Wired(e.b, sent, n - 1, e.stamps), OneBatch(stored, sent[n - 1], e.stamps(n - 1)));
    }
  }

  /** What a cycle reports, whether or not its deletes commit. */
  lemma {:induction false} CycleTrace(e: Env, sent: seq<seq<Key>>, failed: bool, points: seq<Point>, n: nat)
    requires Cycle(e, sent, failed, points) && n <= |sent|
    ensures points[n].trace == e.start.trace + NotedBy(e, sent, n)
  {
    if n > 0 {
      CycleTrace(e, sent, failed, points, n - 1);
      assert RoundAt(e, sent, failed, points, n - 1);
      assert Sends(e, n - 1, points[n - 1], sent[n - 1], points[n]);
      Regroup(e.start.trace, NotedBy(e, sent, n - 1), Noted(e, n - 1, sent[n - 1]));
    }
  }

  /** What a cycle of handled complete rounds, and perhaps a failed one, comes to. */
  ghost predicate Summary(e: Env, handled: nat, failed: bool, sent: seq<seq<Key>>, end: Point) {
    && Handled(e.b, e.clock, e.requestable, e.nets, handled, sent)
    && (failed ==> Stuck(e.b, e.clock, e.requestable, e.nets, handled, sent))
    && end.bucket == Remaining(e.b, handled, failed, e.clock(handled))
    && Fits(e.b, sent) && end.wire == e.start.wire + Wired(e.b, sent, |sent|, e.stamps)
  }

  lemma CycleSums(e: Env, sent: seq<seq<Key>>, failed: bool, points: seq<Point>, handled: nat)
    requires Sorted(e.b) && AllCommit(e) && Cycle(e, sent, failed, points)
    requires |sent| <= ROUNDS && |sent| == handled + if failed then 1 else 0
    ensures Summary(e, handled, failed, sent, points[|sent|])
  {
    CycleEffect(e, sent, failed, points, handled);
    CycleFits(e, sent, failed, points);
    CycleWire(e, sent, failed, points, |sent|);
  }

  lemma CycleSumsUp(e: Env, sent: seq<seq<Key>>, failed: bool, points: seq<Point>, handled: nat)
    requires Sorted(e.b) && Cycle(e, sent, failed, points) && |sent| <= ROUNDS
    requires |sent| == handled + if failed then 1 else 0
    ensures AllCommit(e) ==> Summary(e, handled, failed, sent, points[|sent|])
  {
    if AllCommit(e) {
      CycleSums(e, sent, failed, points, handled);
    }
  }

  // ---- Cleanup's notion of deliverable is the cycle's ----

  /** The records sent in the first n rounds. */
  ghost function SentRecords(b: seq<Record>, sent: seq<seq<Key>>, n: nat): set<Record>
    requires n <= |sent|
  {
    set r | r in b && exists i: nat :: i < n && r.key in Elements(sent[i])
  }

  lemma LiveInWindow(b: seq<Record>, i: nat, now: int, x: Key) returns (n: nat)
    requires x in KeySet(Unexpired(Window(b, i), now))
    ensures Start(b, i) <= n < Start(b, i + 1) && b[n].key == x && !Expired(b[n].value, now)
  {
    KeepElements(Window(b, i), LiveAt(now));
    var q :| q in Unexpired(Window(b, i), now) && q.key == x;
    var p :| 0 <= p < |Window(b, i)| && Window(b, i)[p] == q;
    n := Start(b, i) + p;
  }

  lemma OneRecordPerKey(b: seq<Record>, n: nat, r: Record)
    requires Sorted(b) && n < |b| && r in b && b[n].key == r.key
    ensures b[n] == r
  {
    var m :| 0 <= m < |b| && b[m] == r;
    LessIsStrictTotal(b[m].key, b[n].key);
  }

  lemma SentIsDeliverable(b: seq<Record>, clock: nat -> int, i: nat, sent: seq<Key>, r: Record)
    requires Sorted(b) && i < ROUNDS && SentInRound(b, i, clock(i), sent) && r in b && r.key in Elements(sent)
    ensures r in Deliverable(b, clock)
  {
    var n := LiveInWindow(b, i, clock(i), r.key);
    OneRecordPerKey(b, n, r);
    assert n / ROUND == i;
  }

  lemma DeliverableIsSent(b: seq<Record>, clock: nat -> int, n: nat, sent: seq<Key>)
    requires n < |b| && !Expired(b[n].value, clock(n / ROUND)) && SentInRound(b, n / ROUND, clock(n / ROUND), sent)
    ensures b[n].key in Elements(sent)
  {
    var i := n / ROUND;
    KeepElements(Window(b, i), LiveAt(clock(i)));
    assert Window(b, i)[n - Start(b, i)] == b[n];
  }

  /** A cycle that runs its course sends exactly what was deliverable from its bucket. */
  lemma CycleSendsDeliverable(b: seq<Record>, clock: nat -> int, requestable: bool, nets: nat -> Network,
                              handled: nat, sent: seq<seq<Key>>)
    requires Sorted(b) && Handled(b, clock, requestable, nets, handled, sent)
    requires handled == ROUNDS || Start(b, handled) == |b|
    ensures SentRecords(b, sent, handled) == Deliverable(b, clock)
  {
    forall r | r in SentRecords(b, sent, handled) ensures r in Deliverable(b, clock) {
      var i: nat :| i < handled && r.key in Elements(sent[i]);
      SentIsDeliverable(b, clock, i, sent[i], r);
    }
    forall r | r in Deliverable(b, clock) ensures r in SentRecords(b, sent, handled) {
      var n :| 0 <= n < Min(|b|, ROUND * ROUNDS) && !Expired(b[n].value, clock(n / ROUND)) && b[n] == r;
      var i: nat := n / ROUND;
      assert i < handled;
      DeliverableIsSent(b, clock, n, sent[i]);
    }
  }
}
