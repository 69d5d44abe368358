/** The persistent message store: one bucket of records in key order, each with a TTL. */
module Storage {
  import opened Wrappers
  import opened Keys

  const TTL := 3600

  predicate PastTtl(timestamp: int, ttl: int, now: int) { now >= timestamp + ttl }

  datatype StoredMessage = StoredMessage(data: string, tags: seq<string>, timestamp: int, ttl: int)

  datatype Record = Record(key: Key, value: StoredMessage)

  predicate Expired(v: StoredMessage, now: int) { PastTtl(v.timestamp, v.ttl, now) }

  ghost predicate Sorted(b: seq<Record>) {
    forall i, j :: 0 <= i < j < |b| ==> Less(b[i].key, b[j].key)
  }

  /** What the bucket holds, as a map. */
  function Contents(b: seq<Record>): map<Key, StoredMessage> {
    if b == [] then map[] else map[b[0].key := b[0].value] + Contents(b[1..])
  }

  function KeySet(b: seq<Record>): set<Key> { set r | r in b :: r.key }

  function Put(b: seq<Record>, key: Key, v: StoredMessage): seq<Record> {
    if b == [] || Less(key, b[0].key) then [Record(key, v)] + b
    else if key == b[0].key then [Record(key, v)] + b[1..]
    else [b[0]] + Put(b[1..], key, v)
  }

  function Keep(b: seq<Record>, keep: Record -> bool): seq<Record> {
    if b == [] then [] else (if keep(b[0]) then [b[0]] else []) + Keep(b[1..], keep)
  }

  function NotIn(ids: set<Key>): Record -> bool { (r: Record) => r.key !in ids }

  function LiveAt(now: int): Record -> bool { (r: Record) => !Expired(r.value, now) }

  function Without(b: seq<Record>, ids: set<Key>): seq<Record> { Keep(b, NotIn(ids)) }

  function Unexpired(b: seq<Record>, now: int): seq<Record> { Keep(b, LiveAt(now)) }

  // ---- The bucket as a map ----

  lemma {:induction false} ContentsKeys(b: seq<Record>)
    ensures Contents(b).Keys == KeySet(b)
  {
    if b != [] {
      ContentsKeys(b[1..]);
      assert b == [b[0]] + b[1..];
    }
  }

  lemma {:induction false} ContentsAt(b: seq<Record>, i: nat)
    requires Sorted(b) && i < |b|
    ensures b[i].key in Contents(b) && Contents(b)[b[i].key] == b[i].value
  {
    ContentsKeys(b[1..]);
    if i > 0 {
      ContentsAt(b[1..], i - 1);
    } else {
      forall r | r in b[1..] ensures r.key != b[0].key {
        LessIsStrictTotal(b[0].key, r.key);
      }
    }
  }

  /** The first key of a bucket occurs only once, and is below all others. */
  lemma HeadIsLeast(b: seq<Record>)
    requires Sorted(b) && b != []
    ensures forall k :: k in KeySet(b[1..]) ==> k != b[0].key && Less(b[0].key, k)
    ensures b[0].key !in Contents(b[1..])
  {
    ContentsKeys(b[1..]);
    forall r | r in b[1..] ensures r.key != b[0].key && Less(b[0].key, r.key) {
      LessIsStrictTotal(b[0].key, r.key);
    }
  }

  lemma KeySetCons(r: Record, b: seq<Record>)
    ensures KeySet([r] + b) == {r.key} + KeySet(b)
  {
    assert r in [r] + b;
    forall x | x in b ensures x in [r] + b { }
  }

  lemma {:induction false} PutKeys(b: seq<Record>, key: Key, v: StoredMessage)
    ensures KeySet(Put(b, key, v)) == KeySet(b) + {key}
  {
    var r := Record(key, v);
    if b == [] || Less(key, b[0].key) {
      KeySetCons(r, b);
    } else {
      KeySetCons(b[0], b[1..]);
      assert b == [b[0]] + b[1..];
      if key == b[0].key {
        KeySetCons(r, b[1..]);
      } else {
        PutKeys(b[1..], key, v);
        KeySetCons(b[0], Put(b[1..], key, v));
      }
    }
  }

  lemma {:induction false} PutSorted(b: seq<Record>, key: Key, v: StoredMessage)
    requires Sorted(b)
    ensures Sorted(Put(b, key, v))
  {
    if b == [] {
    } else if Less(key, b[0].key) {
      forall j | 0 <= j < |b| ensures Less(key, b[j].key) {
        if j > 0 { LessIsTransitive(key, b[0].key, b[j].key); }
      }
    } else if key != b[0].key {
      PutSorted(b[1..], key, v);
      PutKeys(b[1..], key, v);
      LessIsStrictTotal(key, b[0].key);
      HeadIsLeast(b);
      var rest := Put(b[1..], key, v);
      forall j | 0 <= j < |rest| ensures Less(b[0].key, rest[j].key) {
        assert rest[j] in rest && rest[j].key in KeySet(rest);
      }
    }
  }

  lemma ContentsCons(r: Record, b: seq<Record>)
    ensures Contents([r] + b) == map[r.key := r.value] + Contents(b)
  {
    assert ([r] + b)[1..] == b;
  }

  lemma PutInFront(b: seq<Record>, key: Key, v: StoredMessage)
    requires key !in Contents(b)
    ensures Contents([Record(key, v)] + b) == Contents(b)[key := v]
  {
    ContentsCons(Record(key, v), b);
  }

  /** Storing a record updates the map at its key and nowhere else. */
  lemma {:induction false} PutIsUpdate(b: seq<Record>, key: Key, v: StoredMessage)
    requires Sorted(b)
    ensures Contents(Put(b, key, v)) == Contents(b)[key := v]
  {
    if b == [] {
    } else if Less(key, b[0].key) {
      PutSorted(b, key, v);
      HeadIsLeast(Put(b, key, v));
      assert Put(b, key, v)[1..] == b;
      PutInFront(b, key, v);
    } else if key == b[0].key {
      HeadIsLeast(b);
      PutInFront(b[1..], key, v);
    } else {
      PutIsUpdate(b[1..], key, v);
      ContentsCons(b[0], Put(b[1..], key, v));
      UpdateUnder(b[0].key, b[0].value, Contents(b[1..]), key, v);
    }
  }

  lemma UpdateUnder(k: Key, w: StoredMessage, m: map<Key, StoredMessage>, key: Key, v: StoredMessage)
    requires k != key
    ensures map[k := w] + m[key := v] == (map[k := w] + m)[key := v]
  {
  }

  // ---- Filters ----

  lemma {:induction false} KeepElements(b: seq<Record>, keep: Record -> bool)
    ensures forall r :: r in Keep(b, keep) <==> r in b && keep(r)
    ensures |Keep(b, keep)| <= |b|
  {
    if b != [] {
      KeepElements(b[1..], keep);
      assert b == [b[0]] + b[1..];
    }
  }

  lemma {:induction false} KeepConcat(a: seq<Record>, b: seq<Record>, keep: Record -> bool)
    ensures Keep(a + b, keep) == Keep(a, keep) + Keep(b, keep)
  {
    if a == [] {
      assert a + b == b;
    } else {
      KeepConcat(a[1..], b, keep);
      assert (a + b)[1..] == a[1..] + b;
      Regroup(if keep(a[0]) then [a[0]] else [], Keep(a[1..], keep), Keep(b, keep));
    }
  }

  lemma {:induction false} KeepSorted(b: seq<Record>, keep: Record -> bool)
    requires Sorted(b)
    ensures Sorted(Keep(b, keep))
  {
    if b != [] {
      KeepSorted(b[1..], keep);
      KeepElements(b[1..], keep);
      var rest := Keep(b[1..], keep);
      forall j | 0 <= j < |rest| ensures Less(b[0].key, rest[j].key) {
        assert rest[j] in b[1..];
      }
    }
  }

  lemma {:induction false} KeepAll(b: seq<Record>, keep: Record -> bool)
    ensures (forall r :: r in b ==> keep(r)) ==> Keep(b, keep) == b
    ensures (forall r :: r in b ==> !keep(r)) ==> Keep(b, keep) == []
  {
    if b != [] {
      assert b[0] in b;
      KeepAll(b[1..], keep);
    }
  }

  lemma {:induction false} KeepTwice(b: seq<Record>, p: Record -> bool, q: Record -> bool, both: Record -> bool)
    requires forall r :: r in b ==> both(r) == (p(r) && q(r))
    ensures Keep(Keep(b, p), q) == Keep(b, both)
  {
    if b != [] {
      assert b[0] in b;
      KeepTwice(b[1..], p, q, both);
      KeepConcat(if p(b[0]) then [b[0]] else [], Keep(b[1..], p), q);
    }
  }

  lemma WithoutMore(b: seq<Record>, ids: set<Key>, id: Key)
    ensures Without(Without(b, ids), {id}) == Without(b, ids + {id})
  {
    KeepTwice(b, NotIn(ids), NotIn({id}), NotIn(ids + {id}));
  }

  lemma DeleteNext(b: seq<Record>, ids: seq<Key>, i: nat)
    requires i < |ids|
    ensures Without(Without(b, Elements(ids[..i])), {ids[i]}) == Without(b, Elements(ids[..i + 1]))
  {
    WithoutMore(b, Elements(ids[..i]), ids[i]);
    assert ids[..i + 1] == ids[..i] + [ids[i]];
    assert Elements(ids[..i + 1]) == Elements(ids[..i]) + {ids[i]};
  }

  lemma {:induction false} LookupWithout(b: seq<Record>, ids: set<Key>, k: Key)
    requires Sorted(b)
    ensures k in Contents(Without(b, ids)) <==> k in Contents(b) && k !in ids
    ensures k in Contents(Without(b, ids)) ==> Contents(Without(b, ids))[k] == Contents(b)[k]
  {
    if b != [] {
      LookupWithout(b[1..], ids, k);
      HeadIsLeast(b);
      if b[0].key in ids {
        assert Without(b, ids) == Without(b[1..], ids);
      } else {
        ContentsCons(b[0], Without(b[1..], ids));
      }
    }
  }

  /** Deleting keys removes exactly those map entries. */
  lemma WithoutIsDeletion(b: seq<Record>, ids: set<Key>)
    requires Sorted(b)
    ensures Contents(Without(b, ids)) == Contents(b) - ids
  {
    forall k | k in Contents(Without(b, ids)) || k in Contents(b)
      ensures k in Contents(Without(b, ids)) <==> k in Contents(b) - ids
      ensures k in Contents(Without(b, ids)) ==> Contents(Without(b, ids))[k] == (Contents(b) - ids)[k]
    {
      LookupWithout(b, ids, k);
    }
  }

  /** A cleanup leaves exactly the entries whose time to live, counted from their timestamp, has not passed. */
  lemma UnexpiredAsMap(b: seq<Record>, now: int)
    requires Sorted(b)
    ensures Contents(Unexpired(b, now)) ==
      map k | k in Contents(b) && now < Contents(b)[k].timestamp + Contents(b)[k].ttl :: Contents(b)[k]
  {
    KeepElements(b, LiveAt(now));
    KeepSorted(b, LiveAt(now));
    ContentsKeys(b);
    ContentsKeys(Unexpired(b, now));
    forall r | r in b ensures r.key in Contents(b) && Contents(b)[r.key] == r.value { RecordAt(b, r); }
    forall r | r in Unexpired(b, now)
      ensures r.key in Contents(Unexpired(b, now)) && Contents(Unexpired(b, now))[r.key] == r.value
    {
      RecordAt(Unexpired(b, now), r);
    }
    forall k | k in Contents(b)
      ensures k in Contents(Unexpired(b, now)) <==> now < Contents(b)[k].timestamp + Contents(b)[k].ttl
    {
      var r :| r in b && r.key == k;
      if k in Contents(Unexpired(b, now)) {
        var q :| q in Unexpired(b, now) && q.key == k;
      }
    }
  }

  /** A record's map entry is the record. */
  lemma RecordAt(b: seq<Record>, r: Record)
    requires Sorted(b) && r in b
    ensures r.key in Contents(b) && Contents(b)[r.key] == r.value
  {
    var i :| 0 <= i < |b| && b[i] == r;
    ContentsAt(b, i);
  }

  // ---- The store ----

  class Storage {
    var bucket: seq<Record>

    ghost predicate Valid()
      reads this
    {
      Sorted(bucket)
    }

    /** Opens a file: what its bucket holds is kept, and a missing bucket is created empty. */
    constructor (existing: Option<seq<Record>>)
      requires existing.Some? ==> Sorted(existing.value)
      ensures Valid() && bucket == if existing.Some? then existing.value else []
    {
      bucket := if existing.Some? then existing.value else [];
    }

    /** commits says whether the transaction goes through; if not, nothing changes. */
    method Store(id: Key, data: string, tags: seq<string>, ttl: int, now: int, commits: bool) returns (ok: bool)
      requires Valid()
      modifies this
      ensures Valid() && ok == commits
      ensures bucket == if ok then Put(old(bucket), id, StoredMessage(data, tags, now, ttl)) else old(bucket)
    {
      var msg := StoredMessage(data, tags, now, ttl);
      ok := commits;
      if ok {
        PutSorted(bucket, id, msg);
        bucket := Put(bucket, id, msg);
      }
    }

    /** The first limit records in key order. */
    method GetBatch(limit: nat) returns (messages: map<Key, StoredMessage>)
      requires Valid()
      ensures messages == Contents(bucket[..Min(limit, |bucket|)])
      ensures IsFirst(messages.Keys, KeySet(bucket), limit)
    {
      messages := map[];
      var count := 0;
      for i := 0 to |bucket|
        invariant count == Min(limit, i)
        invariant messages == Contents(bucket[..count])
      {
        if count < limit {
          ContentsSnoc(bucket, count);
          messages := messages[bucket[i].key := bucket[i].value];
          count := count + 1;
        }
      }
      PrefixIsFirst(bucket, limit);
    }

    method DeleteBatch(ids: seq<Key>, commits: bool) returns (ok: bool)
      requires Valid()
      modifies this
      ensures Valid() && ok == commits
      ensures bucket == if ok then Without(old(bucket), Elements(ids)) else old(bucket)
    {
      ok := commits;
      if ok {
        KeepSorted(bucket, NotIn(Elements(ids)));
        KeepAll(bucket, NotIn({}));
        var all := bucket;
        var b := all;
        assert Elements(ids[..0]) == {};
        for i := 0 to |ids|
          invariant b == Without(all, Elements(ids[..i]))
        {
          DeleteNext(all, ids, i);
          b := Without(b, {ids[i]});
        }
        assert ids[..|ids|] == ids;
        bucket := b;
      }
    }

    method CleanupExpired(now: int, commits: bool) returns (ok: bool)
      requires Valid()
      modifies this
      ensures Valid() && ok == commits
      ensures bucket == if ok then Unexpired(old(bucket), now) else old(bucket)
    {
      ok := commits;
      if ok {
        var all := bucket;
        var b: seq<Record> := [];
        for i := 0 to |all|
          invariant b == Unexpired(all[..i], now)
        {
          assert all[..i + 1] == all[..i] + [all[i]];
          KeepConcat(all[..i], [all[i]], LiveAt(now));
          if !Expired(all[i].value, now) {
            b := b + [all[i]];
          }
        }
        assert all[..|all|] == all;
        KeepSorted(all, LiveAt(now));
        bucket := b;
      }
    }
  }

  lemma {:induction false} ContentsSnoc(b: seq<Record>, n: nat)
    requires n < |b|
    ensures Contents(b[..n + 1]) == Contents(b[..n])[b[n].key := b[n].value]
    decreases n
  {
    if n > 0 {
      ContentsSnoc(b[1..], n - 1);
      assert b[..n + 1][1..] == b[1..][..n] && b[..n][1..] == b[1..][..n - 1];
    }
  }

  lemma {:induction false} DistinctKeys(b: seq<Record>)
    requires Sorted(b)
    ensures |KeySet(b)| == |b|
  {
    if b != [] {
      DistinctKeys(b[1..]);
      forall r | r in b[1..] ensures r.key != b[0].key { LessIsStrictTotal(b[0].key, r.key); }
      assert b == [b[0]] + b[1..];
      assert KeySet(b) == {b[0].key} + KeySet(b[1..]);
    }
  }

  lemma EarlierIsLess(b: seq<Record>, n: nat, x: Key, y: Key)
    requires Sorted(b) && n <= |b| && x in KeySet(b[..n]) && y in KeySet(b) - KeySet(b[..n])
    ensures Less(x, y)
  {
    var r :| r in b[..n] && r.key == x;
    var i :| 0 <= i < n && b[i] == r;
    var q :| q in b && q.key == y;
    var j :| 0 <= j < |b| && b[j] == q;
    assert forall k :: 0 <= k < n ==> b[k] in b[..n];
  }

  lemma PrefixIsFirst(b: seq<Record>, limit: nat)
    requires Sorted(b)
    ensures IsFirst(Contents(b[..Min(limit, |b|)]).Keys, KeySet(b), limit)
  {
    var n := Min(limit, |b|);
    ContentsKeys(b[..n]);
    DistinctKeys(b);
    DistinctKeys(b[..n]);
    forall x, y | x in KeySet(b[..n]) && y in KeySet(b) - KeySet(b[..n]) ensures Less(x, y) {
      EarlierIsLess(b, n, x, y);
    }
  }

  // ---- Cleanup and delivery ----

  const ROUND: nat := 50
  const ROUNDS: nat := 5

  /** The records one retry cycle can deliver: round i works on the i-th fifty, at the reading clock(i). */
  ghost function Deliverable(b: seq<Record>, clock: nat -> int): set<Record> {
    set i | 0 <= i < Min(|b|, ROUND * ROUNDS) && !Expired(b[i].value, clock(i / ROUND)) :: b[i]
  }

  /** A record kept by a filter moves only towards the front. */
  lemma {:induction false} KeptMovesForward(b: seq<Record>, keep: Record -> bool, i: nat) returns (j: nat)
    requires i < |b| && keep(b[i])
    ensures j <= i && j < |Keep(b, keep)| && Keep(b, keep)[j] == b[i]
  {
    if i == 0 {
      j := 0;
    } else {
      var j' := KeptMovesForward(b[1..], keep, i - 1);
      j := if keep(b[0]) then j' + 1 else j';
    }
  }

  /**
   Whatever the clock does, as long as no reading of the cycle is before the cleanup's: a record
   the cycle could deliver is not removed, and is still among those the cycle fetches.
   */
  lemma CleanupKeepsFetched(b: seq<Record>, t: int, clock: nat -> int, r: Record)
    requires forall i: nat :: t <= clock(i)
    requires r in Deliverable(b, clock)
    ensures r in Unexpired(b, t)[..Min(ROUND * ROUNDS, |Unexpired(b, t)|)]
  {
    var i :| 0 <= i < Min(|b|, ROUND * ROUNDS) && !Expired(b[i].value, clock(i / ROUND)) && b[i] == r;
    assert t <= clock(i / ROUND);
    var j := KeptMovesForward(b, LiveAt(t), i);
    assert Unexpired(b, t)[..Min(ROUND * ROUNDS, |Unexpired(b, t)|)][j] == r;
  }

  /** Where a kept record goes: behind the kept ones that were before it. */
  lemma KeptPosition(b: seq<Record>, keep: Record -> bool, i: nat)
    requires i < |b| && keep(b[i])
    ensures |Keep(b[..i], keep)| < |Keep(b, keep)| && Keep(b, keep)[|Keep(b[..i], keep)|] == b[i]
  {
    assert b == b[..i] + b[i..] && b[i..][0] == b[i];
    KeepConcat(b[..i], b[i..], keep);
  }

  /** A record is in one place, so one reading decides. */
  lemma DeliverableAt(b: seq<Record>, clock: nat -> int, i: nat)
    requires Sorted(b) && i < |b| && i < ROUND * ROUNDS
    ensures b[i] in Deliverable(b, clock) <==> !Expired(b[i].value, clock(i / ROUND))
  {
    forall k | 0 <= k < |b| && b[k] == b[i] ensures k == i {
      LessIsStrictTotal(b[k].key, b[i].key);
    }
    assert 0 <= i < Min(|b|, ROUND * ROUNDS);
  }

  /**
   Whatever the clock does: a record among the first 250 can be delivered after a cleanup if and
   only if the cleanup keeps it and the reading of the round it then falls into does not expire it.
   */
  lemma CleanupCostsIff(b: seq<Record>, t: int, clock: nat -> int, i: nat)
    requires Sorted(b) && i < |b| && i < ROUND * ROUNDS
    ensures var place := |Unexpired(b[..i], t)|;
      b[i] in Deliverable(Unexpired(b, t), clock)
      <==> !Expired(b[i].value, t) && !Expired(b[i].value, clock(place / ROUND))
  {
    var after, place := Unexpired(b, t), |Unexpired(b[..i], t)|;
    KeepElements(b, LiveAt(t));
    KeepElements(b[..i], LiveAt(t));
    KeepSorted(b, LiveAt(t));
    if Expired(b[i].value, t) {
      assert forall r :: r in Deliverable(after, clock) ==> r in after;
    } else {
      KeptPosition(b, LiveAt(t), i);
      DeliverableAt(after, clock, place);
    }
  }

  /** With a clock that never goes back, whatever a cycle could deliver it still can after a cleanup. */
  lemma CleanupCostsNothing(b: seq<Record>, t: int, clock: nat -> int)
    requires forall i: nat, j: nat :: i <= j ==> clock(i) <= clock(j)
    requires t <= clock(0)
    ensures Deliverable(b, clock) <= Deliverable(Unexpired(b, t), clock)
  {
    forall r | r in Deliverable(b, clock) ensures r in Deliverable(Unexpired(b, t), clock) {
      var i :| 0 <= i < Min(|b|, ROUND * ROUNDS) && !Expired(b[i].value, clock(i / ROUND)) && b[i] == r;
      assert clock(0) <= clock(i / ROUND);
      var j := KeptMovesForward(b, LiveAt(t), i);
      assert j / ROUND <= i / ROUND;
      assert clock(j / ROUND) <= clock(i / ROUND);
    }
  }
}
