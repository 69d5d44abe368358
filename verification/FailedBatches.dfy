/** What storing a failed batch leaves in the bucket, message by message, under repeating keys. */
module FailedBatches {
  import opened Wrappers
  import opened Keys
  import opened Storage
  import opened Messages

  /** For the i-th message of a batch: the key and timestamp it is stored under, and whether that commits. */
  datatype Stamps = Stamps(key: nat -> Key, now: nat -> int, commits: nat -> bool)

  /** The bucket once the first n messages of a failed batch have been dealt with. */
  function StoreAll(codec: Codec, b: seq<Record>, batch: seq<Message>, stamps: Stamps, n: nat): seq<Record>
    requires n <= |batch|
  {
    if n == 0 then b else
    var before := StoreAll(codec, b, batch, stamps, n - 1);
    match RecordOf(codec, batch[n - 1], stamps.now(n - 1))
    case Some(v) => if stamps.commits(n - 1) then Put(before, stamps.key(n - 1), v) else before
    case None => before
  }

  /** The i-th message gets stored: it is encodable and its transaction commits. */
  predicate Stores(codec: Codec, batch: seq<Message>, stamps: Stamps, i: int) {
    0 <= i < |batch| && DataAsString(codec, batch[i].data).Some? && stamps.commits(i)
  }

  /** The i-th message is stored, under key k. */
  predicate Writes(codec: Codec, batch: seq<Message>, stamps: Stamps, k: Key, i: int) {
    Stores(codec, batch, stamps, i) && stamps.key(i) == k
  }

  /** The last of the first n messages to be stored under k. */
  function LastWrite(codec: Codec, batch: seq<Message>, stamps: Stamps, k: Key, n: nat): (last: Option<nat>)
    requires n <= |batch|
    ensures last.Some? ==> last.value < n && Writes(codec, batch, stamps, k, last.value)
    ensures forall j :: (if last.Some? then last.value + 1 else 0) <= j < n ==> !Writes(codec, batch, stamps, k, j)
  {
    if n == 0 then None
    else if Writes(codec, batch, stamps, k, n - 1) then Some(n - 1)
    else LastWrite(codec, batch, stamps, k, n - 1)
  }

  lemma {:induction false} StoreAllSorted(codec: Codec, b: seq<Record>, batch: seq<Message>, stamps: Stamps, n: nat)
    requires n <= |batch| && Sorted(b)
    ensures Sorted(StoreAll(codec, b, batch, stamps, n))
  {
    if n > 0 {
      StoreAllSorted(codec, b, batch, stamps, n - 1);
      match RecordOf(codec, batch[n - 1], stamps.now(n - 1))
      case Some(v) => PutSorted(StoreAll(codec, b, batch, stamps, n - 1), stamps.key(n - 1), v);
      case None =>
    }
  }

  /** One more message updates the map at its key, if it gets stored. */
  lemma StoreOneMore(codec: Codec, b: seq<Record>, batch: seq<Message>, stamps: Stamps, n: nat)
    requires 0 < n <= |batch| && Sorted(b)
    ensures var before := Contents(StoreAll(codec, b, batch, stamps, n - 1));
      var record := RecordOf(codec, batch[n - 1], stamps.now(n - 1));
      Contents(StoreAll(codec, b, batch, stamps, n)) ==
        if record.Some? && stamps.commits(n - 1) then before[stamps.key(n - 1) := record.value] else before
  {
    StoreAllSorted(codec, b, batch, stamps, n - 1);
    match RecordOf(codec, batch[n - 1], stamps.now(n - 1))
    case Some(v) => PutIsUpdate(StoreAll(codec, b, batch, stamps, n - 1), stamps.key(n - 1), v);
    case None =>
  }

  /** One more message leaves its record at its key, if it gets stored, and every other key alone. */
  lemma OneMoreAt(codec: Codec, b: seq<Record>, batch: seq<Message>, stamps: Stamps, n: nat, k: Key)
    requires 0 < n <= |batch| && Sorted(b)
    ensures var before := Contents(StoreAll(codec, b, batch, stamps, n - 1));
      var after := Contents(StoreAll(codec, b, batch, stamps, n));
      if Writes(codec, batch, stamps, k, n - 1)
      then k in after && Some(after[k]) == RecordOf(codec, batch[n - 1], stamps.now(n - 1))
      else (k in after <==> k in before) && (k in after ==> after[k] == before[k])
  {
    StoreOneMore(codec, b, batch, stamps, n);
  }

  /** Each key ends up with the last message stored under it; other keys are untouched. */
  lemma {:induction false} Survivors(codec: Codec, b: seq<Record>, batch: seq<Message>, stamps: Stamps, n: nat, k: Key)
    requires n <= |batch| && Sorted(b)
    ensures var after := Contents(StoreAll(codec, b, batch, stamps, n));
      var last := LastWrite(codec, batch, stamps, k, n);
      && (last.Some? ==> k in after && Some(after[k]) == RecordOf(codec, batch[last.value], stamps.now(last.value)))
      && (last.None? ==> (k in after <==> k in Contents(b)) && (k in after ==> after[k] == Contents(b)[k]))
  {
    if n > 0 {
      Survivors(codec, b, batch, stamps, n - 1, k);
      OneMoreAt(codec, b, batch, stamps, n, k);
    }
  }

  /** Those of the first n messages that get stored, by index, and the keys they are stored under. */
  function Storable(codec: Codec, batch: seq<Message>, stamps: Stamps, n: nat): set<nat>
    requires n <= |batch|
  {
    set i: nat | i < n && Stores(codec, batch, stamps, i)
  }

  function KeysWritten(codec: Codec, batch: seq<Message>, stamps: Stamps, n: nat): set<Key>
    requires n <= |batch|
  {
    set i | i in Storable(codec, batch, stamps, n) :: stamps.key(i)
  }

  ghost predicate DistinctStamps(codec: Codec, batch: seq<Message>, stamps: Stamps, n: nat)
    requires n <= |batch|
  {
    var s := Storable(codec, batch, stamps, n);
    forall i, j :: i in s && j in s && i < j ==> stamps.key(i) != stamps.key(j)
  }

  lemma Skipped(codec: Codec, batch: seq<Message>, stamps: Stamps, n: nat)
    requires n < |batch| && !Stores(codec, batch, stamps, n)
    ensures Storable(codec, batch, stamps, n + 1) == Storable(codec, batch, stamps, n)
    ensures KeysWritten(codec, batch, stamps, n + 1) == KeysWritten(codec, batch, stamps, n)
    ensures DistinctStamps(codec, batch, stamps, n + 1) == DistinctStamps(codec, batch, stamps, n)
  {
    assert Storable(codec, batch, stamps, n + 1) == Storable(codec, batch, stamps, n);
  }

  lemma Added(codec: Codec, batch: seq<Message>, stamps: Stamps, n: nat)
    requires n < |batch| && Stores(codec, batch, stamps, n)
    ensures Storable(codec, batch, stamps, n + 1) == Storable(codec, batch, stamps, n) + {n}
    ensures KeysWritten(codec, batch, stamps, n + 1) == KeysWritten(codec, batch, stamps, n) + {stamps.key(n)}
  {
    assert Storable(codec, batch, stamps, n + 1) == Storable(codec, batch, stamps, n) + {n};
  }

  lemma AddedDistinct(codec: Codec, batch: seq<Message>, stamps: Stamps, n: nat)
    requires n < |batch| && Stores(codec, batch, stamps, n)
    ensures DistinctStamps(codec, batch, stamps, n + 1)
       <==> DistinctStamps(codec, batch, stamps, n) && stamps.key(n) !in KeysWritten(codec, batch, stamps, n)
  {
    var s, t := Storable(codec, batch, stamps, n), Storable(codec, batch, stamps, n + 1);
    Added(codec, batch, stamps, n);
    if stamps.key(n) in KeysWritten(codec, batch, stamps, n) {
      var i :| i in s && stamps.key(i) == stamps.key(n);
      assert i in t && n in t;
    }
  }

  lemma OneMoreEach(keys: set<Key>, key: Key, indices: set<nat>, i: nat)
    requires i !in indices && |keys| <= |indices|
    ensures |keys + {key}| <= |indices + {i}|
    ensures |keys + {key}| == |indices + {i}| <==> |keys| == |indices| && key !in keys
  {
    assert key in keys ==> keys + {key} == keys;
  }

  ghost predicate KeyPerMessage(codec: Codec, batch: seq<Message>, stamps: Stamps, n: nat)
    requires n <= |batch|
  {
    var keys, stored := KeysWritten(codec, batch, stamps, n), Storable(codec, batch, stamps, n);
    |keys| <= |stored| && (|keys| == |stored| <==> DistinctStamps(codec, batch, stamps, n))
  }

  lemma KeyPerMessageAdded(codec: Codec, batch: seq<Message>, stamps: Stamps, n: nat)
    requires n < |batch| && Stores(codec, batch, stamps, n) && KeyPerMessage(codec, batch, stamps, n)
    ensures KeyPerMessage(codec, batch, stamps, n + 1)
  {
    var keys, stored := KeysWritten(codec, batch, stamps, n), Storable(codec, batch, stamps, n);
    Added(codec, batch, stamps, n);
    AddedDistinct(codec, batch, stamps, n);
    OneMoreEach(keys, stamps.key(n), stored, n);
  }

  /** There are as many keys written as messages stored exactly when the keys are distinct. */
  lemma {:induction false} OneKeyEach(codec: Codec, batch: seq<Message>, stamps: Stamps, n: nat)
    requires n <= |batch|
    ensures KeyPerMessage(codec, batch, stamps, n)
  {
    if n == 0 {
      NoneWritten(codec, batch, stamps);
    } else {
      OneKeyEach(codec, batch, stamps, n - 1);
      if Stores(codec, batch, stamps, n - 1) {
        KeyPerMessageAdded(codec, batch, stamps, n - 1);
      } else {
        Skipped(codec, batch, stamps, n - 1);
      }
    }
  }

  lemma NoneWritten(codec: Codec, batch: seq<Message>, stamps: Stamps)
    ensures Storable(codec, batch, stamps, 0) == {} && KeysWritten(codec, batch, stamps, 0) == {}
  {
    assert Storable(codec, batch, stamps, 0) == {};
  }

  lemma KeyAdded(codec: Codec, b: seq<Record>, batch: seq<Message>, stamps: Stamps, n: nat)
    requires n < |batch| && Stores(codec, batch, stamps, n)
    ensures KeySet(StoreAll(codec, b, batch, stamps, n + 1)) ==
      KeySet(StoreAll(codec, b, batch, stamps, n)) + {stamps.key(n)}
  {
    var v := RecordOf(codec, batch[n], stamps.now(n)).value;
    PutKeys(StoreAll(codec, b, batch, stamps, n), stamps.key(n), v);
  }

  /** The bucket's keys afterwards are those it had and those written. */
  lemma {:induction false} WrittenKeys(codec: Codec, b: seq<Record>, batch: seq<Message>, stamps: Stamps, n: nat)
    requires n <= |batch|
    ensures KeySet(StoreAll(codec, b, batch, stamps, n)) == KeySet(b) + KeysWritten(codec, batch, stamps, n)
  {
    if n == 0 {
      NoneWritten(codec, batch, stamps);
    } else {
      WrittenKeys(codec, b, batch, stamps, n - 1);
      if Stores(codec, batch, stamps, n - 1) {
        KeyAdded(codec, b, batch, stamps, n - 1);
        Added(codec, batch, stamps, n - 1);
        UnionsGrow(KeySet(b), KeysWritten(codec, batch, stamps, n - 1), {stamps.key(n - 1)});
      } else {
        Skipped(codec, batch, stamps, n - 1);
      }
    }
  }

  lemma UnionsGrow<T>(a: set<T>, b: set<T>, c: set<T>)
    ensures a + b + c == a + (b + c)
  {
  }

  /** Every stored message is the last one stored under its key exactly when no two share a key. */
  lemma LastUnlessShared(codec: Codec, batch: seq<Message>, stamps: Stamps)
    ensures (forall i :: i in Storable(codec, batch, stamps, |batch|) ==>
               LastWrite(codec, batch, stamps, stamps.key(i), |batch|) == Some(i))
       <==> DistinctStamps(codec, batch, stamps, |batch|)
  {
    var s := Storable(codec, batch, stamps, |batch|);
    forall i | i in s ensures Writes(codec, batch, stamps, stamps.key(i), i) { }
    if DistinctStamps(codec, batch, stamps, |batch|) {
      forall i | i in s ensures LastWrite(codec, batch, stamps, stamps.key(i), |batch|) == Some(i) {
        var last := LastWrite(codec, batch, stamps, stamps.key(i), |batch|);
        assert last.value in s;
      }
    } else {
      var i, j :| i in s && j in s && i < j && stamps.key(i) == stamps.key(j);
      assert Writes(codec, batch, stamps, stamps.key(i), j);
    }
  }

  lemma UnionSize<T>(a: set<T>, b: set<T>)
    ensures |a + b| <= |a| + |b|
    ensures |a + b| == |a| + |b| <==> a !! b
  {
    assert |a + b| + |a * b| == |a| + |b|;
  }

  /** The bucket grows by one record per stored message exactly when all their keys are new and distinct. */
  lemma GrowsByOneEach(codec: Codec, b: seq<Record>, batch: seq<Message>, stamps: Stamps)
    requires Sorted(b)
    ensures |StoreAll(codec, b, batch, stamps, |batch|)| == |b| + |Storable(codec, batch, stamps, |batch|)|
       <==> DistinctStamps(codec, batch, stamps, |batch|) && KeysWritten(codec, batch, stamps, |batch|) !! KeySet(b)
  {
    var written := KeysWritten(codec, batch, stamps, |batch|);
    StoreAllSorted(codec, b, batch, stamps, |batch|);
    DistinctKeys(StoreAll(codec, b, batch, stamps, |batch|));
    DistinctKeys(b);
    WrittenKeys(codec, b, batch, stamps, |batch|);
    OneKeyEach(codec, batch, stamps, |batch|);
    UnionSize(KeySet(b), written);
  }

  /** The bucket holds, under its own key, the record of every message that was stored. */
  ghost predicate HoldsAll(codec: Codec, after: seq<Record>, batch: seq<Message>, stamps: Stamps) {
    forall i :: i in Storable(codec, batch, stamps, |batch|) ==>
      && stamps.key(i) in Contents(after)
      && Some(Contents(after)[stamps.key(i)]) == RecordOf(codec, batch[i], stamps.now(i))
  }

  /**
   A failed batch survives whole, each stored message's record being the one its key ends up
   with, if and only if the keys are pairwise distinct; and other keys keep what they held.
   */
  lemma SurvivesWholeIff(codec: Codec, b: seq<Record>, batch: seq<Message>, stamps: Stamps)
    requires Sorted(b)
    ensures var after := StoreAll(codec, b, batch, stamps, |batch|);
      var distinct := DistinctStamps(codec, batch, stamps, |batch|);
      && (distinct <==> forall i :: i in Storable(codec, batch, stamps, |batch|) ==>
                          LastWrite(codec, batch, stamps, stamps.key(i), |batch|) == Some(i))
      && (distinct ==> HoldsAll(codec, after, batch, stamps))
      && (distinct && KeysWritten(codec, batch, stamps, |batch|) !! KeySet(b)
          <==> |after| == |b| + |Storable(codec, batch, stamps, |batch|)|)
    ensures forall k :: k in Contents(b) && k !in KeysWritten(codec, batch, stamps, |batch|) ==>
      var after := Contents(StoreAll(codec, b, batch, stamps, |batch|)); k in after && after[k] == Contents(b)[k]
  {
    LastUnlessShared(codec, batch, stamps);
    GrowsByOneEach(codec, b, batch, stamps);
    forall i | i in Storable(codec, batch, stamps, |batch|) && DistinctStamps(codec, batch, stamps, |batch|)
      ensures var after := Contents(StoreAll(codec, b, batch, stamps, |batch|));
        stamps.key(i) in after && Some(after[stamps.key(i)]) == RecordOf(codec, batch[i], stamps.now(i))
    {
      Survivors(codec, b, batch, stamps, |batch|, stamps.key(i));
    }
    forall k | k in Contents(b) && k !in KeysWritten(codec, batch, stamps, |batch|)
      ensures var after := Contents(StoreAll(codec, b, batch, stamps, |batch|));
        k in after && after[k] == Contents(b)[k]
    {
      Survivors(codec, b, batch, stamps, |batch|, k);
      NeverWritten(codec, batch, stamps, k);
    }
  }

  lemma NeverWritten(codec: Codec, batch: seq<Message>, stamps: Stamps, k: Key)
    requires k !in KeysWritten(codec, batch, stamps, |batch|)
    ensures LastWrite(codec, batch, stamps, k, |batch|) == None
  {
    forall i | 0 <= i < |batch| ensures !Writes(codec, batch, stamps, k, i) {
      assert Stores(codec, batch, stamps, i) ==> i in Storable(codec, batch, stamps, |batch|);
    }
  }

  /** The i-th message of the batch is stored under k: it can be encoded, and its transaction commits. */
  ghost predicate StoredUnder(codec: Codec, batch: seq<Message>, stamps: Stamps, k: Key, i: nat)
    requires i < |batch|
  {
    stamps.key(i) == k && stamps.commits(i) && (batch[i].data.Null? || codec.marshal(batch[i].data).Some?)
  }

  /** And none of the messages after the i-th is. */
  ghost predicate LastUnder(codec: Codec, batch: seq<Message>, stamps: Stamps, k: Key, i: nat)
    requires i < |batch|
  {
    && StoredUnder(codec, batch, stamps, k, i)
    && forall j: nat :: i < j < |batch| ==> !StoredUnder(codec, batch, stamps, k, j)
  }

  /** Under k the bucket keeps the last message stored there, or else what it held. */
  ghost predicate KeepsLast(codec: Codec, b: seq<Record>, batch: seq<Message>, stamps: Stamps, k: Key,
                            after: seq<Record>) {
    && (forall i: nat :: i < |batch| && LastUnder(codec, batch, stamps, k, i) ==>
          k in Contents(after) && Keeps(codec, Contents(after)[k], batch[i], stamps.now(i)))
    && ((forall i: nat :: i < |batch| ==> !StoredUnder(codec, batch, stamps, k, i)) ==>
          && (k in Contents(after) <==> k in Contents(b))
          && (k in Contents(b) ==> Contents(after)[k] == Contents(b)[k]))
  }

  lemma StoredIsWritten(codec: Codec, batch: seq<Message>, stamps: Stamps, k: Key, i: nat)
    requires i < |batch|
    ensures StoredUnder(codec, batch, stamps, k, i) <==> Writes(codec, batch, stamps, k, i)
  {
  }

  lemma LastIsWritten(codec: Codec, batch: seq<Message>, stamps: Stamps, k: Key, i: nat)
    requires i < |batch| && LastUnder(codec, batch, stamps, k, i)
    ensures LastWrite(codec, batch, stamps, k, |batch|) == Some(i)
  {
    var last := LastWrite(codec, batch, stamps, k, |batch|);
    StoredIsWritten(codec, batch, stamps, k, i);
    if last.Some? {
      StoredIsWritten(codec, batch, stamps, k, last.value);
    }
  }

  lemma NoneIsWritten(codec: Codec, batch: seq<Message>, stamps: Stamps, k: Key)
    requires forall i: nat :: i < |batch| ==> !StoredUnder(codec, batch, stamps, k, i)
    ensures LastWrite(codec, batch, stamps, k, |batch|) == None
  {
    var last := LastWrite(codec, batch, stamps, k, |batch|);
    if last.Some? {
      StoredIsWritten(codec, batch, stamps, k, last.value);
    }
  }

  /** That is so for every key, whichever messages are encodable and whichever transactions commit. */
  lemma StoredBatch(codec: Codec, b: seq<Record>, batch: seq<Message>, stamps: Stamps, k: Key)
    requires Sorted(b)
    ensures KeepsLast(codec, b, batch, stamps, k, StoreAll(codec, b, batch, stamps, |batch|))
  {
    var after := StoreAll(codec, b, batch, stamps, |batch|);
    Survivors(codec, b, batch, stamps, |batch|, k);
    forall i: nat | i < |batch| && LastUnder(codec, batch, stamps, k, i)
      ensures k in Contents(after) && Keeps(codec, Contents(after)[k], batch[i], stamps.now(i))
    {
      LastIsWritten(codec, batch, stamps, k, i);
      RecordKeeps(codec, batch[i], stamps.now(i));
    }
    if forall i: nat :: i < |batch| ==> !StoredUnder(codec, batch, stamps, k, i) {
      NoneIsWritten(codec, batch, stamps, k);
    }
  }

  // ---- One-second keys ----

  const NANOS := 1_000_000_000

  /** Keys made from clock readings in nanoseconds by a format that shows whole seconds. */
  ghost predicate SecondKeys(stamps: Stamps, clock: nat -> int, format: int -> Key) {
    forall i: nat :: stamps.key(i) == format(clock(i) / NANOS)
  }

  /** Stored under one-second keys, a batch leaves at most one record per second it took. */
  lemma AtMostOnePerSecond(codec: Codec, batch: seq<Message>, stamps: Stamps, clock: nat -> int, format: int -> Key)
    requires SecondKeys(stamps, clock, format) && batch != []
    requires forall i: nat, j: nat :: i <= j < |batch| ==> clock(i) <= clock(j)
    ensures |KeysWritten(codec, batch, stamps, |batch|)| <= clock(|batch| - 1) / NANOS - clock(0) / NANOS + 1
  {
    var lo, hi := clock(0) / NANOS, clock(|batch| - 1) / NANOS;
    var seconds := set t | lo <= t < hi + 1 :: format(t);
    forall k | k in KeysWritten(codec, batch, stamps, |batch|) ensures k in seconds {
      var i :| i in Storable(codec, batch, stamps, |batch|) && stamps.key(i) == k;
      assert clock(0) <= clock(i) <= clock(|batch| - 1);
      assert stamps.key(i) == format(clock(i) / NANOS);
    }
    FormatsSize(lo, hi + 1, format);
    SubsetSize(KeysWritten(codec, batch, stamps, |batch|), seconds);
  }

  lemma {:induction false} FormatsSize(lo: int, hi: int, format: int -> Key)
    requires lo <= hi
    ensures |set t | lo <= t < hi :: format(t)| <= hi - lo
    decreases hi - lo
  {
    if lo < hi {
      FormatsSize(lo, hi - 1, format);
      assert (set t | lo <= t < hi :: format(t)) == (set t | lo <= t < hi - 1 :: format(t)) + {format(hi - 1)};
    } else {
      assert (set t | lo <= t < hi :: format(t)) == {};
    }
  }
}
