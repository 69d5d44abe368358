/**
 How the client's messages and bucket show in the pipeline machine. The machine's messages are
 calls to Publish, each with an identity of its own; the client keeps only their text and tags.
 So a machine message is a name for a kind of client message, and several may name one kind.
 */
module Refinement {
  import opened Keys
  import opened Storage
  import opened Messages
  import opened FailedBatches
  import opened Connectivity
  import opened Sending
  import RetryCycle
  import opened Wrappers
  import P = Pipeline
  import opened PipelineRuns

  /** What storing a message keeps of it; no text if it cannot be encoded. */
  datatype Kind = Kind(text: Option<string>, tags: seq<string>)

  /** The kind each machine message is a name for. */
  datatype Naming = Naming(codec: Codec, kind: P.Msg -> Kind)

  ghost predicate Labels(n: Naming) { forall x: P.Msg :: x.encodable <==> n.kind(x).text.Some? }

  function KindOf(codec: Codec, m: Message): Kind { Kind(DataAsString(codec, m.data), TagsOf(m)) }

  function KindStored(v: StoredMessage): Kind { Kind(Some(v.data), v.tags) }

  /** The machine's messages are names for the client's, one by one. */
  ghost predicate Named(n: Naming, names: seq<P.Msg>, messages: seq<Message>) {
    |names| == |messages| && forall i :: 0 <= i < |names| ==> n.kind(names[i]) == KindOf(n.codec, messages[i])
  }

  ghost predicate EntryFor(n: Naming, e: P.Entry, v: StoredMessage) {
    n.kind(e.msg) == KindStored(v) && e.timestamp == v.timestamp && e.ttl == v.ttl
  }

  /** The machine's store shows the bucket. */
  ghost predicate Holds(n: Naming, store: map<Key, P.Entry>, b: seq<Record>) {
    store.Keys == Contents(b).Keys && forall k :: k in store ==> EntryFor(n, store[k], Contents(b)[k])
  }

  predicate Any(step: P.Step) { true }

  lemma NoSteps(s: P.State)
    ensures Reaches(s, s, Any)
  {
    assert P.IsRun(s, []) && P.Exec(s, []) == s;
  }

  lemma NamedConcat(n: Naming, xs: seq<P.Msg>, x: seq<Message>, ys: seq<P.Msg>, y: seq<Message>)
    requires Named(n, xs, x) && Named(n, ys, y)
    ensures Named(n, xs + ys, x + y)
  {
  }

  // ---- The bucket ----

  lemma PutRefines(n: Naming, store: map<Key, P.Entry>, b: seq<Record>, key: Key, e: P.Entry, v: StoredMessage)
    requires Sorted(b) && Holds(n, store, b) && EntryFor(n, e, v)
    ensures Holds(n, store[key := e], Put(b, key, v))
  {
    PutIsUpdate(b, key, v);
  }

  lemma WithoutRefines(n: Naming, store: map<Key, P.Entry>, b: seq<Record>, ids: set<Key>)
    requires Sorted(b) && Holds(n, store, b)
    ensures Holds(n, store - ids, Without(b, ids))
  {
    WithoutIsDeletion(b, ids);
  }

  lemma SweepRefines(n: Naming, store: map<Key, P.Entry>, b: seq<Record>, now: int)
    requires Sorted(b) && Holds(n, store, b)
    ensures Holds(n, store - P.ExpiredKeys(store, now), Unexpired(b, now))
  {
    RetryCycle.DeleteExpired(b, |b|, now);
    assert b[..|b|] == b && Unexpired(b, now) + b[|b|..] == Unexpired(b, now);
    WithoutRefines(n, store, b, RetryCycle.ExpiredKeys(Contents(b), now));
    assert RetryCycle.ExpiredKeys(Contents(b), now) == P.ExpiredKeys(store, now);
  }

  // ---- Storing ----

  /** The machine's store step: a record with the next name, unless it cannot be encoded or the transaction fails. */
  lemma StoreStep(r: P.State, key: Key, now: int, ok: bool) returns (t: P.State)
    requires r.cpc.Storing? && r.cpc.done < |r.batch| && r.cfg.storage
    ensures Reaches(r, t, Any)
    ensures var name := r.batch[r.cpc.done];
      t.store == if ok && name.encodable then r.store[key := P.Entry(name, now, P.TTL)] else r.store
    ensures t == r.(store := t.store, cpc := P.Storing(r.cpc.done + 1, r.cpc.after), lost := t.lost, raced := t.raced)
  {
    t := P.ConApply(r, P.CStore(key, now, ok));
    ReachStep(r, P.Con(P.CStore(key, now, ok)), Any);
  }

  /** One more message stored, or dropped when it cannot be encoded or its transaction fails. */
  lemma OneStored(n: Naming, b: seq<Record>, batch: seq<Message>, stamps: Stamps, r: P.State, i: nat)
    returns (t: P.State)
    requires Labels(n) && Sorted(b) && i < |batch|
    requires r.cpc.Storing? && r.cpc.done == i && r.cfg.storage && Named(n, r.batch, batch)
    requires Holds(n, r.store, StoreAll(n.codec, b, batch, stamps, i))
    ensures Reaches(r, t, Any) && Holds(n, t.store, StoreAll(n.codec, b, batch, stamps, i + 1))
    ensures t == r.(store := t.store, cpc := P.Storing(i + 1, r.cpc.after), lost := t.lost, raced := t.raced)
  {
    t := StoreStep(r, stamps.key(i), stamps.now(i), stamps.commits(i));
    StoreAllSorted(n.codec, b, batch, stamps, i);
    var name := r.batch[i];
    assert n.kind(name) == KindOf(n.codec, batch[i]);
    match RecordOf(n.codec, batch[i], stamps.now(i)) {
      case Some(v) =>
        var e := P.Entry(name, stamps.now(i), P.TTL);
        assert EntryFor(n, e, v);
        PutRefines(n, r.store, StoreAll(n.codec, b, batch, stamps, i), stamps.key(i), e, v);
      case None =>
        assert !name.encodable;
    }
  }

  /** From s, the first i messages of the batch have been stored or dropped. */
  ghost predicate StoredUpTo(n: Naming, b: seq<Record>, batch: seq<Message>, stamps: Stamps, s: P.State, i: nat,
                             t: P.State)
    requires i <= |batch| && s.cpc.Storing?
  {
    && Reaches(s, t, Any) && Holds(n, t.store, StoreAll(n.codec, b, batch, stamps, i))
    && t == s.(store := t.store, cpc := P.Storing(i, s.cpc.after), lost := t.lost, raced := t.raced)
  }

  lemma NoneStored(n: Naming, b: seq<Record>, batch: seq<Message>, stamps: Stamps, s: P.State)
    requires s.cpc.Storing? && s.cpc.done == 0 && Holds(n, s.store, b)
    ensures StoredUpTo(n, b, batch, stamps, s, 0, s)
  {
    NoSteps(s);
  }

  lemma StoreNext(n: Naming, b: seq<Record>, batch: seq<Message>, stamps: Stamps, s: P.State, i: nat, r: P.State)
    returns (t: P.State)
    requires Labels(n) && Sorted(b) && 0 < i <= |batch| && s.cpc.Storing? && s.cfg.storage && Named(n, s.batch, batch)
    requires StoredUpTo(n, b, batch, stamps, s, i - 1, r)
    ensures StoredUpTo(n, b, batch, stamps, s, i, t)
  {
    t := OneStored(n, b, batch, stamps, r, i - 1);
    ReachTrans(s, r, t, Any);
  }

  /** Storing a failed batch, message by message. */
  lemma {:induction false} StoringRefines(n: Naming, b: seq<Record>, batch: seq<Message>, stamps: Stamps,
                                          s: P.State, i: nat) returns (t: P.State)
    requires Labels(n) && Sorted(b) && i <= |batch|
    requires s.cpc.Storing? && s.cpc.done == 0 && s.cfg.storage
    requires Named(n, s.batch, batch) && Holds(n, s.store, b)
    ensures StoredUpTo(n, b, batch, stamps, s, i, t)
  {
    if i == 0 {
      t := s;
      NoneStored(n, b, batch, stamps, s);
    } else {
      var r := StoringRefines(n, b, batch, stamps, s, i - 1);
      t := StoreNext(n, b, batch, stamps, s, i, r);
    }
  }

  // ---- Connectivity ----

  /** What the client believes after further reports. */
  function Believes(up: bool, reports: seq<Change>): bool {
    if reports == [] then up else reports[|reports| - 1].online
  }

  lemma OnlineAfter(trace: seq<Change>, reports: seq<Change>)
    ensures Online(trace + reports) == Believes(Online(trace), reports)
  {
  }

  /** What an attempt that was not accepted makes the client believe. */
  function Heard(up: bool, reply: Reply): bool { up && !reply.NetworkError? }

  function HeardAll(up: bool, replies: nat -> Reply, n: nat): bool {
    if n == 0 then up else Heard(HeardAll(up, replies, n - 1), replies(n - 1))
  }

  /** That is what their reports say. */
  lemma {:induction false} HeardIsReported(up: bool, replies: nat -> Reply, clock: nat -> int, n: nat)
    requires forall a: nat :: a < n ==> !replies(a).Accepted?
    ensures Believes(up, Reports(replies, clock, n)) == HeardAll(up, replies, n)
  {
    if n > 0 {
      HeardIsReported(up, replies, clock, n - 1);
      AllDown(replies, clock, n - 1);
    }
  }

  lemma {:induction false} AllDown(replies: nat -> Reply, clock: nat -> int, n: nat)
    requires forall a: nat :: a < n ==> !replies(a).Accepted?
    ensures forall i :: 0 <= i < |Reports(replies, clock, n)| ==> !Reports(replies, clock, n)[i].online
  {
    if n > 0 {
      AllDown(replies, clock, n - 1);
    }
  }

  /** An accepted last attempt is reported as online, whatever came before. */
  lemma AcceptedIsReported(up: bool, replies: nat -> Reply, clock: nat -> int, n: nat)
    requires n > 0 && replies(n - 1).Accepted?
    ensures Believes(up, Reports(replies, clock, n))
  {
  }

  // ---- Names for everything ----

  /** The kind of the i-th message of a list, and then of the records of a bucket. */
  function KindAt(codec: Codec, messages: seq<Message>, b: seq<Record>, i: nat): Kind {
    if i < |messages| then KindOf(codec, messages[i])
    else if i < |messages| + |b| then KindStored(b[i - |messages|].value) else Kind(None, [])
  }

  function NamingFor(codec: Codec, messages: seq<Message>, b: seq<Record>): Naming {
    Naming(codec, (x: P.Msg) =>
      var k := KindAt(codec, messages, b, x.id);
      if k.text.Some? == x.encodable then k else Kind(if x.encodable then Some("") else None, []))
  }

  /** Whatever the messages, alike or not, and whatever the bucket, there are distinct names for all of them. */
  lemma NamesExist(codec: Codec, messages: seq<Message>, b: seq<Record>)
    returns (n: Naming, names: seq<P.Msg>, store: map<Key, P.Entry>)
    requires Sorted(b)
    ensures n.codec == codec && Labels(n) && Named(n, names, messages) && NoDup(names)
    ensures Holds(n, store, b) && P.OneKey(store) && forall x :: x in names ==> x !in P.Msgs(store)
  {
    n := NamingFor(codec, messages, b);
    names := seq(|messages|, i requires 0 <= i < |messages| => P.Msg(i, KindOf(codec, messages[i]).text.Some?));
    store := StoreNamed(b, |messages|);
    StoreNamedHolds(n, codec, messages, b);
  }

  /** The records of a bucket, named from an identity on. */
  ghost function StoreNamed(b: seq<Record>, first: nat): map<Key, P.Entry> {
    map k | k in Contents(b) ::
      P.Entry(P.Msg(first + IndexOf(b, k), true), Contents(b)[k].timestamp, Contents(b)[k].ttl)
  }

  /** Where a key's record is. */
  ghost function IndexOf(b: seq<Record>, k: Key): (i: nat)
    requires k in Contents(b)
    ensures i < |b| && b[i].key == k
  {
    ContentsKeys(b);
    var i: nat :| i < |b| && b[i].key == k;
    i
  }

  lemma StoreNamedHolds(n: Naming, codec: Codec, messages: seq<Message>, b: seq<Record>)
    requires Sorted(b) && n == NamingFor(codec, messages, b)
    ensures Holds(n, StoreNamed(b, |messages|), b) && P.OneKey(StoreNamed(b, |messages|))
    ensures forall x :: x in P.Msgs(StoreNamed(b, |messages|)) ==> x.id >= |messages|
  {
    var store := StoreNamed(b, |messages|);
    forall k | k in store ensures EntryFor(n, store[k], Contents(b)[k]) {
      ContentsAt(b, IndexOf(b, k));
    }
  }
}
