/**
 Concurrent polls of the state table: fetch, the locked commit, and the comparison and dispatch
 outside the lock, for any number of CheckState calls and with handlers that change the tables
 they were given. Tables live in a heap of references, so that sharing is visible.
 */
module StateWatch {
  import opened Wrappers
  import opened StateTables

  type Ref = nat

  /** A call that fetched a table; that committed it, as the index-th; or that has decided. */
  datatype Call =
    | Fetched(table: Ref)
    | Committed(index: nat, table: Ref, seenBefore: bool, previous: string)
    | Finished(index: nat, dispatched: bool)

  datatype State = State(
    heap: map<Ref, Content>,
    last: Option<Ref>,
    calls: map<nat, Call>,
    given: set<Ref>,            // tables passed to handlers
    fetched: map<nat, Content>, // what each call received, as it was then
    commits: seq<Content>,      // the committed tables, in commit order
    committers: seq<nat>        // and the calls that committed them
  )

  datatype Step =
    | Fail(id: nat)
    | Fetch(id: nat, table: Ref, received: Content)
    | Commit(id: nat, copy: Ref)
    | Decide(id: nat)
    | Mutate(table: Ref, content: Content)

  predicate Init(s: State) {
    s.heap == map[] && s.last == None && s.calls == map[] && s.given == {} && s.fetched == map[]
    && s.commits == [] && s.committers == []
  }

  predicate Enabled(s: State, codec: Codec, step: Step) {
    match step
    case Fail(id) => id !in s.calls
    case Fetch(id, table, received) => id !in s.calls && table !in s.heap && Clonable(codec, received)
    case Commit(id, copy) =>
      && id in s.calls && s.calls[id].Fetched? && s.calls[id].table in s.heap && copy !in s.heap
      && (s.last.Some? ==> s.last.value in s.heap)
    case Decide(id) => id in s.calls && s.calls[id].Committed? && s.calls[id].table in s.heap
    case Mutate(table, _) => table in s.given
  }

  function Text(codec: Codec, c: Content): string { SnapshotOf(codec, Some(c)) }

  function Apply(s: State, codec: Codec, step: Step): State
    requires Enabled(s, codec, step)
  {
    match step
    case Fail(_) => s
    case Fetch(id, table, received) =>
      s.(heap := s.heap[table := received], calls := s.calls[id := Fetched(table)],
         fetched := s.fetched[id := received])
    case Commit(id, copy) =>
      var table := s.calls[id].table;
      var previous := SnapshotOf(codec, if s.last.None? then None else Some(s.heap[s.last.value]));
      s.(heap := s.heap[copy := Cloned(codec, s.heap[table])],
         last := Some(copy),
         calls := s.calls[id := Committed(|s.commits|, table, s.last.Some?, previous)],
         commits := s.commits + [s.heap[table]],
         committers := s.committers + [id])
    case Decide(id) =>
      var c := s.calls[id];
      var changed := c.seenBefore && Text(codec, s.heap[c.table]) != c.previous;
      s.(calls := s.calls[id := Finished(c.index, changed)],
         given := if changed then s.given + {c.table} else s.given)
    case Mutate(table, content) => s.(heap := s.heap[table := content])
  }

  predicate IsRun(s: State, codec: Codec, steps: seq<Step>)
    decreases |steps|
  {
    steps == [] || (Enabled(s, codec, steps[0]) && IsRun(Apply(s, codec, steps[0]), codec, steps[1..]))
  }

  function Exec(s: State, codec: Codec, steps: seq<Step>): State
    requires IsRun(s, codec, steps)
    decreases |steps|
  {
    if steps == [] then s else Exec(Apply(s, codec, steps[0]), codec, steps[1..])
  }

  // ---- Invariants ----

  /** The table a call still holds, untouched by handlers and by other calls. */
  function Holds(c: Call): set<Ref> { if c.Finished? then {} else {c.table} }

  ghost predicate Private(s: State) {
    && s.given <= s.heap.Keys
    && (forall id :: id in s.calls ==> Holds(s.calls[id]) <= s.heap.Keys - s.given)
    && (forall id, id' :: id in s.calls && id' in s.calls && id != id' ==> Holds(s.calls[id]) !! Holds(s.calls[id']))
  }

  /** The record is the last commit, held by no call and no handler. */
  ghost predicate Recorded(s: State, codec: Codec) {
    && |s.commits| == |s.committers|
    && (s.last.None? <==> s.commits == [])
    && (s.last.Some? ==>
          && s.last.value in s.heap && s.last.value !in s.given
          && codec.marshal(s.heap[s.last.value]) == codec.marshal(s.commits[|s.commits| - 1])
          && forall id :: id in s.calls ==> s.last.value !in Holds(s.calls[id]))
  }

  /** The index-th table to be committed calls for a dispatch. */
  predicate Changed(codec: Codec, commits: seq<Content>, index: nat)
    requires index < |commits|
  {
    index > 0 && Text(codec, commits[index]) != Text(codec, commits[index - 1])
  }

  /** The call committed what it had fetched, as the index-th. */
  ghost predicate CommittedAs(s: State, id: nat, index: nat) {
    && index < |s.commits| == |s.committers| && s.committers[index] == id
    && id in s.fetched && s.commits[index] == s.fetched[id]
  }

  /** Each call knows its place in the commit order, and what it needs to decide. */
  ghost predicate Placed(s: State, codec: Codec, id: nat)
    requires id in s.calls
  {
    id in s.fetched && Clonable(codec, s.fetched[id]) &&
    match s.calls[id]
    case Fetched(table) => id !in s.committers && table in s.heap && s.heap[table] == s.fetched[id]
    case Committed(index, table, seenBefore, previous) =>
      && CommittedAs(s, id, index) && table in s.heap && s.heap[table] == s.fetched[id]
      && seenBefore == (index > 0) && (seenBefore ==> previous == Text(codec, s.commits[index - 1]))
    case Finished(index, dispatched) => CommittedAs(s, id, index) && dispatched == Changed(codec, s.commits, index)
  }

  ghost predicate Inv(s: State, codec: Codec) {
    && Private(s) && Recorded(s, codec) && NoDup(s.committers)
    && (forall id :: id in s.calls ==> Placed(s, codec, id))
    && forall id :: id in s.committers ==> id in s.calls && !s.calls[id].Fetched?
  }

  lemma PrivateKept(s: State, codec: Codec, step: Step)
    requires Private(s) && Enabled(s, codec, step)
    ensures Private(Apply(s, codec, step))
  {
    match step {
      case Fetch(_, table, _) => assert forall id :: id in s.calls ==> table !in Holds(s.calls[id]);
      case Commit(id, _) => assert Holds(Apply(s, codec, step).calls[id]) == Holds(s.calls[id]);
      case _ =>
    }
  }

  lemma RecordedKept(s: State, codec: Codec, step: Step)
    requires Canonical(codec) && Private(s) && Recorded(s, codec) && Enabled(s, codec, step)
    ensures Recorded(Apply(s, codec, step), codec)
  {
    match step {
      case Commit(id, _) => CloneKeepsSnapshot(codec, s.heap[s.calls[id].table]);
      case Decide(id) => assert s.calls[id].table in Holds(s.calls[id]);
      case _ =>
    }
  }

  lemma PlacedKept(s: State, codec: Codec, step: Step)
    requires Canonical(codec) && Inv(s, codec) && Enabled(s, codec, step)
    ensures var t := Apply(s, codec, step); forall id :: id in t.calls ==> Placed(t, codec, id)
  {
    PlacedElsewhere(s, codec, step);
    if !step.Mutate? && step.id in Apply(s, codec, step).calls {
      PlacedHere(s, codec, step);
    }
  }

  /** The call that takes the step has its place as well. */
  lemma PlacedHere(s: State, codec: Codec, step: Step)
    requires Canonical(codec) && Inv(s, codec) && Enabled(s, codec, step)
    requires !step.Mutate? && step.id in Apply(s, codec, step).calls
    ensures Placed(Apply(s, codec, step), codec, step.id)
  {
    match step {
      case Fail(_) =>
      case Fetch(id, _, _) =>
      case Commit(id, _) => assert Placed(s, codec, id);
      case Decide(id) => assert Placed(s, codec, id);
    }
  }

  lemma InvKept(s: State, codec: Codec, step: Step)
    requires Canonical(codec) && Inv(s, codec) && Enabled(s, codec, step)
    ensures Inv(Apply(s, codec, step), codec)
  {
    PrivateKept(s, codec, step);
    RecordedKept(s, codec, step);
    PlacedKept(s, codec, step);
    if step.Commit? {
      assert Placed(s, codec, step.id);
    }
  }

  /** A step leaves every other call's place as it was. */
  lemma PlacedElsewhere(s: State, codec: Codec, step: Step)
    requires Inv(s, codec) && Enabled(s, codec, step)
    ensures var t := Apply(s, codec, step);
      forall id :: id in s.calls && (step.Mutate? || id != step.id) ==> Placed(t, codec, id)
  {
    var t := Apply(s, codec, step);
    forall id | id in s.calls && (step.Mutate? || id != step.id) ensures Placed(t, codec, id) {
      assert Placed(s, codec, id) && t.calls[id] == s.calls[id];
      assert s.commits <= t.commits;
    }
  }

  lemma {:induction false} InvAlong(s: State, codec: Codec, steps: seq<Step>)
    requires Canonical(codec) && Inv(s, codec) && IsRun(s, codec, steps)
    ensures Inv(Exec(s, codec, steps), codec)
    decreases |steps|
  {
    if steps != [] {
      InvKept(s, codec, steps[0]);
      InvAlong(Apply(s, codec, steps[0]), codec, steps[1..]);
    }
  }

  /**
   The i-th commit is what its call fetched, and that call dispatches exactly when the one before
   encodes differently.
   */
  ghost predicate Settled(s: State, codec: Codec, i: nat)
    requires i < |s.committers| == |s.commits|
  {
    var id := s.committers[i];
    && id in s.calls && id in s.fetched && s.commits[i] == s.fetched[id] && codec.marshal(s.commits[i]).Some?
    && (s.calls[id].Finished? ==>
          (s.calls[id].dispatched <==> i > 0 && codec.marshal(s.commits[i]) != codec.marshal(s.commits[i - 1])))
  }

  lemma CommitSettles(s: State, codec: Codec, i: nat)
    requires Inv(s, codec) && i < |s.committers|
    ensures Settled(s, codec, i)
  {
    var id := s.committers[i];
    assert Placed(s, codec, id);
    var index := s.calls[id].index;
    assert s.committers[index] == s.committers[i];
    if i > 0 {
      var before := s.committers[i - 1];
      assert Placed(s, codec, before);
      assert s.committers[s.calls[before].index] == before;
      SnapshotsTell(codec, s.commits[i], s.commits[i - 1]);
    }
  }

  lemma {:induction false} FetchedStays(s: State, codec: Codec, steps: seq<Step>, id: nat)
    requires IsRun(s, codec, steps) && id in s.calls && id in s.fetched
    ensures var t := Exec(s, codec, steps); id in t.fetched && t.fetched[id] == s.fetched[id]
    decreases |steps|
  {
    if steps != [] {
      FetchedStays(Apply(s, codec, steps[0]), codec, steps[1..], id);
    }
  }

  /** What a call fetched is what came back to it. */
  lemma {:induction false} FetchedIsReceived(s: State, codec: Codec, steps: seq<Step>, i: nat)
    requires IsRun(s, codec, steps) && i < |steps| && steps[i].Fetch?
    ensures var t := Exec(s, codec, steps); steps[i].id in t.fetched && t.fetched[steps[i].id] == steps[i].received
    decreases i
  {
    var s1 := Apply(s, codec, steps[0]);
    if i == 0 {
      FetchedStays(s1, codec, steps[1..], steps[0].id);
    } else {
      FetchedIsReceived(s1, codec, steps[1..], i - 1);
    }
  }

  /**
   Exactly once, in commit order, for every interleaving: each call that committed did so once, and
   committed what it had fetched; it dispatches if and only if another table was committed before it
   and the one just before encodes differently; and the record is always of the last table
   committed, whatever handlers do to theirs.
   */
  lemma ExactlyOnceInCommitOrder(s0: State, codec: Codec, steps: seq<Step>)
    requires Canonical(codec) && Init(s0) && IsRun(s0, codec, steps)
    ensures var s := Exec(s0, codec, steps);
      && NoDup(s.committers) && |s.committers| == |s.commits|
      && (forall i :: 0 <= i < |s.committers| ==> Settled(s, codec, i))
      && (forall id :: id in s.calls && s.calls[id].Finished? ==> id in s.committers)
      && (s.commits != [] ==> s.last.Some? && s.last.value in s.heap)
      && (s.commits != [] ==> codec.marshal(s.heap[s.last.value]) == codec.marshal(s.commits[|s.commits| - 1]))
  {
    InvAlong(s0, codec, steps);
    var s := Exec(s0, codec, steps);
    forall i | 0 <= i < |s.committers| ensures Settled(s, codec, i) {
      CommitSettles(s, codec, i);
    }
    forall id | id in s.calls && s.calls[id].Finished? ensures id in s.committers {
      assert Placed(s, codec, id);
    }
  }
}
