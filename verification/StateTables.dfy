/** State tables as Go maps: objects shared by reference, cloned and compared through their JSON text. */
module StateTables {
  import opened Wrappers

  datatype Value = Null | Bool(b: bool) | Number(n: real) | Text(s: string) | List(items: seq<Value>)
                 | Object(fields: map<string, Value>)

  type Content = map<string, Value>

  class Table {
    var content: Content

    constructor (content: Content)
      ensures this.content == content
    {
      this.content := content;
    }
  }

  /** json.Marshal and json.Unmarshal on tables. */
  datatype Codec = Codec(marshal: Content -> Option<string>, unmarshal: string -> Option<Content>)

  /** Decoding an encoding gives a table that encodes the same way. */
  ghost predicate Canonical(codec: Codec) {
    forall c: Content, text: string :: codec.marshal(c) == Some(text) && codec.unmarshal(text).Some? ==>
      codec.marshal(codec.unmarshal(text).value) == Some(text)
  }

  /** A nil map encodes as null. */
  function SnapshotOf(codec: Codec, c: Option<Content>): string {
    if c.None? then "null" else match codec.marshal(c.value) case Some(text) => text case None => ""
  }

  /** Two tables that encode have the same snapshot exactly when they encode alike; a nil table's is null. */
  lemma SnapshotsTell(codec: Codec, a: Content, b: Content)
    requires codec.marshal(a).Some? && codec.marshal(b).Some?
    ensures SnapshotOf(codec, Some(a)) == SnapshotOf(codec, Some(b)) <==> codec.marshal(a) == codec.marshal(b)
    ensures SnapshotOf(codec, None) == SnapshotOf(codec, Some(a)) <==> codec.marshal(a) == Some("null")
  {
  }

  /** The content cloning arrives at. */
  function Cloned(codec: Codec, c: Content): Content {
    match codec.marshal(c)
    case None => c
    case Some(text) => match codec.unmarshal(text) case None => c case Some(copy) => copy
  }

  /** A clone encodes as its original does. */
  lemma CloneKeepsSnapshot(codec: Codec, c: Content)
    requires Canonical(codec)
    ensures codec.marshal(Cloned(codec, c)) == codec.marshal(c)
    ensures SnapshotOf(codec, Some(Cloned(codec, c))) == SnapshotOf(codec, Some(c))
  {
    match codec.marshal(c) {
      case None =>
      case Some(text) => assert codec.marshal(c) == Some(text);
    }
  }

  predicate Clonable(codec: Codec, c: Content) {
    codec.marshal(c).Some? && codec.unmarshal(codec.marshal(c).value).Some?
  }

  /** A nil table becomes an empty one; a table that cannot be encoded and read back is returned itself. */
  method CloneStateMap(codec: Codec, state: Table?) returns (copy: Table)
    ensures state == null ==> fresh(copy) && copy.content == map[]
    ensures state != null ==> copy.content == Cloned(codec, state.content)
    ensures state != null && Clonable(codec, state.content) ==>
      codec.unmarshal(codec.marshal(state.content).value) == Some(copy.content)
    ensures state != null && Clonable(codec, state.content) ==> fresh(copy)
    ensures state != null && !Clonable(codec, state.content) ==> copy == state
  {
    if state == null {
      copy := new Table(map[]);
      return;
    }
    var data := codec.marshal(state.content);
    if data.None? {
      return state;
    }
    var content := codec.unmarshal(data.value);
    if content.None? {
      return state;
    }
    copy := new Table(content.value);
  }

  /** What came back from a poll of the state table; no table in the payload decodes as nil. */
  datatype Poll = Failed | Decoded(table: Option<Content>)

  /** A handler as the watcher sees it: what it leaves in the table it was given, and whether it failed. */
  datatype Handler = Handler(effect: Content -> Content, fails: Content -> bool)

  datatype Outcome = Skipped | PollError | Silent | Dispatched(byState: bool, content: Content, failed: bool)

  class Watcher {
    const codec: Codec
    var stateHandler: Option<Handler>
    var stateCallback: Option<Handler>
    var lastState: Table?
    var lastStateInit: bool
    ghost var lastSeen: Option<Content>      // the content of the last table received, before any handler had it

    /** There is a record exactly when a table has been received, and it is that table's. */
    ghost predicate Valid()
      reads this, lastState
    {
      && (lastStateInit <==> lastSeen.Some?)
      && (lastSeen.Some? ==>
            && lastState != null && Clonable(codec, lastSeen.value)
            && codec.marshal(lastState.content) == codec.marshal(lastSeen.value))
    }

    /** The record of the last poll, by content. */
    ghost function Record(): Option<string>
      reads this, lastState
    {
      if lastStateInit then
        Some(SnapshotOf(codec, if lastState == null then None else Some(lastState.content)))
      else None
    }

    constructor (codec: Codec)
      ensures this.codec == codec && Valid() && lastSeen == None && Record() == None && lastState == null
    {
      this.codec, lastSeen := codec, None;
      stateHandler, stateCallback, lastState, lastStateInit := None, None, null, false;
    }

    /** The locked section: record the new table, and report what was there before. */
    method Commit(state: Table) returns (seenBefore: bool, previous: string)
      requires Canonical(codec)
      modifies this`lastState, this`lastStateInit, this`lastSeen
      ensures Clonable(codec, state.content) ==> Valid() && lastSeen == Some(state.content)
      ensures seenBefore == old(Record()).Some? && (seenBefore ==> Some(previous) == old(Record()))
      ensures Record() == Some(SnapshotOf(codec, Some(state.content)))
      ensures Clonable(codec, state.content) ==> lastState != null && fresh(lastState)
    {
      seenBefore := lastStateInit;
      previous := SnapshotOf(codec, if lastState == null then None else Some(lastState.content));
      CloneKeepsSnapshot(codec, state.content);
      lastState := CloneStateMap(codec, state);
      lastStateInit := true;
      lastSeen := Some(state.content);
    }

    /** Hands the table itself to the first handler there is, which may change it. */
    method DispatchState(state: Table) returns (outcome: Outcome)
      modifies state
      ensures stateHandler.None? && stateCallback.None? ==> outcome == Silent && state.content == old(state.content)
      ensures stateHandler.Some? ==>
        outcome == Dispatched(true, old(state.content), stateHandler.value.fails(old(state.content)))
      ensures stateHandler.None? && stateCallback.Some? ==>
        outcome == Dispatched(false, old(state.content), stateCallback.value.fails(old(state.content)))
    {
      if stateHandler.Some? {
        var h := stateHandler.value;
        outcome := Dispatched(true, state.content, h.fails(state.content));
        state.content := h.effect(state.content);
      } else if stateCallback.Some? {
        var h := stateCallback.value;
        outcome := Dispatched(false, state.content, h.fails(state.content));
        state.content := h.effect(state.content);
      } else {
        outcome := Silent;
      }
    }

    /**
     One poll. A failed poll leaves the record alone; otherwise the record becomes the table
     received, whatever a handler then does to its argument. A handler is called just when a table
     had been received before and encodes differently: the state handler, or else the callback.
     */
    method CheckState(poll: Poll) returns (outcome: Outcome)
      requires Canonical(codec) && Valid()
      requires poll.Decoded? && poll.table.Some? ==> Clonable(codec, poll.table.value)
      requires Clonable(codec, map[])
      modifies this`lastState, this`lastStateInit, this`lastSeen
      ensures Valid()
      ensures stateHandler.None? && stateCallback.None? ==> outcome == Skipped && lastSeen == old(lastSeen)
      ensures (stateHandler.Some? || stateCallback.Some?) && poll.Failed? ==>
        outcome == PollError && lastSeen == old(lastSeen)
      ensures (stateHandler.Some? || stateCallback.Some?) && poll.Decoded? ==>
        var received := if poll.table.Some? then poll.table.value else map[];
        && lastSeen == Some(received)
        && (outcome.Dispatched? <==>
              old(lastSeen).Some? && codec.marshal(received) != codec.marshal(old(lastSeen).value))
        && (outcome.Dispatched? && stateHandler.Some? ==>
              outcome == Dispatched(true, received, stateHandler.value.fails(received)))
        && (outcome.Dispatched? && stateHandler.None? ==>
              outcome == Dispatched(false, received, stateCallback.value.fails(received)))
        && (!outcome.Dispatched? ==> outcome == Silent)
    {
      if stateHandler.None? && stateCallback.None? {
        return Skipped;
      }
      if poll.Failed? {
        return PollError;
      }
      var state := new Table(if poll.table.Some? then poll.table.value else map[]);
      var seenBefore, previous := Commit(state);
      outcome := Silent;
      if seenBefore && SnapshotOf(codec, Some(state.content)) != previous {
        outcome := DispatchState(state);
      }
    }
  }
}
