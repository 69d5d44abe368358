/** What the queue consumer does over any number of turns of its select loop. */
module Consumer {
  import opened Wrappers
  import opened Storage
  import opened Messages
  import opened Connectivity
  import opened Sending
  import opened BatchSizing
  import opened FailedBatches

  /** The slice a loop appends to and empties with batch[:0], keeping its backing array. */
  class Buffer {
    var data: array<Message>
    var length: nat

    ghost predicate Valid()
      reads this
    {
      length <= data.Length
    }

    ghost function Contents(): seq<Message>
      reads this, data
      requires Valid()
    {
      data[..length]
    }

    constructor (capacity: nat)
      ensures Valid() && fresh(data) && Contents() == []
    {
      data := new Message[capacity];
      length := 0;
    }

    /** Reuses the backing array while there is room, and moves to a larger one otherwise. */
    method Append(m: Message)
      requires Valid()
      modifies this, data
      ensures Valid() && (data == old(data) || fresh(data))
      ensures Contents() == old(Contents()) + [m]
    {
      if length == data.Length {
        var larger := new Message[2 * length + 1];
        forall i | 0 <= i < length {
          larger[i] := data[i];
        }
        data := larger;
      }
      data[length] := m;
      length := length + 1;
    }

    method Clear()
      requires Valid()
      modifies this`length
      ensures Valid() && Contents() == []
    {
      length := 0;
    }
  }

  /** Which ready case the select takes; Receive waits while the queue is empty. */
  datatype Event = Receive | Tick

  /**
   One turn: what publishers offer the queue first, the choice, and what the world answers: to a
   flush, to the sweep, and to the heartbeat, whose content is given.
   */
  datatype Turn = Turn(arrivals: seq<Message>, event: Event, metrics: Metrics, net: Network, stamps: Stamps,
                       cleanAt: int, cleans: bool, beat: Message, beatAt: int, beatNet: Network)

  /** How a turn's flush and heartbeat came out, if it had them. */
  datatype Result = Result(flush: Try, beat: Try)

  /** The world from the stop signal on: offers before each look at the queue, and during the last send. */
  datatype Ending = Ending(offers: seq<seq<Message>>, late: seq<Message>, net: Network, stamps: Stamps)

  /**
   What the consumer works with: storage or not, connectivity kept or not, the codec, a usable
   URL, the queue's size, batch sizing, MaxRetries, and heartbeats.
   */
  datatype Setup = Setup(kept: bool, connected: bool, codec: Codec, requestable: bool, capacity: nat, sizing: Sizing,
                         max: int, heartbeats: bool, interval: int)

  /** The consumer's side of the client at one moment. */
  datatype Snap = Snap(batch: seq<Message>, queue: seq<Message>, wire: seq<seq<Message>>, bucket: seq<Record>,
                       trace: seq<Change>, lastBeat: int)

  /** What of the offered messages a queue of this length takes. */
  function Admitted(offered: seq<Message>, length: nat, capacity: nat): (taken: seq<Message>)
    ensures taken <= offered && length + |taken| <= Max(length, capacity)
    ensures taken == offered || length + |taken| >= capacity
  {
    offered[..Min(|offered|, Max(0, capacity - length))]
  }

  function Arrive(c: Setup, s: Snap, offered: seq<Message>): Snap {
    s.(queue := s.queue + Admitted(offered, |s.queue|, c.capacity))
  }

  function Take(s: Snap): Snap
    requires s.queue != []
  {
    s.(batch := s.batch + [s.queue[0]], queue := s.queue[1..])
  }

  /** What so many attempts add to the connectivity trace. */
  function Reported(c: Setup, net: Network, attempts: nat): seq<Change> {
    if c.connected then Reports(net.replies, net.clock, attempts) else []
  }

  /** The batch in hand goes to the sender; when that fails it is stored, if there is storage. */
  function Flush(c: Setup, s: Snap, net: Network, try: Try, stamps: Stamps): Snap {
    s.(batch := [], wire := s.wire + [s.batch], trace := s.trace + Reported(c, net, try.attempts),
       bucket := if try.ok || !c.kept then s.bucket else StoreAll(c.codec, s.bucket, s.batch, stamps, |s.batch|))
  }

  function Sweep(c: Setup, s: Snap, now: int, cleans: bool): Snap {
    if c.kept && cleans then s.(bucket := Unexpired(s.bucket, now)) else s
  }

  /** A heartbeat is due, and the client believes it is online. */
  predicate BeatDue(c: Setup, s: Snap, at: int) {
    c.heartbeats && (c.connected ==> Online(s.trace)) && at - s.lastBeat >= c.interval
  }

  function Beat(c: Setup, s: Snap, t: Turn, try: Try): Snap {
    s.(wire := s.wire + [[t.beat]], trace := s.trace + Reported(c, t.beatNet, try.attempts),
       lastBeat := if try.ok then t.beatAt else s.lastBeat)
  }

  /** The client when a turn comes to its flush, or would have come to it. */
  function Reach(c: Setup, s: Snap, t: Turn): Snap {
    var a := Arrive(c, s, t.arrivals);
    if t.event.Receive? && a.queue != [] then Take(a) else a
  }

  /** Whether a turn flushes: a receive that fills the batch, or a tick with anything in hand. */
  predicate Flushes(c: Setup, s: Snap, t: Turn)
    requires Configured(c.sizing)
  {
    var a, r := Arrive(c, s, t.arrivals), Reach(c, s, t);
    if t.event.Receive? then a.queue != [] && |r.batch| >= BatchSize(c.sizing, t.metrics) else r.batch != []
  }

  /** After the flush of a turn, if it has one. */
  function Flushed(c: Setup, s: Snap, t: Turn, try: Try): Snap
    requires Configured(c.sizing)
  {
    var r := Reach(c, s, t);
    if Flushes(c, s, t) then Flush(c, r, t.net, try, t.stamps) else r
  }

  /** After the sweep of a tick. */
  function Swept(c: Setup, s: Snap, t: Turn, try: Try): Snap
    requires Configured(c.sizing)
  {
    Sweep(c, Flushed(c, s, t, try), t.cleanAt, t.cleans)
  }

  predicate Beats(c: Setup, s: Snap, t: Turn, try: Try)
    requires Configured(c.sizing)
  {
    t.event.Tick? && BeatDue(c, Swept(c, s, t, try), t.beatAt)
  }

  /** One turn, given how its sends, if any, come out. */
  function Turned(c: Setup, s: Snap, t: Turn, r: Result): Snap
    requires Configured(c.sizing)
  {
    if t.event.Receive? then Flushed(c, s, t, r.flush)
    else if Beats(c, s, t, r.flush) then Beat(c, Swept(c, s, t, r.flush), t, r.beat)
    else Swept(c, s, t, r.flush)
  }

  /** After the first n turns. */
  function After(c: Setup, s: Snap, turns: seq<Turn>, rs: seq<Result>, n: nat): Snap
    requires Configured(c.sizing) && n <= |turns| && n <= |rs|
  {
    if n == 0 then s else Turned(c, After(c, s, turns, rs, n - 1), turns[n - 1], rs[n - 1])
  }

  predicate CanSend(c: Setup, batch: seq<Message>) {
    c.requestable && forall m :: m in batch ==> c.codec.marshal(m.data).Some?
  }

  /** The flush and the heartbeat of a turn, if it has them, come out as the networks allow. */
  ghost predicate HonestTurn(c: Setup, s: Snap, t: Turn, r: Result)
    requires Configured(c.sizing)
  {
    && (Flushes(c, s, t) ==> Honest(CanSend(c, Reach(c, s, t).batch), c.max, t.net, r.flush))
    && (Beats(c, s, t, r.flush) ==> Honest(CanSend(c, [t.beat]), c.max, t.beatNet, r.beat))
  }

  /** What receiving a message does: it may fill the batch. */
  ghost predicate Received(c: Setup, a: Snap, t: Turn, try: Try, u: Snap)
    requires Configured(c.sizing) && a.queue != []
  {
    var k := Take(a);
    if |k.batch| < BatchSize(c.sizing, t.metrics) then u == k
    else u == Flush(c, k, t.net, try, t.stamps) && Honest(CanSend(c, k.batch), c.max, t.net, try)
  }

  /** What a tick does first. */
  ghost predicate SentAndSwept(c: Setup, a: Snap, t: Turn, try: Try, w: Snap) {
    && (a.batch != [] ==> Honest(CanSend(c, a.batch), c.max, t.net, try))
    && w == Sweep(c, if a.batch != [] then Flush(c, a, t.net, try, t.stamps) else a, t.cleanAt, t.cleans)
  }

  /** What a tick does then. */
  ghost predicate Beaten(c: Setup, w: Snap, t: Turn, try: Try, u: Snap) {
    && (BeatDue(c, w, t.beatAt) ==> Honest(CanSend(c, [t.beat]), c.max, t.beatNet, try))
    && u == if BeatDue(c, w, t.beatAt) then Beat(c, w, t, try) else w
  }

  lemma TurnReceived(c: Setup, s: Snap, t: Turn, a: Snap, try: Try, u: Snap, beat: Try)
    requires Configured(c.sizing) && t.event.Receive? && a == Arrive(c, s, t.arrivals)
    requires a.queue != [] && Received(c, a, t, try, u)
    ensures u == Turned(c, s, t, Result(try, beat)) && HonestTurn(c, s, t, Result(try, beat))
  {
  }

  lemma TurnIdle(c: Setup, s: Snap, t: Turn, r: Result)
    requires Configured(c.sizing) && t.event.Receive? && Arrive(c, s, t.arrivals).queue == []
    ensures Turned(c, s, t, r) == Arrive(c, s, t.arrivals) && HonestTurn(c, s, t, r)
  {
  }

  lemma TurnTicked(c: Setup, s: Snap, t: Turn, a: Snap, try: Try, w: Snap, beat: Try, u: Snap)
    requires Configured(c.sizing) && t.event.Tick? && a == Arrive(c, s, t.arrivals)
    requires SentAndSwept(c, a, t, try, w) && Beaten(c, w, t, beat, u)
    ensures u == Turned(c, s, t, Result(try, beat)) && HonestTurn(c, s, t, Result(try, beat))
  {
  }

  ghost predicate AllHonest(c: Setup, s: Snap, turns: seq<Turn>, rs: seq<Result>, n: nat)
    requires Configured(c.sizing) && n <= |turns| && n <= |rs|
  {
    forall i: nat :: i < n ==> HonestAt(c, s, turns, rs, i)
  }

  ghost predicate HonestAt(c: Setup, s: Snap, turns: seq<Turn>, rs: seq<Result>, i: nat)
    requires Configured(c.sizing) && i < |turns| && i < |rs|
  {
    HonestTurn(c, After(c, s, turns, rs, i), turns[i], rs[i])
  }

  lemma {:induction false} SameSoFar(c: Setup, s: Snap, turns: seq<Turn>, rs: seq<Result>, r: Result, n: nat)
    requires Configured(c.sizing) && n <= |turns| && n <= |rs|
    ensures After(c, s, turns, rs + [r], n) == After(c, s, turns, rs, n)
    decreases n
  {
    if n > 0 {
      SameSoFar(c, s, turns, rs, r, n - 1);
      assert (rs + [r])[n - 1] == rs[n - 1];
    }
  }

  /** Turns that came out as rs lead from s to u. */
  ghost predicate Leads(c: Setup, s: Snap, turns: seq<Turn>, rs: seq<Result>, u: Snap)
    requires Configured(c.sizing) && |rs| <= |turns|
  {
    u == After(c, s, turns, rs, |rs|) && AllHonest(c, s, turns, rs, |rs|)
  }

  lemma OneMoreTurn(c: Setup, s: Snap, turns: seq<Turn>, rs: seq<Result>, before: Snap, r: Result)
    requires Configured(c.sizing) && |rs| < |turns| && Leads(c, s, turns, rs, before)
    requires HonestTurn(c, before, turns[|rs|], r)
    ensures Leads(c, s, turns, rs + [r], Turned(c, before, turns[|rs|], r))
  {
    forall i: nat | i < |rs| + 1 ensures HonestAt(c, s, turns, rs + [r], i) {
      SameSoFar(c, s, turns, rs, r, i);
      assert i < |rs| ==> HonestAt(c, s, turns, rs, i);
    }
    SameSoFar(c, s, turns, rs, r, |rs|);
  }

  /** What is admitted while the queue is drained, up to the look that finds it empty. */
  function DuringDrain(queue: seq<Message>, offers: seq<seq<Message>>, capacity: nat): seq<Message>
    decreases |offers|
  {
    if offers == [] then [] else
    var more := Admitted(offers[0], |queue|, capacity);
    if queue + more == [] then [] else more + DuringDrain((queue + more)[1..], offers[1..], capacity)
  }

  /** What a drain still gathers: the batch, the queue, and what comes. */
  function Gathered(batch: seq<Message>, queue: seq<Message>, offers: seq<seq<Message>>, capacity: nat): seq<Message> {
    batch + queue + DuringDrain(queue, offers, capacity)
  }

  /** One look at the queue during the drain: it ends if the queue is empty, and takes a message if not. */
  lemma DrainLook(batch: seq<Message>, queue: seq<Message>, offers: seq<seq<Message>>, capacity: nat)
    ensures var q := if offers == [] then queue else queue + Admitted(offers[0], |queue|, capacity);
      var rest := if offers == [] then [] else offers[1..];
      Gathered(batch, queue, offers, capacity) ==
        if q == [] then batch else Gathered(batch + [q[0]], q[1..], rest, capacity)
  {
    var q := if offers == [] then queue else queue + Admitted(offers[0], |queue|, capacity);
    if q != [] {
      assert [q[0]] + q[1..] == q;
      Regroup(batch, [q[0]], q[1..]);
      if offers != [] {
        var more := Admitted(offers[0], |queue|, capacity);
        var later := DuringDrain(q[1..], offers[1..], capacity);
        Regroup(batch, queue, more);
        Regroup(batch + queue, more, later);
      }
    }
  }

  /** What the shutdown flushes. */
  function LastBatch(c: Setup, s: Snap, e: Ending): seq<Message> {
    Gathered(s.batch, s.queue, e.offers, c.capacity)
  }

  /** After the drain, with the queue empty. */
  function Drained(c: Setup, s: Snap, e: Ending): Snap { s.(batch := LastBatch(c, s, e), queue := []) }

  /** The drain, the last flush, and what publishers still queue meanwhile. */
  function Stopped(c: Setup, s: Snap, e: Ending, try: Try): Snap {
    var d := Drained(c, s, e);
    Arrive(c, if d.batch != [] then Flush(c, d, e.net, try, e.stamps) else d, e.late)
  }

  // ---- Order ----

  /** What publishers got into the queue during the first n turns. */
  function Came(c: Setup, s: Snap, turns: seq<Turn>, rs: seq<Result>, n: nat): seq<Message>
    requires Configured(c.sizing) && n <= |turns| && n <= |rs|
  {
    if n == 0 then [] else
    Came(c, s, turns, rs, n - 1)
    + Admitted(turns[n - 1].arrivals, |After(c, s, turns, rs, n - 1).queue|, c.capacity)
  }

  /** What the consumer still owes: the batch in hand, then the queue. */
  function Pending(s: Snap): seq<Message> { s.batch + s.queue }

  /** What goes on the wire: batches of queued messages, and heartbeats in between. */
  datatype Item = Batch(messages: seq<Message>) | Heartbeat(message: Message)

  function OnWire(items: seq<Item>): seq<seq<Message>> {
    seq(|items|, i requires 0 <= i < |items| => if items[i].Batch? then items[i].messages else [items[i].message])
  }

  /** The queued messages among them. */
  function Queued(items: seq<Item>): seq<Message> {
    if items == [] then [] else
    Queued(items[..|items| - 1]) + if items[|items| - 1].Batch? then items[|items| - 1].messages else []
  }

  /** Only sent messages leave, in order: from s to t, with came admitted, after items went out. */
  ghost predicate InOrder(s: Snap, came: seq<Message>, items: seq<Item>, t: Snap) {
    t.wire == s.wire + OnWire(items) && Pending(s) + came == Queued(items) + Pending(t)
  }

  /** What one turn sends. */
  function Sent(c: Setup, s: Snap, t: Turn, r: Result): seq<Item>
    requires Configured(c.sizing)
  {
    (if Flushes(c, s, t) then [Batch(Reach(c, s, t).batch)] else [])
    + if Beats(c, s, t, r.flush) then [Heartbeat(t.beat)] else []
  }

  /** What the first n turns send. */
  function SentBy(c: Setup, s: Snap, turns: seq<Turn>, rs: seq<Result>, n: nat): seq<Item>
    requires Configured(c.sizing) && n <= |turns| && n <= |rs|
  {
    if n == 0 then [] else
    SentBy(c, s, turns, rs, n - 1) + Sent(c, After(c, s, turns, rs, n - 1), turns[n - 1], rs[n - 1])
  }

  lemma {:induction false} QueuedConcat(x: seq<Item>, y: seq<Item>)
    ensures Queued(x + y) == Queued(x) + Queued(y)
    decreases |y|
  {
    if y == [] {
      assert x + y == x;
    } else {
      var n := |y| - 1;
      QueuedConcat(x, y[..n]);
      assert (x + y)[..|x + y| - 1] == x + y[..n];
      Regroup(Queued(x), Queued(y[..n]), if y[n].Batch? then y[n].messages else []);
    }
  }

  lemma OnWireConcat(x: seq<Item>, y: seq<Item>)
    ensures OnWire(x + y) == OnWire(x) + OnWire(y)
  {
  }

  lemma ReachPends(c: Setup, s: Snap, t: Turn)
    ensures Pending(Reach(c, s, t)) == Pending(s) + Admitted(t.arrivals, |s.queue|, c.capacity)
  {
    var a := Arrive(c, s, t.arrivals);
    Regroup(s.batch, s.queue, Admitted(t.arrivals, |s.queue|, c.capacity));
    if t.event.Receive? && a.queue != [] {
      Regroup(a.batch, [a.queue[0]], a.queue[1..]);
      assert [a.queue[0]] + a.queue[1..] == a.queue;
    }
  }

  lemma InOrderThen(s: Snap, came: seq<Message>, items: seq<Item>, t: Snap,
                    more: seq<Message>, next: seq<Item>, u: Snap)
    requires InOrder(s, came, items, t) && InOrder(t, more, next, u)
    ensures InOrder(s, came + more, items + next, u)
  {
    QueuedConcat(items, next);
    OnWireConcat(items, next);
    Regroup(s.wire, OnWire(items), OnWire(next));
    Regroup(Pending(s), came, more);
    Regroup(Queued(items), Pending(t), more);
    Regroup(Queued(items), Queued(next), Pending(u));
  }

  lemma FlushInOrder(c: Setup, s: Snap, net: Network, try: Try, stamps: Stamps)
    ensures InOrder(s, [], [Batch(s.batch)], Flush(c, s, net, try, stamps))
  {
    var items := [Batch(s.batch)];
    assert items[..0] == [] && Queued(items) == [] + s.batch;
    assert OnWire(items) == [s.batch];
    assert [] + s.queue == s.queue && [] + s.batch == s.batch && Pending(s) + [] == Pending(s);
  }

  lemma BeatInOrder(c: Setup, s: Snap, t: Turn, try: Try)
    ensures InOrder(s, [], [Heartbeat(t.beat)], Beat(c, s, t, try))
  {
    var items := [Heartbeat(t.beat)];
    assert items[..0] == [] && Queued(items) == [] + [];
    assert OnWire(items) == [[t.beat]];
    assert [] + Pending(s) == Pending(s) + [];
  }

  lemma NothingInOrder(s: Snap, came: seq<Message>, t: Snap)
    requires t.wire == s.wire && Pending(t) == Pending(s) + came
    ensures InOrder(s, came, [], t)
  {
    assert s.wire + OnWire([]) == s.wire && [] + Pending(t) == Pending(t);
  }

  lemma FlushedInOrder(c: Setup, s: Snap, t: Turn, try: Try)
    requires Configured(c.sizing)
    ensures InOrder(s, Admitted(t.arrivals, |s.queue|, c.capacity),
                    if Flushes(c, s, t) then [Batch(Reach(c, s, t).batch)] else [], Flushed(c, s, t, try))
  {
    var came := Admitted(t.arrivals, |s.queue|, c.capacity);
    var r := Reach(c, s, t);
    ReachPends(c, s, t);
    NothingInOrder(s, came, r);
    if Flushes(c, s, t) {
      FlushInOrder(c, r, t.net, try, t.stamps);
      InOrderThen(s, came, [], r, [], [Batch(r.batch)], Flushed(c, s, t, try));
      assert came + [] == came && [] + [Batch(r.batch)] == [Batch(r.batch)];
    }
  }

  lemma TurnInOrder(c: Setup, s: Snap, t: Turn, r: Result)
    requires Configured(c.sizing)
    ensures InOrder(s, Admitted(t.arrivals, |s.queue|, c.capacity), Sent(c, s, t, r), Turned(c, s, t, r))
  {
    var came := Admitted(t.arrivals, |s.queue|, c.capacity);
    var f, w := Flushed(c, s, t, r.flush), Swept(c, s, t, r.flush);
    var items := if Flushes(c, s, t) then [Batch(Reach(c, s, t).batch)] else [];
    FlushedInOrder(c, s, t, r.flush);
    assert InOrder(s, came, items, w);
    if Beats(c, s, t, r.flush) {
      BeatInOrder(c, w, t, r.beat);
      InOrderThen(s, came, items, w, [], [Heartbeat(t.beat)], Beat(c, w, t, r.beat));
      assert came + [] == came;
    } else {
      assert Sent(c, s, t, r) == items + [] == items;
    }
  }

  /** First in, first out, for every schedule of arrivals, receives and ticks. */
  lemma {:induction false} TurnsKeepOrder(c: Setup, s: Snap, turns: seq<Turn>, rs: seq<Result>, n: nat)
    requires Configured(c.sizing) && n <= |turns| && n <= |rs|
    ensures InOrder(s, Came(c, s, turns, rs, n), SentBy(c, s, turns, rs, n), After(c, s, turns, rs, n))
  {
    if n == 0 {
      assert Pending(s) + [] == Pending(s);
      NothingInOrder(s, [], s);
    } else {
      var t := After(c, s, turns, rs, n - 1);
      TurnsKeepOrder(c, s, turns, rs, n - 1);
      TurnInOrder(c, t, turns[n - 1], rs[n - 1]);
      InOrderThen(s, Came(c, s, turns, rs, n - 1), SentBy(c, s, turns, rs, n - 1), t,
                  Admitted(turns[n - 1].arrivals, |t.queue|, c.capacity), Sent(c, t, turns[n - 1], rs[n - 1]),
                  After(c, s, turns, rs, n));
    }
  }

  lemma StopSends(c: Setup, s: Snap, e: Ending, try: Try)
    ensures var last := LastBatch(c, s, e);
      var u := Stopped(c, s, e, try);
      && u.batch == [] && u.queue == Admitted(e.late, 0, c.capacity)
      && u.wire == if last == [] then s.wire else s.wire + [last]
  {
    assert [] + Admitted(e.late, 0, c.capacity) == Admitted(e.late, 0, c.capacity);
  }

  /** From t, reached in order, the shutdown flushes all that is pending and all that the drain admits. */
  ghost predicate OwesNothing(c: Setup, s: Snap, came: seq<Message>, items: seq<Item>, t: Snap, e: Ending, u: Snap) {
    var last := LastBatch(c, t, e);
    && u.batch == [] && u.queue == Admitted(e.late, 0, c.capacity)
    && t.wire == s.wire + OnWire(items) && u.wire == (if last == [] then t.wire else t.wire + [last])
    && Queued(items) + last == Pending(s) + came + DuringDrain(t.queue, e.offers, c.capacity)
  }

  lemma StopInOrder(c: Setup, s: Snap, came: seq<Message>, items: seq<Item>, t: Snap, e: Ending, try: Try)
    requires InOrder(s, came, items, t)
    ensures OwesNothing(c, s, came, items, t, e, Stopped(c, t, e, try))
  {
    StopSends(c, t, e, try);
    Regroup(Queued(items), Pending(t), DuringDrain(t.queue, e.offers, c.capacity));
  }

  /**
   Whatever came before the drain found the queue empty has been flushed when the consumer has
   stopped, in order; only later arrivals are in the queue, and nothing is in hand.
   */
  lemma StopOwesNothing(c: Setup, s: Snap, turns: seq<Turn>, rs: seq<Result>, e: Ending, try: Try)
    requires Configured(c.sizing) && |turns| == |rs|
    ensures var n := |turns|;
      var t := After(c, s, turns, rs, n);
      OwesNothing(c, s, Came(c, s, turns, rs, n), SentBy(c, s, turns, rs, n), t, e, Stopped(c, t, e, try))
  {
    var n := |turns|;
    TurnsKeepOrder(c, s, turns, rs, n);
    StopInOrder(c, s, Came(c, s, turns, rs, n), SentBy(c, s, turns, rs, n), After(c, s, turns, rs, n), e, try);
  }

  // ---- Sizes ----

  function Largest(z: Sizing): int { Max(z.minBatch, z.maxBatch) }

  lemma TurnStaysSmall(c: Setup, s: Snap, t: Turn, r: Result)
    requires Configured(c.sizing) && |s.batch| < Largest(c.sizing) && |s.queue| <= c.capacity
    ensures |Turned(c, s, t, r).batch| < Largest(c.sizing) && |Turned(c, s, t, r).queue| <= c.capacity
  {
    assert |Arrive(c, s, t.arrivals).queue| <= c.capacity;
    var f := Flushed(c, s, t, r.flush);
    assert Turned(c, s, t, r).batch == f.batch && Turned(c, s, t, r).queue == f.queue;
  }

  /** At every turn's start the batch in hand is below the larger bound, and the queue within its capacity. */
  lemma {:induction false} HandStaysSmall(c: Setup, s: Snap, turns: seq<Turn>, rs: seq<Result>, n: nat)
    requires Configured(c.sizing) && n <= |turns| && n <= |rs|
    requires |s.batch| < Largest(c.sizing) && |s.queue| <= c.capacity
    ensures |After(c, s, turns, rs, n).batch| < Largest(c.sizing) && |After(c, s, turns, rs, n).queue| <= c.capacity
  {
    if n > 0 {
      HandStaysSmall(c, s, turns, rs, n - 1);
      TurnStaysSmall(c, After(c, s, turns, rs, n - 1), turns[n - 1], rs[n - 1]);
    }
  }

  /**
   However the metrics move, a flush before shutdown is not empty and within the larger bound;
   the one at shutdown is less than that bound, the capacity and the drain's arrivals together.
   */
  lemma FlushesAreBounded(c: Setup, s: Snap, turns: seq<Turn>, rs: seq<Result>, i: nat, e: Ending)
    requires Configured(c.sizing) && i <= |turns| && i <= |rs|
    requires |s.batch| < Largest(c.sizing) && |s.queue| <= c.capacity
    ensures var t := After(c, s, turns, rs, i);
      && (i < |turns| && Flushes(c, t, turns[i]) ==> 1 <= |Reach(c, t, turns[i]).batch| <= Largest(c.sizing))
      && |LastBatch(c, t, e)| < Largest(c.sizing) + c.capacity + |DuringDrain(t.queue, e.offers, c.capacity)|
  {
    HandStaysSmall(c, s, turns, rs, i);
  }

  /** With no publisher offering anything, the drain takes what is queued, at most a full queue, and no more. */
  lemma {:induction false} QuietDrain(queue: seq<Message>, offers: seq<seq<Message>>, capacity: nat)
    requires forall i :: 0 <= i < |offers| ==> offers[i] == []
    ensures DuringDrain(queue, offers, capacity) == []
    decreases |offers|
  {
    if offers != [] && queue != [] {
      assert queue + Admitted(offers[0], |queue|, capacity) == queue;
      QuietDrain(queue[1..], offers[1..], capacity);
    }
  }
}
