/**
 What a turn of the consumer does, in terms of what was in hand, queued, stored and believed before
 it: the flush of a full batch, the storing of a failed one, the sweep of a tick, and the heartbeat.
 */
module ConsumerLaws {
  import opened Keys
  import opened Storage
  import opened Sending
  import opened BatchSizing
  import opened FailedBatches
  import opened Consumer

  // ---- A flush ----

  /** The batch in hand goes out in one piece; it is stored only if the send fails and there is storage. */
  lemma FlushSends(c: Setup, s: Snap, net: Network, try: Try, stamps: Stamps)
    ensures var u := Flush(c, s, net, try, stamps);
      && u.batch == [] && u.queue == s.queue && u.lastBeat == s.lastBeat && u.wire == s.wire + [s.batch]
      && (try.ok || !c.kept ==> u.bucket == s.bucket)
  {
  }

  /** When it fails, each key keeps the last of the batch's messages that was stored under it. */
  lemma FailedFlushKeeps(c: Setup, s: Snap, net: Network, try: Try, stamps: Stamps, k: Key)
    requires Sorted(s.bucket) && c.kept && !try.ok
    ensures Sorted(Flush(c, s, net, try, stamps).bucket)
    ensures KeepsLast(c.codec, s.bucket, s.batch, stamps, k, Flush(c, s, net, try, stamps).bucket)
  {
    StoreAllSorted(c.codec, s.bucket, s.batch, stamps, |s.batch|);
    StoredBatch(c.codec, s.bucket, s.batch, stamps, k);
  }

  /** Attempt a is the last of n that says anything about connectivity: it had no response, or a 2xx. */
  ghost predicate LastToTell(replies: nat -> Reply, n: nat, a: nat) {
    && a < n && (replies(a).NetworkError? || replies(a).Accepted?)
    && forall b: nat :: a < b < n ==> replies(b).Busy? || replies(b).Refused?
  }

  /** What the client believes after a flush: what the last telling attempt said, or what it believed before. */
  lemma FlushTells(c: Setup, s: Snap, net: Network, try: Try, stamps: Stamps, a: nat)
    ensures var u := Flush(c, s, net, try, stamps);
      && (!c.connected ==> u.trace == s.trace)
      && (c.connected && LastToTell(net.replies, try.attempts, a) ==> Online(u.trace) == net.replies(a).Accepted?)
      && ((forall b: nat :: b < try.attempts ==> net.replies(b).Busy? || net.replies(b).Refused?) ==>
            u.trace == s.trace)
  {
    if c.connected && LastToTell(net.replies, try.attempts, a) {
      LastReport(net.replies, net.clock, try.attempts, a);
    }
    OneReportEach(net.replies, net.clock, try.attempts);
    var telling := set b: nat | b < try.attempts && (net.replies(b).NetworkError? || net.replies(b).Accepted?);
    if forall b: nat :: b < try.attempts ==> net.replies(b).Busy? || net.replies(b).Refused? {
      assert telling == {};
      assert s.trace + [] == s.trace;
    }
  }

  // ---- A turn ----

  /** The client after new messages came to the queue. */
  function Came(c: Setup, s: Snap, t: Turn): Snap {
    s.(queue := s.queue + Admitted(t.arrivals, |s.queue|, c.capacity))
  }

  /** A receive takes the first queued message, and flushes as soon as the batch has the size the metrics ask for. */
  lemma ReceiveLaw(c: Setup, s: Snap, t: Turn, r: Result)
    requires Configured(c.sizing) && t.event.Receive?
    ensures var a, u := Came(c, s, t), Turned(c, s, t, r);
      && (a.queue == [] ==> u == a)
      && (a.queue != [] ==>
            var k := a.(batch := a.batch + [a.queue[0]], queue := a.queue[1..]);
            u == if |k.batch| >= BatchSize(c.sizing, t.metrics) then Flush(c, k, t.net, r.flush, t.stamps) else k)
  {
  }

  /** The client after the flush of a tick. */
  function TickFlushed(c: Setup, s: Snap, t: Turn, r: Result): Snap {
    var a := Came(c, s, t);
    if a.batch != [] then Flush(c, a, t.net, r.flush, t.stamps) else a
  }

  /** A tick flushes whatever is in hand. */
  lemma TickLaw(c: Setup, s: Snap, t: Turn, r: Result)
    requires Configured(c.sizing) && t.event.Tick?
    ensures Turned(c, s, t, r).batch == [] && Turned(c, s, t, r).queue == Came(c, s, t).queue
  {
  }

  /** What is left of the bucket are the entries with time to live, as they were. */
  ghost predicate LeavesUnexpired(b: seq<Record>, now: int, after: seq<Record>) {
    var before := Contents(b);
    Contents(after) == map k | k in before && now < before[k].timestamp + before[k].ttl :: before[k]
  }

  /** Then it removes exactly the records whose time has passed, if there is storage and the transaction commits. */
  lemma TickSweeps(c: Setup, s: Snap, t: Turn, r: Result)
    requires Configured(c.sizing) && t.event.Tick? && Sorted(s.bucket)
    ensures var f, u := TickFlushed(c, s, t, r), Turned(c, s, t, r);
      && (c.kept && t.cleans ==> LeavesUnexpired(f.bucket, t.cleanAt, u.bucket))
      && (!(c.kept && t.cleans) ==> u.bucket == f.bucket)
  {
    var f := TickFlushed(c, s, t, r);
    StoreAllSorted(c.codec, s.bucket, s.batch, t.stamps, |s.batch|);
    UnexpiredAsMap(f.bucket, t.cleanAt);
  }

  /** A heartbeat is due: it is switched on, the client believes it is online, and the interval is over. */
  ghost predicate HeartbeatDue(c: Setup, f: Snap, at: int) {
    && c.heartbeats && at - f.lastBeat >= c.interval
    && (c.connected && f.trace != [] ==> f.trace[|f.trace| - 1].online)
  }

  /** And last it sends a heartbeat if one is due; the interval starts anew only if that gets through. */
  lemma TickBeats(c: Setup, s: Snap, t: Turn, r: Result)
    requires Configured(c.sizing) && t.event.Tick?
    ensures var f, u := TickFlushed(c, s, t, r), Turned(c, s, t, r);
      if HeartbeatDue(c, f, t.beatAt) then
        && u.wire == f.wire + [[t.beat]] && u.lastBeat == (if r.beat.ok then t.beatAt else s.lastBeat)
        && (c.connected ==> u.trace == f.trace + Reports(t.beatNet.replies, t.beatNet.clock, r.beat.attempts))
        && (!c.connected ==> u.trace == f.trace)
      else u.wire == f.wire && u.lastBeat == s.lastBeat && u.trace == f.trace
  {
    var f := TickFlushed(c, s, t, r);
    assert f.trace + [] == f.trace;
  }

  // ---- The shutdown ----

  /** The drained batch is flushed like any other, if there is one; what comes late stays queued. */
  lemma StopLaw(c: Setup, s: Snap, e: Ending, try: Try)
    ensures var last := LastBatch(c, s, e);
      var d := s.(batch := last, queue := []);
      var f := if last != [] then Flush(c, d, e.net, try, e.stamps) else d;
      Stopped(c, s, e, try) == f.(queue := Admitted(e.late, 0, c.capacity))
  {
    assert [] + Admitted(e.late, 0, c.capacity) == Admitted(e.late, 0, c.capacity);
  }

  // ---- Any number of turns ----

  lemma {:induction false} StaysSorted(c: Setup, s: Snap, turns: seq<Turn>, rs: seq<Result>, n: nat)
    requires Configured(c.sizing) && n <= |turns| && n <= |rs| && Sorted(s.bucket)
    ensures Sorted(After(c, s, turns, rs, n).bucket)
    decreases n
  {
    if n > 0 {
      StaysSorted(c, s, turns, rs, n - 1);
      TurnSorted(c, After(c, s, turns, rs, n - 1), turns[n - 1], rs[n - 1]);
    }
  }

  lemma TurnSorted(c: Setup, s: Snap, t: Turn, r: Result)
    requires Configured(c.sizing) && Sorted(s.bucket)
    ensures Sorted(Turned(c, s, t, r).bucket)
  {
    var k := Reach(c, s, t);
    StoreAllSorted(c.codec, s.bucket, k.batch, t.stamps, |k.batch|);
    KeepSorted(Flushed(c, s, t, r.flush).bucket, LiveAt(t.cleanAt));
  }

  /** So at every tick of processQueue, whatever came before it, the records past their time leave the bucket. */
  lemma TicksSweep(c: Setup, s: Snap, turns: seq<Turn>, rs: seq<Result>, n: nat)
    requires Configured(c.sizing) && n < |turns| == |rs| && Sorted(s.bucket) && turns[n].event.Tick?
    ensures var t, a, u := turns[n], After(c, s, turns, rs, n), After(c, s, turns, rs, n + 1);
      var f := TickFlushed(c, a, t, rs[n]);
      && (c.kept && t.cleans ==> LeavesUnexpired(f.bucket, t.cleanAt, u.bucket))
      && (!(c.kept && t.cleans) ==> u.bucket == f.bucket)
  {
    StaysSorted(c, s, turns, rs, n);
    TickSweeps(c, After(c, s, turns, rs, n), turns[n], rs[n]);
  }
}
