/** The main results about whole runs of the pipeline: conservation, order, loss, removal. */
module PipelineTheorems {
  import opened Wrappers
  import opened Pipeline
  import opened PipelineInvariant
  import opened PipelineSteps

  lemma OpenedInv(s: State)
    requires Opened(s)
    ensures Inv(s)
  {
    assert Held(s) == [];
  }

  // ---- Conservation ----

  /** In how many places a message is recorded. */
  ghost function Places(s: State, m: Msg): nat {
    (if m in Held(s) then 1 else 0) + (if m in Msgs(s.store) then 1 else 0)
    + (if m in s.delivered then 1 else 0) + (if m in s.expired then 1 else 0) + (if m in s.lost then 1 else 0)
  }

  /**
   A message is accepted exactly when it is recorded somewhere, and in two places exactly when
   it was delivered and its record is still stored or was removed while a retry held a copy of
   it; still stored means between a 2xx and the delete that follows, or after that delete failed.
   */
  lemma Conservation(s0: State, steps: seq<Step>)
    requires Opened(s0) && IsRun(s0, steps)
    ensures var s := Exec(s0, steps);
      && (forall m :: m in s.accepted <==> Places(s, m) >= 1)
      && (forall m :: Places(s, m) <= 2)
      && (forall m :: Places(s, m) == 2 <==> m in s.delivered && (m in Msgs(s.store) || m in s.raced))
      && (forall m :: m in s.delivered && m in Msgs(s.store) ==> m in Window(s) + s.undeleted)
  {
    OpenedInv(s0);
    InvAlong(s0, steps);
  }

  // ---- Order and shutdown ----

  /**
   First in, first out for every schedule; and once the consumer has exited, exactly the
   messages enqueued before the drain found the queue empty have been handed over, and each
   of those has been sent, stored, expired or lost: none is still only in memory.
   */
  lemma FirstInFirstOut(s0: State, steps: seq<Step>)
    requires Opened(s0) && IsRun(s0, steps)
    ensures var s := Exec(s0, steps);
      && s.enqueued == Concat(s.handed) + s.batch + s.queue
      && (s.cpc.Exited? ==>
            && s.drainedAt.Some? && s.drainedAt.value <= |s.enqueued|
            && Concat(s.handed) == s.enqueued[..s.drainedAt.value]
            && s.queue == s.enqueued[s.drainedAt.value..])
      && (forall m :: m in Concat(s.handed) ==>
            m in Msgs(s.store) || m in s.delivered || m in s.expired || m in s.lost)
  {
    OpenedInv(s0);
    InvAlong(s0, steps);
    HandedHaveLeft(Exec(s0, steps));
    DrainedOwesNothing(Exec(s0, steps));
  }

  lemma HandedHaveLeft(s: State)
    requires Ordered(s) && Calls(s) && Books(s, {})
    ensures forall m :: m in Concat(s.handed) ==>
              m in Msgs(s.store) || m in s.delivered || m in s.expired || m in s.lost
  {
    StillPending(s);
    forall m | m in Concat(s.handed) ensures m in s.accepted && m !in Held(s) {
      assert m in s.enqueued;
      assert forall i :: 0 <= i < |Held(s)| ==> Held(s)[i] in s.batch + s.queue;
    }
  }

  lemma DrainedOwesNothing(s: State)
    requires Ordered(s) && Drained(s)
    ensures s.cpc.Exited? ==>
      && s.drainedAt.Some? && s.drainedAt.value <= |s.enqueued|
      && Concat(s.handed) == s.enqueued[..s.drainedAt.value]
      && s.queue == s.enqueued[s.drainedAt.value..]
  {
    if s.cpc.Exited? {
      assert Concat(s.handed) + s.batch == Concat(s.handed);
      assert s.enqueued[..s.drainedAt.value] + s.queue == s.enqueued;
    }
  }
}
