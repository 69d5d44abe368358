/** Building runs one step at a time, and the first keys of a bucket. */
module PipelineRuns {
  import opened Wrappers
  import opened Keys
  import opened Pipeline

  /** Some run of allowed steps leads from s to t. */
  ghost predicate Reaches(s: State, t: State, allowed: Step -> bool) {
    exists steps: seq<Step> ::
      IsRun(s, steps) && (forall step :: step in steps ==> allowed(step)) && Exec(s, steps) == t
  }

  lemma {:induction false} RunAppend(s: State, steps: seq<Step>, more: seq<Step>)
    requires IsRun(s, steps) && IsRun(Exec(s, steps), more)
    ensures IsRun(s, steps + more) && Exec(s, steps + more) == Exec(Exec(s, steps), more)
    decreases |steps|
  {
    if steps == [] {
      assert steps + more == more;
    } else {
      RunAppend(Apply(s, steps[0]), steps[1..], more);
      assert (steps + more)[1..] == steps[1..] + more;
    }
  }

  lemma ReachStep(s: State, step: Step, allowed: Step -> bool)
    requires Enabled(s, step) && allowed(step)
    ensures Reaches(s, Apply(s, step), allowed)
  {
    var one := [step];
    assert one[0] == step && one[1..] == [];
    assert IsRun(Apply(s, step), []);
    assert IsRun(s, one) && Exec(s, one) == Apply(s, step);
    assert forall x :: x in one ==> allowed(x);
  }

  lemma ReachTrans(s: State, t: State, u: State, allowed: Step -> bool)
    requires Reaches(s, t, allowed) && Reaches(t, u, allowed)
    ensures Reaches(s, u, allowed)
  {
    var a: seq<Step> :| IsRun(s, a) && (forall step :: step in a ==> allowed(step)) && Exec(s, a) == t;
    var b: seq<Step> :| IsRun(t, b) && (forall step :: step in b ==> allowed(step)) && Exec(t, b) == u;
    RunAppend(s, a, b);
  }

  lemma Next(s: State, t: State, step: Step, u: State, allowed: Step -> bool)
    requires Reaches(s, t, allowed) && Enabled(t, step) && allowed(step) && Apply(t, step) == u
    ensures Reaches(s, u, allowed)
  {
    ReachStep(t, step, allowed);
    ReachTrans(s, t, u, allowed);
  }

  /** A message is published and picked up, and its batch is about to be sent. */
  lemma PickUp(s: State, m: Msg, allowed: Step -> bool) returns (t: State)
    requires s.cpc.Selecting? && s.online && s.queue == [] && s.batch == [] && s.cfg.capacity > 0
    requires m !in s.seen && s.pubs == map[]
    requires allowed(Pub(PubBegin(m))) && allowed(Pub(PubEnqueue(m))) && allowed(Con(CReceive(1)))
    ensures t == s.(seen := s.seen + {m}, accepted := s.accepted + {m}, enqueued := s.enqueued + [m],
                    batch := [m], cpc := Sending(ToSelect))
    ensures Reaches(s, t, allowed)
  {
    var s1 := s.(seen := s.seen + {m}, pubs := map[m := ToQueue]);
    ReachStep(s, Pub(PubBegin(m)), allowed);
    assert Apply(s, Pub(PubBegin(m))) == s1;
    var s2 := s.(seen := s.seen + {m}, accepted := s.accepted + {m}, enqueued := s.enqueued + [m], queue := [m]);
    assert s1.pubs - {m} == map[];
    assert Apply(s1, Pub(PubEnqueue(m))) == s2;
    Next(s, s1, Pub(PubEnqueue(m)), s2, allowed);
    t := s2.(queue := [], batch := [m], cpc := Sending(ToSelect));
    Next(s, s2, Con(CReceive(1)), t, allowed);
  }

  /** Sending a batch of one fails and the message is stored instead. */
  lemma FailAndStore(s: State, m: Msg, key: Key, now: int, allowed: Step -> bool) returns (t: State)
    requires s.cpc == Sending(ToSelect) && s.batch == [m] && m.encodable && s.cfg.storage
    requires allowed(Con(CGiveUp)) && allowed(Con(CStore(key, now, true))) && allowed(Con(CFinish))
    ensures t == Put(s, key, Entry(m, now, TTL)).(handed := s.handed + [[m]], batch := [], cpc := Selecting)
    ensures Reaches(s, t, allowed)
  {
    var s1 := s.(cpc := Storing(0, ToSelect));
    ReachStep(s, Con(CGiveUp), allowed);
    assert Apply(s, Con(CGiveUp)) == s1;
    var s2 := Put(s, key, Entry(m, now, TTL)).(cpc := Storing(1, ToSelect));
    assert Apply(s1, Con(CStore(key, now, true))) == s2;
    Next(s, s1, Con(CStore(key, now, true)), s2, allowed);
    t := s2.(handed := s.handed + [[m]], batch := [], cpc := Selecting);
    Next(s, s2, Con(CFinish), t, allowed);
  }

  lemma {:induction false} LeastExists(keys: set<Key>) returns (least: Key)
    requires keys != {}
    ensures least in keys && forall k :: k in keys && k != least ==> Less(least, k)
    decreases |keys|
  {
    least :| least in keys;
    if keys != {least} {
      var other := LeastExists(keys - {least});
      LessIsStrictTotal(least, other);
      var pick := if Less(least, other) then least else other;
      forall k | k in keys && k != pick ensures Less(pick, k) {
        if pick == least && k != other {
          LessIsTransitive(least, other, k);
        }
      }
      least := pick;
    }
  }

  /** Every bucket has its first limit keys. */
  lemma {:induction false} FirstExists(keys: set<Key>, limit: nat) returns (chosen: set<Key>)
    ensures IsFirst(chosen, keys, limit)
    decreases limit
  {
    if limit == 0 || keys == {} {
      chosen := {};
    } else {
      var least := LeastExists(keys);
      var rest := FirstExists(keys - {least}, limit - 1);
      chosen := rest + {least};
      assert keys - chosen == keys - {least} - rest;
    }
  }

  /** The retrier copies the first records of the bucket. */
  lemma Fetch(s: State, ids: set<Key>, allowed: Step -> bool) returns (t: State)
    requires s.rpc.RIdle? && s.cfg.storage && s.online && s.store != map[]
    requires IsFirst(ids, s.store.Keys, FETCH_LIMIT)
    requires allowed(Ret(RStart)) && allowed(Ret(RFetch(ids)))
    ensures t == s.(rpc := RFetched(0, Select(s.store, ids)))
    ensures Reaches(s, t, allowed)
  {
    var s1 := s.(rpc := RLoop(0));
    ReachStep(s, Ret(RStart), allowed);
    assert Apply(s, Ret(RStart)) == s1;
    t := s.(rpc := RFetched(0, Select(s.store, ids)));
    assert Apply(s1, Ret(RFetch(ids))) == t;
    Next(s, s1, Ret(RFetch(ids)), t, allowed);
  }

  /** The expired copies are deleted, and the others, if there are any, are about to be sent. */
  lemma Split(s: State, now: int, allowed: Step -> bool) returns (t: State)
    requires s.rpc.RFetched? && allowed(Ret(RSplit(now))) && allowed(Ret(RDeleteExpired(true)))
    ensures var got := s.rpc.got;
      var dead := ExpiredKeys(got, now);
      t == Drop(s, dead, Some(now)).(
        rpc := if got - dead == map[] then NextRound(s.rpc.k) else RSending(s.rpc.k, got - dead),
        raced := t.raced)
    ensures Reaches(s, t, allowed)
  {
    var s1 := Apply(s, Ret(RSplit(now)));
    ReachStep(s, Ret(RSplit(now)), allowed);
    t := Apply(s1, Ret(RDeleteExpired(true)));
    Next(s, s1, Ret(RDeleteExpired(true)), t, allowed);
  }

  lemma DropNothing(s: State, now: Option<int>)
    ensures Drop(s, {}, now) == s
  {
    assert s.store - {} == s.store;
  }

  /** None of the copies has expired, so all of them are about to be sent. */
  lemma SplitNone(s: State, now: int, allowed: Step -> bool) returns (t: State)
    requires s.rpc.RFetched? && s.rpc.got != map[] && ExpiredKeys(s.rpc.got, now) == {}
    requires allowed(Ret(RSplit(now))) && allowed(Ret(RDeleteExpired(true)))
    ensures t == s.(rpc := RSending(s.rpc.k, s.rpc.got)) && Reaches(s, t, allowed)
  {
    var s1 := s.(rpc := RExpiring(s.rpc.k, now, {}, s.rpc.got));
    assert s.rpc.got - {} == s.rpc.got;
    ReachStep(s, Ret(RSplit(now)), allowed);
    DropNothing(s1, Some(now));
    t := s.(rpc := RSending(s.rpc.k, s.rpc.got));
    Next(s, s1, Ret(RDeleteExpired(true)), t, allowed);
  }

  /** The batch being retried is accepted. */
  lemma Accept(s0: State, s: State, allowed: Step -> bool) returns (t: State)
    requires Reaches(s0, s, allowed) && s.rpc.RSending? && allowed(Ret(RAccepted))
    ensures t == s.(online := true, delivered := s.delivered + Msgs(s.rpc.live), rpc := RDeleting(s.rpc.k, s.rpc.live))
    ensures Reaches(s0, t, allowed)
  {
    t := s.(online := true, delivered := s.delivered + Msgs(s.rpc.live), rpc := RDeleting(s.rpc.k, s.rpc.live));
    Next(s0, s, Ret(RAccepted), t, allowed);
  }
}
