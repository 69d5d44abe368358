/**
 A call to Publish refines the pipeline machine: it begins, enters the queue or finds it full, and
 stores, by the machine's own steps; and it returns no error exactly when the machine accepts it.
 */
module PublishRefinement {
  import opened Wrappers
  import opened Keys
  import opened Storage
  import opened Messages
  import opened Sending
  import opened Consumer
  import opened Publishing
  import opened Refinement
  import opened ConsumerRefinement
  import P = Pipeline
  import opened PipelineRuns

  /** The name stands for what is kept of the call: its message if queued, the caller's data if stored. */
  ghost predicate NamedFor(c: Setup, n: Naming, p: Posting, s: Snap, x: P.Msg) {
    n.kind(x) ==
      if Offline(s) || |s.queue| >= c.capacity then Kind(DataAsString(c.codec, p.data), p.tags)
      else KindOf(c.codec, MessageOf(p))
  }

  /** The call is over: begun, and no longer waiting; and what was accepted besides is as before. */
  ghost predicate Over(q: P.State, t: P.State, x: P.Msg, ok: bool) {
    && x in t.seen && x !in t.pubs && t.accepted == (if ok then q.accepted + {x} else q.accepted)
    && t.cpc == q.cpc && SamePast(q, t)
  }

  lemma StoreStep(q: P.State, x: P.Msg, key: Key, now: int, ok: bool) returns (t: P.State)
    requires x in q.pubs && q.pubs[x] == P.ToStore
    ensures Reaches(q, t, Any)
    ensures t.store == if ok then q.store[key := P.Entry(x, now, P.TTL)] else q.store
    ensures t == q.(pubs := q.pubs - {x}, store := t.store, accepted := if ok then q.accepted + {x} else q.accepted,
                    lost := t.lost, raced := t.raced)
  {
    t := P.PubApply(q, P.PubStore(x, key, now, ok));
    ReachStep(q, P.Pub(P.PubStore(x, key, now, ok)), Any);
  }

  /** A call about to store. */
  lemma StoreRefines(c: Setup, n: Naming, p: Posting, s: Snap, u: Snap, result: Option<PublishError>, x: P.Msg,
                     q: P.State) returns (t: P.State)
    requires Labels(n) && Shows(q, c, n, s) && x in q.pubs && q.pubs[x] == P.ToStore && x in q.seen
    requires n.kind(x) == Kind(DataAsString(c.codec, p.data), p.tags) && x.encodable
    requires u == s.(bucket := u.bucket)
    requires StoredOrRefused(c.codec, p.data, p.tags, p.key, p.now, p.commits, s.bucket, u.bucket, result)
    ensures Reaches(q, t, Any) && Shows(t, c, n, u) && Over(q, t, x, result.None?)
  {
    t := StoreStep(q, x, p.key, p.now, p.commits);
    var v := StoredMessage(DataAsString(c.codec, p.data).value, p.tags, p.now, 3600);
    PutRefines(n, q.store, s.bucket, p.key, P.Entry(x, p.now, P.TTL), v);
    PutSorted(s.bucket, p.key, v);
  }

  /** Offline: it begins at storage, or ends at once because its data cannot be encoded. */
  lemma OfflineRefines(c: Setup, n: Naming, p: Posting, s: Snap, u: Snap, result: Option<PublishError>, x: P.Msg,
                       q: P.State) returns (t: P.State)
    requires Labels(n) && Shows(q, c, n, s) && x !in q.seen && x !in q.pubs && Offline(s)
    requires Posted(c, p, s, u, result) && NamedFor(c, n, p, s, x)
    ensures Reaches(q, t, Any) && Shows(t, c, n, u) && Over(q, t, x, result.None?)
  {
    var r := P.PubApply(q, P.PubBegin(x));
    ReachStep(q, P.Pub(P.PubBegin(x)), Any);
    if x.encodable {
      t := StoreRefines(c, n, p, s, u, result, x, r);
      ReachTrans(q, r, t, Any);
    } else {
      t := r;
      assert s.(bucket := s.bucket) == s;
    }
  }

  /** Online: it begins at the queue, and stores only when there is no room. */
  lemma QueueRefines(c: Setup, n: Naming, p: Posting, s: Snap, u: Snap, result: Option<PublishError>, x: P.Msg,
                     q: P.State) returns (t: P.State)
    requires Labels(n) && Shows(q, c, n, s) && x !in q.seen && x !in q.pubs && !Offline(s)
    requires Posted(c, p, s, u, result) && NamedFor(c, n, p, s, x)
    ensures Reaches(q, t, Any) && Shows(t, c, n, u) && Over(q, t, x, result.None?)
  {
    var r := P.PubApply(q, P.PubBegin(x));
    ReachStep(q, P.Pub(P.PubBegin(x)), Any);
    var w := P.PubApply(r, P.PubEnqueue(x));
    Next(q, r, P.Pub(P.PubEnqueue(x)), w, Any);
    if |s.queue| < c.capacity {
      NamedConcat(n, q.queue, s.queue, [x], [MessageOf(p)]);
      t := w;
    } else if x.encodable {
      t := StoreRefines(c, n, p, s, u, result, x, w);
      ReachTrans(q, w, t, Any);
    } else {
      t := w;
      assert s.(bucket := s.bucket) == s;
    }
  }

  /** Every call that awaits no response, in managed mode with storage on, is a run of the machine. */
  lemma PublishRefines(c: Setup, n: Naming, p: Posting, s: Snap, u: Snap, result: Option<PublishError>, x: P.Msg,
                       q: P.State) returns (t: P.State)
    requires Labels(n) && Shows(q, c, n, s) && x !in q.seen && x !in q.pubs
    requires Posted(c, p, s, u, result) && NamedFor(c, n, p, s, x)
    ensures Reaches(q, t, Any) && Shows(t, c, n, u) && Over(q, t, x, result.None?)
  {
    if Offline(s) {
      t := OfflineRefines(c, n, p, s, u, result, x, q);
    } else {
      t := QueueRefines(c, n, p, s, u, result, x, q);
    }
  }

  /** One that awaits its response is a direct send: the machine hears what its attempts reported. */
  lemma DirectRefines(c: Setup, n: Naming, s: Snap, m: Message, net: Network, attempts: nat, q: P.State)
    returns (t: P.State)
    requires Shows(q, c, n, s)
    ensures Reaches(q, t, Any) && t == q.(online := t.online)
    ensures Shows(t, c, n, s.(wire := s.wire + [[m]], trace := s.trace + Reports(net.replies, net.clock, attempts)))
  {
    var reports := Reports(net.replies, net.clock, attempts);
    OnlineAfter(s.trace, reports);
    if reports == [] {
      t := q;
      NoSteps(q);
    } else {
      var up := reports[|reports| - 1].online;
      t := P.EnvApply(q, P.DirectSend(up));
      ReachStep(q, P.Env(P.DirectSend(up)), Any);
    }
  }
}
