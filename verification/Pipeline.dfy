/**
 The store-and-forward pipeline as a state machine: any number of publishers, the queue
 consumer, the offline retrier, cleanup and connectivity updates, interleaved at the level
 of channel operations, storage transactions and HTTP attempts. Server replies, clock
 readings, select choices, transaction failures and record keys are chosen by the step.
 */
module Pipeline {
  import opened Wrappers
  import opened Keys
  import Storage

  const TTL := Storage.TTL
  const FETCH_LIMIT: nat := Storage.ROUND
  const FETCH_ROUNDS: nat := Storage.ROUNDS

  /** One call to Publish; encodable says whether json.Marshal accepts its data. */
  datatype Msg = Msg(id: nat, encodable: bool)

  datatype Entry = Entry(msg: Msg, timestamp: int, ttl: int)

  predicate Expired(e: Entry, now: int) { Storage.PastTtl(e.timestamp, e.ttl, now) }

  datatype Config = Config(capacity: nat, storage: bool, connCheck: bool, handlers: bool, heartbeat: bool)

  /** What the consumer does once the batch in hand has been dealt with. */
  datatype After = ToSelect | ToClean | ToExit

  datatype ConsumerPc =
    | Selecting
    | Sending(after: After)
    | Storing(done: nat, after: After)
    | Cleaning
    | Beating
    | BeatSending
    | Draining
    | Exited

  datatype RetrierPc =
    | RIdle
    | RLoop(k: nat)
    | RFetched(k: nat, got: map<Key, Entry>)
    | RExpiring(k: nat, now: int, dead: set<Key>, live: map<Key, Entry>)
    | RSending(k: nat, live: map<Key, Entry>)
    | RDeleting(k: nat, live: map<Key, Entry>)
    | RExited

  datatype PublisherPc = ToQueue | ToStore

  datatype State = State(
    cfg: Config,
    queue: seq<Msg>,
    batch: seq<Msg>,
    cpc: ConsumerPc,
    store: map<Key, Entry>,
    rpc: RetrierPc,
    pubs: map<Msg, PublisherPc>,
    online: bool,
    stopped: bool,
    // Histories
    seen: set<Msg>,             // every Publish call begun
    accepted: set<Msg>,         // calls that returned without error
    enqueued: seq<Msg>,         // everything that ever entered the queue
    handed: seq<seq<Msg>>,      // batches the consumer is done with
    drainedAt: Option<nat>,     // |enqueued| when the shutdown drain found the queue empty
    delivered: set<Msg>,        // answered 2xx
    expired: set<Msg>,          // left storage undelivered, past its TTL at the reading used
    lost: set<Msg>,             // dropped in any other way
    raced: set<Msg>,            // left storage while the retrier held a copy
    undeleted: set<Msg>         // answered 2xx, but the delete that follows failed
  )

  datatype PubStep =
    | PubBegin(m: Msg)
    | PubEnqueue(m: Msg)
    | PubStore(m: Msg, key: Key, now: int, ok: bool)

  datatype ConStep =
    | CReceive(threshold: nat)
    | CTick
    | CStop
    | CDrainTake
    | CDrainEnd
    | CNetError
    | CAccepted
    | CGiveUp
    | CStore(key: Key, now: int, ok: bool)
    | CFinish
    | CClean(now: int, ok: bool)
    | CBeat
    | CBeatSkip
    | CBeatNetError
    | CBeatDone(accepted: bool)

  datatype RetStep =
    | RStart
    | RFetch(ids: set<Key>)
    | RAbort
    | RSplit(now: int)
    | RDeleteExpired(ok: bool)
    | RNetError
    | RAccepted
    | RGiveUp
    | RDeleteSent(ok: bool)
    | RExit

  datatype EnvStep =
    | DirectSend(up: bool)
    | Check(up: bool)
    | Poll(up: bool)
    | StopClient

  datatype Step = Pub(p: PubStep) | Con(c: ConStep) | Ret(r: RetStep) | Env(e: EnvStep)

  // ---- Parts of the state ----

  /** How much of the batch in hand has already been stored or dropped. */
  function DoneCount(pc: ConsumerPc): nat { if pc.Storing? then pc.done else 0 }

  /** Messages only the consumer side still holds: the unprocessed batch, then the queue. */
  ghost function Held(s: State): seq<Msg> {
    if DoneCount(s.cpc) <= |s.batch| then s.batch[DoneCount(s.cpc)..] + s.queue else s.queue
  }

  function Msgs(m: map<Key, Entry>): set<Msg> { set k | k in m :: m[k].msg }

  /** The records the retrier has copied out and may still send or delete. */
  function LocalCopy(pc: RetrierPc): map<Key, Entry> {
    match pc
    case RFetched(_, got) => got
    case RExpiring(_, _, _, live) => live
    case RSending(_, live) => live
    case RDeleting(_, live) => live
    case _ => map[]
  }

  /** Between a 2xx for a retried batch and the delete that follows it. */
  function Window(s: State): set<Msg> {
    if s.rpc.RDeleting? then Msgs(s.rpc.live) else {}
  }

  // ---- Effects ----

  /**
   Remove the records at ks. With a clock reading, undelivered records past their TTL count
   as expired; any other undelivered record counts as lost.
   */
  function Drop(s: State, ks: set<Key>, now: Option<int>): State {
    var gone := set k | k in s.store && k in ks && s.store[k].msg !in s.delivered :: s.store[k].msg;
    var aged := set k | k in s.store && k in ks && s.store[k].msg !in s.delivered
                       && now.Some? && Expired(s.store[k], now.value) :: s.store[k].msg;
    s.(store := s.store - ks,
       expired := s.expired + aged,
       lost := s.lost + (gone - aged),
       raced := s.raced + gone * Msgs(LocalCopy(s.rpc)))
  }

  /** The records of a map at the chosen keys. */
  function Select(m: map<Key, Entry>, ids: set<Key>): map<Key, Entry> {
    map k | k in m && k in ids :: m[k]
  }

  function ExpiredKeys(m: map<Key, Entry>, now: int): set<Key> {
    set k | k in m && Expired(m[k], now)
  }

  function Put(s: State, key: Key, e: Entry): State {
    var d := Drop(s, {key}, None);
    d.(store := d.store[key := e])
  }

  function Resume(after: After): ConsumerPc {
    match after
    case ToSelect => Selecting
    case ToClean => Cleaning
    case ToExit => Exited
  }

  function NextRound(k: nat): RetrierPc {
    if k + 1 < FETCH_ROUNDS then RLoop(k + 1) else RIdle
  }

  predicate Encodable(batch: seq<Msg>) { forall m :: m in batch ==> m.encodable }

  // ---- Publish ----

  predicate PubEnabled(s: State, p: PubStep) {
    match p
    case PubBegin(m) => m !in s.seen
    case PubEnqueue(m) => m in s.pubs && s.pubs[m].ToQueue?
    case PubStore(m, _, _, _) => m in s.pubs && s.pubs[m].ToStore?
  }

  function PubApply(s: State, p: PubStep): State
    requires PubEnabled(s, p)
  {
    match p
    case PubBegin(m) =>
      var begun := s.(seen := s.seen + {m});
      if s.cfg.storage && !s.online then
        if m.encodable then begun.(pubs := s.pubs[m := ToStore]) else begun
      else begun.(pubs := s.pubs[m := ToQueue])
    case PubEnqueue(m) =>
      if |s.queue| < s.cfg.capacity then
        s.(queue := s.queue + [m], enqueued := s.enqueued + [m], accepted := s.accepted + {m}, pubs := s.pubs - {m})
      else if s.cfg.storage && m.encodable then s.(pubs := s.pubs[m := ToStore])
      else s.(pubs := s.pubs - {m})
    case PubStore(m, key, now, ok) =>
      var rest := s.(pubs := s.pubs - {m});
      if ok then Put(rest, key, Entry(m, now, TTL)).(accepted := s.accepted + {m}) else rest
  }

  // ---- processQueue ----

  predicate ConEnabled(s: State, c: ConStep) {
    match c
    case CReceive(_) => s.cpc.Selecting? && s.queue != []
    case CTick => s.cpc.Selecting?
    case CStop => s.cpc.Selecting? && s.stopped
    case CDrainTake => s.cpc.Draining? && s.queue != []
    case CDrainEnd => s.cpc.Draining? && s.queue == []
    case CNetError => s.cpc.Sending? && Encodable(s.batch)
    case CAccepted => s.cpc.Sending? && Encodable(s.batch)
    case CGiveUp => s.cpc.Sending?
    case CStore(_, _, _) => s.cpc.Storing? && s.cpc.done < |s.batch|
    case CFinish => s.cpc.Storing? && s.cpc.done >= |s.batch|
    case CClean(_, _) => s.cpc.Cleaning?
    case CBeat => s.cpc.Beating? && s.cfg.heartbeat && s.online
    case CBeatSkip => s.cpc.Beating?
    case CBeatNetError => s.cpc.BeatSending?
    case CBeatDone(_) => s.cpc.BeatSending?
  }

  function ConApply(s: State, c: ConStep): State
    requires ConEnabled(s, c)
  {
    match c
    case CReceive(threshold) =>
      var batch := s.batch + [s.queue[0]];
      s.(queue := s.queue[1..], batch := batch, cpc := if |batch| >= threshold then Sending(ToSelect) else Selecting)
    case CTick => s.(cpc := if s.batch != [] then Sending(ToClean) else Cleaning)
    case CStop => s.(cpc := Draining)
    case CDrainTake => s.(queue := s.queue[1..], batch := s.batch + [s.queue[0]])
    case CDrainEnd =>
      s.(drainedAt := Some(|s.enqueued|), cpc := if s.batch != [] then Sending(ToExit) else Exited)
    case CNetError => s.(online := false)
    case CAccepted =>
      s.(online := true, delivered := s.delivered + Elements(s.batch),
         handed := s.handed + [s.batch], batch := [], cpc := Resume(s.cpc.after))
    case CGiveUp => s.(cpc := Storing(0, s.cpc.after))
    case CStore(key, now, ok) =>
      var m := s.batch[s.cpc.done];
      var next := s.(cpc := Storing(s.cpc.done + 1, s.cpc.after));
      if s.cfg.storage && m.encodable && ok then Put(next, key, Entry(m, now, TTL))
      else next.(lost := s.lost + {m})
    case CFinish => s.(handed := s.handed + [s.batch], batch := [], cpc := Resume(s.cpc.after))
    case CClean(now, ok) =>
      var swept := if s.cfg.storage && ok then Drop(s, ExpiredKeys(s.store, now), Some(now)) else s;
      swept.(cpc := Beating)
    case CBeat => s.(cpc := BeatSending)
    case CBeatSkip => s.(cpc := Selecting)
    case CBeatNetError => s.(online := false)
    case CBeatDone(accepted) => s.(online := s.online || accepted, cpc := Selecting)
  }

  // ---- processOfflineRetries ----

  ghost predicate RetEnabled(s: State, r: RetStep) {
    match r
    case RStart => s.rpc.RIdle? && s.cfg.storage && s.online
    case RFetch(ids) => s.rpc.RLoop? && s.store != map[] && IsFirst(ids, s.store.Keys, FETCH_LIMIT)
    case RAbort => s.rpc.RLoop?
    case RSplit(_) => s.rpc.RFetched?
    case RDeleteExpired(_) => s.rpc.RExpiring?
    case RNetError => s.rpc.RSending?
    case RAccepted => s.rpc.RSending?
    case RGiveUp => s.rpc.RSending?
    case RDeleteSent(_) => s.rpc.RDeleting?
    case RExit => s.rpc.RIdle? && s.stopped
  }

  ghost function RetApply(s: State, r: RetStep): State
    requires RetEnabled(s, r)
  {
    match r
    case RStart => s.(rpc := RLoop(0))
    case RFetch(ids) => s.(rpc := RFetched(s.rpc.k, Select(s.store, ids)))
    case RAbort => s.(rpc := RIdle)
    case RSplit(now) =>
      var got := s.rpc.got;
      s.(rpc := RExpiring(s.rpc.k, now, ExpiredKeys(got, now), got - ExpiredKeys(got, now)))
    case RDeleteExpired(ok) =>
      var swept := if ok then Drop(s, s.rpc.dead, Some(s.rpc.now)) else s;
      swept.(rpc := if s.rpc.live == map[] then NextRound(s.rpc.k) else RSending(s.rpc.k, s.rpc.live))
    case RNetError => s.(online := false)
    case RAccepted =>
      s.(online := true, delivered := s.delivered + Msgs(s.rpc.live), rpc := RDeleting(s.rpc.k, s.rpc.live))
    case RGiveUp => s.(rpc := RIdle)
    case RDeleteSent(ok) =>
      var swept := if ok then Drop(s, s.rpc.live.Keys, None)
                   else s.(undeleted := s.undeleted + Msgs(s.rpc.live));
      swept.(rpc := NextRound(s.rpc.k))
    case RExit => s.(rpc := RExited)
  }

  // ---- Direct sends, connectivity checks, inbound polls, Stop ----

  predicate EnvEnabled(s: State, e: EnvStep) {
    match e
    case DirectSend(_) => true
    case Check(_) => s.cfg.connCheck
    case Poll(_) => s.cfg.handlers
    case StopClient => !s.stopped
  }

  function EnvApply(s: State, e: EnvStep): State {
    match e
    case DirectSend(up) => s.(online := up)
    case Check(up) => s.(online := up)
    case Poll(up) => s.(online := up)
    case StopClient => s.(stopped := true)
  }

  ghost predicate Enabled(s: State, step: Step) {
    match step
    case Pub(p) => PubEnabled(s, p)
    case Con(c) => ConEnabled(s, c)
    case Ret(r) => RetEnabled(s, r)
    case Env(e) => EnvEnabled(s, e)
  }

  ghost function Apply(s: State, step: Step): State
    requires Enabled(s, step)
  {
    match step
    case Pub(p) => PubApply(s, p)
    case Con(c) => ConApply(s, c)
    case Ret(r) => RetApply(s, r)
    case Env(e) => EnvApply(s, e)
  }

  // ---- Runs ----

  /**
   A client just started on a store that may hold records already: those count as accepted, each
   as a message of its own.
   */
  ghost predicate Opened(s: State) {
    && s.queue == [] && s.batch == [] && s.cpc == Selecting && s.rpc == RIdle
    && s.pubs == map[] && s.online && !s.stopped
    && OneKey(s.store) && (!s.cfg.storage ==> s.store == map[])
    && s.seen == s.accepted == Msgs(s.store) && s.enqueued == [] && s.handed == [] && s.drainedAt == None
    && s.delivered == {} && s.expired == {} && s.lost == {} && s.raced == {} && s.undeleted == {}
  }

  /** A client started on an empty store. */
  ghost predicate Init(s: State) { Opened(s) && s.store == map[] && s.seen == s.accepted == {} }

  ghost predicate IsRun(s: State, steps: seq<Step>)
    decreases |steps|
  {
    steps == [] || (Enabled(s, steps[0]) && IsRun(Apply(s, steps[0]), steps[1..]))
  }

  ghost function Exec(s: State, steps: seq<Step>): State
    requires IsRun(s, steps)
    decreases |steps|
  {
    if steps == [] then s else Exec(Apply(s, steps[0]), steps[1..])
  }

  // ---- Order: what entered the queue leaves it in order ----

  ghost predicate Ordered(s: State) {
    && s.enqueued == Concat(s.handed) + s.batch + s.queue
    && |s.queue| <= s.cfg.capacity
    && NoDup(s.enqueued)
    && (s.cpc.Sending? ==> s.batch != [])
    && (s.cpc.Storing? ==> s.cpc.done <= |s.batch|)
    && (s.cpc.Cleaning? || s.cpc.Beating? || s.cpc.BeatSending? || s.cpc.Exited? ==> s.batch == [])
  }

  /** Once the drain has found the queue empty, the consumer owes exactly what was enqueued by then. */
  ghost predicate Drained(s: State) {
    var last := s.cpc.Exited? || (s.cpc.Sending? && s.cpc.after.ToExit?) || (s.cpc.Storing? && s.cpc.after.ToExit?);
    && (last <==> s.drainedAt.Some?)
    && (last ==> s.drainedAt.value <= |s.enqueued|
                 && Concat(s.handed) + s.batch == s.enqueued[..s.drainedAt.value])
  }

  // ---- Bookkeeping: where every accepted message is ----

  ghost predicate OneKey(store: map<Key, Entry>) {
    forall k, k' :: k in store && k' in store && k != k' ==> store[k].msg != store[k'].msg
  }

  /**
   Every accepted message is held, stored, or in a history; hand is what the current step has
   taken out of one place and not yet put in the next, {} between steps.
   */
  ghost predicate Books(s: State, hand: set<Msg>) {
    var held := Elements(Held(s));
    var stored := Msgs(s.store);
    var done := s.delivered + s.expired + s.lost;
    && OneKey(s.store)
    && held !! stored
    && held !! done
    && hand !! held + stored + done
    && stored !! s.expired + s.lost
    && s.expired !! s.lost
    && s.accepted == hand + held + stored + done
    && stored * s.delivered <= Window(s) + s.undeleted
    && (s.expired + s.lost) * s.delivered <= s.raced
    && s.raced <= s.expired + s.lost
  }

  /** Calls to Publish still under way have not been accepted. */
  ghost predicate Calls(s: State) {
    && s.accepted <= s.seen && s.pubs.Keys <= s.seen && s.accepted !! s.pubs.Keys
    && forall m :: m in s.enqueued ==> m in s.accepted
  }

  /** The retrier's copies are of accepted messages, current unless their record has gone. */
  ghost predicate Copies(s: State, hand: set<Msg>) {
    var local := LocalCopy(s.rpc);
    forall k :: k in local ==>
      && local[k].msg in s.accepted
      && local[k].msg !in Elements(Held(s)) + hand
      && (local[k].msg in Msgs(s.store) ==> k in s.store && s.store[k] == local[k])
      && (local[k].msg in s.expired + s.lost ==> local[k].msg in s.raced)
  }

  ghost predicate Inv(s: State) {
    Ordered(s) && Drained(s) && Calls(s) && Books(s, {}) && Copies(s, {})
  }
}
