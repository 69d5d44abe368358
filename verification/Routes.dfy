/** Routing of inbound messages: first match wins, and handlers may register routes while they run. */
module Routes {
  import opened Wrappers
  import opened Connectivity

  datatype Incoming = Incoming(msgType: string, source: string, tags: seq<string>, data: string)

  /** A registered callback, by identity; a nil one is None. */
  type Callback = nat

  datatype Route = Route(
    msgType: string, tag: string, tags: seq<string>, tagsAll: seq<string>, handler: Option<Callback>)

  // ---- Matching ----

  /** All criteria that are set must hold: the type, the tag, any of tags, all of tagsAll. */
  ghost predicate Matches(route: Route, msg: Incoming) {
    && (route.msgType == "" || msg.msgType == route.msgType)
    && (route.tag == "" || route.tag in msg.tags)
    && (route.tags == [] || exists t :: t in route.tags && t in msg.tags)
    && (forall t :: t in route.tagsAll ==> t in msg.tags)
  }

  method ContainsTag(msgTags: seq<string>, tag: string) returns (found: bool)
    ensures found <==> tag in msgTags
  {
    for i := 0 to |msgTags|
      invariant tag !in msgTags[..i]
    {
      if msgTags[i] == tag {
        return true;
      }
    }
    return false;
  }

  method AnyTag(msgTags: seq<string>, tags: seq<string>) returns (found: bool)
    ensures found <==> exists t :: t in tags && t in msgTags
  {
    for i := 0 to |tags|
      invariant forall t :: t in tags[..i] ==> t !in msgTags
    {
      var contains := ContainsTag(msgTags, tags[i]);
      if contains {
        return true;
      }
    }
    return false;
  }

  method AllTags(msgTags: seq<string>, tags: seq<string>) returns (all: bool)
    ensures all <==> forall t :: t in tags ==> t in msgTags
  {
    for i := 0 to |tags|
      invariant forall t :: t in tags[..i] ==> t in msgTags
    {
      var contains := ContainsTag(msgTags, tags[i]);
      if !contains {
        return false;
      }
    }
    return true;
  }

  method RouteMatches(route: Route, msg: Incoming) returns (matches: bool)
    ensures matches <==> Matches(route, msg)
    ensures route.msgType != "" && msg.msgType != route.msgType ==> !matches
    ensures route.tag != "" && route.tag !in msg.tags ==> !matches
    ensures route.tags != [] && (forall t :: t in route.tags ==> t !in msg.tags) ==> !matches
    ensures (exists t :: t in route.tagsAll && t !in msg.tags) ==> !matches
    ensures !matches ==>
      || (route.msgType != "" && msg.msgType != route.msgType) || (route.tag != "" && route.tag !in msg.tags)
      || (route.tags != [] && forall t :: t in route.tags ==> t !in msg.tags)
      || exists t :: t in route.tagsAll && t !in msg.tags
  {
    if route.msgType != "" && msg.msgType != route.msgType {
      return false;
    }
    if route.tag != "" {
      var contains := ContainsTag(msg.tags, route.tag);
      if !contains {
        return false;
      }
    }
    if |route.tags| > 0 {
      var any := AnyTag(msg.tags, route.tags);
      if !any {
        return false;
      }
    }
    if |route.tagsAll| > 0 {
      var all := AllTags(msg.tags, route.tagsAll);
      if !all {
        return false;
      }
    }
    return true;
  }

  // ---- Choosing a handler ----

  ghost function FirstMatch(routes: seq<Route>, msg: Incoming): (first: Option<nat>)
    ensures first.Some? ==> first.value < |routes| && Matches(routes[first.value], msg)
    ensures forall i :: 0 <= i < (if first.Some? then first.value else |routes|) ==> !Matches(routes[i], msg)
  {
    if routes == [] then None else
    var init := FirstMatch(routes[..|routes| - 1], msg);
    if init.Some? then init else if Matches(routes[|routes| - 1], msg) then Some(|routes| - 1) else None
  }

  ghost predicate NoNil(routes: seq<Route>) { forall r :: r in routes ==> r.handler.Some? }

  /** The handlers registered at one moment. */
  datatype Registry = Registry(routes: seq<Route>, defaultHandler: Option<Callback>, callback: Option<Callback>)

  /** Who gets a message, if anyone. */
  ghost function Chosen(r: Registry, msg: Incoming): Option<Callback> {
    var first := FirstMatch(r.routes, msg);
    if first.Some? then r.routes[first.value].handler
    else if r.defaultHandler.Some? then r.defaultHandler else r.callback
  }

  /** No route before the i-th matches. */
  ghost predicate NoneBefore(r: Registry, msg: Incoming, i: nat)
    requires i <= |r.routes|
  {
    forall j :: 0 <= j < i ==> !Matches(r.routes[j], msg)
  }

  /** The first route that matches gets the message; failing that, the default handler; failing that, the callback. */
  lemma ChosenIs(r: Registry, msg: Incoming, i: nat)
    ensures i < |r.routes| && Matches(r.routes[i], msg) && NoneBefore(r, msg, i) ==>
      Chosen(r, msg) == r.routes[i].handler
    ensures NoneBefore(r, msg, |r.routes|) ==>
      && (r.defaultHandler.Some? ==> Chosen(r, msg) == r.defaultHandler)
      && (r.defaultHandler.None? && r.callback.Some? ==> Chosen(r, msg) == r.callback)
      && (r.defaultHandler.None? && r.callback.None? ==> Chosen(r, msg) == None)
  {
    var first := FirstMatch(r.routes, msg);
    if i < |r.routes| && Matches(r.routes[i], msg) && NoneBefore(r, msg, i) {
      assert first.Some? && first.value == i;
    }
  }

  /** A message matched by a route keeps that route's handler, however many routes are added. */
  lemma MatchIsStable(r: Registry, later: Registry, msg: Incoming)
    requires r.routes <= later.routes && FirstMatch(r.routes, msg).Some?
    ensures FirstMatch(later.routes, msg) == FirstMatch(r.routes, msg) && Chosen(later, msg) == Chosen(r, msg)
  {
    var i := FirstMatch(r.routes, msg).value;
    assert Matches(later.routes[i], msg);
    var j := FirstMatch(later.routes, msg).value;
    assert later.routes[j] == r.routes[j];
  }

  // ---- Handlers ----

  /** What registration calls can do. */
  datatype Registration =
    | AddRoute(route: Route)
    | SetDefault(handler: Option<Callback>)
    | SetCallback(handler: Option<Callback>)

  function Register1(r: Registry, op: Registration): Registry {
    match op
    case AddRoute(route) => if route.handler.Some? then r.(routes := r.routes + [route]) else r
    case SetDefault(handler) => r.(defaultHandler := handler)
    case SetCallback(handler) => r.(callback := handler)
  }

  function RegisterAll(r: Registry, ops: seq<Registration>): Registry {
    if ops == [] then r else Register1(RegisterAll(r, ops[..|ops| - 1]), ops[|ops| - 1])
  }

  lemma {:induction false} RoutesOnlyGrow(r: Registry, ops: seq<Registration>)
    ensures r.routes <= RegisterAll(r, ops).routes
  {
    if ops != [] {
      RoutesOnlyGrow(r, ops[..|ops| - 1]);
    }
  }

  /** This call registers the route: routes without a handler are not registered. */
  predicate Adds(op: Registration, route: Route) { op == AddRoute(route) && route.handler.Some? }

  /** Registration calls add exactly their routes. */
  lemma {:induction false} RoutesAdded(r: Registry, ops: seq<Registration>, route: Route)
    ensures route in RegisterAll(r, ops).routes <==>
      route in r.routes || exists i :: 0 <= i < |ops| && Adds(ops[i], route)
  {
    if ops != [] {
      var n := |ops| - 1;
      RoutesAdded(r, ops[..n], route);
      if exists i :: 0 <= i < |ops[..n]| && Adds(ops[..n][i], route) {
        var i :| 0 <= i < |ops[..n]| && Adds(ops[..n][i], route);
        assert Adds(ops[i], route);
      }
      if exists i :: 0 <= i < |ops| && Adds(ops[i], route) && !Adds(ops[n], route) {
        var i :| 0 <= i < |ops| && Adds(ops[i], route) && !Adds(ops[n], route);
        assert Adds(ops[..n][i], route);
      }
    }
  }

  /** The default handler is the last one set, or the one there was. */
  lemma {:induction false} LastDefault(r: Registry, ops: seq<Registration>, i: nat)
    requires i <= |ops| && forall j :: i <= j < |ops| ==> !ops[j].SetDefault?
    ensures i == 0 ==> RegisterAll(r, ops).defaultHandler == r.defaultHandler
    ensures i > 0 && ops[i - 1].SetDefault? ==> RegisterAll(r, ops).defaultHandler == ops[i - 1].handler
    decreases |ops|
  {
    if i < |ops| {
      LastDefault(r, ops[..|ops| - 1], i);
    }
  }

  /** So is the callback. */
  lemma {:induction false} LastCallback(r: Registry, ops: seq<Registration>, i: nat)
    requires i <= |ops| && forall j :: i <= j < |ops| ==> !ops[j].SetCallback?
    ensures i == 0 ==> RegisterAll(r, ops).callback == r.callback
    ensures i > 0 && ops[i - 1].SetCallback? ==> RegisterAll(r, ops).callback == ops[i - 1].handler
    decreases |ops|
  {
    if i < |ops| {
      LastCallback(r, ops[..|ops| - 1], i);
    }
  }

  /** One received message: what others register just before it is dispatched, and what its handler does. */
  datatype Delivery = Delivery(msg: Incoming, before: seq<Registration>, during: seq<Registration>, fails: bool)

  datatype Call = Call(handler: Callback, msg: Incoming)

  /** The registry a message finds when it is dispatched as the i-th of a page, and who gets it. */
  ghost function RegistryAt(r: Registry, page: seq<Delivery>, i: nat): Registry
    requires i < |page|
  {
    RegisterAll(if i == 0 then r else After(r, page, i - 1), page[i].before)
  }

  ghost function PickAt(r: Registry, page: seq<Delivery>, i: nat): Option<Callback>
    requires i < |page|
  {
    Chosen(RegistryAt(r, page, i), page[i].msg)
  }

  /** The registry once message i has been dealt with. */
  ghost function After(r: Registry, page: seq<Delivery>, i: nat): Registry
    requires i < |page|
    decreases i, 1
  {
    var now := RegisterAll(if i == 0 then r else After(r, page, i - 1), page[i].before);
    if Chosen(now, page[i].msg).Some? then RegisterAll(now, page[i].during) else now
  }

  /** The calls the first n messages of a page lead to: one each, in order, where someone is registered. */
  ghost function CallsFor(r: Registry, page: seq<Delivery>, n: nat): seq<Call>
    requires n <= |page|
  {
    if n == 0 then [] else
    var pick := PickAt(r, page, n - 1);
    CallsFor(r, page, n - 1) + if pick.Some? then [Call(pick.value, page[n - 1].msg)] else []
  }

  lemma CallsNext(r: Registry, page: seq<Delivery>, i: nat, before: seq<Call>)
    requires i < |page|
    ensures var pick := PickAt(r, page, i);
      before + CallsFor(r, page, i + 1) ==
        before + CallsFor(r, page, i) + if pick.Some? then [Call(pick.value, page[i].msg)] else []
  {
  }

  lemma {:induction false} AfterOnlyGrows(r: Registry, page: seq<Delivery>, i: nat)
    requires i < |page|
    ensures r.routes <= RegistryAt(r, page, i).routes <= After(r, page, i).routes
  {
    if i > 0 {
      AfterOnlyGrows(r, page, i - 1);
    }
    RoutesOnlyGrow(if i == 0 then r else After(r, page, i - 1), page[i].before);
    RoutesOnlyGrow(RegistryAt(r, page, i), page[i].during);
  }

  lemma {:induction false} LaterKeepsRoutes(r: Registry, page: seq<Delivery>, i: nat, j: nat)
    requires i < j < |page|
    ensures After(r, page, i).routes <= RegistryAt(r, page, j).routes
    decreases j
  {
    RoutesOnlyGrow(After(r, page, j - 1), page[j].before);
    if i < j - 1 {
      LaterKeepsRoutes(r, page, i, j - 1);
      AfterOnlyGrows(r, page, j - 1);
    }
  }

  /** What a handler registers while it runs is there for the later messages of the page. */
  lemma RegisteredWhileHandled(r: Registry, page: seq<Delivery>, i: nat, j: nat, op: Registration)
    requires i < j < |page| && PickAt(r, page, i).Some? && op in page[i].during
    requires op.AddRoute? && op.route.handler.Some?
    ensures op.route in RegistryAt(r, page, j).routes
  {
    var k :| 0 <= k < |page[i].during| && page[i].during[k] == op;
    assert Adds(page[i].during[k], op.route);
    RoutesAdded(RegistryAt(r, page, i), page[i].during, op.route);
    LaterKeepsRoutes(r, page, i, j);
  }

  /**
   A message that some route matches before the page is handled goes to the first such route's
   handler, whatever is registered while earlier messages are handled.
   */
  lemma MatchedAtStartKeepsItsRoute(r: Registry, page: seq<Delivery>, i: nat)
    requires i < |page| && FirstMatch(r.routes, page[i].msg).Some?
    ensures PickAt(r, page, i) == Chosen(r, page[i].msg) == r.routes[FirstMatch(r.routes, page[i].msg).value].handler
  {
    AfterOnlyGrows(r, page, i);
    MatchIsStable(r, RegistryAt(r, page, i), page[i].msg);
  }

  /** These calls are those of the messages at these places. */
  ghost predicate CallsOf(r: Registry, page: seq<Delivery>, at: seq<nat>, calls: seq<Call>) {
    && |at| == |calls|
    && (forall k :: 0 <= k < |at| ==> at[k] < |page| && PickAt(r, page, at[k]).Some?)
    && forall k :: 0 <= k < |at| ==> calls[k] == Call(PickAt(r, page, at[k]).value, page[at[k]].msg)
  }

  /** The places are below n, and in order. */
  ghost predicate Ascending(at: seq<nat>, n: nat) {
    (forall k :: 0 <= k < |at| ==> at[k] < n) && forall k, l :: 0 <= k < l < |at| ==> at[k] < at[l]
  }

  /** No message with a taker is missing. */
  ghost predicate AllTake(r: Registry, page: seq<Delivery>, n: nat, at: seq<nat>)
    requires n <= |page|
  {
    forall i: nat :: i < n && PickAt(r, page, i).Some? ==> i in at
  }

  /** at lists, in order, the first n messages that have a taker, and their calls are the ones made. */
  ghost predicate Takers(r: Registry, page: seq<Delivery>, n: nat, at: seq<nat>)
    requires n <= |page|
  {
    CallsOf(r, page, at, CallsFor(r, page, n)) && Ascending(at, n) && AllTake(r, page, n, at)
  }

  lemma OneMoreCall(r: Registry, page: seq<Delivery>, at: seq<nat>, calls: seq<Call>, i: nat)
    requires CallsOf(r, page, at, calls) && i < |page| && PickAt(r, page, i).Some?
    ensures CallsOf(r, page, at + [i], calls + [Call(PickAt(r, page, i).value, page[i].msg)])
  {
  }

  lemma OneMorePlace(at: seq<nat>, n: nat)
    requires n > 0 && Ascending(at, n - 1)
    ensures Ascending(at + [n - 1], n)
  {
  }

  lemma OneTakes(r: Registry, page: seq<Delivery>, n: nat, at: seq<nat>)
    requires 0 < n <= |page| && PickAt(r, page, n - 1).Some? && Takers(r, page, n - 1, at)
    ensures Takers(r, page, n, at + [n - 1])
  {
    var was := CallsFor(r, page, n - 1);
    assert CallsFor(r, page, n) == was + [Call(PickAt(r, page, n - 1).value, page[n - 1].msg)];
    OneMoreCall(r, page, at, was, n - 1);
    OneMorePlace(at, n);
    NoneMissed(r, page, n, at);
  }

  lemma NoneMissed(r: Registry, page: seq<Delivery>, n: nat, at: seq<nat>)
    requires 0 < n <= |page| && AllTake(r, page, n - 1, at)
    ensures AllTake(r, page, n, at + [n - 1])
  {
    assert (at + [n - 1])[|at|] == n - 1;
  }

  lemma NoneTakes(r: Registry, page: seq<Delivery>, n: nat, at: seq<nat>)
    requires 0 < n <= |page| && PickAt(r, page, n - 1).None? && Takers(r, page, n - 1, at)
    ensures Takers(r, page, n, at)
  {
    assert CallsFor(r, page, n) == CallsFor(r, page, n - 1);
  }

  lemma NextTakes(r: Registry, page: seq<Delivery>, n: nat, at: seq<nat>) returns (more: seq<nat>)
    requires 0 < n <= |page| && Takers(r, page, n - 1, at)
    ensures Takers(r, page, n, more)
  {
    if PickAt(r, page, n - 1).Some? {
      OneTakes(r, page, n, at);
      more := at + [n - 1];
    } else {
      NoneTakes(r, page, n, at);
      more := at;
    }
  }

  /** The calls follow the order of the page, at most one per message, every message with a taker included. */
  lemma {:induction false} CalledOnceInOrder(r: Registry, page: seq<Delivery>, n: nat) returns (at: seq<nat>)
    requires n <= |page|
    ensures Takers(r, page, n, at)
    decreases n
  {
    if n == 0 {
      at := [];
    } else {
      var before := CalledOnceInOrder(r, page, n - 1);
      at := NextTakes(r, page, n, before);
    }
  }

  /** The reply to a poll for messages: none came, a page of them, an unreadable page, or another status. */
  datatype Reply = NetworkError | NoContent | Messages(page: seq<Delivery>) | Unreadable | OtherStatus

  class Dispatcher {
    const connectivity: ConnectivityState?
    const managed: bool
    const requestable: bool          // the endpoint URL parses
    var routes: seq<Route>
    var defaultHandler: Option<Callback>
    var callback: Option<Callback>
    var locked: bool                 // the running code holds the client's mu
    ghost var calls: seq<Call>

    /** Between operations: mu is free and no registered route lacks a handler. */
    ghost predicate Valid()
      reads this, connectivity
    {
      !locked && NoNil(routes) && (connectivity != null ==> connectivity.Valid())
    }

    ghost function Registered(): Registry
      reads this
    {
      Registry(routes, defaultHandler, callback)
    }

    ghost function Trace(): seq<Change>
      reads this, connectivity
    {
      if connectivity == null then [] else connectivity.trace
    }

    predicate HasMessageHandlers()
      reads this
    {
      |routes| > 0 || defaultHandler.Some? || callback.Some?
    }

    method Lock()
      requires !locked
      modifies this`locked
      ensures locked
    {
      locked := true;
    }

    method Unlock()
      requires locked
      modifies this`locked
      ensures !locked
    {
      locked := false;
    }

    method On(route: Route)
      requires Valid()
      modifies this`routes, this`locked
      ensures Valid() && Registered() == Register1(old(Registered()), AddRoute(route))
      ensures routes == if route.handler.Some? then old(routes) + [route] else old(routes)
    {
      if route.handler.None? {
        return;
      }
      Lock();
      routes := routes + [route];
      Unlock();
    }

    method OnDefault(handler: Option<Callback>)
      requires Valid()
      modifies this`defaultHandler, this`locked
      ensures Valid() && Registered() == Register1(old(Registered()), SetDefault(handler))
      ensures defaultHandler == handler
    {
      Lock();
      defaultHandler := handler;
      Unlock();
    }

    method SetMessageCallback(handler: Option<Callback>)
      requires Valid()
      modifies this`callback, this`locked
      ensures Valid() && Registered() == Register1(old(Registered()), SetCallback(handler))
      ensures callback == handler
    {
      Lock();
      callback := handler;
      Unlock();
    }

    method Register(ops: seq<Registration>)
      requires Valid()
      modifies this`routes, this`defaultHandler, this`callback, this`locked
      ensures Valid() && Registered() == RegisterAll(old(Registered()), ops)
    {
      for i := 0 to |ops|
        invariant Valid() && Registered() == RegisterAll(old(Registered()), ops[..i])
      {
        assert ops[..i + 1][..i] == ops[..i];
        match ops[i]
        case AddRoute(route) => On(route);
        case SetDefault(handler) => OnDefault(handler);
        case SetCallback(handler) => SetMessageCallback(handler);
      }
      assert ops[..|ops|] == ops;
    }

    /** User code: it runs with mu free, so it may register routes itself. */
    method RunHandler(handler: Callback, d: Delivery) returns (ok: bool)
      requires Valid()
      modifies this`routes, this`defaultHandler, this`callback, this`locked, this`calls
      ensures Valid() && Registered() == RegisterAll(old(Registered()), d.during)
      ensures calls == old(calls) + [Call(handler, d.msg)] && ok == !d.fails
    {
      calls := calls + [Call(handler, d.msg)];
      Register(d.during);
      ok := !d.fails;
    }

    /** Calls the one handler chosen among those registered when it starts, if there is one. */
    method DispatchMessage(d: Delivery) returns (ok: bool)
      requires Valid()
      modifies this`routes, this`defaultHandler, this`callback, this`locked, this`calls
      ensures Valid()
      ensures var chosen := Chosen(old(Registered()), d.msg);
        && calls == (if chosen.Some? then old(calls) + [Call(chosen.value, d.msg)] else old(calls))
        && Registered() == (if chosen.Some? then RegisterAll(old(Registered()), d.during) else old(Registered()))
        && ok == !(chosen.Some? && d.fails)
    {
      Lock();
      var snapshot, default, fallback := routes, defaultHandler, callback;
      Unlock();
      for i := 0 to |snapshot|
        invariant Valid() && Registered() == old(Registered()) && snapshot == routes && calls == old(calls)
        invariant forall j :: 0 <= j < i ==> !Matches(snapshot[j], d.msg)
      {
        var matches := RouteMatches(snapshot[i], d.msg);
        if matches {
          assert snapshot[i] in snapshot;
          assert FirstMatch(snapshot, d.msg) == Some(i);
          ok := RunHandler(snapshot[i].handler.value, d);
          return;
        }
      }
      assert FirstMatch(snapshot, d.msg).None?;
      ok := true;
      if default.Some? {
        ok := RunHandler(default.value, d);
      } else if fallback.Some? {
        ok := RunHandler(fallback.value, d);
      }
    }

    method NoteConnectivity(up: bool, now: int)
      requires Valid()
      modifies connectivity
      ensures Valid() && Trace() == old(Trace()) + if managed && connectivity != null then [Change(up, now)] else []
    {
      if managed && connectivity != null {
        connectivity.Update(up, now);
      }
    }

    /** The next message of a page. */
    method DispatchNext(page: seq<Delivery>, i: nat, ghost r: Registry) returns (ok: bool)
      requires Valid() && i < |page| && Registered() == if i == 0 then r else After(r, page, i - 1)
      modifies this`routes, this`defaultHandler, this`callback, this`locked, this`calls
      ensures Valid() && Registered() == After(r, page, i)
      ensures var pick := PickAt(r, page, i);
        calls == old(calls) + if pick.Some? then [Call(pick.value, page[i].msg)] else []
    {
      Register(page[i].before);
      assert Registered() == RegistryAt(r, page, i);
      assert old(calls) + [] == old(calls);
      ok := DispatchMessage(page[i]);
    }

    /** Dispatches a page in order; a handler's error does not stop the rest. */
    method DispatchPage(page: seq<Delivery>)
      requires Valid()
      modifies this`routes, this`defaultHandler, this`callback, this`locked, this`calls
      ensures Valid() && calls == old(calls) + CallsFor(old(Registered()), page, |page|)
    {
      ghost var r := Registered();
      for i := 0 to |page|
        invariant Valid() && calls == old(calls) + CallsFor(r, page, i)
        invariant Registered() == if i == 0 then r else After(r, page, i - 1)
      {
        CallsNext(r, page, i, old(calls));
        var ok := DispatchNext(page, i, r);
        if !ok {
          continue;
        }
      }
    }

    /** One poll for messages. */
    method CheckMessages(reply: Reply, now: int) returns (ok: bool)
      requires Valid()
      modifies this`routes, this`defaultHandler, this`callback, this`locked, this`calls, connectivity
      ensures Valid()
      ensures var asked := old(HasMessageHandlers()) && requestable;
        && calls == (if asked && reply.Messages? then old(calls) + CallsFor(old(Registered()), reply.page, |reply.page|)
                     else old(calls))
        && ok == (!old(HasMessageHandlers()) || (requestable && (reply.NoContent? || reply.Messages?)))
        && Trace() == old(Trace()) + (if asked && managed && connectivity != null && !reply.OtherStatus?
                                      then [Change(!reply.NetworkError?, now)] else [])
    {
      if !HasMessageHandlers() {
        return true;
      }
      if !requestable {
        return false;
      }
      match reply
      case NetworkError =>
        NoteConnectivity(false, now);
        ok := false;
      case NoContent =>
        NoteConnectivity(true, now);
        ok := true;
      case Messages(page) =>
        NoteConnectivity(true, now);
        DispatchPage(page);
        ok := true;
      case Unreadable =>
        NoteConnectivity(true, now);
        ok := false;
      case OtherStatus =>
        ok := false;
    }
  }
}
