/** The connection manager of src/services/socket.ts: one shared service
    holding the real-time transport (present or absent), a connected flag and
    the last error message. The socket.io transport itself is abstract: it is
    the endpoint it was opened against and the ordered list of handlers
    registered on it, and transport events arrive as explicit calls. */
module Socket {
  import opened Strings

  const DefaultBackendUrl := "http://localhost:3001"
  const ServerDownMessage := "Server is down. Please try again later."
  const ConnectionLostMessage := "Server connection lost. Please try again later."

  /** The three transport events the service listens to itself. */
  datatype TransportEvent = Connect | ConnectError | Disconnect

  function EventName(ev: TransportEvent): string {
    match ev
    case Connect => "connect"
    case ConnectError => "connect_error"
    case Disconnect => "disconnect"
  }

  /** What `getConnectionStatus()` hands out. */
  datatype ConnectionStatus = ConnectionStatus(isConnected: bool, error: Option<string>)

  /** A callback passed to `on`/`off`, identified by reference. */
  type HandlerId = nat

  /** A registered callback: one of the service's own status handlers, which
      `connect()` installs, or a caller's, registered through `on`. */
  datatype Handler = ServiceHandler | ClientHandler(id: HandlerId)

  datatype Subscription = Subscription(event: string, handler: Handler)

  /** An open transport: the endpoint and every handler registered on it, in
      registration order. */
  datatype Transport = Transport(url: string, subscriptions: seq<Subscription>)

  /** What `connect()` registers on a new transport, before anyone else can. */
  const ServiceSubscriptions: seq<Subscription> := [
    Subscription("connect", ServiceHandler),
    Subscription("connect_error", ServiceHandler),
    Subscription("disconnect", ServiceHandler)]

  /** Whether the service's own handler for `ev` is still registered. */
  predicate Listening(t: Transport, ev: TransportEvent) {
    Subscription(EventName(ev), ServiceHandler) in t.subscriptions
  }

  /** The service's three fields as one value. */
  datatype ServiceState = ServiceState(socket: Option<Transport>, isConnected: bool, error: Option<string>)

  const Initial := ServiceState(None, false, None)

  /** `process.env.NEXT_PUBLIC_BACKEND_URL || "http://localhost:3001"`:
      an unset or empty setting falls back to the local server. */
  function Endpoint(configured: Option<string>): (url: string)
    ensures configured.Some? && configured.value != "" ==> url == configured.value
    ensures configured.None? || configured.value == "" ==> url == DefaultBackendUrl
  {
    if configured.Some? && configured.value != "" then configured.value else DefaultBackendUrl
  }

  /** The status each of the service's own handlers writes. */
  function StatusAfter(ev: TransportEvent): ConnectionStatus {
    match ev
    case Connect => ConnectionStatus(true, None)
    case ConnectError => ConnectionStatus(false, Some(ServerDownMessage))
    case Disconnect => ConnectionStatus(false, Some(ConnectionLostMessage))
  }

  /** The handlers of `subs` registered for `event`, in registration order. */
  function HandlersFor(subs: seq<Subscription>, event: string): (hs: seq<Handler>)
    ensures |hs| <= |subs|
    ensures forall h :: h in hs <==> Subscription(event, h) in subs
  {
    if subs == [] then []
    else (if subs[0].event == event then [subs[0].handler] else []) + HandlersFor(subs[1..], event)
  }

  /** A handler registered several times for an event runs that many times. */
  lemma {:induction false} HandlersForCounts(subs: seq<Subscription>, event: string, h: Handler)
    ensures multiset(HandlersFor(subs, event))[h] == multiset(subs)[Subscription(event, h)]
  {
    if subs != [] {
      HandlersForCounts(subs[1..], event, h);
      assert subs == [subs[0]] + subs[1..];
    }
  }

  /** Handlers run in registration order: the handler list of a
      concatenation is the concatenation of the handler lists. */
  lemma {:induction false} HandlersForAppend(a: seq<Subscription>, b: seq<Subscription>, event: string)
    ensures HandlersFor(a + b, event) == HandlersFor(a, event) + HandlersFor(b, event)
  {
    if a == [] {
      assert a + b == b;
    } else {
      assert (a + b)[0] == a[0] && (a + b)[1..] == a[1..] + b;
      HandlersForAppend(a[1..], b, event);
    }
  }

  /** A handler added by `on` runs after every handler already registered
      for its event. */
  lemma OnRunsLast(s: ServiceState, event: string, h: HandlerId)
    requires s.socket.Some?
    ensures HandlersFor(Step(s, OnCall(event, h)).socket.value.subscriptions, event) ==
      HandlersFor(s.socket.value.subscriptions, event) + [ClientHandler(h)]
  {
    HandlersForAppend(s.socket.value.subscriptions, [Subscription(event, ClientHandler(h))], event);
  }

  /** The emitter's `off(event, fn)`: the first registration of `fn` for
      `event` goes. The service always forwards two arguments, so an omitted
      callback arrives as `undefined` rather than as a missing argument; the
      emitter then does not drop every handler of the event but removes the
      first one whose `fn` property is `undefined`, which is the first plain
      handler registered for it. */
  function Unsubscribe(subs: seq<Subscription>, event: string, handler: Option<HandlerId>): seq<Subscription>
  {
    if subs == [] then []
    else if subs[0].event == event && (handler.None? || subs[0].handler == ClientHandler(handler.value)) then subs[1..]
    else [subs[0]] + Unsubscribe(subs[1..], event, handler)
  }

  /** Removing one handler takes out exactly one registration when there is
      one and leaves every other registration in place. */
  lemma {:induction false} UnsubscribeOne(subs: seq<Subscription>, event: string, h: HandlerId)
    ensures Subscription(event, ClientHandler(h)) in subs ==>
      multiset(Unsubscribe(subs, event, Some(h))) == multiset(subs) - multiset{Subscription(event, ClientHandler(h))}
    ensures Subscription(event, ClientHandler(h)) !in subs ==> Unsubscribe(subs, event, Some(h)) == subs
  {
    if subs != [] {
      UnsubscribeOne(subs[1..], event, h);
      assert subs == [subs[0]] + subs[1..];
    }
  }

  /** `off(event)` through the service removes only the earliest handler of
      the event, and no registration for any other event. For `connect`,
      `connect_error` and `disconnect` that earliest handler is the
      service's own one as long as it is registered. */
  lemma {:induction false} UnsubscribeFirst(subs: seq<Subscription>, event: string)
    ensures var hs := HandlersFor(subs, event);
      HandlersFor(Unsubscribe(subs, event, None), event) == if hs == [] then [] else hs[1..]
    ensures forall other :: other != event ==>
      HandlersFor(Unsubscribe(subs, event, None), other) == HandlersFor(subs, other)
  {
    if subs != [] {
      UnsubscribeFirst(subs[1..], event);
    }
  }

  /** With two handlers on one event, `off(event)` leaves the second. */
  lemma UnsubscribeNoCallbackKeepsSecond(event: string, h1: Handler, h2: Handler)
    ensures Unsubscribe([Subscription(event, h1), Subscription(event, h2)], event, None)
      == [Subscription(event, h2)]
  {
  }

  /** Removing a caller's callback never removes one of the service's own
      handlers. */
  lemma {:induction false} UnsubscribeClientKeepsService(subs: seq<Subscription>, event: string, h: HandlerId, e: string)
    ensures Subscription(e, ServiceHandler) in Unsubscribe(subs, event, Some(h)) <==>
      Subscription(e, ServiceHandler) in subs
  {
    if subs != [] {
      UnsubscribeClientKeepsService(subs[1..], event, h, e);
      assert subs == [subs[0]] + subs[1..];
    }
  }

  /** The service's operations and the transport's events. */
  datatype Op =
    | ConnectCall(configured: Option<string>)
    | DisconnectCall
    | Event(ev: TransportEvent)
    | OnCall(event: string, handler: HandlerId)
    | OffCall(event: string, callback: Option<HandlerId>)

  /** The state after one operation. An event reaches the service only while
      a transport exists and the service's own handler for it is still
      registered on it. Only `connect()` creates a transport and only
      `disconnect()` drops it; only a heard event changes the error or sets
      the connected flag; and every operation keeps the state consistent. */
  function Step(s: ServiceState, op: Op): (r: ServiceState)
    ensures r.socket.Some? <==> (s.socket.Some? && !op.DisconnectCall?) || op.ConnectCall?
    ensures r.error != s.error ==> op.Event? && s.socket.Some? && Listening(s.socket.value, op.ev)
    ensures r.isConnected && !s.isConnected ==> op.Event? && s.socket.Some? && Listening(s.socket.value, op.ev)
    ensures Consistent(s) ==> Consistent(r)
  {
    match op
    case ConnectCall(configured) =>
      if s.socket.Some? then s
      else s.(socket := Some(Transport(Endpoint(configured), ServiceSubscriptions)))
    case DisconnectCall =>
      if s.socket.Some? then s.(socket := None, isConnected := false) else s
    case Event(ev) =>
      if s.socket.Some? && Listening(s.socket.value, ev) then
        s.(isConnected := StatusAfter(ev).isConnected, error := StatusAfter(ev).error)
      else s
    case OnCall(event, h) =>
      if s.socket.Some? then
        s.(socket := Some(s.socket.value.(subscriptions := s.socket.value.subscriptions + [Subscription(event, ClientHandler(h))])))
      else s
    case OffCall(event, cb) =>
      if s.socket.Some? then
        s.(socket := Some(s.socket.value.(subscriptions := Unsubscribe(s.socket.value.subscriptions, event, cb))))
      else s
  }

  function Run(s: ServiceState, ops: seq<Op>): ServiceState
    decreases |ops|
  {
    if ops == [] then s else Run(Step(s, ops[0]), ops[1..])
  }

  /** The invariant every reachable state keeps: the service is never
      connected without a transport, a connected service carries no error,
      and an error is always one of the two fixed messages. */
  predicate Consistent(s: ServiceState) {
    && (s.isConnected ==> s.socket.Some? && s.error.None?)
    && (s.error.Some? ==> s.error.value in {ServerDownMessage, ConnectionLostMessage})
  }

  /** Every state reachable from the initial one is consistent. */
  lemma {:induction false} RunConsistent(s: ServiceState, ops: seq<Op>)
    requires Consistent(s)
    ensures Consistent(Run(s, ops))
    decreases |ops|
  {
    if ops != [] {
      RunConsistent(Step(s, ops[0]), ops[1..]);
    }
  }

  /** `connect()` on a service that already holds a transport changes nothing,
      so calling it twice is calling it once. */
  lemma ConnectIdempotent(s: ServiceState, a: Option<string>, b: Option<string>)
    ensures Step(s, ConnectCall(a)).socket.Some?
    ensures Step(Step(s, ConnectCall(a)), ConnectCall(b)) == Step(s, ConnectCall(a))
  {
  }

  /** A transport that `connect()` opens carries the service's handler for
      each of the three events, ahead of any handler added later. */
  lemma ConnectListens(s: ServiceState, configured: Option<string>, ev: TransportEvent)
    requires s.socket.None?
    ensures var t := Step(s, ConnectCall(configured)).socket.value;
      Listening(t, ev) && HandlersFor(t.subscriptions, EventName(ev)) == [ServiceHandler]
  {
    var subs := ServiceSubscriptions;
    assert subs[1..][1..][1..] == [];
    match ev
    case Connect =>
    case ConnectError => assert subs[1] == Subscription("connect_error", ServiceHandler);
    case Disconnect => assert subs[2] == Subscription("disconnect", ServiceHandler);
  }

  /** After an event delivered over a live transport the status is the fixed
      one for that event; the two failure messages are different, so a lost
      connection can be told from a server that never answered. */
  lemma EventSetsStatus(s: ServiceState, ev: TransportEvent)
    requires s.socket.Some? && Listening(s.socket.value, ev)
    ensures var t := Step(s, Event(ev));
      ConnectionStatus(t.isConnected, t.error) == StatusAfter(ev) && t.socket == s.socket
    ensures StatusAfter(ConnectError) != StatusAfter(Disconnect)
    ensures StatusAfter(Connect).isConnected && StatusAfter(Connect).error.None?
  {
  }

  /** `disconnect()` drops the transport and the connected flag but keeps the
      last error; on a service without a transport it changes nothing. */
  lemma DisconnectKeepsError(s: ServiceState)
    ensures Step(s, DisconnectCall).socket.None?
    ensures !Step(s, DisconnectCall).isConnected || s.socket.None?
    ensures Step(s, DisconnectCall).error == s.error
    ensures s.socket.None? ==> Step(s, DisconnectCall) == s
  {
  }

  /** An event whose service handler was removed with `off(event)` leaves
      the status as it was. */
  lemma EventUnheard(s: ServiceState, ev: TransportEvent)
    requires s.socket.None? || !Listening(s.socket.value, ev)
    ensures Step(s, Event(ev)) == s
  {
  }

  /** `connect(); off("connect")` removes the service's own `connect`
      handler, so a later `connect` event no longer marks it connected. */
  lemma OffWithoutCallbackSilencesStatus()
    ensures !Run(Initial, [ConnectCall(None), OffCall("connect", None), Event(Connect)]).isConnected
  {
    var s1 := Step(Initial, ConnectCall(None));
    var s2 := Step(s1, OffCall("connect", None));
    assert s2.socket.value.subscriptions == ServiceSubscriptions[1..];
    assert !Listening(s2.socket.value, Connect);
    assert Run(Initial, [ConnectCall(None), OffCall("connect", None), Event(Connect)]) == Run(s2, [Event(Connect)]);
  }

  /** The status after a run whose last event came over a live transport
      still carrying the service's handler for it, and after which no
      `disconnect()` was made, is that event's status. */
  lemma {:induction false} LastEventDecides(s: ServiceState, ops: seq<Op>, ev: TransportEvent, rest: seq<Op>)
    requires Run(s, ops).socket.Some? && Listening(Run(s, ops).socket.value, ev)
    requires forall i :: 0 <= i < |rest| ==> rest[i].ConnectCall? || rest[i].OnCall? || rest[i].OffCall?
    ensures var t := Run(s, ops + [Event(ev)] + rest);
      ConnectionStatus(t.isConnected, t.error) == StatusAfter(ev)
  {
    RunAppend(s, ops, [Event(ev)] + rest);
    assert ops + [Event(ev)] + rest == ops + ([Event(ev)] + rest);
    var u := Step(Run(s, ops), Event(ev));
    assert ([Event(ev)] + rest)[1..] == rest;
    RunKeepsStatus(u, rest);
  }

  lemma {:induction false} RunAppend(s: ServiceState, a: seq<Op>, b: seq<Op>)
    ensures Run(s, a + b) == Run(Run(s, a), b)
    decreases |a|
  {
    if a == [] {
      assert a + b == b;
    } else {
      assert (a + b)[0] == a[0] && (a + b)[1..] == a[1..] + b;
      RunAppend(Step(s, a[0]), a[1..], b);
    }
  }

  /** `connect`, `on` and `off` never touch the status. */
  lemma {:induction false} RunKeepsStatus(s: ServiceState, ops: seq<Op>)
    requires forall i :: 0 <= i < |ops| ==> ops[i].ConnectCall? || ops[i].OnCall? || ops[i].OffCall?
    ensures Run(s, ops).isConnected == s.isConnected && Run(s, ops).error == s.error
    decreases |ops|
  {
    if ops != [] {
      RunKeepsStatus(Step(s, ops[0]), ops[1..]);
    }
  }

  /** The shared service object. */
  class SocketService {
    var socket: Option<Transport>
    var isConnected: bool
    var error: Option<string>

    function State(): ServiceState
      reads this
    {
      ServiceState(socket, isConnected, error)
    }

    constructor ()
      ensures State() == Initial
    {
      socket := None;
      isConnected := false;
      error := None;
    }

    /** `connect()`: opens a transport unless one exists. */
    method Connect(configured: Option<string>)
      modifies this
      ensures State() == Step(old(State()), ConnectCall(configured))
      ensures old(socket).Some? ==> unchanged(this)
      ensures old(socket).None? ==> socket == Some(Transport(Endpoint(configured), ServiceSubscriptions))
      ensures isConnected == old(isConnected) && error == old(error)
    {
      if socket.Some? {
        return;
      }
      socket := Some(Transport(Endpoint(configured), ServiceSubscriptions));
    }

    /** A transport event reaching the service's own handler, followed by
        the handlers registered for it through `on`, which are returned. */
    method Deliver(ev: TransportEvent) returns (notified: seq<Handler>)
      modifies this
      ensures State() == Step(old(State()), Event(ev))
      ensures old(socket).Some? && Listening(old(socket).value, ev) ==>
        ConnectionStatus(isConnected, error) == StatusAfter(ev)
      ensures old(socket).Some? ==> notified == HandlersFor(old(socket).value.subscriptions, EventName(ev))
      ensures old(socket).None? || !Listening(old(socket).value, ev) ==> unchanged(this)
      ensures old(socket).None? ==> notified == []
    {
      notified := [];
      if socket.Some? {
        notified := HandlersFor(socket.value.subscriptions, EventName(ev));
        if Listening(socket.value, ev) {
          var st := StatusAfter(ev);
          isConnected := st.isConnected;
          error := st.error;
        }
      }
    }

    /** An application event (`vesselData`, `environmentalData`) emitted by
        the backend: the handlers registered for it, in order. */
    method Emit(event: string) returns (notified: seq<Handler>)
      ensures socket.None? ==> notified == []
      ensures socket.Some? ==> forall h :: h in notified <==> Subscription(event, h) in socket.value.subscriptions
      ensures socket.Some? ==> forall h ::
        multiset(notified)[h] == multiset(socket.value.subscriptions)[Subscription(event, h)]
    {
      forall h | socket.Some?
        ensures multiset(HandlersFor(socket.value.subscriptions, event))[h] ==
          multiset(socket.value.subscriptions)[Subscription(event, h)]
      {
        HandlersForCounts(socket.value.subscriptions, event, h);
      }
      notified := if socket.Some? then HandlersFor(socket.value.subscriptions, event) else [];
    }

    /** `disconnect()`: closes and discards the transport; the last error stays. */
    method Disconnect()
      modifies this
      ensures State() == Step(old(State()), DisconnectCall)
      ensures socket.None? && error == old(error)
      ensures old(socket).Some? ==> !isConnected
      ensures old(socket).None? ==> unchanged(this)
    {
      if socket.Some? {
        socket := None;
        isConnected := false;
      }
    }

    /** `getConnectionStatus()`: a snapshot of the two status fields. */
    method GetConnectionStatus() returns (status: ConnectionStatus)
      ensures status.isConnected == isConnected && status.error == error
    {
      status := ConnectionStatus(isConnected, error);
    }

    /** `getSocket()` */
    method GetSocket() returns (t: Option<Transport>)
      ensures t == socket
    {
      t := socket;
    }

    /** `on(event, callback)`: registers on the transport, if there is one. */
    method On(event: string, handler: HandlerId)
      modifies this
      ensures State() == Step(old(State()), OnCall(event, handler))
      ensures old(socket).None? ==> unchanged(this)
      ensures old(socket).Some? ==>
        socket.Some? && socket.value.subscriptions == old(socket).value.subscriptions + [Subscription(event, ClientHandler(handler))]
    {
      if socket.Some? {
        socket := Some(socket.value.(subscriptions := socket.value.subscriptions + [Subscription(event, ClientHandler(handler))]));
      }
    }

    /** `off(event, callback?)`: unregisters on the transport, if there is one. */
    method Off(event: string, callback: Option<HandlerId>)
      modifies this
      ensures State() == Step(old(State()), OffCall(event, callback))
      ensures old(socket).None? ==> unchanged(this)
      ensures old(socket).Some? ==>
        socket.Some? && socket.value.subscriptions == Unsubscribe(old(socket).value.subscriptions, event, callback)
    {
      if socket.Some? {
        socket := Some(socket.value.(subscriptions := Unsubscribe(socket.value.subscriptions, event, callback)));
      }
    }
  }

  /** The class-level `instance` slot behind `getInstance()`. */
  class ServiceRegistry {
    var instance: SocketService?

    constructor ()
      ensures instance == null
    {
      instance := null;
    }

    /** `getInstance()`: creates the service on first use and hands out the
        same object on every later call. */
    method GetInstance() returns (s: SocketService)
      modifies this
      ensures old(instance) != null ==> s == old(instance)
      ensures old(instance) == null ==> fresh(s) && s.State() == Initial
      ensures instance == s
    {
      if instance == null {
        instance := new SocketService();
      }
      s := instance;
    }
  }

  /** Two calls to `getInstance()` return one and the same object. */
  method SameInstance(r: ServiceRegistry) returns (a: SocketService, b: SocketService)
    modifies r
    ensures a == b && r.instance == a
  {
    a := r.GetInstance();
    b := r.GetInstance();
  }
}
