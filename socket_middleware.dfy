/**
 * The socket relay middleware (10/client/src/app/socketMiddleware.ts). It owns one
 * socket, created on the first `startConnecting` and never again, whose listeners turn
 * transport events into store actions and cache updates; it emits the argument of a
 * pending `sendMessage` over the socket when the socket is connected and drops it
 * otherwise; and it hands every action on to the next middleware unchanged.
 *
 * The socket is reduced to what the middleware observes of it (its `connected` flag),
 * the `getMessages` cache entry of the RTK Query API slice to a sequence of messages,
 * and the effects on the outside world to two logs: what was emitted over the socket
 * and what was handed to `next`.
 */
module SocketMiddleware {
  import opened Wrappers
  import opened ChatApi
  import opened Actions

  /** A client socket; `connected` is maintained by the transport, not by the middleware. */
  datatype Socket = Socket(connected: bool)

  /** The listeners the middleware registers on its socket. */
  datatype Listener = OnConnect | OnDisconnect | OnReceiveMessage

  /** Registered, in this order, right after the socket is created. */
  const Listeners: seq<Listener> := [OnConnect, OnDisconnect, OnReceiveMessage]

  /** The name of the outbound socket event. */
  const SendMessageEvent: string := "sendMessage"

  /** One `socket.emit(event, payload)` call. */
  datatype Emission = Emission(event: string, payload: NewMessage)

  /** What the transport delivers to the socket's listeners. */
  datatype TransportEvent = Connect | Disconnect | ReceiveMessage(message: Message)

  /**
   * Everything the middleware's closure and its effects amount to:
   * the singleton socket, how many sockets were ever created and which listeners were
   * registered, the cached message list, and the logs of emissions and forwarded actions.
   */
  datatype Relay = Relay(
    socket: Option<Socket>,
    socketsOpened: nat,
    listeners: seq<Listener>,
    cache: seq<Message>,
    emitted: seq<Emission>,
    forwarded: seq<Action>)

  /** The middleware right after the store installed it: no socket yet, an empty cache. */
  const InitialRelay: Relay := Relay(None, 0, [], InitialMessages, [], [])

  /**
   * At most one socket is ever created, it exists exactly when one was created,
   * and its three listeners are registered exactly once.
   */
  predicate Inv(r: Relay) {
    && r.socketsOpened <= 1
    && (r.socket.Some? <==> r.socketsOpened == 1)
    && r.listeners == (if r.socket.Some? then Listeners else [])
  }

  /** The `socket && socket.connected` test that gates an emission. */
  predicate IsConnected(r: Relay) {
    r.socket.Some? && r.socket.value.connected
  }

  /** The emission a pending `sendMessage` causes on a connected socket. */
  function SendOf(a: Action): (e: Emission)
    requires a.SendMessagePending?
    ensures e.event == SendMessageEvent && e.payload == a.originalArgs
  {
    Emission(SendMessageEvent, a.originalArgs)
  }

  /**
   * What the middleware does with one dispatched action before and while passing it on:
   * open the socket on `startConnecting` when there is none, emit the argument of a pending
   * `sendMessage` when the socket is connected, and forward the action to `next`.
   */
  function Intercept(r: Relay, a: Action): (r': Relay)
    // every action reaches `next`, once and unchanged
    ensures r'.forwarded == r.forwarded + [a]
    // a socket is created only by `startConnecting`, and only when there is none
    ensures r'.socketsOpened == r.socketsOpened + (if a.StartConnecting? && r.socket.None? then 1 else 0)
    ensures a.StartConnecting? && r.socket.None? ==>
              r'.socket == Some(Socket(false)) && r'.listeners == r.listeners + Listeners
    ensures !(a.StartConnecting? && r.socket.None?) ==> r'.socket == r.socket && r'.listeners == r.listeners
    // exactly one emission, with the unmodified argument, when connected; nothing otherwise
    ensures r'.emitted == r.emitted + (if a.SendMessagePending? && IsConnected(r) then [SendOf(a)] else [])
    ensures IsConnected(r') == IsConnected(r)
    ensures r'.cache == r.cache
    ensures Inv(r) ==> Inv(r')
  {
    var created :=
      if a.StartConnecting? && r.socket.None? then
        r.(socket := Some(Socket(false)),
           socketsOpened := r.socketsOpened + 1,
           listeners := r.listeners + [OnConnect] + [OnDisconnect] + [OnReceiveMessage])
      else r;
    var sent :=
      if a.SendMessagePending? && IsConnected(created) then
        created.(emitted := created.emitted + [Emission(SendMessageEvent, a.originalArgs)])
      else created;
    sent.(forwarded := sent.forwarded + [a])
  }

  /** The result of a transport event: the new relay and the action a listener dispatched, if any. */
  datatype Delivery = Delivery(relay: Relay, dispatched: Option<Action>)

  /**
   * A transport event reaching the socket's listeners. Without a socket there are no
   * listeners and nothing happens. `connect` and `disconnect` set the socket's flag (the
   * transport's doing) and their listeners dispatch `connectionEstablished` and
   * `connectionLost`; `receiveMessage` appends the message to the cached list.
   */
  function Listen(r: Relay, ev: TransportEvent): (d: Delivery)
    ensures r.socket.None? ==> d == Delivery(r, None)
    ensures ev.Connect? && r.socket.Some? ==>
              IsConnected(d.relay) && d.dispatched == Some(ConnectionEstablished)
    ensures ev.Disconnect? && r.socket.Some? ==>
              d.relay.socket.Some? && !IsConnected(d.relay) && d.dispatched == Some(ConnectionLost)
    // exactly the received message, at the end, earlier entries untouched, no deduplication
    ensures ev.ReceiveMessage? && r.socket.Some? ==>
              d.relay.cache == r.cache + [ev.message] && d.relay.socket == r.socket && d.dispatched == None
    ensures !ev.ReceiveMessage? ==> d.relay.cache == r.cache
    // listeners never create sockets, emit, or call `next`
    ensures d.relay.socketsOpened == r.socketsOpened && d.relay.listeners == r.listeners
    ensures d.relay.socket.Some? == r.socket.Some?
    ensures d.relay.emitted == r.emitted && d.relay.forwarded == r.forwarded
    ensures Inv(r) ==> Inv(d.relay)
  {
    match r.socket
    case None => Delivery(r, None)
    case Some(_) =>
      match ev
      case Connect => Delivery(r.(socket := Some(Socket(true))), Some(ConnectionEstablished))
      case Disconnect => Delivery(r.(socket := Some(Socket(false))), Some(ConnectionLost))
      case ReceiveMessage(m) => Delivery(r.(cache := r.cache + [m]), None)
  }

  /** The relay after the middleware has seen `acts`, oldest first, with no transport event in between. */
  function InterceptAll(r: Relay, acts: seq<Action>): Relay
  {
    if acts == [] then r else Intercept(InterceptAll(r, acts[..|acts| - 1]), acts[|acts| - 1])
  }

  /** The emissions the pending `sendMessage` actions among `acts` cause on a connected socket. */
  function Sends(acts: seq<Action>): seq<Emission>
  {
    if acts == [] then []
    else Sends(acts[..|acts| - 1])
         + (if acts[|acts| - 1].SendMessagePending? then [SendOf(acts[|acts| - 1])] else [])
  }

  /** `next` receives exactly the dispatched actions, in order. */
  lemma {:induction false} ForwardsEverything(r: Relay, acts: seq<Action>)
    ensures InterceptAll(r, acts).forwarded == r.forwarded + acts
  {
    if acts != [] {
      var init := acts[..|acts| - 1];
      ForwardsEverything(r, init);
      assert acts == init + [acts[|acts| - 1]];
    }
  }

  /** However many `startConnecting` actions arrive, at most one socket is ever created. */
  lemma {:induction false} SocketCreatedOnce(r: Relay, acts: seq<Action>)
    ensures InterceptAll(r, acts).socketsOpened ==
              r.socketsOpened + (if r.socket.None? && StartConnecting in acts then 1 else 0)
    ensures InterceptAll(r, acts).socket.Some? <==> r.socket.Some? || StartConnecting in acts
  {
    if acts != [] {
      var init := acts[..|acts| - 1];
      SocketCreatedOnce(r, init);
      assert acts == init + [acts[|acts| - 1]];
      assert StartConnecting in acts <==> StartConnecting in init || acts[|acts| - 1] == StartConnecting;
    }
  }

  /** The invariant holds after any run of actions. */
  lemma {:induction false} InterceptAllKeepsInv(r: Relay, acts: seq<Action>)
    requires Inv(r)
    ensures Inv(InterceptAll(r, acts))
  {
    if acts != [] {
      InterceptAllKeepsInv(r, acts[..|acts| - 1]);
    }
  }

  /**
   * Actions alone never connect a socket, so a run of actions emits every send among them
   * when the socket was connected at its start, and drops every one of them otherwise.
   */
  lemma {:induction false} SendsGatedOnConnection(r: Relay, acts: seq<Action>)
    ensures IsConnected(InterceptAll(r, acts)) == IsConnected(r)
    ensures InterceptAll(r, acts).emitted == r.emitted + (if IsConnected(r) then Sends(acts) else [])
  {
    if acts != [] {
      var init := acts[..|acts| - 1];
      SendsGatedOnConnection(r, init);
      if IsConnected(r) {
        assert r.emitted + Sends(init) + (if acts[|acts| - 1].SendMessagePending? then [SendOf(acts[|acts| - 1])] else [])
            == r.emitted + Sends(acts);
      }
    }
  }

  /** A second `startConnecting` neither creates a socket nor registers listeners again. */
  lemma RepeatedStartConnecting(r: Relay)
    ensures var once := Intercept(r, StartConnecting);
            var twice := Intercept(once, StartConnecting);
            twice == once.(forwarded := once.forwarded + [StartConnecting])
  {
  }

  /**
   * The middleware's closure, holding the singleton socket, together with the `getMessages`
   * cache entry it appends to, updated in place as actions and transport events arrive.
   * The ghost fields record what the closure does not keep: how many sockets were created,
   * which listeners were registered, and what was emitted and handed to `next`.
   */
  class Middleware {
    var socket: Option<Socket>
    var cache: seq<Message>
    ghost var socketsOpened: nat
    ghost var listeners: seq<Listener>
    ghost var emitted: seq<Emission>
    ghost var forwarded: seq<Action>

    ghost function State(): Relay
      reads this
    {
      Relay(socket, socketsOpened, listeners, cache, emitted, forwarded)
    }

    constructor ()
      ensures State() == InitialRelay
    {
      socket, cache := None, InitialMessages;
      socketsOpened, listeners, emitted, forwarded := 0, [], [], [];
    }

    /** The middleware function applied to one action; `passed` is what `next` receives. */
    method Handle(action: Action) returns (passed: Action)
      modifies this
      ensures State() == Intercept(old(State()), action)
      ensures passed == action
    {
      if action.StartConnecting? {
        if socket.None? {
          socket := Some(Socket(false));
          socketsOpened := socketsOpened + 1;
          listeners := listeners + [OnConnect];
          listeners := listeners + [OnDisconnect];
          listeners := listeners + [OnReceiveMessage];
        }
      }
      if action.SendMessagePending? {
        if socket.Some? && socket.value.connected {
          emitted := emitted + [Emission(SendMessageEvent, action.originalArgs)];
        }
      }
      forwarded := forwarded + [action];
      passed := action;
    }

    /** A transport event reaching the socket; `dispatched` is what a listener hands to the store. */
    method Deliver(ev: TransportEvent) returns (dispatched: Option<Action>)
      modifies this
      ensures Delivery(State(), dispatched) == Listen(old(State()), ev)
    {
      dispatched := None;
      if socket.Some? {
        match ev
        case Connect =>
          socket := Some(Socket(true));
          dispatched := Some(ConnectionEstablished);
        case Disconnect =>
          socket := Some(Socket(false));
          dispatched := Some(ConnectionLost);
        case ReceiveMessage(m) =>
          cache := cache + [m];
      }
    }
  }
}
