/**
 * The chat client's store (10/client/src/app/store.ts) reduced to the two parts modelled
 * here: the `chat` slice and the socket middleware, which sits last in the middleware chain,
 * so that its `next` leads straight to the reducers. A dispatched action first passes the
 * middleware and then reaches the slice reducer; a transport event runs a socket listener,
 * which may dispatch an action through the whole chain again.
 */
module Store {
  import opened Wrappers
  import opened ChatApi
  import opened Actions
  import opened ChatSlice
  import opened SocketMiddleware

  datatype StoreState = StoreState(chat: ChatState, relay: Relay)

  const InitialStore: StoreState := StoreState(InitialState, InitialRelay)

  /** What drives the client: an action dispatched by the UI, or an event from the transport. */
  datatype Input = Act(action: Action) | Event(event: TransportEvent)

  /** `store.dispatch(a)`: the middleware sees the action, then `next` hands it to the reducer. */
  function DispatchAction(s: StoreState, a: Action): StoreState
  {
    var relay := Intercept(s.relay, a);
    StoreState(Reduce(s.chat, relay.forwarded[|relay.forwarded| - 1]), relay)
  }

  function Step(s: StoreState, i: Input): StoreState
  {
    match i
    case Act(a) => DispatchAction(s, a)
    case Event(ev) =>
      var d := Listen(s.relay, ev);
      var heard := s.(relay := d.relay);
      if d.dispatched.Some? then DispatchAction(heard, d.dispatched.value) else heard
  }

  /** The store after `inputs`, oldest first. */
  function Run(s: StoreState, inputs: seq<Input>): StoreState
  {
    if inputs == [] then s else Step(Run(s, inputs[..|inputs| - 1]), inputs[|inputs| - 1])
  }

  /** The status is never `Error`, and the relay keeps its single-socket invariant. */
  predicate Consistent(s: StoreState) {
    s.chat.status != Error && Inv(s.relay)
  }

  lemma StepKeepsConsistent(s: StoreState, i: Input)
    requires Consistent(s)
    ensures Consistent(Step(s, i))
  {
  }

  lemma {:induction false} RunKeepsConsistent(s: StoreState, inputs: seq<Input>)
    requires Consistent(s)
    ensures Consistent(Run(s, inputs))
  {
    if inputs != [] {
      RunKeepsConsistent(s, inputs[..|inputs| - 1]);
      StepKeepsConsistent(Run(s, inputs[..|inputs| - 1]), inputs[|inputs| - 1]);
    }
  }

  /**
   * Whatever the UI dispatches and the transport delivers, the status never becomes
   * `Error` and at most one socket is ever created.
   */
  lemma Reachable(inputs: seq<Input>)
    ensures Run(InitialStore, inputs).chat.status != Error
    ensures Run(InitialStore, inputs).relay.socketsOpened <= 1
  {
    RunKeepsConsistent(InitialStore, inputs);
  }

  /** Dispatching `startConnecting` sets the status to connecting and leaves exactly one socket. */
  lemma StartConnectingEndToEnd(s: StoreState)
    requires Consistent(s)
    ensures Step(s, Act(StartConnecting)).chat.status == Connecting
    ensures Step(s, Act(StartConnecting)).relay.socket.Some?
    ensures Step(s, Act(StartConnecting)).relay.socketsOpened == 1
  {
  }

  /**
   * Until `startConnecting` is dispatched there is no socket: transport events do nothing,
   * every send is dropped, and the cache stays empty.
   */
  lemma {:induction false} NothingBeforeStartConnecting(inputs: seq<Input>)
    requires Act(StartConnecting) !in inputs
    ensures Run(InitialStore, inputs).relay.socket == None
    ensures Run(InitialStore, inputs).relay.emitted == []
    ensures Run(InitialStore, inputs).relay.cache == []
    ensures forall ev :: Step(Run(InitialStore, inputs), Event(ev)) == Run(InitialStore, inputs)
  {
    if inputs != [] {
      var init := inputs[..|inputs| - 1];
      assert inputs == init + [inputs[|inputs| - 1]];
      NothingBeforeStartConnecting(init);
    }
  }

  /**
   * The status is not a mirror of the transport: a second `startConnecting` while the socket
   * is connected sets the status to connecting, creates no socket and leaves it connected, so
   * no `connect` event follows that would set the status back to connected.
   */
  lemma StatusLagsTransport(s: StoreState)
    requires Consistent(s) && IsConnected(s.relay)
    ensures Step(s, Act(StartConnecting)).chat.status == Connecting
    ensures IsConnected(Step(s, Act(StartConnecting)).relay)
    ensures Step(s, Act(StartConnecting)).relay.socketsOpened == s.relay.socketsOpened
  {
  }

  lemma RunAppend(s: StoreState, inputs: seq<Input>, i: Input)
    ensures Run(s, inputs + [i]) == Step(Run(s, inputs), i)
  {
    assert (inputs + [i])[..|inputs|] == inputs;
  }

  /**
   * The round trip of one message: connect, connection established, send while connected,
   * and the server's echo arriving. The send is emitted once with its argument unmodified,
   * the listener's `connectionEstablished` also passes the middleware, and the echo grows
   * the cache by exactly that one entry.
   */
  lemma SendAndEcho(nm: NewMessage, m: Message)
    ensures Run(InitialStore, [Act(StartConnecting), Event(Connect), Act(SendMessagePending(nm)), Event(ReceiveMessage(m))])
         == StoreState(
              ChatState(Connected),
              Relay(Some(Socket(true)), 1, Listeners, [m],
                    [Emission(SendMessageEvent, nm)],
                    [StartConnecting, ConnectionEstablished, SendMessagePending(nm)]))
  {
    var i1, i2, i3, i4 := Act(StartConnecting), Event(Connect), Act(SendMessagePending(nm)), Event(ReceiveMessage(m));
    var s3 := SendStep(nm);
    RunAppend(InitialStore, [], i1);
    assert [] + [i1] == [i1];
    RunAppend(InitialStore, [i1], i2);
    assert [i1] + [i2] == [i1, i2];
    RunAppend(InitialStore, [i1, i2], i3);
    assert [i1, i2] + [i3] == [i1, i2, i3];
    RunAppend(InitialStore, [i1, i2, i3], i4);
    assert [i1, i2, i3] + [i4] == [i1, i2, i3, i4];
    EchoStep(s3, nm, m);
  }

  lemma ConnectStep() returns (s1: StoreState)
    ensures s1 == Step(InitialStore, Act(StartConnecting))
    ensures s1 == StoreState(ChatState(Connecting), Relay(Some(Socket(false)), 1, Listeners, [], [], [StartConnecting]))
  {
    s1 := Step(InitialStore, Act(StartConnecting));
  }

  lemma EstablishStep() returns (s2: StoreState)
    ensures s2 == Step(Step(InitialStore, Act(StartConnecting)), Event(Connect))
    ensures s2 == StoreState(ChatState(Connected),
                             Relay(Some(Socket(true)), 1, Listeners, [], [], [StartConnecting, ConnectionEstablished]))
  {
    var s1 := ConnectStep();
    s2 := Step(s1, Event(Connect));
  }

  lemma SendStep(nm: NewMessage) returns (s3: StoreState)
    ensures s3 == Step(Step(Step(InitialStore, Act(StartConnecting)), Event(Connect)), Act(SendMessagePending(nm)))
    ensures s3 == StoreState(ChatState(Connected),
                             Relay(Some(Socket(true)), 1, Listeners, [], [Emission(SendMessageEvent, nm)],
                                   [StartConnecting, ConnectionEstablished, SendMessagePending(nm)]))
  {
    var s2 := EstablishStep();
    s3 := Step(s2, Act(SendMessagePending(nm)));
  }

  lemma EchoStep(s3: StoreState, nm: NewMessage, m: Message)
    requires s3 == StoreState(ChatState(Connected),
                              Relay(Some(Socket(true)), 1, Listeners, [], [Emission(SendMessageEvent, nm)],
                                    [StartConnecting, ConnectionEstablished, SendMessagePending(nm)]))
    ensures Step(s3, Event(ReceiveMessage(m)))
         == StoreState(ChatState(Connected),
                       Relay(Some(Socket(true)), 1, Listeners, [m], [Emission(SendMessageEvent, nm)],
                             [StartConnecting, ConnectionEstablished, SendMessagePending(nm)]))
  {
  }

  /** The store object: the slice state and the middleware's closure, both updated in place. */
  class ChatStore {
    const chat: Chat
    const middleware: Middleware

    ghost function State(): StoreState
      reads chat, middleware
    {
      StoreState(chat.State(), middleware.State())
    }

    constructor ()
      ensures State() == InitialStore
      ensures fresh(chat) && fresh(middleware)
    {
      chat := new Chat();
      middleware := new Middleware();
    }

    /** `store.dispatch(action)`; returns what the base dispatch returns, the action itself. */
    method Dispatch(action: Action) returns (r: Action)
      modifies chat, middleware
      ensures State() == Step(old(State()), Act(action))
      ensures r == action
    {
      var passed := middleware.Handle(action);
      chat.Apply(passed);
      r := passed;
    }

    /** The transport delivering an event to the socket's listeners. */
    method Deliver(ev: TransportEvent)
      modifies chat, middleware
      ensures State() == Step(old(State()), Event(ev))
    {
      var dispatched := middleware.Deliver(ev);
      if dispatched.Some? {
        var _ := Dispatch(dispatched.value);
      }
    }
  }
}
