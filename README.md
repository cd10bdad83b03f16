# Chat client connection state and socket relay

This project models the two parts of the browser chat client (sample `10/client`) that hold any logic of their own:

- the `chat` slice (`chatSlice.ts`): one `status` field with four declared values (`disconnected`, `connecting`, `connected`, `error`), set by the three case reducers `startConnecting`, `connectionEstablished` and `connectionLost`;
- the socket relay middleware (`socketMiddleware.ts`): it creates one socket on the first `startConnecting` and registers its `connect`, `disconnect` and `receiveMessage` listeners. A pending `sendMessage` mutation becomes a `'sendMessage'` emission when that socket is connected, and is dropped otherwise. An incoming message is appended to the `getMessages` cache. Every action is passed on to `next`.

Modules:

- `ChatApi` and `Actions` (`chat_api.dfy`) hold the message types of `chatApi.ts` and the actions that travel through the store.
- `ChatSlice` (`chat_slice.dfy`) holds the reducer as a function `Reduce` and the slice state as a class `Chat`. The class has one method per case reducer, each assigning `status` in place.
- `SocketMiddleware` (`socket_middleware.dfy`) reduces the middleware's closure and effects to a value `Relay`. That value holds the optional socket with its `connected` flag, a count of sockets created, the registered listeners, the cached message list, the log of emissions and the log of actions handed to `next`. `Intercept` is the middleware function and `Listen` the listeners. The class `Middleware` holds the same state in fields and updates it in place.
- `Store` (`store.dfy`) composes the two the way `store.ts` wires them. The relay middleware comes last in the chain, so its `next` reaches the reducers. This gives end-to-end facts about any interleaving of dispatched actions and transport events.

`Chat.Apply`, `Middleware.Handle`, `Middleware.Deliver`, `ChatStore.Dispatch` and `ChatStore.Deliver` are proved against the specification functions `Reduce`, `Intercept`, `Listen` and `Step`. The three case-reducer methods of `Chat` and the three constructors state the field values they produce. The properties themselves are proved as contracts of the specification functions and as lemmas about them. In `Middleware`, only the socket and the cache are compiled fields. The count of sockets created, the registered listeners and the two logs are ghost fields: they record effects the closure does not keep.

## Model

| member | source | states |
|---|---|---|
| ChatSlice.Target | 10/client/src/features/chat/chatSlice.ts:16-28 | each of the three case reducers assigns a fixed status, and none of them assigns `error` |
| ChatSlice.Reduce | 10/client/src/features/chat/chatSlice.ts:13-29 | a handled action sets the status to its fixed value from any prior state; any other action leaves the state unchanged |
| ChatSlice.LastWriteWins | 10/client/src/features/chat/chatSlice.ts:18-27 | after any sequence of actions, the state is determined by the last handled action alone, or is the starting state if there was none |
| ChatSlice.ReduceIdempotent | 10/client/src/features/chat/chatSlice.ts:18-27 | applying the same action twice gives the same state as applying it once |
| ChatSlice.ReduceAllIdempotent | 10/client/src/features/chat/chatSlice.ts:18-27 | replaying a whole sequence of actions a second time leaves the state it reached unchanged |
| ChatSlice.NeverError | 10/client/src/features/chat/chatSlice.ts:3 | from a status other than `error`, no sequence of actions reaches `error` |
| ChatSlice.ReachableStates | 10/client/src/features/chat/chatSlice.ts:3-11 | a state is reachable from the initial state if and only if its status is not `error`: the reachable statuses are exactly the other three |
| ChatSlice.Chat.constructor | 10/client/src/features/chat/chatSlice.ts:9-11 | the initial status is `disconnected` |
| ChatSlice.Chat.StartConnecting | 10/client/src/features/chat/chatSlice.ts:18-20 | sets the status to `connecting`, whatever it was |
| ChatSlice.Chat.ConnectionEstablished | 10/client/src/features/chat/chatSlice.ts:22-24 | sets the status to `connected`, whatever it was |
| ChatSlice.Chat.ConnectionLost | 10/client/src/features/chat/chatSlice.ts:25-27 | sets the status to `disconnected`, whatever it was |
| ChatSlice.Chat.Apply | 10/client/src/features/chat/chatSlice.ts:13-29 | the slice reducer updates the state in place exactly as `Reduce` prescribes |
| SocketMiddleware.Intercept | 10/client/src/app/socketMiddleware.ts:19-86 | every action is forwarded to `next` exactly once, unchanged. A socket is created, with its three listeners, only on `startConnecting` and only when none exists. A pending `sendMessage` emits exactly one `'sendMessage'` event carrying `originalArgs` unmodified when the socket exists and is connected, and nothing otherwise. The cache and the socket's connectedness are untouched, and the single-socket invariant is preserved |
| SocketMiddleware.Listen | 10/client/src/app/socketMiddleware.ts:32-59 | without a socket, transport events have no effect. `connect` dispatches `connectionEstablished` and `disconnect` dispatches `connectionLost`. `receiveMessage` appends exactly the received message to the end of the cache, keeping earlier entries and without deduplication. Listeners never create sockets, emit or call `next` |
| SocketMiddleware.ForwardsEverything | 10/client/src/app/socketMiddleware.ts:86 | over any run of actions, `next` receives exactly those actions, in order |
| SocketMiddleware.SocketCreatedOnce | 10/client/src/app/socketMiddleware.ts:17-29 | over any run of actions, at most one socket is created. One is created exactly when there was none and `startConnecting` occurs, and a socket exists afterwards if and only if one existed before or `startConnecting` occurred |
| SocketMiddleware.InterceptAllKeepsInv | 10/client/src/app/socketMiddleware.ts:17-60 | the invariant of at most one socket, with its listeners registered exactly once, holds after any run of actions |
| SocketMiddleware.SendsGatedOnConnection | 10/client/src/app/socketMiddleware.ts:69-81 | actions never change connectedness. A run of actions therefore emits every pending send in it, in order, if the socket was connected, and drops all of them otherwise |
| SocketMiddleware.RepeatedStartConnecting | 10/client/src/app/socketMiddleware.ts:25-29 | a second `startConnecting` neither creates a socket nor registers listeners; it is only forwarded |
| SocketMiddleware.Middleware.constructor | 10/client/src/app/socketMiddleware.ts:15-17 | the middleware starts with no socket, an empty message cache and empty logs |
| SocketMiddleware.Middleware.Handle | 10/client/src/app/socketMiddleware.ts:19-86 | the middleware function updates its closure state as `Intercept` prescribes and passes the action it received to `next` |
| SocketMiddleware.Middleware.Deliver | 10/client/src/app/socketMiddleware.ts:32-59 | a transport event updates the state as `Listen` prescribes and yields the action the listener dispatches |
| Store.StepKeepsConsistent | 10/client/src/app/store.ts:12-21 | one dispatched action or transport event keeps the status other than `error` and keeps the single-socket invariant |
| Store.RunKeepsConsistent | 10/client/src/app/store.ts:12-21 | the same holds over any interleaving of dispatched actions and transport events |
| Store.Reachable | 10/client/src/features/chat/chatSlice.ts:3 | from the initial store, the status never becomes `error` and at most one socket is ever created |
| Store.StartConnectingEndToEnd | 10/client/src/app/socketMiddleware.ts:25-29 | dispatching `startConnecting` sets the status to `connecting` and leaves exactly one socket in existence |
| Store.NothingBeforeStartConnecting | 10/client/src/app/socketMiddleware.ts:72-81 | until `startConnecting` is dispatched there is no socket. Every send is dropped and the cache stays empty. Any transport event leaves the whole store unchanged |
| Store.StatusLagsTransport | 10/client/src/app/socketMiddleware.ts:25-29 | a `startConnecting` dispatched while the socket is connected sets the status to `connecting`. No socket is created and the socket stays connected, so the status and the transport disagree |
| Store.SendAndEcho | 10/client/src/app/socketMiddleware.ts:25-86 | connecting, sending while connected and receiving the echo gives status `connected`. It emits exactly one event with the unmodified argument, forwards the listener's `connectionEstablished` through the middleware, and grows the cache by exactly the received message |
| Store.ChatStore.constructor | 10/client/src/app/store.ts:12-21 | the store starts in the initial slice state with a fresh middleware |
| Store.ChatStore.Dispatch | 10/client/src/app/store.ts:17-21 | a dispatched action passes the relay middleware and then reaches the slice reducer; the action itself is returned |
| Store.ChatStore.Deliver | 10/client/src/app/socketMiddleware.ts:32-59 | a transport event runs the listener, and the action it dispatches goes through the whole chain |

## Left out

- Console logging throughout both files: it has side effects only.
- `io(url)` and the socket.io transport: reconnection, framing and the meaning of `socket.connected` are not modelled. A new socket is taken to start unconnected. Its flag is set only by the `connect` and `disconnect` events, which are inputs from the environment.
- The RTK Query internals are not modelled: `updateQueryData`, Immer drafts, `matchPending`, the thunk that patches the cache, and RTK Query's own middleware. The `getMessages` cache entry is a sequence that the `receiveMessage` listener appends to. The model assumes the entry exists. In RTK Query, an update of an entry no component has subscribed to does nothing.
- The actions that RTK Query and the cache patch dispatch internally are not in the forwarded log. Only actions dispatched through the store, including those from the `connect` and `disconnect` listeners, appear there.
- Message payloads are not validated. The server echoes `{user, text}` unmodified, while the listener treats it as a full `Message`, so `id` and `timestamp` may be absent at run time. The model uses the declared type, with `timestamp` as an integer rather than a JavaScript number.
- The `sendMessage` mutation's own fulfilled and rejected actions and the loading flags they drive belong to RTK Query. They appear only as other actions, which the model forwards unchanged.
- The server (`10/server/index.js`) is not part of this model. Its broadcast of each received message to all clients is represented only by the `receiveMessage` event arriving in `Store.SendAndEcho`.
- The second sample (`11/LettorePost`) and all UI components, hooks and entry points are not part of this model. They are UI and HTTP wiring with no logic of their own.
