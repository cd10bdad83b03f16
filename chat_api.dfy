/**
 * The data types of the chat's RTK Query API slice (10/client/src/features/chat/chatApi.ts).
 * The endpoints themselves do no I/O: `getMessages` starts its cache entry as an empty
 * list, and `sendMessage` exists only so that its pending action can be intercepted by
 * the socket middleware.
 */
module ChatApi {
  /** A chat message as it is held in the `getMessages` cache. */
  datatype Message = Message(id: string, user: string, text: string, timestamp: int)

  /** The argument of the `sendMessage` mutation: what a user types. */
  datatype NewMessage = NewMessage(user: string, text: string)

  /** The data the `getMessages` query resolves with before any message arrives. */
  const InitialMessages: seq<Message> := []
}

/** The actions that travel through the chat client's store. */
module Actions {
  import opened ChatApi

  datatype Action =
      /** `chat/startConnecting`: asks the middleware to open the socket. */
    | StartConnecting
      /** `chat/connectionEstablished`: dispatched by the socket's `connect` listener. */
    | ConnectionEstablished
      /** `chat/connectionLost`: dispatched by the socket's `disconnect` listener. */
    | ConnectionLost
      /** The pending action of the `sendMessage` mutation, carrying `meta.arg.originalArgs`. */
    | SendMessagePending(originalArgs: NewMessage)
      /**
       * Any action whose type is none of the four above (query lifecycle actions, fulfilled
       * mutations, ...); `kind` names that type and is never one of the recognised ones.
       */
    | Other(kind: string)
}
