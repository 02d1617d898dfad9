/**
  The records and events exchanged between the chat clients and the socket
  server: the `Message` record of lib/socket.ts, the payload of `send-message`,
  the requests a client emits and the events the server emits.
 */
module Protocol {
  import opened Wrappers

  /** Opaque transport identity of one socket.io connection. */
  type SocketId = string

  /** The server-side message record (lib/socket.ts): `timestamp` is a
      millisecond clock reading, taken here at or after the 1970 epoch. */
  datatype Message = Message(id: string, chatId: string, text: string, timestamp: nat, sender: string)

  /** The payload of a `send-message` request. */
  datatype SendData = SendData(chatId: string, text: string, sender: string)

  /** What a client emits to the server, in the order it emits it. */
  datatype ClientRequest =
    | CreateChat
    | JoinChat(chatId: string)
    | SendMessage(data: SendData)
    | FetchChatRooms

  /** What the server emits to a socket. */
  datatype ServerEvent =
    | ChatCreated(chatId: string)
    | ChatHistory(history: seq<Message>)
    | NewMessage(message: Message)

  /** The socket events a client registers a listener for. */
  datatype Listener = OnConnect | OnDisconnect | OnConnectError | OnChatHistory | OnNewMessage | OnChatCreated

  /** What a client's mount effect registers with `on`, and what its cleanup removes with `off`:
      every listener but the one for `connect_error`. */
  const AllListeners: set<Listener> := {OnConnect, OnDisconnect, OnConnectError, OnChatHistory, OnNewMessage, OnChatCreated}
  const RemovedOnCleanup: set<Listener> := {OnConnect, OnDisconnect, OnChatHistory, OnNewMessage, OnChatCreated}

  /** JavaScript truthiness of a `string | null` chat id: `null` and `""` are falsy. */
  predicate ChatIdSet(c: Option<string>) {
    c.Some? && c.value != ""
  }

  /** `chatId || null`: an absent or empty chat id becomes `null`. */
  function OrNull(chatId: Option<string>): (r: Option<string>)
    ensures r.Some? <==> ChatIdSet(chatId)
    ensures r.Some? ==> r == chatId
  {
    if chatId.Some? && chatId.value != "" then chatId else None
  }
}
