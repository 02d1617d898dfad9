/**
  The `useChat` hook of hooks/useChat.ts as one object per mounted hook: its
  state variables are fields, each socket event handler and each emitter is a
  method, and `sent` records what the hook's socket emitted, in order.

  The handlers are registered by the mount effect, whose dependency list is
  empty, so they see the chat id of the first render (`mountChatId`), not
  later updates of `currentChatId`. A handler runs only while its listener is
  attached to a socket the cleanup has not disconnected.
 */
module UseChat {
  import opened Wrappers
  import opened Protocol

  class ChatHook {
    /** The `socket` state: set once the mount effect has created one. */
    var socket: Option<SocketId>
    var messages: seq<Message>
    var isConnected: bool
    var isLoading: bool
    var currentChatId: Option<string>
    /** `currentChatId` of the first render, which the mount effect's handlers captured. */
    const mountChatId: Option<string>
    /** The listeners attached to the hook's socket. */
    var attached: set<Listener>
    /** The hook's socket was disconnected by the cleanup. */
    var closed: bool
    var sent: seq<ClientRequest>

    /** First render of `useChat(chatId)`. */
    constructor (chatId: Option<string>)
      ensures currentChatId == OrNull(chatId)
      ensures messages == [] && !isConnected && isLoading
      ensures socket == None && mountChatId == OrNull(chatId)
      ensures attached == {} && !closed && sent == []
    {
      socket := None;
      messages := [];
      isConnected := false;
      isLoading := true;
      currentChatId := OrNull(chatId);
      mountChatId := OrNull(chatId);
      attached := {};
      closed := false;
      sent := [];
    }

    /** The mount effect: a fresh socket, all six listeners on it, and `setSocket`. */
    method Mount(newSocket: SocketId)
      modifies this
      ensures socket == Some(newSocket) && attached == AllListeners && !closed
      ensures messages == old(messages) && isConnected == old(isConnected) && isLoading == old(isLoading)
      ensures currentChatId == old(currentChatId) && sent == old(sent)
    {
      socket := Some(newSocket);
      attached := AllListeners;
      closed := false;
    }

    /** `connect`: connected, done loading, and join the captured chat if there is one. */
    method Connect()
      requires OnConnect in attached && !closed
      modifies this
      ensures isConnected && !isLoading
      ensures sent == old(sent) + if ChatIdSet(mountChatId) then [JoinChat(mountChatId.value)] else []
      ensures messages == old(messages) && currentChatId == old(currentChatId)
      ensures socket == old(socket)
      ensures attached == old(attached) && closed == old(closed)
    {
      isConnected := true;
      isLoading := false;
      if ChatIdSet(mountChatId) {
        sent := sent + [JoinChat(mountChatId.value)];
      }
    }

    /** `disconnect` and `connect_error`: not connected; nothing else changes. */
    method Disconnect()
      requires (OnDisconnect in attached || OnConnectError in attached) && !closed
      modifies this`isConnected
      ensures !isConnected
    {
      isConnected := false;
    }

    /** `chat-history`: the list is replaced wholesale and loading ends. */
    method ChatHistory(history: seq<Message>)
      requires OnChatHistory in attached && !closed
      modifies this`messages, this`isLoading
      ensures messages == history && !isLoading
    {
      messages := history;
      isLoading := false;
    }

    /** `new-message`: exactly one message at the end, for whatever room it names. */
    method NewMessage(message: Message)
      requires OnNewMessage in attached && !closed
      modifies this`messages
      ensures messages == old(messages) + [message]
    {
      messages := messages + [message];
    }

    /** `chat-created`: the new chat becomes current, with no messages, and loading ends. */
    method ChatCreated(id: string)
      requires OnChatCreated in attached && !closed
      modifies this`currentChatId, this`messages, this`isLoading
      ensures currentChatId == Some(id) && messages == [] && !isLoading
    {
      currentChatId := Some(id);
      messages := [];
      isLoading := false;
    }

    /** The second effect: join the current chat when there is a socket, a chat and a connection. */
    method JoinEffect()
      modifies this`sent
      ensures sent == old(sent) + if socket.Some? && ChatIdSet(currentChatId) && isConnected
                                  then [JoinChat(currentChatId.value)] else []
    {
      if socket.Some? && ChatIdSet(currentChatId) && isConnected {
        sent := sent + [JoinChat(currentChatId.value)];
      }
    }

    /** `sendMessage`: emit the payload for the current chat, or nothing at all. */
    method SendMessage(text: string, sender: string)
      modifies this`sent
      ensures sent == old(sent) + if socket.Some? && ChatIdSet(currentChatId) && isConnected
                                  then [Protocol.SendMessage(SendData(currentChatId.value, text, sender))] else []
    {
      if socket.Some? && ChatIdSet(currentChatId) && isConnected {
        sent := sent + [Protocol.SendMessage(SendData(currentChatId.value, text, sender))];
      }
    }

    /** The cleanup: disconnect the socket and remove five of the six listeners. */
    method Unmount()
      modifies this`closed, this`attached
      ensures closed && attached == old(attached) - RemovedOnCleanup
    {
      closed := true;
      attached := attached - RemovedOnCleanup;
    }
  }
}
