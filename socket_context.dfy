/**
  contexts/SocketContext.tsx: the module-level socket singleton shared by
  every `SocketProvider`, and one provider's state, handlers, emitters and
  effects. Emits go through the singleton and are recorded in its `sent`.

  The handlers are registered by the mount effect, whose dependency list is
  empty, so its closure holds the provider's `chatId` of the first render,
  which is always `null` (`mountChatId`); the emitters and the join effect
  read the current state. A provider's handler for an event runs only while
  the singleton's listener array for that event holds it.
 */
module SocketContext {
  import opened Wrappers
  import opened Protocol

  /** The listener array of event `e`, oldest first; `[]` once `off(e)` removed it. */
  function Registered(handlers: map<Listener, seq<Provider>>, e: Listener): seq<Provider> {
    if e in handlers then handlers[e] else []
  }

  /** `on(e, ...)` by provider `p` for each of the six events: one more listener at the end of each array. */
  function AddMountListeners(handlers: map<Listener, seq<Provider>>, p: Provider): (r: map<Listener, seq<Provider>>)
    ensures forall e :: Registered(r, e) == if e in AllListeners then Registered(handlers, e) + [p] else Registered(handlers, e)
  {
    map e | e in AllListeners + handlers.Keys :: if e in AllListeners then Registered(handlers, e) + [p] else handlers[e]
  }

  /** `off(e)` for each event the cleanup names: every listener for those
      events goes, whichever provider registered it; the others stay. */
  function RemoveCleanedUp(handlers: map<Listener, seq<Provider>>): (r: map<Listener, seq<Provider>>)
    ensures forall e :: Registered(r, e) == if e in RemovedOnCleanup then [] else Registered(handlers, e)
  {
    handlers - RemovedOnCleanup
  }

  /** The module-level `let socketInstance` and what is attached to it. */
  class SocketSingleton {
    var socketInstance: Option<SocketId>
    /** How many times `io(...)` was called. */
    ghost var created: nat
    /** Per event, the providers whose listeners are attached, in registration order. */
    var handlers: map<Listener, seq<Provider>>
    var sent: seq<ClientRequest>

    ghost predicate Valid()
      reads this
    {
      && created <= 1 && (socketInstance.Some? <==> created == 1)
      && (socketInstance.None? ==> handlers == map[])
    }

    /** Module load: no socket yet. */
    constructor ()
      ensures Valid() && socketInstance == None && created == 0
      ensures handlers == map[] && sent == []
    {
      socketInstance := None;
      created := 0;
      handlers := map[];
      sent := [];
    }
  }

  class Provider {
    const shared: SocketSingleton
    var socket: Option<SocketId>
    var chatId: Option<string>
    var messages: seq<Message>
    var isConnected: bool
    var isLoading: bool
    /** `chatId` of the first render, which the mount effect's handlers captured. */
    const mountChatId: Option<string> := None

    /** First render of a `SocketProvider`. */
    constructor (shared: SocketSingleton)
      ensures this.shared == shared
      ensures socket == None && chatId == None && messages == [] && !isConnected && isLoading
    {
      this.shared := shared;
      socket := None;
      chatId := None;
      messages := [];
      isConnected := false;
      isLoading := true;
    }

    /** The mount effect's `initializeSocket`: create the singleton only if
        there is none (`io(...)` may throw, which only ends loading), then
        register this provider's six listeners and publish the singleton as `socket`. */
    method Mount(newSocket: SocketId, ioThrows: bool)
      requires shared.Valid()
      modifies this, shared
      ensures shared.Valid() && shared.sent == old(shared.sent)
      ensures old(shared.socketInstance).Some? ==> shared.socketInstance == old(shared.socketInstance)
      ensures old(shared.socketInstance).None? ==> shared.socketInstance == if ioThrows then None else Some(newSocket)
      ensures shared.socketInstance.Some? ==>
                && shared.handlers == AddMountListeners(old(shared.handlers), this)
                && socket == shared.socketInstance && isLoading == old(isLoading)
      ensures shared.socketInstance.None? ==>
                && shared.handlers == old(shared.handlers) && socket == old(socket) && !isLoading
      ensures chatId == old(chatId) && messages == old(messages) && isConnected == old(isConnected)
    {
      if shared.socketInstance.None? {
        if ioThrows {
          isLoading := false;
          return;
        }
        shared.socketInstance := Some(newSocket);
        shared.created := shared.created + 1;
      }
      shared.handlers := AddMountListeners(shared.handlers, this);
      socket := shared.socketInstance;
    }

    /** The cleanup: `off` the five events, which removes every provider's
        listeners for them; the singleton stays, connected. */
    method Unmount()
      requires shared.Valid()
      modifies shared`handlers
      ensures shared.Valid()
      ensures shared.handlers == if old(shared.socketInstance).Some? then RemoveCleanedUp(old(shared.handlers))
                                 else old(shared.handlers)
    {
      if shared.socketInstance.Some? {
        shared.handlers := RemoveCleanedUp(shared.handlers);
      }
    }

    /** `connect`: connected and done loading. The rejoin tests the captured
        `chatId`, which is `null`, so it never emits. */
    method Connect()
      requires this in Registered(shared.handlers, OnConnect)
      modifies this`isConnected, this`isLoading
      ensures isConnected && !isLoading
      ensures shared.sent == old(shared.sent)
    {
      isConnected := true;
      isLoading := false;
      assert !ChatIdSet(mountChatId);
    }

    /** `disconnect` and `connect_error`: not connected; nothing else changes. */
    method Disconnect()
      requires this in Registered(shared.handlers, OnDisconnect) || this in Registered(shared.handlers, OnConnectError)
      modifies this`isConnected
      ensures !isConnected
    {
      isConnected := false;
    }

    /** `chat-history`: the list is replaced wholesale and loading ends. */
    method ChatHistory(history: seq<Message>)
      requires this in Registered(shared.handlers, OnChatHistory)
      modifies this`messages, this`isLoading
      ensures messages == history && !isLoading
    {
      messages := history;
      isLoading := false;
    }

    /** `new-message`: exactly one message at the end. */
    method NewMessage(message: Message)
      requires this in Registered(shared.handlers, OnNewMessage)
      modifies this`messages
      ensures messages == old(messages) + [message]
    {
      messages := messages + [message];
    }

    /** `chat-created`: the new chat becomes current, with no messages, and loading ends. */
    method ChatCreated(id: string)
      requires this in Registered(shared.handlers, OnChatCreated)
      modifies this`chatId, this`messages, this`isLoading
      ensures chatId == Some(id) && messages == [] && !isLoading
    {
      chatId := Some(id);
      messages := [];
      isLoading := false;
    }

    /** The join effect: join the current chat when the singleton exists, a chat is set and it is connected. */
    method JoinEffect()
      modifies shared`sent
      ensures shared.sent == old(shared.sent) +
                if shared.socketInstance.Some? && ChatIdSet(chatId) && isConnected then [Protocol.JoinChat(chatId.value)] else []
    {
      if shared.socketInstance.Some? && ChatIdSet(chatId) && isConnected {
        shared.sent := shared.sent + [Protocol.JoinChat(chatId.value)];
      }
    }

    /** `createNewChat`: with a connected singleton, start loading and ask for a room; otherwise nothing. */
    method CreateNewChat()
      modifies this`isLoading, shared`sent
      ensures var go := shared.socketInstance.Some? && isConnected;
              && isLoading == (go || old(isLoading))
              && shared.sent == old(shared.sent) + if go then [Protocol.CreateChat] else []
    {
      if shared.socketInstance.Some? && isConnected {
        isLoading := true;
        shared.sent := shared.sent + [Protocol.CreateChat];
      }
    }

    /** `joinChat(id)`: a non-empty id starts loading and becomes current; `""` changes nothing. */
    method JoinChat(id: string)
      modifies this`isLoading, this`chatId
      ensures id != "" ==> isLoading && chatId == Some(id)
      ensures id == "" ==> isLoading == old(isLoading) && chatId == old(chatId)
    {
      if id != "" {
        isLoading := true;
        chatId := Some(id);
      }
    }

    /** The exposed `setChatId` state setter. */
    method SetChatId(id: Option<string>)
      modifies this`chatId
      ensures chatId == id
    {
      chatId := id;
    }

    /** `sendMessage`: emit the payload for the current chat, or nothing at all. */
    method SendMessage(text: string, sender: string)
      modifies shared`sent
      ensures shared.sent == old(shared.sent) +
                if shared.socketInstance.Some? && ChatIdSet(chatId) && isConnected
                then [Protocol.SendMessage(SendData(chatId.value, text, sender))] else []
    {
      if shared.socketInstance.Some? && ChatIdSet(chatId) && isConnected {
        shared.sent := shared.sent + [Protocol.SendMessage(SendData(chatId.value, text, sender))];
      }
    }
  }
}
