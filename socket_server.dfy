/**
  The socket server of server/socket-server.ts: one `Broker` object holds the
  store, the socket.io room membership of every connected socket and, per
  socket, the events emitted to it. Each handler runs as one atomic step.
  The random room id and the two `Date.now()` readings of `send-message` are
  parameters, as is the reachability of the database for each statement.
 */
module SocketServer {
  import opened Protocol
  import opened Decimal
  import opened Db

  /** `Math.random().toString(36).substring(2, 10)`: at most eight base-36 digits. */
  predicate RandomToken(s: string) {
    |s| <= 8 && forall i :: 0 <= i < |s| ==> ('0' <= s[i] <= '9' || 'a' <= s[i] <= 'z')
  }

  /** The largest `Date.now()` reading: 8.64e15 ms, the end of the range ECMA-262
      allows for time values. Below 10^21 `toString()` writes plain digits. */
  const MaxClock: nat := 8640000000000000

  /** A clock reading renders to at most sixteen digits. */
  lemma ClockIdLength(n: nat)
    requires n <= MaxClock
    ensures |ToDecimal(n)| <= 16
  {
    assert Pow10(16) == 10000000000000000 by {
      assert Pow10(4) == 10000;
      assert Pow10(8) == Pow10(4) * Pow10(4) by { Pow10Add(4, 4); }
      assert Pow10(16) == Pow10(8) * Pow10(8) by { Pow10Add(8, 8); }
    }
    ToDecimalLength(n, 16);
  }

  /** The effects a handler has, in the order it has them. */
  datatype Step =
    | CreateRoomCall(chatId: string)                 // await createChatRoom(...)
    | JoinRoom(socket: SocketId, chatId: string)     // socket.join(...)
    | HistoryQuery(chatId: string)                   // await getChatRoomMessages(...)
    | AddMessageCall(message: Message)               // await addMessage(...)
    | Emit(to: set<SocketId>, event: ServerEvent)    // socket.emit / io.to(room).emit

  /** The sockets `io.to(chatId)` reaches. */
  function Recipients(members: map<SocketId, set<string>>, chatId: string): (r: set<SocketId>)
    ensures r <= members.Keys
    ensures forall t :: t in members ==> (t in r <==> chatId in members[t])
  {
    set t | t in members && chatId in members[t]
  }

  /** No socket left, and no socket left a room. */
  ghost predicate Grown(before: map<SocketId, set<string>>, after: map<SocketId, set<string>>) {
    forall t :: t in before ==> t in after && before[t] <= after[t]
  }

  class Broker {
    const store: Store
    /** socket.io's rooms, per socket. */
    var members: map<SocketId, set<string>>
    /** Everything emitted to each socket, oldest first. */
    var outbox: map<SocketId, seq<ServerEvent>>
    ghost var trace: seq<Step>

    ghost predicate Valid()
      reads this, store
    {
      store.Valid() && outbox.Keys == members.Keys
    }

    /** The server starts over whatever the database already holds. */
    constructor (store: Store)
      requires store.Valid()
      ensures Valid() && this.store == store
      ensures members == map[] && outbox == map[] && trace == []
    {
      this.store := store;
      members := map[];
      outbox := map[];
      trace := [];
    }

    /** `io.on("connection")`: socket.io puts the new socket in a room named by its own id. */
    method Connect(s: SocketId)
      requires Valid() && s !in members
      modifies this
      ensures Valid()
      ensures members == old(members)[s := {s}] && outbox == old(outbox)[s := []]
      ensures trace == old(trace)
      ensures Grown(old(members), members)
    {
      members := members[s := {s}];
      outbox := outbox[s := []];
    }

    /** `create-chat`: store the fresh id as a room, join it, and tell only the requester. */
    method CreateChat(s: SocketId, chatId: string, up: bool) returns (o: Outcome)
      requires Valid() && s in members && RandomToken(chatId)
      modifies this, store
      ensures Valid()
      ensures o.Ok? <==> up
      ensures o.Ok? ==> chatId in store.rooms
      ensures store.rooms == if up && chatId !in old(store.rooms) then old(store.rooms) + [chatId] else old(store.rooms)
      ensures store.messages == old(store.messages)
      ensures members == if up then old(members)[s := old(members[s]) + {chatId}] else old(members)
      ensures outbox == if up then old(outbox)[s := old(outbox[s]) + [ChatCreated(chatId)]] else old(outbox)
      ensures trace == old(trace) + [CreateRoomCall(chatId)] +
                       (if up then [JoinRoom(s, chatId), Emit({s}, ChatCreated(chatId))] else [])
      ensures Grown(old(members), members)
    {
      trace := trace + [CreateRoomCall(chatId)];
      o := store.CreateChatRoom(chatId, up);
      if o.Err? {
        return;
      }
      members := members[s := members[s] + {chatId}];
      trace := trace + [JoinRoom(s, chatId)];
      outbox := outbox[s := outbox[s] + [ChatCreated(chatId)]];
      trace := trace + [Emit({s}, ChatCreated(chatId))];
    }

    /** `join-chat`: create the room if it is new, join it, then read the
        history and send it to the requester only. */
    method JoinChat(s: SocketId, chatId: string, upRoom: bool, upHistory: bool) returns (o: Outcome)
      requires Valid() && s in members
      modifies this, store
      ensures Valid()
      ensures o == if !upRoom then Err(Unreachable)
                   else if !Storable(chatId) then Err(InvalidText)
                   else if |chatId| > MaxIdLength then Err(ValueTooLong)
                   else Ok
      ensures store.rooms == if o.Ok? && chatId !in old(store.rooms) then old(store.rooms) + [chatId] else old(store.rooms)
      ensures store.messages == old(store.messages)
      ensures members == if o.Ok? then old(members)[s := old(members[s]) + {chatId}] else old(members)
      ensures var history := store.ChatRoomMessages(chatId, upHistory);
              outbox == if o.Ok? then old(outbox)[s := old(outbox[s]) + [ChatHistory(history)]] else old(outbox)
      ensures var history := store.ChatRoomMessages(chatId, upHistory);
              trace == old(trace) + [CreateRoomCall(chatId)] +
                       (if o.Ok? then [JoinRoom(s, chatId), HistoryQuery(chatId), Emit({s}, ChatHistory(history))] else [])
      ensures Grown(old(members), members)
    {
      trace := trace + [CreateRoomCall(chatId)];
      o := store.CreateChatRoom(chatId, upRoom);
      if o.Err? {
        return;
      }
      members := members[s := members[s] + {chatId}];
      trace := trace + [JoinRoom(s, chatId)];
      var history := store.ChatRoomMessages(chatId, upHistory);
      trace := trace + [HistoryQuery(chatId)];
      outbox := outbox[s := outbox[s] + [ChatHistory(history)]];
      trace := trace + [Emit({s}, ChatHistory(history))];
    }

    /** `send-message`: build the message from the payload and two clock
        readings, persist it, and only then broadcast it to every socket in
        the room, whether or not the sender is one of them. */
    method SendMessage(s: SocketId, data: SendData, idClock: nat, tsClock: nat, upRoom: bool, upInsert: bool)
      returns (o: Outcome, message: Message)
      requires Valid() && s in members && idClock <= MaxClock && tsClock <= MaxClock
      modifies this, store
      ensures Valid()
      ensures message.id == ToDecimal(idClock) && message.timestamp == tsClock
      ensures message.chatId == data.chatId && message.text == data.text && message.sender == data.sender
      ensures o.Ok? <==> upRoom && upInsert && RowAccepted(message) && !IdTaken(old(store.messages), message.id)
      ensures o == Err(DuplicateKey) <==> upRoom && upInsert && RowAccepted(message) && IdTaken(old(store.messages), message.id)
      ensures RowAccepted(message) <==>
                RoomIdAccepted(data.chatId) && Storable(data.text) && Storable(data.sender) && |data.sender| <= MaxSenderLength
      ensures store.messages == if o.Ok? then old(store.messages) + [message] else old(store.messages)
      ensures store.rooms == if upRoom && RoomIdAccepted(data.chatId) && data.chatId !in old(store.rooms)
                             then old(store.rooms) + [data.chatId] else old(store.rooms)
      ensures members == old(members)
      ensures o.Err? ==> outbox == old(outbox)
      ensures o.Ok? ==> outbox.Keys == old(outbox).Keys &&
                        forall t :: t in outbox ==>
                          outbox[t] == old(outbox[t]) + (if data.chatId in members[t] then [NewMessage(message)] else [])
      ensures trace == old(trace) + [AddMessageCall(message)] +
                       (if o.Ok? then [Emit(Recipients(members, data.chatId), NewMessage(message))] else [])
    {
      message := Message(ToDecimal(idClock), data.chatId, data.text, tsClock, data.sender);
      ClockIdLength(idClock);
      trace := trace + [AddMessageCall(message)];
      o := store.AddMessage(message, upRoom, upInsert);
      if o.Err? {
        return;
      }
      outbox := map t | t in outbox :: if data.chatId in members[t] then outbox[t] + [NewMessage(message)] else outbox[t];
      trace := trace + [Emit(Recipients(members, data.chatId), NewMessage(message))];
    }

    /** `fetch-chat-rooms`: answer the callback with the store's room ids; nothing changes. */
    method FetchChatRooms(s: SocketId, up: bool) returns (ids: seq<string>)
      requires Valid() && s in members
      ensures up ==> Distinct(ids) && forall id :: id in ids <==> id in store.rooms
      ensures !up ==> ids == []
    {
      ids := store.ChatRoomIds(up);
    }

    /** `disconnect`: the handler only logs, so it changes nothing (it has no modifies clause). */
    method Disconnect(s: SocketId)
      requires Valid() && s in members
      ensures Valid()
    {
    }
  }
}
