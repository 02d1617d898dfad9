/**
  Sequences of socket-server handlers, composed from the handlers' contracts.
 */
module Scenarios {
  import opened Protocol
  import opened Db
  import opened Decimal
  import opened SocketServer

  /** A socket that joins a room gets the history and then, live, a message
      persisted afterwards by any socket: between them the snapshot and the
      broadcast hold every row of the room, with no gap. */
  method JoinThenSend(b: Broker, joiner: SocketId, sender: SocketId, data: SendData, idClock: nat, tsClock: nat)
    returns (joined: bool, persisted: bool, history: seq<Message>, message: Message)
    requires b.Valid() && joiner in b.members && sender in b.members && idClock <= MaxClock && tsClock <= MaxClock
    modifies b, b.store
    ensures b.Valid() && joiner in b.outbox
    ensures joined <==> RoomIdAccepted(data.chatId)
    ensures persisted <==> joined && Storable(data.text) && Storable(data.sender) && |data.sender| <= MaxSenderLength
                           && !IdTaken(old(b.store.messages), message.id)
    ensures message == Message(ToDecimal(idClock), data.chatId, data.text, tsClock, data.sender)
    ensures joined ==> HoldsRoomRows(history, old(b.store.messages), data.chatId)
    ensures joined && persisted ==>
              b.outbox[joiner] == old(b.outbox[joiner]) + [ChatHistory(history), NewMessage(message)]
    ensures joined && persisted ==>
              multiset(history) + multiset{message} == multiset(b.store.ChatRoomMessages(data.chatId, true))
  {
    joined, history := JoinMember(b, joiner, data.chatId);
    persisted := false;
    message := Message(ToDecimal(idClock), data.chatId, data.text, tsClock, data.sender);
    if joined {
      persisted, message := SendToMember(b, joiner, sender, data, idClock, tsClock, history);
    }
  }

  /** A `join-chat` that the store can reach: the joiner is then a member and
      got, last, a snapshot of the room's rows; no row changes. */
  method JoinMember(b: Broker, joiner: SocketId, chatId: string) returns (joined: bool, history: seq<Message>)
    requires b.Valid() && joiner in b.members
    modifies b, b.store
    ensures b.Valid() && old(b.members).Keys <= b.members.Keys
    ensures b.store.messages == old(b.store.messages)
    ensures joined <==> RoomIdAccepted(chatId)
    ensures joined ==> chatId in b.members[joiner] && HoldsRoomRows(history, b.store.messages, chatId)
    ensures joined ==> b.outbox[joiner] == old(b.outbox[joiner]) + [ChatHistory(history)]
    ensures !joined ==> b.outbox == old(b.outbox) && history == []
  {
    var o := b.JoinChat(joiner, chatId, true, true);
    joined := o.Ok?;
    history := if joined then b.store.ChatRoomMessages(chatId, true) else [];
  }

  /** A send to a room that `joiner` is in, after `joiner` got `history`. */
  method SendToMember(b: Broker, joiner: SocketId, sender: SocketId, data: SendData, idClock: nat, tsClock: nat,
                      history: seq<Message>)
    returns (persisted: bool, message: Message)
    requires b.Valid() && joiner in b.members && sender in b.members && data.chatId in b.members[joiner]
    requires HoldsRoomRows(history, b.store.messages, data.chatId)
    requires idClock <= MaxClock && tsClock <= MaxClock
    modifies b, b.store
    ensures b.Valid() && joiner in b.outbox
    ensures persisted <==> RoomIdAccepted(data.chatId) && Storable(data.text) && Storable(data.sender)
                           && |data.sender| <= MaxSenderLength && !IdTaken(old(b.store.messages), message.id)
    ensures message == Message(ToDecimal(idClock), data.chatId, data.text, tsClock, data.sender)
    ensures persisted ==> b.outbox[joiner] == old(b.outbox[joiner]) + [NewMessage(message)]
    ensures persisted ==> multiset(history) + multiset{message} == multiset(b.store.ChatRoomMessages(data.chatId, true))
  {
    ghost var before := b.store.messages;
    var o;
    o, message := b.SendMessage(sender, data, idClock, tsClock, true, true);
    persisted := o.Ok?;
    if persisted {
      SnapshotPlusLive(before, message, data.chatId, history, b.store.ChatRoomMessages(data.chatId, true));
    }
  }

  /** The snapshot of a room taken before `m` was appended, plus `m`, is the
      room's history after the append. */
  lemma SnapshotPlusLive(before: seq<Message>, m: Message, chatId: string, history: seq<Message>, after: seq<Message>)
    requires m.chatId == chatId
    requires HoldsRoomRows(history, before, chatId) && HoldsRoomRows(after, before + [m], chatId)
    ensures multiset(history) + multiset{m} == multiset(after)
  {
    assert multiset(before + [m]) == multiset(before) + multiset{m};
    forall x ensures (multiset(history) + multiset{m})[x] == multiset(after)[x] {
    }
  }
}
