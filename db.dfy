/**
  The durable store of lib/db.ts: the `chat_rooms` and `messages` tables with
  their constraints, the two writes (`createChatRoom`, `addMessage`) as
  methods of a `Store` object, and the two queries (`getChatRoomIds`,
  `getChatRoomMessages`) as functions of its state.

  Every SQL statement may fail because the database cannot be reached; whether
  it does is an explicit `up` parameter, one per statement issued. Writes
  rethrow a failure (an `Err` outcome), reads degrade to `[]`.
 */
module Db {
  import opened Protocol

  /** `VARCHAR(50)` of `chat_rooms.id`, `messages.id` and `messages.chat_id`. */
  const MaxIdLength: nat := 50
  /** `VARCHAR(100)` of `messages.sender`. */
  const MaxSenderLength: nat := 100

  datatype DbError =
    | Unreachable          // the statement never reached the database
    | InvalidText          // a text parameter holds U+0000, which UTF8 text cannot store
    | ValueTooLong         // a value exceeds its VARCHAR column
    | DuplicateKey         // PRIMARY KEY violation
    | ForeignKeyViolation  // REFERENCES chat_rooms(id) violation

  /** A write either completes or throws. */
  datatype Outcome = Ok | Err(error: DbError)

  predicate Distinct<T(==)>(s: seq<T>) {
    forall i, j :: 0 <= i < j < |s| ==> s[i] != s[j]
  }

  /** PostgreSQL refuses a text parameter that holds U+0000 (SQLSTATE 22021)
      when it binds the parameters, before any constraint is checked. */
  predicate Storable(s: string) {
    forall i :: 0 <= i < |s| ==> s[i] != '\0'
  }

  predicate RowStorable(m: Message) {
    Storable(m.id) && Storable(m.chatId) && Storable(m.text) && Storable(m.sender)
  }

  /** A room id that `INSERT INTO chat_rooms` accepts. */
  predicate RoomIdAccepted(chatId: string) {
    Storable(chatId) && |chatId| <= MaxIdLength
  }

  /** A message row fits the column widths of the `messages` table. */
  predicate RowFits(m: Message) {
    |m.id| <= MaxIdLength && |m.chatId| <= MaxIdLength && |m.sender| <= MaxSenderLength
  }

  /** Some stored row already has primary key `id`. */
  predicate IdTaken(rows: seq<Message>, id: string) {
    exists i :: 0 <= i < |rows| && rows[i].id == id
  }

  /** A row that `INSERT INTO messages` accepts, whatever the keys already stored. */
  predicate RowAccepted(m: Message) {
    RowStorable(m) && RowFits(m)
  }

  predicate IdsDistinct(rows: seq<Message>) {
    forall i, j :: 0 <= i < j < |rows| ==> rows[i].id != rows[j].id
  }

  predicate SortedByTimestamp(s: seq<Message>) {
    forall i, j :: 0 <= i < j < |s| ==> s[i].timestamp <= s[j].timestamp
  }

  /** `h` holds exactly the rows of room `chatId`, each as often as it is stored. */
  ghost predicate HoldsRoomRows(h: seq<Message>, rows: seq<Message>, chatId: string) {
    forall m :: multiset(h)[m] == if m.chatId == chatId then multiset(rows)[m] else 0
  }

  /** `WHERE chat_id = $1`: the rows of one room, in storage order. */
  function RoomRows(rows: seq<Message>, chatId: string): (r: seq<Message>)
    ensures |r| <= |rows|
  {
    if rows == [] then []
    else (if rows[0].chatId == chatId then [rows[0]] else []) + RoomRows(rows[1..], chatId)
  }

  /** The filter keeps every row of the room, as often as it is stored, and no other row. */
  lemma {:induction false} RoomRowsCount(rows: seq<Message>, chatId: string)
    ensures HoldsRoomRows(RoomRows(rows, chatId), rows, chatId)
  {
    if rows != [] {
      assert rows == [rows[0]] + rows[1..];
      RoomRowsCount(rows[1..], chatId);
    }
  }

  /** Putting `s[0]` in front of `rest`, which holds the rest of `s` and a
      later `m`, keeps the order. */
  lemma PrependFirst(s: seq<Message>, m: Message, rest: seq<Message>)
    requires SortedByTimestamp(s) && s != [] && s[0].timestamp < m.timestamp
    requires SortedByTimestamp(rest) && multiset(rest) == multiset(s[1..]) + multiset{m}
    ensures SortedByTimestamp([s[0]] + rest)
  {
    var r := [s[0]] + rest;
    forall i, j | 0 <= i < j < |r| ensures r[i].timestamp <= r[j].timestamp {
      assert r[j] == rest[j - 1];
      if i == 0 {
        assert r[j] in multiset(rest);
        assert r[j] == m || r[j] in s[1..];
      } else {
        assert r[i] == rest[i - 1];
      }
    }
  }

  /** Places `m` before the first row whose timestamp is not smaller. */
  function InsertByTimestamp(m: Message, s: seq<Message>): (r: seq<Message>)
    requires SortedByTimestamp(s)
    ensures SortedByTimestamp(r)
    ensures multiset(r) == multiset(s) + multiset{m}
  {
    if s == [] || m.timestamp <= s[0].timestamp then [m] + s
    else
      var rest := InsertByTimestamp(m, s[1..]);
      assert s == [s[0]] + s[1..];
      PrependFirst(s, m, rest);
      [s[0]] + rest
  }

  /** `ORDER BY timestamp ASC`, as an insertion sort. */
  function SortByTimestamp(s: seq<Message>): (r: seq<Message>)
    ensures SortedByTimestamp(r)
    ensures multiset(r) == multiset(s)
  {
    if s == [] then []
    else
      assert s == [s[0]] + s[1..];
      InsertByTimestamp(s[0], SortByTimestamp(s[1..]))
  }

  class Store {
    /** Rows of `chat_rooms`, in insertion order. */
    var rooms: seq<string>
    /** Rows of `messages`, in insertion order. */
    var messages: seq<Message>

    /** The table constraints: primary keys, the foreign key and the column widths. */
    ghost predicate Valid()
      reads this
    {
      && Distinct(rooms)
      && (forall i :: 0 <= i < |rooms| ==> |rooms[i]| <= MaxIdLength)
      && IdsDistinct(messages)
      && (forall i :: 0 <= i < |messages| ==> messages[i].chatId in rooms)
      && (forall i :: 0 <= i < |messages| ==> RowFits(messages[i]))
    }

    /** Empty tables, as `initDb` leaves a fresh database. */
    constructor ()
      ensures Valid() && rooms == [] && messages == []
    {
      rooms := [];
      messages := [];
    }

    /** `INSERT INTO chat_rooms (id) VALUES ($1) ON CONFLICT DO NOTHING`, rethrowing errors. */
    method CreateChatRoom(chatId: string, up: bool) returns (o: Outcome)
      requires Valid()
      modifies this
      ensures Valid()
      ensures o == if !up then Err(Unreachable)
                   else if !Storable(chatId) then Err(InvalidText)
                   else if |chatId| > MaxIdLength then Err(ValueTooLong)
                   else Ok
      ensures o.Ok? ==> chatId in rooms
      ensures rooms == if o.Ok? && chatId !in old(rooms) then old(rooms) + [chatId] else old(rooms)
      ensures messages == old(messages)
    {
      if !up {
        return Err(Unreachable);
      }
      if !Storable(chatId) {
        return Err(InvalidText);
      }
      if |chatId| > MaxIdLength {
        return Err(ValueTooLong);
      }
      if chatId !in rooms {
        rooms := rooms + [chatId];
      }
      o := Ok;
    }

    /** `INSERT INTO messages (...) VALUES (...)`: the column widths, then the
        primary key, then the foreign key are checked. */
    method InsertMessageRow(m: Message, up: bool) returns (o: Outcome)
      requires Valid()
      modifies this
      ensures Valid()
      ensures o == if !up then Err(Unreachable)
                   else if !RowStorable(m) then Err(InvalidText)
                   else if !RowFits(m) then Err(ValueTooLong)
                   else if IdTaken(old(messages), m.id) then Err(DuplicateKey)
                   else if m.chatId !in rooms then Err(ForeignKeyViolation)
                   else Ok
      ensures messages == if o.Ok? then old(messages) + [m] else old(messages)
      ensures rooms == old(rooms)
    {
      if !up {
        return Err(Unreachable);
      }
      if !RowStorable(m) {
        return Err(InvalidText);
      }
      if !RowFits(m) {
        return Err(ValueTooLong);
      }
      if IdTaken(messages, m.id) {
        return Err(DuplicateKey);
      }
      if m.chatId !in rooms {
        return Err(ForeignKeyViolation);
      }
      messages := messages + [m];
      o := Ok;
    }

    /** `addMessage`: make sure the room exists, then insert the row; any error
        is rethrown, and a room created by the first statement stays created. */
    method AddMessage(m: Message, upRoom: bool, upInsert: bool) returns (o: Outcome)
      requires Valid()
      modifies this
      ensures Valid()
      ensures o != Err(ForeignKeyViolation)
      ensures o.Ok? <==> upRoom && upInsert && RowAccepted(m) && !IdTaken(old(messages), m.id)
      ensures o == Err(DuplicateKey) <==> upRoom && upInsert && RowAccepted(m) && IdTaken(old(messages), m.id)
      ensures messages == if o.Ok? then old(messages) + [m] else old(messages)
      ensures o.Ok? ==> m.chatId in rooms
      ensures rooms == if upRoom && RoomIdAccepted(m.chatId) && m.chatId !in old(rooms)
                       then old(rooms) + [m.chatId] else old(rooms)
    {
      o := CreateChatRoom(m.chatId, upRoom);
      if o.Err? {
        return;
      }
      o := InsertMessageRow(m, upInsert);
    }

    /** `getChatRoomIds`: every room id once, or `[]` when the query fails. */
    function ChatRoomIds(up: bool): (ids: seq<string>)
      reads this
      requires Valid()
      ensures up ==> Distinct(ids) && forall id :: id in ids <==> id in rooms
      ensures !up ==> ids == []
    {
      if up then rooms else []
    }

    /** `getChatRoomMessages`: exactly the room's rows in non-decreasing
        timestamp order, or `[]` when the query fails. */
    function ChatRoomMessages(chatId: string, up: bool): (h: seq<Message>)
      reads this
      ensures !up ==> h == []
      ensures up ==> SortedByTimestamp(h)
      ensures up ==> HoldsRoomRows(h, messages, chatId)
    {
      if up then
        RoomRowsCount(messages, chatId);
        SortByTimestamp(RoomRows(messages, chatId))
      else []
    }
  }

  /** A room without rows has an empty history, whether or not the query fails. */
  lemma EmptyRoomHasNoHistory(s: Store, chatId: string, up: bool)
    requires forall i :: 0 <= i < |s.messages| ==> s.messages[i].chatId != chatId
    ensures s.ChatRoomMessages(chatId, up) == []
  {
  }

  lemma {:induction false} RoomRowsAppend(rows: seq<Message>, m: Message, chatId: string)
    ensures RoomRows(rows + [m], chatId) == RoomRows(rows, chatId) + (if m.chatId == chatId then [m] else [])
  {
    if rows == [] {
      assert rows + [m] == [m];
    } else {
      var head := if rows[0].chatId == chatId then [rows[0]] else [];
      assert (rows + [m])[0] == rows[0];
      assert (rows + [m])[1..] == rows[1..] + [m];
      assert RoomRows(rows + [m], chatId) == head + RoomRows(rows[1..] + [m], chatId);
      RoomRowsAppend(rows[1..], m, chatId);
      assert RoomRows(rows, chatId) == head + RoomRows(rows[1..], chatId);
    }
  }

  /** Appending a row adds it to its own room's history and leaves every
      other room's history exactly as it was. */
  lemma HistoryAfterAppend(rows: seq<Message>, m: Message, chatId: string)
    ensures chatId != m.chatId ==> SortByTimestamp(RoomRows(rows + [m], chatId)) == SortByTimestamp(RoomRows(rows, chatId))
    ensures chatId == m.chatId ==> multiset(SortByTimestamp(RoomRows(rows + [m], chatId))) == multiset(RoomRows(rows, chatId)) + multiset{m}
  {
    RoomRowsAppend(rows, m, chatId);
    if chatId != m.chatId {
      assert RoomRows(rows + [m], chatId) == RoomRows(rows, chatId);
    }
  }
}
