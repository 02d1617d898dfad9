# Chat relay: store, socket server and clients

This project models a small socket.io chat application in Dafny. It has three
event-driven parts, and each is modelled as a class whose methods are the
handlers. Each handler runs as one atomic step.

- **The durable store** (`lib/db.ts`) is the `Db.Store` class. It holds the
  `chat_rooms` and `messages` tables. Its validity predicate states the table
  constraints: primary keys, the foreign key from a message to its room, and
  the `VARCHAR` widths. There are two writes, `createChatRoom` and
  `addMessage`. Each rethrows a failure, which the model returns as an `Err`
  outcome. There are two queries, `getChatRoomIds` and `getChatRoomMessages`.
  On failure each degrades to `[]`. Whether each SQL statement reaches the
  database is a `bool` parameter.
- **The socket server** (`server/socket-server.ts`) is the
  `SocketServer.Broker` class. It holds:
  1. the store;
  2. socket.io's room membership for every connected socket;
  3. everything emitted to each socket;
  4. a ghost trace of the effects in the order they happen.

  The handlers are `create-chat`, `join-chat`, `send-message`,
  `fetch-chat-rooms` and `disconnect`. The random room id and the two
  `Date.now()` readings are parameters.
- **The two clients** are the `useChat` hook (`hooks/useChat.ts`), modelled as
  `UseChat.ChatHook`, and the `SocketProvider` (`contexts/SocketContext.tsx`),
  modelled as `SocketContext.Provider` with the module-level
  `SocketContext.SocketSingleton`. Their event handlers and emitters each get
  a contract. That contract says which fields are replaced, appended to or
  cleared, and what is emitted. Everything else is unchanged.

`Scenarios.JoinThenSend` composes the server's contracts. A socket that joins
a room gets a history snapshot, and then any message persisted afterwards
reaches it live. Together, the snapshot and the live message hold exactly the
room's rows, with no gap.

The model follows the code in these places:

- `join-chat` never leaves a previously joined room.
- `send-message` does not check that the sender is a member of the room.
- `disconnect` only logs.
- `create-chat` makes the creator join the new room.
- The handlers in both clients are registered by a mount effect whose
  dependency list is empty. They read the chat id of the first render, which
  that effect's closure captured, not later state. The constant `mountChatId`
  holds the captured value. In `useChat`, that is the hook's argument. In
  `SocketProvider`, it is the initial `null` of its `chatId` state. So the
  provider's `connect` handler never rejoins, and its joins come only from the
  join effect.
- A client's handler runs only while its listener is registered. After the
  `useChat` cleanup, the hook's socket is disconnected and none of its
  handlers runs. Each `off(event)` in a provider's cleanup removes every
  provider's listener for that event, not just its own.

## Model

| member | source | states |
|---|---|---|
| Protocol.OrNull | hooks/useChat.ts:13 | the definition of `chatId or null` as JavaScript evaluates it: the result is a chat id exactly when the argument is a non-empty string, and then it is the argument unchanged |
| Decimal.ToDecimal | server/socket-server.ts:46 | the rendering of a clock reading is a non-empty string of decimal digits with no leading zero |
| Decimal.FromToDecimal | server/socket-server.ts:46 | reading the rendered id back as a decimal number gives the clock reading (round trip) |
| Decimal.ToDecimalInjective | server/socket-server.ts:46 | two clock readings give the same message id if and only if they are equal |
| Decimal.ToDecimalLength | server/socket-server.ts:46 | a reading below 10^k renders to at most k digits |
| Decimal.Pow10Add | server/socket-server.ts:46 | 10^(a+b) = 10^a * 10^b, which bounds the digit count of a clock reading |
| SocketServer.ClockIdLength | server/socket-server.ts:46 | every `Date.now()` reading renders to at most sixteen digits, so a message id always fits `VARCHAR(50)` |
| Db.RoomRows | lib/db.ts:92 | the `WHERE chat_id = $1` filter, in storage order; it keeps at most the stored rows, and `Db.RoomRowsCount` states exactly which |
| Db.RoomRowsCount | lib/db.ts:91-93 | `WHERE chat_id = $1` keeps every row of the room as often as it is stored, and no row of another room |
| Db.RoomRowsAppend | lib/db.ts:91-93 | filtering the rows plus one appended row gives the old filter result, plus the new row if it belongs to the room |
| Db.InsertByTimestamp | lib/db.ts:92 | inserting into a timestamp-sorted list keeps it sorted and adds exactly that message |
| Db.SortByTimestamp | lib/db.ts:92 | `ORDER BY timestamp ASC`: the result is sorted by timestamp and is a permutation of the input |
| Db.Store.Valid | lib/db.ts:22-39 | the table constraints, which every store and broker operation requires and preserves: room ids are distinct (primary key) and fit `VARCHAR(50)`; message ids are distinct (primary key); every message names a stored room (foreign key); every row fits its `VARCHAR` columns |
| Db.Store.constructor | lib/db.ts:22-39 | fresh tables are empty and satisfy every table constraint |
| Db.Store.CreateChatRoom | lib/db.ts:51-58 | failure is rethrown, an id holding U+0000 is refused, and an id longer than 50 is rejected; otherwise the room exists afterwards, is added only if it was absent (ON CONFLICT DO NOTHING), and no message changes |
| Db.Store.InsertMessageRow | lib/db.ts:78-81 | the row is appended exactly when the database is reached, no value holds U+0000, the column widths fit, its id is new (primary key) and its room exists (foreign key); each failure gives its own error, and the constraints are preserved |
| Db.Store.AddMessage | lib/db.ts:72-86 | succeeds exactly when both statements reach the database, the row holds no U+0000 and fits its columns, and the id is new, and then appends exactly that row; a duplicate id is the error exactly when the rest holds; the foreign key can never fail; the room creation stays in effect when the insert fails |
| Db.Store.ChatRoomIds | lib/db.ts:61-69 | every stored room id exactly once and nothing else, or `[]` when the query fails |
| Db.Store.ChatRoomMessages | lib/db.ts:89-100 | exactly the room's rows, each as often as stored, in non-decreasing timestamp order, or `[]` when the query fails |
| Db.EmptyRoomHasNoHistory | lib/db.ts:89-95 | a room with no stored rows has an empty history |
| Db.HistoryAfterAppend | lib/db.ts:78-95 | appending a message adds it to its own room's history (as multisets); every other room's history is unchanged, as a sequence under the model's choice of order among equal timestamps and so also as the multiset the query promises |
| SocketServer.Recipients | server/socket-server.ts:57 | the definition of `io.to(chatId)`: it reaches exactly the connected sockets that have joined room `chatId` |
| SocketServer.Broker.constructor | server/socket-server.ts:18-20 | the server starts with no sockets, no events and an empty trace over a valid store |
| SocketServer.Broker.Connect | server/socket-server.ts:20 | a new socket is in exactly the room named by its own id and has received nothing; membership only grows |
| SocketServer.Broker.CreateChat | server/socket-server.ts:24-30 | succeeds exactly when the store is reached; then the fresh id is a stored room, the requester is a member, and only the requester gets `chat-created`; the trace is store write, join, emit; membership only grows |
| SocketServer.Broker.JoinChat | server/socket-server.ts:33-41 | it fails, with no join and no history, exactly when the store is unreachable, the id holds U+0000 or the id is longer than 50; otherwise an unknown id is created as a room and a known one leaves the rooms unchanged; the socket joins before the history is read, and only the joiner gets the snapshot of the room after the join; membership only grows |
| SocketServer.Broker.SendMessage | server/socket-server.ts:44-59 | the message copies the payload verbatim, with the id rendered from one clock reading and the timestamp from the other; the row is accepted exactly when no field of the payload holds U+0000 and the room id and the sender fit their columns; it is persisted then broadcast to every member of the room whether or not the sender is one; on failure nothing is broadcast; membership is unchanged |
| SocketServer.Broker.FetchChatRooms | server/socket-server.ts:61-64 | the reply is exactly the store's room ids, each once, or `[]`; nothing changes |
| SocketServer.Broker.Disconnect | server/socket-server.ts:67-69 | nothing changes: no membership and no event is dropped |
| Scenarios.JoinThenSend | server/socket-server.ts:33-57 | the join succeeds exactly when the store accepts the room id, and the send then persists exactly when the text and sender hold no U+0000, the sender fits and the id is new; the message is built from the payload and the clock readings; a joiner gets the history and then the live message, in that order; the snapshot holds the room's rows before the send, and snapshot plus message is the room's history after it |
| Scenarios.SendToMember | server/socket-server.ts:44-57 | the send persists exactly when the store accepts the row and its id is new, and the message is built from the payload and the clock readings; a member of the room then receives the persisted message once, after everything it had received, and the message completes its snapshot to the new history |
| Scenarios.JoinMember | server/socket-server.ts:33-41 | a join succeeds exactly when the store accepts the room id; the joiner is then a member whose last event is the snapshot of exactly the room's rows, and no row changes; a failed join sends nothing |
| Scenarios.SnapshotPlusLive | lib/db.ts:89-95 | the history before an append, plus the appended row, is the history after it (as multisets) |
| UseChat.ChatHook.constructor | hooks/useChat.ts:9-13 | no socket, no messages, not connected, loading, nothing attached; the current chat, and the one the handlers capture, is the argument, and none when it is empty or absent |
| UseChat.ChatHook.Mount | hooks/useChat.ts:17-64 | a new socket with all six listeners attached; no other state changes and nothing is emitted |
| UseChat.ChatHook.Connect | hooks/useChat.ts:27-36 | runs only while its listener is attached to a live socket; connected and not loading; emits `join-chat` for the captured chat exactly when it is set; nothing else changes |
| UseChat.ChatHook.Disconnect | hooks/useChat.ts:38-46 | while one of the two listeners is attached to a live socket, `disconnect` and `connect_error` only clear `isConnected` |
| UseChat.ChatHook.ChatHistory | hooks/useChat.ts:48-51 | while its listener is attached, the message list is replaced wholesale and loading ends; nothing else changes |
| UseChat.ChatHook.NewMessage | hooks/useChat.ts:53-55 | while its listener is attached, exactly one message is appended, whatever its room, and earlier messages are kept |
| UseChat.ChatHook.ChatCreated | hooks/useChat.ts:57-62 | while its listener is attached, the current chat becomes the id, the messages are emptied and loading ends |
| UseChat.ChatHook.JoinEffect | hooks/useChat.ts:78-82 | emits `join-chat` for the current chat exactly when a socket exists, a chat is set and it is connected |
| UseChat.ChatHook.SendMessage | hooks/useChat.ts:84-92 | emits `{chatId: current, text, sender}` exactly when a socket exists, a chat is set and it is connected; otherwise nothing is emitted |
| UseChat.ChatHook.Unmount | hooks/useChat.ts:66-74 | the socket is disconnected, so no handler runs any more, and five listeners are removed; the `connect_error` listener stays |
| SocketContext.AddMountListeners | contexts/SocketContext.tsx:57-91 | `on(event, ...)` for each of the six events appends one listener of this provider to that event's array; the other arrays are kept |
| SocketContext.RemoveCleanedUp | contexts/SocketContext.tsx:106-110 | `off(event)` empties the array of each of the five events, whichever providers registered into it, and keeps the other arrays |
| SocketContext.SocketSingleton.constructor | contexts/SocketContext.tsx:22 | at module load there is no socket, no listener and no emit |
| SocketContext.Provider.constructor | contexts/SocketContext.tsx:33-37 | no socket and no chat, no messages, not connected, loading |
| SocketContext.Provider.Mount | contexts/SocketContext.tsx:46-100 | the singleton is created only when absent, so it is created at most once and then reused; if `io` throws, only loading ends; otherwise this provider's six listeners are appended and the socket is published |
| SocketContext.Provider.Unmount | contexts/SocketContext.tsx:103-112 | removes every listener for the five events, so no provider's handlers for them run any more; it never disconnects or clears the singleton |
| SocketContext.Provider.Connect | contexts/SocketContext.tsx:57-66 | runs only while this provider's listener is registered; connected and not loading; it never emits, because the captured chat id is `null` |
| SocketContext.Provider.Disconnect | contexts/SocketContext.tsx:68-76 | while one of this provider's two listeners is registered, `disconnect` and `connect_error` only clear `isConnected` |
| SocketContext.Provider.ChatHistory | contexts/SocketContext.tsx:78-81 | while this provider's listener is registered, the message list is replaced wholesale and loading ends |
| SocketContext.Provider.NewMessage | contexts/SocketContext.tsx:83-85 | while this provider's listener is registered, exactly one message is appended at the end |
| SocketContext.Provider.ChatCreated | contexts/SocketContext.tsx:87-91 | while this provider's listener is registered, the chat becomes the id, the messages are emptied and loading ends |
| SocketContext.Provider.JoinEffect | contexts/SocketContext.tsx:116-120 | emits `join-chat` for the current chat exactly when the singleton exists, a chat is set and it is connected |
| SocketContext.Provider.CreateNewChat | contexts/SocketContext.tsx:122-127 | with a connected singleton, loading starts and `create-chat` is emitted; otherwise nothing happens |
| SocketContext.Provider.JoinChat | contexts/SocketContext.tsx:129-134 | a non-empty id starts loading and becomes the chat; an empty id changes nothing |
| SocketContext.Provider.SetChatId | contexts/SocketContext.tsx:34 | the exposed state setter sets the chat and nothing else |
| SocketContext.Provider.SendMessage | contexts/SocketContext.tsx:136-144 | emits the payload for the current chat exactly when the singleton exists, a chat is set and it is connected; otherwise nothing is emitted |

## Left out

- Logging (`console.*`) and the HTTP and Next.js bootstrap of the server are not modelled. They have no effect on state.
- The connection pool and the execution of the `initDb` DDL are left out. The tables it creates are the model's state, and their constraints are `Db.Store.Valid`.
- The `created_at` columns are left out. No query reads them.
- PostgreSQL silently truncates an over-long value when the excess is only spaces. The model rejects every over-long value.
- PostgreSQL's UTF8 encoding check on text parameters is modelled only for U+0000, which it always refuses. A JavaScript string may also hold an unpaired UTF-16 surrogate, which a Dafny `char` cannot. node-postgres writes such a surrogate as U+FFFD, while socket.io's JSON keeps it. So for such a text the stored row and its `chat-history` replay differ from the live `new-message`, and `Scenarios.JoinThenSend`'s "snapshot plus live message" then holds only up to that replacement. The model cannot represent this input.
- `Date.now()` below 0 is not modelled: a clock set before 1970, down to ECMAScript's -8.64e15. For such a reading `toString()` writes a leading `-` and the `BIGINT` column stores the value. Clock readings and `timestamp` are `nat`.
- node-postgres returns a `BIGINT` column as a string. The model keeps `timestamp` as a number.
- The order among rows with equal timestamps is not modelled: SQL leaves it unspecified. `Db.Store.ChatRoomMessages` promises only some timestamp-sorted permutation of the room's rows.
- The unused `chatRooms` and `chatMessages` exports are left out.
- The zod schemas of `lib/schemas.ts` are not part of this model, and neither are the UI pages under `app/`.
- `Math.random` and `Date.now()` are not modelled. Their values are parameters. A clock reading is at most 8.64e15, the end of ECMAScript's time range. `Decimal.ToDecimal` models `toString()` only below 10^21, where JavaScript switches to exponent notation; every clock reading is below that bound.
- Collisions of the fresh room id are not retried, as in the code. The id is a parameter with at most eight base-36 digits, and a repeated id reuses the stored room (`ON CONFLICT DO NOTHING`).
- Whether a socket ever delivers an event is not modelled. Each emit is appended to the recipient's outbox.
- Reconnection, and socket.io's removal of a disconnected socket from its rooms, are transport behaviour. They are not modelled.
- A handler whose `await` throws leaves an unhandled rejection. Node's policy for such rejections is not modelled: the handler simply stops after the failed statement.
- Async handlers can interleave at their `await` points. This is not modelled: each handler is one atomic step.
- React's scheduling of effects is not modelled. The join effects are separate methods, which React runs after a render in which their dependencies changed.
- The `typeof window` guard for server-side rendering is not modelled.
- The cleanup's `disconnect()` makes socket.io run the `disconnect` handler once more. Also, a provider's `connect_error` listener outlives its cleanup. Both then set state on an unmounted component, which React ignores, so neither is modelled.
- `useSocket` throwing outside a provider is not modelled.
- The `router.push` navigation in `useChat`'s `chat-created` handler is not modelled.
- SocketServer.Broker.Disconnect: its contract states only validity. "Nothing changes" follows from it having no `modifies` clause.
