# KiroChat room and signaling coordinator, in Dafny

This project models the server side of KiroChat's meeting rooms, which lives in
`server/src/socketManager.js`. The server keeps a registry of rooms in memory.
Each room has an optional password, an admin (a socket id and the display name
it was granted under), a map of participants keyed by socket id, four boolean
settings and an ordered queue of join requests waiting for approval.

Every Socket.IO handler is modelled twice:

- a pure function in module `Handlers` takes the registry before the event, the
  calling socket's id and the payload. For every handler but disconnect it
  gives the registry afterwards, the acknowledgement sent to the caller, and
  the events emitted, in order. Disconnect has no acknowledgement:
  `Handlers.DisconnectRooms` gives the registry afterwards, and
  `Handlers.DisconnectNotices` gives the set of departure notices, with their
  order left open. The function's contract states what the handler promises.
- a method of class `SocketManager.Coordinator` holds the registry
  (`rooms: map<string, Room>`) and an outbox of every emitted event. It works
  through the handler's steps in place and is proved to have exactly the
  effect the function describes.

The handlers covered are create-room, join-room, admin-approve-user,
admin-deny-user, admin-update-permissions, admin-mute-all-participants, the
offer / answer / ice-candidate relay, chat-message, leave-room and disconnect.

An event is addressed to one socket (`io.to(socketId)`), to a whole room
(`io.to(roomId)`, `io.in(roomId)`), or to a room except the sender
(`socket.to(roomId)`). The signaling relay sends with `io.to(to)` to whatever
`to` the client gave (lines 302, 308, 314). Its address is recorded as
`ToSocket(to)`, but it is really just the channel named `to`. If `to` names a
room, Socket.IO delivers to the whole room. The source never checks which
kind of name it is, and neither does the model. Optional payload fields are `Option` values.
JavaScript truthiness of a string (`!roomId`, `x || default`) is
`JsText.Truthy`. Create-room trims the requested id with `JsText.Trim`, which
models ECMAScript's `String.prototype.trim`.

Inputs the model cannot compute are parameters:

- the random id from `generateRoomId`;
- the clock (`new Date()` and `Date.now()`, read as one `now`);
- the chat history read from the message store;
- the store's answer to a message save (`Handlers.SaveResult`).

Module `Properties` proves facts that span several calls. It also proves, by
example, the places where the code does not keep invariants one might expect:

- create-room leaves an empty room in the registry (`CreatedRoomIsEmpty`);
- repeated requests are not de-duplicated (`RepeatedRequestsAccumulate`);
- a disconnect leaves the socket's pending requests behind, and they can still
  be approved (`DisconnectedRequesterStillApprovable`);
- the admin socket can be waiting in the queue (`AdminCanBePending`);
- anyone giving the admin's display name takes admin authority, whatever
  password they give (`NameClaimTakesAuthority`).

The model follows the code in each of these cases.

## Model

| member | source | states |
|---|---|---|
| `JsText.TrimStart` | server/src/socketManager.js:32 | the result is the suffix left after dropping the leading whitespace; it starts with a non-blank |
| `JsText.TrimEnd` | server/src/socketManager.js:32 | the result is the prefix left after dropping the trailing whitespace; it ends with a non-blank |
| `JsText.Trim` | server/src/socketManager.js:32 | the requested id is the trimmed id with whitespace padding on either side; the trimmed id neither starts nor ends with whitespace, and it is empty exactly when the requested id was all whitespace |
| `JsText.TrimFixesTrimmed` | server/src/socketManager.js:32 | an id without surrounding whitespace is used as given |
| `JsText.TrimIdempotent` | server/src/socketManager.js:32 | trimming twice is trimming once |
| `JsText.AllBlank` | server/src/socketManager.js:32 | a string made only of the characters `trim` removes (no contract of its own; it names the padding in `Trim`'s contract) |
| `JsText.TrimIsPadded` | server/src/socketManager.js:32 | the input is the trimmed id with whitespace padding on either side |
| `JsText.TrimStartSkips` | server/src/socketManager.js:32 | leading whitespace in front of a string that starts with a non-blank is exactly what is dropped at the start |
| `JsText.TrimEndSkips` | server/src/socketManager.js:32 | trailing whitespace behind a string that ends with a non-blank is exactly what is dropped at the end |
| `JsText.TrimStripsPadding` | server/src/socketManager.js:32 | whitespace padding around a requested id is removed, and nothing else is |
| `RoomState.SettingsFrom` | server/src/socketManager.js:34-56 | screen sharing is on unless explicitly turned off; the other three settings are on only if explicitly turned on; no settings object gives the defaults |
| `RoomState.NewRoom` | server/src/socketManager.js:47-59 | a new room has the given admin, password and settings, no participants and an empty queue |
| `RoomState.PasswordRejects` | server/src/socketManager.js:129 | a join is refused when the room has a non-empty password that the supplied one does not equal exactly (no contract of its own; a definition used in `Handlers.JoinRoom`'s contract) |
| `RoomState.Authorized` | server/src/socketManager.js:216 | the room exists and the caller is its admin socket, the gate shared by lines 216, 248, 266 and 287; a definition the admin handlers' contracts are written in |
| `RoomState.MutedAudio` | server/src/socketManager.js:291-293 | every participant's audio is off and each record is otherwise unchanged, with the same keys |
| `RoomState.FindPending` | server/src/socketManager.js:220 | `findIndex`: the index of the first request from the target socket, or none exactly when no request matches |
| `RoomState.RemoveAt` | server/src/socketManager.js:224 | `splice(i, 1)` drops element i and keeps the others in order |
| `Handlers.CreateId` | server/src/socketManager.js:32 | the requested id trimmed, or the generated id when it is absent or blank (no contract of its own; `CreatedRoomIsEmpty` and `ScenarioCreate` are stated through it) |
| `Handlers.StoredPassword` | server/src/socketManager.js:33 | an empty or absent password is stored as no password |
| `Handlers.CreateRoom` | server/src/socketManager.js:30-85 | an id in use fails with "Room <id> already exists" and changes nothing; otherwise exactly one room is added, admin is the caller (name defaults to "Admin"), with no participants and an empty queue; no events |
| `Handlers.ClaimedRoom` | server/src/socketManager.js:98-126 | an unknown room is created with the joiner as admin, no password and default settings; a joiner giving the admin's name takes over the admin socket; nothing else changes |
| `Handlers.JoinRoom` | server/src/socketManager.js:88-210 | missing roomId: fails, no change. Admin reassignment happens before the password check. Wrong password: fails, queue and participants unchanged. Approval required and caller not admin: one request appended, admin socket notified, "waiting_approval". Otherwise: joiner admitted with audio, video and approval on; mute directive only for a non-admin under mute-on-entry; others told; roster includes the joiner; isAdmin equals "admin socket is caller" |
| `Handlers.JoinerName` | server/src/socketManager.js:89 | the joiner's name, "Anonymous" when absent (no contract of its own; a definition used in `Handlers.JoinRoom`'s contract) |
| `Handlers.Queues` | server/src/socketManager.js:135-136 | under approval, a join from anyone but the admin socket waits (a definition used in `Handlers.JoinRoom`'s contract) |
| `Handlers.EntryNotices` | server/src/socketManager.js:175-177 | the mute directive an admitted non-admin gets under mute-on-entry, and nothing otherwise (a definition used in `Handlers.JoinRoom`'s contract) |
| `Handlers.Enter` | server/src/socketManager.js:128-208 | the password check, queueing and admission once the room is claimed. It has no contract of its own: `Handlers.JoinRoom`'s ensures state its behaviour, and `SocketManager.Coordinator.Enter` is proved to have its effect |
| `Handlers.ApproveUser` | server/src/socketManager.js:213-242 | not the admin socket of an existing room: "Not authorized", no change, no events; no matching request: "User not found", no change; else the first matching request is removed, its user becomes a participant with default flags, the target and the whole room are told |
| `Handlers.DenyUser` | server/src/socketManager.js:245-260 | same authority and not-found failures; else the first matching request is removed, participants are never touched, the target is told |
| `Handlers.UpdatePermissions` | server/src/socketManager.js:263-281 | authority failure changes nothing; an authorized call always succeeds; it changes only the target's two flags and notifies it, and changes nothing if the target is not a participant |
| `Handlers.MuteAll` | server/src/socketManager.js:284-297 | authority failure changes nothing; else every participant's audio is off, and the rest of the room record is kept whole (video and other flags, queue, admin, settings, password); one directive goes to the whole room |
| `Handlers.RelayEvent` | server/src/socketManager.js:300-316 | the relayed event has the signal's own kind and carries the client's `from` and payload unchanged |
| `Handlers.Relay` | server/src/socketManager.js:300-316 | missing target: "Missing target socket id", no event; else exactly one event, to the channel named `to`, with no room membership check |
| `Handlers.PostChat` | server/src/socketManager.js:319-332 | missing roomId or text: "Missing roomId or text", no event; a failed save returns the store's error and sends nothing; a saved message (name defaults to "Anon") goes to the whole room and back to the sender |
| `Handlers.LeaveRoom` | server/src/socketManager.js:335-360 | missing roomId or unknown room fails with no change; else the caller is no participant afterwards, the room is deleted exactly when nobody is left, other rooms are untouched, and "user-left" goes out only if the caller was a participant |
| `Handlers.DisconnectRooms` | server/src/socketManager.js:363-384 | rooms the socket is not in are untouched, empty ones included; a room survives unless the socket was its last participant; no queue, admin or setting changes |
| `Handlers.NoticesSentStep` | server/src/socketManager.js:364-382 | scanning one more room adds that room's departure notice, if it has one, and the notice is new |
| `Handlers.DisconnectPartialStep` | server/src/socketManager.js:364-382 | one loop iteration removes the socket from one room, and deletes the room if that emptied it |
| `Handlers.DisconnectPartialEnds` | server/src/socketManager.js:364-382 | before the scan nothing has changed; after it the registry is the one `DisconnectRooms` describes |
| `SocketManager.ParticipantList` | server/src/socketManager.js:188-191 | the list names every participant once, with its display name |
| `SocketManager.MuteAudio` | server/src/socketManager.js:291-293 | the loop turns every participant's audio off and leaves the rest of each record as it was |
| `SocketManager.Coordinator.constructor` | server/src/socketManager.js:23 | the registry starts empty, and so does the outbox |
| `SocketManager.Coordinator.CreateRoom` | server/src/socketManager.js:30-85 | the in-place create-room has the effect `Handlers.CreateRoom` states and keeps every room well formed |
| `SocketManager.Coordinator.ClaimRoom` | server/src/socketManager.js:98-126 | the first steps of a join leave the room `Handlers.ClaimedRoom` describes stored under its id, and change no other room |
| `SocketManager.Coordinator.Enter` | server/src/socketManager.js:128-208 | the password check, queueing and admission have the effect the rest of `Handlers.JoinRoom` states |
| `SocketManager.Coordinator.JoinRoom` | server/src/socketManager.js:88-210 | the in-place join has the effect `Handlers.JoinRoom` states; the participant list returned lists the new roster |
| `SocketManager.Coordinator.ApproveUser` | server/src/socketManager.js:213-242 | the in-place approval has the effect `Handlers.ApproveUser` states |
| `SocketManager.Coordinator.DenyUser` | server/src/socketManager.js:245-260 | the in-place denial has the effect `Handlers.DenyUser` states |
| `SocketManager.Coordinator.UpdatePermissions` | server/src/socketManager.js:263-281 | the in-place permission update has the effect `Handlers.UpdatePermissions` states |
| `SocketManager.Coordinator.MuteAllParticipants` | server/src/socketManager.js:284-297 | the in-place mute-all has the effect `Handlers.MuteAll` states |
| `SocketManager.Coordinator.Relay` | server/src/socketManager.js:300-316 | the relay appends exactly what `Handlers.Relay` states and never touches the registry |
| `SocketManager.Coordinator.PostChat` | server/src/socketManager.js:319-332 | chat appends exactly what `Handlers.PostChat` states and never touches the registry |
| `SocketManager.Coordinator.LeaveRoom` | server/src/socketManager.js:335-360 | the in-place leave has the effect `Handlers.LeaveRoom` states |
| `SocketManager.Coordinator.DropFromRoom` | server/src/socketManager.js:365-381 | one room's disconnect step: removes the socket if present, tells the room, and deletes it if that emptied it |
| `SocketManager.Coordinator.Disconnect` | server/src/socketManager.js:363-384 | the loop leaves the registry `Handlers.DisconnectRooms` describes; it emits exactly one departure notice per room the socket was in |
| `Properties.FindPendingAppended` | server/src/socketManager.js:140 | a request appended behind none from the same socket is the one `findIndex` finds |
| `Properties.QueuedJoinThenApprove` | server/src/socketManager.js:135-160 | a queued join followed by approval admits the joiner with default flags, restores the queue, and tells the target and the whole room |
| `Properties.QueuedJoinThenDeny` | server/src/socketManager.js:245-260 | a queued join followed by denial admits nobody and restores the queue |
| `Properties.NameClaimTakesAuthority` | server/src/socketManager.js:123-126 | a join under the admin's display name moves admin authority to the joining socket, whatever its password; the former admin socket is then refused |
| `Properties.LeaveTwice` | server/src/socketManager.js:335-360 | a second leave changes nothing and tells no one; it acks success, or "Room not found" if the first leave deleted the room |
| `Properties.DisconnectTwice` | server/src/socketManager.js:363-384 | a second disconnect changes nothing and sends no notices |
| `Properties.AdmissionAddsOne` | server/src/socketManager.js:162-169 | admitting a newcomer adds exactly one participant |
| `Properties.LeaveRemovesOne` | server/src/socketManager.js:342-357 | a participant leaving a room that others remain in removes exactly one participant |
| `Properties.MuteAllThenJoin` | server/src/socketManager.js:174-177 | after mute-all, a later joiner keeps audio and gets no mute directive unless mute-on-entry is set |
| `Properties.CreatorJoinsAsAdmin` | server/src/socketManager.js:130-134 | the creator of a room who then joins it with the details it was created with is admitted at once as its admin, even under approval |
| `Properties.ScenarioCreate` | server/src/socketManager.js:30-85 | Alice's create-room for "abc123" with approval on gives exactly her empty room with those settings |
| `Properties.ScenarioAliceJoins` | server/src/socketManager.js:129-190 | Alice's join of her own room admits her at once as admin and tells the rest of the room, and nothing else |
| `Properties.ScenarioBobQueues` | server/src/socketManager.js:135-160 | Bob's join of that room queues exactly his request and tells only Alice's socket |
| `Properties.ScenarioAliceApproves` | server/src/socketManager.js:213-242 | Alice's approval of Bob empties the queue, admits him with default flags, and tells him and the whole room |
| `Properties.CreatedRoomIsEmpty` | server/src/socketManager.js:47-61 | create-room leaves a room with no participants in the registry |
| `Properties.RepeatedRequestsAccumulate` | server/src/socketManager.js:140-144 | two joins from one queued socket give two queue entries; approval removes only the first |
| `Properties.DisconnectedRequesterStillApprovable` | server/src/socketManager.js:363-384 | disconnect leaves the socket's pending requests; the admin can still approve the gone socket into the room |
| `Properties.AdminCanBePending` | server/src/socketManager.js:123-144 | a queued socket that rejoins under the admin's name becomes admin while its request stays queued |

## Left out

- Persistence: `Room.create`, `Message.find` and `Message.create` (lines 64-73, 196, 325). The room save's failure is swallowed and changes nothing. The chat history is an input; a failed read is the empty history. A message save is an input outcome. The stored document's own fields (`_id`, `__v`) are not modelled.
- Socket.IO transport: `io.on("connection")`, channel membership (`socket.join`, `socket.leave`) and delivery. Emitted events go to an outbox with their address. Whether anyone receives them is not modelled.
- Console and chalk logging: it has no observable effect.
- `generateRoomId` (lines 389-391): the random id is a parameter.
- Time: `new Date()` and `Date.now()` within one handler are read as a single `now`.
- Concurrency: Node runs each handler on one event loop, and each handler is atomic here. The awaits in create-room, join-room and chat-message come after every state change. One effect of the interleaving is not modelled. Join-room reads `adminUsername`, `roomSettings` and `isAdmin` for its acknowledgement after awaiting the history (lines 194-208). Another handler running during that await could change them. The model reads them in the same step as the join.
- JavaScript dynamic typing: payload fields are strings, booleans or absent. Coercing other values (`String(payload.password)`, a truthy non-boolean setting, an undefined `canAudio`) is not modelled. A null username is not modelled; only an absent username takes the default.
- Missing payloads: the signaling handlers destructure their payload and would throw on a missing one; that is not modelled. Create-room with an `undefined` payload is modelled: once the duplicate check passes, it fails with V8's TypeError text for `undefined`. A `null` payload would fail with "Cannot read properties of null (reading 'username')". That case is not modelled: the payload is an `Option`, with no separate null.
- The `!room.admin` branch of the authority check (lines 216, 248, 266, 287) cannot be taken: every room is created with an admin, so `Room.admin` is not optional.
- `ack?.(...)`: a client that passes no callback receives nothing; the model always returns the acknowledgement.
- The `createdAt` field takes the creation `now` and is never read.
- `SocketManager.Coordinator.JoinRoom`: the returned participant list is stated as listing the roster once each, in some order. The JavaScript Map's insertion order is not modelled, because participants are a Dafny `map`.
- `SocketManager.ParticipantList`: the same. The order of the list is left open.
- `SocketManager.Coordinator.Disconnect`: the departure notices are stated as the right set of events, each sent once. The order in which rooms are visited, which is the Map's insertion order in the source, is left open.
- Room records are values inside the registry map. Updating a field in place is modelled as replacing the map entry. In the source no reference to a room outlives a handler, so no aliasing is lost.
