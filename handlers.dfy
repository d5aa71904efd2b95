/**
 * One pure function per Socket.IO handler of the coordinator: given the
 * registry before the event, the calling socket and the payload, it gives
 * the registry afterwards, the acknowledgement and the events emitted, in
 * emission order. Each function's contract states what the handler promises.
 * Clock readings, the generated room id, the chat history read from the
 * message store and the store's save outcome are parameters.
 */
module Handlers {
  import opened Wrappers
  import opened JsText
  import opened RoomState

  /** The effect of a handler that works on the registry. */
  datatype Outcome = Outcome(rooms: Rooms, ack: Ack, emits: seq<Emit>)

  /** The effect of a handler that never touches the registry. */
  datatype Reply = Reply(ack: Ack, emits: seq<Emit>)

  /** The other rooms of the registry are untouched. */
  ghost predicate OthersUnchanged(rooms: Rooms, rooms': Rooms, rid: string) {
    forall k :: k in rooms && k != rid ==> k in rooms' && rooms'[k] == rooms[k]
  }

  // ---------- create-room ----------

  datatype CreatePayload = CreatePayload(
    roomId: Option<string>,
    username: Option<string>,
    password: Option<string>,
    settings: Option<SettingsInput>)

  /** The requested id, trimmed, unless that is absent or blank: then the generated one. */
  function CreateId(payload: Option<CreatePayload>, generatedId: string): string {
    if payload.Some? && payload.value.roomId.Some? && Trim(payload.value.roomId.value) != ""
    then Trim(payload.value.roomId.value)
    else generatedId
  }

  /** An empty password is no password. */
  function StoredPassword(password: Option<string>): (p: Option<string>)
    ensures p.Some? <==> Truthy(password)
    ensures p.Some? ==> p == password
  {
    if Truthy(password) then password else None
  }

  function CreateRoom(rooms: Rooms, caller: string, payload: Option<CreatePayload>, generatedId: string, now: int): (o: Outcome)
    // nobody is notified, and a failed creation leaves the registry as it was
    ensures o.emits == []
    ensures !o.ack.Created? ==> o.rooms == rooms
    // an id already in use is a hard error, not a retry
    ensures CreateId(payload, generatedId) in rooms ==> o.ack == Rejected(AlreadyExists(CreateId(payload, generatedId)))
    ensures CreateId(payload, generatedId) !in rooms && payload.None? ==> o.ack == Rejected(NO_PAYLOAD)
    // otherwise exactly one room is added, administered by the caller, with nobody in it
    ensures CreateId(payload, generatedId) !in rooms && payload.Some? ==>
      var id := CreateId(payload, generatedId);
      var p := payload.value;
      && o.ack == Created(id)
      && o.rooms.Keys == rooms.Keys + {id}
      && OthersUnchanged(rooms, o.rooms, id)
      && o.rooms[id].admin.socketId == caller
      && o.rooms[id].admin.username == (if Truthy(p.username) then p.username.value else DEFAULT_ADMIN_NAME)
      && o.rooms[id].participants == map[]
      && o.rooms[id].pendingRequests == []
      && o.rooms[id].password == StoredPassword(p.password)
      && o.rooms[id].settings == SettingsFrom(p.settings)
    ensures RegistryWellFormed(rooms) ==> RegistryWellFormed(o.rooms)
  {
    var id := CreateId(payload, generatedId);
    if id in rooms then Outcome(rooms, Rejected(AlreadyExists(id)), [])
    else if payload.None? then Outcome(rooms, Rejected(NO_PAYLOAD), [])
    else
      var p := payload.value;
      var admin := Admin(caller, if Truthy(p.username) then p.username.value else DEFAULT_ADMIN_NAME);
      var room := NewRoom(StoredPassword(p.password), admin, SettingsFrom(p.settings), now);
      Outcome(rooms[id := room], Created(id), [])
  }

  // ---------- join-room ----------

  datatype JoinPayload = JoinPayload(roomId: Option<string>, username: Option<string>, password: Option<string>)

  /**
   * A join that is not refused either ends in an admission, answered with the
   * roster it produced, or in an acknowledgement without a roster.
   */
  datatype JoinReply =
    | Replied(ack: Ack)
    | Admission(
        roomId: string,
        roster: map<string, Participant>,
        messages: seq<ChatRecord>,
        adminUsername: string,
        settings: Settings,
        isAdmin: bool)

  datatype JoinOutcome = JoinOutcome(rooms: Rooms, reply: JoinReply, emits: seq<Emit>)

  /** The acknowledgement the client gets for a join reply: an admission lists the roster in some order. */
  ghost predicate Answers(ack: Ack, reply: JoinReply) {
    match reply
    case Replied(a) => ack == a
    case Admission(rid, roster, messages, adminUsername, settings, isAdmin) =>
      && ack.Joined?
      && ack == Joined(rid, ack.participants, messages, adminUsername, settings, isAdmin)
      && ListsRoster(ack.participants, roster)
  }

  function JoinerName(payload: JoinPayload): string {
    payload.username.GetOr(DEFAULT_JOINER_NAME)
  }

  /**
   * The room a join goes on with: the existing room, or a new one with the
   * joiner as admin, no password and default settings; when the joiner gives
   * the admin's display name, admin authority moves to the joiner's socket.
   */
  function ClaimedRoom(rooms: Rooms, rid: string, caller: string, user: string, now: int): (r: Room)
    ensures rid !in rooms ==> r == NewRoom(None, Admin(caller, user), DEFAULT_SETTINGS, now)
    ensures rid in rooms ==>
      && r.participants == rooms[rid].participants
      && r.pendingRequests == rooms[rid].pendingRequests
      && r.password == rooms[rid].password
      && r.settings == rooms[rid].settings
      && r.admin.username == rooms[rid].admin.username
      && (r.admin.socketId == caller <==> rooms[rid].admin.socketId == caller || rooms[rid].admin.username == user)
      && (r.admin.socketId != caller ==> r == rooms[rid])
  {
    var r0 := if rid in rooms then rooms[rid] else NewRoom(None, Admin(caller, user), DEFAULT_SETTINGS, now);
    if r0.admin.username == user && r0.admin.socketId != caller
    then r0.(admin := r0.admin.(socketId := caller))
    else r0
  }

  /** Under approval, a join from anyone but the admin socket waits in the queue. */
  predicate Queues(r: Room, caller: string) {
    r.settings.requireApproval && r.admin.socketId != caller
  }

  /** The direct notices an admitted joiner gets: the mute directive, for a non-admin under mute-on-entry. */
  function EntryNotices(r: Room, caller: string): seq<Emit> {
    if r.settings.muteAllOnEntry && r.admin.socketId != caller then [Emit(ToSocket(caller), AdminMuteAll)] else []
  }

  function JoinRoom(rooms: Rooms, caller: string, payload: JoinPayload, now: int, history: seq<ChatRecord>): (o: JoinOutcome)
    // a missing room id is refused before anything else
    ensures !Truthy(payload.roomId) ==> o == JoinOutcome(rooms, Replied(Rejected(MISSING_ROOM_ID)), [])
    ensures Truthy(payload.roomId) ==>
      var rid := payload.roomId.value;
      var user := JoinerName(payload);
      var r := ClaimedRoom(rooms, rid, caller, user, now);
      // the room exists afterwards (auto-created if need be), no other room changes, and the
      // admin reassignment has happened whatever the rest of the join does
      && o.rooms.Keys == rooms.Keys + {rid}
      && OthersUnchanged(rooms, o.rooms, rid)
      && o.rooms[rid].admin == r.admin
      && o.rooms[rid].password == r.password
      && o.rooms[rid].settings == r.settings
      // a wrong password: refused, nobody queued or admitted, nobody notified
      && (PasswordRejects(r.password, payload.password) ==>
            && o.reply == Replied(Rejected(INVALID_PASSWORD))
            && o.rooms[rid] == r
            && o.emits == [])
      // approval required: exactly one entry is appended, the admin socket is told
      && (!PasswordRejects(r.password, payload.password) && Queues(r, caller) ==>
            && o.reply == Replied(AwaitingApproval)
            && o.rooms[rid].participants == r.participants
            && o.rooms[rid].pendingRequests == r.pendingRequests + [PendingRequest(caller, user, now)]
            && o.emits == [Emit(ToSocket(r.admin.socketId), PendingApproval(caller, user, now))])
      // otherwise the joiner is admitted, the others are told, and the roster includes the joiner
      && (!PasswordRejects(r.password, payload.password) && !Queues(r, caller) ==>
            && o.rooms[rid].participants == r.participants[caller := Admitted(caller, user)]
            && o.rooms[rid].pendingRequests == r.pendingRequests
            && o.reply == Admission(rid, o.rooms[rid].participants, history, r.admin.username, r.settings,
                                    r.admin.socketId == caller)
            && caller in o.reply.roster
            && o.emits == EntryNotices(r, caller)
                          + [Emit(ToRoomExcept(rid, caller), UserJoined(caller, user, now, Some(JoinGreeting(user))))])
    ensures RegistryWellFormed(rooms) ==> RegistryWellFormed(o.rooms)
  {
    if !Truthy(payload.roomId) then JoinOutcome(rooms, Replied(Rejected(MISSING_ROOM_ID)), [])
    else
      var rid := payload.roomId.value;
      var user := JoinerName(payload);
      var r := ClaimedRoom(rooms, rid, caller, user, now);
      Enter(rooms[rid := r], rid, r, caller, user, payload.password, now, history)
  }

  /**
   * The rest of a join once `r`, stored under `rid`, has been claimed: a wrong
   * password is refused, a join under approval is queued, any other is admitted.
   */
  function Enter(rooms: Rooms, rid: string, r: Room, caller: string, user: string, password: Option<string>,
                 now: int, history: seq<ChatRecord>): JoinOutcome
  {
    if PasswordRejects(r.password, password) then
      JoinOutcome(rooms, Replied(Rejected(INVALID_PASSWORD)), [])
    else if Queues(r, caller) then
      var r' := r.(pendingRequests := r.pendingRequests + [PendingRequest(caller, user, now)]);
      JoinOutcome(rooms[rid := r'], Replied(AwaitingApproval),
                  [Emit(ToSocket(r.admin.socketId), PendingApproval(caller, user, now))])
    else
      var r' := r.(participants := r.participants[caller := Admitted(caller, user)]);
      var joined := Emit(ToRoomExcept(rid, caller), UserJoined(caller, user, now, Some(JoinGreeting(user))));
      JoinOutcome(rooms[rid := r'],
                  Admission(rid, r'.participants, history, r.admin.username, r.settings, r.admin.socketId == caller),
                  EntryNotices(r, caller) + [joined])
  }

  // ---------- admin-approve-user / admin-deny-user ----------

  function ApproveUser(rooms: Rooms, caller: string, roomId: Option<string>, target: Option<string>, now: int): (o: Outcome)
    // only the admin socket of an existing room may approve; anything else changes nothing
    ensures !Authorized(rooms, roomId, caller) ==> o == Outcome(rooms, Rejected(NOT_AUTHORIZED), [])
    ensures Authorized(rooms, roomId, caller) && FindPending(rooms[roomId.value].pendingRequests, target).None? ==>
      o == Outcome(rooms, Rejected(USER_NOT_FOUND), [])
    // the first matching request leaves the queue and its user becomes a participant
    ensures Authorized(rooms, roomId, caller) && FindPending(rooms[roomId.value].pendingRequests, target).Some? ==>
      var rid := roomId.value;
      var r := rooms[rid];
      var i := FindPending(r.pendingRequests, target).value;
      var p := r.pendingRequests[i];
      && p.socketId == target.value
      && o.ack == Done
      && o.rooms.Keys == rooms.Keys
      && OthersUnchanged(rooms, o.rooms, rid)
      && o.rooms[rid] == r.(pendingRequests := RemoveAt(r.pendingRequests, i),
                            participants := r.participants[p.socketId := Admitted(p.socketId, p.username)])
      && o.emits == [Emit(ToSocket(p.socketId), ApprovalGranted(rid)),
                     Emit(ToRoom(rid), UserJoined(p.socketId, p.username, now, None))]
    ensures RegistryWellFormed(rooms) ==> RegistryWellFormed(o.rooms)
  {
    if !Authorized(rooms, roomId, caller) then Outcome(rooms, Rejected(NOT_AUTHORIZED), [])
    else
      var rid := roomId.value;
      var r := rooms[rid];
      match FindPending(r.pendingRequests, target)
      case None => Outcome(rooms, Rejected(USER_NOT_FOUND), [])
      case Some(i) =>
        var p := r.pendingRequests[i];
        var r' := r.(pendingRequests := RemoveAt(r.pendingRequests, i),
                     participants := r.participants[p.socketId := Admitted(p.socketId, p.username)]);
        Outcome(rooms[rid := r'], Done,
                [Emit(ToSocket(p.socketId), ApprovalGranted(rid)),
                 Emit(ToRoom(rid), UserJoined(p.socketId, p.username, now, None))])
  }

  function DenyUser(rooms: Rooms, caller: string, roomId: Option<string>, target: Option<string>): (o: Outcome)
    ensures !Authorized(rooms, roomId, caller) ==> o == Outcome(rooms, Rejected(NOT_AUTHORIZED), [])
    ensures Authorized(rooms, roomId, caller) && FindPending(rooms[roomId.value].pendingRequests, target).None? ==>
      o == Outcome(rooms, Rejected(USER_NOT_FOUND), [])
    // the first matching request leaves the queue; participants are left alone
    ensures Authorized(rooms, roomId, caller) && FindPending(rooms[roomId.value].pendingRequests, target).Some? ==>
      var rid := roomId.value;
      var r := rooms[rid];
      var i := FindPending(r.pendingRequests, target).value;
      && o.ack == Done
      && o.rooms.Keys == rooms.Keys
      && OthersUnchanged(rooms, o.rooms, rid)
      && o.rooms[rid] == r.(pendingRequests := RemoveAt(r.pendingRequests, i))
      && o.emits == [Emit(ToSocket(target.value), ApprovalDenied(rid))]
    ensures o.rooms.Keys == rooms.Keys
    ensures forall rid :: rid in rooms ==> o.rooms[rid].participants == rooms[rid].participants
    ensures RegistryWellFormed(rooms) ==> RegistryWellFormed(o.rooms)
  {
    if !Authorized(rooms, roomId, caller) then Outcome(rooms, Rejected(NOT_AUTHORIZED), [])
    else
      var rid := roomId.value;
      var r := rooms[rid];
      match FindPending(r.pendingRequests, target)
      case None => Outcome(rooms, Rejected(USER_NOT_FOUND), [])
      case Some(i) =>
        Outcome(rooms[rid := r.(pendingRequests := RemoveAt(r.pendingRequests, i))], Done,
                [Emit(ToSocket(target.value), ApprovalDenied(rid))])
  }

  // ---------- admin-update-permissions / admin-mute-all-participants ----------

  function UpdatePermissions(rooms: Rooms, caller: string, roomId: Option<string>, target: Option<string>,
                             canAudio: bool, canVideo: bool): (o: Outcome)
    ensures !Authorized(rooms, roomId, caller) ==> o == Outcome(rooms, Rejected(NOT_AUTHORIZED), [])
    // an authorized call always succeeds; only the target's two flags change, and only if it is a participant
    ensures Authorized(rooms, roomId, caller) ==> o.ack == Done
    ensures Authorized(rooms, roomId, caller) && !(target.Some? && target.value in rooms[roomId.value].participants) ==>
      o.rooms == rooms && o.emits == []
    ensures Authorized(rooms, roomId, caller) && target.Some? && target.value in rooms[roomId.value].participants ==>
      var rid := roomId.value;
      var ps := rooms[rid].participants;
      var t := target.value;
      && o.rooms.Keys == rooms.Keys
      && OthersUnchanged(rooms, o.rooms, rid)
      && o.rooms[rid] == rooms[rid].(participants := ps[t := ps[t].(isAudio := canAudio, isVideo := canVideo)])
      && o.emits == [Emit(ToSocket(t), AdminPermissionUpdate(canAudio, canVideo))]
    ensures RegistryWellFormed(rooms) ==> RegistryWellFormed(o.rooms)
  {
    if !Authorized(rooms, roomId, caller) then Outcome(rooms, Rejected(NOT_AUTHORIZED), [])
    else
      var rid := roomId.value;
      var r := rooms[rid];
      if target.Some? && target.value in r.participants then
        var t := target.value;
        var p := r.participants[t].(isAudio := canAudio, isVideo := canVideo);
        Outcome(rooms[rid := r.(participants := r.participants[t := p])], Done,
                [Emit(ToSocket(t), AdminPermissionUpdate(canAudio, canVideo))])
      else Outcome(rooms, Done, [])
  }

  function MuteAll(rooms: Rooms, caller: string, roomId: Option<string>): (o: Outcome)
    ensures !Authorized(rooms, roomId, caller) ==> o == Outcome(rooms, Rejected(NOT_AUTHORIZED), [])
    // every participant loses audio and keeps everything else; one directive goes to the whole room
    ensures Authorized(rooms, roomId, caller) ==>
      var rid := roomId.value;
      var r := rooms[rid];
      && o.ack == Done
      && o.rooms.Keys == rooms.Keys
      && OthersUnchanged(rooms, o.rooms, rid)
      && o.rooms[rid].participants.Keys == r.participants.Keys
      && (forall sid :: sid in r.participants ==>
            && !o.rooms[rid].participants[sid].isAudio
            && o.rooms[rid].participants[sid].isVideo == r.participants[sid].isVideo
            && o.rooms[rid].participants[sid] == r.participants[sid].(isAudio := false))
      && o.rooms[rid].pendingRequests == r.pendingRequests
      && o.rooms[rid].admin == r.admin
      && o.rooms[rid].settings == r.settings
      && o.rooms[rid].password == r.password
      // nothing but the audio flags changes: the rest of the room record is kept whole
      && o.rooms[rid] == r.(participants := MutedAudio(r.participants))
      && o.emits == [Emit(ToRoom(rid), AdminMuteAll)]
    ensures RegistryWellFormed(rooms) ==> RegistryWellFormed(o.rooms)
  {
    if !Authorized(rooms, roomId, caller) then Outcome(rooms, Rejected(NOT_AUTHORIZED), [])
    else
      var rid := roomId.value;
      var r := rooms[rid];
      Outcome(rooms[rid := r.(participants := MutedAudio(r.participants))], Done, [Emit(ToRoom(rid), AdminMuteAll)])
  }

  // ---------- offer / answer / ice-candidate ----------

  datatype SignalKind = OfferSignal | AnswerSignal | IceSignal

  /** The relayed event: the sender tag and the payload exactly as the client sent them. */
  function RelayEvent(kind: SignalKind, from: Option<string>, body: Option<string>): (e: Event)
    ensures kind == OfferSignal <==> e.Offer?
    ensures kind == AnswerSignal <==> e.Answer?
    ensures kind == IceSignal <==> e.IceCandidate?
    ensures (e.Offer? || e.Answer? || e.IceCandidate?) && e.from == from
    ensures e.Offer? ==> e.offer == body
    ensures e.Answer? ==> e.answer == body
    ensures e.IceCandidate? ==> e.candidate == body
  {
    match kind
    case OfferSignal => Offer(from, body)
    case AnswerSignal => Answer(from, body)
    case IceSignal => IceCandidate(from, body)
  }

  function Relay(kind: SignalKind, to: Option<string>, body: Option<string>, from: Option<string>): (r: Reply)
    ensures !Truthy(to) ==> r == Reply(Rejected(MISSING_TARGET), [])
    // exactly one event, to the channel named `to`, whether or not such a socket is connected or in any room
    ensures Truthy(to) ==> r.ack == Done && r.emits == [Emit(ToSocket(to.value), RelayEvent(kind, from, body))]
  {
    if !Truthy(to) then Reply(Rejected(MISSING_TARGET), [])
    else Reply(Done, [Emit(ToSocket(to.value), RelayEvent(kind, from, body))])
  }

  // ---------- chat-message ----------

  /** What the message store answered to the save. */
  datatype SaveResult = Saved | SaveFailed(errorMessage: string)

  function PostChat(roomId: Option<string>, username: Option<string>, text: Option<string>, now: int, save: SaveResult): (r: Reply)
    ensures !Truthy(roomId) || !Truthy(text) ==> r == Reply(Rejected(MISSING_ROOM_OR_TEXT), [])
    ensures Truthy(roomId) && Truthy(text) && save.SaveFailed? ==> r == Reply(Rejected(save.errorMessage), [])
    // a saved message is broadcast to the whole room and returned to the sender
    ensures Truthy(roomId) && Truthy(text) && save.Saved? ==>
      && r.ack.Posted?
      && r.ack.message == ChatRecord(roomId.value, username.GetOr(DEFAULT_CHAT_NAME), text.value, now)
      && r.emits == [Emit(ToRoom(roomId.value), ChatMessage(r.ack.message))]
  {
    if !Truthy(roomId) || !Truthy(text) then Reply(Rejected(MISSING_ROOM_OR_TEXT), [])
    else
      var m := ChatRecord(roomId.value, username.GetOr(DEFAULT_CHAT_NAME), text.value, now);
      match save
      case SaveFailed(e) => Reply(Rejected(e), [])
      case Saved => Reply(Posted(m), [Emit(ToRoom(roomId.value), ChatMessage(m))])
  }

  // ---------- leave-room ----------

  function LeaveRoom(rooms: Rooms, caller: string, roomId: Option<string>): (o: Outcome)
    ensures !Truthy(roomId) ==> o == Outcome(rooms, Rejected(MISSING_ROOM_ID), [])
    ensures Truthy(roomId) && roomId.value !in rooms ==> o == Outcome(rooms, Rejected(ROOM_NOT_FOUND), [])
    ensures Truthy(roomId) && roomId.value in rooms ==>
      var rid := roomId.value;
      var r := rooms[rid];
      && o.ack == Done
      // the caller is no longer a participant; the room is gone exactly when nobody is left
      && o.rooms - {rid} == rooms - {rid}
      && (rid in o.rooms <==> r.participants - {caller} != map[])
      && (rid in o.rooms ==> o.rooms[rid] == r.(participants := r.participants - {caller}))
      // the others hear of the departure only if the caller was a participant
      && o.emits == (if caller in r.participants
                     then [Emit(ToRoomExcept(rid, caller),
                                UserLeft(caller, r.participants[caller].username,
                                         LeaveFarewell(r.participants[caller].username)))]
                     else [])
    ensures RegistryWellFormed(rooms) ==> RegistryWellFormed(o.rooms)
  {
    if !Truthy(roomId) then Outcome(rooms, Rejected(MISSING_ROOM_ID), [])
    else if roomId.value !in rooms then Outcome(rooms, Rejected(ROOM_NOT_FOUND), [])
    else
      var rid := roomId.value;
      var r := rooms[rid];
      var emits := if caller in r.participants
                   then [Emit(ToRoomExcept(rid, caller),
                              UserLeft(caller, r.participants[caller].username,
                                       LeaveFarewell(r.participants[caller].username)))]
                   else [];
      var r' := r.(participants := r.participants - {caller});
      if r'.participants == map[] then Outcome(rooms - {rid}, Done, emits)
      else Outcome(rooms[rid := r'], Done, emits)
  }

  // ---------- disconnect ----------

  /** The socket is the last participant of the room. */
  predicate Vacates(r: Room, sid: string) {
    sid in r.participants && r.participants - {sid} == map[]
  }

  /** The registry after the socket disconnects. */
  function DisconnectRooms(rooms: Rooms, sid: string): (r: Rooms)
    // rooms the socket is not a participant of are untouched, including empty ones
    ensures forall rid :: rid in rooms && sid !in rooms[rid].participants ==> rid in r && r[rid] == rooms[rid]
    // a room the socket was in survives unless the socket was its last participant
    ensures forall rid :: rid in r <==> rid in rooms && !Vacates(rooms[rid], sid)
    // the socket is no participant anywhere, and no pending queue is touched
    ensures forall rid :: rid in r ==>
      && r[rid].participants == rooms[rid].participants - {sid}
      && r[rid].pendingRequests == rooms[rid].pendingRequests
      && r[rid].admin == rooms[rid].admin
      && r[rid].settings == rooms[rid].settings
      && r[rid].password == rooms[rid].password
    ensures RegistryWellFormed(rooms) ==> RegistryWellFormed(r)
  {
    map rid | rid in rooms && !Vacates(rooms[rid], sid) :: rooms[rid].(participants := rooms[rid].participants - {sid})
  }

  /** The departure notice for one room the socket was a participant of. */
  function DisconnectNotice(rooms: Rooms, rid: string, sid: string, reason: string): Emit
    requires rid in rooms && sid in rooms[rid].participants
  {
    var name := rooms[rid].participants[sid].username;
    Emit(ToRoomExcept(rid, sid), UserLeft(sid, name, DisconnectFarewell(name, reason)))
  }

  /** The notices sent for those of the given rooms the socket was a participant of. */
  ghost function DisconnectNotices(rooms: Rooms, ids: set<string>, sid: string, reason: string): set<Emit> {
    set rid | rid in ids && rid in rooms && sid in rooms[rid].participants :: DisconnectNotice(rooms, rid, sid, reason)
  }

  /**
   * `sent` is the departure notices for the given rooms, each once, in some
   * order: it holds exactly those notices and is as long as their number.
   */
  ghost predicate NoticesSent(sent: seq<Emit>, rooms: Rooms, ids: set<string>, sid: string, reason: string) {
    && (set e | e in sent) == DisconnectNotices(rooms, ids, sid, reason)
    && |sent| == |DisconnectNotices(rooms, ids, sid, reason)|
  }

  /** Scanning one more room extends the notices sent by that room's notice, if it has one. */
  lemma NoticesSentStep(sent: seq<Emit>, rooms: Rooms, ids: set<string>, rid: string, sid: string, reason: string)
    requires rid in rooms && rid !in ids
    requires NoticesSent(sent, rooms, ids, sid, reason)
    ensures NoticesSent(if sid in rooms[rid].participants then sent + [DisconnectNotice(rooms, rid, sid, reason)] else sent,
                        rooms, ids + {rid}, sid, reason)
  {
    var before := DisconnectNotices(rooms, ids, sid, reason);
    var after := DisconnectNotices(rooms, ids + {rid}, sid, reason);
    if sid in rooms[rid].participants {
      var n := DisconnectNotice(rooms, rid, sid, reason);
      assert n !in before;
      assert after == before + {n};
      assert (set e | e in sent + [n]) == (set e | e in sent) + {n};
    } else {
      assert after == before;
    }
  }

  /** The registry part-way through the disconnect scan, once the rooms in `done` have been visited. */
  ghost function DisconnectPartial(rooms: Rooms, done: set<string>, sid: string): Rooms {
    map rid | rid in rooms && !(rid in done && Vacates(rooms[rid], sid)) ::
      if rid in done then rooms[rid].(participants := rooms[rid].participants - {sid}) else rooms[rid]
  }

  /** Visiting one more room removes the socket from it, and the room too if that emptied it. */
  lemma DisconnectPartialStep(rooms: Rooms, done: set<string>, rid: string, sid: string)
    requires rid in rooms && rid !in done
    ensures var p := DisconnectPartial(rooms, done, sid);
      && rid in p && p[rid] == rooms[rid]
      && DisconnectPartial(rooms, done + {rid}, sid)
         == if sid !in rooms[rid].participants then p
            else if Vacates(rooms[rid], sid) then p - {rid}
            else p[rid := rooms[rid].(participants := rooms[rid].participants - {sid})]
  {
    var p := DisconnectPartial(rooms, done, sid);
    var q := DisconnectPartial(rooms, done + {rid}, sid);
    if sid !in rooms[rid].participants {
      assert rooms[rid].participants - {sid} == rooms[rid].participants;
      assert q == p;
    } else if Vacates(rooms[rid], sid) {
      assert q == p - {rid};
    } else {
      assert q == p[rid := rooms[rid].(participants := rooms[rid].participants - {sid})];
    }
  }

  /** Before the scan nothing has changed; after it, the registry is the one DisconnectRooms describes. */
  lemma DisconnectPartialEnds(rooms: Rooms, sid: string)
    ensures DisconnectPartial(rooms, {}, sid) == rooms
    ensures DisconnectPartial(rooms, rooms.Keys, sid) == DisconnectRooms(rooms, sid)
  {
    assert DisconnectPartial(rooms, {}, sid) == rooms;
  }
}
