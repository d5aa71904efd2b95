/**
 * The coordinator as the server runs it: one object holding the `rooms`
 * registry and the stream of emitted events, with one method per Socket.IO
 * handler. Each method takes the calling socket's id, works through the
 * handler's steps on the registry, and is proved to have exactly the effect
 * the corresponding function of Handlers describes.
 */
module SocketManager {
  import opened Wrappers
  import opened JsText
  import opened RoomState
  import H = Handlers

  /**
   * `[...participants.values()].map(p => ({ socketId, username }))`. The
   * entries are picked in an unspecified order, so the list's order (the
   * Map's insertion order in the source) is not modelled.
   */
  method ParticipantList(ps: map<string, Participant>) returns (list: seq<PeerInfo>)
    requires forall sid :: sid in ps ==> ps[sid].socketId == sid
    ensures ListsRoster(list, ps)
  {
    list := [];
    var todo := ps.Keys;
    while todo != {}
      invariant todo <= ps.Keys
      invariant (set p | p in list :: p.socketId) == ps.Keys - todo
      invariant forall i :: 0 <= i < |list| ==> list[i].socketId in ps && list[i].username == ps[list[i].socketId].username
      invariant forall i, j :: 0 <= i < j < |list| ==> list[i].socketId != list[j].socketId
      decreases todo
    {
      var sid :| sid in todo;
      var p := ps[sid];
      var entry := PeerInfo(p.socketId, p.username);
      assert (set q | q in list + [entry] :: q.socketId) == (set q | q in list :: q.socketId) + {sid};
      list := list + [entry];
      todo := todo - {sid};
    }
  }

  /** `participants.forEach(p => { p.isAudio = false; })`. */
  method MuteAudio(ps: map<string, Participant>) returns (r: map<string, Participant>)
    ensures r.Keys == ps.Keys
    ensures forall sid :: sid in ps ==> r[sid] == ps[sid].(isAudio := false)
  {
    r := ps;
    var todo := ps.Keys;
    while todo != {}
      invariant todo <= ps.Keys
      invariant r.Keys == ps.Keys
      invariant forall sid :: sid in ps ==> r[sid] == if sid in todo then ps[sid] else ps[sid].(isAudio := false)
      decreases todo
    {
      var sid :| sid in todo;
      r := r[sid := r[sid].(isAudio := false)];
      todo := todo - {sid};
    }
  }

  class Coordinator {
    /** The `rooms` registry. */
    var rooms: Rooms
    /** Every event emitted so far, in emission order. */
    var outbox: seq<Emit>

    ghost predicate Valid()
      reads this
    {
      RegistryWellFormed(rooms)
    }

    constructor ()
      ensures Valid() && rooms == map[] && outbox == []
    {
      rooms := map[];
      outbox := [];
    }

    method CreateRoom(caller: string, payload: Option<H.CreatePayload>, generatedId: string, now: int) returns (ack: Ack)
      requires Valid()
      modifies this
      ensures Valid()
      ensures var o := H.CreateRoom(old(rooms), caller, payload, generatedId, now);
        rooms == o.rooms && ack == o.ack && outbox == old(outbox) + o.emits
    {
      var id := H.CreateId(payload, generatedId);
      if id in rooms {
        return Rejected(AlreadyExists(id));
      }
      if payload.None? {
        return Rejected(NO_PAYLOAD);
      }
      var p := payload.value;
      var password := H.StoredPassword(p.password);
      var name := if Truthy(p.username) then p.username.value else DEFAULT_ADMIN_NAME;
      rooms := rooms[id := NewRoom(password, Admin(caller, name), SettingsFrom(p.settings), now)];
      ack := Created(id);
    }

    /**
     * The first steps of a join: the room is created, with the joiner as admin,
     * if it does not exist, and admin authority moves to the joiner's socket
     * when the joiner gives the admin's display name.
     */
    method ClaimRoom(rid: string, caller: string, user: string, now: int) returns (room: Room)
      modifies this`rooms
      ensures room == H.ClaimedRoom(old(rooms), rid, caller, user, now)
      ensures rooms == old(rooms)[rid := room]
    {
      if rid !in rooms {
        rooms := rooms[rid := NewRoom(None, Admin(caller, user), DEFAULT_SETTINGS, now)];
      }
      room := rooms[rid];
      if room.admin.username == user && room.admin.socketId != caller {
        room := room.(admin := room.admin.(socketId := caller));
        rooms := rooms[rid := room];
      }
    }

    /** The rest of a join, once `room` is claimed under `rid`: the password check, then queueing or admission. */
    method Enter(rid: string, room: Room, caller: string, user: string, password: Option<string>,
                 now: int, history: seq<ChatRecord>) returns (ack: Ack)
      requires WellFormed(room)
      modifies this
      ensures var o := H.Enter(old(rooms), rid, room, caller, user, password, now, history);
        rooms == o.rooms && outbox == old(outbox) + o.emits && H.Answers(ack, o.reply)
    {
      if PasswordRejects(room.password, password) {
        return Rejected(INVALID_PASSWORD);
      }
      var isAdmin := room.admin.socketId == caller;
      if room.settings.requireApproval && !isAdmin {
        var queued := room.(pendingRequests := room.pendingRequests + [PendingRequest(caller, user, now)]);
        rooms := rooms[rid := queued];
        outbox := outbox + [Emit(ToSocket(room.admin.socketId), PendingApproval(caller, user, now))];
        return AwaitingApproval;
      }
      var admitted := room.(participants := room.participants[caller := Admitted(caller, user)]);
      rooms := rooms[rid := admitted];
      if room.settings.muteAllOnEntry && !isAdmin {
        outbox := outbox + [Emit(ToSocket(caller), AdminMuteAll)];
      }
      outbox := outbox + [Emit(ToRoomExcept(rid, caller), UserJoined(caller, user, now, Some(JoinGreeting(user))))];
      var participants := ParticipantList(admitted.participants);
      ack := Joined(rid, participants, history, room.admin.username, room.settings, isAdmin);
    }

    method JoinRoom(caller: string, payload: H.JoinPayload, now: int, history: seq<ChatRecord>) returns (ack: Ack)
      requires Valid()
      modifies this
      ensures Valid()
      ensures var o := H.JoinRoom(old(rooms), caller, payload, now, history);
        rooms == o.rooms && outbox == old(outbox) + o.emits && H.Answers(ack, o.reply)
    {
      if !Truthy(payload.roomId) {
        return Rejected(MISSING_ROOM_ID);
      }
      var rid := payload.roomId.value;
      var user := payload.username.GetOr(DEFAULT_JOINER_NAME);
      var room := ClaimRoom(rid, caller, user, now);
      assert H.JoinRoom(old(rooms), caller, payload, now, history)
          == H.Enter(rooms, rid, room, caller, user, payload.password, now, history);
      ack := Enter(rid, room, caller, user, payload.password, now, history);
    }

    method ApproveUser(caller: string, roomId: Option<string>, target: Option<string>, now: int) returns (ack: Ack)
      requires Valid()
      modifies this
      ensures Valid()
      ensures var o := H.ApproveUser(old(rooms), caller, roomId, target, now);
        rooms == o.rooms && ack == o.ack && outbox == old(outbox) + o.emits
    {
      if roomId.None? || roomId.value !in rooms || rooms[roomId.value].admin.socketId != caller {
        return Rejected(NOT_AUTHORIZED);
      }
      var rid := roomId.value;
      var room := rooms[rid];
      var index := FindPending(room.pendingRequests, target);
      if index.None? {
        return Rejected(USER_NOT_FOUND);
      }
      var sid := target.value;
      var pending := room.pendingRequests[index.value];
      room := room.(pendingRequests := RemoveAt(room.pendingRequests, index.value));
      room := room.(participants := room.participants[sid := Admitted(sid, pending.username)]);
      rooms := rooms[rid := room];
      outbox := outbox + [Emit(ToSocket(sid), ApprovalGranted(rid))];
      outbox := outbox + [Emit(ToRoom(rid), UserJoined(sid, pending.username, now, None))];
      ack := Done;
    }

    method DenyUser(caller: string, roomId: Option<string>, target: Option<string>) returns (ack: Ack)
      requires Valid()
      modifies this
      ensures Valid()
      ensures var o := H.DenyUser(old(rooms), caller, roomId, target);
        rooms == o.rooms && ack == o.ack && outbox == old(outbox) + o.emits
    {
      if roomId.None? || roomId.value !in rooms || rooms[roomId.value].admin.socketId != caller {
        return Rejected(NOT_AUTHORIZED);
      }
      var rid := roomId.value;
      var room := rooms[rid];
      var index := FindPending(room.pendingRequests, target);
      if index.None? {
        return Rejected(USER_NOT_FOUND);
      }
      rooms := rooms[rid := room.(pendingRequests := RemoveAt(room.pendingRequests, index.value))];
      outbox := outbox + [Emit(ToSocket(target.value), ApprovalDenied(rid))];
      ack := Done;
    }

    method UpdatePermissions(caller: string, roomId: Option<string>, target: Option<string>,
                             canAudio: bool, canVideo: bool) returns (ack: Ack)
      requires Valid()
      modifies this
      ensures Valid()
      ensures var o := H.UpdatePermissions(old(rooms), caller, roomId, target, canAudio, canVideo);
        rooms == o.rooms && ack == o.ack && outbox == old(outbox) + o.emits
    {
      if roomId.None? || roomId.value !in rooms || rooms[roomId.value].admin.socketId != caller {
        return Rejected(NOT_AUTHORIZED);
      }
      var rid := roomId.value;
      var room := rooms[rid];
      if target.Some? && target.value in room.participants {
        var sid := target.value;
        var participant := room.participants[sid];
        participant := participant.(isAudio := canAudio);
        participant := participant.(isVideo := canVideo);
        rooms := rooms[rid := room.(participants := room.participants[sid := participant])];
        outbox := outbox + [Emit(ToSocket(sid), AdminPermissionUpdate(canAudio, canVideo))];
      }
      ack := Done;
    }

    method MuteAllParticipants(caller: string, roomId: Option<string>) returns (ack: Ack)
      requires Valid()
      modifies this
      ensures Valid()
      ensures var o := H.MuteAll(old(rooms), caller, roomId);
        rooms == o.rooms && ack == o.ack && outbox == old(outbox) + o.emits
    {
      if roomId.None? || roomId.value !in rooms || rooms[roomId.value].admin.socketId != caller {
        return Rejected(NOT_AUTHORIZED);
      }
      var rid := roomId.value;
      var room := rooms[rid];
      var muted := MuteAudio(room.participants);
      assert muted == MutedAudio(room.participants);
      rooms := rooms[rid := room.(participants := muted)];
      outbox := outbox + [Emit(ToRoom(rid), AdminMuteAll)];
      ack := Done;
    }

    /** The offer, answer and ice-candidate handlers, which differ only in the event they forward. */
    method Relay(kind: H.SignalKind, to: Option<string>, body: Option<string>, from: Option<string>) returns (ack: Ack)
      modifies this`outbox
      ensures var r := H.Relay(kind, to, body, from);
        ack == r.ack && outbox == old(outbox) + r.emits
    {
      if !Truthy(to) {
        return Rejected(MISSING_TARGET);
      }
      outbox := outbox + [Emit(ToSocket(to.value), H.RelayEvent(kind, from, body))];
      ack := Done;
    }

    method PostChat(roomId: Option<string>, username: Option<string>, text: Option<string>, now: int,
                    save: H.SaveResult) returns (ack: Ack)
      modifies this`outbox
      ensures var r := H.PostChat(roomId, username, text, now, save);
        ack == r.ack && outbox == old(outbox) + r.emits
    {
      if !Truthy(roomId) || !Truthy(text) {
        return Rejected(MISSING_ROOM_OR_TEXT);
      }
      var message := ChatRecord(roomId.value, username.GetOr(DEFAULT_CHAT_NAME), text.value, now);
      if save.SaveFailed? {
        return Rejected(save.errorMessage);
      }
      outbox := outbox + [Emit(ToRoom(roomId.value), ChatMessage(message))];
      ack := Posted(message);
    }

    method LeaveRoom(caller: string, roomId: Option<string>) returns (ack: Ack)
      requires Valid()
      modifies this
      ensures Valid()
      ensures var o := H.LeaveRoom(old(rooms), caller, roomId);
        rooms == o.rooms && ack == o.ack && outbox == old(outbox) + o.emits
    {
      if !Truthy(roomId) {
        return Rejected(MISSING_ROOM_ID);
      }
      var rid := roomId.value;
      if rid !in rooms {
        return Rejected(ROOM_NOT_FOUND);
      }
      var room := rooms[rid];
      if caller !in room.participants {
        assert room.participants - {caller} == room.participants;
      }
      if caller in room.participants {
        var participant := room.participants[caller];
        room := room.(participants := room.participants - {caller});
        rooms := rooms[rid := room];
        outbox := outbox + [Emit(ToRoomExcept(rid, caller),
                                 UserLeft(caller, participant.username, LeaveFarewell(participant.username)))];
      }
      if room.participants == map[] {
        rooms := rooms - {rid};
      }
      ack := Done;
    }

    /**
     * The body of the disconnect loop for one room: if the socket is a
     * participant it is removed, the rest of the room is told, and the room
     * is deleted if that emptied it. `start` is the registry the scan began
     * with, `todo` the rooms not yet visited, and `sent` the notices the scan
     * has appended to `sentBefore` so far.
     */
    method DropFromRoom(rid: string, caller: string, reason: string, ghost start: Rooms, ghost todo: set<string>,
                        ghost sentBefore: seq<Emit>, ghost sent: seq<Emit>) returns (ghost sent': seq<Emit>)
      requires rid in todo && todo <= start.Keys
      requires rooms == H.DisconnectPartial(start, start.Keys - todo, caller)
      requires outbox == sentBefore + sent
      requires H.NoticesSent(sent, start, start.Keys - todo, caller, reason)
      modifies this
      ensures rooms == H.DisconnectPartial(start, start.Keys - (todo - {rid}), caller)
      ensures outbox == sentBefore + sent'
      ensures H.NoticesSent(sent', start, start.Keys - (todo - {rid}), caller, reason)
    {
      ghost var done := start.Keys - todo;
      assert start.Keys - (todo - {rid}) == done + {rid};
      H.DisconnectPartialStep(start, done, rid, caller);
      H.NoticesSentStep(sent, start, done, rid, caller, reason);
      sent' := sent;
      var room := rooms[rid];
      if caller in room.participants {
        var participant := room.participants[caller];
        var notice := Emit(ToRoomExcept(rid, caller),
                           UserLeft(caller, participant.username, DisconnectFarewell(participant.username, reason)));
        assert notice == H.DisconnectNotice(start, rid, caller, reason);
        room := room.(participants := room.participants - {caller});
        rooms := rooms[rid := room];
        outbox := outbox + [notice];
        sent' := sent + [notice];
        if room.participants == map[] {
          rooms := rooms - {rid};
        }
      }
    }

    /**
     * The disconnect handler: every room the socket is a participant of loses
     * it, hears of it, and is deleted if that left it empty. One notice goes
     * out per such room; rooms are visited in an unspecified order, so the
     * order of the notices (the Map's insertion order in the source) is not
     * modelled.
     */
    method Disconnect(caller: string, reason: string)
      requires Valid()
      modifies this
      ensures Valid()
      ensures rooms == H.DisconnectRooms(old(rooms), caller)
      ensures |old(outbox)| <= |outbox| && outbox[..|old(outbox)|] == old(outbox)
      ensures H.NoticesSent(outbox[|old(outbox)|..], old(rooms), old(rooms).Keys, caller, reason)
    {
      ghost var start := rooms;
      ghost var sentBefore := outbox;
      ghost var sent: seq<Emit> := [];
      var todo := rooms.Keys;
      H.DisconnectPartialEnds(start, caller);
      assert H.DisconnectNotices(start, {}, caller, reason) == {};
      while todo != {}
        invariant todo <= start.Keys
        invariant rooms == H.DisconnectPartial(start, start.Keys - todo, caller)
        invariant outbox == sentBefore + sent
        invariant H.NoticesSent(sent, start, start.Keys - todo, caller, reason)
        decreases todo
      {
        var rid :| rid in todo;
        sent := DropFromRoom(rid, caller, reason, start, todo, sentBefore, sent);
        todo := todo - {rid};
      }
      assert start.Keys - todo == start.Keys;
      assert outbox[|sentBefore|..] == sent;
    }
  }
}
