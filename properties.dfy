/**
 * Properties of the coordinator that span several handler calls: the
 * approval workflow end to end, repeated leaves and disconnects, the
 * admin-name takeover, participant counts, and the places where the
 * handlers do not keep the room invariants one might expect of them.
 */
module Properties {
  import opened Wrappers
  import opened JsText
  import opened RoomState
  import opened Handlers

  /** A request appended behind no other request for the same socket is the one findIndex finds. */
  lemma {:induction false} FindPendingAppended(q: seq<PendingRequest>, e: PendingRequest)
    requires FindPending(q, Some(e.socketId)).None?
    ensures FindPending(q + [e], Some(e.socketId)) == Some(|q|)
  {
    assert (q + [e])[|q|] == e;
  }

  /** Queued, then approved: the joiner becomes a participant and the queue is as it was before the join. */
  lemma QueuedJoinThenApprove(rooms: Rooms, rid: string, admin: string, joiner: string, user: string,
                              password: Option<string>, now: int, now': int, history: seq<ChatRecord>)
    requires rid != "" && rid in rooms
    requires rooms[rid].settings.requireApproval
    requires rooms[rid].admin.socketId == admin && admin != joiner
    requires rooms[rid].admin.username != user
    requires !PasswordRejects(rooms[rid].password, password)
    requires FindPending(rooms[rid].pendingRequests, Some(joiner)).None?
    ensures var j := JoinRoom(rooms, joiner, JoinPayload(Some(rid), Some(user), password), now, history);
      var a := ApproveUser(j.rooms, admin, Some(rid), Some(joiner), now');
      && j.reply == Replied(AwaitingApproval)
      && j.rooms[rid].participants == rooms[rid].participants
      && a.ack == Done
      && a.rooms.Keys == rooms.Keys
      && a.rooms[rid].participants == rooms[rid].participants[joiner := Admitted(joiner, user)]
      && a.rooms[rid].pendingRequests == rooms[rid].pendingRequests
      && a.emits == [Emit(ToSocket(joiner), ApprovalGranted(rid)), Emit(ToRoom(rid), UserJoined(joiner, user, now', None))]
  {
    var q := rooms[rid].pendingRequests;
    var e := PendingRequest(joiner, user, now);
    var j := JoinRoom(rooms, joiner, JoinPayload(Some(rid), Some(user), password), now, history);
    assert ClaimedRoom(rooms, rid, joiner, user, now) == rooms[rid];
    assert j.rooms[rid].pendingRequests == q + [e];
    FindPendingAppended(q, e);
    assert RemoveAt(q + [e], |q|) == q;
  }

  /** Queued, then denied: nobody is admitted and the queue is as it was before the join. */
  lemma QueuedJoinThenDeny(rooms: Rooms, rid: string, admin: string, joiner: string, user: string,
                           password: Option<string>, now: int, history: seq<ChatRecord>)
    requires rid != "" && rid in rooms
    requires rooms[rid].settings.requireApproval
    requires rooms[rid].admin.socketId == admin && admin != joiner
    requires rooms[rid].admin.username != user
    requires !PasswordRejects(rooms[rid].password, password)
    requires FindPending(rooms[rid].pendingRequests, Some(joiner)).None?
    ensures var j := JoinRoom(rooms, joiner, JoinPayload(Some(rid), Some(user), password), now, history);
      var d := DenyUser(j.rooms, admin, Some(rid), Some(joiner));
      && d.ack == Done
      && d.rooms[rid].participants == rooms[rid].participants
      && d.rooms[rid].pendingRequests == rooms[rid].pendingRequests
      && d.emits == [Emit(ToSocket(joiner), ApprovalDenied(rid))]
  {
    var q := rooms[rid].pendingRequests;
    var e := PendingRequest(joiner, user, now);
    assert ClaimedRoom(rooms, rid, joiner, user, now) == rooms[rid];
    FindPendingAppended(q, e);
    assert RemoveAt(q + [e], |q|) == q;
  }

  /**
   * Claiming the admin's display name hands admin authority to the claiming
   * socket, whatever password it gives; the former admin socket loses it.
   */
  lemma NameClaimTakesAuthority(rooms: Rooms, rid: string, oldAdmin: string, claimant: string,
                                password: Option<string>, now: int, history: seq<ChatRecord>)
    requires rid != "" && rid in rooms
    requires rooms[rid].admin.socketId == oldAdmin && claimant != oldAdmin
    ensures var j := JoinRoom(rooms, claimant, JoinPayload(Some(rid), Some(rooms[rid].admin.username), password), now, history);
      && Authorized(j.rooms, Some(rid), claimant)
      && !Authorized(j.rooms, Some(rid), oldAdmin)
      && MuteAll(j.rooms, oldAdmin, Some(rid)).ack == Rejected(NOT_AUTHORIZED)
  {
    var r := ClaimedRoom(rooms, rid, claimant, rooms[rid].admin.username, now);
    assert r.admin.socketId == claimant;
  }

  /** Leaving twice: the second leave changes nothing and tells no one. */
  lemma LeaveTwice(rooms: Rooms, caller: string, rid: string)
    requires rid != ""
    ensures var first := LeaveRoom(rooms, caller, Some(rid));
      var second := LeaveRoom(first.rooms, caller, Some(rid));
      && second.rooms == first.rooms
      && second.emits == []
      && (second.ack == Done || second.ack == Rejected(ROOM_NOT_FOUND))
  {
    var first := LeaveRoom(rooms, caller, Some(rid));
    if rid in rooms && rid in first.rooms {
      var r := first.rooms[rid];
      assert caller !in r.participants;
      assert r.participants - {caller} == r.participants;
      assert first.rooms[rid := r.(participants := r.participants - {caller})] == first.rooms;
    }
  }

  /** Disconnecting twice: the second disconnect changes nothing and tells no one. */
  lemma DisconnectTwice(rooms: Rooms, sid: string, reason: string)
    ensures var once := DisconnectRooms(rooms, sid);
      && DisconnectRooms(once, sid) == once
      && DisconnectNotices(once, once.Keys, sid, reason) == {}
  {
    var once := DisconnectRooms(rooms, sid);
    forall rid | rid in once
      ensures once[rid].participants - {sid} == once[rid].participants
    {
    }
    assert DisconnectRooms(once, sid) == once;
  }

  /** An admitted newcomer adds exactly one participant. */
  lemma AdmissionAddsOne(rooms: Rooms, caller: string, payload: JoinPayload, now: int, history: seq<ChatRecord>)
    requires Truthy(payload.roomId)
    requires var r := ClaimedRoom(rooms, payload.roomId.value, caller, JoinerName(payload), now);
      !PasswordRejects(r.password, payload.password) && !Queues(r, caller) && caller !in r.participants
    ensures var r := ClaimedRoom(rooms, payload.roomId.value, caller, JoinerName(payload), now);
      |JoinRoom(rooms, caller, payload, now, history).rooms[payload.roomId.value].participants| == |r.participants| + 1
  {
    var r := ClaimedRoom(rooms, payload.roomId.value, caller, JoinerName(payload), now);
    var ps' := r.participants[caller := Admitted(caller, JoinerName(payload))];
    assert ps'.Keys == r.participants.Keys + {caller};
  }

  /** A participant leaving a room that others remain in removes exactly one participant. */
  lemma LeaveRemovesOne(rooms: Rooms, caller: string, rid: string)
    requires rid != "" && rid in rooms && caller in rooms[rid].participants
    requires rooms[rid].participants - {caller} != map[]
    ensures rid in LeaveRoom(rooms, caller, Some(rid)).rooms
    ensures |LeaveRoom(rooms, caller, Some(rid)).rooms[rid].participants| == |rooms[rid].participants| - 1
  {
    var ps := rooms[rid].participants;
    assert (ps - {caller}).Keys == ps.Keys - {caller};
  }

  /** Mute-all does not outlive the call: a later joiner keeps audio unless mute-on-entry is set. */
  lemma MuteAllThenJoin(rooms: Rooms, rid: string, admin: string, joiner: string, user: string,
                        password: Option<string>, now: int, history: seq<ChatRecord>)
    requires rid != "" && rid in rooms && rooms[rid].admin.socketId == admin
    requires joiner != admin && rooms[rid].admin.username != user
    requires !rooms[rid].settings.requireApproval && !rooms[rid].settings.muteAllOnEntry
    requires !PasswordRejects(rooms[rid].password, password)
    ensures var m := MuteAll(rooms, admin, Some(rid));
      var j := JoinRoom(m.rooms, joiner, JoinPayload(Some(rid), Some(user), password), now, history);
      && (forall sid :: sid in rooms[rid].participants && sid != joiner ==> !j.rooms[rid].participants[sid].isAudio)
      && j.rooms[rid].participants[joiner].isAudio
      && j.emits == [Emit(ToRoomExcept(rid, joiner), UserJoined(joiner, user, now, Some(JoinGreeting(user))))]
  {
    var m := MuteAll(rooms, admin, Some(rid));
    assert ClaimedRoom(m.rooms, rid, joiner, user, now) == m.rooms[rid];
  }

  /**
   * The creator of a room who then joins it with the details it was created
   * with enters at once as its admin, even when the room requires approval.
   */
  lemma CreatorJoinsAsAdmin(rooms: Rooms, caller: string, p: CreatePayload, generatedId: string,
                            now: int, now': int, history: seq<ChatRecord>)
    requires CreateId(Some(p), generatedId) !in rooms && CreateId(Some(p), generatedId) != ""
    ensures
      var id := CreateId(Some(p), generatedId);
      var c := CreateRoom(rooms, caller, Some(p), generatedId, now);
      var jp := JoinPayload(Some(id), p.username, p.password);
      var ja := JoinRoom(c.rooms, caller, jp, now', history);
      && c.ack == Created(id)
      && ja.reply.Admission? && ja.reply.isAdmin
      && ja.rooms.Keys == rooms.Keys + {id}
      && ja.rooms[id].admin == Admin(caller, if Truthy(p.username) then p.username.value else DEFAULT_ADMIN_NAME)
      && ja.rooms[id].password == StoredPassword(p.password)
      && ja.rooms[id].settings == SettingsFrom(p.settings)
      && ja.rooms[id].participants == map[caller := Admitted(caller, JoinerName(jp))]
      && ja.rooms[id].pendingRequests == []
  {
    var id := CreateId(Some(p), generatedId);
    var c := CreateRoom(rooms, caller, Some(p), generatedId, now);
    var jp := JoinPayload(Some(id), p.username, p.password);
    assert ClaimedRoom(c.rooms, id, caller, JoinerName(jp), now') == c.rooms[id];
  }

  // ---------- the approval workflow on a fresh room, step by step ----------
  //
  // Alice creates "abc123" requiring approval and joins it (as admin she is
  // not queued); Bob's join is queued; Alice approves him; Bob is a
  // participant and the whole room, Alice included, hears that he joined.
  // Each lemma gives one handler's whole outcome on the previous one's room.

  const SCENARIO_SETTINGS := Settings(true, true, false, false)
  const SCENARIO_CREATED := NewRoom(None, Admin("alice", "Alice"), SCENARIO_SETTINGS, 0)
  const SCENARIO_OPENED := SCENARIO_CREATED.(participants := map["alice" := Admitted("alice", "Alice")])
  const SCENARIO_QUEUED := SCENARIO_OPENED.(pendingRequests := [PendingRequest("bob", "Bob", 2)])
  const SCENARIO_APPROVED :=
    SCENARIO_OPENED.(participants := map["alice" := Admitted("alice", "Alice"), "bob" := Admitted("bob", "Bob")])

  /** Alice creates room "abc123" requiring approval: the room is hers, empty, with the requested settings. */
  lemma ScenarioCreate()
    ensures CreateRoom(map[], "alice", Some(CreatePayload(Some("abc123"), Some("Alice"), None,
                                                          Some(SettingsInput(None, Some(true), None, None)))), "k3x9q2z", 0)
         == Outcome(map["abc123" := SCENARIO_CREATED], Created("abc123"), [])
  {
    TrimFixesTrimmed("abc123");
  }

  /** Alice joins her room: as its admin she is admitted at once, although the room requires approval. */
  lemma ScenarioAliceJoins()
    ensures JoinRoom(map["abc123" := SCENARIO_CREATED], "alice", JoinPayload(Some("abc123"), Some("Alice"), None), 1, [])
         == JoinOutcome(map["abc123" := SCENARIO_OPENED],
                        Admission("abc123", SCENARIO_OPENED.participants, [], "Alice", SCENARIO_SETTINGS, true),
                        [Emit(ToRoomExcept("abc123", "alice"), UserJoined("alice", "Alice", 1, Some(JoinGreeting("Alice"))))])
  {
    assert ClaimedRoom(map["abc123" := SCENARIO_CREATED], "abc123", "alice", "Alice", 1) == SCENARIO_CREATED;
  }

  /** Bob's join is queued, and the admin socket is told. */
  lemma ScenarioBobQueues()
    ensures JoinRoom(map["abc123" := SCENARIO_OPENED], "bob", JoinPayload(Some("abc123"), Some("Bob"), None), 2, [])
         == JoinOutcome(map["abc123" := SCENARIO_QUEUED], Replied(AwaitingApproval),
                        [Emit(ToSocket("alice"), PendingApproval("bob", "Bob", 2))])
  {
    assert ClaimedRoom(map["abc123" := SCENARIO_OPENED], "abc123", "bob", "Bob", 2) == SCENARIO_OPENED;
    assert SCENARIO_OPENED.pendingRequests + [PendingRequest("bob", "Bob", 2)] == SCENARIO_QUEUED.pendingRequests;
  }

  /** Alice approves Bob: he leaves the queue, becomes a participant, and he and the whole room are told. */
  lemma ScenarioAliceApproves()
    ensures ApproveUser(map["abc123" := SCENARIO_QUEUED], "alice", Some("abc123"), Some("bob"), 3)
         == Outcome(map["abc123" := SCENARIO_APPROVED], Done,
                    [Emit(ToSocket("bob"), ApprovalGranted("abc123")), Emit(ToRoom("abc123"), UserJoined("bob", "Bob", 3, None))])
  {
    FindPendingAppended([], PendingRequest("bob", "Bob", 2));
    assert [] + [PendingRequest("bob", "Bob", 2)] == SCENARIO_QUEUED.pendingRequests;
    assert RemoveAt(SCENARIO_QUEUED.pendingRequests, 0) == [];
  }

  // ---------- where the handlers do not keep the expected room invariants ----------

  /** create-room leaves a room with no participants in the registry: rooms are not deleted the moment they are empty. */
  lemma CreatedRoomIsEmpty(rooms: Rooms, caller: string, payload: CreatePayload, generatedId: string, now: int)
    requires CreateId(Some(payload), generatedId) !in rooms
    ensures var o := CreateRoom(rooms, caller, Some(payload), generatedId, now);
      CreateId(Some(payload), generatedId) in o.rooms
      && o.rooms[CreateId(Some(payload), generatedId)].participants == map[]
  {
  }

  /** A repeated join under approval queues the same socket twice, and approval removes only the first entry. */
  lemma RepeatedRequestsAccumulate(rooms: Rooms, rid: string, admin: string, joiner: string, user: string,
                                   now: int, now': int, now'': int)
    requires rid != "" && rid in rooms
    requires rooms[rid].settings.requireApproval && rooms[rid].password == None
    requires rooms[rid].admin.socketId == admin && admin != joiner
    requires rooms[rid].admin.username != user
    requires rooms[rid].pendingRequests == []
    ensures var p := JoinPayload(Some(rid), Some(user), None);
      var j1 := JoinRoom(rooms, joiner, p, now, []);
      var j2 := JoinRoom(j1.rooms, joiner, p, now', []);
      var a := ApproveUser(j2.rooms, admin, Some(rid), Some(joiner), now'');
      && j2.rooms[rid].pendingRequests == [PendingRequest(joiner, user, now), PendingRequest(joiner, user, now')]
      && a.ack == Done
      && joiner in a.rooms[rid].participants
      && a.rooms[rid].pendingRequests == [PendingRequest(joiner, user, now')]
  {
    var p := JoinPayload(Some(rid), Some(user), None);
    var j1 := JoinRoom(rooms, joiner, p, now, []);
    assert ClaimedRoom(rooms, rid, joiner, user, now) == rooms[rid];
    assert ClaimedRoom(j1.rooms, rid, joiner, user, now') == j1.rooms[rid];
    var j2 := JoinRoom(j1.rooms, joiner, p, now', []);
    assert FindPending(j2.rooms[rid].pendingRequests, Some(joiner)) == Some(0);
  }

  /**
   * A disconnect leaves the socket's pending requests in place, so the admin
   * can still approve a socket that is gone, making it a participant.
   */
  lemma DisconnectedRequesterStillApprovable(rooms: Rooms, rid: string, admin: string, sid: string, reason: string, now: int)
    requires rid in rooms && rooms[rid].admin.socketId == admin
    requires FindPending(rooms[rid].pendingRequests, Some(sid)).Some?
    requires forall k :: k in rooms ==> sid !in rooms[k].participants
    ensures DisconnectRooms(rooms, sid) == rooms
    ensures DisconnectNotices(rooms, rooms.Keys, sid, reason) == {}
    ensures var a := ApproveUser(DisconnectRooms(rooms, sid), admin, Some(rid), Some(sid), now);
      a.ack == Done && sid in a.rooms[rid].participants
  {
    forall k | k in rooms
      ensures rooms[k].participants - {sid} == rooms[k].participants
    {
    }
    assert DisconnectRooms(rooms, sid) == rooms;
  }

  /**
   * The admin socket can itself be waiting in the queue: a queued socket that
   * joins again under the admin's display name becomes admin while its
   * request stays pending.
   */
  lemma AdminCanBePending(rooms: Rooms, rid: string, admin: string, joiner: string, user: string, now: int, now': int)
    requires rid != "" && rid in rooms
    requires rooms[rid].settings.requireApproval && rooms[rid].password == None
    requires rooms[rid].admin.socketId == admin && admin != joiner
    requires rooms[rid].admin.username != user
    ensures var j1 := JoinRoom(rooms, joiner, JoinPayload(Some(rid), Some(user), None), now, []);
      var j2 := JoinRoom(j1.rooms, joiner, JoinPayload(Some(rid), Some(rooms[rid].admin.username), None), now', []);
      var q := j2.rooms[rid].pendingRequests;
      && j2.rooms[rid].admin.socketId == joiner
      && |q| > 0 && q[|q| - 1].socketId == joiner
  {
    var j1 := JoinRoom(rooms, joiner, JoinPayload(Some(rid), Some(user), None), now, []);
    assert ClaimedRoom(rooms, rid, joiner, user, now) == rooms[rid];
    assert j1.rooms[rid].pendingRequests == rooms[rid].pendingRequests + [PendingRequest(joiner, user, now)];
  }
}
