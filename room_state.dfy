/**
 * The coordinator's in-memory state: the room records held in the `rooms`
 * registry, the events the handlers emit and the acknowledgements they return,
 * with the error strings and defaults the handlers use.
 */
module RoomState {
  import opened Wrappers
  import opened JsText

  /** The four room settings. */
  datatype Settings = Settings(
    allowScreenShare: bool,
    requireApproval: bool,
    muteAllOnEntry: bool,
    isRecordingEnabled: bool)

  /** The `settings` object of a create-room payload; an absent field is None. */
  datatype SettingsInput = SettingsInput(
    allowScreenShare: Option<bool>,
    requireApproval: Option<bool>,
    muteAllOnEntry: Option<bool>,
    isRecordingEnabled: Option<bool>)

  /** The connection currently holding admin authority, and the display name it was granted under. */
  datatype Admin = Admin(socketId: string, username: string)

  datatype Participant = Participant(
    socketId: string,
    username: string,
    isAudio: bool,
    isVideo: bool,
    approved: bool)

  datatype PendingRequest = PendingRequest(socketId: string, username: string, requestedAt: int)

  /**
   * One room record. `password` None is JavaScript's null; `participants` is
   * keyed by socket id; `pendingRequests` keeps arrival order, duplicates included.
   */
  datatype Room = Room(
    password: Option<string>,
    admin: Admin,
    participants: map<string, Participant>,
    settings: Settings,
    pendingRequests: seq<PendingRequest>,
    createdAt: int)

  /** The registry: room id to room record. */
  type Rooms = map<string, Room>

  /** A chat message as stored by, and read back from, the message store. */
  datatype ChatRecord = ChatRecord(roomId: string, username: string, text: string, timestamp: int)

  /** The identity and name of a participant, as listed to a new joiner. */
  datatype PeerInfo = PeerInfo(socketId: string, username: string)

  /**
   * Where an event goes: the channel `io.to(x)` names when `x` is a socket
   * id, a whole room (`io.to(roomId)`, `io.in(roomId)`), or a room except the
   * sending socket (`socket.to(roomId)`). `ToSocket(x)` only records the
   * name: the signaling relay sends to whatever `to` the client gave, which
   * reaches a whole room when it names one.
   */
  datatype Target =
    | ToSocket(socketId: string)
    | ToRoom(roomId: string)
    | ToRoomExcept(roomId: string, sender: string)

  /** The server-to-client events; signaling payloads are opaque and may be absent. */
  datatype Event =
    | PendingApproval(socketId: string, username: string, timestamp: int)
    | UserJoined(socketId: string, username: string, timestamp: int, greeting: Option<string>)
    | UserLeft(socketId: string, username: string, farewell: string)
    | AdminMuteAll
    | ApprovalGranted(roomId: string)
    | ApprovalDenied(roomId: string)
    | AdminPermissionUpdate(canAudio: bool, canVideo: bool)
    | Offer(from: Option<string>, offer: Option<string>)
    | Answer(from: Option<string>, answer: Option<string>)
    | IceCandidate(from: Option<string>, candidate: Option<string>)
    | ChatMessage(record: ChatRecord)

  datatype Emit = Emit(target: Target, event: Event)

  /** The acknowledgement a handler passes to the client's callback. */
  datatype Ack =
    | Done                                      // { success: true }
    | Created(roomId: string)                   // { success: true, roomId }
    | Joined(
        roomId: string,
        participants: seq<PeerInfo>,
        messages: seq<ChatRecord>,
        adminUsername: string,
        roomSettings: Settings,
        isAdmin: bool)
    | Posted(message: ChatRecord)               // { success: true, message }
    | AwaitingApproval                          // { success: false, error: WAITING_APPROVAL, message: WAITING_MESSAGE }
    | Rejected(error: string)                   // { success: false, error }

  const MISSING_ROOM_ID := "Missing roomId"
  const INVALID_PASSWORD := "Invalid password"
  const NOT_AUTHORIZED := "Not authorized"
  const USER_NOT_FOUND := "User not found"
  const MISSING_TARGET := "Missing target socket id"
  const MISSING_ROOM_OR_TEXT := "Missing roomId or text"
  const ROOM_NOT_FOUND := "Room not found"
  const WAITING_APPROVAL := "waiting_approval"
  const WAITING_MESSAGE := "Waiting for admin approval"
  /** The TypeError message V8 gives when create-room reads `payload.username` of an undefined payload. */
  const NO_PAYLOAD := "Cannot read properties of undefined (reading 'username')"

  const DEFAULT_ADMIN_NAME := "Admin"
  const DEFAULT_JOINER_NAME := "Anonymous"
  const DEFAULT_CHAT_NAME := "Anon"

  function AlreadyExists(id: string): string {
    "Room " + id + " already exists"
  }

  function JoinGreeting(username: string): string {
    "\U{1F7E2} " + username + " joined the chat zone."
  }

  function LeaveFarewell(username: string): string {
    "\U{1F534} " + username + " left"
  }

  function DisconnectFarewell(username: string, reason: string): string {
    "\U{1F534} " + username + " disconnected (" + reason + ")"
  }

  /** The settings of a room created by a join to an unknown id. */
  const DEFAULT_SETTINGS := Settings(true, false, false, false)

  /**
   * The settings of a room created by create-room: screen sharing unless
   * explicitly turned off, each other setting only if explicitly turned on.
   */
  function SettingsFrom(input: Option<SettingsInput>): (s: Settings)
    ensures input.None? ==> s == DEFAULT_SETTINGS
    ensures !s.allowScreenShare <==> input.Some? && input.value.allowScreenShare == Some(false)
    ensures s.requireApproval <==> input.Some? && input.value.requireApproval == Some(true)
    ensures s.muteAllOnEntry <==> input.Some? && input.value.muteAllOnEntry == Some(true)
    ensures s.isRecordingEnabled <==> input.Some? && input.value.isRecordingEnabled == Some(true)
  {
    match input
    case None => DEFAULT_SETTINGS
    case Some(i) =>
      Settings(
        i.allowScreenShare != Some(false),
        i.requireApproval.GetOr(false),
        i.muteAllOnEntry.GetOr(false),
        i.isRecordingEnabled.GetOr(false))
  }

  /** A fresh room: no participants, nobody waiting. */
  function NewRoom(password: Option<string>, admin: Admin, settings: Settings, now: int): (r: Room)
    ensures r.participants == map[] && r.pendingRequests == []
    ensures r.admin == admin && r.password == password && r.settings == settings
  {
    Room(password, admin, map[], settings, [], now)
  }

  /** The record of a newly admitted participant: audio, video and approval all on. */
  function Admitted(socketId: string, username: string): Participant {
    Participant(socketId, username, true, true, true)
  }

  /** A join is refused when the room has a non-empty password that the supplied one does not equal exactly. */
  predicate PasswordRejects(stored: Option<string>, supplied: Option<string>) {
    Truthy(stored) && Some(stored.value) != supplied
  }

  /** `findIndex`: the first pending entry whose socket id is the target, if any. */
  function FindPending(q: seq<PendingRequest>, target: Option<string>): (r: Option<nat>)
    ensures r.Some? ==> r.value < |q| && Some(q[r.value].socketId) == target
    ensures r.Some? ==> forall j :: 0 <= j < r.value ==> Some(q[j].socketId) != target
    ensures r.None? <==> forall j :: 0 <= j < |q| ==> Some(q[j].socketId) != target
  {
    if q == [] then None
    else if Some(q[0].socketId) == target then Some(0)
    else match FindPending(q[1..], target)
      case None => None
      case Some(i) => Some(i + 1)
  }

  /** `splice(i, 1)`: the sequence with element i taken out and the rest kept in order. */
  function RemoveAt<T>(s: seq<T>, i: nat): (r: seq<T>)
    requires i < |s|
    ensures |r| == |s| - 1
    ensures forall j :: 0 <= j < i ==> r[j] == s[j]
    ensures forall j :: i <= j < |r| ==> r[j] == s[j + 1]
  {
    s[..i] + s[i + 1..]
  }

  /** Every participant with audio turned off and nothing else changed. */
  function MutedAudio(ps: map<string, Participant>): (r: map<string, Participant>)
    ensures r.Keys == ps.Keys
    ensures forall sid :: sid in ps ==> !r[sid].isAudio && r[sid] == ps[sid].(isAudio := false)
  {
    map k | k in ps :: ps[k].(isAudio := false)
  }

  /** The caller holds admin authority over the named room, which exists. */
  predicate Authorized(rooms: Rooms, roomId: Option<string>, caller: string) {
    roomId.Some? && roomId.value in rooms && rooms[roomId.value].admin.socketId == caller
  }

  /** The room's participants are keyed by their own socket id, and every one of them is approved. */
  ghost predicate WellFormed(r: Room) {
    forall sid :: sid in r.participants ==> r.participants[sid].socketId == sid && r.participants[sid].approved
  }

  ghost predicate RegistryWellFormed(rooms: Rooms) {
    forall rid :: rid in rooms ==> WellFormed(rooms[rid])
  }

  /** `list` names every participant of `roster` once, with its display name. */
  ghost predicate ListsRoster(list: seq<PeerInfo>, roster: map<string, Participant>) {
    && (set p | p in list :: p.socketId) == roster.Keys
    && (forall i :: 0 <= i < |list| ==> list[i].socketId in roster && list[i].username == roster[list[i].socketId].username)
    && (forall i, j :: 0 <= i < j < |list| ==> list[i].socketId != list[j].socketId)
  }
}
