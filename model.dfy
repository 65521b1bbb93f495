/**
 * The coordinator's entities and the pure part of its store: the three
 * process-wide maps (`rooms`, `roomState`, `filesByRoom`), the socket.io
 * transport they are used with, and the helpers that every handler shares
 * (`normalizeUserKey`, `getRoomState`, `getRoomFiles`, `emitApprovedList`).
 */
module Model {
  import opened Wrappers
  import opened JsMaps
  import opened JsStrings

  type RoomId = string
  type SocketId = string

  /** A self-reported identity, `{name, role}`; a missing field is the empty string. */
  datatype User = User(name: string, role: string)

  datatype Room = Room(id: RoomId, title: string, teacherName: string, createdAt: string)

  /** `{socketId, user}`, the value kept in `pending` and in `approved`. */
  datatype JoinRequest = JoinRequest(socketId: SocketId, user: User)

  datatype ChatEntry = ChatEntry(user: User, message: string, timestamp: string)

  datatype FileEntry = FileEntry(id: string, name: string, size: nat, mime: string,
                                 uploadedAt: string, buffer: seq<bv8>)

  /** The per-room session state. */
  datatype RoomState = RoomState(
    teacher: Option<SocketId>,                   // teacherSocketId
    pending: JsMap<SocketId, JoinRequest>,
    approved: JsMap<SocketId, JoinRequest>,
    approvedUsers: set<string>,                  // normalized names
    messages: seq<ChatEntry>)

  /** The three shared maps. */
  datatype Registry = Registry(
    rooms: JsMap<RoomId, Room>,
    roomState: JsMap<RoomId, RoomState>,
    filesByRoom: map<RoomId, seq<FileEntry>>)

  /** Who an emit is addressed to: `socket.emit`, `io.to(name).emit`, `io.emit`. */
  datatype Target = ToSocket(socket: SocketId) | ToRoom(name: string) | ToEveryone

  /** The events the server emits, with their payloads. */
  datatype Notice =
    | ChatHistory(messages: seq<ChatEntry>)
    | PendingList(pending: seq<JoinRequest>)       // "pending-list"
    | JoinRequests(pending: seq<JoinRequest>)      // "join-request"
    | JoinApproved(roomId: RoomId)
    | StudentApproved(roomId: RoomId, socketId: SocketId, user: User, autoApproved: Option<bool>)
    | ApprovedList(approved: seq<JoinRequest>)
    | ChatMessage(entry: ChatEntry)
    | ClassClosed(roomId: RoomId)
    | RoomRemoved(roomId: RoomId)

  datatype Emission = Emission(to: Target, notice: Notice)

  /**
   * The socket.io side: the connected sockets, the group memberships made by
   * `socket.join`, and every emit so far, oldest first.
   */
  datatype Transport = Transport(live: set<SocketId>, groups: set<(SocketId, RoomId)>, outbox: seq<Emission>)

  datatype World = World(reg: Registry, io: Transport)

  /** An HTTP answer: a status with a JSON body, or an error status with its `message`. */
  datatype Reply<T> = Done(status: int, body: T) | Fail(status: int, message: string)

  function FreshState(): (st: RoomState)
    ensures st.teacher.None? && st.pending.order == [] && st.approved.order == []
    ensures st.approvedUsers == {} && st.messages == []
  {
    RoomState(None, Empty(), Empty(), {}, [])
  }

  /**
   * `normalizeUserKey`: the trimmed, lower-cased name, or `None` when the user or
   * the name is missing or nothing is left after trimming.
   */
  function NormalizeUserKey(user: Option<User>): (key: Option<string>)
    ensures user.None? || user.value.name == "" ==> key.None?
    ensures key.Some? ==> key.value != "" && Trimmed(key.value) && ToLower(key.value) == key.value
    ensures user.Some? && Trim(user.value.name) == "" ==> key.None?
    ensures user.Some? && Trim(user.value.name) != "" ==> key == Some(ToLower(Trim(user.value.name)))
  {
    if user.None? || user.value.name == "" then None
    else
      var k := ToLower(Trim(user.value.name));
      TrimLowerCommute(user.value.name);
      TrimOfTrimmed(k);
      ToLowerIdempotent(Trim(user.value.name));
      if |k| > 0 then Some(k) else None
  }

  /** A key is its own normal form: normalizing a normalized name gives it back. */
  lemma NormalizeIdempotent(user: Option<User>, role: string)
    requires NormalizeUserKey(user).Some?
    ensures NormalizeUserKey(Some(User(NormalizeUserKey(user).value, role))) == NormalizeUserKey(user)
  {
    var k := NormalizeUserKey(user).value;
    TrimOfTrimmed(k);
  }

  /**
   * The key depends on the name only through its trimmed, lower-cased form, and
   * conversely two names with the same key agree in that form: different
   * students get different keys.
   */
  lemma NormalizeByTrimmedLower(u: User, v: User)
    ensures ToLower(Trim(u.name)) == ToLower(Trim(v.name)) ==> NormalizeUserKey(Some(u)) == NormalizeUserKey(Some(v))
    ensures NormalizeUserKey(Some(u)).Some? && NormalizeUserKey(Some(u)) == NormalizeUserKey(Some(v)) ==>
              ToLower(Trim(u.name)) == ToLower(Trim(v.name))
  {
    if u.name == "" {
      assert Trim(u.name) == [];
    }
    if v.name == "" {
      assert Trim(v.name) == [];
    }
  }

  /**
   * Names that differ only in surrounding white space share one key: the sole
   * identity the coordinator recognises returning users by.
   */
  lemma NormalizeIgnoresPadding(front: string, name: string, back: string, r1: string, r2: string)
    requires AllSpace(front) && AllSpace(back)
    ensures NormalizeUserKey(Some(User(front + name + back, r1))) == NormalizeUserKey(Some(User(name, r2)))
  {
    TrimIgnoresPadding(front, name, back);
    NormalizeByTrimmedLower(User(front + name + back, r1), User(name, r2));
  }

  /** Names that differ only in letter case share one key. */
  lemma NormalizeIgnoresCase(name: string, r1: string, r2: string)
    ensures NormalizeUserKey(Some(User(ToLower(name), r1))) == NormalizeUserKey(Some(User(name, r2)))
  {
    TrimLowerCommute(name);
    ToLowerIdempotent(Trim(name));
    NormalizeByTrimmedLower(User(ToLower(name), r1), User(name, r2));
  }

  /**
   * The state map after `getRoomState(roomId)`: an unknown id is appended with a
   * fresh state; a known id leaves the map as it was.
   */
  function WithState(rs: JsMap<RoomId, RoomState>, roomId: RoomId): (r: JsMap<RoomId, RoomState>)
    ensures roomId in r.entries
    ensures roomId in rs.entries ==> r == rs
    ensures roomId !in rs.entries ==>
      r.order == rs.order + [roomId] && r.entries[roomId] == FreshState() &&
      forall k | k in rs.entries :: k in r.entries && r.entries[k] == rs.entries[k]
    ensures r.entries.Keys == rs.entries.Keys + {roomId}
  {
    if Has(rs, roomId) then rs else Set(rs, roomId, FreshState())
  }

  /** The state `getRoomState(roomId)` returns. */
  function StateOf(rs: JsMap<RoomId, RoomState>, roomId: RoomId): (st: RoomState)
    ensures roomId in rs.entries ==> st == rs.entries[roomId]
    ensures roomId !in rs.entries ==> st == FreshState()
  {
    WithState(rs, roomId).entries[roomId]
  }

  /** The file map after `getRoomFiles(roomId)`: an empty list only where there was none. */
  function WithFiles(files: map<RoomId, seq<FileEntry>>, roomId: RoomId): (r: map<RoomId, seq<FileEntry>>)
    ensures roomId in r && r.Keys == files.Keys + {roomId}
    ensures roomId in files ==> r == files
    ensures roomId !in files ==> r[roomId] == [] && forall k | k in files :: r[k] == files[k]
  {
    if roomId in files then files else files[roomId := []]
  }

  /**
   * What `emitApprovedList(roomId)` emits: nothing for a room without state,
   * otherwise the approved map's values, in insertion order, to the room.
   */
  function ApprovedListEmission(rs: JsMap<RoomId, RoomState>, roomId: RoomId): (e: seq<Emission>)
    ensures roomId !in rs.entries ==> e == []
    ensures roomId in rs.entries ==>
      e == [Emission(ToRoom(roomId), ApprovedList(Values(rs.entries[roomId].approved)))]
  {
    match Get(rs, roomId)
    case None => []
    case Some(st) => [Emission(ToRoom(roomId), ApprovedList(Values(st.approved)))]
  }

  /**
   * `socket.rooms.has(roomId)`: socket.io puts every socket in a room named by
   * its own id besides the rooms it joined.
   */
  predicate InGroup(io: Transport, sid: SocketId, roomId: RoomId) {
    roomId == sid || (sid, roomId) in io.groups
  }

  /** The sockets an emit reaches at the moment it is made. */
  function Audience(io: Transport, to: Target): (a: set<SocketId>)
    ensures a <= io.live
    ensures to.ToSocket? ==> a == io.live * {to.socket}
    ensures to.ToRoom? ==> forall s | s in io.live :: s in a <==> InGroup(io, s, to.name)
    ensures to.ToEveryone? ==> a == io.live
  {
    match to
    case ToSocket(t) => set s | s in io.live && s == t
    case ToRoom(n) => set s | s in io.live && InGroup(io, s, n)
    case ToEveryone => io.live
  }
}
