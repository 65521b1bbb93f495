/**
 * The socket handlers as steps of a state machine over the registry and the
 * transport. Each handler is one atomic step, as the single-threaded event loop
 * runs it. `Copy` selects between the two copies of the handlers: the module
 * registered by `registerSocketHandlers` and the one inlined in the monolithic
 * server, which differ in the auto-approval notice, in the `autoApproved` flag
 * and in `teacher-ready`.
 */
module Admission {
  import opened Wrappers
  import opened JsMaps
  import opened Model
  import Rooms
  import LiveKit

  datatype Copy = Modular | Monolithic

  /** `user?.role === role`: false for a missing user. */
  predicate HasRole(user: Option<User>, role: string) {
    user.Some? && user.value.role == role
  }

  /** `if (state.teacherSocketId)`: a teacher is set and its id is not the empty string. */
  predicate HasTeacher(st: RoomState) {
    st.teacher.Some? && st.teacher.value != ""
  }

  function Put(reg: Registry, roomId: RoomId, st: RoomState): (r: Registry)
    ensures r.rooms == reg.rooms && r.filesByRoom == reg.filesByRoom
    ensures r.roomState == Set(reg.roomState, roomId, st)
  {
    reg.(roomState := Set(reg.roomState, roomId, st))
  }

  function Send(io: Transport, es: seq<Emission>): (r: Transport)
    ensures r.live == io.live && r.groups == io.groups && r.outbox == io.outbox + es
  {
    io.(outbox := io.outbox + es)
  }

  /** `socket.join(roomId)`. */
  function JoinGroup(io: Transport, sid: SocketId, roomId: RoomId): (r: Transport)
    ensures r.live == io.live && r.outbox == io.outbox && r.groups == io.groups + {(sid, roomId)}
  {
    io.(groups := io.groups + {(sid, roomId)})
  }

  /** `getRoomState(roomId)` as a step of its own: the registry with the state in place. */
  function Ensure(reg: Registry, roomId: RoomId): (r: Registry)
    ensures r.rooms == reg.rooms && r.filesByRoom == reg.filesByRoom
    ensures r.roomState == WithState(reg.roomState, roomId)
  {
    reg.(roomState := WithState(reg.roomState, roomId))
  }

  /** "join-room": a teacher takes over the room and is sent its history and queue. */
  function OnJoinRoom(w: World, sid: SocketId, roomId: RoomId, user: Option<User>): World {
    if !Has(w.reg.rooms, roomId) || !HasRole(user, "Teacher") then w
    else
      var st := StateOf(w.reg.roomState, roomId).(teacher := Some(sid));
      var reg := Put(Ensure(w.reg, roomId), roomId, st);
      World(reg, Send(JoinGroup(w.io, sid, roomId),
                      [Emission(ToSocket(sid), ChatHistory(st.messages)),
                       Emission(ToSocket(sid), PendingList(Values(st.pending)))]
                      + ApprovedListEmission(reg.roomState, roomId)))
  }

  /**
   * "request-join": a student whose key is on the allow-list is admitted at once;
   * anyone else is queued under the caller's id.
   */
  function OnRequestJoin(copy: Copy, w: World, sid: SocketId, roomId: RoomId, user: Option<User>): World {
    if !Has(w.reg.rooms, roomId) || !HasRole(user, "Student") then w
    else
      var key := NormalizeUserKey(user);
      if key.Some? && key.value in StateOf(w.reg.roomState, roomId).approvedUsers then
        AutoApprove(copy, w, sid, roomId, user.value)
      else Enqueue(w, sid, roomId, user.value)
  }

  /** The allow-list path of "request-join". */
  function AutoApprove(copy: Copy, w: World, sid: SocketId, roomId: RoomId, user: User): World {
    var st := StateOf(w.reg.roomState, roomId);
    var reg := Put(Ensure(w.reg, roomId), roomId, st.(approved := Set(st.approved, sid, JoinRequest(sid, user))));
    var notice := if copy.Modular? && HasTeacher(st)
      then [Emission(ToRoom(st.teacher.value), StudentApproved(roomId, sid, user, Some(true)))]
      else [];
    World(reg, Send(JoinGroup(w.io, sid, roomId),
                    [Emission(ToSocket(sid), JoinApproved(roomId)),
                     Emission(ToSocket(sid), ChatHistory(st.messages))]
                    + notice + ApprovedListEmission(reg.roomState, roomId)))
  }

  /** The queueing path of "request-join". */
  function Enqueue(w: World, sid: SocketId, roomId: RoomId, user: User): World {
    var st := StateOf(w.reg.roomState, roomId);
    var st' := st.(pending := Set(st.pending, sid, JoinRequest(sid, user)));
    World(Put(Ensure(w.reg, roomId), roomId, st'),
          Send(w.io, if HasTeacher(st) then [Emission(ToRoom(st.teacher.value), JoinRequests(Values(st'.pending)))] else []))
  }

  /** The approvedUsers set after approving `request`: its key added when it has one. */
  function Admit(users: set<string>, request: JoinRequest): (r: set<string>)
    ensures users <= r
    ensures NormalizeUserKey(Some(request.user)).None? ==> r == users
    ensures NormalizeUserKey(Some(request.user)).Some? ==> r == users + {NormalizeUserKey(Some(request.user)).value}
  {
    match NormalizeUserKey(Some(request.user))
    case None => users
    case Some(k) => users + {k}
  }

  /** "approve-join": the room's current teacher moves a queued request to `approved`. */
  function OnApproveJoin(copy: Copy, w: World, sid: SocketId, roomId: RoomId, target: SocketId): World {
    var st := StateOf(w.reg.roomState, roomId);
    if st.teacher != Some(sid) then World(Ensure(w.reg, roomId), w.io)
    else match Get(st.pending, target)
      case None => World(Ensure(w.reg, roomId), w.io)
      case Some(request) => Approve(copy, w, sid, roomId, target, request)
  }

  /** The state after approving `request` for `target`: out of the queue, into `approved`, key on the allow-list. */
  function Approved(st: RoomState, target: SocketId, request: JoinRequest): RoomState {
    st.(pending := Delete(st.pending, target),
        approvedUsers := Admit(st.approvedUsers, request),
        approved := Set(st.approved, target, request))
  }

  /** `if (studentSocket)`: a still connected student joins the group and is told, with the transcript. */
  function Welcomed(io: Transport, target: SocketId, roomId: RoomId, messages: seq<ChatEntry>): Transport {
    if target in io.live then
      Send(JoinGroup(io, target, roomId),
           [Emission(ToSocket(target), JoinApproved(roomId)), Emission(ToSocket(target), ChatHistory(messages))])
    else io
  }

  /** The successful path of "approve-join". */
  function Approve(copy: Copy, w: World, sid: SocketId, roomId: RoomId, target: SocketId, request: JoinRequest): World {
    var st' := Approved(StateOf(w.reg.roomState, roomId), target, request);
    var reg := Put(Ensure(w.reg, roomId), roomId, st');
    var flag := if copy.Modular? then Some(false) else None;
    World(reg, Send(Welcomed(w.io, target, roomId, st'.messages),
                    [Emission(ToRoom(sid), JoinRequests(Values(st'.pending))),
                     Emission(ToRoom(sid), StudentApproved(roomId, target, request.user, flag))]
                    + ApprovedListEmission(reg.roomState, roomId)))
  }

  /** "chat-message": a member of the room's group appends to its transcript. */
  function OnChatMessage(w: World, sid: SocketId, roomId: RoomId, message: string, user: Option<User>,
                         timestamp: string): World
  {
    if roomId == "" || message == "" || user.None? || !InGroup(w.io, sid, roomId) then w
    else
      var st := StateOf(w.reg.roomState, roomId);
      var entry := ChatEntry(user.value, message, timestamp);
      World(Put(Ensure(w.reg, roomId), roomId, st.(messages := st.messages + [entry])),
            Send(w.io, [Emission(ToRoom(roomId), ChatMessage(entry))]))
  }

  /** "close-class": the room's current teacher removes the room from all three maps. */
  function OnCloseClass(w: World, sid: SocketId, roomId: RoomId): World {
    if roomId == "" then w
    else
      var reg0 := Ensure(w.reg, roomId);
      if StateOf(w.reg.roomState, roomId).teacher != Some(sid) then World(reg0, w.io)
      else
        World(Registry(Delete(w.reg.rooms, roomId), Delete(reg0.roomState, roomId), w.reg.filesByRoom - {roomId}),
              Send(w.io, [Emission(ToRoom(roomId), ClassClosed(roomId)), Emission(ToEveryone, RoomRemoved(roomId))]))
  }

  /** "teacher-ready" (monolithic copy only): the current teacher is sent the approved list. */
  function OnTeacherReady(w: World, sid: SocketId, roomId: RoomId): World {
    var st := StateOf(w.reg.roomState, roomId);
    var reg0 := Ensure(w.reg, roomId);
    if st.teacher != Some(sid) then World(reg0, w.io)
    else World(reg0, Send(w.io, [Emission(ToSocket(sid), ApprovedList(Values(st.approved)))]))
  }

  /** A new socket connects. */
  function OnConnection(w: World, sid: SocketId): World {
    w.(io := w.io.(live := w.io.live + {sid}))
  }

  /** One room's state once socket `sid` is gone from it. */
  function Clean(st: RoomState, sid: SocketId): (r: RoomState)
    ensures r.teacher == (if st.teacher == Some(sid) then None else st.teacher)
    ensures r.pending == Delete(st.pending, sid) && r.approved == Delete(st.approved, sid)
    ensures r.approvedUsers == st.approvedUsers && r.messages == st.messages
  {
    st.(teacher := if st.teacher == Some(sid) then None else st.teacher,
        pending := Delete(st.pending, sid),
        approved := Delete(st.approved, sid))
  }

  /** The approved list of every room, in the map's order, to that room. */
  function ApprovedLists(rs: JsMap<RoomId, RoomState>): (es: seq<Emission>)
    ensures |es| == |rs.order|
    ensures forall i | 0 <= i < |rs.order| ::
      es[i] == Emission(ToRoom(rs.order[i]), ApprovedList(Values(rs.entries[rs.order[i]].approved)))
  {
    seq(|rs.order|, i requires 0 <= i < |rs.order| =>
      Emission(ToRoom(rs.order[i]), ApprovedList(Values(rs.entries[rs.order[i]].approved))))
  }

  /** What the transport does before "disconnect" fires: the socket leaves every group. */
  function Drop(io: Transport, sid: SocketId): (r: Transport)
    ensures r.live == io.live - {sid} && r.outbox == io.outbox
    ensures forall p :: p in r.groups <==> p in io.groups && p.0 != sid
  {
    io.(live := io.live - {sid}, groups := set p | p in io.groups && p.0 != sid)
  }

  /** "disconnect": the socket is cleaned out of every room, then every room hears its approved list. */
  function OnDisconnect(w: World, sid: SocketId): World {
    var rs := MapValues(w.reg.roomState, st => Clean(st, sid));
    World(w.reg.(roomState := rs), Send(Drop(w.io, sid), ApprovedLists(rs)))
  }

  /** The inputs that reach the coordinator: socket events and HTTP requests. */
  datatype Event =
    | Connect(sid: SocketId)
    | JoinRoom(sid: SocketId, roomId: RoomId, user: Option<User>)
    | RequestJoin(sid: SocketId, roomId: RoomId, user: Option<User>)
    | ApproveJoin(sid: SocketId, roomId: RoomId, target: SocketId)
    | Chat(sid: SocketId, roomId: RoomId, message: string, user: Option<User>, timestamp: string)
    | TeacherReady(sid: SocketId, roomId: RoomId)
    | CloseClass(sid: SocketId, roomId: RoomId)
    | Disconnect(sid: SocketId)
    | CreateRoom(title: string, teacherName: string, id: RoomId, createdAt: string)
    | ListFiles(roomId: RoomId)
    | UploadFile(roomId: RoomId, file: Option<Rooms.Upload>, fileId: string, uploadedAt: string)
    | DownloadFile(roomId: RoomId, fileId: string)
    | DeleteFile(roomId: RoomId, fileId: string)
    | RequestToken(roomId: RoomId, user: Option<User>, env: LiveKit.Env, nonce: string)

  /** The events that arrive as HTTP requests rather than over a socket. */
  predicate IsRequest(e: Event) {
    e.CreateRoom? || e.ListFiles? || e.UploadFile? || e.DownloadFile? || e.DeleteFile? || e.RequestToken?
  }

  function Step(copy: Copy, w: World, e: Event): World {
    match e
    case Connect(sid) => OnConnection(w, sid)
    case JoinRoom(sid, roomId, user) => OnJoinRoom(w, sid, roomId, user)
    case RequestJoin(sid, roomId, user) => OnRequestJoin(copy, w, sid, roomId, user)
    case ApproveJoin(sid, roomId, target) => OnApproveJoin(copy, w, sid, roomId, target)
    case Chat(sid, roomId, message, user, timestamp) => OnChatMessage(w, sid, roomId, message, user, timestamp)
    case TeacherReady(sid, roomId) => if copy.Monolithic? then OnTeacherReady(w, sid, roomId) else w
    case CloseClass(sid, roomId) => OnCloseClass(w, sid, roomId)
    case Disconnect(sid) => OnDisconnect(w, sid)
    case CreateRoom(title, teacherName, id, createdAt) =>
      w.(reg := Rooms.CreateRoom(w.reg, title, teacherName, id, createdAt).0)
    case ListFiles(roomId) => w.(reg := Rooms.ListFiles(w.reg, roomId).0)
    case UploadFile(roomId, file, fileId, uploadedAt) =>
      w.(reg := Rooms.UploadFile(w.reg, roomId, file, fileId, uploadedAt).0)
    case DownloadFile(roomId, fileId) => w.(reg := Rooms.DownloadFile(w.reg, roomId, fileId).0)
    case DeleteFile(roomId, fileId) => w.(reg := Rooms.DeleteFile(w.reg, roomId, fileId).0)
    case RequestToken(roomId, user, env, nonce) =>
      // Only the modular server mounts the media-token route.
      if copy.Modular? then w.(reg := LiveKit.TokenRequest(w.reg, roomId, user, env, nonce).0) else w
  }

  /** The world after the events, in order. */
  function Run(copy: Copy, w: World, es: seq<Event>): World
    decreases |es|
  {
    if es == [] then w else Run(copy, Step(copy, w, es[0]), es[1..])
  }
}
