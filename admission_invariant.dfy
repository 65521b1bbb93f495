/**
 * What every reachable world satisfies: who may appear in a room's state,
 * and that every room has its session state and its file list.
 */
module AdmissionInvariant {
  import opened Wrappers
  import opened JsMaps
  import opened Model
  import opened Admission
  import Rooms
  import LiveKit

  /** Only connected sockets are members of groups. */
  predicate GroupsLive(io: Transport) {
    forall p | p in io.groups :: p.0 in io.live
  }

  /** The student's key, if it has one, is on the room's allow-list. */
  predicate Listed(st: RoomState, user: User) {
    var key := NormalizeUserKey(Some(user));
    key.None? || key.value in st.approvedUsers
  }

  predicate PendingOk(io: Transport, st: RoomState) {
    forall s | s in st.pending.entries ::
      s in io.live && st.pending.entries[s].socketId == s && st.pending.entries[s].user.role == "Student"
  }

  predicate ApprovedOk(io: Transport, roomId: RoomId, st: RoomState) {
    forall s | s in st.approved.entries ::
      && s in io.live && (s, roomId) in io.groups
      && st.approved.entries[s].socketId == s && st.approved.entries[s].user.role == "Student"
      && Listed(st, st.approved.entries[s].user)
  }

  /**
   * A room's state: its teacher is connected and in the room's group; its
   * queue holds connected students under their own ids; its admitted students
   * are connected, in the group, under their own ids and on the allow-list.
   */
  predicate StateOk(io: Transport, roomId: RoomId, st: RoomState) {
    && (st.teacher.Some? ==> st.teacher.value in io.live && (st.teacher.value, roomId) in io.groups)
    && PendingOk(io, st)
    && ApprovedOk(io, roomId, st)
  }

  predicate RegistryOk(reg: Registry) {
    forall r | r in reg.rooms.entries :: r in reg.roomState.entries && r in reg.filesByRoom
  }

  predicate StatesOk(reg: Registry, io: Transport) {
    forall r | r in reg.roomState.entries :: StateOk(io, r, reg.roomState.entries[r])
  }

  predicate Valid(w: World) {
    GroupsLive(w.io) && RegistryOk(w.reg) && StatesOk(w.reg, w.io)
  }

  /** Socket events come from connected sockets; a connecting socket is new. */
  predicate WellFormed(w: World, e: Event) {
    match e
    case Connect(sid) => sid !in w.io.live
    case JoinRoom(sid, _, _) => sid in w.io.live
    case RequestJoin(sid, _, _) => sid in w.io.live
    case ApproveJoin(sid, _, _) => sid in w.io.live
    case Chat(sid, _, _, _, _) => sid in w.io.live
    case TeacherReady(sid, _) => sid in w.io.live
    case CloseClass(sid, _) => sid in w.io.live
    case Disconnect(sid) => sid in w.io.live
    case _ => true
  }

  lemma FreshStateOk(io: Transport, roomId: RoomId)
    ensures StateOk(io, roomId, FreshState())
  {
  }

  /** `getRoomState` keeps the invariant: a new state is empty. */
  lemma EnsureOk(reg: Registry, io: Transport, roomId: RoomId)
    requires RegistryOk(reg) && StatesOk(reg, io)
    ensures RegistryOk(Ensure(reg, roomId)) && StatesOk(Ensure(reg, roomId), io)
    ensures StateOf(reg.roomState, roomId) == Ensure(reg, roomId).roomState.entries[roomId]
  {
    FreshStateOk(io, roomId);
  }

  /** Replacing one room's state by a good one keeps the invariant. */
  lemma PutOk(reg: Registry, io: Transport, roomId: RoomId, st: RoomState)
    requires RegistryOk(reg) && StatesOk(reg, io) && roomId in reg.roomState.entries
    requires StateOk(io, roomId, st)
    ensures RegistryOk(Put(reg, roomId, st)) && StatesOk(Put(reg, roomId, st), io)
  {
  }

  /** More group memberships never break a state. */
  lemma StateOkMoreGroups(io: Transport, io': Transport, roomId: RoomId, st: RoomState)
    requires io'.live == io.live && io.groups <= io'.groups
    requires StateOk(io, roomId, st)
    ensures StateOk(io', roomId, st)
  {
  }

  lemma StatesOkMoreGroups(reg: Registry, io: Transport, io': Transport)
    requires io'.live == io.live && io.groups <= io'.groups
    requires StatesOk(reg, io)
    ensures StatesOk(reg, io')
  {
    forall r | r in reg.roomState.entries ensures StateOk(io', r, reg.roomState.entries[r]) {
      StateOkMoreGroups(io, io', r, reg.roomState.entries[r]);
    }
  }

  lemma StatesOkSend(reg: Registry, io: Transport, es: seq<Emission>)
    requires StatesOk(reg, io)
    ensures StatesOk(reg, Send(io, es))
  {
    StatesOkMoreGroups(reg, io, Send(io, es));
  }

  /** A connected socket may become the teacher once it is in the room's group. */
  lemma TeacherStateOk(io: Transport, roomId: RoomId, st: RoomState, sid: SocketId)
    requires StateOk(io, roomId, st) && sid in io.live
    ensures StateOk(JoinGroup(io, sid, roomId), roomId, st.(teacher := Some(sid)))
  {
    StateOkMoreGroups(io, JoinGroup(io, sid, roomId), roomId, st);
  }

  lemma JoinRoomValid(w: World, sid: SocketId, roomId: RoomId, user: Option<User>)
    requires Valid(w) && sid in w.io.live
    ensures Valid(OnJoinRoom(w, sid, roomId, user))
  {
    if Has(w.reg.rooms, roomId) && HasRole(user, "Teacher") {
      var io1 := JoinGroup(w.io, sid, roomId);
      EnsureOk(w.reg, w.io, roomId);
      StatesOkMoreGroups(Ensure(w.reg, roomId), w.io, io1);
      var st := StateOf(w.reg.roomState, roomId);
      TeacherStateOk(w.io, roomId, st, sid);
      PutOk(Ensure(w.reg, roomId), io1, roomId, st.(teacher := Some(sid)));
      var reg := Put(Ensure(w.reg, roomId), roomId, st.(teacher := Some(sid)));
      StatesOkSend(reg, io1, [Emission(ToSocket(sid), ChatHistory(st.messages)),
                              Emission(ToSocket(sid), PendingList(Values(st.pending)))]
                             + ApprovedListEmission(reg.roomState, roomId));
    }
  }

  lemma RequestJoinValid(copy: Copy, w: World, sid: SocketId, roomId: RoomId, user: Option<User>)
    requires Valid(w) && sid in w.io.live
    ensures Valid(OnRequestJoin(copy, w, sid, roomId, user))
  {
    if Has(w.reg.rooms, roomId) && HasRole(user, "Student") {
      var key := NormalizeUserKey(user);
      if key.Some? && key.value in StateOf(w.reg.roomState, roomId).approvedUsers {
        AutoApproveValid(copy, w, sid, roomId, user.value);
      } else {
        EnqueueValid(w, sid, roomId, user.value);
      }
    }
  }

  /** A connected student whose key is on the allow-list may be put in `approved` once in the group. */
  lemma AdmittedStateOk(io: Transport, roomId: RoomId, st: RoomState, sid: SocketId, user: User)
    requires StateOk(io, roomId, st) && sid in io.live && user.role == "Student" && Listed(st, user)
    ensures StateOk(JoinGroup(io, sid, roomId), roomId, st.(approved := Set(st.approved, sid, JoinRequest(sid, user))))
  {
    StateOkMoreGroups(io, JoinGroup(io, sid, roomId), roomId, st);
  }

  /** A student on the allow-list joins the group as it is admitted, so `approved` stays in the group. */
  lemma AutoApproveValid(copy: Copy, w: World, sid: SocketId, roomId: RoomId, user: User)
    requires Valid(w) && sid in w.io.live && user.role == "Student"
    requires NormalizeUserKey(Some(user)).Some?
    requires NormalizeUserKey(Some(user)).value in StateOf(w.reg.roomState, roomId).approvedUsers
    ensures Valid(AutoApprove(copy, w, sid, roomId, user))
  {
    var st := StateOf(w.reg.roomState, roomId);
    var w' := AutoApprove(copy, w, sid, roomId, user);
    EnsureOk(w.reg, w.io, roomId);
    var io1 := JoinGroup(w.io, sid, roomId);
    StatesOkMoreGroups(Ensure(w.reg, roomId), w.io, io1);
    var st' := st.(approved := Set(st.approved, sid, JoinRequest(sid, user)));
    AdmittedStateOk(w.io, roomId, st, sid, user);
    PutOk(Ensure(w.reg, roomId), io1, roomId, st');
    StatesOkSend(w'.reg, io1, w'.io.outbox[|w.io.outbox|..]);
    assert w'.io == Send(io1, w'.io.outbox[|w.io.outbox|..]);
  }

  lemma EnqueueValid(w: World, sid: SocketId, roomId: RoomId, user: User)
    requires Valid(w) && sid in w.io.live && user.role == "Student"
    ensures Valid(Enqueue(w, sid, roomId, user))
  {
    var st := StateOf(w.reg.roomState, roomId);
    var w' := Enqueue(w, sid, roomId, user);
    EnsureOk(w.reg, w.io, roomId);
    var st' := st.(pending := Set(st.pending, sid, JoinRequest(sid, user)));
    assert PendingOk(w.io, st');
    PutOk(Ensure(w.reg, roomId), w.io, roomId, st');
    StatesOkSend(w'.reg, w.io, w'.io.outbox[|w.io.outbox|..]);
    assert w'.io == Send(w.io, w'.io.outbox[|w.io.outbox|..]);
  }

  lemma ApproveJoinValid(copy: Copy, w: World, sid: SocketId, roomId: RoomId, target: SocketId)
    requires Valid(w)
    ensures Valid(OnApproveJoin(copy, w, sid, roomId, target))
  {
    var st := StateOf(w.reg.roomState, roomId);
    EnsureOk(w.reg, w.io, roomId);
    if st.teacher == Some(sid) && target in st.pending.entries {
      ApproveValid(copy, w, sid, roomId, target, st.pending.entries[target]);
    }
  }

  /** The approved state is good once the student, connected since it is queued, has joined the group. */
  lemma ApprovedStateOk(io: Transport, roomId: RoomId, st: RoomState, target: SocketId, request: JoinRequest)
    requires StateOk(io, roomId, st)
    requires target in st.pending.entries && request == st.pending.entries[target]
    ensures StateOk(JoinGroup(io, target, roomId), roomId, Approved(st, target, request))
  {
    var io1 := JoinGroup(io, target, roomId);
    var st' := Approved(st, target, request);
    StateOkMoreGroups(io, io1, roomId, st);
    assert PendingOk(io1, st');
    assert ApprovedOk(io1, roomId, st') by {
      forall s | s in st'.approved.entries
        ensures Listed(st', st'.approved.entries[s].user)
      {
        if s != target {
          assert Listed(st, st.approved.entries[s].user);
        }
      }
    }
  }

  /** Approving a queued student keeps the invariant: the student is connected, so it joins the group. */
  lemma ApproveValid(copy: Copy, w: World, sid: SocketId, roomId: RoomId, target: SocketId, request: JoinRequest)
    requires Valid(w)
    requires target in StateOf(w.reg.roomState, roomId).pending.entries
    requires request == StateOf(w.reg.roomState, roomId).pending.entries[target]
    ensures Valid(Approve(copy, w, sid, roomId, target, request))
  {
    var st := StateOf(w.reg.roomState, roomId);
    EnsureOk(w.reg, w.io, roomId);
    var st' := Approved(st, target, request);
    var io1 := JoinGroup(w.io, target, roomId);
    StatesOkMoreGroups(Ensure(w.reg, roomId), w.io, io1);
    ApprovedStateOk(w.io, roomId, st, target, request);
    var reg := Put(Ensure(w.reg, roomId), roomId, st');
    PutOk(Ensure(w.reg, roomId), io1, roomId, st');
    var io2 := Welcomed(w.io, target, roomId, st'.messages);
    StatesOkSend(reg, io1, io2.outbox[|w.io.outbox|..]);
    assert io2 == Send(io1, io2.outbox[|w.io.outbox|..]);
    StatesOkSend(reg, io2, Approve(copy, w, sid, roomId, target, request).io.outbox[|io2.outbox|..]);
  }

  lemma ChatValid(w: World, sid: SocketId, roomId: RoomId, message: string, user: Option<User>, timestamp: string)
    requires Valid(w)
    ensures Valid(OnChatMessage(w, sid, roomId, message, user, timestamp))
  {
    if roomId != "" && message != "" && user.Some? && InGroup(w.io, sid, roomId) {
      var st := StateOf(w.reg.roomState, roomId);
      var st' := st.(messages := st.messages + [ChatEntry(user.value, message, timestamp)]);
      EnsureOk(w.reg, w.io, roomId);
      assert ApprovedOk(w.io, roomId, st') by {
        forall s | s in st'.approved.entries ensures Listed(st', st'.approved.entries[s].user) {
          assert Listed(st, st.approved.entries[s].user);
        }
      }
      PutOk(Ensure(w.reg, roomId), w.io, roomId, st');
      StatesOkSend(Put(Ensure(w.reg, roomId), roomId, st'), w.io, [Emission(ToRoom(roomId), ChatMessage(ChatEntry(user.value, message, timestamp)))]);
    }
  }

  lemma CloseClassValid(w: World, sid: SocketId, roomId: RoomId)
    requires Valid(w)
    ensures Valid(OnCloseClass(w, sid, roomId))
  {
    if roomId != "" {
      EnsureOk(w.reg, w.io, roomId);
      var w' := OnCloseClass(w, sid, roomId);
      if StateOf(w.reg.roomState, roomId).teacher == Some(sid) {
        assert StatesOk(w'.reg, w.io);
        StatesOkSend(w'.reg, w.io, w'.io.outbox[|w.io.outbox|..]);
        assert w'.io == Send(w.io, w'.io.outbox[|w.io.outbox|..]);
      }
    }
  }

  lemma TeacherReadyValid(w: World, sid: SocketId, roomId: RoomId)
    requires Valid(w)
    ensures Valid(OnTeacherReady(w, sid, roomId))
  {
    EnsureOk(w.reg, w.io, roomId);
    var st := StateOf(w.reg.roomState, roomId);
    StatesOkSend(Ensure(w.reg, roomId), w.io, [Emission(ToSocket(sid), ApprovedList(Values(st.approved)))]);
  }

  lemma ConnectValid(w: World, sid: SocketId)
    requires Valid(w)
    ensures Valid(OnConnection(w, sid))
  {
    var w' := OnConnection(w, sid);
    forall r | r in w.reg.roomState.entries ensures StateOk(w'.io, r, w.reg.roomState.entries[r]) {
      assert StateOk(w.io, r, w.reg.roomState.entries[r]);
    }
  }

  /** A room's state stays good once a socket has left the transport and the room. */
  lemma CleanOk(io: Transport, sid: SocketId, roomId: RoomId, st: RoomState)
    requires StateOk(io, roomId, st)
    ensures StateOk(Drop(io, sid), roomId, Clean(st, sid))
  {
    var io' := Drop(io, sid);
    var st' := Clean(st, sid);
    assert PendingOk(io', st');
    assert ApprovedOk(io', roomId, st') by {
      forall s | s in st'.approved.entries
        ensures s in io'.live && (s, roomId) in io'.groups && Listed(st', st'.approved.entries[s].user)
      {
        assert (s, roomId) in io.groups && Listed(st, st.approved.entries[s].user);
      }
    }
  }

  lemma DisconnectValid(w: World, sid: SocketId)
    requires Valid(w)
    ensures Valid(OnDisconnect(w, sid))
  {
    var w' := OnDisconnect(w, sid);
    var io1 := Drop(w.io, sid);
    assert StatesOk(w'.reg, io1) by {
      forall r | r in w'.reg.roomState.entries ensures StateOk(io1, r, w'.reg.roomState.entries[r]) {
        CleanOk(w.io, sid, r, w.reg.roomState.entries[r]);
      }
    }
    StatesOkSend(w'.reg, io1, ApprovedLists(w'.reg.roomState));
  }

  /** A registry that only gains file lists keeps the invariant. */
  lemma MoreFilesOk(w: World, files: map<RoomId, seq<FileEntry>>)
    requires Valid(w) && w.reg.filesByRoom.Keys <= files.Keys
    ensures Valid(World(w.reg.(filesByRoom := files), w.io))
  {
    assert StatesOk(w.reg.(filesByRoom := files), w.io) by {
      forall r | r in w.reg.roomState.entries ensures StateOk(w.io, r, w.reg.roomState.entries[r]) {
      }
    }
  }

  lemma CreateRoomValid(w: World, title: string, teacherName: string, id: RoomId, createdAt: string)
    requires Valid(w)
    ensures Valid(World(Rooms.CreateRoom(w.reg, title, teacherName, id, createdAt).0, w.io))
  {
    if title != "" && teacherName != "" {
      EnsureOk(w.reg, w.io, id);
    }
  }

  lemma TokenValid(w: World, roomId: RoomId, user: Option<User>, env: LiveKit.Env, nonce: string)
    requires Valid(w)
    ensures Valid(World(LiveKit.TokenRequest(w.reg, roomId, user, env, nonce).0, w.io))
  {
    EnsureOk(w.reg, w.io, roomId);
  }

  /** Every well-formed step keeps the invariant. */
  lemma ValidStep(copy: Copy, w: World, e: Event)
    requires Valid(w) && WellFormed(w, e)
    ensures Valid(Step(copy, w, e))
  {
    if IsRequest(e) {
      RequestValid(copy, w, e);
    } else {
      SocketValid(copy, w, e);
    }
  }

  lemma SocketValid(copy: Copy, w: World, e: Event)
    requires Valid(w) && WellFormed(w, e) && !IsRequest(e)
    ensures Valid(Step(copy, w, e))
  {
    match e
    case Connect(sid) => ConnectValid(w, sid);
    case JoinRoom(sid, roomId, user) => JoinRoomValid(w, sid, roomId, user);
    case RequestJoin(sid, roomId, user) => RequestJoinValid(copy, w, sid, roomId, user);
    case ApproveJoin(sid, roomId, target) => ApproveJoinValid(copy, w, sid, roomId, target);
    case Chat(sid, roomId, message, user, timestamp) => ChatValid(w, sid, roomId, message, user, timestamp);
    case TeacherReady(sid, roomId) => if copy.Monolithic? { TeacherReadyValid(w, sid, roomId); }
    case CloseClass(sid, roomId) => CloseClassValid(w, sid, roomId);
    case Disconnect(sid) => DisconnectValid(w, sid);
  }

  /** The file routes touch only `filesByRoom`, and only ever add lists to it. */
  lemma FileRouteEffect(copy: Copy, w: World, e: Event)
    requires e.ListFiles? || e.UploadFile? || e.DownloadFile? || e.DeleteFile?
    ensures var w' := Step(copy, w, e);
      && w'.io == w.io && w'.reg.rooms == w.reg.rooms && w'.reg.roomState == w.reg.roomState
      && w.reg.filesByRoom.Keys <= w'.reg.filesByRoom.Keys
  {
    match e
    case ListFiles(roomId) =>
    case UploadFile(roomId, file, fileId, uploadedAt) =>
    case DownloadFile(roomId, fileId) =>
    case DeleteFile(roomId, fileId) =>
  }

  /** The HTTP endpoints change only the registry, and keep it good. */
  lemma RequestValid(copy: Copy, w: World, e: Event)
    requires Valid(w) && IsRequest(e)
    ensures Step(copy, w, e).io == w.io && Valid(Step(copy, w, e))
  {
    if e.CreateRoom? {
      CreateRoomValid(w, e.title, e.teacherName, e.id, e.createdAt);
    } else if e.RequestToken? {
      TokenValid(w, e.roomId, e.user, e.env, e.nonce);
    } else {
      FileRouteEffect(copy, w, e);
      MoreFilesOk(w, Step(copy, w, e).reg.filesByRoom);
    }
  }

  /** Each event is well formed in the world it arrives in. */
  predicate WellFormedRun(copy: Copy, w: World, es: seq<Event>)
    decreases |es|
  {
    es == [] || (WellFormed(w, es[0]) && WellFormedRun(copy, Step(copy, w, es[0]), es[1..]))
  }

  /** Starting from the empty server, every world reached by well-formed events is good. */
  lemma {:induction false} ValidRun(copy: Copy, w: World, es: seq<Event>)
    requires Valid(w) && WellFormedRun(copy, w, es)
    ensures Valid(Run(copy, w, es))
    decreases |es|
  {
    if es != [] {
      ValidStep(copy, w, es[0]);
      ValidRun(copy, Step(copy, w, es[0]), es[1..]);
    }
  }

  function Initial(): (w: World)
    ensures Valid(w)
  {
    World(Registry(Empty(), Empty(), map[]), Transport({}, {}, []))
  }
}
