/**
 * The socket event handlers as methods on the store and the transport. Each
 * leaves the two objects exactly as the matching step of `Admission` says.
 */
module SocketHandlers {
  import opened Wrappers
  import opened JsMaps
  import opened Model
  import opened Admission
  import opened Server

  /** Both objects as one world. */
  function Snapshot(store: Store, io: Io): World
    reads store, io
  {
    World(store.View(), io.View())
  }

  method OnConnect(store: Store, io: Io, sid: SocketId)
    modifies io
    ensures Snapshot(store, io) == OnConnection(old(Snapshot(store, io)), sid)
  {
    io.Connect(sid);
  }

  method JoinRoom(store: Store, io: Io, sid: SocketId, roomId: RoomId, user: Option<User>)
    modifies store, io
    ensures Snapshot(store, io) == OnJoinRoom(old(Snapshot(store, io)), sid, roomId, user)
  {
    if !Has(store.rooms, roomId) || !HasRole(user, "Teacher") {
      return;
    }
    var state := TakeRoom(store, sid, roomId);
    Greet(store, io, sid, roomId, state);
  }

  /** The state half of "join-room": the caller becomes the room's teacher. */
  method TakeRoom(store: Store, sid: SocketId, roomId: RoomId) returns (state: RoomState)
    modifies store
    ensures state == StateOf(old(store.roomState), roomId).(teacher := Some(sid))
    ensures store.View() == Put(Ensure(old(store.View()), roomId), roomId, state)
  {
    state := store.GetRoomState(roomId);
    state := state.(teacher := Some(sid));
    store.PutState(roomId, state);
  }

  /** The emits of "join-room": the teacher joins the group and hears transcript, queue and approved list. */
  method Greet(store: Store, io: Io, sid: SocketId, roomId: RoomId, state: RoomState)
    modifies io
    ensures io.View() ==
      Send(JoinGroup(old(io.View()), sid, roomId),
           [Emission(ToSocket(sid), ChatHistory(state.messages)), Emission(ToSocket(sid), PendingList(Values(state.pending)))]
           + ApprovedListEmission(store.roomState, roomId))
  {
    io.Join(sid, roomId);
    ghost var t := io.View();
    var history := Emission(ToSocket(sid), ChatHistory(state.messages));
    var queue := Emission(ToSocket(sid), PendingList(Values(state.pending)));
    io.Emit(history.to, history.notice);
    SendThen(t, [history], [queue]);
    io.Emit(queue.to, queue.notice);
    EmitApprovedList(store, io, roomId);
    SendThen(t, [history, queue], ApprovedListEmission(store.roomState, roomId));
  }

  method RequestJoin(copy: Copy, store: Store, io: Io, sid: SocketId, roomId: RoomId, user: Option<User>)
    modifies store, io
    ensures Snapshot(store, io) == OnRequestJoin(copy, old(Snapshot(store, io)), sid, roomId, user)
  {
    if !Has(store.rooms, roomId) || !HasRole(user, "Student") {
      return;
    }
    var userKey := NormalizeUserKey(user);
    if userKey.Some? && userKey.value in StateOf(store.roomState, roomId).approvedUsers {
      AdmitKnown(copy, store, io, sid, roomId, user.value);
    } else {
      Queue(store, io, sid, roomId, user.value);
    }
  }

  /** The allow-list path: the socket joins the room and `approved` at once. */
  method AdmitKnown(copy: Copy, store: Store, io: Io, sid: SocketId, roomId: RoomId, user: User)
    modifies store, io
    ensures Snapshot(store, io) == AutoApprove(copy, old(Snapshot(store, io)), sid, roomId, user)
  {
    ghost var w0 := Snapshot(store, io);
    ghost var w1 := AutoApprove(copy, w0, sid, roomId, user);
    var state := store.GetRoomState(roomId);
    io.Join(sid, roomId);
    store.PutState(roomId, state.(approved := Set(state.approved, sid, JoinRequest(sid, user))));
    assert store.View() == w1.reg;
    ghost var o := io.outbox;
    var joined := Emission(ToSocket(sid), JoinApproved(roomId));
    var history := Emission(ToSocket(sid), ChatHistory(state.messages));
    io.Emit(joined.to, joined.notice);
    io.Emit(history.to, history.notice);
    assert io.outbox == o + [joined, history];
    ghost var notice: seq<Emission> := [];
    if copy.Modular? && HasTeacher(state) {
      var approved := Emission(ToRoom(state.teacher.value), StudentApproved(roomId, sid, user, Some(true)));
      notice := [approved];
      io.Emit(approved.to, approved.notice);
    }
    assert io.outbox == o + [joined, history] + notice;
    EmitApprovedList(store, io, roomId);
    ghost var list := ApprovedListEmission(store.roomState, roomId);
    assert io.outbox == o + [joined, history] + notice + list;
    Regroup(o, [joined, history], notice, list);
    assert io.View() == w1.io;
  }

  /** The queueing path: the request is stored under the caller's id and shown to the teacher. */
  method Queue(store: Store, io: Io, sid: SocketId, roomId: RoomId, user: User)
    modifies store, io
    ensures Snapshot(store, io) == Enqueue(old(Snapshot(store, io)), sid, roomId, user)
  {
    var state := store.GetRoomState(roomId);
    var request := JoinRequest(sid, user);
    var teacherSet := HasTeacher(state);
    state := state.(pending := Set(state.pending, sid, request));
    store.PutState(roomId, state);
    if teacherSet {
      io.Emit(ToRoom(state.teacher.value), JoinRequests(Values(state.pending)));
    }
  }

  method ApproveJoin(copy: Copy, store: Store, io: Io, sid: SocketId, roomId: RoomId, target: SocketId)
    modifies store, io
    ensures Snapshot(store, io) == OnApproveJoin(copy, old(Snapshot(store, io)), sid, roomId, target)
  {
    var state := store.GetRoomState(roomId);
    if state.teacher != Some(sid) {
      return;
    }
    var request := Get(state.pending, target);
    if request.None? {
      return;
    }
    Admit(copy, store, io, sid, roomId, target, request.value);
  }

  /** The successful path of "approve-join", once the room's state is in place. */
  method Admit(copy: Copy, store: Store, io: Io, sid: SocketId, roomId: RoomId, target: SocketId, request: JoinRequest)
    requires roomId in store.roomState.entries
    modifies store, io
    ensures Snapshot(store, io) == Approve(copy, old(Snapshot(store, io)), sid, roomId, target, request)
  {
    ghost var w0 := Snapshot(store, io);
    assert Ensure(w0.reg, roomId) == w0.reg;
    var state := Grant(store, roomId, target, request);
    Announce(copy, store, io, sid, roomId, target, request, state);
  }

  /** The state half of approving: the request moves from `pending` to `approved`. */
  method Grant(store: Store, roomId: RoomId, target: SocketId, request: JoinRequest) returns (state: RoomState)
    requires roomId in store.roomState.entries
    modifies store
    ensures state == Approved(old(store.roomState.entries[roomId]), target, request)
    ensures store.View() == Put(old(store.View()), roomId, state)
  {
    state := store.roomState.entries[roomId];
    state := state.(pending := Delete(state.pending, target));
    var userKey := NormalizeUserKey(Some(request.user));
    if userKey.Some? {
      state := state.(approvedUsers := state.approvedUsers + {userKey.value});
    }
    state := state.(approved := Set(state.approved, target, request));
    store.PutState(roomId, state);
  }

  /** The emits of approving: the student first, then the teacher's room, then the approved list. */
  method Announce(copy: Copy, store: Store, io: Io, sid: SocketId, roomId: RoomId, target: SocketId,
                  request: JoinRequest, state: RoomState)
    modifies io
    ensures io.View() ==
      Send(Welcomed(old(io.View()), target, roomId, state.messages),
           [Emission(ToRoom(sid), JoinRequests(Values(state.pending))),
            Emission(ToRoom(sid), StudentApproved(roomId, target, request.user,
                                                  if copy.Modular? then Some(false) else None))]
           + ApprovedListEmission(store.roomState, roomId))
  {
    Welcome(io, target, roomId, state.messages);
    ghost var t := io.View();
    var flag := if copy.Modular? then Some(false) else None;
    var queue := Emission(ToRoom(sid), JoinRequests(Values(state.pending)));
    var approved := Emission(ToRoom(sid), StudentApproved(roomId, target, request.user, flag));
    io.Emit(queue.to, queue.notice);
    SendThen(t, [queue], [approved]);
    io.Emit(approved.to, approved.notice);
    EmitApprovedList(store, io, roomId);
    SendThen(t, [queue, approved], ApprovedListEmission(store.roomState, roomId));
  }

  method Welcome(io: Io, target: SocketId, roomId: RoomId, messages: seq<ChatEntry>)
    modifies io
    ensures io.View() == Welcomed(old(io.View()), target, roomId, messages)
  {
    if target in io.live {
      ghost var t := JoinGroup(io.View(), target, roomId);
      io.Join(target, roomId);
      io.Emit(ToSocket(target), JoinApproved(roomId));
      SendThen(t, [Emission(ToSocket(target), JoinApproved(roomId))], [Emission(ToSocket(target), ChatHistory(messages))]);
      io.Emit(ToSocket(target), ChatHistory(messages));
    }
  }

  method ChatMessage(store: Store, io: Io, sid: SocketId, roomId: RoomId, message: string, user: Option<User>,
                     timestamp: string)
    modifies store, io
    ensures Snapshot(store, io) == OnChatMessage(old(Snapshot(store, io)), sid, roomId, message, user, timestamp)
  {
    if roomId == "" || message == "" || user.None? {
      return;
    }
    if !(roomId == sid || (sid, roomId) in io.groups) {
      return;
    }
    var state := store.GetRoomState(roomId);
    var payload := Model.ChatEntry(user.value, message, timestamp);
    store.PutState(roomId, state.(messages := state.messages + [payload]));
    io.Emit(ToRoom(roomId), Model.ChatMessage(payload));
  }

  method TeacherReady(store: Store, io: Io, sid: SocketId, roomId: RoomId)
    modifies store, io
    ensures Snapshot(store, io) == OnTeacherReady(old(Snapshot(store, io)), sid, roomId)
  {
    var state := store.GetRoomState(roomId);
    if state.teacher != Some(sid) {
      return;
    }
    io.Emit(ToSocket(sid), ApprovedList(Values(state.approved)));
  }

  method CloseClass(store: Store, io: Io, sid: SocketId, roomId: RoomId)
    modifies store, io
    ensures Snapshot(store, io) == OnCloseClass(old(Snapshot(store, io)), sid, roomId)
  {
    if roomId == "" {
      return;
    }
    var state := store.GetRoomState(roomId);
    if state.teacher != Some(sid) {
      return;
    }
    io.Emit(ToRoom(roomId), ClassClosed(roomId));
    store.rooms := Delete(store.rooms, roomId);
    store.roomState := Delete(store.roomState, roomId);
    store.filesByRoom := store.filesByRoom - {roomId};
    io.Emit(ToEveryone, RoomRemoved(roomId));
  }

  /**
   * "disconnect": after the transport has let the socket go, one pass over the
   * states cleans the socket out of each, and a second pass sends every room its
   * approved list.
   */
  method Disconnect(store: Store, io: Io, sid: SocketId)
    modifies store, io
    ensures Snapshot(store, io) == OnDisconnect(old(Snapshot(store, io)), sid)
  {
    io.Drop(sid);
    CleanAll(store, sid);
    EmitAllApprovedLists(store, io);
  }

  /** `roomState.forEach`: the socket's traces are removed from every state. */
  method CleanAll(store: Store, sid: SocketId)
    modifies store
    ensures store.View() == old(store.View()).(roomState := MapValues(old(store.roomState), st => Clean(st, sid)))
  {
    var cleaned := UpdateEach(store.roomState, st => Clean(st, sid));
    store.roomState := cleaned;
  }

  /** The second `roomState.forEach`: `emitApprovedList` for every room, in the map's order. */
  method EmitAllApprovedLists(store: Store, io: Io)
    modifies io
    ensures io.View() == Send(old(io.View()), ApprovedLists(store.roomState))
  {
    var keys := store.roomState.order;
    var k := 0;
    while k < |keys|
      invariant 0 <= k <= |keys|
      invariant io.View() == Send(old(io.View()), ApprovedLists(store.roomState)[..k])
    {
      EmitApprovedList(store, io, keys[k]);
      assert ApprovedLists(store.roomState)[..k + 1] == ApprovedLists(store.roomState)[..k] + [ApprovedLists(store.roomState)[k]];
      k := k + 1;
    }
    assert ApprovedLists(store.roomState)[..k] == ApprovedLists(store.roomState);
  }
}
