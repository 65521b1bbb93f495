/** What each socket handler does, and what holds across a run of events. */
module AdmissionFacts {
  import opened Wrappers
  import opened JsMaps
  import opened Model
  import opened Admission
  import opened AdmissionInvariant
  import Rooms
  import LiveKit

  /** The emits a step appended. */
  function Emitted(before: World, after: World): seq<Emission>
    requires |before.io.outbox| <= |after.io.outbox|
  {
    after.io.outbox[|before.io.outbox|..]
  }

  /**
   * "join-room" is ignored unless the room exists and the caller claims the
   * teacher role; otherwise the caller becomes the teacher, whoever was before,
   * joins the group and is sent the transcript, the queue and (with the room)
   * the approved list. Nothing else changes.
   */
  lemma JoinRoomSpec(w: World, sid: SocketId, roomId: RoomId, user: Option<User>)
    ensures var w' := OnJoinRoom(w, sid, roomId, user);
      && (roomId !in w.reg.rooms.entries || !HasRole(user, "Teacher") ==> w' == w)
      && (roomId in w.reg.rooms.entries && HasRole(user, "Teacher") ==>
            var st := StateOf(w.reg.roomState, roomId);
            && w'.reg.rooms == w.reg.rooms && w'.reg.filesByRoom == w.reg.filesByRoom
            && w'.reg.roomState.entries.Keys == w.reg.roomState.entries.Keys + {roomId}
            && w'.reg.roomState.entries[roomId] == st.(teacher := Some(sid))
            && (forall r | r in w.reg.roomState.entries && r != roomId ::
                  w'.reg.roomState.entries[r] == w.reg.roomState.entries[r])
            && w'.io.live == w.io.live && w'.io.groups == w.io.groups + {(sid, roomId)}
            && w'.io.outbox == w.io.outbox + [Emission(ToSocket(sid), ChatHistory(st.messages)),
                                              Emission(ToSocket(sid), PendingList(Values(st.pending))),
                                              Emission(ToRoom(roomId), ApprovedList(Values(st.approved)))])
  {
  }

  /** Two teachers joining in turn: the later one holds the room. */
  lemma LastTeacherWins(w: World, t1: SocketId, t2: SocketId, roomId: RoomId, u1: User, u2: User)
    requires roomId in w.reg.rooms.entries && u1.role == "Teacher" && u2.role == "Teacher"
    ensures var w' := OnJoinRoom(OnJoinRoom(w, t1, roomId, Some(u1)), t2, roomId, Some(u2));
      w'.reg.roomState.entries[roomId].teacher == Some(t2)
  {
    JoinRoomSpec(w, t1, roomId, Some(u1));
    JoinRoomSpec(OnJoinRoom(w, t1, roomId, Some(u1)), t2, roomId, Some(u2));
  }

  /** "request-join" is ignored unless the room exists and the caller claims the student role. */
  lemma RequestJoinIgnored(copy: Copy, w: World, sid: SocketId, roomId: RoomId, user: Option<User>)
    requires roomId !in w.reg.rooms.entries || !HasRole(user, "Student")
    ensures OnRequestJoin(copy, w, sid, roomId, user) == w
  {
  }

  /** The allow-list path of "request-join": the caller's key is already approved in the room. */
  predicate KnownStudent(w: World, roomId: RoomId, user: Option<User>) {
    var key := NormalizeUserKey(user);
    key.Some? && key.value in StateOf(w.reg.roomState, roomId).approvedUsers
  }

  /**
   * A student whose key is on the allow-list is put in `approved` and in the
   * group and told so, without touching the queue; the modular copy then also
   * tells the teacher, marked as an automatic approval, and the monolithic copy
   * does not.
   */
  lemma RequestJoinKnown(copy: Copy, w: World, sid: SocketId, roomId: RoomId, user: Option<User>)
    requires roomId in w.reg.rooms.entries && HasRole(user, "Student") && KnownStudent(w, roomId, user)
    ensures var w' := OnRequestJoin(copy, w, sid, roomId, user);
      var st := StateOf(w.reg.roomState, roomId);
      var st' := w'.reg.roomState.entries[roomId];
      && w'.reg == Put(Ensure(w.reg, roomId), roomId, st.(approved := Set(st.approved, sid, JoinRequest(sid, user.value))))
      && st'.pending == st.pending && sid in st'.approved.entries
      && w'.io.live == w.io.live && w'.io.groups == w.io.groups + {(sid, roomId)}
      && |w.io.outbox| <= |w'.io.outbox|
      && (copy.Modular? && HasTeacher(st) ==>
            Emitted(w, w') == [Emission(ToSocket(sid), JoinApproved(roomId)),
                               Emission(ToSocket(sid), ChatHistory(st.messages)),
                               Emission(ToRoom(st.teacher.value), StudentApproved(roomId, sid, user.value, Some(true))),
                               Emission(ToRoom(roomId), ApprovedList(Values(st'.approved)))])
      && (copy.Monolithic? || !HasTeacher(st) ==>
            Emitted(w, w') == [Emission(ToSocket(sid), JoinApproved(roomId)),
                               Emission(ToSocket(sid), ChatHistory(st.messages)),
                               Emission(ToRoom(roomId), ApprovedList(Values(st'.approved)))])
  {
  }

  /**
   * Any other student is queued under the caller's id, replacing an earlier
   * request from the same socket, and the teacher, if set, hears the new queue.
   */
  lemma RequestJoinQueued(copy: Copy, w: World, sid: SocketId, roomId: RoomId, user: Option<User>)
    requires roomId in w.reg.rooms.entries && HasRole(user, "Student") && !KnownStudent(w, roomId, user)
    ensures var w' := OnRequestJoin(copy, w, sid, roomId, user);
      var st := StateOf(w.reg.roomState, roomId);
      var st' := w'.reg.roomState.entries[roomId];
      && w'.reg == Put(Ensure(w.reg, roomId), roomId, st.(pending := Set(st.pending, sid, JoinRequest(sid, user.value))))
      && st'.approved == st.approved && st'.pending.entries[sid] == JoinRequest(sid, user.value)
      && w'.io.live == w.io.live && w'.io.groups == w.io.groups
      && w'.io.outbox == w.io.outbox + (if HasTeacher(st) then [Emission(ToRoom(st.teacher.value), JoinRequests(Values(st'.pending)))] else [])
  {
  }

  /** "approve-join" only makes sure the room has a state unless the caller is its teacher and the target is queued. */
  lemma ApproveJoinRefused(copy: Copy, w: World, sid: SocketId, roomId: RoomId, target: SocketId)
    requires var st := StateOf(w.reg.roomState, roomId); st.teacher != Some(sid) || target !in st.pending.entries
    ensures OnApproveJoin(copy, w, sid, roomId, target) == World(Ensure(w.reg, roomId), w.io)
  {
  }

  /**
   * Otherwise the request moves from the queue to `approved`, its key joins the
   * allow-list (nothing leaves it), and nothing else in the registry changes.
   */
  lemma ApproveJoinAccepted(copy: Copy, w: World, sid: SocketId, roomId: RoomId, target: SocketId)
    requires var st := StateOf(w.reg.roomState, roomId); st.teacher == Some(sid) && target in st.pending.entries
    ensures var w' := OnApproveJoin(copy, w, sid, roomId, target);
      var st := StateOf(w.reg.roomState, roomId);
      var request := st.pending.entries[target];
      var key := NormalizeUserKey(Some(request.user));
      && w'.reg.rooms == w.reg.rooms && w'.reg.filesByRoom == w.reg.filesByRoom
      && roomId in w'.reg.roomState.entries
      && w'.reg.roomState.entries.Keys == w.reg.roomState.entries.Keys + {roomId}
      && (forall r | r in w.reg.roomState.entries && r != roomId ::
            w'.reg.roomState.entries[r] == w.reg.roomState.entries[r])
      && var st' := w'.reg.roomState.entries[roomId];
      && st'.pending == Delete(st.pending, target) && target !in st'.pending.entries
      && st'.approved == Set(st.approved, target, request)
      && st.approvedUsers <= st'.approvedUsers
      && (key.Some? ==> st'.approvedUsers == st.approvedUsers + {key.value})
      && (key.None? ==> st'.approvedUsers == st.approvedUsers)
      && st'.teacher == st.teacher && st'.messages == st.messages
  {
  }

  /**
   * The target, if still connected, joins the group and is told it was approved
   * and sent the transcript; then the teacher hears the new queue and the
   * approval, flagged manual in the modular copy and unflagged in the monolithic
   * one, and the room hears its approved list.
   */
  lemma ApproveJoinAnnounced(copy: Copy, w: World, sid: SocketId, roomId: RoomId, target: SocketId)
    requires var st := StateOf(w.reg.roomState, roomId); st.teacher == Some(sid) && target in st.pending.entries
    ensures var w' := OnApproveJoin(copy, w, sid, roomId, target);
      var st := StateOf(w.reg.roomState, roomId);
      var request := st.pending.entries[target];
      var st' := w'.reg.roomState.entries[roomId];
      && w'.io.live == w.io.live
      && w'.io.groups == (if target in w.io.live then w.io.groups + {(target, roomId)} else w.io.groups)
      && |w.io.outbox| <= |w'.io.outbox|
      && Emitted(w, w') ==
           (if target in w.io.live
            then [Emission(ToSocket(target), JoinApproved(roomId)), Emission(ToSocket(target), ChatHistory(st.messages))]
            else [])
           + [Emission(ToRoom(sid), JoinRequests(Values(st'.pending))),
              Emission(ToRoom(sid), StudentApproved(roomId, target, request.user,
                                                    if copy.Modular? then Some(false) else None)),
              Emission(ToRoom(roomId), ApprovedList(Values(st'.approved)))]
  {
  }

  /**
   * "chat-message" is ignored unless room id, message and user are all given and
   * the caller is in the room's group; then the entry goes at the end of the
   * transcript and to the group, and nothing else changes.
   */
  lemma ChatSpec(w: World, sid: SocketId, roomId: RoomId, message: string, user: Option<User>, timestamp: string)
    ensures var w' := OnChatMessage(w, sid, roomId, message, user, timestamp);
      && (roomId == "" || message == "" || user.None? || !InGroup(w.io, sid, roomId) ==> w' == w)
      && (roomId != "" && message != "" && user.Some? && InGroup(w.io, sid, roomId) ==>
            var st := StateOf(w.reg.roomState, roomId);
            var entry := ChatEntry(user.value, message, timestamp);
            && w'.reg.rooms == w.reg.rooms && w'.reg.filesByRoom == w.reg.filesByRoom
            && w'.reg.roomState.entries.Keys == w.reg.roomState.entries.Keys + {roomId}
            && (forall r | r in w.reg.roomState.entries && r != roomId ::
                  w'.reg.roomState.entries[r] == w.reg.roomState.entries[r])
            && w'.reg.roomState.entries[roomId] == st.(messages := st.messages + [entry])
            && w'.io == Send(w.io, [Emission(ToRoom(roomId), ChatMessage(entry))]))
  {
  }

  /**
   * "close-class" by the room's teacher removes the room from all three maps,
   * leaving every other room as it was, and tells the group and then everyone;
   * from anyone else it only makes sure the room has a state. Group memberships
   * are never touched.
   */
  lemma CloseClassSpec(w: World, sid: SocketId, roomId: RoomId)
    ensures var w' := OnCloseClass(w, sid, roomId);
      && (roomId == "" ==> w' == w)
      && w'.io.live == w.io.live && w'.io.groups == w.io.groups
      && (roomId != "" && StateOf(w.reg.roomState, roomId).teacher != Some(sid) ==>
            w' == World(Ensure(w.reg, roomId), w.io))
      && (roomId != "" && StateOf(w.reg.roomState, roomId).teacher == Some(sid) ==>
            && roomId !in w'.reg.rooms.entries && roomId !in w'.reg.roomState.entries && roomId !in w'.reg.filesByRoom
            && w'.reg.rooms.entries == w.reg.rooms.entries - {roomId}
            && w'.reg.roomState.entries == w.reg.roomState.entries - {roomId}
            && w'.reg.filesByRoom == w.reg.filesByRoom - {roomId}
            && w'.io.outbox == w.io.outbox + [Emission(ToRoom(roomId), ClassClosed(roomId)),
                                              Emission(ToEveryone, RoomRemoved(roomId))])
  {
  }

  /** "teacher-ready" answers the teacher, and only the teacher, with the approved list. */
  lemma TeacherReadySpec(w: World, sid: SocketId, roomId: RoomId)
    ensures var w' := OnTeacherReady(w, sid, roomId);
      var st := StateOf(w.reg.roomState, roomId);
      && w'.reg == Ensure(w.reg, roomId)
      && (st.teacher != Some(sid) ==> w'.io == w.io)
      && (st.teacher == Some(sid) ==> w'.io == Send(w.io, [Emission(ToSocket(sid), ApprovedList(Values(st.approved)))]))
  {
  }

  /** The modular copy has no "teacher-ready" handler: the event changes nothing. */
  lemma TeacherReadyModularIgnored(w: World, sid: SocketId, roomId: RoomId)
    ensures Step(Modular, w, TeacherReady(sid, roomId)) == w
  {
  }

  /**
   * "disconnect" takes the socket out of the transport and out of every room:
   * it stops being the teacher where it was, and loses its queue and approved
   * entries; every other entry, the allow-lists and the transcripts stay. Then
   * each room hears its approved list, in the map's order.
   */
  lemma DisconnectSpec(w: World, sid: SocketId)
    ensures var w' := OnDisconnect(w, sid);
      && w'.reg.rooms == w.reg.rooms && w'.reg.filesByRoom == w.reg.filesByRoom
      && w'.reg.roomState.order == w.reg.roomState.order
      && w'.reg.roomState.entries.Keys == w.reg.roomState.entries.Keys
      && (forall r | r in w.reg.roomState.entries ::
            var st, st' := w.reg.roomState.entries[r], w'.reg.roomState.entries[r];
            && st'.teacher == (if st.teacher == Some(sid) then None else st.teacher)
            && st'.pending.entries == st.pending.entries - {sid}
            && st'.approved.entries == st.approved.entries - {sid}
            && st'.approvedUsers == st.approvedUsers && st'.messages == st.messages)
      && w'.io.live == w.io.live - {sid}
      && (forall p :: p in w'.io.groups <==> p in w.io.groups && p.0 != sid)
      && w'.io.outbox == w.io.outbox + ApprovedLists(w'.reg.roomState)
  {
  }

  /** A connecting socket only joins the set of live sockets. */
  lemma ConnectSpec(w: World, sid: SocketId)
    ensures var w' := OnConnection(w, sid);
      w'.reg == w.reg && w'.io.live == w.io.live + {sid} && w'.io.groups == w.io.groups && w'.io.outbox == w.io.outbox
  {
  }

  /** A room's state is still there, its allow-list has only grown and its transcript only grown at the end. */
  predicate Kept(before: Registry, after: Registry, r: RoomId)
    requires r in before.roomState.entries
  {
    && r in after.roomState.entries
    && before.roomState.entries[r].approvedUsers <= after.roomState.entries[r].approvedUsers
    && before.roomState.entries[r].messages <= after.roomState.entries[r].messages
  }

  /** A state update through `getRoomState` and one `set` keeps a room's history when the new state does. */
  lemma PutKept(reg: Registry, roomId: RoomId, st': RoomState, r: RoomId)
    requires r in reg.roomState.entries
    requires reg.roomState.entries[r] == StateOf(reg.roomState, roomId) || r != roomId
    requires StateOf(reg.roomState, roomId).approvedUsers <= st'.approvedUsers
    requires StateOf(reg.roomState, roomId).messages <= st'.messages
    ensures Kept(reg, Put(Ensure(reg, roomId), roomId, st'), r)
  {
  }

  lemma RequestJoinKept(copy: Copy, w: World, sid: SocketId, roomId: RoomId, user: Option<User>, r: RoomId)
    requires r in w.reg.roomState.entries
    ensures Kept(w.reg, OnRequestJoin(copy, w, sid, roomId, user).reg, r)
  {
    if roomId in w.reg.rooms.entries && HasRole(user, "Student") {
      var st := StateOf(w.reg.roomState, roomId);
      if KnownStudent(w, roomId, user) {
        RequestJoinKnown(copy, w, sid, roomId, user);
        PutKept(w.reg, roomId, st.(approved := Set(st.approved, sid, JoinRequest(sid, user.value))), r);
      } else {
        RequestJoinQueued(copy, w, sid, roomId, user);
        PutKept(w.reg, roomId, st.(pending := Set(st.pending, sid, JoinRequest(sid, user.value))), r);
      }
    }
  }

  lemma ApproveJoinKept(copy: Copy, w: World, sid: SocketId, roomId: RoomId, target: SocketId, r: RoomId)
    requires r in w.reg.roomState.entries
    ensures Kept(w.reg, OnApproveJoin(copy, w, sid, roomId, target).reg, r)
  {
    var st := StateOf(w.reg.roomState, roomId);
    if st.teacher == Some(sid) && target in st.pending.entries {
      ApproveJoinAccepted(copy, w, sid, roomId, target);
    } else {
      ApproveJoinRefused(copy, w, sid, roomId, target);
    }
  }

  lemma ChatKept(w: World, sid: SocketId, roomId: RoomId, message: string, user: Option<User>, timestamp: string, r: RoomId)
    requires r in w.reg.roomState.entries
    ensures Kept(w.reg, OnChatMessage(w, sid, roomId, message, user, timestamp).reg, r)
  {
    ChatSpec(w, sid, roomId, message, user, timestamp);
  }

  lemma DisconnectKept(w: World, sid: SocketId, r: RoomId)
    requires r in w.reg.roomState.entries
    ensures Kept(w.reg, OnDisconnect(w, sid).reg, r)
  {
    DisconnectSpec(w, sid);
  }

  lemma CloseClassKept(w: World, sid: SocketId, roomId: RoomId, r: RoomId)
    requires r in w.reg.roomState.entries
    ensures Kept(w.reg, OnCloseClass(w, sid, roomId).reg, r) ||
      (roomId == r && w.reg.roomState.entries[r].teacher == Some(sid) && r !in OnCloseClass(w, sid, roomId).reg.roomState.entries)
  {
    CloseClassSpec(w, sid, roomId);
  }

  /**
   * One step keeps every room's history, except that its teacher's
   * "close-class" can remove the room altogether.
   */
  lemma StepKeepsHistory(copy: Copy, w: World, e: Event, r: RoomId)
    requires r in w.reg.roomState.entries
    ensures var w' := Step(copy, w, e);
      Kept(w.reg, w'.reg, r) ||
      (e.CloseClass? && e.roomId == r && w.reg.roomState.entries[r].teacher == Some(e.sid) && r !in w'.reg.roomState.entries)
  {
    if IsRequest(e) {
      HttpKept(copy, w, e, r);
    } else {
      SocketKept(copy, w, e, r);
    }
  }

  lemma SocketKept(copy: Copy, w: World, e: Event, r: RoomId)
    requires r in w.reg.roomState.entries && !IsRequest(e)
    ensures var w' := Step(copy, w, e);
      Kept(w.reg, w'.reg, r) ||
      (e.CloseClass? && e.roomId == r && w.reg.roomState.entries[r].teacher == Some(e.sid) && r !in w'.reg.roomState.entries)
  {
    match e
    case JoinRoom(sid, roomId, user) => JoinRoomSpec(w, sid, roomId, user);
    case RequestJoin(sid, roomId, user) => RequestJoinKept(copy, w, sid, roomId, user, r);
    case ApproveJoin(sid, roomId, target) => ApproveJoinKept(copy, w, sid, roomId, target, r);
    case Chat(sid, roomId, message, user, timestamp) => ChatKept(w, sid, roomId, message, user, timestamp, r);
    case CloseClass(sid, roomId) => CloseClassKept(w, sid, roomId, r);
    case Disconnect(sid) => DisconnectKept(w, sid, r);
    case TeacherReady(sid, roomId) => TeacherReadyKept(copy, w, sid, roomId, r);
    case Connect(sid) =>
  }

  lemma TeacherReadyKept(copy: Copy, w: World, sid: SocketId, roomId: RoomId, r: RoomId)
    requires r in w.reg.roomState.entries
    ensures Kept(w.reg, Step(copy, w, TeacherReady(sid, roomId)).reg, r)
  {
    if copy.Monolithic? {
      assert OnTeacherReady(w, sid, roomId).reg == Ensure(w.reg, roomId);
    }
  }

  /** The HTTP routes add room states at most; they change none that is there. */
  lemma HttpKept(copy: Copy, w: World, e: Event, r: RoomId)
    requires r in w.reg.roomState.entries && IsRequest(e)
    ensures Kept(w.reg, Step(copy, w, e).reg, r)
  {
    if e.ListFiles? || e.UploadFile? || e.DownloadFile? || e.DeleteFile? {
      FileRouteEffect(copy, w, e);
    }
  }

  /** No event in `es` is a "close-class" for room `r`. */
  predicate NeverClosed(es: seq<Event>, r: RoomId) {
    forall i | 0 <= i < |es| :: !(es[i].CloseClass? && es[i].roomId == r)
  }

  /**
   * Over any run without a "close-class" for the room, the room keeps its
   * state, its allow-list only grows and its transcript is only appended to.
   */
  lemma {:induction false} RunKeepsHistory(copy: Copy, w: World, es: seq<Event>, r: RoomId)
    requires r in w.reg.roomState.entries && NeverClosed(es, r)
    ensures Kept(w.reg, Run(copy, w, es).reg, r)
    decreases |es|
  {
    if es != [] {
      var w1 := Step(copy, w, es[0]);
      StepKeepsHistory(copy, w, es[0], r);
      assert NeverClosed(es[1..], r) by {
        forall i | 0 <= i < |es[1..]| ensures !(es[1..][i].CloseClass? && es[1..][i].roomId == r) {
          assert es[1..][i] == es[i + 1];
        }
      }
      RunKeepsHistory(copy, w1, es[1..], r);
    }
  }

  /** No event in `es` creates a room under id `r`. */
  predicate NeverCreated(es: seq<Event>, r: RoomId) {
    forall i | 0 <= i < |es| :: !(es[i].CreateRoom? && es[i].id == r)
  }

  /** A step puts a room in `rooms` only by creating it. */
  lemma StepNoNewRoom(copy: Copy, w: World, e: Event, r: RoomId)
    requires r !in w.reg.rooms.entries && !(e.CreateRoom? && e.id == r)
    ensures r !in Step(copy, w, e).reg.rooms.entries
  {
    if IsRequest(e) {
      if e.ListFiles? || e.UploadFile? || e.DownloadFile? || e.DeleteFile? {
        FileRouteEffect(copy, w, e);
      }
    } else {
      SocketNoNewRoom(copy, w, e, r);
    }
  }

  lemma SocketNoNewRoom(copy: Copy, w: World, e: Event, r: RoomId)
    requires r !in w.reg.rooms.entries && !IsRequest(e)
    ensures r !in Step(copy, w, e).reg.rooms.entries
  {
    match e
    case JoinRoom(sid, roomId, user) => JoinRoomSpec(w, sid, roomId, user);
    case RequestJoin(sid, roomId, user) =>
    case ApproveJoin(sid, roomId, target) =>
      var st := StateOf(w.reg.roomState, roomId);
      if st.teacher == Some(sid) && target in st.pending.entries {
        ApproveJoinAccepted(copy, w, sid, roomId, target);
      } else {
        ApproveJoinRefused(copy, w, sid, roomId, target);
      }
    case Chat(sid, roomId, message, user, timestamp) =>
    case CloseClass(sid, roomId) => CloseClassSpec(w, sid, roomId);
    case Disconnect(sid) =>
    case TeacherReady(sid, roomId) =>
    case Connect(sid) =>
  }

  /** A closed (or never created) room stays out of `rooms` until its id is created again. */
  lemma {:induction false} RoomStaysClosed(copy: Copy, w: World, es: seq<Event>, r: RoomId)
    requires r !in w.reg.rooms.entries && NeverCreated(es, r)
    ensures r !in Run(copy, w, es).reg.rooms.entries
    decreases |es|
  {
    if es != [] {
      StepNoNewRoom(copy, w, es[0], r);
      assert NeverCreated(es[1..], r) by {
        forall i | 0 <= i < |es[1..]| ensures !(es[1..][i].CreateRoom? && es[1..][i].id == r) {
          assert es[1..][i] == es[i + 1];
        }
      }
      RoomStaysClosed(copy, Step(copy, w, es[0]), es[1..], r);
    }
  }

  /**
   * A queued socket that asks again once another socket with the same name has
   * been approved ends up both queued and approved: the handlers do not keep the
   * two maps apart.
   */
  lemma QueuedAndApproved(copy: Copy, w: World, sid: SocketId, roomId: RoomId, u: User)
    requires roomId in w.reg.rooms.entries && u.role == "Student"
    requires sid in StateOf(w.reg.roomState, roomId).pending.entries
    requires KnownStudent(w, roomId, Some(u))
    ensures var st' := OnRequestJoin(copy, w, sid, roomId, Some(u)).reg.roomState.entries[roomId];
      sid in st'.pending.entries && sid in st'.approved.entries
  {
    RequestJoinKnown(copy, w, sid, roomId, Some(u));
  }

  /**
   * A socket that has only asked to join does not hear the room's chat: the
   * queue puts it in no group, and a chat message reaches the room's group alone.
   */
  lemma RequesterHearsNoChat(copy: Copy, w: World, c: SocketId, roomId: RoomId, user: Option<User>,
                             s: SocketId, message: string, u: Option<User>, timestamp: string)
    requires c != roomId && (c, roomId) !in w.io.groups && !KnownStudent(w, roomId, user)
    ensures var w1 := OnRequestJoin(copy, w, c, roomId, user);
      c !in Audience(OnChatMessage(w1, s, roomId, message, u, timestamp).io, ToRoom(roomId))
  {
    var w1 := OnRequestJoin(copy, w, c, roomId, user);
    if roomId in w.reg.rooms.entries && HasRole(user, "Student") {
      RequestJoinQueued(copy, w, c, roomId, user);
    } else {
      RequestJoinIgnored(copy, w, c, roomId, user);
    }
    ChatSpec(w1, s, roomId, message, u, timestamp);
  }

  /** A student approved while connected does hear the room's chat from then on. */
  lemma ApprovedHearsChat(copy: Copy, w: World, sid: SocketId, roomId: RoomId, target: SocketId,
                          s: SocketId, message: string, u: Option<User>, timestamp: string)
    requires var st := StateOf(w.reg.roomState, roomId); st.teacher == Some(sid) && target in st.pending.entries
    requires target in w.io.live
    ensures var w1 := OnApproveJoin(copy, w, sid, roomId, target);
      target in Audience(OnChatMessage(w1, s, roomId, message, u, timestamp).io, ToRoom(roomId))
  {
    var w1 := OnApproveJoin(copy, w, sid, roomId, target);
    ApproveJoinAnnounced(copy, w, sid, roomId, target);
    ChatSpec(w1, s, roomId, message, u, timestamp);
    var w2 := OnChatMessage(w1, s, roomId, message, u, timestamp);
    assert (target, roomId) in w2.io.groups;
  }

  /**
   * After the teacher closes a class, a socket still in the room's group can
   * chat: the room's state comes back, transcript and all, with no room behind it.
   */
  lemma ChatAfterClose(w: World, t: SocketId, s: SocketId, roomId: RoomId, message: string, u: User, timestamp: string)
    requires roomId != "" && message != "" && (s, roomId) in w.io.groups
    requires StateOf(w.reg.roomState, roomId).teacher == Some(t)
    ensures var w1 := OnCloseClass(w, t, roomId);
      var w2 := OnChatMessage(w1, s, roomId, message, Some(u), timestamp);
      && roomId !in w1.reg.rooms.entries && roomId !in w1.reg.roomState.entries
      && roomId !in w2.reg.rooms.entries && roomId in w2.reg.roomState.entries
      && w2.reg.roomState.entries[roomId].messages == [ChatEntry(u, message, timestamp)]
  {
    CloseClassSpec(w, t, roomId);
    var w1 := OnCloseClass(w, t, roomId);
    ChatSpec(w1, s, roomId, message, Some(u), timestamp);
  }

  /**
   * A student the teacher has just approved passes the media-token gate for the
   * room, once the server is configured.
   */
  lemma ApprovalGrantsToken(copy: Copy, w: World, sid: SocketId, roomId: RoomId, target: SocketId,
                            env: LiveKit.Env, nonce: string)
    requires Valid(w) && roomId != "" && roomId in w.reg.rooms.entries && LiveKit.Configured(env)
    requires StateOf(w.reg.roomState, roomId).teacher == Some(sid)
    requires target in StateOf(w.reg.roomState, roomId).pending.entries
    requires NormalizeUserKey(Some(StateOf(w.reg.roomState, roomId).pending.entries[target].user)).Some?
    ensures var u := StateOf(w.reg.roomState, roomId).pending.entries[target].user;
      var w' := OnApproveJoin(copy, w, sid, roomId, target);
      LiveKit.TokenRequest(w'.reg, roomId, Some(u), env, nonce).1.Done?
  {
    ApproveJoinAccepted(copy, w, sid, roomId, target);
    var u := StateOf(w.reg.roomState, roomId).pending.entries[target].user;
    var reg' := OnApproveJoin(copy, w, sid, roomId, target).reg;
    assert u.name != "" && u.role == "Student";
    assert roomId in reg'.rooms.entries;
    assert LiveKit.Approved(StateOf(reg'.roomState, roomId), u);
  }

  /**
   * The queue outlives its teacher: when the teacher disconnects, another
   * teacher who joins is sent the whole queue and can approve from it.
   */
  lemma TeacherHandover(copy: Copy, w: World, t: SocketId, t2: SocketId, roomId: RoomId, teacher: User, s: SocketId,
                        w1: World, w2: World, w3: World)
    requires roomId in w.reg.rooms.entries && roomId in w.reg.roomState.entries && teacher.role == "Teacher"
    requires w.reg.roomState.entries[roomId].teacher == Some(t)
    requires t2 != t
    requires s in w.reg.roomState.entries[roomId].pending.entries && s != t
    requires w1 == OnDisconnect(w, t) && w2 == OnJoinRoom(w1, t2, roomId, Some(teacher))
    requires w3 == OnApproveJoin(copy, w2, t2, roomId, s)
    ensures var q := w.reg.roomState.entries[roomId].pending;
      && roomId in w1.reg.roomState.entries && roomId in w3.reg.roomState.entries
      && w1.reg.roomState.entries[roomId].teacher.None?
      && w1.reg.roomState.entries[roomId].pending.entries == q.entries - {t}
      && |w1.io.outbox| <= |w2.io.outbox|
      && Emission(ToSocket(t2), PendingList(Values(w1.reg.roomState.entries[roomId].pending))) in Emitted(w1, w2)
      && s !in w3.reg.roomState.entries[roomId].pending.entries
      && s in w3.reg.roomState.entries[roomId].approved.entries
      && w3.reg.roomState.entries[roomId].approved.entries[s] == q.entries[s]
  {
    TeacherLeaves(w, t, roomId);
    TeacherTakesOver(copy, w1, t2, roomId, teacher, s);
  }

  /** A disconnecting teacher leaves the room without a teacher, and the queue without its own socket only. */
  lemma TeacherLeaves(w: World, t: SocketId, roomId: RoomId)
    requires roomId in w.reg.roomState.entries && w.reg.roomState.entries[roomId].teacher == Some(t)
    ensures var st := OnDisconnect(w, t).reg.roomState;
      && OnDisconnect(w, t).reg.rooms == w.reg.rooms
      && roomId in st.entries && st.entries[roomId].teacher.None?
      && st.entries[roomId].pending.entries == w.reg.roomState.entries[roomId].pending.entries - {t}
  {
    DisconnectSpec(w, t);
  }

  /** A teacher who joins is sent the queue and can approve a queued socket from it. */
  lemma TeacherTakesOver(copy: Copy, w1: World, t2: SocketId, roomId: RoomId, teacher: User, s: SocketId)
    requires roomId in w1.reg.rooms.entries && roomId in w1.reg.roomState.entries && teacher.role == "Teacher"
    requires s in w1.reg.roomState.entries[roomId].pending.entries
    ensures var q := w1.reg.roomState.entries[roomId].pending;
      var w2 := OnJoinRoom(w1, t2, roomId, Some(teacher));
      var w3 := OnApproveJoin(copy, w2, t2, roomId, s);
      && |w1.io.outbox| <= |w2.io.outbox|
      && Emission(ToSocket(t2), PendingList(Values(q))) in Emitted(w1, w2)
      && roomId in w3.reg.roomState.entries
      && s !in w3.reg.roomState.entries[roomId].pending.entries
      && s in w3.reg.roomState.entries[roomId].approved.entries
      && w3.reg.roomState.entries[roomId].approved.entries[s] == q.entries[s]
  {
    JoinRoomSpec(w1, t2, roomId, Some(teacher));
    var w2 := OnJoinRoom(w1, t2, roomId, Some(teacher));
    assert Emitted(w1, w2)[1] == Emission(ToSocket(t2), PendingList(Values(w1.reg.roomState.entries[roomId].pending)));
    assert w2.reg.roomState.entries[roomId].teacher == Some(t2);
    ApproveJoinAccepted(copy, w2, t2, roomId, s);
  }
}
