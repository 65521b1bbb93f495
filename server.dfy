/**
 * The store and the socket.io transport as mutable objects, with the store
 * helpers that the handlers call. Each method is proved to do to the objects
 * what the functions of `Model` and `Admission` say.
 */
module Server {
  import opened Wrappers
  import opened JsMaps
  import opened Model
  import opened Admission

  /** The three process-wide maps. */
  class Store {
    var rooms: JsMap<RoomId, Room>
    var roomState: JsMap<RoomId, RoomState>
    var filesByRoom: map<RoomId, seq<FileEntry>>

    constructor()
      ensures View() == Registry(Empty(), Empty(), map[])
    {
      rooms := Empty();
      roomState := Empty();
      filesByRoom := map[];
    }

    function View(): Registry
      reads this
    {
      Registry(rooms, roomState, filesByRoom)
    }

    /** `getRoomState`: the room's state, added fresh when there was none. */
    method GetRoomState(roomId: RoomId) returns (st: RoomState)
      modifies this
      ensures roomState == WithState(old(roomState), roomId)
      ensures rooms == old(rooms) && filesByRoom == old(filesByRoom)
      ensures st == StateOf(old(roomState), roomId) && st == roomState.entries[roomId]
    {
      if !Has(roomState, roomId) {
        roomState := Set(roomState, roomId, FreshState());
      }
      st := roomState.entries[roomId];
    }

    /** Writing back a room's state object after changing its fields. */
    method PutState(roomId: RoomId, st: RoomState)
      modifies this
      ensures roomState == Set(old(roomState), roomId, st)
      ensures rooms == old(rooms) && filesByRoom == old(filesByRoom)
    {
      roomState := Set(roomState, roomId, st);
    }

    /** `getRoomFiles`: the room's file list, added empty when there was none. */
    method GetRoomFiles(roomId: RoomId) returns (files: seq<FileEntry>)
      modifies this
      ensures filesByRoom == WithFiles(old(filesByRoom), roomId)
      ensures rooms == old(rooms) && roomState == old(roomState)
      ensures files == filesByRoom[roomId]
    {
      if roomId !in filesByRoom {
        filesByRoom := filesByRoom[roomId := []];
      }
      files := filesByRoom[roomId];
    }
  }

  /** The socket.io server: connected sockets, group memberships and the emits so far. */
  class Io {
    var live: set<SocketId>
    var groups: set<(SocketId, RoomId)>
    var outbox: seq<Emission>

    constructor()
      ensures View() == Transport({}, {}, [])
    {
      live := {};
      groups := {};
      outbox := [];
    }

    function View(): Transport
      reads this
    {
      Transport(live, groups, outbox)
    }

    method Connect(sid: SocketId)
      modifies this
      ensures View() == old(View()).(live := old(live) + {sid})
    {
      live := live + {sid};
    }

    /** What socket.io does before "disconnect" fires: the socket leaves every group. */
    method Drop(sid: SocketId)
      modifies this
      ensures View() == Admission.Drop(old(View()), sid)
    {
      live := live - {sid};
      groups := set p | p in groups && p.0 != sid;
    }

    /** `socket.join(roomId)`. */
    method Join(sid: SocketId, roomId: RoomId)
      modifies this
      ensures View() == JoinGroup(old(View()), sid, roomId)
    {
      groups := groups + {(sid, roomId)};
    }

    method Emit(to: Target, notice: Notice)
      modifies this
      ensures View() == Send(old(View()), [Emission(to, notice)])
    {
      outbox := outbox + [Emission(to, notice)];
    }
  }

  /** Emits made one after another form one run at the end of the outbox. */
  lemma Regroup<T>(o: seq<T>, a: seq<T>, b: seq<T>, c: seq<T>)
    ensures o + a + b + c == o + (a + b + c)
  {
  }

  lemma SendThen(io: Transport, a: seq<Emission>, b: seq<Emission>)
    ensures Send(Send(io, a), b) == Send(io, a + b)
  {
    assert io.outbox + a + b == io.outbox + (a + b);
  }

  /** `emitApprovedList(roomId)`: the approved list to the room, when it has a state. */
  method EmitApprovedList(store: Store, io: Io, roomId: RoomId)
    modifies io
    ensures io.View() == Send(old(io.View()), ApprovedListEmission(store.roomState, roomId))
  {
    var state := Get(store.roomState, roomId);
    if state.Some? {
      io.Emit(ToRoom(roomId), ApprovedList(Values(state.value.approved)));
    }
  }
}
