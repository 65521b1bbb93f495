/**
 * The HTTP routes that change the store, as methods on it. Each leaves the
 * store, and answers, exactly as the matching function of `Rooms` or
 * `LiveKit` says; the read-only routes are those functions themselves.
 */
module RoomRoutes {
  import opened Wrappers
  import opened JsMaps
  import opened Model
  import opened Server
  import Rooms
  import LiveKit

  /** POST /rooms: `rooms.set`, then `getRoomState` and `getRoomFiles` for the new id. */
  method CreateRoom(store: Store, title: string, teacherName: string, id: RoomId, createdAt: string)
    returns (reply: Reply<Room>)
    modifies store
    ensures (store.View(), reply) == Rooms.CreateRoom(old(store.View()), title, teacherName, id, createdAt)
  {
    if title == "" || teacherName == "" {
      return Fail(400, Rooms.MissingRoomFields);
    }
    var room := Room(id, title, teacherName, createdAt);
    store.rooms := Set(store.rooms, id, room);
    var _ := store.GetRoomState(id);
    var _ := store.GetRoomFiles(id);
    reply := Done(201, room);
  }

  /** GET /rooms/:roomId/files: `getRoomFiles` may add an empty list. */
  method ListFiles(store: Store, roomId: RoomId) returns (reply: Reply<seq<Rooms.FileMeta>>)
    modifies store
    ensures (store.View(), reply) == Rooms.ListFiles(old(store.View()), roomId)
  {
    if !Has(store.rooms, roomId) {
      return Fail(404, Rooms.RoomNotFound);
    }
    var files := store.GetRoomFiles(roomId);
    reply := Done(200, Rooms.Metas(files));
  }

  /** POST /rooms/:roomId/files: the entry is pushed onto the room's list. */
  method UploadFile(store: Store, roomId: RoomId, file: Option<Rooms.Upload>, id: string, uploadedAt: string)
    returns (reply: Reply<Rooms.FileMeta>)
    modifies store
    ensures (store.View(), reply) == Rooms.UploadFile(old(store.View()), roomId, file, id, uploadedAt)
  {
    if !Has(store.rooms, roomId) {
      return Fail(404, Rooms.RoomNotFound);
    }
    if file.None? {
      return Fail(400, Rooms.FileRequired);
    }
    var f := file.value;
    var entry := FileEntry(id, f.originalName, f.size, f.mime, uploadedAt, f.buffer);
    var files := store.GetRoomFiles(roomId);
    store.filesByRoom := store.filesByRoom[roomId := files + [entry]];
    reply := Done(201, Rooms.Meta(entry));
  }

  /** GET /rooms/:roomId/files/:fileId: `find` over the room's list. */
  method DownloadFile(store: Store, roomId: RoomId, fileId: string) returns (reply: Reply<FileEntry>)
    modifies store
    ensures (store.View(), reply) == Rooms.DownloadFile(old(store.View()), roomId, fileId)
  {
    if !Has(store.rooms, roomId) {
      return Fail(404, Rooms.RoomNotFound);
    }
    var files := store.GetRoomFiles(roomId);
    var i := Rooms.FirstMatch(files, fileId);
    if i == -1 {
      return Fail(404, Rooms.FileNotFound);
    }
    reply := Done(200, files[i]);
  }

  /** DELETE /rooms/:roomId/files/:fileId: `findIndex`, then `splice(index, 1)` on the list itself. */
  method DeleteFile(store: Store, roomId: RoomId, fileId: string) returns (reply: Reply<()>)
    modifies store
    ensures (store.View(), reply) == Rooms.DeleteFile(old(store.View()), roomId, fileId)
  {
    if !Has(store.rooms, roomId) {
      return Fail(404, Rooms.RoomNotFound);
    }
    var files := store.GetRoomFiles(roomId);
    var index := Rooms.FirstMatch(files, fileId);
    if index == -1 {
      return Fail(404, Rooms.FileNotFound);
    }
    store.filesByRoom := store.filesByRoom[roomId := files[..index] + files[index + 1..]];
    reply := Done(204, ());
  }

  /** POST /livekit/token: the gates in order, with `getRoomState` once the room is known. */
  method RequestToken(store: Store, roomId: RoomId, user: Option<User>, env: LiveKit.Env, nonce: string)
    returns (reply: Reply<LiveKit.Grant>)
    modifies store
    ensures (store.View(), reply) == LiveKit.TokenRequest(old(store.View()), roomId, user, env, nonce)
  {
    if roomId == "" || user.None? || user.value.name == "" || user.value.role == "" {
      return Fail(400, "Missing room or user");
    }
    if !Has(store.rooms, roomId) {
      return Fail(404, "Room not found");
    }
    var state := store.GetRoomState(roomId);
    var u := user.value;
    if u.role == "Student" {
      var userKey := NormalizeUserKey(user);
      if userKey.None? || userKey.value !in state.approvedUsers {
        return Fail(403, "User not approved");
      }
    }
    if !LiveKit.Configured(env) {
      return Fail(500, "LiveKit not configured");
    }
    reply := Done(200, LiveKit.Grant(u.role + "-" + u.name + "-" + nonce, u.name, u.role, roomId, env.url));
  }
}
