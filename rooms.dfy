/**
 * The room and file HTTP endpoints: list, create and get rooms; list, upload,
 * download and delete the files of a room. Each one is a function from the
 * registry to the new registry and the reply.
 */
module Rooms {
  import opened Wrappers
  import opened JsMaps
  import opened Model

  /** What multer hands the upload handler; `None` when no file was attached. */
  datatype Upload = Upload(originalName: string, size: nat, mime: string, buffer: seq<bv8>)

  /** A file entry as the API lists it: everything but the bytes. */
  datatype FileMeta = FileMeta(id: string, name: string, size: nat, mime: string, uploadedAt: string)

  const MissingRoomFields := "Missing room title or teacher name"
  const RoomNotFound := "Room not found"
  const FileRequired := "File is required"
  const FileNotFound := "File not found"

  function Meta(f: FileEntry): FileMeta {
    FileMeta(f.id, f.name, f.size, f.mime, f.uploadedAt)
  }

  function Metas(files: seq<FileEntry>): (ms: seq<FileMeta>)
    ensures |ms| == |files|
    ensures forall i | 0 <= i < |files| :: ms[i] == Meta(files[i])
  {
    seq(|files|, i requires 0 <= i < |files| => Meta(files[i]))
  }

  /** `files.findIndex(item => item.id === fileId)`: the first match, or -1. */
  function FirstMatch(files: seq<FileEntry>, fileId: string): (i: int)
    ensures -1 <= i < |files|
    ensures i == -1 <==> forall j | 0 <= j < |files| :: files[j].id != fileId
    ensures 0 <= i ==> files[i].id == fileId && forall j | 0 <= j < i :: files[j].id != fileId
  {
    if files == [] then -1
    else if files[0].id == fileId then 0
    else
      var k := FirstMatch(files[1..], fileId);
      assert forall j | 1 <= j < |files| :: files[j] == files[1..][j - 1];
      if k == -1 then -1 else k + 1
  }

  /** GET /rooms: every stored room, in creation order. */
  function ListRooms(reg: Registry): (rooms: seq<Room>)
    ensures |rooms| == |reg.rooms.order|
    ensures forall i | 0 <= i < |rooms| :: rooms[i] == reg.rooms.entries[reg.rooms.order[i]]
  {
    Values(reg.rooms)
  }

  /** POST /rooms. `id` is the `nanoid(8)` and `createdAt` the clock reading. */
  function CreateRoom(reg: Registry, title: string, teacherName: string, id: RoomId, createdAt: string)
    : (out: (Registry, Reply<Room>))
    ensures title == "" || teacherName == "" ==> out == (reg, Fail(400, MissingRoomFields))
    ensures title != "" && teacherName != "" ==>
      var room := Room(id, title, teacherName, createdAt);
      && out.1 == Done(201, room)
      && out.0.rooms == Set(reg.rooms, id, room)
      && out.0.roomState == WithState(reg.roomState, id)
      && out.0.filesByRoom == WithFiles(reg.filesByRoom, id)
  {
    if title == "" || teacherName == "" then (reg, Fail(400, MissingRoomFields))
    else
      var room := Room(id, title, teacherName, createdAt);
      (Registry(Set(reg.rooms, id, room), WithState(reg.roomState, id), WithFiles(reg.filesByRoom, id)),
       Done(201, room))
  }

  /** GET /rooms/:roomId. */
  function GetRoom(reg: Registry, roomId: RoomId): (r: Reply<Room>)
    ensures r.Fail? <==> roomId !in reg.rooms.entries
    ensures r.Fail? ==> r == Fail(404, RoomNotFound)
    ensures r.Done? ==> r.status == 200 && r.body == reg.rooms.entries[roomId]
  {
    match Get(reg.rooms, roomId)
    case None => Fail(404, RoomNotFound)
    case Some(room) => Done(200, room)
  }

  /** GET /rooms/:roomId/files. */
  function ListFiles(reg: Registry, roomId: RoomId): (out: (Registry, Reply<seq<FileMeta>>))
    ensures roomId !in reg.rooms.entries ==> out == (reg, Fail(404, RoomNotFound))
    ensures roomId in reg.rooms.entries ==>
      && out.0 == reg.(filesByRoom := WithFiles(reg.filesByRoom, roomId))
      && out.1 == Done(200, Metas(out.0.filesByRoom[roomId]))
  {
    if !Has(reg.rooms, roomId) then (reg, Fail(404, RoomNotFound))
    else
      var files := WithFiles(reg.filesByRoom, roomId);
      (reg.(filesByRoom := files), Done(200, Metas(files[roomId])))
  }

  /** POST /rooms/:roomId/files. `id` is the `nanoid(10)`, `uploadedAt` the clock reading. */
  function UploadFile(reg: Registry, roomId: RoomId, file: Option<Upload>, id: string, uploadedAt: string)
    : (out: (Registry, Reply<FileMeta>))
    ensures roomId !in reg.rooms.entries ==> out == (reg, Fail(404, RoomNotFound))
    ensures roomId in reg.rooms.entries && file.None? ==> out == (reg, Fail(400, FileRequired))
    ensures roomId in reg.rooms.entries && file.Some? ==>
      var entry := FileEntry(id, file.value.originalName, file.value.size, file.value.mime, uploadedAt, file.value.buffer);
      && out.0 == reg.(filesByRoom := reg.filesByRoom[roomId := WithFiles(reg.filesByRoom, roomId)[roomId] + [entry]])
      && out.1 == Done(201, Meta(entry))
  {
    if !Has(reg.rooms, roomId) then (reg, Fail(404, RoomNotFound))
    else if file.None? then (reg, Fail(400, FileRequired))
    else
      var f := file.value;
      var entry := FileEntry(id, f.originalName, f.size, f.mime, uploadedAt, f.buffer);
      var files := WithFiles(reg.filesByRoom, roomId);
      (reg.(filesByRoom := files[roomId := files[roomId] + [entry]]), Done(201, Meta(entry)))
  }

  /** GET /rooms/:roomId/files/:fileId: the first entry with that id, bytes included. */
  function DownloadFile(reg: Registry, roomId: RoomId, fileId: string): (out: (Registry, Reply<FileEntry>))
    ensures roomId !in reg.rooms.entries ==> out == (reg, Fail(404, RoomNotFound))
    ensures roomId in reg.rooms.entries ==>
      var files := WithFiles(reg.filesByRoom, roomId)[roomId];
      && out.0 == reg.(filesByRoom := WithFiles(reg.filesByRoom, roomId))
      && (out.1.Fail? <==> forall j | 0 <= j < |files| :: files[j].id != fileId)
      && (out.1.Fail? ==> out.1 == Fail(404, FileNotFound))
      && (out.1.Done? ==> out.1.status == 200 && out.1.body == files[FirstMatch(files, fileId)])
  {
    if !Has(reg.rooms, roomId) then (reg, Fail(404, RoomNotFound))
    else
      var files := WithFiles(reg.filesByRoom, roomId);
      var i := FirstMatch(files[roomId], fileId);
      if i == -1 then (reg.(filesByRoom := files), Fail(404, FileNotFound))
      else (reg.(filesByRoom := files), Done(200, files[roomId][i]))
  }

  /** DELETE /rooms/:roomId/files/:fileId: `splice(index, 1)` at the first match. */
  function DeleteFile(reg: Registry, roomId: RoomId, fileId: string): (out: (Registry, Reply<()>))
    ensures roomId !in reg.rooms.entries ==> out == (reg, Fail(404, RoomNotFound))
    ensures roomId in reg.rooms.entries ==>
      var files := WithFiles(reg.filesByRoom, roomId)[roomId];
      var i := FirstMatch(files, fileId);
      && (out.1.Fail? <==> i == -1)
      && (i == -1 ==> out == (reg.(filesByRoom := WithFiles(reg.filesByRoom, roomId)), Fail(404, FileNotFound)))
      && (i != -1 ==> out == (reg.(filesByRoom := reg.filesByRoom[roomId := files[..i] + files[i + 1..]]), Done(204, ())))
  {
    if !Has(reg.rooms, roomId) then (reg, Fail(404, RoomNotFound))
    else
      var files := WithFiles(reg.filesByRoom, roomId);
      var i := FirstMatch(files[roomId], fileId);
      if i == -1 then (reg.(filesByRoom := files), Fail(404, FileNotFound))
      else (reg.(filesByRoom := files[roomId := files[roomId][..i] + files[roomId][i + 1..]]), Done(204, ()))
  }

  /** The entries whose id is not `fileId`, in order. */
  function OtherFiles(files: seq<FileEntry>, fileId: string): seq<FileEntry> {
    if files == [] then []
    else (if files[0].id == fileId then [] else [files[0]]) + OtherFiles(files[1..], fileId)
  }

  /** How many entries carry `fileId`. */
  function Count(files: seq<FileEntry>, fileId: string): nat {
    if files == [] then 0
    else (if files[0].id == fileId then 1 else 0) + Count(files[1..], fileId)
  }

  lemma {:induction false} OtherFilesConcat(a: seq<FileEntry>, b: seq<FileEntry>, fileId: string)
    ensures OtherFiles(a + b, fileId) == OtherFiles(a, fileId) + OtherFiles(b, fileId)
    ensures Count(a + b, fileId) == Count(a, fileId) + Count(b, fileId)
  {
    if a == [] {
      assert a + b == b;
    } else {
      assert (a + b)[1..] == a[1..] + b;
      OtherFilesConcat(a[1..], b, fileId);
    }
  }

  /** Splicing out the first match removes one entry with the id and keeps the others in order. */
  lemma SpliceFirstMatch(before: seq<FileEntry>, fileId: string)
    requires FirstMatch(before, fileId) != -1
    ensures var i := FirstMatch(before, fileId);
      var after := before[..i] + before[i + 1..];
      && OtherFiles(after, fileId) == OtherFiles(before, fileId)
      && Count(after, fileId) + 1 == Count(before, fileId)
  {
    var i := FirstMatch(before, fileId);
    assert before == before[..i] + [before[i]] + before[i + 1..];
    SpliceOne(before[..i], before[i], before[i + 1..], fileId);
  }

  lemma SpliceOne(a: seq<FileEntry>, x: FileEntry, b: seq<FileEntry>, fileId: string)
    requires x.id == fileId
    ensures OtherFiles(a + [x] + b, fileId) == OtherFiles(a + b, fileId)
    ensures Count(a + [x] + b, fileId) == Count(a + b, fileId) + 1
  {
    OtherFilesConcat(a + [x], b, fileId);
    OtherFilesConcat(a, [x], fileId);
    OtherFilesConcat(a, b, fileId);
    assert [x][1..] == [];
  }

  /**
   * A successful delete takes out exactly one entry carrying the id and leaves
   * every other entry, in its order; a failed one changes no list.
   */
  lemma DeleteRemovesOneMatch(reg: Registry, roomId: RoomId, fileId: string)
    requires roomId in reg.rooms.entries && roomId in reg.filesByRoom
    ensures var out := DeleteFile(reg, roomId, fileId);
      var before := reg.filesByRoom[roomId];
      var after := out.0.filesByRoom[roomId];
      && out.0.filesByRoom.Keys == reg.filesByRoom.Keys
      && (forall r | r in reg.filesByRoom && r != roomId :: out.0.filesByRoom[r] == reg.filesByRoom[r])
      && OtherFiles(after, fileId) == OtherFiles(before, fileId)
      && (out.1.Done? ==> Count(after, fileId) + 1 == Count(before, fileId) && |after| + 1 == |before|)
      && (out.1.Fail? ==> after == before && out.1.status == 404)
  {
    if FirstMatch(reg.filesByRoom[roomId], fileId) != -1 {
      SpliceFirstMatch(reg.filesByRoom[roomId], fileId);
    }
  }

  /** Counting matches finds one exactly when `findIndex` does. */
  lemma {:induction false} CountAndFirstMatch(files: seq<FileEntry>, fileId: string)
    ensures Count(files, fileId) == 0 <==> FirstMatch(files, fileId) == -1
  {
    if files != [] {
      CountAndFirstMatch(files[1..], fileId);
    }
  }

  /** Listing after an upload shows the old listing with the new entry's metadata at the end. */
  lemma UploadThenList(reg: Registry, roomId: RoomId, file: Upload, id: string, uploadedAt: string)
    requires roomId in reg.rooms.entries && roomId in reg.filesByRoom
    ensures var up := UploadFile(reg, roomId, Some(file), id, uploadedAt);
      && up.1.Done? && up.1.status == 201
      && ListFiles(up.0, roomId).1 == Done(200, Metas(reg.filesByRoom[roomId]) + [up.1.body])
  {
    var up := UploadFile(reg, roomId, Some(file), id, uploadedAt);
    assert Metas(up.0.filesByRoom[roomId]) == Metas(reg.filesByRoom[roomId]) + [up.1.body];
  }

  /**
   * An upload under a fresh id can be downloaded back byte for byte, and
   * deleting it restores the registry as it was.
   */
  lemma UploadRoundTrip(reg: Registry, roomId: RoomId, file: Upload, id: string, uploadedAt: string)
    requires roomId in reg.rooms.entries && roomId in reg.filesByRoom
    requires forall j | 0 <= j < |reg.filesByRoom[roomId]| :: reg.filesByRoom[roomId][j].id != id
    ensures var up := UploadFile(reg, roomId, Some(file), id, uploadedAt).0;
      && DownloadFile(up, roomId, id).1 == Done(200, FileEntry(id, file.originalName, file.size, file.mime, uploadedAt, file.buffer))
      && DeleteFile(up, roomId, id) == (reg, Done(204, ()))
  {
    var before := reg.filesByRoom[roomId];
    var up := UploadFile(reg, roomId, Some(file), id, uploadedAt).0;
    var after := up.filesByRoom[roomId];
    assert after == before + [after[|before|]] && after[|before|].id == id;
    assert forall j | 0 <= j < |before| :: after[j] == before[j];
    var i := FirstMatch(after, id);
    assert i != -1;
    assert i == |before|;
    assert after[..i] + after[i + 1..] == before;
    assert reg.filesByRoom[roomId := before] == reg.filesByRoom;
    assert up.(filesByRoom := up.filesByRoom[roomId := before]) == reg;
  }
}
