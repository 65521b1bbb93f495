# ClassRoom session coordinator, in Dafny

The server of ClassRoom keeps classrooms in three process-wide maps:

- `rooms`: the room records;
- `roomState`: per room, the teacher's socket, the queue of join requests, the admitted sockets, the allow-list of normalized student names and the chat transcript;
- `filesByRoom`: the uploaded files.

Over these maps it runs a socket.io admission protocol: a teacher joins; students ask to join; the teacher approves, or a student already on the allow-list is let in at once; the room chats and the teacher closes the class. It also runs the HTTP endpoints for rooms, files, the teacher login and the media-token gate.

The handlers exist twice, with small differences:

- the modular server (`server/socket.js`, `server/store.js`, `server/routes/*.js`);
- the monolithic one (`server/index.js`).

The model has one set of handlers with a `Copy` parameter that selects either behaviour.

The project has two layers.

- **Specification.** A `World` is a `Registry` (the three maps) plus a `Transport` (connected sockets, group memberships and every emit so far, in order). Each handler is a function from world to world. `Step` and `Run` apply events one after another. JavaScript `Map`s are modelled by `JsMaps.JsMap`, which keeps insertion order, because the server lists and iterates them in that order.
- **Objects.** `Server.Store` and `Server.Io` are classes whose fields the handler methods update in place, as the JavaScript does. Each method in `SocketHandlers` and `RoomRoutes` is proved to leave the objects exactly as the matching specification function says.

On the specification the project proves:

- what each handler does;
- an invariant every reachable world keeps: who may appear in a room's state, and that every room has its state and its file list;
- that a room's allow-list and transcript only grow until the class is closed;
- that a closed room stays closed;
- the token gate;
- the login check;
- the file round trips.

## Model

| member | source | states |
|---|---|---|
| `JsMaps.Empty` | server/store.js:1-3 | `new Map()` has no keys and no order. |
| `JsMaps.Get` | server/store.js:11-22 | `Map.prototype.get` finds a value exactly when the key is present, and it is that key's value. |
| `JsMaps.Set` | server/store.js:11-22 | `Map.prototype.set` maps the key to the value. A new key goes to the end of the iteration order; a known key keeps its place. |
| `JsMaps.Delete` | server/socket.js:135-152 | `Map.prototype.delete` removes the key and its value. Every other key keeps its value and its relative order; an absent key changes nothing. |
| `JsMaps.Without` | server/socket.js:135-152 | The order without the deleted key keeps the other keys, stays duplicate-free and is one shorter when the key was there. |
| `JsMaps.Values` | server/store.js:31-37 | `Array.from(map.values())` lists the values in insertion order, one per key. |
| `JsMaps.MapValues` | server/socket.js:137-147 | A pass that replaces every value keeps the keys and their order and applies the change to each value. |
| `JsMaps.UpdateEach` | server/socket.js:137-147 | The `roomState.forEach` loop over the map's keys in order gives exactly `MapValues` of the change. |
| `JsMaps.ValuesOfSetNew` | server/socket.js:34-70 | Setting a new key lists its value last, after all earlier values. |
| `JsMaps.ValuesOfSetKnown` | server/socket.js:34-70 | Setting a known key replaces its value in the listing, in place. |
| `JsMaps.WithoutKeepsOrder` | server/socket.js:135-152 | After a delete, two remaining keys keep their relative order. |
| `JsStrings.Trim` | server/store.js:5-9 | `String.prototype.trim` returns a string with no leading or trailing white space, no longer than the input. |
| `JsStrings.ToLower` | server/store.js:5-9 | `toLowerCase` maps each character on its own and keeps the length. |
| `JsStrings.LowerChar` | server/store.js:5-9 | Lower-casing one character keeps white space as white space and changes only upper-case letters. |
| `JsStrings.ToLowerIdempotent` | server/store.js:5-9 | Lower-casing twice is lower-casing once. |
| `JsStrings.TrimOfTrimmed` | server/store.js:5-9 | Trimming a trimmed string leaves it as it is. |
| `JsStrings.TrimLowerCommute` | server/store.js:5-9 | Trimming and lower-casing can be done in either order. |
| `JsStrings.TrimIgnoresPadding` | server/store.js:5-9 | Extra white space before and after a string does not change its trimmed form. |
| `Model.FreshState` | server/store.js:11-22 | A new room state has no teacher, an empty queue, no admitted sockets, an empty allow-list and an empty transcript. |
| `Model.NormalizeUserKey` | server/store.js:5-9 | A missing user, an empty name or an all-blank name has no key. Any other name's key is the name trimmed and then lower-cased. |
| `Model.NormalizeIdempotent` | server/store.js:5-9 | Normalizing a key again gives the same key. |
| `Model.NormalizeByTrimmedLower` | server/store.js:5-9 | Two users have the same key if and only if their names agree once trimmed and lower-cased (for names that have a key), so different students get different keys. |
| `Model.NormalizeIgnoresPadding` | server/store.js:5-9 | White space around a name and the role do not change the key. |
| `Model.NormalizeIgnoresCase` | server/store.js:5-9 | A name's case and the role do not change the key. |
| `Model.WithState` | server/store.js:11-22 | After `getRoomState` the room has a state. An existing state is kept. A missing one is added fresh at the end, and every other room's state is unchanged. |
| `Model.StateOf` | server/store.js:11-22 | `getRoomState` returns the stored state, or a fresh one when there was none. |
| `Model.WithFiles` | server/store.js:24-29 | After `getRoomFiles` the room has a file list: the existing one, or a new empty one with every other list unchanged. |
| `Model.ApprovedListEmission` | server/store.js:31-37 | `emitApprovedList` sends nothing for a room without state. Otherwise it sends one emit: the admitted list, in order, to the room's group. |
| `Model.Audience` | server/socket.js:17-32 | An emit to a socket, to a room or to everyone reaches only connected sockets: that one socket, the members of the room's group, or all of them. |
| `Server.Store.constructor` | server/store.js:1-3 | The server starts with three empty maps. |
| `Server.Store.GetRoomState` | server/store.js:11-22 | Returns the room's state, adding a fresh one when missing, and changes nothing else. |
| `Server.Store.PutState` | server/socket.js:22-23 | Writing back a changed state updates only that room's entry. |
| `Server.Store.GetRoomFiles` | server/store.js:24-29 | Returns the room's file list, adding an empty one when missing, and changes nothing else. |
| `Server.Io.constructor` | server/socket.js:13 | The transport starts with no sockets, no groups and no emits. |
| `Server.Io.Connect` | server/socket.js:13 | A connection adds the socket to the live set only. |
| `Server.Io.Drop` | server/socket.js:135 | Before "disconnect" runs, the socket is no longer live and is in no group. |
| `Server.Io.Join` | server/socket.js:25 | `socket.join` adds one group membership. |
| `Server.Io.Emit` | server/socket.js:26 | An emit is appended to the outbox. |
| `Server.EmitApprovedList` | server/store.js:31-37 | Emits exactly `ApprovedListEmission` for the room. |
| `Admission.Put` | server/socket.js:17-32 | Storing a room's state changes only `roomState`, at that key. |
| `Admission.Send` | server/socket.js:17-32 | Emitting appends to the outbox and touches neither sockets nor groups. |
| `Admission.JoinGroup` | server/socket.js:25 | Joining adds one membership and emits nothing. |
| `Admission.Ensure` | server/store.js:11-22 | The registry after `getRoomState` differs only in `roomState`, as `WithState` says. |
| `Admission.Admit` | server/socket.js:80-85 | Approving a request adds its normalized key to the allow-list when there is one. Nothing is ever removed. |
| `Admission.Clean` | server/socket.js:137-147 | A disconnecting socket stops being the room's teacher and leaves its queue and admitted list. The allow-list and the transcript stay. |
| `Admission.ApprovedLists` | server/socket.js:149-151 | After a disconnect, every room is sent its admitted list, one emit per room in the map's order. |
| `Admission.Drop` | server/socket.js:135 | A disconnected socket leaves the live set and every group. The outbox is unchanged. |
| `Model.InGroup` | server/socket.js:109 | `socket.rooms.has(roomId)`: the socket joined the room, or the room is named by the socket's own id. Used by the chat guard in `AdmissionFacts.ChatSpec` and the delivery rule `Model.Audience`. |
| `Admission.OnConnection` | server/socket.js:13 | A new connection. Its behaviour is stated by `AdmissionFacts.ConnectSpec` and `AdmissionInvariant.ConnectValid`. |
| `Admission.OnJoinRoom` | server/socket.js:17-32 | "join-room". Its behaviour is stated by `AdmissionFacts.JoinRoomSpec`, `AdmissionFacts.LastTeacherWins` and `AdmissionInvariant.JoinRoomValid`. |
| `Admission.OnRequestJoin` | server/socket.js:34-70 | "request-join". Its behaviour is stated by `AdmissionFacts.RequestJoinIgnored`, `AdmissionFacts.RequestJoinKnown`, `AdmissionFacts.RequestJoinQueued` and `AdmissionInvariant.RequestJoinValid`. |
| `Admission.AutoApprove` | server/socket.js:39-57 | The allow-list path of "request-join". Its behaviour is stated by `AdmissionFacts.RequestJoinKnown` and `AdmissionInvariant.AutoApproveValid`. |
| `Admission.Enqueue` | server/socket.js:58-69 | The queueing path of "request-join". Its behaviour is stated by `AdmissionFacts.RequestJoinQueued` and `AdmissionInvariant.EnqueueValid`. |
| `Admission.OnApproveJoin` | server/socket.js:72-104 | "approve-join". Its behaviour is stated by `AdmissionFacts.ApproveJoinRefused`, `AdmissionFacts.ApproveJoinAccepted`, `AdmissionFacts.ApproveJoinAnnounced` and `AdmissionInvariant.ApproveJoinValid`. |
| `Admission.Approved` | server/socket.js:80-85 | The room state after an approval. Its effect is stated by `AdmissionFacts.ApproveJoinAccepted` and `AdmissionInvariant.ApprovedStateOk`. |
| `Admission.Welcomed` | server/socket.js:86-91 | The approved student joins and is told, when still connected. Its effect is stated by `AdmissionFacts.ApproveJoinAnnounced`. |
| `Admission.Approve` | server/socket.js:79-103 | The successful path of "approve-join". Its behaviour is stated by `AdmissionFacts.ApproveJoinAccepted`, `AdmissionFacts.ApproveJoinAnnounced` and `AdmissionInvariant.ApproveValid`. |
| `Admission.OnChatMessage` | server/socket.js:106-119 | "chat-message". Its behaviour is stated by `AdmissionFacts.ChatSpec`, `AdmissionFacts.ChatKept` and `AdmissionInvariant.ChatValid`. |
| `Admission.OnCloseClass` | server/socket.js:121-133 | "close-class". Its behaviour is stated by `AdmissionFacts.CloseClassSpec`, `AdmissionFacts.CloseClassKept` and `AdmissionInvariant.CloseClassValid`. |
| `Admission.OnTeacherReady` | server/index.js:386-393 | "teacher-ready" (monolithic copy). Its behaviour is stated by `AdmissionFacts.TeacherReadySpec` and `AdmissionInvariant.TeacherReadyValid`. |
| `Admission.OnDisconnect` | server/socket.js:135-152 | "disconnect". Its behaviour is stated by `AdmissionFacts.DisconnectSpec`, `AdmissionFacts.DisconnectKept` and `AdmissionInvariant.DisconnectValid`. |
| `Admission.Step` | server/index.js:152-466 | One event, dispatched to its handler. "teacher-ready" runs only in the monolithic copy and the media-token route only in the modular one (see `AdmissionFacts.TeacherReadyModularIgnored`). Its behaviour is stated by `AdmissionInvariant.ValidStep`, `AdmissionFacts.StepKeepsHistory` and `AdmissionFacts.StepNoNewRoom`. |
| `Admission.Run` | server/index.js:152-466 | Events in order. Its behaviour is stated by `AdmissionInvariant.ValidRun`, `AdmissionFacts.RunKeepsHistory` and `AdmissionFacts.RoomStaysClosed`. |
| `LiveKit.Approved` | server/routes/livekit.js:20-25 | The student check: a key exists and is on the room's allow-list. Stated by `LiveKit.GateOrder` and `LiveKit.TokenOnlyForApproved`. |
| `LiveKit.Configured` | server/routes/livekit.js:27-32 | The three settings are all set. Stated by `LiveKit.GateOrder`. |
| `AdmissionFacts.JoinRoomSpec` | server/socket.js:17-32 | "join-room" is ignored unless the room exists and the caller claims the teacher role. Then the caller becomes the teacher, replacing any earlier one, and joins the group. It is sent the transcript, the queue and the approved list, in that order. Nothing else changes. |
| `AdmissionFacts.LastTeacherWins` | server/socket.js:17-32 | When two teachers join in turn, the later one holds the room. |
| `AdmissionFacts.RequestJoinIgnored` | server/socket.js:34-37 | "request-join" changes nothing unless the room exists and the caller claims the student role. |
| `AdmissionFacts.RequestJoinKnown` | server/socket.js:39-57 | A student whose key is on the allow-list is admitted and joins the group without touching the queue. The emits are exactly: approved and transcript to the student, then, only in the modular copy with a teacher set, the automatic approval to the teacher, then the approved list to the room. |
| `AdmissionFacts.RequestJoinQueued` | server/index.js:299-327 | Any other student is queued under its socket id, replacing an earlier request from that socket. A teacher who is set hears the new queue. |
| `AdmissionFacts.ApproveJoinRefused` | server/socket.js:72-78 | "approve-join" from anyone but the room's teacher, or for a socket not in the queue, only makes sure that the room has a state. |
| `AdmissionFacts.ApproveJoinAccepted` | server/socket.js:79-85 | An accepted approval moves the request from the queue to the admitted list and puts its key on the allow-list. Nothing else in the registry changes. |
| `AdmissionFacts.ApproveJoinAnnounced` | server/socket.js:86-103 | After an approval, a connected target joins the group. The emits are exactly: approved and transcript to the target when it is connected; the new queue to the teacher; the approval to the teacher, flagged manual in the modular copy and unflagged in the monolithic one; the approved list to the room. |
| `AdmissionFacts.ChatSpec` | server/socket.js:106-119 | "chat-message" is ignored unless the room id, the message and the user are all given and the caller is in the room's group. Then the entry goes at the end of the transcript and is emitted to the group, and nothing else changes. |
| `AdmissionFacts.CloseClassSpec` | server/socket.js:121-133 | "close-class" from the room's teacher removes the room from all three maps and leaves every other room as it was. It tells the group, then everyone. From anyone else it only makes sure that the room has a state. Group memberships are never touched. |
| `AdmissionFacts.TeacherReadySpec` | server/index.js:386-393 | "teacher-ready" from the room's current teacher sends that socket, and no one else, the approved list. Otherwise it only makes sure that the room has a state. |
| `AdmissionFacts.TeacherReadyModularIgnored` | server/socket.js:13-152 | The modular copy has no "teacher-ready" handler, so the event changes nothing. |
| `AdmissionFacts.DisconnectSpec` | server/socket.js:135-152 | "disconnect" removes the socket from the transport and from every room: as teacher, from the queue and from the admitted list. Allow-lists and transcripts stay. Every room then hears its approved list, in the map's order. |
| `AdmissionFacts.ConnectSpec` | server/socket.js:13 | A connecting socket only joins the live set. |
| `AdmissionFacts.PutKept` | server/store.js:11-22 | A state update through `getRoomState` and `set` keeps the room's history whenever the new state does. |
| `AdmissionFacts.RequestJoinKept` | server/socket.js:34-70 | "request-join" keeps every room's state. Allow-lists and transcripts only grow. |
| `AdmissionFacts.ApproveJoinKept` | server/socket.js:72-104 | "approve-join" keeps every room's state. Allow-lists and transcripts only grow. |
| `AdmissionFacts.ChatKept` | server/socket.js:106-119 | A chat message only appends to one transcript. |
| `AdmissionFacts.DisconnectKept` | server/socket.js:135-152 | A disconnect keeps every room's state, allow-list and transcript. |
| `AdmissionFacts.CloseClassKept` | server/socket.js:121-133 | "close-class" keeps the history of every room except the one it closes. |
| `AdmissionFacts.TeacherReadyKept` | server/index.js:386-393 | "teacher-ready" keeps every room's history. |
| `AdmissionFacts.HttpKept` | server/routes/rooms.js:19-128 | The HTTP endpoints add room states at most and change none that is there. |
| `AdmissionFacts.SocketKept` | server/socket.js:13-152 | Every socket event keeps a room's history, except its own teacher's "close-class". |
| `AdmissionFacts.StepKeepsHistory` | server/index.js:279-466 | One event of any kind keeps every room's history, except that the room's teacher may close it. |
| `AdmissionFacts.RunKeepsHistory` | server/index.js:279-466 | Over any run with no "close-class" for a room, the room keeps its state, its allow-list only grows and its transcript is only appended to. |
| `AdmissionFacts.StepNoNewRoom` | server/routes/rooms.js:19-38 | Only room creation under that id puts a room into `rooms`. |
| `AdmissionFacts.SocketNoNewRoom` | server/socket.js:13-152 | No socket event adds a room to `rooms`. |
| `AdmissionFacts.RoomStaysClosed` | server/socket.js:121-133 | A closed or never created room stays out of `rooms` until a room with that id is created. |
| `AdmissionFacts.QueuedAndApproved` | server/socket.js:34-70 | A queued socket that asks again after a same-named socket was approved ends up both queued and admitted (see below). |
| `AdmissionFacts.RequesterHearsNoChat` | server/socket.js:34-119 | A socket that has only asked to join, and is not on the allow-list, is not among those a chat message that follows reaches. |
| `AdmissionFacts.ApprovedHearsChat` | server/socket.js:72-119 | A student approved while connected is among those the next chat message reaches. |
| `AdmissionFacts.ChatAfterClose` | server/socket.js:106-133 | After the teacher closes a class, a socket still in its group can chat. The room's state comes back with no room behind it (see below). |
| `AdmissionFacts.ApprovalGrantsToken` | server/routes/livekit.js:8-34 | A student the teacher has just approved passes the media-token gate for the room, once the server is configured. |
| `AdmissionFacts.TeacherHandover` | server/socket.js:17-104 | When the teacher disconnects, a teacher who joins later is sent the whole remaining queue and can approve from it. |
| `AdmissionFacts.TeacherLeaves` | server/socket.js:135-147 | A disconnecting teacher leaves the room without a teacher. The queue loses only that socket's own entry. |
| `AdmissionFacts.TeacherTakesOver` | server/socket.js:17-32 | A teacher who joins is sent the queue and is then the socket whose approvals are accepted. |
| `AdmissionInvariant.FreshStateOk` | server/store.js:11-22 | A fresh room state meets the state invariant. |
| `AdmissionInvariant.EnsureOk` | server/store.js:11-22 | `getRoomState` keeps the invariant. |
| `AdmissionInvariant.PutOk` | server/socket.js:17-32 | Replacing one room's state by a good one keeps the invariant. |
| `AdmissionInvariant.CleanOk` | server/socket.js:137-147 | A room's state stays good once a socket has left the transport and the room. |
| `AdmissionInvariant.JoinRoomValid` | server/index.js:282-297 | "join-room" keeps the invariant: the new teacher is connected and in the group. |
| `AdmissionInvariant.RequestJoinValid` | server/index.js:299-327 | "request-join" keeps the invariant. |
| `AdmissionInvariant.AutoApproveValid` | server/index.js:304-314 | An allow-listed student joins the group as it is admitted, so the admitted list stays in the group. |
| `AdmissionInvariant.EnqueueValid` | server/index.js:315-326 | Queueing a connected student under its own id keeps the invariant. |
| `AdmissionInvariant.ApproveJoinValid` | server/index.js:329-360 | "approve-join" keeps the invariant. |
| `AdmissionInvariant.ApproveValid` | server/index.js:337-359 | A queued student is connected, so it joins the group and its key goes on the allow-list as it is admitted. |
| `AdmissionInvariant.ChatValid` | server/index.js:362-375 | A chat message keeps the invariant, including when it revives a closed room's state. |
| `AdmissionInvariant.CloseClassValid` | server/index.js:435-447 | "close-class" keeps the invariant: a room and its state and files go together. |
| `AdmissionInvariant.TeacherReadyValid` | server/index.js:386-393 | "teacher-ready" keeps the invariant. |
| `AdmissionInvariant.ConnectValid` | server/index.js:279 | A new connection keeps the invariant. |
| `AdmissionInvariant.DisconnectValid` | server/index.js:449-466 | A disconnect keeps the invariant: no room names the gone socket. |
| `AdmissionInvariant.CreateRoomValid` | server/index.js:170-187 | Room creation gives the new room a state and a file list, keeping the invariant. |
| `AdmissionInvariant.TokenValid` | server/routes/livekit.js:8-34 | The token request keeps the invariant. |
| `AdmissionInvariant.FileRouteEffect` | server/routes/rooms.js:49-128 | The file routes touch only `filesByRoom` and only add lists to it. |
| `AdmissionInvariant.RequestValid` | server/index.js:152-277 | Every HTTP endpoint changes only the registry and keeps it good. |
| `AdmissionInvariant.SocketValid` | server/index.js:279-466 | Every well-formed socket event keeps the invariant. |
| `AdmissionInvariant.ValidStep` | server/index.js:152-466 | Every well-formed event keeps the invariant. |
| `AdmissionInvariant.ValidRun` | server/index.js:152-466 | Starting from the empty server, every world reached by well-formed events meets the invariant. |
| `AdmissionInvariant.Initial` | server/index.js:109-111 | The empty server meets the invariant. |
| `SocketHandlers.OnConnect` | server/socket.js:13 | Leaves the objects as `OnConnection` says. |
| `SocketHandlers.JoinRoom` | server/socket.js:17-32 | Leaves the objects as `OnJoinRoom` says. |
| `SocketHandlers.TakeRoom` | server/socket.js:22-23 | The caller becomes the room's teacher in its stored state. |
| `SocketHandlers.Greet` | server/socket.js:25-30 | The teacher joins the group and hears the transcript, the queue and the approved list. |
| `SocketHandlers.RequestJoin` | server/socket.js:34-70 | Leaves the objects as `OnRequestJoin` says. |
| `SocketHandlers.AdmitKnown` | server/socket.js:39-57 | Leaves the objects as the allow-list path says. |
| `SocketHandlers.Queue` | server/socket.js:58-69 | Leaves the objects as the queueing path says. |
| `SocketHandlers.ApproveJoin` | server/socket.js:72-104 | Leaves the objects as `OnApproveJoin` says. |
| `SocketHandlers.Admit` | server/socket.js:79-103 | Leaves the objects as the successful approval path says. |
| `SocketHandlers.Grant` | server/socket.js:80-85 | The request moves from the queue to the admitted list and its key onto the allow-list. |
| `SocketHandlers.Announce` | server/socket.js:86-103 | Emits to the student first, then to the teacher's room, then the approved list. |
| `SocketHandlers.Welcome` | server/socket.js:86-91 | A connected student joins the group and hears the approval and the transcript. An absent one is skipped. |
| `SocketHandlers.ChatMessage` | server/socket.js:106-119 | Leaves the objects as `OnChatMessage` says. |
| `SocketHandlers.TeacherReady` | server/index.js:386-393 | Leaves the objects as `OnTeacherReady` says. |
| `SocketHandlers.CloseClass` | server/socket.js:121-133 | Leaves the objects as `OnCloseClass` says. |
| `SocketHandlers.Disconnect` | server/socket.js:135-152 | Leaves the objects as `OnDisconnect` says. |
| `SocketHandlers.CleanAll` | server/socket.js:137-147 | The first `forEach` cleans the socket out of every room's state. |
| `SocketHandlers.EmitAllApprovedLists` | server/socket.js:149-151 | The second `forEach` sends every room its approved list, in the map's order. |
| `Rooms.Metas` | server/routes/rooms.js:49-63 | The file listing has one entry per file, in order, without the bytes. |
| `Rooms.FirstMatch` | server/routes/rooms.js:115-128 | `findIndex` returns -1 exactly when no file has the id. Otherwise it returns the first index whose file has it. |
| `Rooms.ListRooms` | server/routes/rooms.js:12-17 | Every stored room, in creation order. |
| `Rooms.CreateRoom` | server/routes/rooms.js:19-38 | An empty title or teacher name gets 400 and no change. Otherwise the room is stored under the new id, with a state and an empty file list, and answered with 201. |
| `Rooms.GetRoom` | server/routes/rooms.js:40-47 | 404 exactly for an unknown id; otherwise 200 with the stored room. |
| `Rooms.ListFiles` | server/routes/rooms.js:49-63 | 404 for an unknown room. Otherwise the file list is made sure of and its metadata is answered with 200. |
| `Rooms.UploadFile` | server/routes/rooms.js:65-93 | 404 for an unknown room and 400 without a file. Otherwise the entry is appended to the room's list and its metadata is answered with 201. |
| `Rooms.DownloadFile` | server/routes/rooms.js:95-113 | 404 for an unknown room or file. Otherwise 200 with the first entry carrying the id. |
| `Rooms.DeleteFile` | server/routes/rooms.js:115-128 | 404 for an unknown room or file. Otherwise the first entry with the id is spliced out and the reply is 204. |
| `Rooms.SpliceFirstMatch` | server/routes/rooms.js:115-128 | Splicing out the first match removes exactly one entry with the id. Every other entry stays, in order. |
| `Rooms.DeleteRemovesOneMatch` | server/routes/rooms.js:115-128 | After a successful delete the room has one entry fewer with that id and the same other entries, in order. |
| `Rooms.CountAndFirstMatch` | server/routes/rooms.js:95-128 | `find` and `findIndex` miss exactly when no entry carries the id. |
| `Rooms.UploadThenList` | server/routes/rooms.js:49-93 | Listing after an upload gives the old listing with the new entry's metadata at the end. |
| `Rooms.UploadRoundTrip` | server/routes/rooms.js:65-113 | A file uploaded under a fresh id downloads with the same name, type, size and bytes. |
| `RoomRoutes.CreateRoom` | server/routes/rooms.js:19-38 | Leaves the store, and answers, as `Rooms.CreateRoom` says. |
| `RoomRoutes.ListFiles` | server/routes/rooms.js:49-63 | Leaves the store, and answers, as `Rooms.ListFiles` says. |
| `RoomRoutes.UploadFile` | server/routes/rooms.js:65-93 | Leaves the store, and answers, as `Rooms.UploadFile` says. |
| `RoomRoutes.DownloadFile` | server/routes/rooms.js:95-113 | Leaves the store, and answers, as `Rooms.DownloadFile` says. |
| `RoomRoutes.DeleteFile` | server/routes/rooms.js:115-128 | Leaves the store, and answers, as `Rooms.DeleteFile` says. |
| `RoomRoutes.RequestToken` | server/routes/livekit.js:8-48 | Leaves the store, and answers, as `LiveKit.TokenRequest` says. |
| `LiveKit.TokenRequest` | server/routes/livekit.js:8-48 | Only `roomState` may change. A 400 or 404 answer leaves the registry as it was; every later path has run `getRoomState` for the room. An issued token is answered with 200 and grants the requested room. |
| `LiveKit.GateOrder` | server/routes/livekit.js:8-34 | The checks run in order: missing room or user (400), unknown room (404), student not approved (403), missing configuration (500), then the token. |
| `LiveKit.TokenOnlyForApproved` | server/routes/livekit.js:19-25 | A student gets a token only for an existing room whose allow-list holds the student's normalized key. |
| `LiveKit.NonStudentSkipsApproval` | server/routes/livekit.js:20-25 | For any other role the answer does not depend on the allow-list. |
| `LiveKit.IssuedIdentity` | server/routes/livekit.js:34-48 | An issued token carries the identity "role-name-nonce", the name, the role as metadata, the room and the server URL. |
| `LiveKit.TokenRequestReadsOnly` | server/routes/livekit.js:8-34 | When every room has a state, as creation ensures, the request changes nothing. |
| `Login.Login` | server/index.js:158-168 | Succeeds exactly when the trimmed, lower-cased name is "yokyay" and the trimmed password is "461225". The answer is the teacher user or 401 "Invalid credentials". |
| `Login.LoginIgnoresPaddingAndCase` | server/index.js:158-168 | White space around either field, and the name's case, do not change the answer. |
| `Login.LoginExampleAccepted` | server/index.js:158-168 | " YokYay " with "461225" and a newline is accepted. |
| `Login.LoginExampleRefused` | server/index.js:158-168 | A wrong password is refused. |

## Where the code and the protocol's intent differ

The model follows the code in each of these cases.

- **Queued and admitted at once.** The admission protocol, as its event names ("request-join", then "approve-join" moving a request from the queue to the admitted list) suggest, has a socket either queued or admitted, never both. The handlers do not keep the two apart. A queued socket that asks again after a same-named socket was approved is allow-listed and admitted, and its queue entry stays (`AdmissionFacts.QueuedAndApproved`).
- **Chat after closing.** "close-class" removes the room from the three maps but does not take the sockets out of the room's group. A socket still in the group can chat afterwards. `getRoomState` then brings back a state, with a transcript, for a room that no longer exists (`AdmissionFacts.ChatAfterClose`).
- **Blank titles.** Room creation rejects only empty titles and teacher names. A title of blanks is accepted (`Rooms.CreateRoom`).

## Left out

- Prometheus metrics: the gauges and counters, `updateRoomsMetric`, `updateRoleMetrics` and the request-logging and request-counting middleware (`[HTTP] <method> <url>` and `http_requests_total` by method, route and status). They only observe.
- The media relays "speaking", "webrtc-offer", "webrtc-answer", "webrtc-ice", "webrtc-stop" and "camera-stop" (server/index.js:377-433). They forward payloads and store nothing.
- Signing the LiveKit access token. An issued token is represented by its claims (`LiveKit.Grant`).
- Re-decoding a latin1 file name as UTF-8 on upload. The name is taken as given.
- Multer's 20 MiB upload limit and its 413 reply; HTTP headers; `Content-Disposition`.
- `nanoid` ids and `new Date().toISOString()`. They are parameters of the operations that use them.
- `toLowerCase` outside Latin-1. The model maps A-Z and the Latin-1 upper-case letters; other characters are unchanged.
- Payload fields of non-string types. A missing string field is modelled as the empty string, and a missing user as `None`. That matches the `!roomId`, `!message` and `!user` checks, which treat a missing field and an empty one alike.
- A socket event sent with no payload, or with `null`. Every handler destructures its payload, so the listener throws a TypeError, and no handler for uncaught exceptions is registered. In the model every event carries its fields.
- A missing `roomId` in "approve-join" and "teacher-ready". These call `getRoomState(undefined)`, which files a state under the key `undefined`. The model files it under `""`, so the two keys are one key in the model.
- The `console.log` line at the start of every handler. It only writes to the console.
- Room state objects shared by reference. States are values written back with `set`; the handlers never keep one across events, so no aliasing is lost.
- Delivery of emits to clients and their interleaving across connections. The outbox records the emits in the order the server makes them.
- A request without a JSON body, which makes the room creation handler throw. It is modelled as empty fields.
- `LiveKit.TokenRequest`: its own contract states the effects on the registry per path; the gate itself is stated by `LiveKit.GateOrder`, `LiveKit.TokenOnlyForApproved` and `LiveKit.IssuedIdentity`.
