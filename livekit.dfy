/**
 * POST /livekit/token: the ordered checks that decide whether a media token is
 * issued. Minting and signing the token is not modelled; an issued token is
 * represented by the claims it would carry.
 */
module LiveKit {
  import opened Wrappers
  import opened JsMaps
  import opened Model

  /** `LIVEKIT_API_KEY`, `LIVEKIT_API_SECRET`, `LIVEKIT_URL`; unset is the empty string. */
  datatype Env = Env(apiKey: string, apiSecret: string, url: string)

  /** The identity, display name, metadata and room grant of the token, and the server URL. */
  datatype Grant = Grant(identity: string, name: string, metadata: string, room: RoomId, url: string)

  predicate Configured(env: Env) {
    env.apiKey != "" && env.apiSecret != "" && env.url != ""
  }

  /** The student approval check: a usable normalized name already in `approvedUsers`. */
  predicate Approved(st: RoomState, user: User) {
    var key := NormalizeUserKey(Some(user));
    key.Some? && key.value in st.approvedUsers
  }

  /** `nonce` is the `nanoid(6)` suffix of the identity. */
  function TokenRequest(reg: Registry, roomId: RoomId, user: Option<User>, env: Env, nonce: string)
    : (out: (Registry, Reply<Grant>))
    ensures out.0.rooms == reg.rooms && out.0.filesByRoom == reg.filesByRoom
    ensures out.1.Fail? && out.1.status in {400, 404} ==> out.0 == reg
    ensures !(out.1.Fail? && out.1.status in {400, 404}) ==> out.0.roomState == WithState(reg.roomState, roomId)
    ensures out.1.Done? ==> out.1.status == 200 && out.1.body.room == roomId
  {
    if roomId == "" || user.None? || user.value.name == "" || user.value.role == "" then
      (reg, Fail(400, "Missing room or user"))
    else if !Has(reg.rooms, roomId) then
      (reg, Fail(404, "Room not found"))
    else
      var reg1 := reg.(roomState := WithState(reg.roomState, roomId));
      var u := user.value;
      if u.role == "Student" && !Approved(StateOf(reg.roomState, roomId), u) then
        (reg1, Fail(403, "User not approved"))
      else if !Configured(env) then
        (reg1, Fail(500, "LiveKit not configured"))
      else
        (reg1, Done(200, Grant(u.role + "-" + u.name + "-" + nonce, u.name, u.role, roomId, env.url)))
  }

  /** The checks in order: fields first, then the room, then approval, then configuration. */
  lemma GateOrder(reg: Registry, roomId: RoomId, user: Option<User>, env: Env, nonce: string)
    ensures var r := TokenRequest(reg, roomId, user, env, nonce).1;
      && (r.status == 400 <==> roomId == "" || user.None? || user.value.name == "" || user.value.role == "")
      && (r.status == 404 <==> r.status != 400 && roomId !in reg.rooms.entries)
      && (r.status == 403 <==>
            r.status != 400 && r.status != 404 && user.value.role == "Student" &&
            !Approved(StateOf(reg.roomState, roomId), user.value))
      && (r.status == 500 <==> r.status !in {400, 403, 404} && !Configured(env))
      && (r.Done? <==> r.status !in {400, 403, 404, 500})
  {
  }

  /** A student gets a token only when the room's allow-list holds the student's key. */
  lemma TokenOnlyForApproved(reg: Registry, roomId: RoomId, u: User, env: Env, nonce: string)
    requires u.role == "Student"
    requires TokenRequest(reg, roomId, Some(u), env, nonce).1.Done?
    ensures roomId in reg.rooms.entries
    ensures NormalizeUserKey(Some(u)).Some?
    ensures NormalizeUserKey(Some(u)).value in StateOf(reg.roomState, roomId).approvedUsers
  {
  }

  /** Any other role skips the allow-list: the answer is the same whatever it holds. */
  lemma NonStudentSkipsApproval(reg: Registry, users: set<string>, roomId: RoomId, u: User, env: Env, nonce: string)
    requires u.role != "Student" && roomId in reg.roomState.entries
    ensures var reg' := reg.(roomState := Set(reg.roomState, roomId, reg.roomState.entries[roomId].(approvedUsers := users)));
      TokenRequest(reg', roomId, Some(u), env, nonce).1 == TokenRequest(reg, roomId, Some(u), env, nonce).1
  {
  }

  /**
   * An issued token's identity is `role-name-nonce` and its grant names the
   * requested room.
   */
  lemma IssuedIdentity(reg: Registry, roomId: RoomId, u: User, env: Env, nonce: string)
    requires TokenRequest(reg, roomId, Some(u), env, nonce).1.Done?
    ensures var g := TokenRequest(reg, roomId, Some(u), env, nonce).1.body;
      && g.identity[..|u.role| + 1] == u.role + "-"
      && g.identity[|u.role| + 1..|u.role| + 1 + |u.name|] == u.name
      && g.identity[|u.role| + 1 + |u.name|..] == "-" + nonce
      && g.room == roomId && g.name == u.name && g.metadata == u.role && g.url == env.url
  {
  }

  /** When every room has a state, as room creation makes sure, the request leaves the registry unchanged. */
  lemma TokenRequestReadsOnly(reg: Registry, roomId: RoomId, user: Option<User>, env: Env, nonce: string)
    requires forall r | r in reg.rooms.entries :: r in reg.roomState.entries
    ensures TokenRequest(reg, roomId, user, env, nonce).0 == reg
  {
  }
}
