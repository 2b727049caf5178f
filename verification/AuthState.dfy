/** The identity service as values: the store's data, the session table, and what each HTTP handler of
    internal/auth/server.go makes of them. A handler is one atomic step; WebAuthn and TOTP checks and
    the outcome of a save are answers of the environment. */
module AuthState {
  import opened Protocol
  import opened Store

  /** session.go:15-22; a ceremony is known by the number of the begin call that made it. */
  datatype Login = Login(
    username: string, authenticated: bool, ceremony: Option<nat>, pendingInvite: string, pendingTOTP: string,
    expires: Time)

  /** `begins` counts the ceremonies handed out so far. */
  datatype Auth = Auth(d: Data, sess: map<string, Login>, begins: nat)

  const LIFETIME: Time := 12 * 3600

  datatype Reply = Done | Totp(required: bool) | Minted(tok: string) | Info(username: string, totp: bool) | Refused(status: int)

  datatype Request =
    | RegisterBegin(cookie: Option<string>, now: Time, invite: string, freshId: string, userId: Bytes, started: bool, saved: bool)
    | RegisterFinish(cookie: Option<string>, now: Time, verdict: Option<Credential>, saved: bool)
    | LoginBegin(cookie: Option<string>, now: Time, username: string, freshId: string, started: bool)
    | LoginFinish(cookie: Option<string>, now: Time, verdict: Option<Credential>)
    | TotpVerify(cookie: Option<string>, now: Time, valid: bool)
    | TotpEnroll(cookie: Option<string>, now: Time, secret: Option<string>)
    | TotpConfirm(cookie: Option<string>, now: Time, valid: bool, saved: bool)
    | MintInvite(cookie: Option<string>, now: Time, username: string, tok: string, ttl: Time, saved: bool)
    | MintAgentToken(cookie: Option<string>, now: Time, tok: string, ttl: Time, saved: bool)
    | SessionInfo(cookie: Option<string>, now: Time)
    | Logout(cookie: Option<string>, now: Time)
    | AgentCheck(tok: string, now: Time)

  // ----- session.go -----

  /** session.go:34-46. */
  function Get(sess: map<string, Login>, cookie: Option<string>, now: Time): Option<string> {
    if cookie.Some? && cookie.value in sess && now <= sess[cookie.value].expires then cookie else None
  }

  function NewLogin(now: Time): Login { Login("", false, None, "", "", now + LIFETIME) }

  /** session.go:48-62: the identifier of the session that a begin call works on, and the table with it. */
  function Obtain(sess: map<string, Login>, cookie: Option<string>, now: Time, freshId: string): (string, map<string, Login>) {
    var id := Get(sess, cookie, now);
    if id.Some? then (id.value, sess) else (freshId, sess[freshId := NewLogin(now)])
  }

  // ----- server.go -----

  /** server.go:188-193: the first credential with this identifier gets the new counter. */
  function Counted(cs: seq<Credential>, c: Credential): seq<Credential> {
    if cs == [] then []
    else if cs[0].id == c.id then [cs[0].(signCount := c.signCount)] + cs[1..]
    else [cs[0]] + Counted(cs[1..], c)
  }

  /** server.go:338-350. */
  function RequireAuth(a: Auth, cookie: Option<string>, now: Time): Option<string> {
    var id := Get(a.sess, cookie, now);
    if id.Some? && a.sess[id.value].authenticated && a.sess[id.value].username in a.d.users then id else None
  }

  function Handle(a: Auth, r: Request): (Auth, Reply) {
    match r
    case RegisterBegin(cookie, now, invite, freshId, userId, started, saved) =>
      HandleRegisterBegin(a, cookie, now, invite, freshId, userId, started, saved)
    case RegisterFinish(cookie, now, verdict, saved) => HandleRegisterFinish(a, cookie, now, verdict, saved)
    case LoginBegin(cookie, now, username, freshId, started) => HandleLoginBegin(a, cookie, now, username, freshId, started)
    case LoginFinish(cookie, now, verdict) => HandleLoginFinish(a, cookie, now, verdict)
    case TotpVerify(cookie, now, valid) =>
      var id := Get(a.sess, cookie, now);
      if id.None? || a.sess[id.value].username == "" then (a, Refused(400)) else
      var name := a.sess[id.value].username;
      if name !in a.d.users || !HasTOTP(a.d.users[name]) || !valid then (a, Refused(401))
      else (a.(sess := a.sess[id.value := a.sess[id.value].(authenticated := true)]), Done)
    case TotpEnroll(cookie, now, secret) =>
      var id := RequireAuth(a, cookie, now);
      if id.None? then (a, Refused(401))
      else if secret.None? then (a, Refused(500))
      else (a.(sess := a.sess[id.value := a.sess[id.value].(pendingTOTP := secret.value)]), Done)
    case TotpConfirm(cookie, now, valid, saved) => HandleTotpConfirm(a, cookie, now, valid, saved)
    case MintInvite(cookie, now, username, tok, ttl, saved) =>
      if RequireAuth(a, cookie, now).None? then (a, Refused(401))
      else if username == "" then (a, Refused(400))
      else (a.(d := After(a.d, CreateInvite(tok, username, now + ttl))), if saved then Minted(tok) else Refused(500))
    case MintAgentToken(cookie, now, tok, ttl, saved) =>
      if RequireAuth(a, cookie, now).None? then (a, Refused(401))
      else (a.(d := After(a.d, CreateAgentToken(tok, now + ttl))), if saved then Minted(tok) else Refused(500))
    case SessionInfo(cookie, now) =>
      var id := Get(a.sess, cookie, now);
      if id.None? || !a.sess[id.value].authenticated then (a, Refused(401)) else
      var name := a.sess[id.value].username;
      (a, Info(name, name in a.d.users && HasTOTP(a.d.users[name])))
    case Logout(cookie, _) =>
      (if cookie.Some? then a.(sess := a.sess - {cookie.value}) else a, Done)
    case AgentCheck(tok, now) =>
      (a.(d := After(a.d, CheckAgentToken(tok, now))), if Accepts(a.d, tok, now) then Done else Refused(200))
  }

  /** server.go:109-113 and 164-167: a begin call takes the session over. */
  function Begin(
    a: Auth, cookie: Option<string>, now: Time, username: string, invite: Option<string>, freshId: string
  ): Auth {
    var (id, sess) := Obtain(a.sess, cookie, now, freshId);
    var s := sess[id].(username := username, ceremony := Some(a.begins), authenticated := false,
                       pendingInvite := if invite.Some? then invite.value else sess[id].pendingInvite);
    a.(sess := sess[id := s], begins := a.begins + 1)
  }

  /** server.go:81-115. */
  function HandleRegisterBegin(
    a: Auth, cookie: Option<string>, now: Time, invite: string, freshId: string, userId: Bytes, started: bool, saved: bool
  ): (Auth, Reply) {
    if !Invited(a.d, invite, now) then (a, Refused(403)) else
    var name := a.d.invites[invite].username;
    var known := name in a.d.users;
    var a1 := if known then a else a.(d := After(a.d, CreateUser(name, userId)));
    if !known && !saved then (a1, Refused(409))
    else if !started then (a1, Refused(500))
    else
      (Begin(a1, cookie, now, name, Some(invite), freshId), Done)
  }

  /** server.go:138-141: the invite is consumed, whatever that says, and the session authenticated. */
  function Conclude(a: Auth, id: string, now: Time): Auth
    requires id in a.sess
  {
    var s := a.sess[id];
    a.(d := After(a.d, ConsumeInvite(s.pendingInvite, now)),
       sess := a.sess[id := s.(ceremony := None, pendingInvite := "", authenticated := true)])
  }

  /** server.go:117-143. */
  function HandleRegisterFinish(a: Auth, cookie: Option<string>, now: Time, verdict: Option<Credential>, saved: bool): (Auth, Reply) {
    var id := Get(a.sess, cookie, now);
    if id.None? || a.sess[id.value].ceremony.None? || a.sess[id.value].username == "" then (a, Refused(400)) else
    var s := a.sess[id.value];
    if s.username !in a.d.users || verdict.None? then (a, Refused(400)) else
    var u := a.d.users[s.username];
    var d1 := After(a.d, PutUser(u.(credentials := u.credentials + [verdict.value])));
    if !saved then (a.(d := d1), Refused(500)) else (Conclude(a.(d := d1), id.value, now), Done)
  }

  /** server.go:147-169. */
  function HandleLoginBegin(a: Auth, cookie: Option<string>, now: Time, username: string, freshId: string, started: bool): (Auth, Reply) {
    if username !in a.d.users then (a, Refused(401))
    else if !started then (a, Refused(500))
    else
      (Begin(a, cookie, now, username, None, freshId), Done)
  }

  /** server.go:171-203. */
  function HandleLoginFinish(a: Auth, cookie: Option<string>, now: Time, verdict: Option<Credential>): (Auth, Reply) {
    var id := Get(a.sess, cookie, now);
    if id.None? || a.sess[id.value].ceremony.None? || a.sess[id.value].username == "" then (a, Refused(400)) else
    var s := a.sess[id.value];
    if s.username !in a.d.users || verdict.None? then (a, Refused(401)) else
    var u := a.d.users[s.username];
    var d1 := After(a.d, PutUser(u.(credentials := Counted(u.credentials, verdict.value))));
    if HasTOTP(u) then (a.(d := d1, sess := a.sess[id.value := s.(ceremony := None)]), Totp(true))
    else (a.(d := d1, sess := a.sess[id.value := s.(ceremony := None, authenticated := true)]), Totp(false))
  }

  /** server.go:242-264. */
  function HandleTotpConfirm(a: Auth, cookie: Option<string>, now: Time, valid: bool, saved: bool): (Auth, Reply) {
    var id := RequireAuth(a, cookie, now);
    if id.None? then (a, Refused(401)) else
    var s := a.sess[id.value];
    if s.pendingTOTP == "" || !valid then (a, Refused(400)) else
    var u := a.d.users[s.username];
    (Auth(After(a.d, PutUser(u.(totp := s.pendingTOTP))),
          a.sess[id.value := s.(pendingTOTP := "")], a.begins),
     if saved then Done else Refused(500))
  }
}
