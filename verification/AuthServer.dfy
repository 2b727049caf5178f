/** internal/auth/session.go and the handlers of internal/auth/server.go on objects: sessions are shared
    mutable records in a table, the store is the one of Store.dfy. Each handler does to the objects what
    `Handle` does to their values, so that what AuthRuns.dfy proves of runs holds of the objects. */
module AuthServer {
  import opened Protocol
  import A = AuthState
  import S = Store

  class Session {
    var username: string
    var authenticated: bool
    var ceremony: Option<nat>
    var pendingInvite: string
    var pendingTOTP: string
    const expires: S.Time

    constructor (expires: S.Time)
      ensures View() == A.Login("", false, None, "", "", expires)
    {
      username, authenticated, ceremony, pendingInvite, pendingTOTP := "", false, None, "", "";
      this.expires := expires;
    }

    ghost function View(): A.Login
      reads this
    {
      A.Login(username, authenticated, ceremony, pendingInvite, pendingTOTP, expires)
    }

    /** server.go:110-113 and 165-167. */
    method Begun(username: string, number: nat, invite: Option<string>)
      modifies this
      ensures View() == old(View()).(username := username, ceremony := Some(number), authenticated := false,
                                     pendingInvite := if invite.Some? then invite.value else old(pendingInvite))
    {
      this.username := username;
      ceremony := Some(number);
      if invite.Some? { pendingInvite := invite.value; }
      authenticated := false;
    }

    /** server.go:257-258. */
    method TakeSecret() returns (secret: string)
      modifies this
      ensures secret == old(pendingTOTP) && View() == old(View()).(pendingTOTP := "")
    {
      secret := pendingTOTP;
      pendingTOTP := "";
    }

    /** server.go:139-141. */
    method Registered()
      modifies this
      ensures View() == old(View()).(ceremony := None, pendingInvite := "", authenticated := true)
    {
      ceremony := None;
      pendingInvite := "";
      authenticated := true;
    }
  }

  class Sessions {
    var m: map<string, Session>

    constructor ()
      ensures m == map[] && Valid()
    {
      m := map[];
    }

    /** No two identifiers share a record. */
    ghost predicate Valid()
      reads this
    {
      forall i, j | i in m && j in m && i != j :: m[i] != m[j]
    }

    ghost function View(): map<string, A.Login>
      reads this, m.Values
    {
      map id | id in m :: m[id].View()
    }

    /** session.go:34-46. */
    method Get(cookie: Option<string>, now: S.Time) returns (s: Session?)
      ensures s != null <==> A.Get(View(), cookie, now).Some?
      ensures s != null ==> cookie.Some? && cookie.value in m && s == m[cookie.value]
    {
      if cookie.None? || cookie.value !in m || now > m[cookie.value].expires { return null; }
      s := m[cookie.value];
    }

    /** session.go:48-62. */
    method GetOrCreate(cookie: Option<string>, now: S.Time, freshId: string) returns (ghost id: string, s: Session)
      requires Valid()
      modifies this
      ensures Valid() && id in m && s == m[id]
      ensures (id, View()) == A.Obtain(old(View()), cookie, now, freshId)
      ensures fresh(m.Values - old(m.Values))
    {
      var found := Get(cookie, now);
      if found != null {
        id, s := cookie.value, found;
      } else {
        id := freshId;
        s := new Session(now + A.LIFETIME);
        m := m[freshId := s];
        assert s.View() == A.NewLogin(now);
        assert View() == old(View())[freshId := A.NewLogin(now)];
      }
    }

    /** session.go:64-71. */
    method Destroy(cookie: Option<string>)
      requires Valid()
      modifies this
      ensures Valid() && m.Values <= old(m.Values)
      ensures View() == if cookie.Some? then old(View()) - {cookie.value} else old(View())
    {
      if cookie.Some? { m := m - {cookie.value}; }
    }

    /** Writing to one record changes one entry of the table. */
    twostate lemma Wrote(id: string)
      requires old(Valid()) && m == old(m) && id in m
      requires forall j | j in m && j != id :: unchanged(m[j])
      ensures View() == old(View())[id := m[id].View()]
    {
    }
  }

  /** server.go:187-193: the first credential with the identifier gets the new counter, and no other. */
  method CountSignature(cs: seq<S.Credential>, c: S.Credential) returns (r: seq<S.Credential>)
    ensures r == A.Counted(cs, c) && |r| == |cs|
    ensures forall i | 0 <= i < |cs| ::
              r[i] == if cs[i].id == c.id && (forall j | 0 <= j < i :: cs[j].id != c.id)
                      then cs[i].(signCount := c.signCount) else cs[i]
  {
    r := cs;
    for i := 0 to |cs|
      invariant r == cs && forall j | 0 <= j < i :: cs[j].id != c.id
    {
      if r[i].id == c.id {
        r := r[i := r[i].(signCount := c.signCount)];
        CountedAt(cs, c, i);
        return;
      }
    }
    NotCounted(cs, c);
  }

  lemma {:induction false} CountedAt(cs: seq<S.Credential>, c: S.Credential, i: nat)
    requires i < |cs| && cs[i].id == c.id && forall j | 0 <= j < i :: cs[j].id != c.id
    ensures A.Counted(cs, c) == cs[i := cs[i].(signCount := c.signCount)]
  {
    if i == 0 {
      assert cs == [cs[0]] + cs[1..];
    } else {
      CountedAt(cs[1..], c, i - 1);
      assert cs == [cs[0]] + cs[1..];
    }
  }

  lemma {:induction false} NotCounted(cs: seq<S.Credential>, c: S.Credential)
    requires forall j | 0 <= j < |cs| :: cs[j].id != c.id
    ensures A.Counted(cs, c) == cs
  {
    if cs != [] {
      NotCounted(cs[1..], c);
      assert cs == [cs[0]] + cs[1..];
    }
  }

  class Server {
    const store: S.Store
    const sess: Sessions
    var begins: nat

    constructor (store: S.Store)
      ensures this.store == store && fresh(sess) && Valid()
      ensures View() == A.Auth(store.d, map[], 0)
    {
      this.store := store;
      sess := new Sessions();
      begins := 0;
    }

    ghost predicate Valid()
      reads this, sess
    {
      sess.Valid()
    }

    ghost function View(): A.Auth
      reads this, store, sess, sess.m.Values
    {
      A.Auth(store.d, sess.View(), begins)
    }

    /** What `save` will return in this handler. */
    predicate Saving(f: S.Fault) { !store.persistent || f.NoFault? }

    /** server.go:338-350. */
    method RequireAuth(cookie: Option<string>, now: S.Time) returns (s: Session?, user: Option<S.User>)
      ensures s != null <==> A.RequireAuth(View(), cookie, now).Some?
      ensures s != null ==> cookie.Some? && cookie.value in sess.m && s == sess.m[cookie.value]
      ensures s != null ==> s.username in store.d.users && user == Some(store.d.users[s.username])
    {
      user := None;
      s := sess.Get(cookie, now);
      if s == null || !s.authenticated { return null, None; }
      user := store.GetUser(s.username);
      if user.None? { return null, None; }
    }

    /** server.go:109-113 and 164-167: the session that a begin call works on. */
    method StartCeremony(cookie: Option<string>, now: S.Time, username: string, invite: Option<string>, freshId: string)
      requires Valid()
      modifies this, sess, sess.m.Values
      ensures Valid() && fresh(sess.m.Values - old(sess.m.Values))
      ensures View() == A.Begin(old(View()), cookie, now, username, invite, freshId)
    {
      ghost var id;
      var s;
      id, s := sess.GetOrCreate(cookie, now, freshId);
      label got:
      s.Begun(username, begins, invite);
      sess.Wrote@got(id);
      begins := begins + 1;
    }

    /** server.go:81-115. */
    method RegisterBegin(
      cookie: Option<string>, now: S.Time, invite: string, freshId: string, userId: Bytes, started: bool, f: S.Fault
    ) returns (reply: A.Reply)
      requires Valid()
      modifies this, store, store.fs, sess, sess.m.Values
      ensures Valid() && fresh(sess.m.Values - old(sess.m.Values))
      ensures (View(), reply)
              == A.HandleRegisterBegin(old(View()), cookie, now, invite, freshId, userId, started, Saving(f))
    {
      var username := store.PeekInvite(invite, now);
      if username.None? { return A.Refused(403); }
      var user := store.GetUser(username.value);
      if user.None? {
        var _, ok := store.CreateUser(username.value, userId, f);
        if !ok { return A.Refused(409); }
      }
      ghost var a1 := View();
      if !started { return A.Refused(500); }
      StartCeremony(cookie, now, username.value, Some(invite), freshId);
      assert View() == A.Begin(a1, cookie, now, username.value, Some(invite), freshId);
      return A.Done;
    }

    /** server.go:138-141. */
    method Conclude(id: string, now: S.Time, g: S.Fault)
      requires Valid() && id in sess.m
      modifies store, store.fs, sess.m[id]
      ensures Valid() && id in old(sess.View()) && View() == A.Conclude(old(View()), id, now)
    {
      var _, _ := store.ConsumeInvite(sess.m[id].pendingInvite, now, g);
      sess.m[id].Registered();
      sess.Wrote(id);
    }

    /** server.go:117-143; `g` is the outcome of the save in ConsumeInvite, which is ignored. */
    method RegisterFinish(
      cookie: Option<string>, now: S.Time, verdict: Option<S.Credential>, f: S.Fault, g: S.Fault
    ) returns (reply: A.Reply)
      requires Valid()
      modifies store, store.fs, sess.m.Values
      ensures Valid()
      ensures (View(), reply) == A.HandleRegisterFinish(old(View()), cookie, now, verdict, Saving(f))
    {
      var s := sess.Get(cookie, now);
      if s == null || s.ceremony.None? || s.username == "" { return A.Refused(400); }
      var user := store.GetUser(s.username);
      if user.None? || verdict.None? { return A.Refused(400); }
      var ok := store.PutUser(user.value.(credentials := user.value.credentials + [verdict.value]), f);
      assert sess.View() == old(sess.View());
      ghost var a1 := View();
      if !ok { return A.Refused(500); }
      Conclude(cookie.value, now, g);
      assert View() == A.Conclude(a1, cookie.value, now);
      return A.Done;
    }

    /** server.go:147-169. */
    method LoginBegin(cookie: Option<string>, now: S.Time, username: string, freshId: string, started: bool)
      returns (reply: A.Reply)
      requires Valid()
      modifies this, sess, sess.m.Values
      ensures Valid() && fresh(sess.m.Values - old(sess.m.Values))
      ensures (View(), reply) == A.HandleLoginBegin(old(View()), cookie, now, username, freshId, started)
    {
      var user := store.GetUser(username);
      if user.None? { return A.Refused(401); }
      if !started { return A.Refused(500); }
      StartCeremony(cookie, now, username, None, freshId);
      return A.Done;
    }

    /** server.go:171-203; the save is ignored. */
    method LoginFinish(cookie: Option<string>, now: S.Time, verdict: Option<S.Credential>, f: S.Fault)
      returns (reply: A.Reply)
      requires Valid()
      modifies store, store.fs, sess.m.Values
      ensures Valid()
      ensures (View(), reply) == A.HandleLoginFinish(old(View()), cookie, now, verdict)
    {
      var s := sess.Get(cookie, now);
      if s == null || s.ceremony.None? || s.username == "" { return A.Refused(400); }
      var user := store.GetUser(s.username);
      if user.None? || verdict.None? { return A.Refused(401); }
      var counted := CountSignature(user.value.credentials, verdict.value);
      var _ := store.PutUser(user.value.(credentials := counted), f);
      s.ceremony := None;
      if S.HasTOTP(user.value) {
        sess.Wrote(cookie.value);
        return A.Totp(true);
      }
      s.authenticated := true;
      sess.Wrote(cookie.value);
      return A.Totp(false);
    }

    /** server.go:207-226. */
    method TotpVerify(cookie: Option<string>, now: S.Time, valid: bool) returns (reply: A.Reply)
      requires Valid()
      modifies sess.m.Values
      ensures Valid()
      ensures (View(), reply) == A.Handle(old(View()), A.TotpVerify(cookie, now, valid))
    {
      var s := sess.Get(cookie, now);
      if s == null || s.username == "" { return A.Refused(400); }
      var user := store.GetUser(s.username);
      if user.None? || !S.HasTOTP(user.value) || !valid { return A.Refused(401); }
      s.authenticated := true;
      sess.Wrote(cookie.value);
      return A.Done;
    }

    /** server.go:228-240. */
    method TotpEnroll(cookie: Option<string>, now: S.Time, secret: Option<string>) returns (reply: A.Reply)
      requires Valid()
      modifies sess.m.Values
      ensures Valid()
      ensures (View(), reply) == A.Handle(old(View()), A.TotpEnroll(cookie, now, secret))
    {
      var s, user := RequireAuth(cookie, now);
      if s == null { return A.Refused(401); }
      if secret.None? { return A.Refused(500); }
      s.pendingTOTP := secret.value;
      sess.Wrote(cookie.value);
      return A.Done;
    }

    /** server.go:242-264. */
    method TotpConfirm(cookie: Option<string>, now: S.Time, valid: bool, f: S.Fault) returns (reply: A.Reply)
      requires Valid()
      modifies store, store.fs, sess.m.Values
      ensures Valid()
      ensures (View(), reply) == A.HandleTotpConfirm(old(View()), cookie, now, valid, Saving(f))
    {
      var s, user := RequireAuth(cookie, now);
      if s == null { return A.Refused(401); }
      if s.pendingTOTP == "" || !valid { return A.Refused(400); }
      var secret := s.TakeSecret();
      var u := user.value.(totp := secret);
      sess.Wrote(cookie.value);
      ghost var table := sess.View();
      var ok := store.PutUser(u, f);
      assert sess.View() == table;
      if !ok { return A.Refused(500); }
      return A.Done;
    }

    /** server.go:268-288. */
    method CreateInvite(cookie: Option<string>, now: S.Time, username: string, tok: string, ttl: S.Time, f: S.Fault)
      returns (reply: A.Reply)
      modifies store, store.fs
      ensures (View(), reply) == A.Handle(old(View()), A.MintInvite(cookie, now, username, tok, ttl, Saving(f)))
    {
      var s, _ := RequireAuth(cookie, now);
      if s == null { return A.Refused(401); }
      if username == "" { return A.Refused(400); }
      var ok := store.CreateInvite(tok, username, now + ttl, f);
      if !ok { return A.Refused(500); }
      return A.Minted(tok);
    }

    /** server.go:290-300. */
    method CreateAgentToken(cookie: Option<string>, now: S.Time, tok: string, ttl: S.Time, f: S.Fault)
      returns (reply: A.Reply)
      modifies store, store.fs
      ensures (View(), reply) == A.Handle(old(View()), A.MintAgentToken(cookie, now, tok, ttl, Saving(f)))
    {
      var s, _ := RequireAuth(cookie, now);
      if s == null { return A.Refused(401); }
      var ok := store.CreateAgentToken(tok, now + ttl, f);
      if !ok { return A.Refused(500); }
      return A.Minted(tok);
    }

    /** server.go:304-313. */
    method SessionInfo(cookie: Option<string>, now: S.Time) returns (reply: A.Reply)
      ensures (View(), reply) == A.Handle(View(), A.SessionInfo(cookie, now))
    {
      var s := sess.Get(cookie, now);
      if s == null || !s.authenticated { return A.Refused(401); }
      var user := store.GetUser(s.username);
      return A.Info(s.username, user.Some? && S.HasTOTP(user.value));
    }

    /** server.go:315-318. */
    method Logout(cookie: Option<string>, now: S.Time) returns (reply: A.Reply)
      requires Valid()
      modifies sess
      ensures Valid() && sess.m.Values <= old(sess.m.Values)
      ensures (View(), reply) == A.Handle(old(View()), A.Logout(cookie, now))
    {
      sess.Destroy(cookie);
      return A.Done;
    }

    /** server.go:322-334. */
    method AgentCheck(tok: string, now: S.Time, f: S.Fault) returns (reply: A.Reply)
      modifies store, store.fs
      ensures (View(), reply) == A.Handle(old(View()), A.AgentCheck(tok, now))
    {
      var ok := store.CheckAgentToken(tok, now, f);
      if ok { return A.Done; }
      return A.Refused(200);
    }
  }
}
