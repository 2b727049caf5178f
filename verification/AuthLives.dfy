/** What the handlers do for their users: logins, second factors, registrations, invites and sessions from
    their first request to their last. */
module AuthLives {
  import opened Protocol
  import opened Store
  import opened AuthState
  import opened AuthRuns
  import T = AuthTrust
  import I = AuthInvites

  /** The client's fault: a bad request, a missing login, a bad invite. */
  predicate Rejected(reply: Reply) { reply == Refused(400) || reply == Refused(401) || reply == Refused(403) }

  /** A request that is rejected changes nothing. */
  lemma RejectedRequestsChangeNothing(a: Auth, r: Request)
    requires Rejected(Handle(a, r).1)
    ensures Handle(a, r).0 == a
  {
  }

  // ----- which requests succeed -----

  /** The session of a cookie is good. */
  predicate Good(a: Auth, cookie: Option<string>, now: Time) {
    cookie.Some? && cookie.value in a.sess && now <= a.sess[cookie.value].expires
  }

  /** It names a stored user. */
  predicate Naming(a: Auth, cookie: Option<string>, now: Time) {
    Good(a, cookie, now) && a.sess[cookie.value].username != "" && a.sess[cookie.value].username in a.d.users
  }

  lemma BeginsSucceedExactly(a: Auth, r: Request)
    requires r.RegisterBegin? || r.LoginBegin?
    ensures r.RegisterBegin? ==>
              (Handle(a, r).1 == Done <==>
                 && r.invite in a.d.invites && r.now <= a.d.invites[r.invite].expires
                 && (a.d.invites[r.invite].username in a.d.users || r.saved) && r.started)
    ensures r.LoginBegin? ==> (Handle(a, r).1 == Done <==> r.username in a.d.users && r.started)
  {
  }

  /** A begin takes over the session of its cookie if that is good, and otherwise makes one: the session
      carries the name and a ceremony of its own, and is not authenticated. The store gains the user that a
      newcomer's invite names, and nothing else. */
  lemma BeginsTakeTheSessionOver(a: Auth, r: Request)
    requires (r.RegisterBegin? || r.LoginBegin?) && Handle(a, r).1 == Done
    ensures var a' := Handle(a, r).0;
            var id := if Good(a, r.cookie, r.now) then r.cookie.value else r.freshId;
            && id in a'.sess && a'.begins == a.begins + 1
            && var s, s' := if Good(a, r.cookie, r.now) then a.sess[id] else NewLogin(r.now), a'.sess[id];
               && s'.ceremony == Some(a.begins) && !s'.authenticated
               && s'.expires == s.expires && s'.pendingTOTP == s.pendingTOTP
               && (r.LoginBegin? ==> s'.username == r.username && s'.pendingInvite == s.pendingInvite && a'.d == a.d)
               && (r.RegisterBegin? ==>
                     && r.invite in a.d.invites && s'.username == a.d.invites[r.invite].username && s'.pendingInvite == r.invite
                     && a'.d.invites == a.d.invites && a'.d.agentTokens == a.d.agentTokens
                     && a'.d.users == if s'.username in a.d.users then a.d.users
                                      else a.d.users[s'.username := User(r.userId, s'.username, [], "")])
  {
  }

  lemma FinishesSucceedExactly(a: Auth, r: Request)
    requires r.RegisterFinish? || r.LoginFinish?
    ensures var good := Naming(a, r.cookie, r.now) && a.sess[r.cookie.value].ceremony.Some? && r.verdict.Some?;
            && (r.RegisterFinish? ==> (Handle(a, r).1 == Done <==> good && r.saved))
            && (r.LoginFinish? ==> (Handle(a, r).1.Totp? <==> good))
  {
  }

  lemma CodesSucceedExactly(a: Auth, r: Request)
    requires r.TotpVerify?
    ensures Handle(a, r).1 == Done <==>
              Naming(a, r.cookie, r.now) && a.d.users[a.sess[r.cookie.value].username].totp != "" && r.valid
  {
  }

  lemma SecondFactorsSucceedExactly(a: Auth, r: Request)
    requires r.TotpEnroll? || r.TotpConfirm?
    ensures var good := Good(a, r.cookie, r.now) && a.sess[r.cookie.value].authenticated
                        && a.sess[r.cookie.value].username in a.d.users;
            && (r.TotpEnroll? ==> (Handle(a, r).1 == Done <==> good && r.secret.Some?))
            && (r.TotpConfirm? ==> (Handle(a, r).1 == Done <==>
                                      good && a.sess[r.cookie.value].pendingTOTP != "" && r.valid && r.saved))
  {
  }

  lemma SessionInfoAnswers(a: Auth, cookie: Option<string>, now: Time)
    ensures Handle(a, SessionInfo(cookie, now)).0 == a
    ensures Handle(a, SessionInfo(cookie, now)).1
            == if Good(a, cookie, now) && a.sess[cookie.value].authenticated
               then var name := a.sess[cookie.value].username; Info(name, name in a.d.users && a.d.users[name].totp != "")
               else Refused(401)
  {
  }

  lemma MintsSucceedExactly(a: Auth, r: Request)
    requires r.MintInvite? || r.MintAgentToken?
    ensures Handle(a, r).1 == Minted(r.tok) <==>
              && Good(a, r.cookie, r.now) && a.sess[r.cookie.value].authenticated
              && a.sess[r.cookie.value].username in a.d.users
              && (r.MintInvite? ==> r.username != "") && r.saved
  {
  }

  /** What a begin answers otherwise: the invite is bad, the name was taken or not saved, the ceremony was
      refused; for a login, the user is unknown or the ceremony was refused. */
  lemma BeginsAreRefusedExactly(a: Auth, r: Request)
    requires r.RegisterBegin? || r.LoginBegin?
    ensures r.RegisterBegin? ==>
              var good := r.invite in a.d.invites && r.now <= a.d.invites[r.invite].expires;
              var saved := good && (a.d.invites[r.invite].username in a.d.users || r.saved);
              && (Handle(a, r).1 == Refused(403) <==> !good)
              && (Handle(a, r).1 == Refused(409) <==> good && !saved)
              && (Handle(a, r).1 == Refused(500) <==> saved && !r.started)
    ensures r.LoginBegin? ==>
              && (Handle(a, r).1 == Refused(401) <==> r.username !in a.d.users)
              && (Handle(a, r).1 == Refused(500) <==> r.username in a.d.users && !r.started)
  {
  }

  /** A request that fails for want of a save or a ceremony leaves every session as it was; a newcomer, a
      credential, a second factor or a minted token stays in memory all the same. */
  lemma FailedSavesKeepSessions(a: Auth, r: Request)
    requires T.NamesAreKeys(a.d) && (Handle(a, r).1 == Refused(500) || Handle(a, r).1 == Refused(409))
    ensures var a' := Handle(a, r).0;
            && a'.begins == a.begins && (!r.TotpConfirm? ==> a'.sess == a.sess)
            && (r.RegisterBegin? ==> r.invite in a.d.invites && a.d.invites[r.invite].username in a'.d.users)
            && (r.RegisterFinish? ==>
                  && r.cookie.Some? && r.cookie.value in a.sess && a.sess[r.cookie.value].username in a'.d.users
                  && r.verdict.Some? && r.verdict.value in a'.d.users[a.sess[r.cookie.value].username].credentials)
            && (r.TotpConfirm? ==>
                  && r.cookie.Some? && r.cookie.value in a.sess && a.sess[r.cookie.value].username in a'.d.users
                  && a'.d.users[a.sess[r.cookie.value].username].totp == a.sess[r.cookie.value].pendingTOTP)
            && (r.MintInvite? ==> r.tok in a'.d.invites) && (r.MintAgentToken? ==> r.tok in a'.d.agentTokens)
  {
  }

  // ----- sessions -----

  /** A session made by a begin is good for twelve hours, the last instant included. */
  lemma SessionsLastTwelveHours(a: Auth, r: Request, later: Time)
    requires (r.RegisterBegin? || r.LoginBegin?) && Handle(a, r).1 == Done && r.cookie == None
    ensures var a' := Handle(a, r).0;
            && r.freshId in a'.sess
            && (Handle(a', SessionInfo(Some(r.freshId), later)).1 == Refused(401))
            && (Good(a', Some(r.freshId), later) <==> later <= r.now + 12 * 60 * 60)
  {
  }

  /** After a logout the session is gone, and the others are as before. */
  lemma LogoutEndsTheSession(a: Auth, id: string, now: Time, later: Time)
    ensures var (a', reply) := Handle(a, Logout(Some(id), now));
            && reply == Done && a'.d == a.d && id !in a'.sess
            && Handle(a', SessionInfo(Some(id), later)).1 == Refused(401)
            && forall j | j in a.sess && j != id :: j in a'.sess && a'.sess[j] == a.sess[j]
  {
  }

  // ----- logins -----

  lemma Append2(d0: Data, rs: seq<Request>, r1: Request, r2: Request)
    requires Run(d0, rs).Some? && Can(Run(d0, rs).value, r1)
    requires Can(AuthRuns.Next(Run(d0, rs).value, r1), r2)
    ensures Run(d0, rs + [r1]) == Some(AuthRuns.Next(Run(d0, rs).value, r1))
    ensures Run(d0, rs + [r1] + [r2]) == Some(AuthRuns.Next(AuthRuns.Next(Run(d0, rs).value, r1), r2))
  {
    T.Extend(d0, rs, r1);
    T.Extend(d0, rs + [r1], r2);
  }

  /** A begin and a finish, within the life of the session that the begin makes. */
  predicate LoginPair(s: Sys, r1: Request, r2: Request) {
    && r1.LoginBegin? && r1.cookie == None && r1.started && r1.username != "" && r1.username in s.a.d.users
    && r2.LoginFinish? && r2.cookie == Some(r1.freshId) && r2.verdict.Some?
    && s.clock <= r1.now <= r2.now <= r1.now + LIFETIME && r1.freshId !in s.made
  }

  /** Two states of a session after its login. */
  predicate LoggedIn(a: Auth, id: string, name: string, now: Time) {
    && RequireAuth(a, Some(id), now) == Some(id) && a.sess[id].username == name
    && name in a.d.users && Handle(a, SessionInfo(Some(id), now)).1 == Info(name, a.d.users[name].totp != "")
  }

  predicate HeldBack(a: Auth, id: string, name: string, now: Time) {
    && Good(a, Some(id), now) && a.sess[id].username == name
    && RequireAuth(a, Some(id), now) == None && Handle(a, SessionInfo(Some(id), now)).1 == Refused(401)
  }

  /** After any run, a stored user without TOTP is authenticated by a login; one with TOTP is held back. */
  lemma LoginsAuthenticate(d0: Data, rs: seq<Request>, r1: Request, r2: Request)
    requires T.NamesAreKeys(d0) && Run(d0, rs).Some? && LoginPair(Run(d0, rs).value, r1, r2)
    ensures Run(d0, rs + [r1] + [r2]).Some?
    ensures var a, a1, a2 := Run(d0, rs).value.a, Run(d0, rs + [r1]).value.a, Run(d0, rs + [r1] + [r2]).value.a;
            if a.d.users[r1.username].totp == "" then
              Handle(a1, r2).1 == Totp(false) && LoggedIn(a2, r1.freshId, r1.username, r2.now)
            else
              Handle(a1, r2).1 == Totp(true) && HeldBack(a2, r1.freshId, r1.username, r2.now)
  {
    T.AlwaysNamed(d0, rs);
    var s := Run(d0, rs).value;
    LoginBegun(s, r1);
    Append2(d0, rs, r1, r2);
    LoginFinished(AuthRuns.Next(s, r1).a, r2, r1.freshId);
  }

  lemma LoginBegun(s: Sys, r: Request)
    requires r.LoginBegin? && r.cookie == None && r.started && r.username in s.a.d.users && Can(s, r)
    ensures var a := AuthRuns.Next(s, r).a;
            && a.d == s.a.d && r.freshId in a.sess && a.sess[r.freshId].username == r.username
            && a.sess[r.freshId].ceremony.Some? && !a.sess[r.freshId].authenticated
            && a.sess[r.freshId].expires == r.now + LIFETIME
  {
  }

  lemma LoginFinished(a: Auth, r: Request, id: string)
    requires r.LoginFinish? && r.cookie == Some(id) && r.verdict.Some? && Good(a, Some(id), r.now)
    requires a.sess[id].ceremony.Some? && !a.sess[id].authenticated && T.NamesAreKeys(a.d)
    requires a.sess[id].username != "" && a.sess[id].username in a.d.users
    ensures var name := a.sess[id].username;
            var (a', reply) := Handle(a, r);
            if a.d.users[name].totp == "" then reply == Totp(false) && LoggedIn(a', id, name, r.now)
            else reply == Totp(true) && HeldBack(a', id, name, r.now) && a'.d.users[name].totp == a.d.users[name].totp
  {
  }

  /** Who is held back needs an accepted code, and no more. */
  lemma CodesRelease(a: Auth, id: string, name: string, now: Time, valid: bool)
    requires HeldBack(a, id, name, now) && name != "" && name in a.d.users && a.d.users[name].totp != ""
    ensures var (a', reply) := Handle(a, TotpVerify(Some(id), now, valid));
            if valid then reply == Done && LoggedIn(a', id, name, now) && a'.d == a.d
            else reply == Refused(401) && a' == a
  {
  }

  // ----- what a finish leaves in the stored user -----

  /** Everything in the store but the user `name`. */
  predicate OthersKept(d: Data, d': Data, name: string) {
    && d'.users.Keys == d.users.Keys && forall n | n in d.users && n != name :: d'.users[n] == d.users[n]
  }

  /** The first credential with the identifier of `c`. */
  predicate First(cs: seq<Credential>, c: Credential, i: nat) {
    i < |cs| && cs[i].id == c.id && forall j | 0 <= j < i :: cs[j].id != c.id
  }

  lemma {:induction false} CountedAtIndex(cs: seq<Credential>, c: Credential, i: nat)
    requires i < |cs|
    ensures |Counted(cs, c)| == |cs|
    ensures Counted(cs, c)[i] == if First(cs, c, i) then Credential(c.id, c.signCount) else cs[i]
  {
    if cs[0].id != c.id {
      if i == 0 {
        if |cs| > 1 { CountedAtIndex(cs[1..], c, 0); }
      } else {
        CountedAtIndex(cs[1..], c, i - 1);
        FirstLater(cs, c, i);
      }
    }
  }

  lemma FirstLater(cs: seq<Credential>, c: Credential, i: nat)
    requires 0 < i < |cs| && cs[0].id != c.id
    ensures First(cs, c, i) <==> First(cs[1..], c, i - 1)
  {
    if First(cs[1..], c, i - 1) {
      forall j | 0 <= j < i
        ensures cs[j].id != c.id
      {
        if j > 0 { assert cs[1..][j - 1] == cs[j]; }
      }
    }
  }

  /** A finished login stores the new counter of the first credential with the identifier, and nothing else. */
  lemma LoginsStoreTheCounter(a: Auth, r: Request)
    requires T.NamesAreKeys(a.d) && r.LoginFinish? && Handle(a, r).1.Totp?
    ensures r.cookie.Some? && r.cookie.value in a.sess && r.verdict.Some?
    ensures var name, d, d' := a.sess[r.cookie.value].username, a.d, Handle(a, r).0.d;
            && name in d.users && OthersKept(d, d', name)
            && d'.invites == d.invites && d'.agentTokens == d.agentTokens
            && var u, u', c := d.users[name], d'.users[name], r.verdict.value;
               && u'.name == u.name && u'.id == u.id && u'.totp == u.totp && |u'.credentials| == |u.credentials|
               && forall i | 0 <= i < |u.credentials| ::
                    u'.credentials[i]
                    == if First(u.credentials, c, i) then Credential(c.id, c.signCount) else u.credentials[i]
  {
    var cs := a.d.users[a.sess[r.cookie.value].username].credentials;
    forall i | 0 <= i < |cs|
      ensures |Counted(cs, r.verdict.value)| == |cs|
      ensures Counted(cs, r.verdict.value)[i]
              == if First(cs, r.verdict.value, i) then Credential(r.verdict.value.id, r.verdict.value.signCount) else cs[i]
    {
      CountedAtIndex(cs, r.verdict.value, i);
    }
    CountedLength(cs, r.verdict.value);
  }

  lemma CountedLength(cs: seq<Credential>, c: Credential)
    ensures |Counted(cs, c)| == |cs|
  {
    if cs != [] { CountedAtIndex(cs, c, 0); }
  }

  /** A finished registration adds its credential to those that the user has, and authenticates the session. */
  lemma RegistrationsAddACredential(a: Auth, r: Request)
    requires T.NamesAreKeys(a.d) && r.RegisterFinish? && Handle(a, r).1 == Done
    ensures r.cookie.Some? && r.cookie.value in a.sess && r.verdict.Some?
    ensures var s, d, a' := a.sess[r.cookie.value], a.d, Handle(a, r).0;
            && s.username in d.users && OthersKept(d, a'.d, s.username)
            && a'.d.invites == d.invites - {s.pendingInvite} && a'.d.agentTokens == d.agentTokens
            && LoggedIn(a', r.cookie.value, s.username, r.now)
            && var u, u' := d.users[s.username], a'.d.users[s.username];
               && u'.credentials == u.credentials + [r.verdict.value]
               && u'.name == u.name && u'.id == u.id && u'.totp == u.totp
  {
  }

  // ----- the second factor -----

  /** An enrolled secret waits in the session and changes nothing else; an accepted code moves it to the user,
      who needs a code from then on. */
  lemma SecondFactorsAreStored(a: Auth, id: string, name: string, secret: string, now: Time, later: Time, valid: bool)
    requires T.NamesAreKeys(a.d) && LoggedIn(a, id, name, now) && secret != "" && now <= later <= a.sess[id].expires
    ensures var a1 := Handle(a, TotpEnroll(Some(id), now, Some(secret))).0;
            var (a2, reply) := Handle(a1, TotpConfirm(Some(id), later, valid, true));
            && a1.d == a.d && LoggedIn(a1, id, name, later)
            && if !valid then reply == Refused(400) && a2 == a1
               else
                 && reply == Done && LoggedIn(a2, id, name, later) && a2.sess[id].pendingTOTP == ""
                 && OthersKept(a.d, a2.d, name) && a2.d.users[name] == a.d.users[name].(totp := secret)
                 && Handle(a2, TotpConfirm(Some(id), later, true, true)).1 == Refused(400)
  {
  }

  // ----- invites -----

  /** No request of `mid`, from the state after `rs`, spends the invite. */
  predicate NotSpent(d0: Data, rs: seq<Request>, mid: seq<Request>, tok: string) {
    forall i | 0 <= i < |mid| :: UnspentAt(d0, rs, mid, i, tok)
  }

  predicate UnspentAt(d0: Data, rs: seq<Request>, mid: seq<Request>, i: nat, tok: string) {
    i < |mid| && Run(d0, rs + mid[..i]).Some? && !I.Spends(Run(d0, rs + mid[..i]).value.a, mid[i], tok)
  }

  lemma InviteStaysAsItIs(a: Auth, r: Request, tok: string)
    requires tok in a.d.invites && (r.MintInvite? ==> r.tok != tok) && !I.Spends(a, r, tok)
    ensures tok in Handle(a, r).0.d.invites && Handle(a, r).0.d.invites[tok] == a.d.invites[tok]
  {
  }

  lemma {:induction false} InviteStays(d0: Data, rs: seq<Request>, mid: seq<Request>, tok: string)
    requires Run(d0, rs).Some? && Run(d0, rs + mid).Some? && tok in Run(d0, rs).value.a.d.invites
    requires I.NotMinted(mid, tok) && NotSpent(d0, rs, mid, tok)
    ensures var d, d' := Run(d0, rs).value.a.d, Run(d0, rs + mid).value.a.d;
            tok in d'.invites && d'.invites[tok] == d.invites[tok]
    decreases |mid|
  {
    if mid == [] {
      assert rs + mid == rs;
    } else {
      var n := |mid| - 1;
      assert (rs + mid)[..|rs + mid| - 1] == rs + mid[..n] && (rs + mid)[|rs + mid| - 1] == mid[n];
      forall i | 0 <= i < n
        ensures UnspentAt(d0, rs, mid[..n], i, tok)
      {
        assert UnspentAt(d0, rs, mid, i, tok) && mid[..n][..i] == mid[..i];
      }
      InviteStays(d0, rs, mid[..n], tok);
      assert UnspentAt(d0, rs, mid, n, tok);
      InviteStaysAsItIs(Run(d0, rs + mid[..n]).value.a, mid[n], tok);
    }
  }

  /** An authenticated session mints an invite for `name`. Whatever other requests come in between, as long as
      they neither mint nor spend it, a registration begins with it up to its expiry, that instant included,
      and the session carries the name; afterwards it is refused, and nothing changes. */
  lemma InvitesWorkUntilTheyExpire(d0: Data, rs: seq<Request>, mint: Request, mid: seq<Request>, begin: Request)
    requires Run(d0, rs).Some? && Can(Run(d0, rs).value, mint) && mint.MintInvite? && mint.username != ""
    requires RequireAuth(Run(d0, rs).value.a, mint.cookie, mint.now).Some?
    requires Run(d0, rs + [mint] + mid).Some? && I.NotMinted(mid, mint.tok) && NotSpent(d0, rs + [mint], mid, mint.tok)
    requires Can(Run(d0, rs + [mint] + mid).value, begin)
    requires begin.RegisterBegin? && begin.invite == mint.tok && begin.cookie == None && begin.started && begin.saved
    ensures var a := Run(d0, rs + [mint] + mid).value.a;
            var (a', reply) := Handle(a, begin);
            if begin.now <= mint.now + mint.ttl then
              && reply == Done && mint.username in a'.d.users
              && begin.freshId in a'.sess && a'.sess[begin.freshId].username == mint.username
              && a'.sess[begin.freshId].ceremony.Some? && a'.sess[begin.freshId].pendingInvite == mint.tok
            else reply == Refused(403) && a' == a
  {
    T.Extend(d0, rs, mint);
    InviteStays(d0, rs + [mint], mid, mint.tok);
  }
}
