/** Where users, invites and device tokens come from: each one that the store did not have when it was
    opened goes back to a session that was proved, or to an invite that was good. */
module AuthTrust {
  import opened Protocol
  import opened Store
  import opened AuthState
  import opened AuthRuns

  // ----- what one request may change -----

  function CookieOf(r: Request): Option<string> { if r.AgentCheck? then None else r.cookie }

  /** A request works on the session of its cookie, or on the one that it creates. */
  lemma OthersAreUntouched(a: Auth, r: Request, id: string)
    requires CookieOf(r) != Some(id) && (r.RegisterBegin? || r.LoginBegin? ==> r.freshId != id)
    ensures var a' := Handle(a, r).0;
            (id in a'.sess <==> id in a.sess) && (id in a.sess ==> a'.sess[id] == a.sess[id])
  {
  }

  predicate Holds(d: Data, tok: string) { tok in d.invites || tok in d.agentTokens }

  /** The request mints `tok` for a session that is authenticated and names a stored user. */
  predicate Mints(a: Auth, r: Request, tok: string) {
    (r.MintInvite? || r.MintAgentToken?) && r.tok == tok && RequireAuth(a, r.cookie, r.now).Some?
  }

  lemma OnlyMintingAddsTokens(a: Auth, r: Request, tok: string)
    requires Holds(Handle(a, r).0.d, tok) && !Holds(a.d, tok)
    ensures Mints(a, r, tok)
  {
  }

  /** The request shows an invite for `name` that is good. */
  predicate Invites(a: Auth, r: Request, name: string) {
    r.RegisterBegin? && Invited(a.d, r.invite, r.now) && a.d.invites[r.invite].username == name
  }

  predicate NamesAreKeys(d: Data) { forall n | n in d.users :: d.users[n].name == n }

  lemma OnlyInvitesAddUsers(a: Auth, r: Request, name: string)
    requires NamesAreKeys(a.d) && name in Handle(a, r).0.d.users && name !in a.d.users
    ensures Invites(a, r, name)
  {
  }

  lemma HandleKeepsNames(a: Auth, r: Request)
    requires NamesAreKeys(a.d)
    ensures NamesAreKeys(Handle(a, r).0.d)
  {
  }

  // ----- over a whole run -----

  /** At request `i` the token was minted for a session that was proved at request `j` and not begun
      again in between. */
  predicate MintedAt(d0: Data, rs: seq<Request>, i: nat, j: nat, tok: string) {
    && j < i < |rs| && Run(d0, rs[..i]).Some? && Mints(Run(d0, rs[..i]).value.a, rs[i], tok)
    && rs[i].cookie.Some? && ProvedAt(d0, rs, j, rs[i].cookie.value)
    && forall k | j < k < i :: NotBegunAt(d0, rs, k, rs[i].cookie.value)
  }

  lemma MintedEarlier(d0: Data, rs: seq<Request>, n: nat, i: nat, j: nat, tok: string)
    requires n <= |rs| && MintedAt(d0, rs[..n], i, j, tok)
    ensures MintedAt(d0, rs, i, j, tok)
  {
    assert rs[..n][..i] == rs[..i];
    var id := rs[i].cookie.value;
    Earlier(d0, rs, n, j, id);
    forall k | j < k < i
      ensures NotBegunAt(d0, rs, k, id)
    {
      Earlier(d0, rs, n, k, id);
    }
  }

  lemma MintedLast(d0: Data, rs: seq<Request>, tok: string) returns (j: nat)
    requires rs != [] && Run(d0, rs[..|rs| - 1]).Some? && Mints(Run(d0, rs[..|rs| - 1]).value.a, rs[|rs| - 1], tok)
    ensures MintedAt(d0, rs, |rs| - 1, j, tok)
  {
    var n := |rs| - 1;
    var id := rs[n].cookie.value;
    AuthenticatedIsVouched(d0, rs[..n], id);
    j := VouchedIsProved(d0, rs[..n], id);
    Earlier(d0, rs, n, j, id);
    forall k | j < k < n
      ensures NotBegunAt(d0, rs, k, id)
    {
      Earlier(d0, rs, n, k, id);
    }
  }

  lemma {:induction false} TokenOrigin(d0: Data, rs: seq<Request>, tok: string) returns (i: nat, j: nat)
    requires Run(d0, rs).Some? && Holds(Run(d0, rs).value.a.d, tok) && !Holds(d0, tok)
    ensures MintedAt(d0, rs, i, j, tok)
  {
    if rs == [] {
      assert false;
    } else {
      var n := |rs| - 1;
      var a := Run(d0, rs[..n]).value.a;
      if Holds(a.d, tok) {
        i, j := TokenOrigin(d0, rs[..n], tok);
        MintedEarlier(d0, rs, n, i, j, tok);
      } else {
        OnlyMintingAddsTokens(a, rs[n], tok);
        i := n;
        j := MintedLast(d0, rs, tok);
      }
    }
  }

  /** Every invite and device token in the store was there when it was opened, or was minted for a session
      that had been proved since its last begin. */
  lemma TokensComeFromProvedSessions(d0: Data, rs: seq<Request>, tok: string)
    requires Run(d0, rs).Some? && Holds(Run(d0, rs).value.a.d, tok)
    ensures Holds(d0, tok) || exists i: nat, j: nat :: MintedAt(d0, rs, i, j, tok)
  {
    if !Holds(d0, tok) { var i, j := TokenOrigin(d0, rs, tok); }
  }

  predicate InvitedAt(d0: Data, rs: seq<Request>, i: nat, name: string) {
    i < |rs| && Run(d0, rs[..i]).Some? && Invites(Run(d0, rs[..i]).value.a, rs[i], name)
  }

  lemma {:induction false} UserOrigin(d0: Data, rs: seq<Request>, name: string) returns (i: nat)
    requires NamesAreKeys(d0) && Run(d0, rs).Some? && name in Run(d0, rs).value.a.d.users && name !in d0.users
    ensures InvitedAt(d0, rs, i, name)
  {
    if rs == [] {
      assert false;
    } else {
      var n := |rs| - 1;
      var a := Run(d0, rs[..n]).value.a;
      AlwaysNamed(d0, rs[..n]);
      if name in a.d.users {
        i := UserOrigin(d0, rs[..n], name);
        assert rs[..n][..i] == rs[..i];
      } else {
        OnlyInvitesAddUsers(a, rs[n], name);
        i := n;
      }
    }
  }

  lemma {:induction false} AlwaysNamed(d0: Data, rs: seq<Request>)
    requires NamesAreKeys(d0) && Run(d0, rs).Some?
    ensures NamesAreKeys(Run(d0, rs).value.a.d)
  {
    if rs != [] {
      AlwaysNamed(d0, rs[..|rs| - 1]);
      HandleKeepsNames(Run(d0, rs[..|rs| - 1]).value.a, rs[|rs| - 1]);
    }
  }

  /** Every user in the store was there when it was opened, or began a registration with an invite that
      named them and was good at that time. */
  lemma UsersComeFromInvites(d0: Data, rs: seq<Request>, name: string)
    requires NamesAreKeys(d0) && Run(d0, rs).Some? && name in Run(d0, rs).value.a.d.users
    ensures name in d0.users || exists i: nat :: InvitedAt(d0, rs, i, name)
  {
    if name !in d0.users { var i := UserOrigin(d0, rs, name); }
  }

  lemma EmptyStaysEmpty(r: Request, begins: nat)
    ensures Handle(Auth(EMPTY, map[], begins), r).0 == Auth(EMPTY, map[], begins)
  {
    if r.AgentCheck? { assert EMPTY.agentTokens - {r.tok} == EMPTY.agentTokens; }
    if r.Logout? && r.cookie.Some? {
      var none: map<string, Login> := map[];
      assert none - {r.cookie.value} == none;
    }
  }

  /** A service that opens an empty store never does anything: the first invite must come with the store. */
  lemma {:induction false} EmptyStoresStayEmpty(rs: seq<Request>)
    requires Run(EMPTY, rs).Some?
    ensures Run(EMPTY, rs).value.a == Auth(EMPTY, map[], 0)
  {
    if rs != [] {
      EmptyStoresStayEmpty(rs[..|rs| - 1]);
      EmptyStaysEmpty(rs[|rs| - 1], 0);
    }
  }

  // ----- a run in which everything works -----

  lemma Extend(d0: Data, rs: seq<Request>, r: Request)
    requires Run(d0, rs).Some? && Can(Run(d0, rs).value, r)
    ensures Run(d0, rs + [r]) == Some(AuthRuns.Next(Run(d0, rs).value, r))
  {
    assert (rs + [r])[..|rs|] == rs;
  }

  /** An invited newcomer registers; the session `id` that the service makes for them is authenticated. */
  lemma InvitedUsersRegister(d0: Data, invite: string, id: string, userId: Bytes, now: Time, cred: Credential)
    returns (rs: seq<Request>)
    requires Invited(d0, invite, now) && d0.invites[invite].username !in d0.users
    requires d0.invites[invite].username != "" && 0 <= now
    ensures Run(d0, rs).Some? && Run(d0, rs).value.clock == now
    ensures var a := Run(d0, rs).value.a;
            var name := d0.invites[invite].username;
            && RequireAuth(a, Some(id), now) == Some(id) && a.sess[id].username == name
            && a.d.users == d0.users[name := User(userId, name, [cred], "")]
            && a.d.invites == d0.invites - {invite} && a.d.agentTokens == d0.agentTokens
  {
    var r1 := RegisterBegin(None, now, invite, id, userId, true, true);
    var r2 := RegisterFinish(Some(id), now, Some(cred), true);
    rs := [];
    Extend(d0, rs, r1);
    rs := rs + [r1];
    var a1 := Run(d0, rs).value.a;
    Begins(d0, invite, id, userId, now);
    Extend(d0, rs, r2);
    rs := rs + [r2];
    Finishes(a1, id, now, cred);
    var name := d0.invites[invite].username;
    assert a1.d.users[name := User(userId, name, [cred], "")] == d0.users[name := User(userId, name, [cred], "")];
  }

  lemma Begins(d0: Data, invite: string, id: string, userId: Bytes, now: Time)
    requires Invited(d0, invite, now) && d0.invites[invite].username !in d0.users
    ensures var a1 := Handle(Auth(d0, map[], 0), RegisterBegin(None, now, invite, id, userId, true, true)).0;
            var name := d0.invites[invite].username;
            && a1.d == d0.(users := d0.users[name := User(userId, name, [], "")])
            && id in a1.sess && a1.sess[id] == Login(name, false, Some(0), invite, "", now + LIFETIME)
  {
  }

  lemma Finishes(a: Auth, id: string, now: Time, cred: Credential)
    requires id in a.sess && now <= a.sess[id].expires && a.sess[id].ceremony.Some? && a.sess[id].username != ""
    requires a.sess[id].username in a.d.users
    requires var u := a.d.users[a.sess[id].username]; u.credentials == [] && u.name == a.sess[id].username
    ensures var a' := Handle(a, RegisterFinish(Some(id), now, Some(cred), true)).0;
            var name := a.sess[id].username;
            && RequireAuth(a', Some(id), now) == Some(id) && a'.sess[id].username == name
            && a'.d.users == a.d.users[name := a.d.users[name].(credentials := [cred])]
            && a'.d.invites == a.d.invites - {a.sess[id].pendingInvite} && a'.d.agentTokens == a.d.agentTokens
  {
    assert [] + [cred] == [cred];
  }

  /** The request concerns the device token `tok`. */
  predicate MintsToken(r: Request, tok: string) { r.MintAgentToken? && r.tok == tok }

  predicate ChecksToken(r: Request, tok: string) { r.AgentCheck? && r.tok == tok }

  lemma TokenStaysAsItIs(a: Auth, r: Request, tok: string)
    requires !MintsToken(r, tok) && (ChecksToken(r, tok) ==> tok !in a.d.agentTokens)
    ensures var d, d' := a.d, Handle(a, r).0.d;
            (tok in d'.agentTokens <==> tok in d.agentTokens)
            && (tok in d.agentTokens ==> d'.agentTokens[tok] == d.agentTokens[tok])
  {
  }

  /** Nothing but its own minting and checking touches a device token. */
  lemma {:induction false} TokenStays(d0: Data, rs: seq<Request>, more: seq<Request>, tok: string)
    requires Run(d0, rs).Some? && Run(d0, rs + more).Some?
    requires forall r | r in more :: !MintsToken(r, tok)
    requires tok in Run(d0, rs).value.a.d.agentTokens ==> forall r | r in more :: !ChecksToken(r, tok)
    ensures var d, d' := Run(d0, rs).value.a.d, Run(d0, rs + more).value.a.d;
            (tok in d'.agentTokens <==> tok in d.agentTokens)
            && (tok in d.agentTokens ==> d'.agentTokens[tok] == d.agentTokens[tok])
    decreases |more|
  {
    if more == [] {
      assert rs + more == rs;
    } else {
      var rest := more[..|more| - 1];
      assert (rs + more)[..|rs + more| - 1] == rs + rest && (rs + more)[|rs + more| - 1] == more[|more| - 1];
      TokenStays(d0, rs, rest, tok);
      TokenStaysAsItIs(Run(d0, rs + rest).value.a, more[|more| - 1], tok);
    }
  }

  /** An authenticated session mints a device token. Whatever other requests come in between, its first
      check before the expiry succeeds, and every later one fails, until the token is minted again. */
  lemma TokensWorkOnce(
    d0: Data, rs: seq<Request>, mint: Request, mid: seq<Request>, check: Request, more: seq<Request>, again: Request, tok: string)
    requires Run(d0, rs).Some? && Can(Run(d0, rs).value, mint)
    requires MintsToken(mint, tok) && RequireAuth(Run(d0, rs).value.a, mint.cookie, mint.now).Some?
    requires Run(d0, rs + [mint] + mid).Some? && Can(Run(d0, rs + [mint] + mid).value, check)
    requires ChecksToken(check, tok) && check.now < mint.now + mint.ttl
    requires Run(d0, rs + [mint] + mid + [check] + more).Some?
    requires forall r | r in mid + more :: !MintsToken(r, tok)
    requires forall r | r in mid :: !ChecksToken(r, tok)
    requires ChecksToken(again, tok)
    ensures Handle(Run(d0, rs + [mint] + mid).value.a, check).1 == Done
    ensures Handle(Run(d0, rs + [mint] + mid + [check] + more).value.a, again).1 == Refused(200)
  {
    Extend(d0, rs, mint);
    TokenStays(d0, rs + [mint], mid, tok);
    Extend(d0, rs + [mint] + mid, check);
    TokenStays(d0, rs + [mint] + mid + [check], more, tok);
  }
}
