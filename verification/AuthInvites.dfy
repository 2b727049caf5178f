/** How often an invite is spent. The comment at store.go:129 calls invites single-use; registerFinish
    ignores the result of ConsumeInvite (server.go:138), so an invite is spent once for each session that
    carries it. */
module AuthInvites {
  import opened Protocol
  import opened Store
  import opened AuthState
  import opened AuthRuns
  import T = AuthTrust

  /** The session will spend `t` when it finishes a registration; LoginBegin does not change that. */
  predicate Carries(a: Auth, id: string, t: string) { id in a.sess && a.sess[id].pendingInvite == t }

  /** The request finishes a registration and spends `t`. */
  predicate Spends(a: Auth, r: Request, t: string) {
    r.RegisterFinish? && Handle(a, r).1 == Done && r.cookie.Some? && Carries(a, r.cookie.value, t)
  }

  /** `randomToken` does not return `t` again. */
  predicate NotMinted(rs: seq<Request>, t: string) {
    forall r | r in rs :: r.MintInvite? ==> r.tok != t
  }

  lemma SpentInvitesAreGone(a: Auth, r: Request, t: string)
    requires t != "" && Spends(a, r, t)
    ensures t !in Handle(a, r).0.d.invites && !Carries(Handle(a, r).0, r.cookie.value, t)
  {
  }

  /** Nobody begins with an invite that is gone, so whoever carries it has carried it before. */
  lemma NoNewCarrier(a: Auth, r: Request, t: string, id: string)
    requires t != "" && t !in a.d.invites && (r.MintInvite? ==> r.tok != t)
    ensures t !in Handle(a, r).0.d.invites
    ensures Carries(Handle(a, r).0, id, t) ==> Carries(a, id, t) && Handle(a, r).0.sess[id].expires == a.sess[id].expires
  {
  }

  /** A session other than that of the finish `r1` carries `t` and has not expired. */
  predicate Rival(a: Auth, r1: Request, t: string, id: string) {
    r1.RegisterFinish? && r1.cookie != Some(id) && Carries(a, id, t) && r1.now <= a.sess[id].expires
  }

  lemma {:induction false} CarriersAreRivals(d0: Data, rs: seq<Request>, r1: Request, more: seq<Request>, t: string, id: string)
    requires t != "" && Run(d0, rs).Some? && Run(d0, rs + [r1]).Some? && Run(d0, rs + [r1] + more).Some?
    requires Spends(Run(d0, rs).value.a, r1, t) && NotMinted(more, t)
    ensures t !in Run(d0, rs + [r1] + more).value.a.d.invites
    ensures var a, a' := Run(d0, rs).value.a, Run(d0, rs + [r1] + more).value.a;
            Carries(a', id, t) ==> Carries(a, id, t) && r1.cookie != Some(id) && a'.sess[id].expires == a.sess[id].expires
    decreases |more|
  {
    var all := rs + [r1] + more;
    if more == [] {
      assert all == rs + [r1] && all[..|all| - 1] == rs;
      SpentInvitesAreGone(Run(d0, rs).value.a, r1, t);
    } else {
      var rest := more[..|more| - 1];
      assert all[..|all| - 1] == rs + [r1] + rest && all[|all| - 1] == more[|more| - 1];
      CarriersAreRivals(d0, rs, r1, rest, t, id);
      NoNewCarrier(Run(d0, rs + [r1] + rest).value.a, more[|more| - 1], t, id);
    }
  }

  lemma {:induction false} ClockRuns(d0: Data, rs: seq<Request>, more: seq<Request>)
    requires Run(d0, rs).Some? && Run(d0, rs + more).Some?
    ensures Run(d0, rs).value.clock <= Run(d0, rs + more).value.clock
    decreases |more|
  {
    if more == [] {
      assert rs + more == rs;
    } else {
      assert (rs + more)[..|rs + more| - 1] == rs + more[..|more| - 1];
      ClockRuns(d0, rs, more[..|more| - 1]);
    }
  }

  /** After the finish `r1` spent `t`, the finish `r2` spends it again. */
  predicate SpendsAgain(d0: Data, rs: seq<Request>, r1: Request, more: seq<Request>, r2: Request, t: string) {
    && Run(d0, rs + [r1] + more).Some? && NotMinted(more, t)
    && Can(Run(d0, rs + [r1] + more).value, r2) && Spends(Run(d0, rs + [r1] + more).value.a, r2, t)
  }

  lemma SecondSpendingHasARival(d0: Data, rs: seq<Request>, r1: Request, more: seq<Request>, r2: Request, t: string)
    requires t != "" && Run(d0, rs).Some? && Can(Run(d0, rs).value, r1) && Spends(Run(d0, rs).value.a, r1, t)
    requires SpendsAgain(d0, rs, r1, more, r2, t)
    ensures Rival(Run(d0, rs).value.a, r1, t, r2.cookie.value)
  {
    T.Extend(d0, rs, r1);
    CarriersAreRivals(d0, rs, r1, more, t, r2.cookie.value);
    ClockRuns(d0, rs + [r1], more);
  }

  /** A rival that has a registration of its own under way finishes it next. */
  lemma RivalFinishes(d0: Data, rs: seq<Request>, r1: Request, t: string, id: string, cred: Credential)
    requires t != "" && Run(d0, rs).Some? && Can(Run(d0, rs).value, r1) && Spends(Run(d0, rs).value.a, r1, t)
    requires Rival(Run(d0, rs).value.a, r1, t, id)
    requires var s := Run(d0, rs).value.a.sess[id];
             s.ceremony.Some? && s.username != "" && s.username in Run(d0, rs).value.a.d.users
    ensures SpendsAgain(d0, rs, r1, [], RegisterFinish(Some(id), r1.now, Some(cred), true), t)
  {
    T.Extend(d0, rs, r1);
    assert rs + [r1] + [] == rs + [r1];
  }

  /** Any rival can get there by way of a login. */
  lemma RivalSpendsAgain(d0: Data, rs: seq<Request>, r1: Request, t: string, id: string) returns (more: seq<Request>, r2: Request)
    requires t != "" && Run(d0, rs).Some? && Can(Run(d0, rs).value, r1) && Spends(Run(d0, rs).value.a, r1, t)
    requires Rival(Run(d0, rs).value.a, r1, t, id)
    ensures SpendsAgain(d0, rs, r1, more, r2, t)
  {
    var a := Run(d0, rs).value.a;
    T.Extend(d0, rs, r1);
    var freshId := FreshName(Run(d0, rs + [r1]).value.made);
    var login := LoginBegin(Some(id), r1.now, a.sess[r1.cookie.value].username, freshId, true);
    more := [login];
    r2 := RegisterFinish(Some(id), r1.now, Some(Credential([], 0)), true);
    T.Extend(d0, rs + [r1], login);
  }

  /** An invite that has been spent is spent again in some continuation, without being minted again,
      exactly if another session that has not expired carried it at the first finish. */
  lemma InvitesAreSpentOncePerCarrier(d0: Data, rs: seq<Request>, r1: Request, t: string)
    requires t != "" && Run(d0, rs).Some? && Can(Run(d0, rs).value, r1) && Spends(Run(d0, rs).value.a, r1, t)
    ensures (exists more: seq<Request>, r2: Request :: SpendsAgain(d0, rs, r1, more, r2, t))
            <==> (exists id: string :: Rival(Run(d0, rs).value.a, r1, t, id))
  {
    var a := Run(d0, rs).value.a;
    if more: seq<Request>, r2: Request :| SpendsAgain(d0, rs, r1, more, r2, t) {
      SecondSpendingHasARival(d0, rs, r1, more, r2, t);
      assert Rival(a, r1, t, r2.cookie.value);
    }
    if id: string :| Rival(a, r1, t, id) {
      var more, r2 := RivalSpendsAgain(d0, rs, r1, t, id);
    }
  }

  // ----- one invite, two registrations -----

  function TwoBegins(invite: string, id1: string, id2: string, userId: Bytes, now: Time): seq<Request> {
    [RegisterBegin(None, now, invite, id1, userId, true, true), RegisterBegin(None, now, invite, id2, userId, true, true)]
  }

  /** The session of a newcomer who has begun with `invite`. */
  function Newcomer(name: string, n: nat, invite: string, now: Time): Login {
    Login(name, false, Some(n), invite, "", now + LIFETIME)
  }

  lemma BothBegin(d0: Data, invite: string, id1: string, id2: string, userId: Bytes, now: Time)
    requires Invited(d0, invite, now) && 0 <= now && id1 != id2
    requires d0.invites[invite].username != "" && d0.invites[invite].username !in d0.users
    ensures var rs := TwoBegins(invite, id1, id2, userId, now);
            && Run(d0, rs).Some? && Run(d0, rs).value.clock == now
            && var a := Run(d0, rs).value.a;
               var name := d0.invites[invite].username;
               && a.d == d0.(users := d0.users[name := User(userId, name, [], "")])
               && a.sess == map[id1 := Newcomer(name, 0, invite, now), id2 := Newcomer(name, 1, invite, now)]
  {
    var rs := TwoBegins(invite, id1, id2, userId, now);
    var name := d0.invites[invite].username;
    T.Extend(d0, [], rs[0]);
    assert [] + [rs[0]] == [rs[0]] && [rs[0]] + [rs[1]] == rs;
    var a1 := Run(d0, [rs[0]]).value.a;
    T.Begins(d0, invite, id1, userId, now);
    assert a1.sess == map[id1 := Newcomer(name, 0, invite, now)];
    T.Extend(d0, [rs[0]], rs[1]);
  }

  /** Two ceremonies begun with one invite both finish: each of the four requests succeeds, both sessions
      are authenticated, and the invite was gone before the last request. */
  lemma OneInviteTwoRegistrations(d0: Data, invite: string, id1: string, id2: string, userId: Bytes, now: Time, cred: Credential)
    requires Invited(d0, invite, now) && 0 <= now && id1 != id2
    requires d0.invites[invite].username != "" && d0.invites[invite].username !in d0.users && invite != ""
    ensures var rs := TwoBegins(invite, id1, id2, userId, now);
            var r3, r4 := RegisterFinish(Some(id1), now, Some(cred), true), RegisterFinish(Some(id2), now, Some(cred), true);
            && Run(d0, rs).Some? && Run(d0, rs + [r3]).Some? && Run(d0, rs + [r3] + [r4]).Some?
            && var a2, a3, a4 := Run(d0, rs).value.a, Run(d0, rs + [r3]).value.a, Run(d0, rs + [r3] + [r4]).value.a;
               && Spends(a2, r3, invite) && Spends(a3, r4, invite)
               && invite in a2.d.invites && invite !in a3.d.invites
               && RequireAuth(a4, Some(id1), now) == Some(id1) && RequireAuth(a4, Some(id2), now) == Some(id2)
  {
    var rs := TwoBegins(invite, id1, id2, userId, now);
    var r3, r4 := RegisterFinish(Some(id1), now, Some(cred), true), RegisterFinish(Some(id2), now, Some(cred), true);
    BothBegin(d0, invite, id1, id2, userId, now);
    T.Extend(d0, rs, r3);
    FirstFinishes(Run(d0, rs).value.a, r3, id2, invite);
    T.Extend(d0, rs + [r3], r4);
    T.OthersAreUntouched(Run(d0, rs + [r3]).value.a, r4, id1);
  }

  lemma FirstFinishes(a: Auth, r: Request, id2: string, invite: string)
    requires r.RegisterFinish? && r.cookie.Some? && r.cookie.value in a.sess && r.saved && r.verdict.Some?
    requires r.now <= a.sess[r.cookie.value].expires && a.sess[r.cookie.value].ceremony.Some?
    requires a.sess[r.cookie.value].username in a.d.users && a.sess[r.cookie.value].username != ""
    requires a.sess[r.cookie.value].pendingInvite == invite && invite != ""
    requires id2 in a.sess && r.cookie != Some(id2)
    ensures Spends(a, r, invite)
    ensures var a' := Handle(a, r).0;
            && invite !in a'.d.invites && id2 in a'.sess && a'.sess[id2] == a.sess[id2]
            && RequireAuth(a', r.cookie, r.now) == r.cookie && a.d.users.Keys <= a'.d.users.Keys
  {
  }
}
