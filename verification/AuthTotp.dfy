/** TOTP as a step-up (server.go:196): totpVerify asks for a name and a code, and not for a finished login
    (server.go:207-226). Whether there was one can be read off the session's ceremony. */
module AuthTotp {
  import opened Protocol
  import opened Store
  import opened AuthState
  import opened AuthRuns
  import T = AuthTrust

  /** The request finished a login or a registration on session `id`. */
  predicate Ended(s: Sys, r: Request, id: string) {
    || (r.RegisterFinish? && r.cookie == Some(id) && Handle(s.a, r).1 == Done)
    || (r.LoginFinish? && r.cookie == Some(id) && Handle(s.a, r).1.Totp?)
  }

  predicate EndedAt(d0: Data, rs: seq<Request>, i: nat, id: string) {
    i < |rs| && Run(d0, rs[..i]).Some? && Ended(Run(d0, rs[..i]).value, rs[i], id)
  }

  /** At request `i` a login or registration was finished, and none was begun since. */
  predicate EndedSince(d0: Data, rs: seq<Request>, i: nat, id: string) {
    EndedAt(d0, rs, i, id) && forall j | i < j < |rs| :: NotBegunAt(d0, rs, j, id)
  }

  lemma EndedEarlier(d0: Data, rs: seq<Request>, i: nat, id: string)
    requires rs != [] && i < |rs| - 1
    ensures EndedSince(d0, rs, i, id)
            <==> EndedSince(d0, rs[..|rs| - 1], i, id) && NotBegunAt(d0, rs, |rs| - 1, id)
  {
    var n := |rs| - 1;
    assert rs[..n][..i] == rs[..i];
    forall j | i < j < n
      ensures NotBegunAt(d0, rs[..n], j, id) <==> NotBegunAt(d0, rs, j, id)
    {
      Earlier(d0, rs, n, j, id);
    }
  }

  /** One request, on a session that it does not begin: the ceremony goes exactly if it is finished. */
  lemma CeremonyStep(s: Sys, r: Request, id: string)
    requires Can(s, r) && id in AuthRuns.Next(s, r).a.sess
    ensures Began(s, r, id) ==> AuthRuns.Next(s, r).a.sess[id].ceremony.Some? && !Ended(s, r, id)
    ensures !Began(s, r, id) ==>
              && id in s.a.sess
              && (AuthRuns.Next(s, r).a.sess[id].ceremony.None? <==> Ended(s, r, id) || s.a.sess[id].ceremony.None?)
  {
  }

  /** A session has no ceremony under way exactly if a login or registration on it has been finished since
      the last one was begun. In particular, an authenticated session of a user with TOTP has had a
      finished login since its last begin exactly if its ceremony is gone. */
  lemma {:induction false} CeremonyTellsOfTheLogin(d0: Data, rs: seq<Request>, id: string)
    requires Run(d0, rs).Some? && id in Run(d0, rs).value.a.sess
    ensures Run(d0, rs).value.a.sess[id].ceremony.None? <==> exists i: nat :: EndedSince(d0, rs, i, id)
  {
    if rs == [] {
      assert false;
    } else {
      var n := |rs| - 1;
      var s, r := Run(d0, rs[..n]).value, rs[n];
      CeremonyStep(s, r, id);
      if !Began(s, r, id) {
        CeremonyTellsOfTheLogin(d0, rs[..n], id);
        assert NotBegunAt(d0, rs, n, id);
        if Ended(s, r, id) {
          assert EndedSince(d0, rs, n, id);
        } else if s.a.sess[id].ceremony.None? {
          var i: nat :| EndedSince(d0, rs[..n], i, id);
          EndedEarlier(d0, rs, i, id);
        }
      }
      forall i: nat | EndedSince(d0, rs, i, id)
        ensures Run(d0, rs).value.a.sess[id].ceremony.None?
      {
        if i < n {
          EndedEarlier(d0, rs, i, id);
          assert EndedSince(d0, rs[..n], i, id);
        }
      }
    }
  }

  /** A login that is begun and not finished, then a code: the session is authenticated, its ceremony
      still under way. */
  lemma CodeWithoutLogin(d0: Data, name: string, id: string, now: Time)
    requires name in d0.users && name != "" && HasTOTP(d0.users[name]) && 0 <= now
    ensures var rs := [LoginBegin(None, now, name, id, true), TotpVerify(Some(id), now, true)];
            && Run(d0, rs).Some?
            && var a := Run(d0, rs).value.a;
               && RequireAuth(a, Some(id), now) == Some(id) && a.sess[id].username == name
               && a.sess[id].ceremony.Some? && !exists i: nat :: EndedSince(d0, rs, i, id)
  {
    var r1, r2 := LoginBegin(None, now, name, id, true), TotpVerify(Some(id), now, true);
    T.Extend(d0, [], r1);
    assert [] + [r1] == [r1] && [r1] + [r2] == [r1, r2];
    T.Extend(d0, [r1], r2);
    CeremonyTellsOfTheLogin(d0, [r1, r2], id);
  }
}
