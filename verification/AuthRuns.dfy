/** Runs of the identity service: who is authenticated, how often a ceremony is accepted, and which
    session identifiers are still good. */
module AuthRuns {
  import opened Protocol
  import opened Store
  import opened AuthState

  /** `clock` is the time of the last request; `made` every session identifier ever handed out. */
  datatype Sys = Sys(a: Auth, clock: Time, made: set<string>)

  /** A service that has opened a store with data `d0`. */
  function Start(d0: Data): Sys { Sys(Auth(d0, map[], 0), 0, {}) }

  /** Time does not go backwards, and `randomToken` returns fresh values. */
  predicate Can(s: Sys, r: Request) {
    && s.clock <= r.now
    && (r.RegisterBegin? || r.LoginBegin? ==> r.freshId !in s.made)
  }

  function Next(s: Sys, r: Request): Sys
    requires Can(s, r)
  {
    var a := Handle(s.a, r).0;
    Sys(a, r.now, s.made + a.sess.Keys)
  }

  function Run(d0: Data, rs: seq<Request>): Option<Sys> {
    if rs == [] then Some(Start(d0)) else
    var before := Run(d0, rs[..|rs| - 1]);
    var r := rs[|rs| - 1];
    if before.Some? && Can(before.value, r) then Some(Next(before.value, r)) else None
  }

  // ----- what a request did for a session -----

  /** The request began a ceremony on session `id`. */
  predicate Began(s: Sys, r: Request, id: string) {
    (r.RegisterBegin? || r.LoginBegin?) && Handle(s.a, r).1 == Done
    && Obtain(s.a.sess, r.cookie, r.now, r.freshId).0 == id
  }

  /** The request completed a registration, a login of a user without TOTP, or a TOTP step on `id`. */
  predicate Proved(s: Sys, r: Request, id: string) {
    || (r.RegisterFinish? && r.cookie == Some(id) && Handle(s.a, r).1 == Done)
    || (r.LoginFinish? && r.cookie == Some(id) && Handle(s.a, r).1 == Totp(false)
        && id in s.a.sess && s.a.sess[id].username in s.a.d.users && !HasTOTP(s.a.d.users[s.a.sess[id].username]))
    || (r.TotpVerify? && r.cookie == Some(id) && Handle(s.a, r).1 == Done && r.valid
        && id in s.a.sess && s.a.sess[id].username in s.a.d.users && HasTOTP(s.a.d.users[s.a.sess[id].username]))
  }

  /** Since the last begin on `id` there was a proof. */
  predicate Vouched(d0: Data, rs: seq<Request>, id: string)
    requires Run(d0, rs).Some?
  {
    if rs == [] then false else
    var before, r := rs[..|rs| - 1], rs[|rs| - 1];
    var s := Run(d0, before).value;
    !Began(s, r, id) && (Proved(s, r, id) || Vouched(d0, before, id))
  }

  /** Users are never removed, so the name that a session carries stays that of a stored user. */
  predicate Known(a: Auth) {
    forall id | id in a.sess ::
      if a.sess[id].username == "" then !a.sess[id].authenticated else a.sess[id].username in a.d.users
  }

  lemma HandleKeepsKnown(a: Auth, r: Request)
    requires Known(a)
    ensures Known(Handle(a, r).0)
  {
  }

  lemma {:induction false} AlwaysKnown(d0: Data, rs: seq<Request>)
    requires Run(d0, rs).Some?
    ensures Known(Run(d0, rs).value.a)
  {
    if rs != [] {
      AlwaysKnown(d0, rs[..|rs| - 1]);
      HandleKeepsKnown(Run(d0, rs[..|rs| - 1]).value.a, rs[|rs| - 1]);
    }
  }

  /** A request authenticates a session only by proving it, and never one that it begins. */
  lemma OnlyProofsAuthenticate(s: Sys, r: Request, id: string)
    requires Can(s, r) && id in Next(s, r).a.sess && Next(s, r).a.sess[id].authenticated
    ensures !Began(s, r, id)
    ensures Proved(s, r, id) || (id in s.a.sess && s.a.sess[id].authenticated)
  {
  }

  lemma {:induction false} AuthenticatedIsVouched(d0: Data, rs: seq<Request>, id: string)
    requires Run(d0, rs).Some? && id in Run(d0, rs).value.a.sess && Run(d0, rs).value.a.sess[id].authenticated
    ensures Vouched(d0, rs, id)
  {
    if rs != [] {
      var before, r := rs[..|rs| - 1], rs[|rs| - 1];
      var s := Run(d0, before).value;
      OnlyProofsAuthenticate(s, r, id);
      if id in s.a.sess && s.a.sess[id].authenticated { AuthenticatedIsVouched(d0, before, id); }
    }
  }

  predicate ProvedAt(d0: Data, rs: seq<Request>, i: nat, id: string) {
    i < |rs| && Run(d0, rs[..i]).Some? && Proved(Run(d0, rs[..i]).value, rs[i], id)
  }

  predicate NotBegunAt(d0: Data, rs: seq<Request>, i: nat, id: string) {
    i < |rs| && Run(d0, rs[..i]).Some? && !Began(Run(d0, rs[..i]).value, rs[i], id)
  }

  lemma Earlier(d0: Data, rs: seq<Request>, n: nat, i: nat, id: string)
    requires i < n <= |rs|
    ensures ProvedAt(d0, rs[..n], i, id) <==> ProvedAt(d0, rs, i, id)
    ensures NotBegunAt(d0, rs[..n], i, id) <==> NotBegunAt(d0, rs, i, id)
  {
    assert rs[..n][..i] == rs[..i];
  }

  lemma {:induction false} VouchedIsProved(d0: Data, rs: seq<Request>, id: string) returns (i: nat)
    requires Run(d0, rs).Some? && Vouched(d0, rs, id)
    ensures ProvedAt(d0, rs, i, id) && forall j | i < j < |rs| :: NotBegunAt(d0, rs, j, id)
  {
    var n := |rs| - 1;
    if Proved(Run(d0, rs[..n]).value, rs[n], id) {
      i := n;
    } else {
      i := VouchedIsProved(d0, rs[..n], id);
      Earlier(d0, rs, n, i, id);
      forall j | i < j < |rs|
        ensures NotBegunAt(d0, rs, j, id)
      {
        if j < n { Earlier(d0, rs, n, j, id); }
      }
    }
  }

  /** An authenticated session names a stored user, and at some request since its last begin call it was
      proved: by a finished registration, by a finished login of a user then without TOTP, or by an
      accepted code of a user with TOTP. */
  lemma AuthenticatedMeansProved(d0: Data, rs: seq<Request>, id: string)
    requires Run(d0, rs).Some? && id in Run(d0, rs).value.a.sess && Run(d0, rs).value.a.sess[id].authenticated
    ensures Run(d0, rs).value.a.sess[id].username in Run(d0, rs).value.a.d.users
    ensures exists i: nat :: ProvedAt(d0, rs, i, id) && forall j | i < j < |rs| :: NotBegunAt(d0, rs, j, id)
  {
    AlwaysKnown(d0, rs);
    AuthenticatedIsVouched(d0, rs, id);
    var i := VouchedIsProved(d0, rs, id);
  }

  // ----- ceremonies -----

  /** The ceremony that the request's finish accepted. */
  function Finished(a: Auth, r: Request): Option<nat> {
    if (r.RegisterFinish? && Handle(a, r).1 == Done) || (r.LoginFinish? && Handle(a, r).1.Totp?) then
      if r.cookie.Some? && r.cookie.value in a.sess then a.sess[r.cookie.value].ceremony else None
    else None
  }

  function AllFinished(d0: Data, rs: seq<Request>): seq<nat>
    requires Run(d0, rs).Some?
  {
    if rs == [] then [] else
    var before := rs[..|rs| - 1];
    var c := Finished(Run(d0, before).value.a, rs[|rs| - 1]);
    AllFinished(d0, before) + if c.Some? then [c.value] else []
  }

  /** Every ceremony under way is new, and belongs to one session. */
  predicate Pending(a: Auth, done: seq<nat>) {
    && (forall c | c in done :: c < a.begins)
    && (forall id | id in a.sess && a.sess[id].ceremony.Some? ::
          a.sess[id].ceremony.value < a.begins && a.sess[id].ceremony.value !in done)
    && (forall id, jd | id in a.sess && jd in a.sess && id != jd && a.sess[id].ceremony.Some? ::
          a.sess[id].ceremony != a.sess[jd].ceremony)
  }

  lemma BeginKeepsPending(a: Auth, r: Request, done: seq<nat>)
    requires Pending(a, done) && (r.RegisterBegin? || r.LoginBegin?) && r.freshId !in a.sess
    ensures Pending(Handle(a, r).0, done)
  {
    if r.LoginBegin? {
      StartKeepsPending(a, r.cookie, r.now, r.username, None, r.freshId, done);
    } else if Invited(a.d, r.invite, r.now) {
      var name := a.d.invites[r.invite].username;
      var a1 := if name in a.d.users then a else a.(d := After(a.d, Op.CreateUser(name, r.userId)));
      StartKeepsPending(a1, r.cookie, r.now, name, Some(r.invite), r.freshId, done);
    }
  }

  lemma StartKeepsPending(
    a: Auth, cookie: Option<string>, now: Time, name: string, invite: Option<string>, freshId: string, done: seq<nat>)
    requires Pending(a, done) && freshId !in a.sess
    ensures Pending(Begin(a, cookie, now, name, invite, freshId), done)
  {
    var (id, sess) := Obtain(a.sess, cookie, now, freshId);
    var a' := Begin(a, cookie, now, name, invite, freshId);
    assert a'.sess == sess[id := a'.sess[id]] && a'.sess[id].ceremony == Some(a.begins);
  }

  lemma FinishKeepsPending(a: Auth, r: Request, done: seq<nat>)
    requires Pending(a, done) && !r.RegisterBegin? && !r.LoginBegin?
    ensures var c := Finished(a, r);
            Pending(Handle(a, r).0, if c.Some? then done + [c.value] else done)
  {
  }

  lemma {:induction false} AlwaysPending(d0: Data, rs: seq<Request>)
    requires Run(d0, rs).Some?
    ensures Pending(Run(d0, rs).value.a, AllFinished(d0, rs)) && Distinct(AllFinished(d0, rs))
    ensures Run(d0, rs).value.a.sess.Keys <= Run(d0, rs).value.made
  {
    if rs != [] {
      var before, r := rs[..|rs| - 1], rs[|rs| - 1];
      AlwaysPending(d0, before);
      var a, done := Run(d0, before).value.a, AllFinished(d0, before);
      if r.RegisterBegin? || r.LoginBegin? {
        BeginKeepsPending(a, r, done);
        assert AllFinished(d0, rs) == done;
      } else {
        FinishKeepsPending(a, r, done);
        if Finished(a, r).None? { assert AllFinished(d0, rs) == done; }
      }
    }
  }

  /** Each ceremony set by a begin call is accepted by at most one finish. */
  lemma CeremoniesAreAcceptedOnce(d0: Data, rs: seq<Request>)
    requires Run(d0, rs).Some?
    ensures Distinct(AllFinished(d0, rs))
  {
    AlwaysPending(d0, rs);
  }

  /** The counterpart: a registration that could not be saved leaves its ceremony in place, to be
      finished by another call, and one that was saved uses it up. */
  lemma UnsavedRegistrationKeepsItsCeremony(a: Auth, cookie: Option<string>, now: Time, verdict: Option<Credential>, saved: bool)
    requires Get(a.sess, cookie, now).Some? && verdict.Some?
    requires var s := a.sess[cookie.value]; s.ceremony.Some? && s.username != "" && s.username in a.d.users
    ensures var a' := Handle(a, RegisterFinish(cookie, now, verdict, saved)).0;
            a'.sess[cookie.value].ceremony == a.sess[cookie.value].ceremony <==> !saved
  {
  }

  // ----- session identifiers -----

  lemma HandleKeepsExpiry(a: Auth, r: Request, id: string)
    requires id in Handle(a, r).0.sess && !((r.RegisterBegin? || r.LoginBegin?) && r.freshId == id)
    ensures id in a.sess && Handle(a, r).0.sess[id].expires == a.sess[id].expires
  {
  }

  /** An identifier that was handed out and is not good now stays out of the table, or expired in it. */
  lemma {:induction false} Hopeless(d0: Data, rs: seq<Request>, more: seq<Request>, id: string, now: Time)
    requires Run(d0, rs).Some? && Run(d0, rs + more).Some? && id in Run(d0, rs).value.made
    requires Get(Run(d0, rs).value.a.sess, Some(id), now).None?
    ensures id in Run(d0, rs + more).value.made
    ensures id in Run(d0, rs + more).value.a.sess ==> Run(d0, rs + more).value.a.sess[id].expires < now
    decreases |more|
  {
    if more == [] {
      assert rs + more == rs;
    } else {
      var rest, r := more[..|more| - 1], more[|more| - 1];
      assert (rs + more)[..|rs + more| - 1] == rs + rest && (rs + more)[|rs + more| - 1] == r;
      Hopeless(d0, rs, rest, id, now);
      if id in Run(d0, rs + more).value.a.sess { HandleKeepsExpiry(Run(d0, rs + rest).value.a, r, id); }
    }
  }

  /** An identifier that has expired or was destroyed is never good again. */
  lemma GoneForEver(d0: Data, rs: seq<Request>, more: seq<Request>, id: string, now: Time, later: Time)
    requires Run(d0, rs).Some? && Run(d0, rs + more).Some? && id in Run(d0, rs).value.made && now <= later
    requires Get(Run(d0, rs).value.a.sess, Some(id), now).None?
    ensures Get(Run(d0, rs + more).value.a.sess, Some(id), later).None?
  {
    Hopeless(d0, rs, more, id, now);
  }
}
