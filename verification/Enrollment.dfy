/** The broker with an auth URL, together with the store it asks: every device connection ever placed in
    `b.agents` has used up a check of its own that was accepted, and a token of its own as long as no
    process of the service forgets a deletion. */
module Enrollment {
  import opened Protocol
  import opened Threads
  import N = Network
  import M = Multiplexing
  import A = Attachments
  import S = Store
  import R = StoreRuns

  /** broker.go:226-242: the request may not arrive, and neither may the answer; `f` is what becomes of
      the save. */
  datatype Request = Unreachable | Served(now: S.Time, answered: bool, f: S.Fault)

  datatype Joint =
    | Network(act: N.Action)            // anything but a token check
    | Verify(k: ConnId, request: Request)
    | Service(e: R.Event)               // the store on its own: mints, checks by others, crashes, reopenings

  /** `paid` is a history: the position among the accepted checks of the one that let a connection in. */
  datatype State = State(net: N.Net, store: R.Sys, paid: map<ConnId, nat>)

  const START := State(N.START, R.FIRST, map[])

  predicate Verifying(net: N.Net, act: N.Action) {
    act.Broker? && act.k < |net.conns| && net.conns[act.k].b.BVerify?
  }

  function Check(net: N.Net, k: ConnId, request: Request): R.Event
    requires k < |net.conns| && request.Served?
  {
    R.Do(S.CheckAgentToken(net.conns[k].reg.token, request.now), request.f)
  }

  predicate Can(st: State, j: Joint) {
    match j
    case Network(act) => N.Enabled(st.net, act) && !Verifying(st.net, act)
    case Verify(k, request) => Verifying(st.net, N.Broker(k, true)) && (request.Served? ==> st.store.mem.Some?)
    case Service(e) => R.Can(st.store, e)
  }

  /** What checkAgentToken returns. */
  predicate Granted(st: State, k: ConnId, request: Request)
    requires Can(st, Verify(k, request))
  {
    request.Served? && request.answered && S.Accepts(st.store.mem.value, st.net.conns[k].reg.token, request.now)
  }

  function Next(st: State, j: Joint): State
    requires Can(st, j)
  {
    match j
    case Network(act) => st.(net := N.Next(st.net, act))
    case Verify(k, request) =>
      State(N.Next(st.net, N.Broker(k, Granted(st, k, request))),
            if request.Served? then R.Next(st.store, Check(st.net, k, request)) else st.store,
            if Granted(st, k, request) then st.paid[k := |st.store.wins|] else st.paid)
    case Service(e) => st.(store := R.Next(st.store, e))
  }

  function Run(js: seq<Joint>): Option<State> {
    if js == [] then Some(START) else
    var before := Run(js[..|js| - 1]);
    var j := js[|js| - 1];
    if before.Some? && Can(before.value, j) then Some(Next(before.value, j)) else None
  }

  /** The broker lets a device in exactly if the service was reached, its answer came back, and the store had
      the token before its expiry; the token is spent even if the answer is lost. */
  lemma ChecksDecide(st: State, k: ConnId, request: Request)
    requires Can(st, Verify(k, request))
    ensures var net, net', d := st.net, Next(st, Verify(k, request)).net,
                                if request.Served? then st.store.mem.value else S.EMPTY;
            var tok := net.conns[k].reg.token;
            && net'.conns[k].b
               == (if request.Served? && request.answered && tok in d.agentTokens && request.now < d.agentTokens[tok].expires
                   then BAttach else BReject)
            && (request.Served? && Next(st, Verify(k, request)).store.mem.Some? ==>
                  tok !in Next(st, Verify(k, request)).store.mem.value.agentTokens)
  {
  }

  // ----- the store's part of a run -----

  /** What the store sees of a step. */
  function Calls(st: State, j: Joint): seq<R.Event>
    requires Can(st, j)
  {
    match j
    case Network(_) => []
    case Verify(k, request) => if request.Served? then [Check(st.net, k, request)] else []
    case Service(e) => [e]
  }

  function AllCalls(js: seq<Joint>): seq<R.Event>
    requires Run(js).Some?
  {
    if js == [] then [] else
    AllCalls(js[..|js| - 1]) + Calls(Run(js[..|js| - 1]).value, js[|js| - 1])
  }

  lemma {:induction false} StoreRunsAlong(js: seq<Joint>)
    requires Run(js).Some?
    ensures R.Run(AllCalls(js)) == Some(Run(js).value.store)
  {
    if js != [] {
      var st, j := Run(js[..|js| - 1]).value, js[|js| - 1];
      StoreRunsAlong(js[..|js| - 1]);
      var before, calls := AllCalls(js[..|js| - 1]), Calls(st, j);
      if calls == [] { assert before + calls == before; } else { R.RunAppend(before, calls[0]); }
    }
  }

  /** A process of the service ended before the deletion of a token it had accepted reached the file. */
  ghost predicate Forgets(js: seq<Joint>)
    requires Run(js).Some?
  {
    StoreRunsAlong(js);
    R.Forgets(AllCalls(js))
  }

  /** No save fails, neither in a check by the broker nor anywhere else. */
  predicate SavesSucceed(js: seq<Joint>) {
    forall j | j in js ::
      && (j.Service? && j.e.Do? ==> j.e.f.NoFault?)
      && (j.Verify? && j.request.Served? ==> j.request.f.NoFault?)
  }

  /** The service never crashes or stops. */
  predicate StaysUp(js: seq<Joint>) {
    forall j | j in js :: j.Service? ==> !R.Dies(j.e)
  }

  lemma {:induction false} CallsOfRun(js: seq<Joint>)
    requires Run(js).Some?
    ensures SavesSucceed(js) ==> R.Faultless(AllCalls(js))
    ensures StaysUp(js) ==> R.Deathless(AllCalls(js))
  {
    if js != [] {
      CallsOfRun(js[..|js| - 1]);
      assert js[|js| - 1] in js;
    }
  }

  /** If no save fails, or the service stays up, nothing is forgotten. */
  lemma NothingIsForgotten(js: seq<Joint>)
    requires Run(js).Some? && (SavesSucceed(js) || StaysUp(js))
    ensures !Forgets(js)
    ensures SavesSucceed(js) ==> R.Run(AllCalls(js)).Some? && R.Pending(AllCalls(js)) == {}
  {
    StoreRunsAlong(js);
    CallsOfRun(js);
    if SavesSucceed(js) {
      R.FaultlessForgetsNothing(AllCalls(js));
    } else {
      R.DeathlessForgetsNothing(AllCalls(js));
    }
  }

  // ----- accepted checks that were turned into attachments -----

  /** The token of connection `k` was accepted: it is about to be placed in `b.agents`, or has been. */
  predicate Admitted(net: N.Net, k: ConnId) {
    k < |net.conns| &&
    (net.conns[k].b.BAttach? || N.Attachment(net.conns[k].reg.device, k) in net.log)
  }

  predicate Paid(st: State, k: ConnId) {
    Admitted(st.net, k) ==>
      k in st.paid && st.paid[k] < |st.store.wins| && st.store.wins[st.paid[k]] == st.net.conns[k].reg.token
  }

  predicate Apart(st: State, j: ConnId, k: ConnId) {
    j != k && Admitted(st.net, j) && Admitted(st.net, k) && j in st.paid && k in st.paid ==> st.paid[j] != st.paid[k]
  }

  ghost predicate Inv(st: State) {
    && A.Logged(st.net)
    && (forall k | 0 <= k < |st.net.conns| :: Paid(st, k))
    && (forall j, k | 0 <= j < |st.net.conns| && 0 <= k < |st.net.conns| :: Apart(st, j, k))
  }

  lemma WinsGrow(s: R.Sys, e: R.Event)
    requires R.Can(s, e)
    ensures s.wins <= R.Next(s, e).wins
  {
  }

  /** A step of the network other than a granted check admits nobody, and registrations stay as they are. */
  predicate AdmitsNobody(net: N.Net, net': N.Net) {
    && |net.conns| <= |net'.conns|
    && forall k | 0 <= k < |net'.conns| && Admitted(net', k) :: Admitted(net, k) && net'.conns[k].reg == net.conns[k].reg
  }

  /** A step that neither attaches nor starts a handler leaves broker-side fields in place. */
  predicate SameDesk(net: N.Net, net': N.Net) {
    && |net.conns| <= |net'.conns| && net'.log == net.log
    && (forall k | 0 <= k < |net.conns| :: net'.conns[k].b == net.conns[k].b && net'.conns[k].reg == net.conns[k].reg)
    && (forall k | |net.conns| <= k < |net'.conns| :: net'.conns[k].b.BRegister?)
  }

  lemma SameDeskAdmitsNobody(net: N.Net, net': N.Net)
    requires SameDesk(net, net') && A.Logged(net)
    ensures AdmitsNobody(net, net')
  {
  }

  lemma AgentKeepsDesk(net: N.Net, k: ConnId, ok: bool, n: nat)
    requires N.Enabled(net, N.Agent(k, ok, n))
    ensures SameDesk(net, N.Next(net, N.Agent(k, ok, n)))
  {
    if AgentSubject(net.conns[k].a).None? && !net.conns[k].a.AStop? { A.AgentAloneIsNeutral(net.conns[k], ok); }
  }

  lemma OtherKeepsDesk(net: N.Net, act: N.Action)
    requires N.Enabled(net, act) && !act.Agent? && !act.Broker?
    ensures SameDesk(net, N.Next(net, act))
  {
  }

  /** A handler moves on, without a placement and not towards one. */
  lemma RewriteAdmitsNobody(net: N.Net, net': N.Net, k: ConnId, c: N.Conn)
    requires A.Logged(net) && k < |net.conns| && net'.conns == net.conns[k := c] && net'.log == net.log
    requires (c.reg == net.conns[k].reg || net.conns[k].b.BRegister?) && !c.b.BAttach?
    ensures AdmitsNobody(net, net')
  {
  }

  lemma ServingAdmitsNobody(net: N.Net, k: ConnId, ok: bool)
    requires N.Enabled(net, N.Broker(k, ok)) && A.Logged(net) && BrokerSubject(net.conns[k].b).Some?
    ensures AdmitsNobody(net, N.Next(net, N.Broker(k, ok)))
  {
    var c, s := net.conns[k], BrokerSubject(net.conns[k].b).value;
    RewriteAdmitsNobody(net, N.Next(net, N.Broker(k, ok)), k, c.(b := BrokerGoes(c.b, s in net.sessions)));
  }

  lemma TableStepAdmitsNobody(net: N.Net, k: ConnId, ok: bool)
    requires N.Enabled(net, N.Broker(k, ok)) && A.Logged(net) && M.TablePc(net.conns[k].b)
    ensures AdmitsNobody(net, N.Next(net, N.Broker(k, ok)))
  {
    RewriteAdmitsNobody(net, N.Next(net, N.Broker(k, ok)), k, N.Next(net, N.Broker(k, ok)).conns[k]);
  }

  lemma AloneStep(c: N.Conn, ok: bool)
    requires BrokerSubject(c.b).None? && !c.b.BAttach? && !M.TablePc(c.b) && (c.b.BVerify? ==> !ok)
    requires (c.b.BRegister? || c.b.BServe?) && ok ==> c.toBroker != []
    ensures var c' := N.BrokerAlone(c, ok); (c'.reg == c.reg || c.b.BRegister?) && !c'.b.BAttach?
  {
  }

  lemma AloneAdmitsNobody(net: N.Net, k: ConnId, ok: bool)
    requires N.Enabled(net, N.Broker(k, ok)) && A.Logged(net) && BrokerSubject(net.conns[k].b).None?
    requires !net.conns[k].b.BAttach? && !M.TablePc(net.conns[k].b) && (net.conns[k].b.BVerify? ==> !ok)
    ensures AdmitsNobody(net, N.Next(net, N.Broker(k, ok)))
  {
    AloneStep(net.conns[k], ok);
    RewriteAdmitsNobody(net, N.Next(net, N.Broker(k, ok)), k, N.BrokerAlone(net.conns[k], ok));
  }

  lemma PlacingAdmitsNobody(net: N.Net, k: ConnId, ok: bool)
    requires N.Enabled(net, N.Broker(k, ok)) && A.Logged(net) && M.Owned(net) && net.conns[k].b.BAttach?
    ensures AdmitsNobody(net, N.Next(net, N.Broker(k, ok)))
  {
    A.AttachIsStep(net, k, ok);
  }

  lemma BrokerAdmitsNobody(net: N.Net, k: ConnId, ok: bool)
    requires N.Enabled(net, N.Broker(k, ok)) && A.Logged(net) && M.Owned(net)
    requires net.conns[k].b.BVerify? ==> !ok
    ensures AdmitsNobody(net, N.Next(net, N.Broker(k, ok)))
  {
    if BrokerSubject(net.conns[k].b).Some? { ServingAdmitsNobody(net, k, ok); }
    else if net.conns[k].b.BAttach? { PlacingAdmitsNobody(net, k, ok); }
    else if M.TablePc(net.conns[k].b) { TableStepAdmitsNobody(net, k, ok); }
    else { AloneAdmitsNobody(net, k, ok); }
  }

  lemma NetworkKeeps(st: State, act: N.Action)
    requires Inv(st) && M.Owned(st.net) && Can(st, Network(act))
    ensures AdmitsNobody(st.net, N.Next(st.net, act))
  {
    match act
    case Broker(k, ok) => BrokerAdmitsNobody(st.net, k, ok);
    case Agent(k, ok, n) => AgentKeepsDesk(st.net, k, ok, n); SameDeskAdmitsNobody(st.net, N.Next(st.net, act));
    case _ => OtherKeepsDesk(st.net, act); SameDeskAdmitsNobody(st.net, N.Next(st.net, act));
  }

  lemma StillPaid(st: State, st': State)
    requires Inv(st) && AdmitsNobody(st.net, st'.net) && st.store.wins <= st'.store.wins && st'.paid == st.paid
    ensures forall k | 0 <= k < |st'.net.conns| :: Paid(st', k)
    ensures forall j, k | 0 <= j < |st'.net.conns| && 0 <= k < |st'.net.conns| :: Apart(st', j, k)
  {
    forall k | 0 <= k < |st'.net.conns|
      ensures Paid(st', k)
    {
      if Admitted(st'.net, k) { assert Paid(st, k); }
    }
    forall j, k | 0 <= j < |st'.net.conns| && 0 <= k < |st'.net.conns|
      ensures Apart(st', j, k)
    {
      if Admitted(st'.net, j) && Admitted(st'.net, k) { assert Apart(st, j, k); }
    }
  }

  lemma GrantKeeps(st: State, k: ConnId, request: Request)
    requires Inv(st) && Can(st, Verify(k, request)) && Granted(st, k, request)
    ensures var st' := Next(st, Verify(k, request));
            && (forall j | 0 <= j < |st'.net.conns| :: Paid(st', j))
            && (forall i, j | 0 <= i < |st'.net.conns| && 0 <= j < |st'.net.conns| :: Apart(st', i, j))
  {
    var st' := Next(st, Verify(k, request));
    assert st'.store.wins == st.store.wins + [st.net.conns[k].reg.token];
    assert st'.net.conns == st.net.conns[k := st.net.conns[k].(b := BAttach)];
    forall j | 0 <= j < |st'.net.conns|
      ensures Paid(st', j)
    {
      assert Paid(st, j);
    }
    forall i, j | 0 <= i < |st'.net.conns| && 0 <= j < |st'.net.conns|
      ensures Apart(st', i, j)
    {
      assert Apart(st, i, j) && Paid(st, i) && Paid(st, j);
    }
  }

  lemma KeepsLogged(net: N.Net, act: N.Action)
    requires A.Attached(net) && M.Owned(net) && N.Enabled(net, act)
    ensures A.Attached(N.Next(net, act)) && M.Owned(N.Next(net, act))
  {
    A.KeepsAttached(net, act);
    M.KeepsOwned(net, act);
  }

  lemma {:induction false} Reachable(js: seq<Joint>)
    requires Run(js).Some?
    ensures Inv(Run(js).value) && A.Attached(Run(js).value.net) && M.Owned(Run(js).value.net)
  {
    if js != [] {
      Reachable(js[..|js| - 1]);
      KeepsInv(Run(js[..|js| - 1]).value, js[|js| - 1]);
    }
  }

  lemma KeepsInv(st: State, j: Joint)
    requires Inv(st) && A.Attached(st.net) && M.Owned(st.net) && Can(st, j)
    ensures Inv(Next(st, j)) && A.Attached(Next(st, j).net) && M.Owned(Next(st, j).net)
  {
    match j
    case Network(act) =>
      NetworkKeeps(st, act);
      KeepsLogged(st.net, act);
      StillPaid(st, Next(st, j));
    case Service(e) =>
      WinsGrow(st.store, e);
      StillPaid(st, Next(st, j));
    case Verify(k, request) =>
      KeepsLogged(st.net, N.Broker(k, Granted(st, k, request)));
      if Granted(st, k, request) {
        GrantKeeps(st, k, request);
      } else {
        BrokerAdmitsNobody(st.net, k, false);
        if request.Served? { WinsGrow(st.store, Check(st.net, k, request)); }
        StillPaid(st, Next(st, j));
      }
  }

  // ----- what this means -----

  /** The connections ever placed in `b.agents`. */
  function Placed(net: N.Net): set<ConnId> { set a | a in net.log :: a.conn }

  /** In every run, whatever saves fail and whenever the service crashes, there is an injection from the
      connections ever placed in `b.agents` to the accepted checks, each of the connection's own token. */
  lemma EveryAttachmentHadACheck(js: seq<Joint>)
    requires Run(js).Some?
    ensures var st := Run(js).value;
            && (forall k | k in Placed(st.net) ::
                  && k < |st.net.conns| && k in st.paid && st.paid[k] < |st.store.wins|
                  && st.store.wins[st.paid[k]] == st.net.conns[k].reg.token)
            && (forall j, k | j in Placed(st.net) && k in Placed(st.net) && j != k :: st.paid[j] != st.paid[k])
  {
    Reachable(js);
    var st := Run(js).value;
    forall k | k in Placed(st.net)
      ensures k < |st.net.conns| && Admitted(st.net, k) && Paid(st, k)
    {
    }
    forall j, k | j in Placed(st.net) && k in Placed(st.net) && j != k
      ensures st.paid[j] != st.paid[k]
    {
      assert Apart(st, j, k);
    }
  }

  /** In every run in which the service forgets no deletion, the tokens of these connections are pairwise
      different; each was minted, the service no longer has it in memory, and it is in the file only while
      its deletion waits for the next rename. */
  lemma EveryAttachmentSpentAToken(js: seq<Joint>)
    requires Run(js).Some? && !Forgets(js)
    ensures var st := Run(js).value;
            && (forall k | k in Placed(st.net) :: k < |st.net.conns|)
            && (forall k | k in Placed(st.net) ::
                  var tok := st.net.conns[k].reg.token;
                  && tok in st.store.minted
                  && (st.store.mem.Some? ==> tok !in st.store.mem.value.agentTokens)
                  && R.Run(AllCalls(js)).Some?
                  && (tok in st.store.renamed.agentTokens <==> tok in R.Pending(AllCalls(js))))
            && (forall j, k | j in Placed(st.net) && k in Placed(st.net) && j != k ::
                  st.net.conns[j].reg.token != st.net.conns[k].reg.token)
  {
    EveryAttachmentHadACheck(js);
    StoreRunsAlong(js);
    R.SingleUse(AllCalls(js));
    var st := Run(js).value;
    forall j, k | j in Placed(st.net) && k in Placed(st.net) && j != k
      ensures st.net.conns[j].reg.token != st.net.conns[k].reg.token
    {
      var a, b := st.paid[j], st.paid[k];
      if a < b { assert st.store.wins[a] != st.store.wins[b]; } else { assert st.store.wins[b] != st.store.wins[a]; }
    }
  }

  /** If no save fails, those tokens are also gone from the file. */
  lemma SpentTokensAreGone(js: seq<Joint>, k: ConnId)
    requires Run(js).Some? && SavesSucceed(js) && k in Placed(Run(js).value.net)
    ensures var st := Run(js).value;
            k < |st.net.conns| && st.net.conns[k].reg.token !in st.store.renamed.agentTokens
  {
    NothingIsForgotten(js);
    EveryAttachmentSpentAToken(js);
  }

  lemma {:induction false} Injection(ks: set<ConnId>, conns: seq<N.Conn>, tokens: set<string>)
    requires forall k | k in ks :: k < |conns| && conns[k].reg.token in tokens
    requires forall j, k | j in ks && k in ks && j != k :: conns[j].reg.token != conns[k].reg.token
    ensures |ks| <= |tokens|
  {
    if ks != {} {
      var k :| k in ks;
      Injection(ks - {k}, conns, tokens - {conns[k].reg.token});
    }
  }

  /** In such runs attachments never outnumber minted tokens. */
  lemma AttachmentsAreCounted(js: seq<Joint>)
    requires Run(js).Some? && !Forgets(js)
    ensures |Placed(Run(js).value.net)| <= |Run(js).value.store.minted.Keys|
  {
    EveryAttachmentSpentAToken(js);
    var st := Run(js).value;
    Injection(Placed(st.net), st.net.conns, st.store.minted.Keys);
  }
}
