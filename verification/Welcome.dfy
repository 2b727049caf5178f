/** What an agent is told first. `b.agents` is published before `registered` is sent (broker.go:128 and
    134), so an `open` can get in front of it. */
module Welcome {
  import opened Protocol
  import opened Threads
  import opened Lane
  import opened Network
  import opened LaneSafety
  import opened Multiplexing
  import opened Sessions
  import A = Attachments
  import T = BrokerTables

  // ----- before the broker has answered -----

  /** The handler has sent neither `registered` nor an error. */
  predicate Unanswered(b: BrokerPc) {
    b.BRegister? || b.BVerify? || b.BReject? || b.BAttach? || b.BAdd? || b.BAnnounce?
  }

  /** The handler has sent `registered`, or had the chance to. */
  predicate Announced(b: BrokerPc) {
    b.BServe? || b.BGot? || b.BDeliver? || b.BHangup? || b.BDetach? || b.BRemove? || b.BDone?
  }

  /** The agent serves, or has served and is stopping. */
  predicate Served(a: AgentPc) { !a.ARegister? && !a.AAwait? && !a.ALeft? }

  /** Until the broker answers, only sessions speak on the channel. An agent serves, or is about to be
      told to, only if its connection has been placed in `b.agents` and announced. */
  predicate Polite(c: Conn, placed: bool) {
    && (Unanswered(c.b) ==> forall i | 0 <= i < |c.toAgent| :: Subject(c.toAgent[i]).Some?)
    && (Served(c.a) || Registered in c.toAgent ==> placed && Announced(c.b))
  }

  /** Connection `k` has been placed in `b.agents`. */
  predicate Placed(st: Net, k: ConnId) {
    k < |st.conns| && Attachment(st.conns[k].reg.device, k) in st.log
  }

  lemma QueuesKeepPolite(c: Conn, c': Conn, placed: bool, m: Option<Msg>)
    requires Polite(c, placed) && c' == c.(toAgent := Post(c.toAgent, m), toBroker := c'.toBroker, shells := c'.shells)
    requires m.Some? ==> Subject(m.value).Some?
    ensures Polite(c', placed)
  {
  }

  lemma AgentAloneKeepsPolite(c: Conn, placed: bool, ok: bool)
    requires Polite(c, placed) && ((c.a.AAwait? || c.a.AServe?) && ok ==> c.toAgent != [])
    requires AgentSubject(c.a).None? && !c.a.AStop? && !c.a.ALeft?
    ensures Polite(AgentAlone(c, ok), placed)
  {
  }

  lemma AgentServesPolite(c: Conn, placed: bool, x: Sess, s: SessionId, ok: bool)
    requires Polite(c, placed) && AgentSubject(c.a) == Some(s)
    ensures Polite(AgentConn(c, x, s, ok), placed)
  {
  }

  /** `placed'` is what holds after the step: reading `register` may name another device. */
  lemma BrokerAloneKeepsPolite(c: Conn, placed: bool, placed': bool, ok: bool)
    requires Polite(c, placed) && (c.b.BAnnounce? ==> placed) && (!c.b.BRegister? ==> placed' == placed)
    requires BrokerSubject(c.b).None? && !c.b.BAttach? && !TablePc(c.b) && !c.b.BDone?
    requires (c.b.BRegister? || c.b.BServe?) && ok ==> c.toBroker != []
    ensures Polite(BrokerAlone(c, ok), placed')
  {
  }

  lemma BrokerMovesPolite(c: Conn, placed: bool, placed': bool, b: BrokerPc, down: bool)
    requires Polite(c, placed) && (placed ==> placed')
    requires (Announced(c.b) ==> Announced(b)) && (Unanswered(b) ==> Unanswered(c.b))
    ensures Polite(c.(b := b, down := down), placed')
  {
  }

  lemma ThreadKeepsPolite(st: Net, act: Action, k: ConnId)
    requires Enabled(st, act) && (act.Handler? || act.Pump?) && k < |st.conns| && Polite(st.conns[k], Placed(st, k))
    ensures Polite(Next(st, act).conns[k], Placed(Next(st, act), k))
  {
    var x, c := st.sess[act.s], Owner(st, act.s);
    if x.owner == k {
      if act.Handler? {
        QueuesKeepPolite(c, HandlerConn(c, x, act.s, act.ok), Placed(st, k), HandlerSays(x, act.s, act.ok));
      } else {
        QueuesKeepPolite(c, PumpConn(c, x, act.s, act.i, act.ok), Placed(st, k), None);
      }
    }
  }

  lemma AgentSparesOthers(st: Net, j: ConnId, ok: bool, n: nat, k: ConnId)
    requires Enabled(st, Agent(j, ok, n)) && k < |st.conns| && j != k
    ensures Next(st, Agent(j, ok, n)).conns[k] == st.conns[k] && Next(st, Agent(j, ok, n)).log == st.log
  {
  }

  lemma AgentStopsPolite(st: Net, k: ConnId, ok: bool, n: nat)
    requires Enabled(st, Agent(k, ok, n)) && st.conns[k].a.AStop? && Polite(st.conns[k], Placed(st, k))
    ensures Polite(Next(st, Agent(k, ok, n)).conns[k], Placed(Next(st, Agent(k, ok, n)), k))
  {
  }

  lemma AgentAlonePolite(st: Net, k: ConnId, ok: bool, n: nat)
    requires Enabled(st, Agent(k, ok, n)) && AgentSubject(st.conns[k].a).None? && !st.conns[k].a.AStop?
    requires Polite(st.conns[k], Placed(st, k))
    ensures Polite(Next(st, Agent(k, ok, n)).conns[k], Placed(Next(st, Agent(k, ok, n)), k))
  {
    A.AgentAloneIsNeutral(st.conns[k], ok);
    AgentAloneKeepsPolite(st.conns[k], Placed(st, k), ok);
  }

  lemma AgentSubjectPolite(st: Net, k: ConnId, ok: bool, n: nat)
    requires Enabled(st, Agent(k, ok, n)) && AgentSubject(st.conns[k].a).Some?
    requires Polite(st.conns[k], Placed(st, k))
    ensures Polite(Next(st, Agent(k, ok, n)).conns[k], Placed(Next(st, Agent(k, ok, n)), k))
  {
    var s := AgentSubject(st.conns[k].a).value;
    AgentServesPolite(st.conns[k], Placed(st, k), st.sess[s], s, ok);
  }

  lemma AgentKeepsPolite(st: Net, j: ConnId, ok: bool, n: nat, k: ConnId)
    requires Enabled(st, Agent(j, ok, n)) && k < |st.conns| && Polite(st.conns[k], Placed(st, k))
    ensures Polite(Next(st, Agent(j, ok, n)).conns[k], Placed(Next(st, Agent(j, ok, n)), k))
  {
    if j != k { AgentSparesOthers(st, j, ok, n, k); }
    else if st.conns[k].a.AStop? { AgentStopsPolite(st, k, ok, n); }
    else if AgentSubject(st.conns[k].a).None? { AgentAlonePolite(st, k, ok, n); }
    else { AgentSubjectPolite(st, k, ok, n); }
  }

  lemma AttachKeepsPolite(st: Net, j: ConnId, ok: bool, k: ConnId)
    requires Owned(st) && Enabled(st, Broker(j, ok)) && st.conns[j].b.BAttach?
    requires k < |st.conns| && Polite(st.conns[k], Placed(st, k))
    ensures Polite(Next(st, Broker(j, ok)).conns[k], Placed(Next(st, Broker(j, ok)), k))
  {
    var st' := Next(st, Broker(j, ok));
    BrokerMovesPolite(st.conns[k], Placed(st, k), Placed(st', k), st'.conns[k].b, st'.conns[k].down);
  }

  lemma BrokerSubjectKeepsPolite(c: Conn, placed: bool, present: bool)
    requires Polite(c, placed) && BrokerSubject(c.b).Some?
    ensures Polite(c.(b := BrokerGoes(c.b, present)), placed)
  {
  }

  lemma TableStepKeepsPolite(st: Net, k: ConnId, ok: bool)
    requires Enabled(st, Broker(k, ok)) && TablePc(st.conns[k].b) && Polite(st.conns[k], Placed(st, k))
    ensures Polite(Next(st, Broker(k, ok)).conns[k], Placed(Next(st, Broker(k, ok)), k))
  {
    var c := st.conns[k];
    BrokerMovesPolite(c, Placed(st, k), Placed(st, k), Next(st, Broker(k, ok)).conns[k].b, c.down);
  }

  lemma BrokerServesPolite(st: Net, k: ConnId, ok: bool)
    requires Enabled(st, Broker(k, ok)) && BrokerSubject(st.conns[k].b).Some? && Polite(st.conns[k], Placed(st, k))
    ensures Polite(Next(st, Broker(k, ok)).conns[k], Placed(Next(st, Broker(k, ok)), k))
  {
    BrokerSubjectKeepsPolite(st.conns[k], Placed(st, k), BrokerSubject(st.conns[k].b).value in st.sessions);
  }

  lemma BrokerAlonePolite(st: Net, k: ConnId, ok: bool)
    requires Enabled(st, Broker(k, ok)) && BrokerSubject(st.conns[k].b).None?
    requires !TablePc(st.conns[k].b) && !st.conns[k].b.BAttach? && A.Logged(st) && Polite(st.conns[k], Placed(st, k))
    ensures Polite(Next(st, Broker(k, ok)).conns[k], Placed(Next(st, Broker(k, ok)), k))
  {
    BrokerAloneKeepsPolite(st.conns[k], Placed(st, k), Placed(Next(st, Broker(k, ok)), k), ok);
  }

  lemma BrokerSparesOthers(st: Net, j: ConnId, ok: bool, k: ConnId)
    requires Enabled(st, Broker(j, ok)) && !st.conns[j].b.BAttach? && k < |st.conns| && k != j
    ensures Next(st, Broker(j, ok)).conns[k] == st.conns[k] && Next(st, Broker(j, ok)).log == st.log
  {
  }

  lemma BrokerKeepsPolite(st: Net, j: ConnId, ok: bool, k: ConnId)
    requires Enabled(st, Broker(j, ok)) && !st.conns[j].b.BAttach? && A.Logged(st)
    requires k < |st.conns| && Polite(st.conns[k], Placed(st, k))
    ensures Polite(Next(st, Broker(j, ok)).conns[k], Placed(Next(st, Broker(j, ok)), k))
  {
    if j != k { BrokerSparesOthers(st, j, ok, k); }
    else if BrokerSubject(st.conns[k].b).Some? { BrokerServesPolite(st, k, ok); }
    else if TablePc(st.conns[k].b) { TableStepKeepsPolite(st, k, ok); }
    else { BrokerAlonePolite(st, k, ok); }
  }

  lemma OutsideKeepsPolite(st: Net, act: Action, k: ConnId)
    requires Enabled(st, act) && k < |Next(st, act).conns|
    requires !act.Handler? && !act.Pump? && !act.Agent? && !act.Broker?
    requires k < |st.conns| ==> Polite(st.conns[k], Placed(st, k))
    ensures Polite(Next(st, act).conns[k], Placed(Next(st, act), k))
  {
  }

  lemma ThreadsAddNoConnection(st: Net, act: Action)
    requires Enabled(st, act) && (act.Handler? || act.Pump? || act.Agent?)
    ensures |Next(st, act).conns| == |st.conns|
  {
  }

  lemma BrokerAddsNoConnection(st: Net, k: ConnId, ok: bool)
    requires Enabled(st, Broker(k, ok))
    ensures |Next(st, Broker(k, ok)).conns| == |st.conns|
  {
  }

  lemma StepKeepsPolite(st: Net, act: Action, k: ConnId)
    requires Owned(st) && A.Logged(st) && Enabled(st, act) && k < |Next(st, act).conns|
    requires k < |st.conns| ==> Polite(st.conns[k], Placed(st, k))
    ensures Polite(Next(st, act).conns[k], Placed(Next(st, act), k))
  {
    if act.Broker? { BrokerAddsNoConnection(st, act.k, act.ok); }
    if act.Handler? || act.Pump? || act.Agent? { ThreadsAddNoConnection(st, act); }
    match act
    case Handler(_, _) => ThreadKeepsPolite(st, act, k);
    case Pump(_, _, _, _) => ThreadKeepsPolite(st, act, k);
    case Agent(j, ok, n) => AgentKeepsPolite(st, j, ok, n, k);
    case Broker(j, ok) =>
      if st.conns[j].b.BAttach? { AttachKeepsPolite(st, j, ok, k); } else { BrokerKeepsPolite(st, j, ok, k); }
    case _ => OutsideKeepsPolite(st, act, k);
  }

  lemma {:induction false} AlwaysPolite(acts: seq<Action>, k: ConnId)
    requires Run(acts).Some? && k < |Run(acts).value.conns|
    ensures Polite(Run(acts).value.conns[k], Placed(Run(acts).value, k))
  {
    if acts != [] {
      var st := Run(acts[..|acts| - 1]).value;
      if k < |st.conns| { AlwaysPolite(acts[..|acts| - 1], k); }
      RunOwned(acts[..|acts| - 1]);
      A.AlwaysAttached(acts[..|acts| - 1]);
      StepKeepsPolite(st, acts[|acts| - 1], k);
    }
  }

  /** An agent serves only if its connection has been placed in `b.agents`, and its handler has added the
      device to the registry and sent `registered`. */
  lemma AlwaysWelcomed(acts: seq<Action>, k: ConnId)
    requires Run(acts).Some? && k < |Run(acts).value.conns| && Served(Run(acts).value.conns[k].a)
    ensures var st := Run(acts).value;
            Attachment(st.conns[k].reg.device, k) in st.log && Announced(st.conns[k].b)
  {
    AlwaysPolite(acts, k);
  }

  // ----- which frame comes first -----

  /** No session of connection `k` has sent its `open`. */
  predicate NobodyAsked(st: Net, k: ConnId) {
    forall s | 0 <= s < |st.sess| && st.sess[s].owner == k :: !st.sess[s].asked
  }

  lemma AskedIsAhead(st: Net, s: SessionId)
    requires Live(st, s) && LaneInv(LaneOf(st, s)) && Owner(st, s).a.AAwait? && st.sess[s].asked
    ensures Owner(st, s).toAgent != []
  {
  }

  lemma UnaskedIsSilent(st: Net, s: SessionId, i: nat)
    requires Live(st, s) && LaneInv(LaneOf(st, s)) && i < |Owner(st, s).toAgent| && Names(Owner(st, s).toAgent[i], s)
    ensures st.sess[s].asked
  {
    OnlyMembers(Owner(st, s).toAgent, Owner(st, s).toAgent[i], s);
  }

  /** While the agent waits and the broker has not answered, the channel is empty exactly if no session has
      sent its `open`. */
  lemma SilentUntilAsked(acts: seq<Action>, k: ConnId)
    requires Run(acts).Some? && k < |Run(acts).value.conns|
    requires Unanswered(Run(acts).value.conns[k].b) && Run(acts).value.conns[k].a.AAwait?
    ensures Run(acts).value.conns[k].toAgent == [] <==> NobodyAsked(Run(acts).value, k)
  {
    var st := Run(acts).value;
    var q := st.conns[k].toAgent;
    if q != [] {
      AlwaysPolite(acts, k);
      RunOwned(acts);
      var s := Subject(q[0]).value;
      assert ConnOwned(st.sess, k, st.conns[k]) && Mine(st.sess, k, s);
      LaneHolds(acts, s);
      UnaskedIsSilent(st, s, 0);
    } else {
      forall s | 0 <= s < |st.sess| && st.sess[s].owner == k
        ensures !st.sess[s].asked
      {
        LaneHolds(acts, s);
        if st.sess[s].asked { AskedIsAhead(st, s); }
      }
    }
  }

  /** An agent that waits goes on waiting with the same first frame, until it reads it. */
  lemma HeadStays(st: Net, act: Action, k: ConnId)
    requires Enabled(st, act) && k < |st.conns|
    ensures k < |Next(st, act).conns|
    ensures !st.conns[k].a.ARegister? ==> !Next(st, act).conns[k].a.ARegister?
    ensures Next(st, act).conns[k].a.AAwait? && !st.conns[k].a.ARegister? ==>
              st.conns[k].a.AAwait? && st.conns[k].toAgent <= Next(st, act).conns[k].toAgent
  {
    match act
    case Agent(j, ok, n) => AgentHeadStays(st, j, ok, n, k);
    case Broker(j, ok) => BrokerHeadStays(st, j, ok, k);
    case _ =>
  }

  lemma AgentAloneWaits(c: Conn, ok: bool)
    requires (c.a.AAwait? || c.a.AServe?) && ok ==> c.toAgent != []
    ensures !AgentAlone(c, ok).a.ARegister? && (AgentAlone(c, ok).a.AAwait? ==> c.a.ARegister?)
  {
  }

  lemma AgentServesOn(c: Conn, x: Sess, s: SessionId, ok: bool)
    ensures !AgentConn(c, x, s, ok).a.ARegister? && !AgentConn(c, x, s, ok).a.AAwait?
  {
  }

  lemma AgentHeadStays(st: Net, j: ConnId, ok: bool, n: nat, k: ConnId)
    requires Enabled(st, Agent(j, ok, n)) && k < |st.conns|
    ensures var c' := Next(st, Agent(j, ok, n)).conns[k];
            && (!st.conns[k].a.ARegister? ==> !c'.a.ARegister?)
            && (c'.a.AAwait? && !st.conns[k].a.ARegister? ==> c' == st.conns[k])
  {
    var c := st.conns[j];
    if j == k && !c.a.AStop? {
      if AgentSubject(c.a).None? { AgentAloneWaits(c, ok); }
      else { AgentServesOn(c, st.sess[AgentSubject(c.a).value], AgentSubject(c.a).value, ok); }
    }
  }

  lemma BrokerAloneWaits(c: Conn, ok: bool)
    requires (c.b.BRegister? || c.b.BServe?) && ok ==> c.toBroker != []
    ensures BrokerAlone(c, ok).a == c.a && c.toAgent <= BrokerAlone(c, ok).toAgent
  {
  }

  lemma AttachHeadStays(st: Net, j: ConnId, ok: bool, k: ConnId)
    requires Enabled(st, Broker(j, ok)) && k < |st.conns| && st.conns[j].b.BAttach?
    ensures var c' := Next(st, Broker(j, ok)).conns[k];
            c'.a == st.conns[k].a && c'.toAgent == st.conns[k].toAgent
  {
  }

  lemma BrokerHeadStays(st: Net, j: ConnId, ok: bool, k: ConnId)
    requires Enabled(st, Broker(j, ok)) && k < |st.conns|
    ensures var c' := Next(st, Broker(j, ok)).conns[k];
            c'.a == st.conns[k].a && st.conns[k].toAgent <= c'.toAgent
  {
    if st.conns[j].b.BAttach? { AttachHeadStays(st, j, ok, k); }
    else if BrokerSubject(st.conns[j].b).None? && !TablePc(st.conns[j].b) { BrokerAloneWaits(st.conns[j], ok); }
  }

  lemma {:induction false} WaitsWithHead(acts: seq<Action>, more: seq<Action>, k: ConnId)
    requires Run(acts).Some? && Run(acts + more).Some? && k < |Run(acts).value.conns|
    requires !Run(acts).value.conns[k].a.ARegister?
    ensures var st, st' := Run(acts).value, Run(acts + more).value;
            && k < |st'.conns| && !st'.conns[k].a.ARegister?
            && (st'.conns[k].a.AAwait? ==> st.conns[k].a.AAwait? && st.conns[k].toAgent <= st'.conns[k].toAgent)
    decreases |more|
  {
    if more == [] {
      assert acts + more == acts;
    } else {
      var rest := more[..|more| - 1];
      assert (acts + more)[..|acts + more| - 1] == acts + rest;
      WaitsWithHead(acts, rest, k);
      HeadStays(Run(acts + rest).value, (acts + more)[|acts + more| - 1], k);
    }
  }

  /** When the broker announces the connection, it is decided what the waiting agent will read first and
      what it makes of it: `registered`, and it serves, exactly if no session of the connection had sent
      its `open`; otherwise it leaves (agent.go:66-73). */
  lemma FirstFrameDecides(acts: seq<Action>, k: ConnId, more: seq<Action>, n: nat)
    requires Run(acts).Some? && k < |Run(acts).value.conns|
    requires Run(acts).value.conns[k].b.BAnnounce? && Run(acts).value.conns[k].a.AAwait?
    requires Run(acts + ([Broker(k, true)] + more)).Some?
    requires var st' := Run(acts + ([Broker(k, true)] + more)).value; k < |st'.conns| && st'.conns[k].a.AAwait?
    ensures var st, st' := Run(acts).value, Run(acts + ([Broker(k, true)] + more)).value;
            && st'.conns[k].toAgent != [] && Enabled(st', Agent(k, true, n))
            && (st'.conns[k].toAgent[0] == Registered <==> NobodyAsked(st, k))
            && Next(st', Agent(k, true, n)).conns[k].a == if NobodyAsked(st, k) then AServe else ALeft
  {
    var st := Run(acts).value;
    var mid := acts + [Broker(k, true)];
    assert acts + ([Broker(k, true)] + more) == mid + more;
    RunsThrough(acts, Broker(k, true), more);
    SilentUntilAsked(acts, k);
    AlwaysPolite(acts, k);
    assert Run(mid).value.conns[k].toAgent == st.conns[k].toAgent + [Registered];
    WaitsWithHead(mid, more, k);
  }

  lemma {:induction false} RunsThrough(acts: seq<Action>, act: Action, more: seq<Action>)
    requires Run(acts).Some? && Run(acts + [act] + more).Some?
    ensures Enabled(Run(acts).value, act) && Run(acts + [act]) == Some(Next(Run(acts).value, act))
    decreases |more|
  {
    if more == [] {
      assert acts + [act] + more == acts + [act] && (acts + [act])[..|acts|] == acts;
    } else {
      assert (acts + [act] + more)[..|acts + [act] + more| - 1] == acts + [act] + more[..|more| - 1];
      RunsThrough(acts, act, more[..|more| - 1]);
    }
  }
}
