/** What the broker takes an agent for: the device and token of its `register` frame are those that the agent
    was started with, and an agent whose token is refused is told so. */
module Registrations {
  import opened Protocol
  import opened Threads
  import opened Lane
  import opened Network
  import opened LaneSafety
  import opened Multiplexing
  import opened Sessions
  import A = Attachments
  import W = Welcome

  const NOTHING := Registration("", "")

  /** The broker has read nothing yet, or nothing that it could use; or it has read what the agent was started
      with. Until then the `register` frame is the only one. */
  predicate Named(c: Conn) {
    && (c.b.BRegister? ==>
          c.reg == NOTHING && (c.toBroker == [] || c.toBroker[0] == Register(c.cfg.device, c.cfg.token)))
    && (c.a.ARegister? ==> c.toBroker == [])
    && (c.b.BQuit? || c.b.BDone? ==> c.reg == NOTHING || (c.reg == c.cfg && c.cfg.device != ""))
    && (!c.b.BRegister? && !c.b.BQuit? && !c.b.BDone? ==> c.reg == c.cfg && c.cfg.device != "")
  }

  lemma HandlerKeepsNamed(c: Conn, x: Sess, s: SessionId, ok: bool)
    requires Named(c)
    ensures Named(HandlerConn(c, x, s, ok))
  {
  }

  lemma PumpKeepsNamed(c: Conn, x: Sess, s: SessionId, i: nat, ok: bool)
    requires Named(c) && i < |x.shells| && Past(c.b) && !c.a.ARegister?
    ensures Named(PumpConn(c, x, s, i, ok))
  {
  }

  lemma AgentAloneKeepsNamed(c: Conn, ok: bool)
    requires Named(c) && ((c.a.AAwait? || c.a.AServe?) && ok ==> c.toAgent != [])
    requires AgentSubject(c.a).None? && !c.a.AStop? && !c.a.ALeft?
    ensures Named(AgentAlone(c, ok))
  {
  }

  lemma AgentServesNamed(c: Conn, x: Sess, s: SessionId, ok: bool)
    requires Named(c) && AgentSubject(c.a) == Some(s) && Past(c.b)
    ensures Named(AgentConn(c, x, s, ok))
  {
  }

  lemma BrokerAloneKeepsNamed(c: Conn, ok: bool)
    requires Named(c) && BrokerSubject(c.b).None? && !c.b.BAttach? && !TablePc(c.b) && !c.b.BDone?
    requires (c.b.BRegister? || c.b.BServe?) && ok ==> c.toBroker != []
    requires c.b.BServe? ==> !c.a.ARegister?
    ensures Named(BrokerAlone(c, ok))
  {
  }

  lemma BrokerMovesNamed(c: Conn, b: BrokerPc, down: bool)
    requires Named(c) && !c.b.BRegister? && !c.b.BQuit? && !c.b.BDone? && !b.BRegister?
    ensures Named(c.(b := b, down := down))
  {
  }

  /** A handler past the `register` frame has an agent past it. */
  predicate Begun(c: Conn) { !c.b.BRegister? && !c.b.BQuit? && !c.b.BDone? ==> !c.a.ARegister? }

  lemma AgentAloneBegun(c: Conn, ok: bool)
    requires Begun(c) && ((c.a.AAwait? || c.a.AServe?) && ok ==> c.toAgent != [])
    ensures Begun(AgentAlone(c, ok))
  {
  }

  lemma BrokerAloneBegun(c: Conn, ok: bool)
    requires Begun(c) && Named(c) && ((c.b.BRegister? || c.b.BServe?) && ok ==> c.toBroker != [])
    requires BrokerSubject(c.b).None? && !c.b.BAttach? && !TablePc(c.b) && !c.b.BDone?
    ensures Begun(BrokerAlone(c, ok))
  {
  }

  predicate Orderly(c: Conn) { Named(c) && Begun(c) }

  lemma ThreadKeepsOrderly(st: Net, act: Action, k: ConnId)
    requires Owned(st) && Enabled(st, act) && (act.Handler? || act.Pump?) && k < |st.conns| && Orderly(st.conns[k])
    requires act.Pump? && st.sess[act.s].owner == k ==> !st.conns[k].a.ARegister?
    ensures Orderly(Next(st, act).conns[k])
  {
    var x, c := st.sess[act.s], Owner(st, act.s);
    if x.owner == k {
      if act.Handler? { HandlerKeepsNamed(c, x, act.s, act.ok); } else { PumpKeepsNamed(c, x, act.s, act.i, act.ok); }
    }
  }

  lemma AgentKeepsOrderly(st: Net, k: ConnId, ok: bool, n: nat)
    requires Owned(st) && Enabled(st, Agent(k, ok, n)) && !st.conns[k].a.AStop? && Orderly(st.conns[k])
    ensures Orderly(Next(st, Agent(k, ok, n)).conns[k])
  {
    var c := st.conns[k];
    if AgentSubject(c.a).None? {
      AgentAloneKeepsNamed(c, ok);
      AgentAloneBegun(c, ok);
    } else {
      var s := AgentSubject(c.a).value;
      assert ConnOwned(st.sess, k, c) && Mine(st.sess, k, s);
      AgentServesNamed(c, st.sess[s], s, ok);
    }
  }

  lemma AgentStopsOrderly(st: Net, k: ConnId, ok: bool, n: nat)
    requires Enabled(st, Agent(k, ok, n)) && st.conns[k].a.AStop? && Orderly(st.conns[k])
    ensures Orderly(Next(st, Agent(k, ok, n)).conns[k])
  {
    var c := Next(st, Agent(k, ok, n)).conns[k];
    assert c == st.conns[k].(a := c.a) && !c.a.ARegister?;
  }

  lemma BrokerAloneOrderly(st: Net, k: ConnId, ok: bool)
    requires Enabled(st, Broker(k, ok)) && BrokerSubject(st.conns[k].b).None? && !st.conns[k].b.BAttach?
    requires !TablePc(st.conns[k].b) && Orderly(st.conns[k])
    ensures Orderly(Next(st, Broker(k, ok)).conns[k])
  {
    BrokerAloneKeepsNamed(st.conns[k], ok);
    BrokerAloneBegun(st.conns[k], ok);
  }

  lemma BrokerServesOrderly(st: Net, k: ConnId, ok: bool)
    requires Enabled(st, Broker(k, ok)) && BrokerSubject(st.conns[k].b).Some? && Orderly(st.conns[k])
    ensures Orderly(Next(st, Broker(k, ok)).conns[k])
  {
    var c, s := st.conns[k], BrokerSubject(st.conns[k].b).value;
    BrokerSubjectGoesOn(c.b, s in st.sessions);
    BrokerMovesNamed(c, BrokerGoes(c.b, s in st.sessions), c.down);
  }

  lemma BrokerSubjectGoesOn(b: BrokerPc, present: bool)
    requires BrokerSubject(b).Some?
    ensures var b' := BrokerGoes(b, present); !b'.BRegister? && !b'.BQuit? && !b'.BDone?
  {
  }

  lemma TableStepOrderly(st: Net, k: ConnId, ok: bool)
    requires Enabled(st, Broker(k, ok)) && TablePc(st.conns[k].b) && Orderly(st.conns[k])
    ensures Orderly(Next(st, Broker(k, ok)).conns[k])
  {
    BrokerMovesNamed(st.conns[k], Next(st, Broker(k, ok)).conns[k].b, st.conns[k].down);
  }

  lemma AttachOrderly(st: Net, j: ConnId, ok: bool, k: ConnId)
    requires Enabled(st, Broker(j, ok)) && st.conns[j].b.BAttach? && k < |st.conns| && Orderly(st.conns[k])
    ensures Orderly(Next(st, Broker(j, ok)).conns[k])
  {
  }

  lemma OutsideOrderly(st: Net, act: Action, k: ConnId)
    requires Enabled(st, act) && k < |Next(st, act).conns|
    requires !act.Handler? && !act.Pump? && !act.Agent? && !act.Broker?
    requires k < |st.conns| ==> Orderly(st.conns[k])
    ensures Orderly(Next(st, act).conns[k])
  {
  }

  lemma BrokerOrderly(st: Net, k: ConnId, ok: bool)
    requires Enabled(st, Broker(k, ok)) && !st.conns[k].b.BAttach? && Orderly(st.conns[k])
    ensures Orderly(Next(st, Broker(k, ok)).conns[k])
  {
    if BrokerSubject(st.conns[k].b).Some? { BrokerServesOrderly(st, k, ok); }
    else if TablePc(st.conns[k].b) { TableStepOrderly(st, k, ok); }
    else { BrokerAloneOrderly(st, k, ok); }
  }

  lemma StepOrderly(st: Net, act: Action, k: ConnId)
    requires Owned(st) && Enabled(st, act) && k < |Next(st, act).conns|
    requires k < |st.conns| ==> Orderly(st.conns[k])
    requires act.Pump? && st.sess[act.s].owner == k && k < |st.conns| ==> !st.conns[k].a.ARegister?
    ensures Orderly(Next(st, act).conns[k])
  {
    match act
    case Handler(_, _) => W.ThreadsAddNoConnection(st, act); ThreadKeepsOrderly(st, act, k);
    case Pump(_, _, _, _) => W.ThreadsAddNoConnection(st, act); ThreadKeepsOrderly(st, act, k);
    case Agent(j, ok, n) =>
      W.ThreadsAddNoConnection(st, act);
      if j != k { W.AgentSparesOthers(st, j, ok, n, k); }
      else if st.conns[k].a.AStop? { AgentStopsOrderly(st, k, ok, n); }
      else { AgentKeepsOrderly(st, k, ok, n); }
    case Broker(j, ok) =>
      W.BrokerAddsNoConnection(st, j, ok);
      if st.conns[j].b.BAttach? { AttachOrderly(st, j, ok, k); }
      else if j != k { W.BrokerSparesOthers(st, j, ok, k); }
      else { BrokerOrderly(st, k, ok); }
    case _ => OutsideOrderly(st, act, k);
  }

  /** A session's shell runs only once its agent serves. */
  lemma PumpingAgentsHaveBegun(acts: seq<Action>, s: SessionId, i: nat, ok: bool, n: nat)
    requires Run(acts).Some? && Enabled(Run(acts).value, Pump(s, i, ok, n))
    ensures !Owner(Run(acts).value, s).a.ARegister?
  {
    LaneIsFresh(acts, s);
    WaitingHasNoShell(Run(acts).value, s);
  }

  lemma LaneIsFresh(acts: seq<Action>, s: SessionId)
    requires Run(acts).Some? && s < |Run(acts).value.sess|
    ensures Live(Run(acts).value, s) && Fresh(LaneOf(Run(acts).value, s))
  {
    LaneHolds(acts, s);
  }

  lemma WaitingHasNoShell(st: Net, s: SessionId)
    requires Live(st, s) && Fresh(LaneOf(st, s))
    ensures Owner(st, s).a.ARegister? ==> st.sess[s].shells == []
  {
  }

  lemma {:induction false} AlwaysOrderly(acts: seq<Action>, k: ConnId)
    requires Run(acts).Some? && k < |Run(acts).value.conns|
    ensures Orderly(Run(acts).value.conns[k])
  {
    if acts != [] {
      var before, act := acts[..|acts| - 1], acts[|acts| - 1];
      var st := Run(before).value;
      if k < |st.conns| { AlwaysOrderly(before, k); }
      RunOwned(before);
      if act.Pump? { PumpingAgentsHaveBegun(before, act.s, act.i, act.ok, act.n); }
      StepOrderly(st, act, k);
    }
  }

  /** Every connection that is about to be placed in `b.agents`, or is in it, is under the device that its
      agent was started with, which has a name, and its token is the one checked. */
  lemma AttachedAsStarted(acts: seq<Action>, k: ConnId)
    requires Run(acts).Some? && k < |Run(acts).value.conns|
    requires var b := Run(acts).value.conns[k].b; !b.BRegister? && !b.BQuit? && !b.BDone?
    ensures var c := Run(acts).value.conns[k]; c.reg == c.cfg && c.cfg.device != ""
  {
    AlwaysOrderly(acts, k);
  }

  /** The broker takes the first frame for a registration exactly if it names a device. */
  lemma RegistrationsNameADevice(c: Conn, ok: bool)
    requires c.b.BRegister? && (ok ==> c.toBroker != [])
    ensures BrokerAlone(c, ok).b
            == if ok && c.toBroker[0].Register? && c.toBroker[0].device != "" then BVerify else BQuit
  {
  }

  /** An agent whose token is refused finds one frame on its channel, which says so; it leaves, and it was
      never placed. */
  lemma RefusedAgentsAreTold(acts: seq<Action>, k: ConnId, n: nat)
    requires Run(acts).Some? && k < |Run(acts).value.conns|
    requires Run(acts).value.conns[k].b.BReject? && Run(acts).value.conns[k].a.AAwait?
    ensures var st := Run(acts).value;
            && Enabled(st, Broker(k, true))
            && var st1 := Next(st, Broker(k, true));
               && st1.conns[k].toAgent == [Rejected] && st1.conns[k].b.BQuit?
               && Enabled(st1, Agent(k, true, n)) && Next(st1, Agent(k, true, n)).conns[k].a.ALeft?
               && st1.log == st.log && st1.agents == st.agents
  {
    RunOwned(acts);
    NobodyVisits(Run(acts).value, k);
    W.SilentUntilAsked(acts, k);
    assert [] + [Rejected] == [Rejected];
  }

  /** A connection that is not placed yet has no session. */
  lemma NobodyVisits(st: Net, k: ConnId)
    requires Owned(st) && k < |st.conns| && !Past(st.conns[k].b)
    ensures W.NobodyAsked(st, k)
  {
  }
}
