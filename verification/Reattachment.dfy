/** Why SameDevices asks for runs without overlapping attachments: `reg.Remove` at broker.go:164 is not
    guarded by identity, unlike the removal from `b.agents` at broker.go:160. */
module Reattachment {
  import opened Protocol
  import opened Threads
  import opened Network
  import opened Multiplexing
  import opened Attachments
  import T = BrokerTables

  /** After a handler's `reg.Remove` the two tables agree on its device exactly when no other handler
      serves it: the registry never lists it, and `b.agents` lists it while a newer one is attached. */
  lemma RemovalIsUnguarded(acts: seq<Action>, k: ConnId, ok: bool)
    requires Run(acts).Some? && Enabled(Run(acts).value, Broker(k, ok)) && Run(acts).value.conns[k].b.BRemove?
    ensures var st := Run(acts).value;
            var st' := Next(st, Broker(k, ok));
            var d := st.conns[k].reg.device;
            var newest := LastFor(st.log, d);
            && d !in st'.registry
            && (d in st'.agents <==> newest.Some? && newest.value != k && newest.value < |st.conns|
                                     && !Detached(st.conns[newest.value].b))
  {
    AlwaysAttached(acts);
    assert Current(Run(acts).value, Run(acts).value.conns[k].reg.device);
  }

  /** The last step that some handler of `d` took on the registry was its `reg.Add`. */
  predicate LastAdded(acts: seq<Action>, d: DeviceId)
    requires Run(acts).Some?
  {
    acts != [] &&
    var before, act := acts[..|acts| - 1], acts[|acts| - 1];
    var st := Run(before).value;
    if act.Broker? && TablePc(st.conns[act.k].b) && !st.conns[act.k].b.BDetach? && st.conns[act.k].reg.device == d
    then st.conns[act.k].b.BAdd?
    else LastAdded(before, d)
  }

  lemma RegistryStep(st: Net, act: Action, d: DeviceId)
    requires Owned(st) && Enabled(st, act)
    ensures var moved := act.Broker? && TablePc(st.conns[act.k].b) && !st.conns[act.k].b.BDetach?
                         && st.conns[act.k].reg.device == d;
            d in Next(st, act).registry <==> if moved then st.conns[act.k].b.BAdd? else d in st.registry
  {
    if !TableStep(st, act) { StepIsNeutral(st, act); }
    else if st.conns[act.k].b.BAttach? { AttachIsStep(st, act.k, act.ok); }
    else { TableStepIsDeskStep(st, act.k, act.ok); }
  }

  lemma {:induction false} RegistryFollowsLastStep(acts: seq<Action>, d: DeviceId)
    requires Run(acts).Some?
    ensures d in Run(acts).value.registry <==> LastAdded(acts, d)
  {
    if acts != [] {
      RegistryFollowsLastStep(acts[..|acts| - 1], d);
      RunOwned(acts[..|acts| - 1]);
      RegistryStep(Run(acts[..|acts| - 1]).value, acts[|acts| - 1], d);
    }
  }

  /** Over a whole run the two tables agree on a device exactly if, when the connection that registered last
      is still attached, the last of the device's steps on the registry was an addition, and when it is
      not, a removal or none. */
  lemma TablesAgreeWhenStepsDo(acts: seq<Action>, d: DeviceId)
    requires Run(acts).Some?
    ensures var st := Run(acts).value;
            var newest := LastFor(st.log, d);
            (d in st.agents <==> d in st.registry)
            <==> (newest.Some? && newest.value < |st.conns| && !Detached(st.conns[newest.value].b) <==> LastAdded(acts, d))
  {
    AlwaysAttached(acts);
    assert Current(Run(acts).value, d);
    RegistryFollowsLastStep(acts, d);
  }

  lemma Extend(acts: seq<Action>, act: Action)
    requires Run(acts).Some? && Enabled(Run(acts).value, act)
    ensures Run(acts + [act]) == Some(Next(Run(acts).value, act))
  {
    assert (acts + [act])[..|acts|] == acts;
  }

  /** A connection between its first step and the end of its registration. */
  function Joining(cfg: Registration, b: BrokerPc, a: AgentPc, toBroker: seq<Msg>): Conn {
    Conn(cfg, if b.BRegister? then Registration("", "") else cfg, b, a, [], toBroker, false, map[])
  }

  /** The network with a connection `c` after all others. */
  function With(st: Net, c: Conn): Net { st.(conns := st.conns + [c]) }

  lemma Dials(st: Net, cfg: Registration)
    ensures Next(st, Dial(cfg)) == With(st, Joining(cfg, BRegister, ARegister, []))
  {
  }

  lemma LastAgentSteps(st: Net, c: Conn, ok: bool)
    requires !c.a.AStop? && AgentSubject(c.a).None? && AgentEnabled(With(st, c), c, ok, 0)
    ensures var act := Agent(|st.conns|, ok, 0);
            Enabled(With(st, c), act) && Next(With(st, c), act) == With(st, AgentAlone(c, ok))
  {
    assert (st.conns + [c])[|st.conns| := AgentAlone(c, ok)] == st.conns + [AgentAlone(c, ok)];
  }

  lemma LastBrokerSteps(st: Net, c: Conn, ok: bool)
    requires BrokerSubject(c.b).None? && !c.b.BAttach? && !TablePc(c.b) && BrokerEnabled(With(st, c), c, ok)
    ensures var act := Broker(|st.conns|, ok);
            Enabled(With(st, c), act) && Next(With(st, c), act) == With(st, BrokerAlone(c, ok))
  {
    assert (st.conns + [c])[|st.conns| := BrokerAlone(c, ok)] == st.conns + [BrokerAlone(c, ok)];
  }

  /** What the two ends make of the `register` frame. */
  lemma RegisterFrame(cfg: Registration)
    requires cfg.device != ""
    ensures AgentAlone(Joining(cfg, BRegister, ARegister, []), true)
            == Joining(cfg, BRegister, AAwait, [Register(cfg.device, cfg.token)])
    ensures BrokerAlone(Joining(cfg, BRegister, AAwait, [Register(cfg.device, cfg.token)]), true)
            == Joining(cfg, BVerify, AAwait, [])
  {
    var m := Register(cfg.device, cfg.token);
    assert [] + [m] == [m] && [m][1..] == [];
  }

  lemma DialsAndRegisters(acts: seq<Action>, cfg: Registration) returns (more: seq<Action>)
    requires Run(acts).Some? && cfg.device != ""
    ensures Run(more) == Some(With(Run(acts).value, Joining(cfg, BAttach, AAwait, [])))
  {
    var st := Run(acts).value;
    var k := |st.conns|;
    RegisterFrame(cfg);
    Extend(acts, Dial(cfg));
    Dials(st, cfg);
    more := acts + [Dial(cfg)];
    LastAgentSteps(st, Joining(cfg, BRegister, ARegister, []), true);
    Extend(more, Agent(k, true, 0));
    more := more + [Agent(k, true, 0)];
    LastBrokerSteps(st, Joining(cfg, BRegister, AAwait, [Register(cfg.device, cfg.token)]), true);
    Extend(more, Broker(k, true));
    more := more + [Broker(k, true)];
    LastBrokerSteps(st, Joining(cfg, BVerify, AAwait, []), true);
    Extend(more, Broker(k, true));
    more := more + [Broker(k, true)];
  }

  /** The state after a device's handler has been placed, and has got to `c.b`. */
  predicate Joined(st: Net, cfg: Registration, c: Conn, st': Net) {
    var d, k := cfg.device, |st.conns|;
    && |st'.conns| == k + 1 && st'.conns[k] == c && c.reg == cfg
    && st'.agents == st.agents[d := k] && st'.log == st.log + [Attachment(d, k)]
    && st'.registry == (if c.b.BAdd? then st.registry else st.registry[d := k])
    && forall j | 0 <= j < k ::
         st'.conns[j] == if d in st.agents && st.agents[d] == j then st.conns[j].(down := true) else st.conns[j]
  }

  lemma Attaches(st: Net, cfg: Registration)
    requires Owned(st)
    ensures var st0 := With(st, Joining(cfg, BAttach, AAwait, []));
            && Enabled(st0, Broker(|st.conns|, true))
            && Joined(st, cfg, Joining(cfg, BAdd, AAwait, []), Next(st0, Broker(|st.conns|, true)))
  {
  }

  lemma Adds(st: Net, cfg: Registration, c: Conn, st1: Net)
    requires Joined(st, cfg, c, st1) && c.b.BAdd?
    ensures var act := Broker(|st.conns|, true);
            Enabled(st1, act) && Joined(st, cfg, c.(b := BAnnounce), Next(st1, act))
  {
  }

  lemma Announces(st: Net, cfg: Registration, c: Conn, st2: Net)
    requires Joined(st, cfg, c, st2) && c.b.BAnnounce?
    ensures var act := Broker(|st.conns|, true);
            && Enabled(st2, act)
            && Joined(st, cfg, c.(b := BServe, toAgent := c.toAgent + [Registered]), Next(st2, act))
  {
  }

  /** Any device can attach at any time. */
  lemma CanAttach(acts: seq<Action>, cfg: Registration) returns (more: seq<Action>)
    requires Run(acts).Some? && cfg.device != ""
    ensures Run(more).Some?
    ensures Joined(Run(acts).value, cfg, Joining(cfg, BServe, AAwait, []).(toAgent := [Registered]), Run(more).value)
  {
    var st, c := Run(acts).value, Joining(cfg, BAdd, AAwait, []);
    var k := |st.conns|;
    RunOwned(acts);
    more := DialsAndRegisters(acts, cfg);
    Attaches(st, cfg);
    Extend(more, Broker(k, true));
    more := more + [Broker(k, true)];
    Adds(st, cfg, c, Run(more).value);
    Extend(more, Broker(k, true));
    more := more + [Broker(k, true)];
    Announces(st, cfg, c.(b := BAnnounce), Run(more).value);
    Extend(more, Broker(k, true));
    more := more + [Broker(k, true)];
    assert [] + [Registered] == [Registered];
  }

  /** A run in which a device attaches twice: once the first handler has cleaned up, the device is in
      `b.agents`, served by the second handler, and the registry does not list it. */
  lemma OverlappingAttachmentsDiffer(cfg: Registration) returns (acts: seq<Action>)
    requires cfg.device != ""
    ensures Run(acts).Some?
    ensures var st := Run(acts).value;
            && |st.conns| == 2 && st.conns[0].b.BDone? && st.conns[1].b.BServe?
            && cfg.device in st.agents && st.agents[cfg.device] == 1 && cfg.device !in st.registry
  {
    var first := CanAttach([], cfg);
    acts := CanAttach(first, cfg);
    LeavesUnlisted(Run(acts).value, cfg.device);
    Extend(acts, Broker(0, false));
    acts := acts + [Broker(0, false)];
    Extend(acts, Broker(0, true));
    acts := acts + [Broker(0, true)];
    Extend(acts, Broker(0, true));
    acts := acts + [Broker(0, true)];
  }

  /** The last three steps of a handler whose connection was replaced. */
  lemma LeavesUnlisted(st: Net, d: DeviceId)
    requires |st.conns| == 2 && st.conns[0].b.BServe? && st.conns[0].down && st.conns[0].reg.device == d
    requires st.conns[1].b.BServe? && d in st.agents && st.agents[d] == 1
    ensures Enabled(st, Broker(0, false))
    ensures var st1 := Next(st, Broker(0, false));
            && Enabled(st1, Broker(0, true))
            && var st2 := Next(st1, Broker(0, true));
               && Enabled(st2, Broker(0, true))
               && var st3 := Next(st2, Broker(0, true));
                  && |st3.conns| == 2 && st3.conns[0].b.BDone? && st3.conns[1].b.BServe?
                  && d in st3.agents && st3.agents[d] == 1 && d !in st3.registry
  {
  }
}
