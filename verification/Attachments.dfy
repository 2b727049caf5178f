/** Which connection a device is attached through, and what the registry lists. */
module Attachments {
  import opened Protocol
  import opened Threads
  import opened Network
  import opened Multiplexing
  import T = BrokerTables

  /** The connection placed last under device `d`. */
  function LastFor(log: seq<Attachment>, d: DeviceId): Option<ConnId> {
    if log == [] then None
    else if log[|log| - 1].device == d then Some(log[|log| - 1].conn)
    else LastFor(log[..|log| - 1], d)
  }

  /** The handler has left its read loop. */
  predicate Left(b: BrokerPc) { b.BDetach? || b.BRemove? || b.BDone? }

  /** The handler has run its own removal from `b.agents`. */
  predicate Detached(b: BrokerPc) { b.BRemove? || b.BDone? }

  /** The handler is between its `reg.Add` and its `reg.Remove`. */
  predicate Catalogued(b: BrokerPc) { Past(b) && !b.BAdd? && !b.BDone? }

  predicate Logged(st: Net) {
    && (forall i | 0 <= i < |st.log| ::
          && st.log[i].conn < |st.conns| && Past(st.conns[st.log[i].conn].b)
          && st.conns[st.log[i].conn].reg.device == st.log[i].device)
    && (forall k | 0 <= k < |st.conns| && Past(st.conns[k].b) && !st.conns[k].b.BDone? ::
          Attachment(st.conns[k].reg.device, k) in st.log)
  }

  /** `b.agents` has the last connection placed under `d`, until that connection's own removal. */
  predicate Current(st: Net, d: DeviceId) {
    var k := LastFor(st.log, d);
    if k.Some? && k.value < |st.conns| && !Detached(st.conns[k.value].b)
    then d in st.agents && st.agents[d] == k.value
    else d !in st.agents
  }

  predicate Superseded(st: Net, a: Attachment) {
    a.conn < |st.conns| && (LastFor(st.log, a.device) == Some(a.conn) || st.conns[a.conn].down || Left(st.conns[a.conn].b))
  }

  predicate Listed(st: Net, d: DeviceId) {
    d in st.registry ==>
      var k := st.registry[d];
      k < |st.conns| && st.conns[k].reg.device == d && Catalogued(st.conns[k].b)
  }

  ghost predicate Attached(st: Net) {
    && Logged(st)
    && (forall d :: Current(st, d))
    && (forall a | a in st.log :: Superseded(st, a))
    && (forall d | d in st.registry :: Listed(st, d))
  }

  lemma {:induction false} LastIsLogged(log: seq<Attachment>, d: DeviceId)
    ensures LastFor(log, d).Some? ==> Attachment(d, LastFor(log, d).value) in log
    ensures LastFor(log, d).None? ==> forall a | a in log :: a.device != d
  {
    if log != [] {
      LastIsLogged(log[..|log| - 1], d);
    }
  }

  lemma LastAfter(log: seq<Attachment>, a: Attachment, d: DeviceId)
    ensures LastFor(log + [a], d) == if a.device == d then Some(a.conn) else LastFor(log, d)
  {
    assert (log + [a])[..|log + [a]| - 1] == log;
  }

  // ----- steps that leave the attachment tables alone -----

  predicate SameStage(c: Conn, c': Conn) {
    if Past(c.b) then
      && Past(c'.b) && c'.reg == c.reg && (c.down ==> c'.down) && (Left(c.b) ==> Left(c'.b))
      && (Detached(c.b) <==> Detached(c'.b)) && (Catalogued(c.b) <==> Catalogued(c'.b)) && (c.b.BDone? <==> c'.b.BDone?)
      && (c.b.BAdd? <==> c'.b.BAdd?) && (c.b.BRemove? <==> c'.b.BRemove?)
    else
      !Past(c'.b) || c'.b.BDone?
  }

  predicate Neutral(st: Net, st': Net) {
    && st'.agents == st.agents && st'.registry == st.registry && st'.log == st.log
    && |st.conns| <= |st'.conns|
    && (forall k | 0 <= k < |st.conns| :: SameStage(st.conns[k], st'.conns[k]))
    && (forall k | |st.conns| <= k < |st'.conns| :: !Past(st'.conns[k].b))
  }

  /** Rewriting one connection within its stage. */
  lemma RewriteIsNeutral(st: Net, st': Net, k: ConnId, c: Conn)
    requires k < |st.conns| && SameStage(st.conns[k], c) && st'.conns == st.conns[k := c]
    requires st'.agents == st.agents && st'.registry == st.registry && st'.log == st.log
    ensures Neutral(st, st')
  {
  }

  lemma NeutralKeeps(st: Net, st': Net)
    requires Attached(st) && Neutral(st, st')
    ensures Attached(st')
  {
    forall d
      ensures Current(st', d)
    {
      assert Current(st, d);
      LastIsLogged(st.log, d);
    }
    forall a | a in st'.log
      ensures Superseded(st', a)
    {
      assert Superseded(st, a);
    }
    forall d | d in st'.registry
      ensures Listed(st', d)
    {
      assert Listed(st, d);
    }
  }

  /** The four steps of broker.go that change `b.agents` or the registry. */
  predicate TableStep(st: Net, act: Action) {
    act.Broker? && act.k < |st.conns|
    && (st.conns[act.k].b.BAttach? || st.conns[act.k].b.BAdd? || st.conns[act.k].b.BDetach? || st.conns[act.k].b.BRemove?)
  }

  lemma BrokerAloneIsNeutral(c: Conn, ok: bool)
    requires (c.b.BRegister? || c.b.BServe?) && ok ==> c.toBroker != []
    requires BrokerSubject(c.b).None? && !c.b.BAttach? && !c.b.BAdd? && !c.b.BDetach? && !c.b.BRemove? && !c.b.BDone?
    ensures SameStage(c, BrokerAlone(c, ok))
  {
  }

  lemma BrokerSubjectIsNeutral(c: Conn, present: bool)
    requires BrokerSubject(c.b).Some?
    ensures SameStage(c, c.(b := BrokerGoes(c.b, present)))
  {
  }

  lemma BrokerIsNeutral(st: Net, k: ConnId, ok: bool)
    requires Enabled(st, Broker(k, ok)) && !TableStep(st, Broker(k, ok))
    ensures Neutral(st, Next(st, Broker(k, ok)))
  {
    var c := st.conns[k];
    if BrokerSubject(c.b).None? {
      BrokerAloneIsNeutral(c, ok);
      RewriteIsNeutral(st, Next(st, Broker(k, ok)), k, BrokerAlone(c, ok));
    } else {
      var s := BrokerSubject(c.b).value;
      BrokerSubjectIsNeutral(c, s in st.sessions);
      RewriteIsNeutral(st, Next(st, Broker(k, ok)), k, c.(b := BrokerGoes(c.b, s in st.sessions)));
    }
  }

  /** Steps that change neither the broker's program counter nor its registration. */
  predicate SameDesk(c: Conn, c': Conn) { c'.b == c.b && c'.reg == c.reg && (c.down ==> c'.down) }

  lemma SameDeskSameStage(c: Conn, c': Conn)
    requires SameDesk(c, c')
    ensures SameStage(c, c')
  {
  }

  lemma AgentAloneIsNeutral(c: Conn, ok: bool)
    requires (c.a.AAwait? || c.a.AServe?) && ok ==> c.toAgent != []
    ensures SameDesk(c, AgentAlone(c, ok)) && AgentAlone(c, ok).down == c.down
  {
  }

  lemma AgentIsNeutral(st: Net, k: ConnId, ok: bool, n: nat)
    requires Enabled(st, Agent(k, ok, n)) && AgentSubject(st.conns[k].a).None? && !st.conns[k].a.AStop?
    ensures Neutral(st, Next(st, Agent(k, ok, n)))
  {
    var c := st.conns[k];
    AgentAloneIsNeutral(c, ok);
    SameDeskSameStage(c, AgentAlone(c, ok));
    RewriteIsNeutral(st, Next(st, Agent(k, ok, n)), k, AgentAlone(c, ok));
  }

  lemma AgentStopIsNeutral(st: Net, k: ConnId, ok: bool, n: nat)
    requires Enabled(st, Agent(k, ok, n)) && st.conns[k].a.AStop?
    ensures Neutral(st, Next(st, Agent(k, ok, n)))
  {
    var c := st.conns[k];
    var c' := if c.a.todo == map[] then c.(a := ALeft) else c.(a := AStop(c.a.todo - {n}));
    SameDeskSameStage(c, c');
    RewriteIsNeutral(st, Next(st, Agent(k, ok, n)), k, c');
  }

  lemma AgentSubjectIsNeutral(st: Net, k: ConnId, ok: bool, n: nat)
    requires Enabled(st, Agent(k, ok, n)) && AgentSubject(st.conns[k].a).Some?
    ensures Neutral(st, Next(st, Agent(k, ok, n)))
  {
    var c, s := st.conns[k], AgentSubject(st.conns[k].a).value;
    var c' := AgentConn(c, st.sess[s], s, ok);
    SameDeskSameStage(c, c');
    RewriteIsNeutral(st, Next(st, Agent(k, ok, n)), k, c');
  }

  lemma ThreadIsNeutral(st: Net, act: Action)
    requires Enabled(st, act) && (act.Handler? || act.Pump?)
    ensures Neutral(st, Next(st, act))
  {
    var k := st.sess[act.s].owner;
    var c' := if act.Handler? then HandlerConn(st.conns[k], st.sess[act.s], act.s, act.ok)
              else PumpConn(st.conns[k], st.sess[act.s], act.s, act.i, act.ok);
    SameDeskSameStage(st.conns[k], c');
    RewriteIsNeutral(st, Next(st, act), k, c');
  }

  lemma OtherIsNeutral(st: Net, act: Action)
    requires Enabled(st, act) && !act.Broker? && !act.Agent? && !act.Handler? && !act.Pump?
    ensures Neutral(st, Next(st, act))
  {
  }

  // ----- the four steps -----

  /** What an attachment changes: the connection it replaces goes down. */
  predicate AttachStep(st: Net, k: ConnId, st': Net)
    requires k < |st.conns|
  {
    var d := st.conns[k].reg.device;
    && !Past(st.conns[k].b) && |st'.conns| == |st.conns|
    && (forall j | 0 <= j < |st.conns| && j != k ::
          st'.conns[j].b == st.conns[j].b && st'.conns[j].reg == st.conns[j].reg
          && (st.conns[j].down || (d in st.agents && st.agents[d] == j) ==> st'.conns[j].down))
    && st'.conns[k].b.BAdd? && st'.conns[k].reg == st.conns[k].reg
    && st'.agents == st.agents[d := k] && st'.registry == st.registry && st'.log == st.log + [Attachment(d, k)]
  }

  lemma AttachIsStep(st: Net, k: ConnId, ok: bool)
    requires Owned(st) && Enabled(st, Broker(k, ok)) && st.conns[k].b.BAttach?
    ensures AttachStep(st, k, Next(st, Broker(k, ok)))
  {
  }

  lemma AttachCurrent(st: Net, k: ConnId, st': Net, d: DeviceId)
    requires k < |st.conns| && AttachStep(st, k, st') && Current(st, d) && Logged(st)
    ensures Current(st', d)
  {
    LastAfter(st.log, Attachment(st.conns[k].reg.device, k), d);
    LastIsLogged(st.log, d);
  }

  lemma AttachSuperseded(st: Net, k: ConnId, st': Net, a: Attachment)
    requires k < |st.conns| && AttachStep(st, k, st') && a in st'.log && Logged(st)
    requires a in st.log ==> Superseded(st, a) && Current(st, a.device)
    ensures Superseded(st', a)
  {
    LastAfter(st.log, Attachment(st.conns[k].reg.device, k), a.device);
  }

  lemma AttachKeeps(st: Net, k: ConnId, st': Net)
    requires Attached(st) && k < |st.conns| && AttachStep(st, k, st')
    ensures Attached(st')
  {
    forall d
      ensures Current(st', d)
    {
      assert Current(st, d);
      AttachCurrent(st, k, st', d);
    }
    forall a | a in st'.log
      ensures Superseded(st', a)
    {
      assert Current(st, a.device);
      AttachSuperseded(st, k, st', a);
    }
    forall d | d in st'.registry
      ensures Listed(st', d)
    {
      assert Listed(st, d);
    }
  }

  /** What `reg.Add` and the two removals change. */
  predicate DeskStep(st: Net, k: ConnId, b: BrokerPc, st': Net)
    requires k < |st.conns|
  {
    && st'.conns == st.conns[k := st.conns[k].(b := b)] && st'.log == st.log
    && var d := st.conns[k].reg.device;
       || (st.conns[k].b.BAdd? && b.BAnnounce? && st'.agents == st.agents && st'.registry == T.Add(st.registry, d, k))
       || (st.conns[k].b.BDetach? && b.BRemove? && st'.agents == T.Detach(st.agents, d, k) && st'.registry == st.registry)
       || (st.conns[k].b.BRemove? && b.BDone? && st'.agents == st.agents && st'.registry == T.Remove(st.registry, d))
  }

  lemma TableStepIsDeskStep(st: Net, k: ConnId, ok: bool)
    requires Enabled(st, Broker(k, ok)) && TableStep(st, Broker(k, ok)) && !st.conns[k].b.BAttach?
    ensures DeskStep(st, k, Next(st, Broker(k, ok)).conns[k].b, Next(st, Broker(k, ok)))
  {
  }

  lemma DeskStepCurrent(st: Net, k: ConnId, b: BrokerPc, st': Net, d: DeviceId)
    requires k < |st.conns| && DeskStep(st, k, b, st') && Logged(st) && Current(st, d)
    ensures Current(st', d)
  {
    LastIsLogged(st.log, d);
  }

  lemma DeskStepLogged(st: Net, k: ConnId, b: BrokerPc, st': Net)
    requires k < |st.conns| && DeskStep(st, k, b, st') && Logged(st)
    ensures Logged(st')
  {
  }

  lemma DeskStepListed(st: Net, k: ConnId, b: BrokerPc, st': Net, d: DeviceId)
    requires k < |st.conns| && DeskStep(st, k, b, st') && Listed(st, d)
    ensures Listed(st', d)
  {
  }

  lemma DeskStepKeeps(st: Net, k: ConnId, b: BrokerPc, st': Net)
    requires Attached(st) && k < |st.conns| && DeskStep(st, k, b, st')
    ensures Attached(st')
  {
    DeskStepLogged(st, k, b, st');
    forall d
      ensures Current(st', d)
    {
      assert Current(st, d);
      DeskStepCurrent(st, k, b, st', d);
    }
    forall a | a in st'.log
      ensures Superseded(st', a)
    {
      assert Superseded(st, a);
    }
    forall d | d in st'.registry
      ensures Listed(st', d)
    {
      assert d in st.registry ==> Listed(st, d);
      DeskStepListed(st, k, b, st', d);
    }
  }

  lemma KeepsAttached(st: Net, act: Action)
    requires Attached(st) && Owned(st) && Enabled(st, act)
    ensures Attached(Next(st, act))
  {
    if TableStep(st, act) {
      if st.conns[act.k].b.BAttach? {
        AttachIsStep(st, act.k, act.ok);
        AttachKeeps(st, act.k, Next(st, act));
      } else {
        TableStepIsDeskStep(st, act.k, act.ok);
        DeskStepKeeps(st, act.k, Next(st, act).conns[act.k].b, Next(st, act));
      }
    } else {
      StepIsNeutral(st, act);
      NeutralKeeps(st, Next(st, act));
    }
  }

  lemma StepIsNeutral(st: Net, act: Action)
    requires Enabled(st, act) && !TableStep(st, act)
    ensures Neutral(st, Next(st, act))
  {
    match act
    case Broker(k, ok) => BrokerIsNeutral(st, k, ok);
    case Agent(k, ok, n) =>
      if st.conns[k].a.AStop? { AgentStopIsNeutral(st, k, ok, n); }
      else if AgentSubject(st.conns[k].a).None? { AgentIsNeutral(st, k, ok, n); }
      else { AgentSubjectIsNeutral(st, k, ok, n); }
    case Handler(_, _) => ThreadIsNeutral(st, act);
    case Pump(_, _, _, _) => ThreadIsNeutral(st, act);
    case _ => OtherIsNeutral(st, act);
  }

  lemma {:induction false} AlwaysAttached(acts: seq<Action>)
    requires Run(acts).Some?
    ensures Attached(Run(acts).value)
  {
    if acts != [] {
      AlwaysAttached(acts[..|acts| - 1]);
      RunOwned(acts[..|acts| - 1]);
      KeepsAttached(Run(acts[..|acts| - 1]).value, acts[|acts| - 1]);
    }
  }

  // ----- what this means -----

  /** Once every handler of a device has ended, neither table lists the device. */
  lemma GoneFromBothTables(acts: seq<Action>, d: DeviceId)
    requires Run(acts).Some?
    requires forall k | 0 <= k < |Run(acts).value.conns| ::
               var c := Run(acts).value.conns[k]; Past(c.b) && c.reg.device == d ==> c.b.BDone?
    ensures d !in Run(acts).value.agents && d !in Run(acts).value.registry
  {
    var st := Run(acts).value;
    AlwaysAttached(acts);
    assert Current(st, d);
    LastIsLogged(st.log, d);
    assert d in st.registry ==> Listed(st, d);
  }

  /** A device in the registry has a handler between its `reg.Add` and its `reg.Remove`. */
  lemma CataloguedDevicesAreServed(acts: seq<Action>, d: DeviceId)
    requires Run(acts).Some? && d in Run(acts).value.registry
    ensures var st := Run(acts).value;
            var k := st.registry[d];
            k < |st.conns| && st.conns[k].reg.device == d && Catalogued(st.conns[k].b)
  {
    AlwaysAttached(acts);
    assert Listed(Run(acts).value, d);
  }

  /** `b.agents[d]` is the connection that registered last, and it stays until that connection's own
      removal; every other connection placed under `d` is closed or has left its read loop. */
  lemma LastRegisteredIsAttached(acts: seq<Action>, d: DeviceId)
    requires Run(acts).Some?
    ensures Current(Run(acts).value, d)
    ensures forall a | a in Run(acts).value.log && a.device == d && LastFor(Run(acts).value.log, d) != Some(a.conn) ::
              a.conn < |Run(acts).value.conns|
              && (Run(acts).value.conns[a.conn].down || Left(Run(acts).value.conns[a.conn].b))
  {
    AlwaysAttached(acts);
    var st := Run(acts).value;
    assert Current(st, d);
    forall a | a in st.log && a.device == d && LastFor(st.log, d) != Some(a.conn)
      ensures a.conn < |st.conns| && (st.conns[a.conn].down || Left(st.conns[a.conn].b))
    {
      assert Superseded(st, a);
    }
  }

  /** A handler whose connection was replaced leaves `b.agents` as it is. */
  lemma StaleHandlersDetachNothing(acts: seq<Action>, k: ConnId, ok: bool)
    requires Run(acts).Some? && Enabled(Run(acts).value, Broker(k, ok)) && Run(acts).value.conns[k].b.BDetach?
    ensures var st := Run(acts).value; var d := st.conns[k].reg.device;
            Next(st, Broker(k, ok)).agents
            == if LastFor(st.log, d) == Some(k) then st.agents - {d} else st.agents
  {
    AlwaysAttached(acts);
    var st := Run(acts).value;
    assert Current(st, st.conns[k].reg.device);
    LastIsLogged(st.log, st.conns[k].reg.device);
  }

  // ----- runs in which no device is attached twice at a time -----

  /** The handler is between its attachment and its `reg.Remove`. */
  predicate Active(b: BrokerPc) { Past(b) && !b.BDone? }

  /** The step does not attach a device that another handler still serves. */
  predicate Calm(st: Net, act: Action) {
    act.Broker? && act.k < |st.conns| && st.conns[act.k].b.BAttach? ==>
      forall j | 0 <= j < |st.conns| :: Active(st.conns[j].b) ==> st.conns[j].reg.device != st.conns[act.k].reg.device
  }

  predicate CalmRun(acts: seq<Action>) {
    Run(acts).Some? &&
    (acts == [] || (CalmRun(acts[..|acts| - 1]) && Calm(Run(acts[..|acts| - 1]).value, acts[|acts| - 1])))
  }

  /** One active handler at most, and the registry lists the device while it is catalogued. */
  predicate Paired(st: Net, d: DeviceId) {
    var k := LastFor(st.log, d);
    && (forall j | 0 <= j < |st.conns| && Active(st.conns[j].b) && st.conns[j].reg.device == d :: k == Some(j))
    && (d in st.registry <==> k.Some? && k.value < |st.conns| && Catalogued(st.conns[k.value].b))
  }

  lemma NeutralKeepsPaired(st: Net, st': Net, d: DeviceId)
    requires Logged(st) && Neutral(st, st') && Paired(st, d)
    ensures Paired(st', d)
  {
    LastIsLogged(st.log, d);
  }

  lemma AttachKeepsPaired(st: Net, k: ConnId, st': Net, d: DeviceId)
    requires k < |st.conns| && AttachStep(st, k, st') && Logged(st) && Paired(st, d)
    requires forall j | 0 <= j < |st.conns| :: Active(st.conns[j].b) ==> st.conns[j].reg.device != st.conns[k].reg.device
    ensures Paired(st', d)
  {
    LastAfter(st.log, Attachment(st.conns[k].reg.device, k), d);
    LastIsLogged(st.log, d);
  }

  lemma DeskStepKeepsPaired(st: Net, k: ConnId, b: BrokerPc, st': Net, d: DeviceId)
    requires k < |st.conns| && DeskStep(st, k, b, st') && Logged(st) && Paired(st, d)
    ensures Paired(st', d)
  {
    LastIsLogged(st.log, d);
  }

  lemma {:induction false} AlwaysPaired(acts: seq<Action>, d: DeviceId)
    requires CalmRun(acts)
    ensures Paired(Run(acts).value, d)
  {
    if acts != [] {
      var before, act := acts[..|acts| - 1], acts[|acts| - 1];
      var st := Run(before).value;
      AlwaysPaired(before, d);
      AlwaysAttached(before);
      RunOwned(before);
      if !TableStep(st, act) {
        StepIsNeutral(st, act);
        NeutralKeepsPaired(st, Next(st, act), d);
      } else if st.conns[act.k].b.BAttach? {
        AttachIsStep(st, act.k, act.ok);
        AttachKeepsPaired(st, act.k, Next(st, act), d);
      } else {
        TableStepIsDeskStep(st, act.k, act.ok);
        DeskStepKeepsPaired(st, act.k, Next(st, act).conns[act.k].b, Next(st, act), d);
      }
    }
  }

  /** Without overlapping attachments the two tables list the same devices, except for a handler that
      has attached and not yet added, or removed itself from one and not yet from the other. */
  lemma SameDevices(acts: seq<Action>, d: DeviceId)
    requires CalmRun(acts)
    requires forall k | 0 <= k < |Run(acts).value.conns| && Run(acts).value.conns[k].reg.device == d ::
               !Run(acts).value.conns[k].b.BAdd? && !Run(acts).value.conns[k].b.BRemove?
    ensures d in Run(acts).value.agents <==> d in Run(acts).value.registry
  {
    AlwaysPaired(acts, d);
    AlwaysAttached(acts);
    assert Current(Run(acts).value, d);
    LastIsLogged(Run(acts).value.log, d);
  }
}
