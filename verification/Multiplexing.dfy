/** Every session sees the shared network as a machine of its own: each step of the network is, for
    each session, one move of Lane.dfy or nothing at all. */
module Multiplexing {
  import opened Protocol
  import opened Threads
  import opened Lane
  import opened Network
  import opened LaneSafety
  import opened LaneStreams
  import T = BrokerTables

  // ----- what the shared state looks like to one session -----

  function Narrow(todo: map<SessionId, nat>, s: SessionId): map<SessionId, nat> {
    if s in todo then map[s := todo[s]] else map[]
  }

  function AgentView(a: AgentPc, s: SessionId): AgentPc {
    if a.ARegister? then AAwait
    else if a.AStop? then AStop(Narrow(a.todo, s))
    else if a.AAwait? || a.AServe? || a.ALeft? || AgentSubject(a) == Some(s) then a
    else AServe
  }

  function BrokerView(b: BrokerPc, s: SessionId): BrokerPc {
    if b.BDetach? || b.BRemove? || b.BDone? then BDone
    else if BrokerSubject(b) == Some(s) then b
    else BServe
  }

  function View(c: Conn, x: Sess, listed: bool, s: SessionId): Lane {
    Lane(s, x, listed, c.down, Only(c.toAgent, s), Only(c.toBroker, s),
         AgentView(c.a, s), BrokerView(c.b, s), Lookup(c.shells, s))
  }

  function LaneOf(st: Net, s: SessionId): Lane
    requires Live(st, s)
  {
    View(Owner(st, s), st.sess[s], s in st.sessions, s)
  }

  // ----- ownership: everything on a connection that names a session names one of its own -----

  predicate Mine(sess: seq<Sess>, k: ConnId, s: SessionId) {
    s < |sess| && sess[s].owner == k
  }

  predicate MineIfAny(sess: seq<Sess>, k: ConnId, s: Option<SessionId>) {
    s.Some? ==> Mine(sess, k, s.value)
  }

  predicate Past(b: BrokerPc) {
    !b.BRegister? && !b.BVerify? && !b.BReject? && !b.BQuit? && !b.BAttach?
  }

  predicate ConnOwned(sess: seq<Sess>, k: ConnId, c: Conn) {
    && (forall i | 0 <= i < |c.toAgent| :: MineIfAny(sess, k, Subject(c.toAgent[i])))
    && (forall i | 0 <= i < |c.toBroker| :: MineIfAny(sess, k, Subject(c.toBroker[i])))
    && (forall s | s in c.shells :: Mine(sess, k, s))
    && MineIfAny(sess, k, AgentSubject(c.a))
    && MineIfAny(sess, k, BrokerSubject(c.b))
    && (c.a.AStop? ==> forall s | s in c.a.todo :: Mine(sess, k, s))
    && (c.b.BDetach? || c.b.BRemove? || c.b.BDone? ==> c.down)
  }

  predicate Owned(st: Net) {
    && (forall s | 0 <= s < |st.sess| :: st.sess[s].owner < |st.conns| && Past(st.conns[st.sess[s].owner].b))
    && (forall k | 0 <= k < |st.conns| :: ConnOwned(st.sess, k, st.conns[k]))
    && (forall s | s in st.sessions :: Mine(st.sess, st.sessions[s], s))
    && (forall d | d in st.agents :: st.agents[d] < |st.conns| && Past(st.conns[st.agents[d]].b))
  }

  /** Sessions keep their owner, and new ones are added at the end. */
  predicate SameOwners(sess: seq<Sess>, sess': seq<Sess>) {
    |sess| <= |sess'| && forall s | 0 <= s < |sess| :: sess'[s].owner == sess[s].owner
  }

  lemma StillOwned(sess: seq<Sess>, sess': seq<Sess>, k: ConnId, c: Conn)
    requires SameOwners(sess, sess') && ConnOwned(sess, k, c)
    ensures ConnOwned(sess', k, c)
  {
  }

  predicate Within(agents': map<DeviceId, ConnId>, agents: map<DeviceId, ConnId>) {
    forall d | d in agents' :: d in agents && agents'[d] == agents[d]
  }

  /** A step that rewrites sessions and one connection keeps ownership. */
  lemma RewriteKeepsOwned(st: Net, st': Net, k: ConnId, c: Conn)
    requires Owned(st) && k < |st.conns| && ConnOwned(st.sess, k, c) && (Past(st.conns[k].b) ==> Past(c.b))
    requires SameOwners(st.sess, st'.sess) && |st'.sess| == |st.sess| && st'.conns == st.conns[k := c]
    requires Within(st'.agents, st.agents)
    requires forall s | s in st'.sessions :: Mine(st.sess, st'.sessions[s], s)
    ensures Owned(st')
  {
    forall j | 0 <= j < |st'.conns|
      ensures ConnOwned(st'.sess, j, st'.conns[j])
    {
      StillOwned(st.sess, st'.sess, j, st'.conns[j]);
    }
  }

  lemma HandlerOwned(sess: seq<Sess>, k: ConnId, c: Conn, x: Sess, s: SessionId, ok: bool)
    requires ConnOwned(sess, k, c) && Mine(sess, k, s)
    ensures ConnOwned(sess, k, HandlerConn(c, x, s, ok))
  {
  }

  lemma HandlerKeepsOwned(st: Net, s: SessionId, ok: bool)
    requires Owned(st) && Enabled(st, Handler(s, ok))
    ensures Owned(Next(st, Handler(s, ok)))
  {
    var k := st.sess[s].owner;
    HandlerOwned(st.sess, k, st.conns[k], st.sess[s], s, ok);
    RewriteKeepsOwned(st, Next(st, Handler(s, ok)), k, HandlerConn(st.conns[k], st.sess[s], s, ok));
  }

  lemma PumpOwned(sess: seq<Sess>, k: ConnId, c: Conn, x: Sess, s: SessionId, i: nat, ok: bool)
    requires ConnOwned(sess, k, c) && Mine(sess, k, s) && i < |x.shells|
    ensures ConnOwned(sess, k, PumpConn(c, x, s, i, ok))
  {
  }

  lemma PumpKeepsOwned(st: Net, s: SessionId, i: nat, ok: bool, n: nat)
    requires Owned(st) && Enabled(st, Pump(s, i, ok, n))
    ensures Owned(Next(st, Pump(s, i, ok, n)))
  {
    var k := st.sess[s].owner;
    PumpOwned(st.sess, k, st.conns[k], st.sess[s], s, i, ok);
    RewriteKeepsOwned(st, Next(st, Pump(s, i, ok, n)), k, PumpConn(st.conns[k], st.sess[s], s, i, ok));
  }

  lemma AgentAloneOwned(sess: seq<Sess>, k: ConnId, c: Conn, ok: bool)
    requires ConnOwned(sess, k, c) && ((c.a.AAwait? || c.a.AServe?) && ok ==> c.toAgent != [])
    ensures ConnOwned(sess, k, AgentAlone(c, ok)) && AgentAlone(c, ok).b == c.b
  {
  }

  lemma AgentSubjectOwned(sess: seq<Sess>, k: ConnId, c: Conn, x: Sess, ok: bool)
    requires ConnOwned(sess, k, c) && AgentSubject(c.a).Some?
    ensures ConnOwned(sess, k, AgentConn(c, x, AgentSubject(c.a).value, ok))
  {
  }

  lemma AgentStopOwned(sess: seq<Sess>, k: ConnId, c: Conn, n: nat)
    requires ConnOwned(sess, k, c) && c.a.AStop?
    ensures ConnOwned(sess, k, c.(a := ALeft)) && ConnOwned(sess, k, c.(a := AStop(c.a.todo - {n})))
  {
  }

  lemma AgentStopKeepsOwned(st: Net, k: ConnId, ok: bool, n: nat)
    requires Owned(st) && Enabled(st, Agent(k, ok, n)) && st.conns[k].a.AStop?
    ensures Owned(Next(st, Agent(k, ok, n)))
  {
    var c := st.conns[k];
    AgentStopOwned(st.sess, k, c, n);
    RewriteKeepsOwned(st, Next(st, Agent(k, ok, n)), k,
                      if c.a.todo == map[] then c.(a := ALeft) else c.(a := AStop(c.a.todo - {n})));
  }

  lemma AgentAloneKeepsOwned(st: Net, k: ConnId, ok: bool, n: nat)
    requires Owned(st) && Enabled(st, Agent(k, ok, n)) && !st.conns[k].a.AStop? && AgentSubject(st.conns[k].a).None?
    ensures Owned(Next(st, Agent(k, ok, n)))
  {
    AgentAloneOwned(st.sess, k, st.conns[k], ok);
    RewriteKeepsOwned(st, Next(st, Agent(k, ok, n)), k, AgentAlone(st.conns[k], ok));
  }

  lemma AgentKeepsOwned(st: Net, k: ConnId, ok: bool, n: nat)
    requires Owned(st) && Enabled(st, Agent(k, ok, n)) && AgentSubject(st.conns[k].a).Some?
    ensures Owned(Next(st, Agent(k, ok, n)))
  {
    var c, s := st.conns[k], AgentSubject(st.conns[k].a).value;
    AgentSubjectOwned(st.sess, k, c, st.sess[s], ok);
    RewriteKeepsOwned(st, Next(st, Agent(k, ok, n)), k, AgentConn(c, st.sess[s], s, ok));
  }

  /** Program counters at which the broker's handler changes one of its tables, besides BAttach. */
  predicate TablePc(b: BrokerPc) { b.BAdd? || b.BDetach? || b.BRemove? }

  lemma BrokerAloneOwned(sess: seq<Sess>, k: ConnId, c: Conn, ok: bool)
    requires ConnOwned(sess, k, c) && BrokerSubject(c.b).None? && !TablePc(c.b) && !c.b.BDone? && !c.b.BAttach?
    requires c.b.BRegister? && ok ==> c.toBroker != []
    requires c.b.BServe? ==> if ok then c.toBroker != [] else c.down
    ensures ConnOwned(sess, k, BrokerAlone(c, ok)) && (Past(c.b) ==> Past(BrokerAlone(c, ok).b))
  {
  }

  lemma BrokerAloneKeepsOwned(st: Net, k: ConnId, ok: bool)
    requires Owned(st) && Enabled(st, Broker(k, ok)) && !st.conns[k].b.BAttach?
    requires BrokerSubject(st.conns[k].b).None? && !TablePc(st.conns[k].b)
    ensures Owned(Next(st, Broker(k, ok)))
  {
    BrokerAloneOwned(st.sess, k, st.conns[k], ok);
    RewriteKeepsOwned(st, Next(st, Broker(k, ok)), k, BrokerAlone(st.conns[k], ok));
  }

  lemma TableStepOwned(sess: seq<Sess>, k: ConnId, c: Conn, b: BrokerPc)
    requires ConnOwned(sess, k, c) && (c.b.BDetach? || c.b.BRemove? || b.BAnnounce?) && (b.BAnnounce? || b.BRemove? || b.BDone?)
    ensures ConnOwned(sess, k, c.(b := b)) && Past(b)
  {
  }

  lemma TableStepKeepsOwned(st: Net, k: ConnId, ok: bool)
    requires Owned(st) && Enabled(st, Broker(k, ok)) && TablePc(st.conns[k].b)
    ensures Owned(Next(st, Broker(k, ok)))
  {
    var c := st.conns[k];
    var c' := c.(b := if c.b.BAdd? then BAnnounce else if c.b.BDetach? then BRemove else BDone);
    TableStepOwned(st.sess, k, c, c'.b);
    RewriteKeepsOwned(st, Next(st, Broker(k, ok)), k, c');
  }

  lemma BrokerSubjectOwned(sess: seq<Sess>, k: ConnId, c: Conn, present: bool)
    requires ConnOwned(sess, k, c) && BrokerSubject(c.b).Some?
    ensures ConnOwned(sess, k, c.(b := BrokerGoes(c.b, present)))
    ensures Past(BrokerGoes(c.b, present))
  {
  }

  lemma BrokerSubjectKeepsOwned(st: Net, k: ConnId, ok: bool)
    requires Owned(st) && Enabled(st, Broker(k, ok)) && BrokerSubject(st.conns[k].b).Some?
    ensures Owned(Next(st, Broker(k, ok)))
  {
    var c, s := st.conns[k], BrokerSubject(st.conns[k].b).value;
    BrokerSubjectOwned(st.sess, k, c, s in st.sessions);
    RewriteKeepsOwned(st, Next(st, Broker(k, ok)), k, c.(b := BrokerGoes(c.b, s in st.sessions)));
  }

  /** The second half of an attachment, on a network whose older attachment is closed already. */
  function Placing(st: Net, k: ConnId, log: seq<Attachment>): Net
    requires k < |st.conns|
  {
    st.(conns := st.conns[k := st.conns[k].(b := BAdd)],
        agents := T.Attach(st.agents, st.conns[k].reg.device, k), log := log)
  }

  lemma PlacingKeepsOwned(st: Net, k: ConnId, log: seq<Attachment>)
    requires Owned(st) && k < |st.conns| && st.conns[k].b.BAttach?
    ensures Owned(Placing(st, k, log))
  {
    RewriteKeepsOwned(st, Placing(st, k, log).(agents := st.agents), k, st.conns[k].(b := BAdd));
  }

  lemma AttachKeepsOwned(st: Net, k: ConnId, ok: bool)
    requires Owned(st) && Enabled(st, Broker(k, ok)) && st.conns[k].b.BAttach?
    ensures Owned(Next(st, Broker(k, ok)))
  {
    var log := st.log + [Attachment(st.conns[k].reg.device, k)];
    var prev := T.Attached(st.agents, st.conns[k].reg.device);
    if prev.Some? {
      CutKeepsOwned(st, prev.value);
      PlacingKeepsOwned(st.(conns := CloseConn(st.conns, prev.value)), k, log);
    } else {
      PlacingKeepsOwned(st, k, log);
    }
  }

  lemma SessionKeepsOwned(st: Net, act: Action)
    requires Owned(st) && Enabled(st, act) && (act.Type? || act.Leave? || act.Produce? || act.Exit?)
    ensures Owned(Next(st, act))
  {
    var k := st.sess[act.s].owner;
    RewriteKeepsOwned(st, Next(st, act), k, st.conns[k]);
  }

  lemma CutKeepsOwned(st: Net, k: ConnId)
    requires Owned(st) && k < |st.conns|
    ensures Owned(st.(conns := CloseConn(st.conns, k)))
  {
    RewriteKeepsOwned(st, st.(conns := CloseConn(st.conns, k)), k, st.conns[k].(down := true));
  }

  lemma DialKeepsOwned(st: Net, cfg: Registration)
    requires Owned(st)
    ensures Owned(Next(st, Dial(cfg)))
  {
  }

  lemma VisitKeepsOwned(st: Net, d: DeviceId)
    requires Owned(st) && Enabled(st, Visit(d))
    ensures Owned(Next(st, Visit(d)))
  {
    var st' := Next(st, Visit(d));
    forall j | 0 <= j < |st'.conns|
      ensures ConnOwned(st'.sess, j, st'.conns[j])
    {
      StillOwned(st.sess, st'.sess, j, st.conns[j]);
    }
  }

  lemma KeepsOwned(st: Net, act: Action)
    requires Owned(st) && Enabled(st, act)
    ensures Owned(Next(st, act))
  {
    match act
    case Handler(s, ok) => HandlerKeepsOwned(st, s, ok);
    case Pump(s, i, ok, n) => PumpKeepsOwned(st, s, i, ok, n);
    case Agent(k, ok, n) =>
      if st.conns[k].a.AStop? { AgentStopKeepsOwned(st, k, ok, n); }
      else if AgentSubject(st.conns[k].a).None? { AgentAloneKeepsOwned(st, k, ok, n); }
      else { AgentKeepsOwned(st, k, ok, n); }
    case Broker(k, ok) =>
      if st.conns[k].b.BAttach? { AttachKeepsOwned(st, k, ok); }
      else if TablePc(st.conns[k].b) { TableStepKeepsOwned(st, k, ok); }
      else if BrokerSubject(st.conns[k].b).None? { BrokerAloneKeepsOwned(st, k, ok); }
      else { BrokerSubjectKeepsOwned(st, k, ok); }
    case Cut(k) => CutKeepsOwned(st, k);
    case Dial(cfg) => DialKeepsOwned(st, cfg);
    case Visit(d) => VisitKeepsOwned(st, d);
    case _ => SessionKeepsOwned(st, act);
  }

  // ----- the simulation -----

  /** The move that session `s` makes in a step of the network. */
  function Projected(st: Net, act: Action, s: SessionId): Option<Move>
    requires Enabled(st, act) && Live(st, s)
  {
    match act
    case Dial(_) => None
    case Visit(_) => None
    case Type(t, f) => if t == s then Some(MType(f)) else None
    case Leave(t) => if t == s then Some(MLeave) else None
    case Produce(t, i, d) => if t == s then Some(MProduce(i, d)) else None
    case Exit(t, i) => if t == s then Some(MExit(i)) else None
    case Cut(k) => if st.sess[s].owner == k then Some(MCut) else None
    case Handler(t, ok) => if t == s then Some(MHandler(ok)) else None
    case Pump(t, i, ok, n) => if t == s then Some(MPump(i, ok, n)) else None
    case Agent(k, ok, n) => if st.sess[s].owner == k then AgentProjected(st.conns[k], s, ok, n) else None
    case Broker(k, ok) =>
      if st.sess[s].owner == k then BrokerProjected(st.conns[k], s, ok)
      else if st.conns[k].b.BAttach? && T.Attached(st.agents, st.conns[k].reg.device) == Some(st.sess[s].owner) then Some(MCut)
      else None
  }

  function AgentProjected(c: Conn, s: SessionId, ok: bool, n: nat): Option<Move>
    requires (c.a.AAwait? || c.a.AServe?) && ok ==> c.toAgent != []
  {
    match c.a
    case ARegister => if ok then None else Some(MQuit(false))
    case AAwait =>
      if !ok then Some(MQuit(false))
      else if c.toAgent[0].Registered? then Some(MWelcome) else Some(MQuit(Names(c.toAgent[0], s)))
    case AServe => if !ok then Some(MAgent(false, 0)) else if Names(c.toAgent[0], s) then Some(MAgent(true, 0)) else None
    case AStop(todo) => if todo == map[] || n == s then Some(MAgent(true, 0)) else None
    case _ => if AgentSubject(c.a) == Some(s) then Some(MAgent(ok, n)) else None
  }

  function BrokerProjected(c: Conn, s: SessionId, ok: bool): Option<Move>
    requires (c.b.BRegister? || c.b.BServe?) && ok ==> c.toBroker != []
  {
    if c.b.BServe? then
      if !ok then Some(MBroker(false)) else if Names(c.toBroker[0], s) then Some(MBroker(true)) else None
    else if BrokerSubject(c.b) == Some(s) then Some(MBroker(ok)) else None
  }

  /** In the step `act`, session `s` makes the projected move. */
  predicate Follows(st: Net, act: Action, s: SessionId)
    requires Enabled(st, act) && Live(st, s)
  {
    Live(Next(st, act), s) && Moves(LaneOf(st, s), Projected(st, act, s), LaneOf(Next(st, act), s))
  }

  // One lemma for the session that a step is about, one for the others on its connection, and one for
  // the network.

  lemma HandlerMoves(c: Conn, x: Sess, listed: bool, s: SessionId, ok: bool)
    requires HandlerCan(x, c.down, ok)
    ensures Moves(View(c, x, listed, s), Some(MHandler(ok)),
                  View(HandlerConn(c, x, s, ok), HandlerDo(x, c.down, listed, ok), Listed(x.h, listed), s))
  {
    var m := HandlerSays(x, s, ok);
    if m.Some? { OnlyAppend(c.toAgent, m.value, s); }
  }

  lemma HandlerElsewhere(c: Conn, x: Sess, t: SessionId, ok: bool, y: Sess, listed: bool, s: SessionId)
    requires s != t
    ensures View(HandlerConn(c, x, t, ok), y, listed, s) == View(c, y, listed, s)
  {
    var m := HandlerSays(x, t, ok);
    if m.Some? { OnlyAppend(c.toAgent, m.value, s); }
  }

  lemma HandlerProjects(st: Net, t: SessionId, ok: bool, s: SessionId)
    requires Enabled(st, Handler(t, ok)) && Live(st, s)
    ensures Follows(st, Handler(t, ok), s)
  {
    if s == t { HandlerMoves(Owner(st, s), st.sess[s], s in st.sessions, s, ok); }
    else { HandlerElsewhere(Owner(st, t), st.sess[t], t, ok, st.sess[s], s in st.sessions, s); }
  }

  lemma PumpMoves(c: Conn, x: Sess, listed: bool, s: SessionId, i: nat, ok: bool, n: nat)
    requires PumpCan(x, i, c.down, ok, n)
    ensures Moves(View(c, x, listed, s), Some(MPump(i, ok, n)),
                  View(PumpConn(c, x, s, i, ok), PumpDo(x, i, c.down, ok, n, Lookup(c.shells, s)), listed, s))
  {
    var m := PumpSays(x, s, i, ok);
    if m.Some? { OnlyAppend(c.toBroker, m.value, s); }
  }

  lemma PumpElsewhere(c: Conn, x: Sess, t: SessionId, i: nat, ok: bool, y: Sess, listed: bool, s: SessionId)
    requires s != t && i < |x.shells|
    ensures View(PumpConn(c, x, t, i, ok), y, listed, s) == View(c, y, listed, s)
  {
    var m := PumpSays(x, t, i, ok);
    if m.Some? { OnlyAppend(c.toBroker, m.value, s); }
  }

  lemma PumpProjects(st: Net, t: SessionId, i: nat, ok: bool, n: nat, s: SessionId)
    requires Enabled(st, Pump(t, i, ok, n)) && Live(st, s)
    ensures Follows(st, Pump(t, i, ok, n), s)
  {
    if s == t { PumpMoves(Owner(st, s), st.sess[s], s in st.sessions, s, i, ok, n); }
    else { PumpElsewhere(Owner(st, t), st.sess[t], t, i, ok, st.sess[s], s in st.sessions, s); }
  }

  lemma AgentMoves(c: Conn, x: Sess, listed: bool, s: SessionId, ok: bool, n: nat)
    requires AgentSubject(c.a) == Some(s) && AgentCan(x, c.a, c.down, ok, n)
    ensures Moves(View(c, x, listed, s), Some(MAgent(ok, n)),
                  View(AgentConn(c, x, s, ok), AgentDo(x, c.a, c.down, ok, n), listed, s))
  {
    var m := AgentSays(c.a, ok);
    if m.Some? { OnlyAppend(c.toBroker, m.value, s); }
  }

  lemma AgentElsewhere(c: Conn, x: Sess, t: SessionId, ok: bool, y: Sess, listed: bool, s: SessionId)
    requires AgentSubject(c.a) == Some(t) && s != t
    ensures View(AgentConn(c, x, t, ok), y, listed, s) == View(c, y, listed, s)
  {
    var m := AgentSays(c.a, ok);
    if m.Some? { OnlyAppend(c.toBroker, m.value, s); }
  }

  lemma AgentAloneMoves(c: Conn, x: Sess, listed: bool, s: SessionId, ok: bool, n: nat)
    requires AgentSubject(c.a).None? && !c.a.AStop? && !c.a.ALeft?
    requires (c.a.AAwait? || c.a.AServe?) && ok ==> c.toAgent != []
    requires c.a.AAwait? || c.a.AServe? || c.a.ARegister? ==> ok || c.down
    ensures Moves(View(c, x, listed, s), AgentProjected(c, s, ok, n), View(AgentAlone(c, ok), x, listed, s))
  {
    OnlyAppend(c.toBroker, Register(c.cfg.device, c.cfg.token), s);
  }

  lemma AgentProjects(st: Net, k: ConnId, ok: bool, n: nat, s: SessionId)
    requires Enabled(st, Agent(k, ok, n)) && Live(st, s) && AgentSubject(st.conns[k].a) == Some(s)
    requires st.sess[s].owner == k
    ensures Follows(st, Agent(k, ok, n), s)
  {
    AgentLane(st, k, ok, n, s);
    AgentMoves(st.conns[k], st.sess[s], s in st.sessions, s, ok, n);
  }

  lemma AgentLane(st: Net, k: ConnId, ok: bool, n: nat, s: SessionId)
    requires Enabled(st, Agent(k, ok, n)) && Live(st, s) && AgentSubject(st.conns[k].a) == Some(s)
    requires st.sess[s].owner == k
    ensures var c, x, st' := st.conns[k], st.sess[s], Next(st, Agent(k, ok, n));
            && Live(st', s) && AgentCan(x, c.a, c.down, ok, n)
            && LaneOf(st', s) == View(AgentConn(c, x, s, ok), AgentDo(x, c.a, c.down, ok, n), s in st.sessions, s)
  {
    AgentNextIs(st, k, ok, n, s);
    AgentKeepsOwner(st.sess[s], st.conns[k].a, st.conns[k].down, ok, n);
  }

  lemma AgentNextIs(st: Net, k: ConnId, ok: bool, n: nat, s: SessionId)
    requires Enabled(st, Agent(k, ok, n)) && Live(st, s) && AgentSubject(st.conns[k].a) == Some(s)
    ensures var c, x := st.conns[k], st.sess[s];
            && AgentCan(x, c.a, c.down, ok, n)
            && Next(st, Agent(k, ok, n))
               == st.(sess := st.sess[s := AgentDo(x, c.a, c.down, ok, n)], conns := st.conns[k := AgentConn(c, x, s, ok)])
  {
  }

  lemma AgentKeepsOwner(x: Sess, a: AgentPc, down: bool, ok: bool, n: nat)
    requires AgentCan(x, a, down, ok, n)
    ensures AgentDo(x, a, down, ok, n).owner == x.owner
  {
  }

  lemma AgentSpares(st: Net, k: ConnId, ok: bool, n: nat, t: SessionId, s: SessionId)
    requires Enabled(st, Agent(k, ok, n)) && Live(st, s) && AgentSubject(st.conns[k].a) == Some(t) && s != t
    ensures Follows(st, Agent(k, ok, n), s)
  {
    AgentElsewhere(st.conns[k], st.sess[t], t, ok, st.sess[s], s in st.sessions, s);
  }

  lemma AgentAloneProjects(st: Net, k: ConnId, ok: bool, n: nat, s: SessionId)
    requires Enabled(st, Agent(k, ok, n)) && Live(st, s)
    requires !st.conns[k].a.AStop? && AgentSubject(st.conns[k].a).None?
    ensures Follows(st, Agent(k, ok, n), s)
  {
    if st.sess[s].owner == k { AgentAloneMoves(st.conns[k], st.sess[s], s in st.sessions, s, ok, n); }
  }

  /** `closeAll` closes the shell of session `t`. */
  lemma StoppingMoves(c: Conn, x: Sess, listed: bool, s: SessionId, t: SessionId)
    requires c.a.AStop? && t in c.a.todo && (t == s ==> c.a.todo[s] < |x.shells|)
    ensures var c' := c.(a := AStop(c.a.todo - {t}));
            Moves(View(c, x, listed, s), if t == s then Some(MAgent(true, 0)) else None,
                  View(c', if t == s then CloseShell(x, c.a.todo[s]) else x, listed, s))
  {
  }

  lemma StoppedMoves(c: Conn, x: Sess, listed: bool, s: SessionId)
    requires c.a.AStop? && c.a.todo == map[]
    ensures Moves(View(c, x, listed, s), Some(MAgent(true, 0)), View(c.(a := ALeft), x, listed, s))
  {
  }

  lemma AgentStopProjects(st: Net, k: ConnId, ok: bool, n: nat, s: SessionId)
    requires Enabled(st, Agent(k, ok, n)) && Live(st, s) && st.conns[k].a.AStop?
    requires ConnOwned(st.sess, k, st.conns[k])
    ensures Follows(st, Agent(k, ok, n), s)
  {
    var c := st.conns[k];
    if c.a.todo == map[] { StoppedMoves(c, st.sess[s], s in st.sessions, s); }
    else { StoppingMoves(c, st.sess[s], s in st.sessions, s, n); }
  }

  lemma BrokerMoves(c: Conn, x: Sess, listed: bool, s: SessionId, ok: bool)
    requires BrokerSubject(c.b) == Some(s) && BrokerCan(x, c.b, ok)
    ensures Moves(View(c, x, listed, s), Some(MBroker(ok)),
                  View(c.(b := BrokerGoes(c.b, listed)), BrokerDo(x, c.b, ok),
                       if c.b.BGot? && c.b.m.Close? then false else listed, s))
  {
  }

  lemma BrokerElsewhere(c: Conn, t: SessionId, present: bool, y: Sess, listed: bool, s: SessionId)
    requires BrokerSubject(c.b) == Some(t) && s != t
    ensures View(c.(b := BrokerGoes(c.b, present)), y, listed, s) == View(c, y, listed, s)
  {
  }

  lemma BrokerProjects(st: Net, k: ConnId, ok: bool, s: SessionId)
    requires Enabled(st, Broker(k, ok)) && Live(st, s) && BrokerSubject(st.conns[k].b) == Some(s)
    requires st.sess[s].owner == k
    ensures Follows(st, Broker(k, ok), s)
  {
    BrokerMoves(st.conns[k], st.sess[s], s in st.sessions, s, ok);
  }

  lemma BrokerSpares(st: Net, k: ConnId, ok: bool, t: SessionId, s: SessionId)
    requires Enabled(st, Broker(k, ok)) && Live(st, s) && BrokerSubject(st.conns[k].b) == Some(t) && s != t
    ensures Follows(st, Broker(k, ok), s)
  {
    BrokerElsewhere(st.conns[k], t, t in st.sessions, st.sess[s], s in st.sessions, s);
  }

  lemma BrokerAloneMoves(c: Conn, x: Sess, listed: bool, s: SessionId, ok: bool)
    requires Past(c.b) && BrokerSubject(c.b).None? && !c.b.BDone? && !TablePc(c.b)
    requires c.b.BServe? ==> if ok then c.toBroker != [] else c.down
    ensures Moves(View(c, x, listed, s), BrokerProjected(c, s, ok), View(BrokerAlone(c, ok), x, listed, s))
  {
    if c.b.BAnnounce? { OnlyAppend(c.toAgent, Registered, s); }
  }

  /** `reg.Add`, and the two removals, are invisible to a session. */
  lemma TableStepMoves(c: Conn, x: Sess, listed: bool, s: SessionId, b: BrokerPc)
    requires (c.b.BAdd? && b == BAnnounce) || (c.b.BDetach? && b == BRemove) || (c.b.BRemove? && b == BDone)
    ensures View(c.(b := b), x, listed, s) == View(c, x, listed, s)
  {
  }

  lemma TableStepProjects(st: Net, k: ConnId, ok: bool, s: SessionId)
    requires Enabled(st, Broker(k, ok)) && Live(st, s) && TablePc(st.conns[k].b)
    ensures Follows(st, Broker(k, ok), s)
  {
    TableStepMoves(st.conns[k], st.sess[s], s in st.sessions, s, Next(st, Broker(k, ok)).conns[k].b);
  }

  lemma BrokerAloneProjects(st: Net, k: ConnId, ok: bool, s: SessionId)
    requires Enabled(st, Broker(k, ok)) && Live(st, s)
    requires BrokerSubject(st.conns[k].b).None? && !st.conns[k].b.BAttach? && !TablePc(st.conns[k].b)
    requires st.sess[s].owner == k ==> Past(st.conns[k].b)
    ensures Follows(st, Broker(k, ok), s)
  {
    if st.sess[s].owner == k { BrokerAloneMoves(st.conns[k], st.sess[s], s in st.sessions, s, ok); }
  }

  lemma AttachProjects(st: Net, k: ConnId, ok: bool, s: SessionId)
    requires Enabled(st, Broker(k, ok)) && Live(st, s) && st.conns[k].b.BAttach?
    requires Past(Owner(st, s).b)
    ensures Follows(st, Broker(k, ok), s)
  {
  }

  lemma OutsideProjects(st: Net, act: Action, s: SessionId)
    requires Enabled(st, act) && Live(st, s) && (act.Type? || act.Leave? || act.Produce? || act.Exit?)
    ensures Follows(st, act, s)
  {
  }

  lemma OtherProjects(st: Net, act: Action, s: SessionId)
    requires Enabled(st, act) && Live(st, s) && (act.Dial? || act.Visit? || act.Cut?)
    ensures Follows(st, act, s)
  {
  }

  /** Multiplexing is transparent: whatever the network does, each session makes one move of its own
      machine or none. */
  lemma Projects(st: Net, act: Action, s: SessionId)
    requires Owned(st) && Enabled(st, act) && s < |st.sess|
    ensures Follows(st, act, s)
  {
    match act
    case Handler(t, ok) => HandlerProjects(st, t, ok, s);
    case Pump(t, i, ok, n) => PumpProjects(st, t, i, ok, n, s);
    case Agent(k, ok, n) =>
      var c := st.conns[k];
      if c.a.AStop? { AgentStopProjects(st, k, ok, n, s); }
      else if AgentSubject(c.a).None? { AgentAloneProjects(st, k, ok, n, s); }
      else if AgentSubject(c.a) == Some(s) { AgentProjects(st, k, ok, n, s); }
      else { AgentSpares(st, k, ok, n, AgentSubject(c.a).value, s); }
    case Broker(k, ok) =>
      if st.conns[k].b.BAttach? { AttachProjects(st, k, ok, s); }
      else if BrokerSubject(st.conns[k].b) == Some(s) { BrokerProjects(st, k, ok, s); }
      else if BrokerSubject(st.conns[k].b).Some? { BrokerSpares(st, k, ok, BrokerSubject(st.conns[k].b).value, s); }
      else if TablePc(st.conns[k].b) { TableStepProjects(st, k, ok, s); }
      else { BrokerAloneProjects(st, k, ok, s); }
    case Dial(_) => OtherProjects(st, act, s);
    case Visit(_) => OtherProjects(st, act, s);
    case Cut(_) => OtherProjects(st, act, s);
    case _ => OutsideProjects(st, act, s);
  }

  // ----- all sessions of all runs -----

  ghost predicate Inv(st: Net) {
    Owned(st) && AllLanes(st)
  }

  /** A session that has just been given its identifier. */
  lemma NewLane(st: Net, d: DeviceId)
    requires Owned(st) && Enabled(st, Visit(d))
    ensures Live(Next(st, Visit(d)), |st.sess|) && LaneInv(LaneOf(Next(st, Visit(d)), |st.sess|))
  {
    NobodyKnows(st, st.agents[d]);
    FirstLane(LaneOf(Next(st, Visit(d)), |st.sess|), st.agents[d]);
  }

  /** A session that nobody has heard of. */
  predicate Unknown(l: Lane, k: ConnId) {
    && l.x == NewSess(k) && !l.listed && l.toAgent == [] && l.toBroker == [] && l.table.None?
    && (l.a.AAwait? || l.a.AServe? || l.a == AStop(map[]) || l.a.ALeft?)
    && (l.b.BServe? || l.b.BDone?) && (l.b.BDone? ==> l.down)
  }

  lemma NobodyKnows(st: Net, k: ConnId)
    requires Owned(st) && k < |st.conns| && Past(st.conns[k].b)
    ensures Unknown(View(st.conns[k], NewSess(k), |st.sess| in st.sessions, |st.sess|), k)
  {
    var c := st.conns[k];
    assert ConnOwned(st.sess, k, c);
    OnlyNamesNobody(c.toAgent, |st.sess|);
    OnlyNamesNobody(c.toBroker, |st.sess|);
  }

  lemma FirstLane(l: Lane, k: ConnId)
    requires Unknown(l, k)
    ensures LaneInv(l)
  {
  }

  lemma OldLane(st: Net, act: Action, s: SessionId)
    requires Owned(st) && Enabled(st, act) && s < |st.sess| && LaneInv(LaneOf(st, s))
    ensures Live(Next(st, act), s) && LaneInv(LaneOf(Next(st, act), s))
  {
    Projects(st, act, s);
    Keeps(LaneOf(st, s), Projected(st, act, s), LaneOf(Next(st, act), s));
  }

  lemma SessionCount(st: Net, act: Action)
    requires Enabled(st, act)
    ensures |Next(st, act).sess| == |st.sess| + if act.Visit? then 1 else 0
  {
  }

  ghost predicate AllLanes(st: Net)
    requires Owned(st)
  {
    forall s | 0 <= s < |st.sess| :: LaneInv(LaneOf(st, s))
  }

  lemma OneLane(st: Net, act: Action, s: SessionId)
    requires Owned(st) && Enabled(st, act) && s < |Next(st, act).sess|
    requires s < |st.sess| ==> LaneInv(LaneOf(st, s))
    ensures Live(Next(st, act), s) && LaneInv(LaneOf(Next(st, act), s))
  {
    SessionCount(st, act);
    if s < |st.sess| { OldLane(st, act, s); } else { NewLane(st, act.device); }
  }

  lemma KeepsLanes(st: Net, act: Action)
    requires Owned(st) && Enabled(st, act) && Owned(Next(st, act)) && AllLanes(st)
    ensures AllLanes(Next(st, act))
  {
    forall s | 0 <= s < |Next(st, act).sess|
      ensures LaneInv(LaneOf(Next(st, act), s))
    {
      OneLane(st, act, s);
    }
  }

  lemma KeepsInv(st: Net, act: Action)
    requires Inv(st) && Enabled(st, act)
    ensures Inv(Next(st, act))
  {
    KeepsOwned(st, act);
    KeepsLanes(st, act);
  }

  /** In every reachable state every session satisfies the invariant of its machine. */
  lemma {:induction false} Reachable(acts: seq<Action>)
    requires Run(acts).Some?
    ensures Inv(Run(acts).value)
  {
    if acts != [] {
      Reachable(acts[..|acts| - 1]);
      KeepsInv(Run(acts[..|acts| - 1]).value, acts[|acts| - 1]);
    }
  }

  lemma RunOwned(acts: seq<Action>)
    requires Run(acts).Some?
    ensures Owned(Run(acts).value)
  {
    Reachable(acts);
  }
}
