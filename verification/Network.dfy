/** The broker, every agent that ever connected, every browser and every shell, as one transition
    system. A step lets one thread run up to its next lock boundary, channel operation, socket call
    or PTY call. */
module Network {
  import opened Protocol
  import opened Threads
  import T = BrokerTables

  /** What an agent was started with, and what the broker read from its `register`. */
  datatype Registration = Registration(device: DeviceId, token: Token)

  /** One control connection: the agent process at one end with its table of shells, the broker's
      handler at the other, and the two channels. */
  datatype Conn = Conn(
    cfg: Registration, reg: Registration, b: BrokerPc, a: AgentPc,
    toAgent: seq<Msg>, toBroker: seq<Msg>, down: bool, shells: map<SessionId, nat>)

  /** A connection placed in `b.agents` under a device. */
  datatype Attachment = Attachment(device: DeviceId, conn: ConnId)

  /** `agents`, `sessions` and `registry` are the broker's tables; a session's entry names the
      connection it was opened on, a registry entry the connection that added it. `log` is a history:
      the placements in `agents`, in order. */
  datatype Net = Net(
    conns: seq<Conn>, sess: seq<Sess>,
    agents: map<DeviceId, ConnId>, sessions: map<SessionId, ConnId>, registry: map<DeviceId, ConnId>,
    log: seq<Attachment>)

  const START := Net([], [], map[], map[], map[], [])

  datatype Action =
    | Dial(cfg: Registration)             // an agent connects and completes the handshake
    | Visit(device: DeviceId)             // a browser asks for a device that is attached
    | Type(s: SessionId, f: Frame)
    | Leave(s: SessionId)
    | Produce(s: SessionId, i: nat, d: Bytes)
    | Exit(s: SessionId, i: nat)
    | Cut(k: ConnId)
    | Handler(s: SessionId, ok: bool)
    | Pump(s: SessionId, i: nat, ok: bool, n: nat)
    | Agent(k: ConnId, ok: bool, n: nat)
    | Broker(k: ConnId, ok: bool)

  function Lookup(m: map<SessionId, nat>, s: SessionId): Option<nat> {
    if s in m then Some(m[s]) else None
  }

  function Store(m: map<SessionId, nat>, s: SessionId, v: Option<nat>): map<SessionId, nat> {
    if v.Some? then m[s := v.value] else m - {s}
  }

  predicate Live(st: Net, s: SessionId) {
    s < |st.sess| && st.sess[s].owner < |st.conns|
  }

  function Owner(st: Net, s: SessionId): Conn
    requires Live(st, s)
  {
    st.conns[st.sess[s].owner]
  }

  // ----- who may run -----

  predicate Enabled(st: Net, act: Action) {
    match act
    case Dial(_) => true
    case Visit(d) => d in st.agents
    case Type(s, _) => s < |st.sess| && !st.sess[s].browser.closed
    case Leave(s) => s < |st.sess| && !st.sess[s].browser.closed
    case Produce(s, i, _) =>
      s < |st.sess| && i < |st.sess[s].shells| && !st.sess[s].shells[i].exited && st.sess[s].shells[i].closes == 0
    case Exit(s, i) => s < |st.sess| && i < |st.sess[s].shells| && !st.sess[s].shells[i].exited
    case Cut(k) => k < |st.conns| && !st.conns[k].down
    case Handler(s, ok) => Live(st, s) && HandlerCan(st.sess[s], Owner(st, s).down, ok)
    case Pump(s, i, ok, n) => Live(st, s) && PumpCan(st.sess[s], i, Owner(st, s).down, ok, n)
    case Agent(k, ok, n) => k < |st.conns| && AgentEnabled(st, st.conns[k], ok, n)
    case Broker(k, ok) => k < |st.conns| && BrokerEnabled(st, st.conns[k], ok)
  }

  /** `n` chooses the shell that `closeAll` closes next. */
  predicate AgentEnabled(st: Net, c: Conn, ok: bool, n: nat) {
    match c.a
    case ARegister => ok || c.down
    case AAwait => if ok then c.toAgent != [] else c.down
    case AServe => if ok then c.toAgent != [] else c.down
    case AStop(todo) => ok && (todo == map[] || (n in todo && n < |st.sess| && todo[n] < |st.sess[n].shells|))
    case ALeft => false
    case _ =>
      var s := AgentSubject(c.a);
      if s.None? then ok else s.value < |st.sess| && AgentCan(st.sess[s.value], c.a, c.down, ok, n)
  }

  predicate BrokerEnabled(st: Net, c: Conn, ok: bool) {
    match c.b
    case BRegister => if ok then c.toBroker != [] else c.down
    case BVerify => true
    case BReject => ok || c.down
    case BAnnounce => ok || c.down
    case BServe => if ok then c.toBroker != [] else c.down
    case BDone => false
    case BQuit => ok
    case BAttach => ok
    case BAdd => ok
    case BDetach => ok
    case BRemove => ok
    case _ =>
      var s := BrokerSubject(c.b);
      if s.None? then ok else s.value < |st.sess| && BrokerCan(st.sess[s.value], c.b, ok)
  }

  // ----- what a step does -----

  function Next(st: Net, act: Action): Net
    requires Enabled(st, act)
  {
    match act
    case Dial(cfg) =>
      st.(conns := st.conns + [Conn(cfg, Registration("", ""), BRegister, ARegister, [], [], false, map[])])
    case Visit(d) => st.(sess := st.sess + [NewSess(st.agents[d])])
    case Type(s, f) => st.(sess := st.sess[s := Typing(st.sess[s], f)])
    case Leave(s) => st.(sess := st.sess[s := Leaving(st.sess[s])])
    case Produce(s, i, d) => st.(sess := st.sess[s := Producing(st.sess[s], i, d)])
    case Exit(s, i) => st.(sess := st.sess[s := Exiting(st.sess[s], i)])
    case Cut(k) => st.(conns := st.conns[k := st.conns[k].(down := true)])
    case Handler(s, ok) => HandlerNext(st, s, ok)
    case Pump(s, i, ok, n) => PumpNext(st, s, i, ok, n)
    case Agent(k, ok, n) => AgentNext(st, k, ok, n)
    case Broker(k, ok) => BrokerNext(st, k, ok)
  }

  /** What a step of a thread on session `s` does to the connection. */
  function HandlerConn(c: Conn, x: Sess, s: SessionId, ok: bool): Conn {
    c.(toAgent := Post(c.toAgent, HandlerSays(x, s, ok)))
  }

  function PumpConn(c: Conn, x: Sess, s: SessionId, i: nat, ok: bool): Conn
    requires i < |x.shells|
  {
    c.(toBroker := Post(c.toBroker, PumpSays(x, s, i, ok)),
       shells := if x.shells[i].pump.PClaim? then c.shells - {s} else c.shells)
  }

  function AgentConn(c: Conn, x: Sess, s: SessionId, ok: bool): Conn {
    var t := Lookup(c.shells, s);
    c.(a := AgentGoes(x, c.a, ok, t), shells := Store(c.shells, s, AgentTable(c.a, t)),
       toBroker := Post(c.toBroker, AgentSays(c.a, ok)))
  }

  function HandlerNext(st: Net, s: SessionId, ok: bool): Net
    requires Enabled(st, Handler(s, ok))
  {
    var x, c := st.sess[s], Owner(st, s);
    st.(sess := st.sess[s := HandlerDo(x, c.down, s in st.sessions, ok)],
        conns := st.conns[x.owner := HandlerConn(c, x, s, ok)],
        sessions := if x.h.HInsert? then T.Insert(st.sessions, s, x.owner)
                    else if x.h.HDrop? then T.Drop(st.sessions, s) else st.sessions)
  }

  function PumpNext(st: Net, s: SessionId, i: nat, ok: bool, n: nat): Net
    requires Enabled(st, Pump(s, i, ok, n))
  {
    var x, c := st.sess[s], Owner(st, s);
    st.(sess := st.sess[s := PumpDo(x, i, c.down, ok, n, Lookup(c.shells, s))],
        conns := st.conns[x.owner := PumpConn(c, x, s, i, ok)])
  }

  function AgentNext(st: Net, k: ConnId, ok: bool, n: nat): Net
    requires Enabled(st, Agent(k, ok, n))
  {
    var c := st.conns[k];
    if c.a.AStop? then
      if c.a.todo == map[] then st.(conns := st.conns[k := c.(a := ALeft)])
      else st.(sess := st.sess[n := CloseShell(st.sess[n], c.a.todo[n])],
               conns := st.conns[k := c.(a := AStop(c.a.todo - {n}))])
    else
      var s := AgentSubject(c.a);
      if s.None? then st.(conns := st.conns[k := AgentAlone(c, ok)])
      else
        var x := st.sess[s.value];
        st.(sess := st.sess[s.value := AgentDo(x, c.a, c.down, ok, n)],
            conns := st.conns[k := AgentConn(c, x, s.value, ok)])
  }

  /** Steps of the agent's loop that concern no session. */
  function AgentAlone(c: Conn, ok: bool): Conn
    requires (c.a.AAwait? || c.a.AServe?) && ok ==> c.toAgent != []
  {
    match c.a
    case ARegister =>
      if ok then c.(a := AAwait, toBroker := c.toBroker + [Register(c.cfg.device, c.cfg.token)]) else c.(a := ALeft)
    case AAwait =>
      if ok then c.(a := if c.toAgent[0].Registered? then AServe else ALeft, toAgent := c.toAgent[1..])
      else c.(a := ALeft)
    case AServe =>
      if ok then c.(a := AGot(c.toAgent[0]), toAgent := c.toAgent[1..])
      else c.(a := AStop(c.shells), shells := map[])
    case _ => c.(a := AServe)
  }

  function BrokerNext(st: Net, k: ConnId, ok: bool): Net
    requires Enabled(st, Broker(k, ok))
  {
    var c := st.conns[k];
    var s := BrokerSubject(c.b);
    if s.Some? then
      var x, listed := st.sess[s.value], s.value in st.sessions;
      st.(sess := st.sess[s.value := BrokerDo(x, c.b, ok)],
          conns := st.conns[k := c.(b := BrokerGoes(c.b, listed))],
          sessions := if c.b.BGot? && c.b.m.Close? then T.Drop(st.sessions, s.value) else st.sessions)
    else
      match c.b
      case BAttach =>
        var prev := T.Attached(st.agents, c.reg.device);
        var conns := if prev.Some? && prev.value < |st.conns| then CloseConn(st.conns, prev.value) else st.conns;
        st.(conns := conns[k := conns[k].(b := BAdd)],
            agents := T.Attach(st.agents, c.reg.device, k), log := st.log + [Attachment(c.reg.device, k)])
      case BAdd =>
        st.(conns := st.conns[k := c.(b := BAnnounce)], registry := T.Add(st.registry, c.reg.device, k))
      case BDetach =>
        st.(conns := st.conns[k := c.(b := BRemove)], agents := T.Detach(st.agents, c.reg.device, k))
      case BRemove =>
        st.(conns := st.conns[k := c.(b := BDone)], registry := T.Remove(st.registry, c.reg.device))
      case _ => st.(conns := st.conns[k := BrokerAlone(c, ok)])
  }

  /** `sess.Close()`. */
  function CloseConn(conns: seq<Conn>, k: ConnId): (r: seq<Conn>)
    requires k < |conns|
    ensures |r| == |conns|
  {
    conns[k := conns[k].(down := true)]
  }

  /** Steps of the broker's handler that touch its own connection only. */
  function BrokerAlone(c: Conn, ok: bool): Conn
    requires (c.b.BRegister? || c.b.BServe?) && ok ==> c.toBroker != []
  {
    match c.b
    case BRegister =>
      if !ok then c.(b := BQuit) else
      var m := c.toBroker[0];
      var rest := c.(toBroker := c.toBroker[1..]);
      if m.Register? && m.device != "" then rest.(b := BVerify, reg := Registration(m.device, m.token))
      else rest.(b := BQuit)
    case BVerify => c.(b := if ok then BAttach else BReject)
    case BReject => c.(b := BQuit, toAgent := Post(c.toAgent, if ok then Some(Rejected) else None))
    case BQuit => c.(b := BDone, down := true)
    case BAnnounce => c.(b := BServe, toAgent := Post(c.toAgent, if ok then Some(Registered) else None))
    case BServe =>
      if ok then c.(b := BGot(c.toBroker[0]), toBroker := c.toBroker[1..]) else c.(b := BDetach)
    case _ => c.(b := BServe)
  }

  // ----- runs -----

  /** The state after a run from the start, or `None` if some step of it was not possible. */
  function Run(acts: seq<Action>): Option<Net> {
    if acts == [] then Some(START) else
    var before := Run(acts[..|acts| - 1]);
    var act := acts[|acts| - 1];
    if before.Some? && Enabled(before.value, act) then Some(Next(before.value, act)) else None
  }
}
