/** One session on its own: its browser handler, its part of the two channels, its shells, and the
    agent's and the broker's loops as far as they concern it. Multiplexing.dfy shows that every
    session of the whole network behaves like this machine; LaneSafety.dfy proves what it keeps. */
module Lane {
  import opened Protocol
  import opened Threads

  /** `listed`: the session is in `b.sessions`; `table`: its entry in `a.shells`; `down`: the control
      connection has failed or been closed. */
  datatype Lane = Lane(
    id: SessionId, x: Sess, listed: bool, down: bool,
    toAgent: seq<Msg>, toBroker: seq<Msg>, a: AgentPc, b: BrokerPc, table: Option<nat>)

  datatype Move =
    | MType(f: Frame)            // the browser sends a frame
    | MLeave                     // the browser goes away
    | MProduce(i: nat, d: Bytes) // a shell prints
    | MExit(i: nat)              // a shell exits
    | MCut                       // the control connection fails or is closed
    | MHandler(ok: bool)
    | MPump(i: nat, ok: bool, n: nat)
    | MWelcome                   // the agent reads `registered`
    | MQuit(pop: bool)           // the agent leaves before serving
    | MAgent(ok: bool, n: nat)
    | MBroker(ok: bool)

  /** Whether the session is in `b.sessions` after a step of its handler. */
  function Listed(h: HandlerPc, listed: bool): bool {
    if h.HInsert? then true else if h.HDrop? then false else listed
  }

  predicate Can(l: Lane, m: Move) {
    match m
    case MType(_) => !l.x.browser.closed
    case MLeave => true
    case MProduce(i, _) => i < |l.x.shells| && !l.x.shells[i].exited && l.x.shells[i].closes == 0
    case MExit(i) => i < |l.x.shells|
    case MCut => true
    case MHandler(ok) => HandlerCan(l.x, l.down, ok)
    case MPump(i, ok, n) => PumpCan(l.x, i, l.down, ok, n)
    case MWelcome => l.a.AAwait?
    case MQuit(pop) => l.a.AAwait? && (pop ==> l.toAgent != [])
    case MAgent(ok, n) => AgentMayMove(l, ok, n)
    case MBroker(ok) =>
      match l.b
      case BServe => if ok then l.toBroker != [] else l.down
      case BGot(_) => ok
      case BDeliver(_, _) => BrokerCan(l.x, l.b, ok)
      case BHangup(_) => ok
      case _ => false
  }

  predicate AgentMayMove(l: Lane, ok: bool, n: nat) {
    match l.a
    case AServe => if ok then l.toAgent != [] else l.down
    case AStop(todo) =>
      if l.id in todo then ok && todo[l.id] < |l.x.shells| else ok
    case AAwait => false
    case ARegister => false
    case ALeft => false
    case _ => AgentCan(l.x, l.a, l.down, ok, n)
  }

  function AgentMove(l: Lane, ok: bool, n: nat): Lane
    requires AgentMayMove(l, ok, n)
  {
    if l.a.AServe? then
      if ok then l.(a := AGot(l.toAgent[0]), toAgent := l.toAgent[1..])
      else l.(a := AStop(if l.table.Some? then map[l.id := l.table.value] else map[]), table := None)
    else if l.a.AStop? then
      if l.id in l.a.todo then l.(x := CloseShell(l.x, l.a.todo[l.id]), a := AStop(l.a.todo - {l.id}))
      else l.(a := ALeft)
    else
      l.(x := AgentDo(l.x, l.a, l.down, ok, n), a := AgentGoes(l.x, l.a, ok, l.table),
         table := AgentTable(l.a, l.table), toBroker := Post(l.toBroker, AgentSays(l.a, ok)))
  }

  function BrokerMove(l: Lane, ok: bool): Lane
    requires Can(l, MBroker(ok))
  {
    match l.b
    case BServe =>
      if ok then l.(b := BGot(l.toBroker[0]), toBroker := l.toBroker[1..]) else l.(b := BDone)
    case _ =>
      l.(x := BrokerDo(l.x, l.b, ok), b := BrokerGoes(l.b, l.listed),
         listed := if l.b.BGot? && l.b.m.Close? then false else l.listed)
  }

  function Do(l: Lane, m: Move): Lane
    requires Can(l, m)
  {
    match m
    case MType(f) => l.(x := Typing(l.x, f))
    case MLeave => l.(x := Leaving(l.x))
    case MProduce(i, d) => l.(x := Producing(l.x, i, d))
    case MExit(i) => l.(x := Exiting(l.x, i))
    case MCut => l.(down := true)
    case MHandler(ok) =>
      l.(x := HandlerDo(l.x, l.down, l.listed, ok), listed := Listed(l.x.h, l.listed),
         toAgent := Post(l.toAgent, HandlerSays(l.x, l.id, ok)))
    case MPump(i, ok, n) =>
      l.(x := PumpDo(l.x, i, l.down, ok, n, l.table),
         table := if l.x.shells[i].pump.PClaim? then None else l.table,
         toBroker := Post(l.toBroker, PumpSays(l.x, l.id, i, ok)))
    case MWelcome => l.(a := AServe)
    case MQuit(pop) => l.(a := ALeft, toAgent := if pop then l.toAgent[1..] else l.toAgent)
    case MAgent(ok, n) => AgentMove(l, ok, n)
    case MBroker(ok) => BrokerMove(l, ok)
  }

  /** `m` takes the session from `l` to `l'`; without a move nothing changes for it. */
  predicate Moves(l: Lane, m: Option<Move>, l': Lane) {
    if m.None? then l' == l else Can(l, m.value) && l' == Do(l, m.value)
  }
}
