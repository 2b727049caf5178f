/** Without new connections, keystrokes and shell output every run ends: each remaining step lowers a
    measure. When no thread can move any more, lost connections have been cleaned up. */
module Teardown {
  import opened Protocol
  import opened Threads
  import opened Network
  import T = BrokerTables

  // ----- how much work is left -----

  function ToAgentWork(m: Msg): nat {
    match m
    case Open(_) => 20
    case Input(_, _) => 3
    case Close(_) => 7
    case _ => 2
  }

  function ToBrokerWork(m: Msg): nat {
    if m.Output? || m.Close? then 3 else 2
  }

  function AgentQueue(q: seq<Msg>): nat {
    if q == [] then 0 else ToAgentWork(q[0]) + AgentQueue(q[1..])
  }

  function BrokerQueue(q: seq<Msg>): nat {
    if q == [] then 0 else ToBrokerWork(q[0]) + BrokerQueue(q[1..])
  }

  lemma {:induction false} AgentQueueAppend(q: seq<Msg>, m: Msg)
    ensures AgentQueue(q + [m]) == AgentQueue(q) + ToAgentWork(m)
  {
    if q != [] {
      assert (q + [m])[1..] == q[1..] + [m];
      AgentQueueAppend(q[1..], m);
    }
  }

  lemma {:induction false} BrokerQueueAppend(q: seq<Msg>, m: Msg)
    ensures BrokerQueue(q + [m]) == BrokerQueue(q) + ToBrokerWork(m)
  {
    if q != [] {
      assert (q + [m])[1..] == q[1..] + [m];
      BrokerQueueAppend(q[1..], m);
    }
  }

  function HandlerWork(h: HandlerPc): nat {
    match h
    case HUpgrade => 34
    case HInsert => 33
    case HOpen => 32
    case HForward(_) => 15
    case HRead => 11
    case HBye => 10
    case HDrop => 2
    case HHangup => 1
    case HDone => 0
  }

  function PumpWork(p: PumpPc): nat {
    match p
    case PIdle => 8
    case PRead => 7
    case PSend(_, _) => 11
    case PClaim => 6
    case PKill(_) => 5
    case PBye => 4
    case PDone => 0
  }

  function AgentWork(a: AgentPc): nat {
    match a
    case ARegister => 5
    case AAwait => 2
    case AServe => 2
    case AGot(m) => 1 + ToAgentWork(m)
    case AStarted(_, _) => 11
    case ARefuse(_) => 6
    case AFeed(_, _, _) => 3
    case AKill(_, _) => 7
    case ABye(_) => 6
    case AStop(todo) => 1 + |todo.Keys|
    case ALeft => 0
  }

  function BrokerWork(b: BrokerPc): nat {
    match b
    case BRegister => 11
    case BVerify => 10
    case BReject => 4
    case BQuit => 1
    case BAttach => 8
    case BAdd => 7
    case BAnnounce => 6
    case BServe => 3
    case BGot(m) => 2 + ToBrokerWork(m)
    case BDeliver(_, _) => 4
    case BHangup(_) => 4
    case BDetach => 2
    case BRemove => 1
    case BDone => 0
  }

  function ShellWork(sh: Shell): nat {
    PumpWork(sh.pump) + 5 * |sh.unread| + if sh.exited then 0 else 1
  }

  function ShellsWork(q: seq<Shell>): nat {
    if q == [] then 0 else ShellWork(q[0]) + ShellsWork(q[1..])
  }

  function SessWork(x: Sess): nat {
    HandlerWork(x.h) + 5 * |x.browser.inbox| + (if x.browser.closed then 0 else 1) + ShellsWork(x.shells)
  }

  function ConnWork(c: Conn): nat {
    AgentWork(c.a) + BrokerWork(c.b) + AgentQueue(c.toAgent) + BrokerQueue(c.toBroker)
    + |c.shells.Keys| + if c.down then 0 else 1
  }

  function AllSess(q: seq<Sess>): nat {
    if q == [] then 0 else SessWork(q[0]) + AllSess(q[1..])
  }

  function AllConns(q: seq<Conn>): nat {
    if q == [] then 0 else ConnWork(q[0]) + AllConns(q[1..])
  }

  function Work(st: Net): nat { AllConns(st.conns) + AllSess(st.sess) }

  lemma {:induction false} ShellsUpdate(q: seq<Shell>, i: nat, sh: Shell)
    requires i < |q|
    ensures ShellsWork(q[i := sh]) + ShellWork(q[i]) == ShellsWork(q) + ShellWork(sh)
  {
    if i == 0 {
      assert q[0 := sh][1..] == q[1..];
    } else {
      assert q[i := sh][1..] == q[1..][i - 1 := sh];
      ShellsUpdate(q[1..], i - 1, sh);
    }
  }

  lemma {:induction false} ShellsAppend(q: seq<Shell>, sh: Shell)
    ensures ShellsWork(q + [sh]) == ShellsWork(q) + ShellWork(sh)
  {
    if q != [] {
      assert (q + [sh])[1..] == q[1..] + [sh];
      ShellsAppend(q[1..], sh);
    }
  }

  lemma {:induction false} SessUpdate(q: seq<Sess>, i: nat, x: Sess)
    requires i < |q|
    ensures AllSess(q[i := x]) + SessWork(q[i]) == AllSess(q) + SessWork(x)
  {
    if i == 0 {
      assert q[0 := x][1..] == q[1..];
    } else {
      assert q[i := x][1..] == q[1..][i - 1 := x];
      SessUpdate(q[1..], i - 1, x);
    }
  }

  lemma {:induction false} ConnUpdate(q: seq<Conn>, i: nat, c: Conn)
    requires i < |q|
    ensures AllConns(q[i := c]) + ConnWork(q[i]) == AllConns(q) + ConnWork(c)
  {
    if i == 0 {
      assert q[0 := c][1..] == q[1..];
    } else {
      assert q[i := c][1..] == q[1..][i - 1 := c];
      ConnUpdate(q[1..], i - 1, c);
    }
  }

  // ----- every step that is not input lowers it -----

  /** Steps that bring in nothing from outside: threads run, sockets fail, browsers leave, shells exit. */
  predicate Inward(act: Action) {
    !act.Dial? && !act.Visit? && !act.Type? && !act.Produce?
  }

  lemma CloseShellWork(x: Sess, i: nat)
    requires i < |x.shells|
    ensures SessWork(CloseShell(x, i)) == SessWork(x)
  {
    ShellsUpdate(x.shells, i, x.shells[i].(closes := x.shells[i].closes + 1));
  }

  /** What a step of the handler puts on the channel. */
  function Asked(m: Option<Msg>): nat { if m.Some? then ToAgentWork(m.value) else 0 }

  lemma HandlerSessWorks(x: Sess, s: SessionId, down: bool, present: bool, ok: bool)
    requires HandlerCan(x, down, ok)
    ensures SessWork(HandlerDo(x, down, present, ok)) + Asked(HandlerSays(x, s, ok)) < SessWork(x)
  {
  }

  lemma HandlerConnWorks(x: Sess, c: Conn, s: SessionId, ok: bool)
    ensures ConnWork(HandlerConn(c, x, s, ok)) == ConnWork(c) + Asked(HandlerSays(x, s, ok))
  {
    var m := HandlerSays(x, s, ok);
    if m.Some? { AgentQueueAppend(c.toAgent, m.value); }
  }

  function Said(m: Option<Msg>): nat { if m.Some? then ToBrokerWork(m.value) else 0 }

  lemma ReadWork(sh: Shell, n: nat, pc: PumpPc)
    requires sh.pump.PRead? && n <= |sh.unread| && (pc.PClaim? || (pc.PSend? && 0 < n))
    ensures ShellWork(sh.(unread := sh.unread[n..], read := sh.read + sh.unread[..n], pump := pc)) < ShellWork(sh)
  {
  }

  lemma PumpReads(x: Sess, i: nat, down: bool, ok: bool, n: nat, t: Option<nat>)
    requires PumpCan(x, i, down, ok, n) && x.shells[i].pump.PRead?
    ensures SessWork(PumpDo(x, i, down, ok, n, t)) < SessWork(x)
  {
    var sh := x.shells[i];
    var pc := if n == 0 then PClaim else PSend(sh.unread[..n], !ok);
    ReadWork(sh, n, pc);
    ShellsUpdate(x.shells, i, sh.(unread := sh.unread[n..], read := sh.read + sh.unread[..n], pump := pc));
  }

  lemma PumpPcWorks(x: Sess, i: nat, down: bool, ok: bool, n: nat, t: Option<nat>, s: SessionId)
    requires PumpCan(x, i, down, ok, n) && !x.shells[i].pump.PKill? && !x.shells[i].pump.PRead?
    ensures var y := PumpDo(x, i, down, ok, n, t);
            && y == x.(shells := x.shells[i := y.shells[i]], ends := y.ends)
            && ShellWork(y.shells[i]) + Said(PumpSays(x, s, i, ok)) < ShellWork(x.shells[i])
  {
  }

  lemma PumpWorks(x: Sess, i: nat, down: bool, ok: bool, n: nat, t: Option<nat>, s: SessionId)
    requires PumpCan(x, i, down, ok, n) && !x.shells[i].pump.PKill? && !x.shells[i].pump.PRead?
    ensures SessWork(PumpDo(x, i, down, ok, n, t)) + Said(PumpSays(x, s, i, ok)) < SessWork(x)
  {
    PumpPcWorks(x, i, down, ok, n, t, s);
    ShellsUpdate(x.shells, i, PumpDo(x, i, down, ok, n, t).shells[i]);
  }

  lemma PumpKills(x: Sess, i: nat, down: bool, ok: bool, n: nat, t: Option<nat>, s: SessionId)
    requires PumpCan(x, i, down, ok, n) && x.shells[i].pump.PKill?
    ensures SessWork(PumpDo(x, i, down, ok, n, t)) + Said(PumpSays(x, s, i, ok)) < SessWork(x)
  {
    var y := x.(shells := x.shells[i := x.shells[i].(pump := PBye)]);
    ShellsUpdate(x.shells, i, x.shells[i].(pump := PBye));
    CloseShellWork(y, x.shells[i].pump.victim);
  }

  lemma PumpConnWorks(c: Conn, x: Sess, s: SessionId, i: nat, ok: bool)
    requires i < |x.shells|
    ensures ConnWork(PumpConn(c, x, s, i, ok)) <= ConnWork(c) + Said(PumpSays(x, s, i, ok))
  {
    PostWork(c.toBroker, PumpSays(x, s, i, ok));
    Smaller(c.shells, s);
  }

  lemma Smaller(m: map<SessionId, nat>, s: SessionId)
    ensures |(m - {s}).Keys| <= |m.Keys|
    ensures s in m ==> |(m - {s}).Keys| < |m.Keys|
  {
    assert (m - {s}).Keys == m.Keys - {s};
  }

  lemma AgentAloneWorks(c: Conn, ok: bool)
    requires (c.a.AAwait? || c.a.AServe?) && ok ==> c.toAgent != []
    requires !c.a.AStop? && !c.a.ALeft? && AgentSubject(c.a).None?
    ensures ConnWork(AgentAlone(c, ok)) < ConnWork(c)
  {
    BrokerQueueAppend(c.toBroker, Register(c.cfg.device, c.cfg.token));
  }

  lemma AgentSessWorks(x: Sess, a: AgentPc, down: bool, ok: bool, n: nat)
    requires AgentCan(x, a, down, ok, n)
    ensures SessWork(AgentDo(x, a, down, ok, n))
            <= SessWork(x) + Started(a, ok)
  {
    match a
    case AGot(m) => ShellsAppend(x.shells, NEW_SHELL);
    case AStarted(_, i) => ShellsUpdate(x.shells, i, x.shells[i].(pump := PRead));
    case AFeed(_, i, d) => ShellsUpdate(x.shells, i, AgentDo(x, a, down, ok, n).shells[i]);
    case AKill(_, i) => CloseShellWork(x, i);
    case _ =>
  }

  lemma StoreWork(m: map<SessionId, nat>, s: SessionId, v: Option<nat>)
    ensures |Store(m, s, v).Keys| <= |m.Keys| + if v.Some? && s !in m then 1 else 0
  {
    if v.Some? { assert m[s := v.value].Keys == m.Keys + {s}; } else { Smaller(m, s); }
  }

  /** What a step of the agent's loop may add to the work of the session. */
  function Started(a: AgentPc, ok: bool): nat {
    if a.AGot? && a.m.Open? && ok then 9 else if a.AStarted? then 7 else 0
  }

  lemma AgentPcWorks(x: Sess, a: AgentPc, ok: bool, t: Option<nat>)
    requires AgentSubject(a).Some?
    ensures AgentWork(AgentGoes(x, a, ok, t)) + Said(AgentSays(a, ok)) + Started(a, ok)
            + (if AgentTable(a, t).Some? && t.None? then 1 else 0) < AgentWork(a)
  {
  }

  lemma AgentConnWorks(c: Conn, x: Sess, s: SessionId, ok: bool)
    requires AgentSubject(c.a) == Some(s)
    ensures ConnWork(AgentConn(c, x, s, ok)) + Started(c.a, ok) < ConnWork(c)
  {
    var m, t := AgentSays(c.a, ok), Lookup(c.shells, s);
    PostWork(c.toBroker, m);
    StoreWork(c.shells, s, AgentTable(c.a, t));
    AgentPcWorks(x, c.a, ok, t);
  }

  lemma PostWork(q: seq<Msg>, m: Option<Msg>)
    ensures BrokerQueue(Post(q, m)) == BrokerQueue(q) + Said(m)
  {
    if m.Some? { BrokerQueueAppend(q, m.value); }
  }

  lemma BrokerAloneWorks(c: Conn, ok: bool)
    requires (c.b.BRegister? || c.b.BServe?) && ok ==> c.toBroker != []
    requires BrokerSubject(c.b).None? && !c.b.BAttach? && !c.b.BAdd? && !c.b.BDetach? && !c.b.BRemove? && !c.b.BDone?
    ensures ConnWork(BrokerAlone(c, ok)) < ConnWork(c)
  {
    AgentQueueAppend(c.toAgent, Registered);
    AgentQueueAppend(c.toAgent, Rejected);
  }

  lemma BrokerSessWorks(x: Sess, b: BrokerPc, ok: bool)
    ensures SessWork(BrokerDo(x, b, ok)) <= SessWork(x)
  {
  }

  // ----- the same, for the whole network -----

  lemma Both(st: Net, st': Net, s: SessionId, x: Sess, k: ConnId, c: Conn)
    requires s < |st.sess| && k < |st.conns|
    requires st'.sess == st.sess[s := x] && st'.conns == st.conns[k := c]
    requires SessWork(x) + ConnWork(c) < SessWork(st.sess[s]) + ConnWork(st.conns[k])
    ensures Work(st') < Work(st)
  {
    SessUpdate(st.sess, s, x);
    ConnUpdate(st.conns, k, c);
  }

  lemma HandlerLowers(st: Net, s: SessionId, ok: bool)
    requires Enabled(st, Handler(s, ok))
    ensures Work(Next(st, Handler(s, ok))) < Work(st)
  {
    var x, c := st.sess[s], Owner(st, s);
    HandlerSessWorks(x, s, c.down, s in st.sessions, ok);
    HandlerConnWorks(x, c, s, ok);
    Both(st, Next(st, Handler(s, ok)), s, HandlerDo(x, c.down, s in st.sessions, ok), x.owner, HandlerConn(c, x, s, ok));
  }

  lemma PumpLowers(st: Net, s: SessionId, i: nat, ok: bool, n: nat)
    requires Enabled(st, Pump(s, i, ok, n))
    ensures Work(Next(st, Pump(s, i, ok, n))) < Work(st)
  {
    var x, c := st.sess[s], Owner(st, s);
    var t := Lookup(c.shells, s);
    if x.shells[i].pump.PKill? { PumpKills(x, i, c.down, ok, n, t, s); }
    else if x.shells[i].pump.PRead? { PumpReads(x, i, c.down, ok, n, t); }
    else { PumpWorks(x, i, c.down, ok, n, t, s); }
    PumpConnWorks(c, x, s, i, ok);
    Both(st, Next(st, Pump(s, i, ok, n)), s, PumpDo(x, i, c.down, ok, n, t), x.owner, PumpConn(c, x, s, i, ok));
  }

  lemma StopWorks(c: Conn, n: nat)
    requires c.a.AStop?
    ensures ConnWork(c.(a := ALeft)) < ConnWork(c)
    ensures n in c.a.todo ==> ConnWork(c.(a := AStop(c.a.todo - {n}))) < ConnWork(c)
  {
    Smaller(c.a.todo, n);
  }

  lemma AgentStopLowers(st: Net, k: ConnId, ok: bool, n: nat)
    requires Enabled(st, Agent(k, ok, n)) && st.conns[k].a.AStop?
    ensures Work(Next(st, Agent(k, ok, n))) < Work(st)
  {
    var c := st.conns[k];
    StopWorks(c, n);
    if c.a.todo == map[] {
      ConnUpdate(st.conns, k, c.(a := ALeft));
    } else {
      CloseShellWork(st.sess[n], c.a.todo[n]);
      Both(st, Next(st, Agent(k, ok, n)), n, CloseShell(st.sess[n], c.a.todo[n]), k, c.(a := AStop(c.a.todo - {n})));
    }
  }

  lemma AgentAloneLowers(st: Net, k: ConnId, ok: bool, n: nat)
    requires Enabled(st, Agent(k, ok, n)) && !st.conns[k].a.AStop? && AgentSubject(st.conns[k].a).None?
    ensures Work(Next(st, Agent(k, ok, n))) < Work(st)
  {
    AgentAloneWorks(st.conns[k], ok);
    ConnUpdate(st.conns, k, AgentAlone(st.conns[k], ok));
  }

  lemma AgentLowers(st: Net, k: ConnId, ok: bool, n: nat)
    requires Enabled(st, Agent(k, ok, n)) && AgentSubject(st.conns[k].a).Some?
    ensures Work(Next(st, Agent(k, ok, n))) < Work(st)
  {
    var c, s := st.conns[k], AgentSubject(st.conns[k].a).value;
    AgentSessWorks(st.sess[s], c.a, c.down, ok, n);
    AgentConnWorks(c, st.sess[s], s, ok);
    Both(st, Next(st, Agent(k, ok, n)), s, AgentDo(st.sess[s], c.a, c.down, ok, n), k, AgentConn(c, st.sess[s], s, ok));
  }

  lemma BrokerConnWorks(c: Conn, present: bool)
    requires BrokerSubject(c.b).Some?
    ensures ConnWork(c.(b := BrokerGoes(c.b, present))) < ConnWork(c)
  {
  }

  lemma BrokerSubjectLowers(st: Net, k: ConnId, ok: bool)
    requires Enabled(st, Broker(k, ok)) && BrokerSubject(st.conns[k].b).Some?
    ensures Work(Next(st, Broker(k, ok))) < Work(st)
  {
    var c := st.conns[k];
    var s := BrokerSubject(c.b).value;
    BrokerSessWorks(st.sess[s], c.b, ok);
    BrokerConnWorks(c, s in st.sessions);
    Both(st, Next(st, Broker(k, ok)), s, BrokerDo(st.sess[s], c.b, ok), k, c.(b := BrokerGoes(c.b, s in st.sessions)));
  }

  lemma BrokerAdvances(c: Conn, b: BrokerPc)
    requires BrokerWork(b) < BrokerWork(c.b)
    ensures ConnWork(c.(b := b)) < ConnWork(c)
  {
  }

  lemma TableStepLowers(st: Net, k: ConnId, ok: bool)
    requires Enabled(st, Broker(k, ok)) && (st.conns[k].b.BAdd? || st.conns[k].b.BDetach? || st.conns[k].b.BRemove?)
    ensures Work(Next(st, Broker(k, ok))) < Work(st)
  {
    var c := st.conns[k];
    var b := if c.b.BAdd? then BAnnounce else if c.b.BDetach? then BRemove else BDone;
    BrokerAdvances(c, b);
    ConnUpdate(st.conns, k, c.(b := b));
  }

  lemma BrokerLowers(st: Net, k: ConnId, ok: bool)
    requires Enabled(st, Broker(k, ok)) && BrokerSubject(st.conns[k].b).None? && !st.conns[k].b.BAttach?
    requires !st.conns[k].b.BAdd? && !st.conns[k].b.BDetach? && !st.conns[k].b.BRemove?
    ensures Work(Next(st, Broker(k, ok))) < Work(st)
  {
    BrokerAloneWorks(st.conns[k], ok);
    ConnUpdate(st.conns, k, BrokerAlone(st.conns[k], ok));
  }

  lemma CloseConnWork(conns: seq<Conn>, k: ConnId)
    requires k < |conns|
    ensures AllConns(CloseConn(conns, k)) <= AllConns(conns)
    ensures forall j | 0 <= j < |conns| :: CloseConn(conns, k)[j].b == conns[j].b
  {
    ConnUpdate(conns, k, conns[k].(down := true));
  }

  lemma PlaceWork(conns: seq<Conn>, k: ConnId)
    requires k < |conns| && conns[k].b.BAttach?
    ensures AllConns(conns[k := conns[k].(b := BAdd)]) < AllConns(conns)
  {
    BrokerAdvances(conns[k], BAdd);
    ConnUpdate(conns, k, conns[k].(b := BAdd));
  }

  lemma AttachLowers(st: Net, k: ConnId, ok: bool)
    requires Enabled(st, Broker(k, ok)) && st.conns[k].b.BAttach?
    ensures Work(Next(st, Broker(k, ok))) < Work(st)
  {
    var prev := T.Attached(st.agents, st.conns[k].reg.device);
    if prev.Some? && prev.value < |st.conns| {
      CloseConnWork(st.conns, prev.value);
      PlaceWork(CloseConn(st.conns, prev.value), k);
    } else {
      PlaceWork(st.conns, k);
    }
  }

  lemma FailureLowers(st: Net, act: Action)
    requires Enabled(st, act) && (act.Cut? || act.Leave? || act.Exit?)
    ensures Work(Next(st, act)) < Work(st)
  {
    match act
    case Cut(k) => ConnUpdate(st.conns, k, st.conns[k].(down := true));
    case Leave(s) => SessUpdate(st.sess, s, Leaving(st.sess[s]));
    case Exit(s, i) =>
      ShellsUpdate(st.sess[s].shells, i, st.sess[s].shells[i].(exited := true));
      SessUpdate(st.sess, s, Exiting(st.sess[s], i));
  }

  lemma StepLowers(st: Net, act: Action)
    requires Enabled(st, act) && Inward(act)
    ensures Work(Next(st, act)) < Work(st)
  {
    match act
    case Handler(s, ok) => HandlerLowers(st, s, ok);
    case Pump(s, i, ok, n) => PumpLowers(st, s, i, ok, n);
    case Agent(k, ok, n) =>
      if st.conns[k].a.AStop? { AgentStopLowers(st, k, ok, n); }
      else if AgentSubject(st.conns[k].a).None? { AgentAloneLowers(st, k, ok, n); }
      else { AgentLowers(st, k, ok, n); }
    case Broker(k, ok) =>
      if st.conns[k].b.BAttach? { AttachLowers(st, k, ok); }
      else if BrokerSubject(st.conns[k].b).Some? { BrokerSubjectLowers(st, k, ok); }
      else if st.conns[k].b.BAdd? || st.conns[k].b.BDetach? || st.conns[k].b.BRemove? { TableStepLowers(st, k, ok); }
      else { BrokerLowers(st, k, ok); }
    case _ => FailureLowers(st, act);
  }

  /** The state after `acts` from `st`, or `None` if some step was not possible. */
  function RunFrom(st: Net, acts: seq<Action>): Option<Net>
    decreases |acts|
  {
    if acts == [] then Some(st)
    else if Enabled(st, acts[0]) then RunFrom(Next(st, acts[0]), acts[1..])
    else None
  }

  /** From any state at all, a run without input makes at most `Work` steps. */
  lemma {:induction false} TeardownEnds(st: Net, acts: seq<Action>)
    requires RunFrom(st, acts).Some? && forall i | 0 <= i < |acts| :: Inward(acts[i])
    ensures |acts| <= Work(st)
    decreases |acts|
  {
    if acts != [] {
      StepLowers(st, acts[0]);
      TeardownEnds(Next(st, acts[0]), acts[1..]);
    }
  }
}
