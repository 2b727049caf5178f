/** No session ends without a cause: its browser left, its shell exited or could not be started, or the
    connection of its agent was lost. */
module Causes {
  import opened Protocol
  import opened Threads
  import opened Lane
  import opened Network
  import opened LaneSafety
  import opened Multiplexing
  import opened Sessions

  /** What can end a session from outside. */
  predicate Cause(x: Sess, down: bool) {
    x.browser.left || x.refused || down || (x.shells != [] && x.shells[0].exited)
  }

  predicate NoClose(q: seq<Msg>) { forall i | 0 <= i < |q| :: !q[i].Close? }

  /** The handler goes on, or has not begun. */
  predicate HandlerOn(x: Sess) {
    x.h.HUpgrade? || x.h.HInsert? || x.h.HOpen? || x.h.HRead? || x.h.HForward? || (x.h.HDone? && !x.upgraded)
  }

  predicate AgentOn(a: AgentPc) {
    || a.AAwait? || a.AServe? || a.AStarted? || a.AFeed? || a.ALeft?
    || (a.AGot? && !a.m.Close?) || a == AStop(map[])
  }

  predicate BrokerOn(b: BrokerPc) { b.BServe? || b.BDeliver? || (b.BGot? && !b.m.Close?) }

  predicate PumpOn(p: PumpPc) { p.PIdle? || p.PRead? || (p.PSend? && !p.eof) }

  /** The session is in full swing: nothing closes, and nothing is about to. */
  predicate Thriving(l: Lane) {
    && !l.x.browser.closed && HandlerOn(l.x)
    && (l.x.h.HUpgrade? ==> !l.x.upgraded) && (l.x.h.HDone? ==> !l.x.asked)
    && (l.x.h.HOpen? || l.x.h.HRead? || l.x.h.HForward? ==> l.listed)
    && NoClose(l.toAgent) && NoClose(l.toBroker) && AgentOn(l.a) && BrokerOn(l.b)
    && (l.x.shells != [] ==> l.x.shells[0].closes == 0 && PumpOn(l.x.shells[0].pump))
  }

  predicate Caused(l: Lane) { Cause(l.x, l.down) || Thriving(l) }

  lemma OutsideKeepsCause(l: Lane, m: Move)
    requires Can(l, m) && Cause(l.x, l.down)
    requires !m.MHandler? && !m.MPump? && !m.MAgent? && !m.MBroker?
    ensures Cause(Do(l, m).x, Do(l, m).down)
  {
  }

  lemma CausesStay(l: Lane, m: Move)
    requires Can(l, m) && Cause(l.x, l.down)
    ensures Cause(Do(l, m).x, Do(l, m).down)
  {
    match m
    case MHandler(ok) => HandlerKeepsCause(l.x, l.down, l.listed, ok);
    case MPump(i, ok, n) => PumpKeepsCause(l.x, i, l.down, ok, n, l.table);
    case MAgent(ok, n) => AgentKeepsCause(l, ok, n);
    case MBroker(ok) => BrokerKeepsCause(l, ok);
    case _ => OutsideKeepsCause(l, m);
  }

  lemma HandlerKeepsCause(x: Sess, down: bool, present: bool, ok: bool)
    requires HandlerCan(x, down, ok) && Cause(x, down)
    ensures Cause(HandlerDo(x, down, present, ok), down)
  {
  }

  lemma PumpKeepsCause(x: Sess, i: nat, down: bool, ok: bool, n: nat, t: Option<nat>)
    requires PumpCan(x, i, down, ok, n) && Cause(x, down)
    ensures Cause(PumpDo(x, i, down, ok, n, t), down)
  {
  }

  lemma AgentKeepsCause(l: Lane, ok: bool, n: nat)
    requires AgentMayMove(l, ok, n) && Cause(l.x, l.down)
    ensures Cause(AgentMove(l, ok, n).x, AgentMove(l, ok, n).down)
  {
    if !l.a.AServe? && !l.a.AStop? { AgentDoKeepsCause(l.x, l.a, l.down, ok, n); }
  }

  lemma AgentDoKeepsCause(x: Sess, a: AgentPc, down: bool, ok: bool, n: nat)
    requires AgentCan(x, a, down, ok, n) && Cause(x, down)
    ensures Cause(AgentDo(x, a, down, ok, n), down)
  {
  }

  lemma BrokerKeepsCause(l: Lane, ok: bool)
    requires Can(l, MBroker(ok)) && Cause(l.x, l.down)
    ensures Cause(BrokerMove(l, ok).x, BrokerMove(l, ok).down)
  {
  }

  lemma HandlerThrives(l: Lane, ok: bool)
    requires Fresh(l) && Thriving(l) && !Cause(l.x, l.down) && Can(l, MHandler(ok))
    ensures Thriving(Do(l, MHandler(ok)))
  {
  }

  lemma PumpThrives(l: Lane, i: nat, ok: bool, n: nat)
    requires Indexes(l) && Thriving(l) && !Cause(l.x, l.down) && Can(l, MPump(i, ok, n))
    ensures Thriving(Do(l, MPump(i, ok, n)))
  {
  }

  lemma AgentReadsOn(l: Lane, ok: bool, n: nat)
    requires Thriving(l) && !Cause(l.x, l.down) && AgentMayMove(l, ok, n) && l.a.AServe?
    ensures Thriving(AgentMove(l, ok, n))
  {
  }

  lemma AgentThrives(l: Lane, ok: bool, n: nat)
    requires Indexes(l) && Channels(l) && Fresh(l) && Thriving(l) && !Cause(l.x, l.down)
    requires AgentMayMove(l, ok, n) && !l.a.AServe?
    ensures Caused(AgentMove(l, ok, n))
  {
  }

  lemma BrokerThrives(l: Lane, ok: bool)
    requires Thriving(l) && !Cause(l.x, l.down) && Can(l, MBroker(ok))
    ensures Thriving(BrokerMove(l, ok))
  {
  }

  lemma OutsideThrives(l: Lane, m: Move)
    requires Indexes(l) && Thriving(l) && !Cause(l.x, l.down) && Can(l, m)
    requires !m.MHandler? && !m.MPump? && !m.MAgent? && !m.MBroker?
    ensures Caused(Do(l, m))
  {
  }

  lemma KeepsCaused(l: Lane, m: Move)
    requires Indexes(l) && Channels(l) && Fresh(l) && Caused(l) && Can(l, m)
    ensures Caused(Do(l, m))
  {
    if Cause(l.x, l.down) {
      CausesStay(l, m);
    } else {
      match m
      case MHandler(ok) => HandlerThrives(l, ok);
      case MPump(i, ok, n) => PumpThrives(l, i, ok, n);
      case MAgent(ok, n) => if l.a.AServe? { AgentReadsOn(l, ok, n); } else { AgentThrives(l, ok, n); }
      case MBroker(ok) => BrokerThrives(l, ok);
      case _ => OutsideThrives(l, m);
    }
  }

  lemma NewcomersThrive(st: Net, d: DeviceId)
    requires Owned(st) && Enabled(st, Visit(d))
    ensures Live(Next(st, Visit(d)), |st.sess|) && Caused(LaneOf(Next(st, Visit(d)), |st.sess|))
  {
    NobodyKnows(st, st.agents[d]);
    UnknownThrives(LaneOf(Next(st, Visit(d)), |st.sess|), st.agents[d]);
  }

  lemma UnknownThrives(l: Lane, k: ConnId)
    requires Unknown(l, k)
    ensures Caused(l)
  {
  }

  lemma StepKeepsCaused(st: Net, act: Action, s: SessionId)
    requires Owned(st) && Enabled(st, act) && s < |Next(st, act).sess|
    requires s < |st.sess| ==> Caused(LaneOf(st, s)) && LaneInv(LaneOf(st, s))
    ensures Live(Next(st, act), s) && Caused(LaneOf(Next(st, act), s))
  {
    SessionCount(st, act);
    if s < |st.sess| {
      Projects(st, act, s);
      var m := Projected(st, act, s);
      if m.Some? { KeepsCaused(LaneOf(st, s), m.value); }
    } else {
      NewcomersThrive(st, act.device);
    }
  }

  lemma {:induction false} AlwaysCaused(acts: seq<Action>, s: SessionId)
    requires Run(acts).Some? && s < |Run(acts).value.sess|
    ensures Live(Run(acts).value, s) && Caused(LaneOf(Run(acts).value, s))
  {
    if acts != [] {
      var st := Run(acts[..|acts| - 1]).value;
      RunOwned(acts[..|acts| - 1]);
      if s < |st.sess| {
        AlwaysCaused(acts[..|acts| - 1], s);
        LaneHolds(acts[..|acts| - 1], s);
      }
      StepKeepsCaused(st, acts[|acts| - 1], s);
    }
  }

  /** A session that was opened and whose browser has not left, whose shell has neither exited nor failed to
      start, and whose connection is up, goes on: it is listed, its browser and its shell are open, its
      handler and its goroutine have not left their loops, and nobody has been told to close it. */
  lemma SessionsEndForACause(acts: seq<Action>, s: SessionId)
    requires Run(acts).Some? && s < |Run(acts).value.sess| && Live(Run(acts).value, s)
    requires !Cause(Run(acts).value.sess[s], Owner(Run(acts).value, s).down)
    ensures var st := Run(acts).value; var x, c := st.sess[s], Owner(st, s);
            && !x.browser.closed && HandlerOn(x)
            && (x.asked ==> s in st.sessions)
            && Close(s) !in c.toAgent && Close(s) !in c.toBroker
            && (x.shells != [] ==> x.shells[0].closes == 0 && PumpOn(x.shells[0].pump))
  {
    AlwaysCaused(acts, s);
    LaneHolds(acts, s);
    OnlyMembers(Owner(Run(acts).value, s).toAgent, Close(s), s);
    OnlyMembers(Owner(Run(acts).value, s).toBroker, Close(s), s);
    ThrivingMeans(LaneOf(Run(acts).value, s));
  }

  lemma ThrivingMeans(l: Lane)
    requires Thriving(l) && Fresh(l)
    ensures l.x.asked ==> l.listed
    ensures Close(l.id) !in l.toAgent && Close(l.id) !in l.toBroker
  {
  }
}
