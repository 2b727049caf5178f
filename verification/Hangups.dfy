/** Who closes a browser, and when: closeSession (broker.go:214-222) takes the entry out of `b.sessions`
    first and closes the socket afterwards, on the handler's way out or in the broker's loop. */
module Hangups {
  import opened Protocol
  import opened Threads
  import opened Lane
  import opened Network
  import opened LaneSafety
  import opened Multiplexing
  import opened Sessions

  /** The handler is past `b.sessions[session] = ...` and has not come to the end of closeSession. */
  predicate Bridging(h: HandlerPc) { h.HOpen? || h.HRead? || h.HForward? || h.HBye? || h.HDrop? }

  /** The entry of a session whose browser is open goes only together with the browser: the browser has been
      closed, or the broker's loop or the handler closes it in its next step. */
  predicate HungUp(l: Lane) {
    && (l.x.h.HUpgrade? ==> !l.x.upgraded)
    && (!l.x.h.HUpgrade? && !l.x.h.HDone? ==> l.x.upgraded)
    && (Bridging(l.x.h) ==> l.listed || l.b.BHangup? || l.x.browser.closed)
    && (l.x.h.HDone? && l.x.upgraded ==> l.b.BHangup? || l.x.browser.closed)
    && (l.b.BHangup? ==> !l.listed)
  }

  lemma HandlerKeepsHungUp(l: Lane, ok: bool)
    requires Fresh(l) && HungUp(l) && Can(l, MHandler(ok))
    ensures HungUp(Do(l, MHandler(ok)))
  {
  }

  lemma MoveKeepsHungUp(l: Lane, m: Move)
    requires HungUp(l) && Can(l, m) && !m.MHandler? && !m.MPump? && !m.MAgent?
    ensures HungUp(Do(l, m))
  {
  }

  /** What the broker's side knows of a session. */
  predicate SameNearSide(x: Sess, x': Sess) {
    x'.browser == x.browser && x'.h == x.h && x'.upgraded == x.upgraded && x'.asked == x.asked && x'.byes == x.byes
  }

  lemma PumpIsFar(x: Sess, i: nat, down: bool, ok: bool, n: nat, t: Option<nat>)
    requires PumpCan(x, i, down, ok, n)
    ensures SameNearSide(x, PumpDo(x, i, down, ok, n, t))
  {
  }

  lemma AgentIsFar(x: Sess, a: AgentPc, down: bool, ok: bool, n: nat)
    requires AgentCan(x, a, down, ok, n)
    ensures SameNearSide(x, AgentDo(x, a, down, ok, n))
  {
  }

  lemma PumpKeepsHungUp(l: Lane, i: nat, ok: bool, n: nat)
    requires HungUp(l) && Can(l, MPump(i, ok, n))
    ensures HungUp(Do(l, MPump(i, ok, n)))
  {
    PumpIsFar(l.x, i, l.down, ok, n, l.table);
  }

  lemma AgentKeepsHungUp(l: Lane, ok: bool, n: nat)
    requires HungUp(l) && AgentMayMove(l, ok, n)
    ensures HungUp(AgentMove(l, ok, n))
  {
    if !l.a.AServe? && !l.a.AStop? { AgentIsFar(l.x, l.a, l.down, ok, n); }
  }

  lemma KeepsHungUp(l: Lane, m: Move)
    requires Fresh(l) && HungUp(l) && Can(l, m)
    ensures HungUp(Do(l, m))
  {
    match m
    case MHandler(ok) => HandlerKeepsHungUp(l, ok);
    case MPump(i, ok, n) => PumpKeepsHungUp(l, i, ok, n);
    case MAgent(ok, n) => AgentKeepsHungUp(l, ok, n);
    case _ => MoveKeepsHungUp(l, m);
  }

  lemma NewcomersAreHungUp(st: Net, d: DeviceId)
    requires Owned(st) && Enabled(st, Visit(d))
    ensures Live(Next(st, Visit(d)), |st.sess|) && HungUp(LaneOf(Next(st, Visit(d)), |st.sess|))
  {
    NobodyKnows(st, st.agents[d]);
  }

  lemma StepKeepsHungUp(st: Net, act: Action, s: SessionId)
    requires Owned(st) && Enabled(st, act) && s < |Next(st, act).sess|
    requires s < |st.sess| ==> HungUp(LaneOf(st, s)) && Fresh(LaneOf(st, s))
    ensures Live(Next(st, act), s) && HungUp(LaneOf(Next(st, act), s))
  {
    SessionCount(st, act);
    if s < |st.sess| {
      Projects(st, act, s);
      var m := Projected(st, act, s);
      if m.Some? { KeepsHungUp(LaneOf(st, s), m.value); }
    } else {
      NewcomersAreHungUp(st, act.device);
    }
  }

  lemma {:induction false} AlwaysHungUp(acts: seq<Action>, s: SessionId)
    requires Run(acts).Some? && s < |Run(acts).value.sess|
    ensures Live(Run(acts).value, s) && HungUp(LaneOf(Run(acts).value, s))
  {
    if acts != [] {
      var st := Run(acts[..|acts| - 1]).value;
      RunOwned(acts[..|acts| - 1]);
      if s < |st.sess| {
        AlwaysHungUp(acts[..|acts| - 1], s);
        LaneHolds(acts[..|acts| - 1], s);
      }
      StepKeepsHungUp(st, acts[|acts| - 1], s);
    }
  }

  /** A browser that was accepted does not outlive its handler, however that ended (the browser left, `open`
      or a keystroke was refused, or the agent's connection was lost): it is closed, or the broker's loop is
      about to close it. */
  lemma FinishedHandlersCloseTheirBrowser(acts: seq<Action>, s: SessionId)
    requires Run(acts).Some? && s < |Run(acts).value.sess|
    requires Run(acts).value.sess[s].h.HDone? && Run(acts).value.sess[s].upgraded
    ensures var st := Run(acts).value;
            Live(st, s) && (st.sess[s].browser.closed || Owner(st, s).b == BHangup(s))
  {
    AlwaysHungUp(acts, s);
  }

  /** While its handler is at work, a browser loses its entry in `b.sessions` only to be closed. */
  lemma UnlistedBrowsersAreClosed(acts: seq<Action>, s: SessionId)
    requires Run(acts).Some? && s < |Run(acts).value.sess| && Bridging(Run(acts).value.sess[s].h)
    requires s !in Run(acts).value.sessions
    ensures var st := Run(acts).value;
            Live(st, s) && (st.sess[s].browser.closed || Owner(st, s).b == BHangup(s))
  {
    AlwaysHungUp(acts, s);
  }

  lemma HandlerCloses(x: Sess, down: bool, present: bool, ok: bool)
    requires HandlerCan(x, down, ok)
    ensures HandlerDo(x, down, present, ok).browser.closed == (x.browser.closed || x.h.HHangup?)
  {
  }

  lemma ClosingMoves(l: Lane, m: Move)
    requires Can(l, m) && !l.x.browser.closed && Do(l, m).x.browser.closed
    ensures m.MLeave? || (m.MHandler? && l.x.h.HHangup?) || (m.MBroker? && l.b.BHangup?)
  {
    match m
    case MHandler(ok) => HandlerCloses(l.x, l.down, l.listed, ok);
    case MPump(i, ok, n) => PumpShowsNothing(l.x, i, l.down, ok, n, l.table);
    case MAgent(ok, n) => AgentShowsNothing(l, ok, n);
    case _ =>
  }

  /** A browser is closed by itself, or by a thread of the broker after its session was taken out of
      `b.sessions`. */
  lemma OnlyUnlistedBrowsersAreHungUp(acts: seq<Action>, act: Action, s: SessionId)
    requires Run(acts).Some? && Enabled(Run(acts).value, act) && s < |Run(acts).value.sess|
    requires !Run(acts).value.sess[s].browser.closed && Next(Run(acts).value, act).sess[s].browser.closed
    ensures act == Leave(s) || s !in Run(acts).value.sessions
  {
    var st := Run(acts).value;
    RunOwned(acts);
    LaneHolds(acts, s);
    AlwaysHungUp(acts, s);
    Projects(st, act, s);
    ClosingMoves(LaneOf(st, s), Projected(st, act, s).value);
    LeavingIsOnesOwn(st, act, s);
  }

  lemma LeavingIsOnesOwn(st: Net, act: Action, s: SessionId)
    requires Enabled(st, act) && Live(st, s)
    ensures Projected(st, act, s) == Some(MLeave) ==> act == Leave(s)
  {
  }

  // ----- the farewell -----

  /** The handler has left the terminal of a session that it opened. */
  predicate Gone(x: Sess) { x.asked && (x.h.HDrop? || x.h.HHangup? || x.h.HDone?) }

  lemma HandlerGoes(x: Sess, down: bool, present: bool, ok: bool)
    requires HandlerCan(x, down, ok) && Gone(HandlerDo(x, down, present, ok))
    requires x.h.HUpgrade? || x.h.HInsert? || x.h.HOpen? ==> !x.asked
    ensures var x' := HandlerDo(x, down, present, ok);
            if x.h.HBye? then x'.byes == x.byes + N(ok) else Gone(x) && x'.byes == x.byes
  {
  }

  lemma OthersDoNotGo(l: Lane, m: Move)
    requires Can(l, m) && !m.MHandler?
    ensures var x' := Do(l, m).x; x'.h == l.x.h && x'.asked == l.x.asked && x'.byes == l.x.byes
  {
    match m
    case MPump(i, ok, n) => PumpIsFar(l.x, i, l.down, ok, n, l.table);
    case MAgent(ok, n) => if !l.a.AServe? && !l.a.AStop? { AgentIsFar(l.x, l.a, l.down, ok, n); }
    case _ =>
  }

  lemma GoodbyeMove(l: Lane, m: Move)
    requires Fresh(l) && Can(l, m) && Gone(Do(l, m).x)
    ensures if m.MHandler? && l.x.h.HBye? then Do(l, m).x.byes == l.x.byes + N(m.ok)
            else Gone(l.x) && Do(l, m).x.byes == l.x.byes
  {
    if m.MHandler? { HandlerGoes(l.x, l.down, l.listed, m.ok); } else { OthersDoNotGo(l, m); }
  }

  /** The `j`-th step of the run writes the `close` frame of session `s`, or fails to. */
  predicate SaysGoodbye(acts: seq<Action>, s: SessionId, j: nat) {
    && j < |acts| && acts[j].Handler? && acts[j].s == s
    && Run(acts[..j]).Some? && s < |Run(acts[..j]).value.sess| && Run(acts[..j]).value.sess[s].h.HBye?
  }

  lemma GoodbyeStep(st: Net, act: Action, s: SessionId)
    requires Owned(st) && Enabled(st, act) && Live(st, s) && Fresh(LaneOf(st, s)) && ByeOnce(LaneOf(st, s))
    requires s < |Next(st, act).sess| && Gone(Next(st, act).sess[s])
    ensures var x, x' := st.sess[s], Next(st, act).sess[s];
            || (act.Handler? && act.s == s && x.h.HBye? && x'.byes == N(act.ok))
            || (Gone(x) && x'.byes == x.byes)
  {
    Projects(st, act, s);
    var m := Projected(st, act, s);
    if m.Some? { GoodbyeMove(LaneOf(st, s), m.value); }
  }

  lemma NewcomersStay(st: Net, act: Action, s: SessionId)
    requires Enabled(st, act) && |st.sess| <= s < |Next(st, act).sess|
    ensures !Gone(Next(st, act).sess[s])
  {
  }

  /** However the handler of an opened session came to its end, also after a keystroke was refused, it has
      tried to tell the agent; and the agent is told exactly if that write did not fail. */
  lemma {:induction false} HandlersSayGoodbye(acts: seq<Action>, s: SessionId) returns (j: nat)
    requires Run(acts).Some? && s < |Run(acts).value.sess| && Gone(Run(acts).value.sess[s])
    ensures SaysGoodbye(acts, s, j) && Run(acts).value.sess[s].byes == N(acts[j].ok)
  {
    assert acts != [];
    var before, act := acts[..|acts| - 1], acts[|acts| - 1];
    var st := Run(before).value;
    RunOwned(before);
    if s < |st.sess| {
      LaneHolds(before, s);
      GoodbyeStep(st, act, s);
      if act.Handler? && act.s == s && st.sess[s].h.HBye? {
        j := |before|;
        assert acts[..j] == before;
      } else {
        j := HandlersSayGoodbye(before, s);
        assert before[..j] == acts[..j] && acts[j] == before[j];
      }
    } else {
      NewcomersStay(st, act, s);
    }
  }

  /** On a connection that is not lost it does not. */
  lemma OnLiveConnectionsTheyAreHeard(acts: seq<Action>, s: SessionId)
    requires Run(acts).Some? && s < |Run(acts).value.sess| && Gone(Run(acts).value.sess[s])
    requires Live(Run(acts).value, s) && !Owner(Run(acts).value, s).down
    ensures Run(acts).value.sess[s].byes == 1
  {
    LaneHolds(acts, s);
  }
}
