/** What the frames of a shell's output look like on the channel: never empty, and never longer than the
    buffer of the goroutine that read them. */
module Framing {
  import opened Protocol
  import opened Threads
  import opened Lane
  import opened Network
  import opened LaneSafety
  import opened Multiplexing
  import opened Sessions

  predicate Fits(d: Bytes) { 0 < |d| <= 4096 }

  predicate FrameFits(m: Msg) { m.Output? ==> Fits(m.data) }

  /** In the goroutine's hands, on the channel, and in the broker's. */
  predicate Fitting(l: Lane) {
    && (forall i | 0 <= i < |l.x.shells| && l.x.shells[i].pump.PSend? :: Fits(l.x.shells[i].pump.chunk))
    && (forall i | 0 <= i < |l.toBroker| :: FrameFits(l.toBroker[i]))
    && (l.b.BGot? ==> FrameFits(l.b.m)) && (l.b.BDeliver? ==> Fits(l.b.data))
  }

  lemma PumpFits(x: Sess, s: SessionId, i: nat, down: bool, ok: bool, n: nat, t: Option<nat>)
    requires PumpCan(x, i, down, ok, n)
    requires forall j | 0 <= j < |x.shells| && x.shells[j].pump.PSend? :: Fits(x.shells[j].pump.chunk)
    ensures var y := PumpDo(x, i, down, ok, n, t);
            && (forall j | 0 <= j < |y.shells| && y.shells[j].pump.PSend? :: Fits(y.shells[j].pump.chunk))
            && (PumpSays(x, s, i, ok).Some? ==> FrameFits(PumpSays(x, s, i, ok).value))
  {
  }

  lemma HandlerFits(x: Sess, down: bool, present: bool, ok: bool)
    requires HandlerCan(x, down, ok)
    ensures HandlerDo(x, down, present, ok).shells == x.shells
  {
  }

  lemma AgentFits(x: Sess, a: AgentPc, down: bool, ok: bool, n: nat)
    requires AgentCan(x, a, down, ok, n)
    requires forall j | 0 <= j < |x.shells| && x.shells[j].pump.PSend? :: Fits(x.shells[j].pump.chunk)
    ensures var y := AgentDo(x, a, down, ok, n);
            forall j | 0 <= j < |y.shells| && y.shells[j].pump.PSend? :: Fits(y.shells[j].pump.chunk)
    ensures AgentSays(a, ok).Some? ==> FrameFits(AgentSays(a, ok).value)
  {
  }

  lemma AgentKeepsFitting(l: Lane, ok: bool, n: nat)
    requires Fitting(l) && AgentMayMove(l, ok, n)
    ensures Fitting(AgentMove(l, ok, n))
  {
    if !l.a.AServe? && !l.a.AStop? { AgentFits(l.x, l.a, l.down, ok, n); }
  }

  lemma BrokerKeepsFitting(l: Lane, ok: bool)
    requires Fitting(l) && Can(l, MBroker(ok))
    ensures Fitting(BrokerMove(l, ok))
  {
  }

  lemma OutsideKeepsFitting(l: Lane, m: Move)
    requires Fitting(l) && Can(l, m) && !m.MHandler? && !m.MPump? && !m.MAgent? && !m.MBroker?
    ensures Fitting(Do(l, m))
  {
  }

  lemma KeepsFitting(l: Lane, m: Move)
    requires Fitting(l) && Can(l, m)
    ensures Fitting(Do(l, m))
  {
    match m
    case MHandler(ok) => HandlerFits(l.x, l.down, l.listed, ok);
    case MPump(i, ok, n) => PumpFits(l.x, l.id, i, l.down, ok, n, l.table);
    case MAgent(ok, n) => AgentKeepsFitting(l, ok, n);
    case MBroker(ok) => BrokerKeepsFitting(l, ok);
    case _ => OutsideKeepsFitting(l, m);
  }

  lemma NewcomersFit(st: Net, d: DeviceId)
    requires Owned(st) && Enabled(st, Visit(d))
    ensures Live(Next(st, Visit(d)), |st.sess|) && Fitting(LaneOf(Next(st, Visit(d)), |st.sess|))
  {
    NobodyKnows(st, st.agents[d]);
  }

  lemma {:induction false} AlwaysFitting(acts: seq<Action>, s: SessionId)
    requires Run(acts).Some? && s < |Run(acts).value.sess|
    ensures Live(Run(acts).value, s) && Fitting(LaneOf(Run(acts).value, s))
  {
    if acts != [] {
      var st, act := Run(acts[..|acts| - 1]).value, acts[|acts| - 1];
      RunOwned(acts[..|acts| - 1]);
      SessionCount(st, act);
      if s < |st.sess| {
        AlwaysFitting(acts[..|acts| - 1], s);
        Projects(st, act, s);
        var m := Projected(st, act, s);
        if m.Some? { KeepsFitting(LaneOf(st, s), m.value); }
      } else {
        NewcomersFit(st, act.device);
      }
    }
  }

  /** Every `out` frame on its way to a browser carries between one byte and 4096. */
  lemma FramesFitTheBuffer(acts: seq<Action>, s: SessionId, d: Bytes)
    requires Run(acts).Some? && s < |Run(acts).value.sess| && Live(Run(acts).value, s)
    requires Output(s, d) in Owner(Run(acts).value, s).toBroker
    ensures 0 < |d| <= 4096
  {
    AlwaysFitting(acts, s);
    OnlyMembers(Owner(Run(acts).value, s).toBroker, Output(s, d), s);
  }
}
