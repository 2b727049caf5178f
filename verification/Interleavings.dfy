/** Two runs that the code allows and a reader may not expect: an `open` that overtakes `registered`, and
    an entry of `b.sessions` that outlives its connection. */
module Interleavings {
  import opened Protocol
  import opened Threads
  import opened Network
  import opened Delivery
  import R = Reattachment
  import Q = Quiescence

  // ----- steps of the only connection, with one session -----

  lemma Announces(cfg: Registration, acts: seq<Action>, c: Conn, x: Sess) returns (more: seq<Action>)
    requires Run(acts) == Some(One(cfg, c, x, true)) && c.b.BAnnounce?
    ensures Run(more) == Some(One(cfg, BrokerAlone(c, true), x, true))
  {
    R.Extend(acts, Broker(0, true));
    more := acts + [Broker(0, true)];
    assert [c][0 := BrokerAlone(c, true)] == [BrokerAlone(c, true)];
  }

  lemma AgentReadsOn(cfg: Registration, acts: seq<Action>, c: Conn, x: Sess, ok: bool) returns (more: seq<Action>)
    requires Run(acts) == Some(One(cfg, c, x, true)) && (c.a.AAwait? || c.a.AServe?)
    requires if ok then c.toAgent != [] else c.down
    ensures Run(more) == Some(One(cfg, AgentAlone(c, ok), x, true))
  {
    R.Extend(acts, Agent(0, ok, 0));
    more := acts + [Agent(0, ok, 0)];
    assert [c][0 := AgentAlone(c, ok)] == [AgentAlone(c, ok)];
  }

  // ----- an `open` overtakes `registered` -----

  /** A browser asks for a device between the publication of its connection and `registered`: the agent
      reads `open` first and leaves, although the broker serves its connection. */
  lemma OpenOvertakesRegistered(cfg: Registration) returns (acts: seq<Action>)
    requires cfg.device != ""
    ensures Run(acts).Some? && |Run(acts).value.conns| == 1
    ensures var st := Run(acts).value;
            && st.conns[0].a.ALeft? && st.conns[0].b.BServe? && !st.conns[0].down
            && st.conns[0].toAgent == [Registered] && st.agents == map[cfg.device := 0]
            && st.sess == [ASKED]
  {
    var c := R.Joining(cfg, BAnnounce, AAwait, []);
    acts := Attaches(cfg);
    R.Extend(acts, Visit(cfg.device));
    acts := acts + [Visit(cfg.device)];
    Visited(cfg, c);
    acts := Opens(cfg, acts, c);
    acts := Announces(cfg, acts, c.(toAgent := [Open(0)]), ASKED);
    assert [Open(0)] + [Registered] == [Open(0), Registered] && [Open(0), Registered][1..] == [Registered];
    acts := AgentReadsOn(cfg, acts, c.(b := BServe, toAgent := [Open(0), Registered]), ASKED, true);
  }

  // ----- an entry outlives its connection -----

  lemma Cuts(cfg: Registration, acts: seq<Action>, c: Conn, x: Sess) returns (more: seq<Action>)
    requires Run(acts) == Some(One(cfg, c, x, true)) && !c.down
    ensures Run(more) == Some(One(cfg, c.(down := true), x, true))
  {
    R.Extend(acts, Cut(0));
    more := acts + [Cut(0)];
    assert [c][0 := c.(down := true)] == [c.(down := true)];
  }

  lemma Stops(cfg: Registration, acts: seq<Action>, c: Conn, x: Sess) returns (more: seq<Action>)
    requires Run(acts) == Some(One(cfg, c, x, true)) && c.a == AStop(map[])
    ensures Run(more) == Some(One(cfg, c.(a := ALeft), x, true))
  {
    R.Extend(acts, Agent(0, true, 0));
    more := acts + [Agent(0, true, 0)];
    assert [c][0 := c.(a := ALeft)] == [c.(a := ALeft)];
  }

  /** The broker's handler has ended. */
  function Gone(cfg: Registration, c: Conn, x: Sess): Net {
    Net([c.(b := BDone)], [x], map[], map[0 := 0], map[], [Attachment(cfg.device, 0)])
  }

  /** The connection has been detached and is still in the registry. */
  function Detached(cfg: Registration, c: Conn, x: Sess): Net {
    Net([c], [x], map[], map[0 := 0], map[cfg.device := 0], [Attachment(cfg.device, 0)])
  }

  lemma LeavesLoop(cfg: Registration, c: Conn, x: Sess)
    requires c.b.BServe? && c.down
    ensures Enabled(One(cfg, c, x, true), Broker(0, false))
    ensures Next(One(cfg, c, x, true), Broker(0, false)) == One(cfg, c.(b := BDetach), x, true)
  {
    assert [c][0 := c.(b := BDetach)] == [c.(b := BDetach)];
  }

  lemma Detaches(cfg: Registration, c: Conn, x: Sess)
    requires c.b.BDetach? && c.reg == cfg
    ensures Enabled(One(cfg, c, x, true), Broker(0, true))
    ensures Next(One(cfg, c, x, true), Broker(0, true)) == Detached(cfg, c.(b := BRemove), x)
  {
    assert [c][0 := c.(b := BRemove)] == [c.(b := BRemove)];
    assert map[cfg.device := 0] - {cfg.device} == map[];
  }

  lemma Removes(cfg: Registration, c: Conn, x: Sess)
    requires c.b.BRemove? && c.reg == cfg
    ensures Enabled(Detached(cfg, c, x), Broker(0, true))
    ensures Next(Detached(cfg, c, x), Broker(0, true)) == Gone(cfg, c, x)
  {
    assert [c][0 := c.(b := BDone)] == [c.(b := BDone)];
    assert map[cfg.device := 0] - {cfg.device} == map[];
  }

  /** Three more steps of the broker's handler. */
  lemma HandlerEnds(cfg: Registration, acts: seq<Action>, c: Conn, x: Sess) returns (more: seq<Action>)
    requires Run(acts) == Some(One(cfg, c, x, true)) && c.b.BServe? && c.down && c.reg == cfg
    ensures Run(more) == Some(Gone(cfg, c, x))
  {
    LeavesLoop(cfg, c, x);
    R.Extend(acts, Broker(0, false));
    more := acts + [Broker(0, false)];
    Detaches(cfg, c.(b := BDetach), x);
    R.Extend(more, Broker(0, true));
    more := more + [Broker(0, true)];
    Removes(cfg, c.(b := BRemove), x);
    R.Extend(more, Broker(0, true));
    more := more + [Broker(0, true)];
  }

  lemma NothingMoves(st: Net)
    requires |st.conns| == 1 && st.conns[0].a.ALeft? && st.conns[0].b.BDone?
    requires |st.sess| == 1 && st.sess[0].shells == [] && st.sess[0].h.HRead?
    requires st.sess[0].browser.inbox == [] && !st.sess[0].browser.closed
    ensures Q.Quiet(st)
  {
    forall act | Q.ThreadStep(act)
      ensures !Enabled(st, act)
    {
    }
  }

  /** The connection of a device is lost while a browser looks on in silence: agent and handler end, no
      thread can move any more, and the session is still listed. */
  lemma EntriesOutliveConnections(cfg: Registration) returns (acts: seq<Action>)
    requires cfg.device != ""
    ensures Run(acts).Some? && Q.Quiet(Run(acts).value)
    ensures var st := Run(acts).value;
            && |st.conns| == 1 && st.conns[0].down && st.conns[0].a.ALeft? && st.conns[0].b.BDone?
            && st.agents == map[] && st.registry == map[] && st.sessions == map[0 := 0] && st.sess == [ASKED]
  {
    var c := R.Joining(cfg, BServe, AServe, []);
    acts := Registers(cfg);
    acts := Opens(cfg, acts, c);
    var c1 := c.(toAgent := [Open(0)], down := true);
    acts := Cuts(cfg, acts, c.(toAgent := [Open(0)]), ASKED);
    acts := AgentReadsOn(cfg, acts, c1, ASKED, false);
    acts := Stops(cfg, acts, c1.(a := AStop(map[])), ASKED);
    acts := HandlerEnds(cfg, acts, c1.(a := ALeft), ASKED);
    NothingMoves(Run(acts).value);
  }
}
