/** States in which no thread can move: what a torn-down connection leaves behind, and where a live
    one comes to rest. */
module Quiescence {
  import opened Protocol
  import opened Threads
  import opened Lane
  import opened Network
  import opened LaneSafety
  import opened Multiplexing
  import opened Sessions
  import Teardown
  import Welcome
  import H = Hangups

  predicate ThreadStep(act: Action) {
    act.Handler? || act.Pump? || act.Agent? || act.Broker?
  }

  /** No thread can take a step, whatever the outcome of its next call. */
  ghost predicate Quiet(st: Net) {
    forall act | ThreadStep(act) :: !Enabled(st, act)
  }

  // ----- a quiet state, thread by thread -----

  /** How many bytes the PTY takes. */
  function Taken(x: Sess, a: AgentPc): nat {
    if a.AFeed? && a.shell < |x.shells| && !x.shells[a.shell].jammed && x.shells[a.shell].closes == 0 then |a.data| else 0
  }

  lemma BusyAgentsMove(st: Net, k: ConnId, s: SessionId)
    requires k < |st.conns| && AgentSubject(st.conns[k].a) == Some(s)
    requires Live(st, s) && st.sess[s].owner == k && Indexes(LaneOf(st, s))
    ensures Enabled(st, Agent(k, true, Taken(st.sess[s], st.conns[k].a)))
  {
  }

  lemma StoppingAgentsMove(st: Net, k: ConnId, s: SessionId)
    requires k < |st.conns| && st.conns[k].a.AStop? && s in st.conns[k].a.todo
    requires Live(st, s) && st.sess[s].owner == k && Indexes(LaneOf(st, s))
    ensures Enabled(st, Agent(k, true, s))
  {
  }

  lemma IdleAgentsWait(st: Net, k: ConnId)
    requires k < |st.conns| && AgentSubject(st.conns[k].a).None?
    requires !Enabled(st, Agent(k, true, 0)) && !Enabled(st, Agent(k, false, 0))
    ensures var c := st.conns[k];
            || c.a.ALeft? || ((c.a.AServe? || c.a.AAwait?) && !c.down && c.toAgent == [])
            || (c.a.AStop? && c.a.todo != map[])
  {
  }

  lemma QuietAgent(st: Net, k: ConnId)
    requires Quiet(st) && k < |st.conns| && ConnOwned(st.sess, k, st.conns[k])
    requires forall s | 0 <= s < |st.sess| && st.sess[s].owner == k :: Indexes(LaneOf(st, s))
    ensures var c := st.conns[k];
            c.a.ALeft? || ((c.a.AServe? || c.a.AAwait?) && !c.down && c.toAgent == [])
  {
    var a := st.conns[k].a;
    if AgentSubject(a).Some? {
      var s := AgentSubject(a).value;
      assert Mine(st.sess, k, s);
      BusyAgentsMove(st, k, s);
      assert false;
    } else if a.AStop? && a.todo != map[] {
      var s :| s in a.todo;
      assert Mine(st.sess, k, s);
      StoppingAgentsMove(st, k, s);
      assert false;
    } else {
      assert ThreadStep(Agent(k, true, 0)) && ThreadStep(Agent(k, false, 0));
      IdleAgentsWait(st, k);
    }
  }

  lemma QuietBroker(st: Net, k: ConnId)
    requires Quiet(st) && Owned(st) && k < |st.conns|
    ensures var c := st.conns[k];
            c.b.BDone? || ((c.b.BServe? || c.b.BRegister?) && !c.down && c.toBroker == [])
  {
    assert !Enabled(st, Broker(k, true)) && !Enabled(st, Broker(k, false));
    assert ConnOwned(st.sess, k, st.conns[k]);
  }

  lemma QuietHandler(st: Net, s: SessionId)
    requires Quiet(st) && Live(st, s)
    ensures var x := st.sess[s];
            x.h.HDone? || (x.h.HRead? && !x.browser.closed && x.browser.inbox == [])
  {
    assert !Enabled(st, Handler(s, true)) && !Enabled(st, Handler(s, false));
  }

  /** When no thread can move, a browser is open and its session listed while the handler waits for it; when
      the handler has ended the browser is closed and its session is not listed. */
  lemma QuietBrowser(acts: seq<Action>, s: SessionId)
    requires Run(acts).Some? && Quiet(Run(acts).value) && s < |Run(acts).value.sess|
    ensures var st := Run(acts).value; var x := st.sess[s];
            && (s in st.sessions <==> x.h.HRead?)
            && (x.h.HRead? ==> !x.browser.closed)
            && (x.h.HDone? && x.upgraded ==> x.browser.closed)
  {
    var st := Run(acts).value;
    LaneHolds(acts, s);
    QuietHandler(st, s);
    RunOwned(acts);
    var k := st.sess[s].owner;
    assert ConnOwned(st.sess, k, st.conns[k]);
    QuietBroker(st, k);
    H.AlwaysHungUp(acts, s);
  }

  lemma QuietPump(st: Net, s: SessionId, i: nat)
    requires Quiet(st) && Live(st, s) && i < |st.sess[s].shells| && Indexes(LaneOf(st, s))
    ensures var sh := st.sess[s].shells[i];
            sh.pump.PIdle? || sh.pump.PDone? || (sh.pump.PRead? && sh.unread == [] && !sh.exited && sh.closes == 0)
  {
    var sh := st.sess[s].shells[i];
    assert !Enabled(st, Pump(s, i, true, 0)) && !Enabled(st, Pump(s, i, false, 0));
    if sh.pump.PRead? { assert !Enabled(st, Pump(s, i, true, 1)); }
  }

  lemma LaneOwns(acts: seq<Action>, s: SessionId)
    requires Run(acts).Some? && s < |Run(acts).value.sess|
    ensures Live(Run(acts).value, s)
    ensures Indexes(LaneOf(Run(acts).value, s)) && Ownership(LaneOf(Run(acts).value, s))
  {
    LaneHolds(acts, s);
  }

  // ----- every run comes to rest -----

  lemma AppendStep(acts: seq<Action>, more: seq<Action>, act: Action)
    requires Run(acts + more).Some? && Enabled(Run(acts + more).value, act)
    ensures Run(acts + (more + [act])) == Some(Next(Run(acts + more).value, act))
  {
    assert acts + (more + [act]) == (acts + more) + [act];
    assert ((acts + more) + [act])[..|acts + more|] == acts + more;
  }

  /** Left to themselves, the threads stop: whatever has happened and whatever they have done since, they
      can go on to a state in which none can move. TeardownEnds bounds every way of getting there. */
  lemma {:induction false} ComesToRest(acts: seq<Action>, so: seq<Action>) returns (more: seq<Action>)
    requires Run(acts + so).Some? && forall a | a in so :: ThreadStep(a)
    ensures Run(acts + more).Some? && Quiet(Run(acts + more).value) && so <= more
    ensures forall a | a in more :: ThreadStep(a)
    decreases Teardown.Work(Run(acts + so).value)
  {
    var st := Run(acts + so).value;
    if Quiet(st) {
      more := so;
    } else {
      var act :| ThreadStep(act) && Enabled(st, act);
      AppendStep(acts, so, act);
      Teardown.StepLowers(st, act);
      more := ComesToRest(acts, so + [act]);
    }
  }

  // ----- a lost connection -----

  /** Everything that served connection `k` has ended, and every shell was closed once. Only handlers
      whose browser is open and silent still wait, and theirs are exactly the entries that remain in
      `b.sessions`; every other browser has been closed. */
  predicate CleanedUp(st: Net, k: ConnId)
    requires k < |st.conns|
  {
    && st.conns[k].a.ALeft? && st.conns[k].b.BDone?
    && st.conns[k].shells == map[]
    && forall s | 0 <= s < |st.sess| && st.sess[s].owner == k ::
         var x := st.sess[s];
         && (x.h.HDone? || (x.h.HRead? && !x.browser.closed && x.browser.inbox == []))
         && (s in st.sessions <==> x.h.HRead?)
         && (x.h.HDone? && x.upgraded ==> x.browser.closed)
         && forall i | 0 <= i < |x.shells| :: x.shells[i].pump.PDone? && x.shells[i].closes == 1
  }

  lemma LostLane(l: Lane)
    requires Indexes(l) && Ownership(l) && l.a.ALeft? && l.x.shells != []
    requires l.x.shells[0].pump.PIdle? || l.x.shells[0].pump.PDone? || (l.x.shells[0].pump.PRead? && l.x.shells[0].closes == 0)
    ensures |l.x.shells| == 1 && l.x.shells[0].pump.PDone? && l.x.shells[0].closes == 1
  {
  }

  lemma LostSession(st: Net, s: SessionId)
    requires Quiet(st) && Live(st, s) && Owner(st, s).a.ALeft?
    requires Indexes(LaneOf(st, s)) && Ownership(LaneOf(st, s))
    ensures var x := st.sess[s];
            && s !in Owner(st, s).shells
            && forall i | 0 <= i < |x.shells| :: x.shells[i].pump.PDone? && x.shells[i].closes == 1
  {
    if st.sess[s].shells != [] {
      QuietPump(st, s, 0);
      LostLane(LaneOf(st, s));
    }
  }

  /** When no thread can move any more, every connection that was lost has been cleaned up. */
  lemma LostConnectionsAreCleanedUp(acts: seq<Action>, k: ConnId)
    requires Run(acts).Some? && Quiet(Run(acts).value) && k < |Run(acts).value.conns|
    requires Run(acts).value.conns[k].down
    ensures CleanedUp(Run(acts).value, k)
  {
    var st := Run(acts).value;
    RunOwned(acts);
    forall s | 0 <= s < |st.sess| && st.sess[s].owner == k
      ensures Indexes(LaneOf(st, s))
    {
      LaneOwns(acts, s);
    }
    QuietAgent(st, k);
    QuietBroker(st, k);
    assert ConnOwned(st.sess, k, st.conns[k]);
    forall s | 0 <= s < |st.sess| && st.sess[s].owner == k
      ensures var x := st.sess[s];
              && (x.h.HDone? || (x.h.HRead? && !x.browser.closed && x.browser.inbox == []))
              && s !in st.conns[k].shells && (s in st.sessions <==> x.h.HRead?)
              && (x.h.HDone? && x.upgraded ==> x.browser.closed)
              && forall i | 0 <= i < |x.shells| :: x.shells[i].pump.PDone? && x.shells[i].closes == 1
    {
      QuietHandler(st, s);
      LaneOwns(acts, s);
      LostSession(st, s);
      QuietBrowser(acts, s);
    }
  }

  // ----- a live connection -----

  lemma SettledLane(st: Net, s: SessionId)
    requires Quiet(st) && Live(st, s) && Owner(st, s).a.AServe?
    requires Indexes(LaneOf(st, s)) && Ownership(LaneOf(st, s))
    ensures var x := st.sess[s];
            forall i | 0 <= i < |x.shells| :: x.shells[i].pump.PRead? || x.shells[i].pump.PDone?
  {
    if st.sess[s].shells != [] { QuietPump(st, s, 0); }
  }

  /** When no thread can move any more, the broker and every agent that serves over a live connection
      agree on its sessions. */
  lemma LiveConnectionsAgree(acts: seq<Action>, k: ConnId)
    requires Run(acts).Some? && Quiet(Run(acts).value) && k < |Run(acts).value.conns|
    requires !Run(acts).value.conns[k].down && Serving(Run(acts).value.conns[k].a)
    ensures Listings(Run(acts).value, k) == Run(acts).value.conns[k].shells.Keys
  {
    var st := Run(acts).value;
    RunOwned(acts);
    Welcome.AlwaysWelcomed(acts, k);
    forall s | 0 <= s < |st.sess| && st.sess[s].owner == k
      ensures Indexes(LaneOf(st, s))
    {
      LaneOwns(acts, s);
    }
    QuietAgent(st, k);
    QuietBroker(st, k);
    assert ConnOwned(st.sess, k, st.conns[k]);
    forall s | 0 <= s < |st.sess| && st.sess[s].owner == k
      ensures var x := st.sess[s];
              && (x.h.HRead? || x.h.HDone?)
              && forall i | 0 <= i < |x.shells| :: x.shells[i].pump.PRead? || x.shells[i].pump.PDone?
    {
      QuietHandler(st, s);
      LaneOwns(acts, s);
      SettledLane(st, s);
    }
    assert Settled(st, k);
    SettledTables(acts, k);
  }
}
