/** What holds of every session in every run of the network. */
module Sessions {
  import opened Protocol
  import opened Threads
  import opened Lane
  import opened Network
  import opened LaneSafety
  import opened Multiplexing

  lemma {:induction false} OnlyMembers(q: seq<Msg>, m: Msg, s: SessionId)
    ensures m in Only(q, s) <==> m in q && Names(m, s)
  {
    if q != [] {
      OnlyMembers(q[1..], m, s);
    }
  }

  lemma {:induction false} ClosesMembers(q: seq<Msg>, s: SessionId)
    requires forall i | 0 <= i < |q| :: q[i].Close? ==> q[i] == Close(s)
    ensures Closes(q) > 0 <==> Close(s) in q
  {
    if q != [] {
      ClosesMembers(q[1..], s);
    }
  }

  lemma LaneHolds(acts: seq<Action>, s: SessionId)
    requires Run(acts).Some? && s < |Run(acts).value.sess|
    ensures Live(Run(acts).value, s) && LaneInv(LaneOf(Run(acts).value, s))
  {
    Reachable(acts);
    assert AllLanes(Run(acts).value);
  }

  // ----- the two tables -----

  /** The sessions that the broker lists for connection `k`. */
  function Listings(st: Net, k: ConnId): set<SessionId> {
    set s | s in st.sessions && st.sessions[s] == k
  }

  /** `open` is about to be sent, on its way, or being served. */
  predicate Opening(x: Sess, c: Conn, s: SessionId) {
    || x.h.HOpen?
    || Open(s) in c.toAgent
    || c.a == AGot(Open(s))
    || (c.a.AStarted? && c.a.session == s)
  }

  /** The agent's `close` is about to be sent, on its way, or being served. */
  predicate Ending(x: Sess, c: Conn, s: SessionId) {
    || (c.a.AKill? && c.a.session == s)
    || c.a == ARefuse(s) || c.a == ABye(s)
    || (x.shells != [] && (x.shells[0].pump.PKill? || x.shells[0].pump.PBye?))
    || Close(s) in c.toBroker
    || c.b == BGot(Close(s))
  }

  /** The handler has dropped the session, and its `close` has not been served by the agent. */
  predicate Dropped(x: Sess, c: Conn, s: SessionId) {
    (x.h.HHangup? || x.h.HDone?) && (Close(s) in c.toAgent || c.a == AGot(Close(s)))
  }

  lemma LaneTablesAgree(l: Lane)
    requires LaneInv(l) && !l.down && Serving(l.a)
    ensures l.listed && l.table.None? ==>
              l.x.h.HOpen? || OpenAhead(l) || l.a.AStarted? || EndsToCome(l) > 0 || EndsInFlight(l) > 0
    ensures l.x.h.HOpen? || OpenAhead(l) || l.a.AStarted? || EndsToCome(l) > 0 || EndsInFlight(l) > 0 ==> l.table.None?
    ensures l.table.Some? && !l.listed ==> (l.x.h.HHangup? || l.x.h.HDone?) && CloseAhead(l)
  {
  }

  /** Session `s`, if it is in one table only, is there because of a message or thread under way. */
  predicate AgreeOn(st: Net, k: ConnId, s: SessionId)
    requires k < |st.conns| && s < |st.sess|
  {
    var x, c := st.sess[s], st.conns[k];
    && (s in st.sessions && s !in c.shells <==> s in st.sessions && (Opening(x, c, s) || Ending(x, c, s)))
    && (s in c.shells && s !in st.sessions <==> s in c.shells && Dropped(x, c, s))
  }

  /** The same, in terms of one session's part of the channels. */
  lemma LaneThreads(l: Lane)
    requires LaneInv(l)
    ensures OpenAhead(l) <==> Open(l.id) in l.toAgent || l.a == AGot(Open(l.id))
    ensures CloseAhead(l) <==> Close(l.id) in l.toAgent || l.a == AGot(Close(l.id))
    ensures EndsInFlight(l) > 0 <==> Close(l.id) in l.toBroker || l.b == BGot(Close(l.id))
  {
    LaneMessages(l);
    ClosesMembers(l.toBroker, l.id);
  }

  lemma ViewThreads(st: Net, s: SessionId)
    requires Live(st, s) && LaneInv(LaneOf(st, s))
    ensures var l, x, c := LaneOf(st, s), st.sess[s], Owner(st, s);
            && (Opening(x, c, s) <==> x.h.HOpen? || OpenAhead(l) || l.a.AStarted?)
            && (Ending(x, c, s) <==> EndsToCome(l) > 0 || EndsInFlight(l) > 0)
            && (Dropped(x, c, s) <==> (x.h.HHangup? || x.h.HDone?) && CloseAhead(l))
  {
    var c := Owner(st, s);
    LaneThreads(LaneOf(st, s));
    OnlyMembers(c.toAgent, Open(s), s);
    OnlyMembers(c.toAgent, Close(s), s);
    OnlyMembers(c.toBroker, Close(s), s);
  }

  lemma ServingView(a: AgentPc, s: SessionId)
    requires Serving(a)
    ensures Serving(AgentView(a, s))
  {
  }

  lemma TablesAgreeOn(st: Net, k: ConnId, s: SessionId)
    requires s < |st.sess| && k < |st.conns| && st.sess[s].owner == k && LaneInv(LaneOf(st, s))
    requires !st.conns[k].down && Serving(st.conns[k].a)
    ensures AgreeOn(st, k, s)
  {
    ServingView(st.conns[k].a, s);
    LaneTablesAgree(LaneOf(st, s));
    ViewThreads(st, s);
  }

  /** What the clauses about heads and tails of a session's queues say about membership. */
  lemma LaneMessages(l: Lane)
    requires Channels(l)
    ensures |l.toAgent| > 0 && l.toAgent[0].Open? <==> Open(l.id) in l.toAgent
    ensures |l.toAgent| > 0 && l.toAgent[|l.toAgent| - 1].Close? <==> Close(l.id) in l.toAgent
    ensures forall i | 0 <= i < |l.toBroker| :: l.toBroker[i].Close? ==> l.toBroker[i] == Close(l.id)
  {
  }

  /** The broker's table and the agent's table, on a live connection whose agent is serving: they
      differ by exactly the sessions whose `open` or `close` is still under way. */
  lemma TablesAgree(acts: seq<Action>, k: ConnId)
    requires Run(acts).Some? && k < |Run(acts).value.conns|
    requires !Run(acts).value.conns[k].down && Serving(Run(acts).value.conns[k].a)
    ensures var st := Run(acts).value; var c := st.conns[k];
            && (forall s | s in Listings(st, k) + c.shells.Keys :: s < |st.sess| && st.sess[s].owner == k)
            && Listings(st, k) - c.shells.Keys
               == (set s | s in Listings(st, k) && (Opening(st.sess[s], c, s) || Ending(st.sess[s], c, s)))
            && c.shells.Keys - Listings(st, k) == (set s | s in c.shells && Dropped(st.sess[s], c, s))
  {
    var st := Run(acts).value;
    RunOwned(acts);
    assert ConnOwned(st.sess, k, st.conns[k]);
    forall s | s in Listings(st, k) + st.conns[k].shells.Keys
      ensures s < |st.sess| && st.sess[s].owner == k && AgreeOn(st, k, s)
    {
      LaneHolds(acts, s);
      TablesAgreeOn(st, k, s);
    }
    forall s | s in st.conns[k].shells
      ensures s in Listings(st, k) <==> s in st.sessions
    {
    }
  }

  /** Nothing is in flight on connection `k` and every thread that serves it waits for input. */
  predicate Settled(st: Net, k: ConnId)
    requires k < |st.conns|
  {
    && st.conns[k].toAgent == [] && st.conns[k].toBroker == []
    && st.conns[k].a.AServe? && st.conns[k].b.BServe?
    && forall s | 0 <= s < |st.sess| && st.sess[s].owner == k ::
         && (st.sess[s].h.HRead? || st.sess[s].h.HDone?)
         && forall i | 0 <= i < |st.sess[s].shells| :: st.sess[s].shells[i].pump.PRead? || st.sess[s].shells[i].pump.PDone?
  }

  lemma SettledTables(acts: seq<Action>, k: ConnId)
    requires Run(acts).Some? && k < |Run(acts).value.conns|
    requires !Run(acts).value.conns[k].down && Settled(Run(acts).value, k)
    ensures Listings(Run(acts).value, k) == Run(acts).value.conns[k].shells.Keys
  {
    var st := Run(acts).value;
    TablesAgree(acts, k);
    forall s | s in Listings(st, k) + st.conns[k].shells.Keys
      ensures var x, c := st.sess[s], st.conns[k]; !Opening(x, c, s) && !Ending(x, c, s) && !Dropped(x, c, s)
    {
      SettledSession(st, k, s);
    }
    assert Listings(st, k) - st.conns[k].shells.Keys == {};
    assert st.conns[k].shells.Keys - Listings(st, k) == {};
  }

  lemma SettledSession(st: Net, k: ConnId, s: SessionId)
    requires k < |st.conns| && Settled(st, k) && s < |st.sess| && st.sess[s].owner == k
    ensures var x, c := st.sess[s], st.conns[k]; !Opening(x, c, s) && !Ending(x, c, s) && !Dropped(x, c, s)
  {
    assert st.sess[s].shells != [] ==> st.sess[s].shells[0].pump.PRead? || st.sess[s].shells[0].pump.PDone?;
  }

  // ----- byte streams -----

  predicate Faithful(x: Sess) {
    && |x.shells| <= 1
    && (forall i | 0 <= i < |x.shells| ::
          x.shells[i].fed <= x.browser.typed && x.browser.shown <= x.shells[i].produced)
    && (x.shells == [] ==> x.browser.shown == [])
  }

  lemma LaneIsFaithful(l: Lane)
    requires Indexes(l) && Streams(l)
    ensures Faithful(l.x)
  {
  }

  /** What a shell was fed is a prefix of what its browser typed, and what the browser was shown is a
      prefix of what the shell produced. */
  lemma StreamsAreFaithful(acts: seq<Action>, s: SessionId)
    requires Run(acts).Some? && s < |Run(acts).value.sess|
    ensures Faithful(Run(acts).value.sess[s])
  {
    LaneHolds(acts, s);
    LaneIsFaithful(LaneOf(Run(acts).value, s));
  }

  lemma LaneLosesNothing(l: Lane)
    requires LaneInv(l) && l.listed && l.table.Some? && l.toAgent == [] && l.toBroker == []
    requires l.a.AServe? && l.b.BServe? && l.x.h.HRead? && l.x.shells[0].pump.PRead?
    requires !l.x.browser.broken && !l.x.shells[0].jammed
    ensures l.x.shells[0].fed == l.x.browser.taken && l.x.browser.shown == l.x.shells[0].read
  {
  }

  /** Nothing of session `s` is in flight and neither loop of its connection is working for it, whatever
      the other sessions of the connection do. */
  predicate Idle(c: Conn, s: SessionId) {
    && Only(c.toAgent, s) == [] && Only(c.toBroker, s) == []
    && Serving(c.a) && AgentSubject(c.a) != Some(s)
    && !c.b.BDetach? && !c.b.BRemove? && !c.b.BDone? && BrokerSubject(c.b) != Some(s)
  }

  /** When nothing of a listed session is in flight and no write to it has failed, nothing is lost: every
      keystroke read has reached the shell, and every byte read from the shell has reached the browser. */
  lemma NothingIsLost(acts: seq<Action>, s: SessionId)
    requires Run(acts).Some? && s < |Run(acts).value.sess| && Live(Run(acts).value, s)
    requires var st := Run(acts).value;
             s in st.sessions && s in Owner(st, s).shells && Idle(Owner(st, s), s) && st.sess[s].h.HRead?
    requires var x := Run(acts).value.sess[s];
             !x.browser.broken && |x.shells| == 1 && x.shells[0].pump.PRead? && !x.shells[0].jammed
    ensures var x := Run(acts).value.sess[s];
            x.shells[0].fed == x.browser.taken && x.browser.shown == x.shells[0].read
  {
    LaneHolds(acts, s);
    LaneLosesNothing(LaneOf(Run(acts).value, s));
  }

  // ----- closes do not echo -----

  lemma ClosesDoNotEcho(acts: seq<Action>, s: SessionId)
    requires Run(acts).Some? && s < |Run(acts).value.sess|
    ensures Run(acts).value.sess[s].byes <= 1 && Run(acts).value.sess[s].ends <= 1
  {
    LaneHolds(acts, s);
  }

  // ----- shells are closed once -----

  /** How many threads of the session have taken a shell out of the table to close it. */
  function Claims(x: Sess, c: Conn, s: SessionId): nat {
    N(c.a.AKill? && c.a.session == s) + N(x.shells != [] && x.shells[0].pump.PKill?)
  }

  /** A started shell is about to enter `a.shells`, or in it, or in the agent's hands after the
      connection was lost, or claimed by exactly one thread, or has been closed exactly once. */
  lemma ShellsHaveOneOwner(acts: seq<Action>, s: SessionId)
    requires Run(acts).Some? && s < |Run(acts).value.sess| && Run(acts).value.sess[s].shells != []
    ensures var st := Run(acts).value; var x := st.sess[s];
            && Live(st, s)
            && var c := Owner(st, s);
            && N(c.a.AStarted? && c.a.session == s) + N(s in c.shells) + N(c.a.AStop? && s in c.a.todo)
               + Claims(x, c, s) + x.shells[0].closes == 1
            && (c.a.ALeft? && x.shells[0].pump.PDone? ==> x.shells[0].closes == 1)
  {
    LaneHolds(acts, s);
  }

  // ----- sessions keep to their connection -----

  lemma SessionsKeepToTheirConnection(acts: seq<Action>, k: ConnId, s: SessionId)
    requires Run(acts).Some? && k < |Run(acts).value.conns| && s < |Run(acts).value.sess|
    requires var c := Run(acts).value.conns[k];
             || (exists i :: 0 <= i < |c.toAgent| && Names(c.toAgent[i], s))
             || (exists i :: 0 <= i < |c.toBroker| && Names(c.toBroker[i], s))
             || s in c.shells || AgentSubject(c.a) == Some(s) || BrokerSubject(c.b) == Some(s)
    ensures Run(acts).value.sess[s].owner == k
  {
    RunOwned(acts);
  }

  /** Only a step of the owning connection's handler writes to a browser. */
  lemma OnlyTheOwnerWrites(acts: seq<Action>, act: Action, s: SessionId)
    requires Run(acts).Some? && Enabled(Run(acts).value, act) && s < |Run(acts).value.sess|
    requires Next(Run(acts).value, act).sess[s].browser.shown != Run(acts).value.sess[s].browser.shown
    ensures act.Broker? && act.k == Run(acts).value.sess[s].owner
  {
    var st := Run(acts).value;
    RunOwned(acts);
    Projects(st, act, s);
    var m := Projected(st, act, s);
    if m.Some? && m.value.MBroker? {
      BrokerMovesComeFrom(st, act, s);
    } else if m.Some? {
      ShownByTheBroker(LaneOf(st, s), m.value);
    }
  }

  lemma BrokerMovesComeFrom(st: Net, act: Action, s: SessionId)
    requires Enabled(st, act) && Live(st, s)
    requires Projected(st, act, s).Some? && Projected(st, act, s).value.MBroker?
    ensures act.Broker? && act.k == st.sess[s].owner
  {
  }

  lemma HandlerShowsNothing(x: Sess, down: bool, present: bool, ok: bool)
    requires HandlerCan(x, down, ok)
    ensures HandlerDo(x, down, present, ok).browser.shown == x.browser.shown
  {
  }

  lemma PumpShowsNothing(x: Sess, i: nat, down: bool, ok: bool, n: nat, t: Option<nat>)
    requires PumpCan(x, i, down, ok, n)
    ensures PumpDo(x, i, down, ok, n, t).browser == x.browser
  {
  }

  lemma AgentShowsNothing(l: Lane, ok: bool, n: nat)
    requires AgentMayMove(l, ok, n)
    ensures AgentMove(l, ok, n).x.browser == l.x.browser
  {
  }

  lemma ShownByTheBroker(l: Lane, m: Move)
    requires Can(l, m) && !m.MBroker?
    ensures Do(l, m).x.browser.shown == l.x.browser.shown
  {
    match m
    case MHandler(ok) => HandlerShowsNothing(l.x, l.down, l.listed, ok);
    case MPump(i, ok, n) => PumpShowsNothing(l.x, i, l.down, ok, n, l.table);
    case MAgent(ok, n) => AgentShowsNothing(l, ok, n);
    case _ =>
  }

  /** A session belongs to the same connection for the rest of the run. */
  lemma {:induction false} OwnersAreForEver(acts: seq<Action>, more: seq<Action>, s: SessionId)
    requires Run(acts).Some? && s < |Run(acts).value.sess| && Run(acts + more).Some?
    ensures s < |Run(acts + more).value.sess|
            && Run(acts + more).value.sess[s].owner == Run(acts).value.sess[s].owner
  {
    if more == [] {
      assert acts + more == acts;
    } else {
      var rest := more[..|more| - 1];
      assert (acts + more)[..|acts + more| - 1] == acts + rest;
      OwnersAreForEver(acts, rest, s);
      RunOwned(acts + rest);
      KeepsOwner(Run(acts + rest).value, (acts + more)[|acts + more| - 1], s);
    }
  }

  lemma KeepsOwner(st: Net, act: Action, s: SessionId)
    requires Owned(st) && Enabled(st, act) && s < |st.sess|
    ensures s < |Next(st, act).sess| && Next(st, act).sess[s].owner == st.sess[s].owner
  {
    Projects(st, act, s);
    var m := Projected(st, act, s);
    if m.Some? { LaneKeepsOwner(LaneOf(st, s), m.value); }
  }

  lemma HandlerKeepsOwner(x: Sess, down: bool, present: bool, ok: bool)
    requires HandlerCan(x, down, ok)
    ensures HandlerDo(x, down, present, ok).owner == x.owner
  {
  }

  lemma PumpKeepsOwner(x: Sess, i: nat, down: bool, ok: bool, n: nat, t: Option<nat>)
    requires PumpCan(x, i, down, ok, n)
    ensures PumpDo(x, i, down, ok, n, t).owner == x.owner
  {
  }

  lemma AgentKeepsOwner(l: Lane, ok: bool, n: nat)
    requires AgentMayMove(l, ok, n)
    ensures AgentMove(l, ok, n).x.owner == l.x.owner
  {
  }

  lemma LaneKeepsOwner(l: Lane, m: Move)
    requires Can(l, m)
    ensures Do(l, m).x.owner == l.x.owner
  {
    match m
    case MHandler(ok) => HandlerKeepsOwner(l.x, l.down, l.listed, ok);
    case MPump(i, ok, n) => PumpKeepsOwner(l.x, i, l.down, ok, n, l.table);
    case MAgent(ok, n) => AgentKeepsOwner(l, ok, n);
    case _ =>
  }
}
