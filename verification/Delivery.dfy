/** The invariants of the other files are not empty: for any registration, keystrokes and output there is
    a run in which the keystrokes reach the shell and the output reaches the browser. */
module Delivery {
  import opened Protocol
  import opened Threads
  import opened Network
  import L = Lane
  import R = Reattachment

  /** One attached connection and one session. */
  function One(cfg: Registration, c: Conn, x: Sess, listed: bool): Net {
    Net([c], [x], map[cfg.device := 0], if listed then map[0 := 0] else map[], map[cfg.device := 0],
        [Attachment(cfg.device, 0)])
  }

  // ----- one step of each thread -----

  lemma Handles(cfg: Registration, acts: seq<Action>, c: Conn, x: Sess, listed: bool) returns (more: seq<Action>)
    requires Run(acts) == Some(One(cfg, c, x, listed)) && x.owner == 0 && HandlerCan(x, c.down, true)
    ensures Run(more) == Some(One(cfg, HandlerConn(c, x, 0, true), HandlerDo(x, c.down, listed, true), L.Listed(x.h, listed)))
  {
    var st := One(cfg, c, x, listed);
    R.Extend(acts, Handler(0, true));
    more := acts + [Handler(0, true)];
    var st' := Next(st, Handler(0, true));
    assert st'.sess == [HandlerDo(x, c.down, listed, true)] && st'.conns == [HandlerConn(c, x, 0, true)];
    assert st'.sessions == if L.Listed(x.h, listed) then map[0 := 0] else map[];
  }

  lemma Pumps(cfg: Registration, acts: seq<Action>, c: Conn, x: Sess, n: nat) returns (more: seq<Action>)
    requires Run(acts) == Some(One(cfg, c, x, true)) && x.owner == 0 && PumpCan(x, 0, c.down, true, n)
    ensures Run(more) == Some(One(cfg, PumpConn(c, x, 0, 0, true), PumpDo(x, 0, c.down, true, n, Lookup(c.shells, 0)), true))
  {
    var st := One(cfg, c, x, true);
    R.Extend(acts, Pump(0, 0, true, n));
    more := acts + [Pump(0, 0, true, n)];
    var st' := Next(st, Pump(0, 0, true, n));
    assert st'.sess == [PumpDo(x, 0, c.down, true, n, Lookup(c.shells, 0))] && st'.conns == [PumpConn(c, x, 0, 0, true)];
  }

  lemma AgentWorks(cfg: Registration, acts: seq<Action>, c: Conn, x: Sess, n: nat) returns (more: seq<Action>)
    requires Run(acts) == Some(One(cfg, c, x, true)) && AgentSubject(c.a) == Some(0) && AgentCan(x, c.a, c.down, true, n)
    ensures Run(more) == Some(One(cfg, AgentConn(c, x, 0, true), AgentDo(x, c.a, c.down, true, n), true))
  {
    var st := One(cfg, c, x, true);
    R.Extend(acts, Agent(0, true, n));
    more := acts + [Agent(0, true, n)];
    var st' := Next(st, Agent(0, true, n));
    assert st'.sess == [AgentDo(x, c.a, c.down, true, n)] && st'.conns == [AgentConn(c, x, 0, true)];
  }

  lemma AgentReads(cfg: Registration, acts: seq<Action>, c: Conn, x: Sess) returns (more: seq<Action>)
    requires Run(acts) == Some(One(cfg, c, x, true)) && c.a.AServe? && c.toAgent != []
    ensures Run(more) == Some(One(cfg, c.(a := AGot(c.toAgent[0]), toAgent := c.toAgent[1..]), x, true))
  {
    var st := One(cfg, c, x, true);
    R.Extend(acts, Agent(0, true, 0));
    more := acts + [Agent(0, true, 0)];
    assert Next(st, Agent(0, true, 0)).conns == [c.(a := AGot(c.toAgent[0]), toAgent := c.toAgent[1..])];
  }

  lemma BrokerReads(cfg: Registration, acts: seq<Action>, c: Conn, x: Sess) returns (more: seq<Action>)
    requires Run(acts) == Some(One(cfg, c, x, true)) && c.b.BServe? && c.toBroker != []
    ensures Run(more) == Some(One(cfg, c.(b := BGot(c.toBroker[0]), toBroker := c.toBroker[1..]), x, true))
  {
    var st := One(cfg, c, x, true);
    R.Extend(acts, Broker(0, true));
    more := acts + [Broker(0, true)];
    assert Next(st, Broker(0, true)).conns == [c.(b := BGot(c.toBroker[0]), toBroker := c.toBroker[1..])];
  }

  lemma BrokerWorks(cfg: Registration, acts: seq<Action>, c: Conn, x: Sess) returns (more: seq<Action>)
    requires Run(acts) == Some(One(cfg, c, x, true)) && BrokerSubject(c.b) == Some(0) && BrokerCan(x, c.b, true)
    requires c.b.BGot? ==> !c.b.m.Close?
    ensures Run(more) == Some(One(cfg, c.(b := BrokerGoes(c.b, true)), BrokerDo(x, c.b, true), true))
  {
    var st := One(cfg, c, x, true);
    R.Extend(acts, Broker(0, true));
    more := acts + [Broker(0, true)];
    var st' := Next(st, Broker(0, true));
    assert st'.sess == [BrokerDo(x, c.b, true)] && st'.conns == [c.(b := BrokerGoes(c.b, true))];
  }

  // ----- what the steps of this run do -----

  /** The session with its shell. */
  function With(x: Sess, sh: Shell): Sess { x.(shells := [sh]) }

  const RUNNING := NEW_SHELL.(pump := PRead)

  /** The session once its handler has sent `open`. */
  const ASKED := NewSess(0).(h := HRead, upgraded := true, asked := true)

  lemma SaysOpen(c: Conn, x: Sess)
    requires c.toAgent == [] && x == NewSess(0).(h := HOpen, upgraded := true)
    ensures HandlerConn(c, x, 0, true) == c.(toAgent := [Open(0)]) && HandlerDo(x, c.down, true, true) == ASKED
  {
    assert [] + [Open(0)] == [Open(0)];
  }

  lemma StartsShell(c: Conn, x: Sess)
    requires c.a == AGot(Open(0)) && c.shells == map[] && x.shells == []
    ensures AgentConn(c, x, 0, true) == c.(a := AStarted(0, 0))
    ensures AgentDo(x, c.a, c.down, true, 0) == With(x, NEW_SHELL)
  {
    assert [] + [NEW_SHELL] == [NEW_SHELL];
  }

  lemma ListsShell(c: Conn, x: Sess)
    requires c.a == AStarted(0, 0) && c.shells == map[] && x.shells == [NEW_SHELL]
    ensures AgentConn(c, x, 0, true) == c.(a := AServe, shells := map[0 := 0])
    ensures AgentDo(x, c.a, c.down, true, 0) == With(x, RUNNING)
  {
    assert [NEW_SHELL][0 := RUNNING] == [RUNNING];
  }

  lemma FindsShell(c: Conn, x: Sess, d: Bytes)
    requires c.a == AGot(Input(0, d)) && c.shells == map[0 := 0]
    ensures AgentConn(c, x, 0, true) == c.(a := AFeed(0, 0, d)) && AgentDo(x, c.a, c.down, true, 0) == x
  {
  }

  /** The shell after it was given `d`. */
  function Given(sh: Shell, d: Bytes): Shell { sh.(fed := sh.fed + d) }

  lemma FeedsShell(c: Conn, x: Sess, sh: Shell, d: Bytes)
    requires c.a == AFeed(0, 0, d) && c.shells == map[0 := 0] && x.shells == [sh] && !sh.jammed && sh.closes == 0
    ensures AgentCan(x, c.a, c.down, true, |d|)
    ensures AgentConn(c, x, 0, true) == c.(a := AServe)
    ensures AgentDo(x, c.a, c.down, true, |d|) == With(x, Given(sh, d))
  {
    assert d[..|d|] == d;
    assert [sh][0 := Given(sh, d)] == [Given(sh, d)];
  }

  lemma PrintsText(x: Sess, sh: Shell, e: Bytes)
    requires x.shells == [sh] && sh.unread == [] && sh.produced == []
    ensures Producing(x, 0, e) == With(x, sh.(unread := e, produced := e))
  {
    assert [] + e == e;
    assert [sh][0 := sh.(unread := e, produced := e)] == [sh.(unread := e, produced := e)];
  }

  /** The shell after `n` bytes were read and are about to be sent. */
  function Reading(sh: Shell, n: nat): Shell
    requires n <= |sh.unread|
  {
    sh.(unread := sh.unread[n..], read := sh.read + sh.unread[..n], pump := PSend(sh.unread[..n], false))
  }

  /** The shell after they were sent. */
  function Sending(sh: Shell, d: Bytes): Shell { sh.(sent := sh.sent + d, pump := PRead) }

  lemma ReadsText(c: Conn, x: Sess, sh: Shell, n: nat)
    requires x.shells == [sh] && sh.pump.PRead? && 0 < n <= |sh.unread| && n <= BUFFER_SIZE
    ensures PumpCan(x, 0, c.down, true, n) && PumpConn(c, x, 0, 0, true) == c
    ensures PumpDo(x, 0, c.down, true, n, Lookup(c.shells, 0)) == With(x, Reading(sh, n))
  {
    assert [sh][0 := Reading(sh, n)] == [Reading(sh, n)];
  }

  lemma SendsText(c: Conn, x: Sess, sh: Shell, d: Bytes)
    requires x.shells == [sh] && sh.pump == PSend(d, false) && c.toBroker == []
    ensures PumpCan(x, 0, c.down, true, 0) && PumpConn(c, x, 0, 0, true) == c.(toBroker := [Output(0, d)])
    ensures PumpDo(x, 0, c.down, true, 0, Lookup(c.shells, 0)) == With(x, Sending(sh, d))
  {
    assert [] + [Output(0, d)] == [Output(0, d)];
    assert [sh][0 := Sending(sh, d)] == [Sending(sh, d)];
  }

  /** The session after the browser was shown `d`. */
  function Seeing(x: Sess, d: Bytes): Sess { x.(browser := x.browser.(shown := x.browser.shown + d)) }

  lemma ShowsText(c: Conn, x: Sess, d: Bytes)
    requires c.b == BDeliver(0, d)
    ensures c.(b := BrokerGoes(c.b, true)) == c.(b := BServe) && BrokerDo(x, c.b, true) == Seeing(x, d)
  {
  }

  // ----- the run -----

  /** A network with one connection and no session. */
  function Lone(cfg: Registration, c: Conn): Net {
    Net([c], [], map[cfg.device := 0], map[], map[cfg.device := 0], [Attachment(cfg.device, 0)])
  }

  lemma Placed(cfg: Registration)
    ensures var c := R.Joining(cfg, BAttach, AAwait, []);
            Next(R.With(START, c), Broker(0, true)) == Lone(cfg, c.(b := BAdd)).(registry := map[])
  {
    var c := R.Joining(cfg, BAttach, AAwait, []);
    assert [] + [c] == [c] && [c][0 := c.(b := BAdd)] == [c.(b := BAdd)];
    assert [] + [Attachment(cfg.device, 0)] == [Attachment(cfg.device, 0)];
  }

  lemma Added(cfg: Registration, c: Conn)
    requires c.b.BAdd? && c.reg == cfg
    ensures Next(Lone(cfg, c).(registry := map[]), Broker(0, true)) == Lone(cfg, c.(b := BAnnounce))
  {
    assert [c][0 := c.(b := BAnnounce)] == [c.(b := BAnnounce)];
  }

  lemma Announced(cfg: Registration, c: Conn)
    requires c.b.BAnnounce? && c.toAgent == []
    ensures Next(Lone(cfg, c), Broker(0, true)) == Lone(cfg, c.(b := BServe, toAgent := [Registered]))
  {
    var c' := c.(b := BServe, toAgent := [Registered]);
    assert [] + [Registered] == [Registered] && [c][0 := c'] == [c'];
  }

  lemma Welcomed(cfg: Registration, c: Conn)
    requires c.a.AAwait? && c.toAgent == [Registered]
    ensures Next(Lone(cfg, c), Agent(0, true, 0)) == Lone(cfg, c.(a := AServe, toAgent := []))
  {
    var c' := c.(a := AServe, toAgent := []);
    assert [Registered][1..] == [] && [c][0 := c'] == [c'];
  }

  lemma Visited(cfg: Registration, c: Conn)
    ensures Next(Lone(cfg, c), Visit(cfg.device)) == One(cfg, c, NewSess(0), false)
  {
    assert [] + [NewSess(0)] == [NewSess(0)];
  }

  lemma Attaches(cfg: Registration) returns (acts: seq<Action>)
    requires cfg.device != ""
    ensures Run(acts) == Some(Lone(cfg, R.Joining(cfg, BAnnounce, AAwait, [])))
  {
    acts := R.DialsAndRegisters([], cfg);
    R.Extend(acts, Broker(0, true));
    acts := acts + [Broker(0, true)];
    Placed(cfg);
    R.Extend(acts, Broker(0, true));
    acts := acts + [Broker(0, true)];
    Added(cfg, R.Joining(cfg, BAdd, AAwait, []));
  }

  lemma Registers(cfg: Registration) returns (acts: seq<Action>)
    requires cfg.device != ""
    ensures Run(acts) == Some(One(cfg, R.Joining(cfg, BServe, AServe, []), NewSess(0), false))
  {
    var c := R.Joining(cfg, BAnnounce, AAwait, []);
    acts := Attaches(cfg);
    R.Extend(acts, Broker(0, true));
    acts := acts + [Broker(0, true)];
    Announced(cfg, c);
    R.Extend(acts, Agent(0, true, 0));
    acts := acts + [Agent(0, true, 0)];
    Welcomed(cfg, c.(b := BServe, toAgent := [Registered]));
    R.Extend(acts, Visit(cfg.device));
    acts := acts + [Visit(cfg.device)];
    Visited(cfg, c.(b := BServe, a := AServe));
  }

  lemma Opens(cfg: Registration, acts: seq<Action>, c: Conn) returns (more: seq<Action>)
    requires Run(acts) == Some(One(cfg, c, NewSess(0), false)) && c.toAgent == []
    ensures Run(more) == Some(One(cfg, c.(toAgent := [Open(0)]), ASKED, true))
  {
    var x := NewSess(0);
    more := Handles(cfg, acts, c, x, false);
    more := Handles(cfg, more, c, x.(h := HInsert, upgraded := true), false);
    more := Handles(cfg, more, c, x.(h := HOpen, upgraded := true), true);
    SaysOpen(c, x.(h := HOpen, upgraded := true));
  }

  lemma Starts(cfg: Registration, acts: seq<Action>, c: Conn, x: Sess) returns (more: seq<Action>)
    requires Run(acts) == Some(One(cfg, c, x, true)) && c.toAgent == [Open(0)] && c.a.AServe?
    requires c.shells == map[] && x.shells == []
    ensures Run(more) == Some(One(cfg, c.(toAgent := [], shells := map[0 := 0]), With(x, RUNNING), true))
  {
    var c1 := c.(a := AGot(Open(0)), toAgent := []);
    assert c.toAgent[1..] == [];
    more := AgentReads(cfg, acts, c, x);
    more := AgentWorks(cfg, more, c1, x, 0);
    StartsShell(c1, x);
    more := AgentWorks(cfg, more, c1.(a := AStarted(0, 0)), With(x, NEW_SHELL), 0);
    ListsShell(c1.(a := AStarted(0, 0)), With(x, NEW_SHELL));
  }

  /** The handler waits for the browser. */
  predicate Waiting(x: Sess) { x.owner == 0 && x.h.HRead? && x.browser.inbox == [] && !x.browser.closed }

  /** The browser has sent `d` and the handler has forwarded it. */
  function Typed(x: Sess, d: Bytes): Sess {
    x.(typedOn := x.typedOn + d, browser := x.browser.(typed := x.browser.typed + d, taken := x.browser.taken + d))
  }

  lemma Sends(cfg: Registration, acts: seq<Action>, c: Conn, x: Sess, f: Frame) returns (more: seq<Action>)
    requires Run(acts) == Some(One(cfg, c, x, true)) && Waiting(x)
    ensures Run(more) == Some(One(cfg, c, x.(browser := x.browser.(inbox := [f], typed := x.browser.typed + FrameBytes(f))), true))
  {
    R.Extend(acts, Type(0, f));
    more := acts + [Type(0, f)];
    assert [] + [f] == [f];
    assert Next(One(cfg, c, x, true), Type(0, f)).sess == [Typing(x, f)];
  }

  /** A frame with data is forwarded. */
  lemma Types(cfg: Registration, acts: seq<Action>, c: Conn, x: Sess, d: Bytes) returns (more: seq<Action>)
    requires Run(acts) == Some(One(cfg, c, x, true)) && Waiting(x) && c.toAgent == []
    ensures Run(more) == Some(One(cfg, c.(toAgent := [Input(0, d)]), Typed(x, d), true))
  {
    var x1 := x.(browser := x.browser.(inbox := [Data(d)], typed := x.browser.typed + d));
    var x2 := x.(browser := x.browser.(typed := x.browser.typed + d, taken := x.browser.taken + d), h := HForward(d));
    more := Sends(cfg, acts, c, x, Data(d));
    more := Handles(cfg, more, c, x1, true);
    assert [Data(d)][1..] == [] && HandlerDo(x1, c.down, true, true) == x2;
    more := Handles(cfg, more, c, x2, true);
    assert [] + [Input(0, d)] == [Input(0, d)];
  }

  /** A frame that is neither text nor binary is skipped. */
  lemma Skips(cfg: Registration, acts: seq<Action>, c: Conn, x: Sess) returns (more: seq<Action>)
    requires Run(acts) == Some(One(cfg, c, x, true)) && Waiting(x)
    ensures Run(more) == Some(One(cfg, c, x, true))
  {
    var x1 := x.(browser := x.browser.(inbox := [Other]));
    assert x.browser.typed + [] == x.browser.typed && x.browser.taken + [] == x.browser.taken;
    more := Sends(cfg, acts, c, x, Other);
    more := Handles(cfg, more, c, x1, true);
    assert [Other][1..] == [] && HandlerDo(x1, c.down, true, true) == x;
  }

  lemma Feeds(cfg: Registration, acts: seq<Action>, c: Conn, x: Sess, sh: Shell, d: Bytes) returns (more: seq<Action>)
    requires x.shells == [sh] && !sh.jammed && sh.closes == 0
    requires c.a.AServe? && c.toAgent == [Input(0, d)] && c.shells == map[0 := 0]
    requires Run(acts) == Some(One(cfg, c, x, true))
    ensures Run(more) == Some(One(cfg, c.(toAgent := []), With(x, Given(sh, d)), true))
  {
    var c1 := c.(a := AGot(Input(0, d)), toAgent := []);
    assert c.toAgent[1..] == [];
    more := AgentReads(cfg, acts, c, x);
    more := AgentWorks(cfg, more, c1, x, 0);
    FindsShell(c1, x, d);
    FeedsShell(c1.(a := AFeed(0, 0, d)), x, sh, d);
    more := AgentWorks(cfg, more, c1.(a := AFeed(0, 0, d)), x, |d|);
  }

  lemma TypedLater(x: Sess, sh: Shell, d: Bytes, rest: Bytes)
    ensures Typed(Typed(x, d), rest) == Typed(x, d + rest) && Typed(x, []) == x
    ensures Given(Given(sh, d), rest) == Given(sh, d + rest) && Given(sh, []) == sh
  {
    assert (x.typedOn + d) + rest == x.typedOn + (d + rest) && x.typedOn + [] == x.typedOn;
    assert (x.browser.typed + d) + rest == x.browser.typed + (d + rest) && x.browser.typed + [] == x.browser.typed;
    assert (x.browser.taken + d) + rest == x.browser.taken + (d + rest) && x.browser.taken + [] == x.browser.taken;
    assert (sh.fed + d) + rest == sh.fed + (d + rest) && sh.fed + [] == sh.fed;
  }

  /** Whatever frames the browser sends, the shell is fed their bytes. */
  lemma {:induction false} FeedsAll(
    cfg: Registration, acts: seq<Action>, c: Conn, x: Sess, sh: Shell, frames: seq<Frame>) returns (more: seq<Action>)
    requires Waiting(x) && x.shells == [sh] && !sh.jammed && sh.closes == 0
    requires c.a.AServe? && c.toAgent == [] && c.shells == map[0 := 0]
    requires Run(acts) == Some(One(cfg, c, x, true))
    ensures Run(more) == Some(One(cfg, c, With(Typed(x, InboxBytes(frames)), Given(sh, InboxBytes(frames))), true))
    decreases |frames|
  {
    if frames == [] {
      TypedLater(x, sh, [], []);
      more := acts;
    } else {
      var d, rest := FrameBytes(frames[0]), InboxBytes(frames[1..]);
      TypedLater(x, sh, d, rest);
      TypedLater(x, sh, [], []);
      if frames[0].Other? {
        assert [] + rest == rest;
        more := Skips(cfg, acts, c, x);
        more := FeedsAll(cfg, more, c, x, sh, frames[1..]);
      } else {
        more := Types(cfg, acts, c, x, d);
        more := Feeds(cfg, more, c.(toAgent := [Input(0, d)]), Typed(x, d), sh, d);
        more := FeedsAll(cfg, more, c, With(Typed(x, d), Given(sh, d)), Given(sh, d), frames[1..]);
      }
    }
  }

  lemma Prints(cfg: Registration, acts: seq<Action>, c: Conn, x: Sess, sh: Shell, e: Bytes) returns (more: seq<Action>)
    requires x.shells == [sh] && sh == RUNNING.(fed := sh.fed)
    requires Run(acts) == Some(One(cfg, c, x, true))
    ensures Run(more) == Some(One(cfg, c, With(x, sh.(unread := e, produced := e)), true))
  {
    R.Extend(acts, Produce(0, 0, e));
    more := acts + [Produce(0, 0, e)];
    PrintsText(x, sh, e);
    assert Next(One(cfg, c, x, true), Produce(0, 0, e)).sess == [With(x, sh.(unread := e, produced := e))];
  }

  lemma Shows(cfg: Registration, acts: seq<Action>, c: Conn, x: Sess, d: Bytes) returns (more: seq<Action>)
    requires !x.browser.broken && c.b.BServe? && c.toBroker == [Output(0, d)]
    requires Run(acts) == Some(One(cfg, c, x, true))
    ensures Run(more) == Some(One(cfg, c.(toBroker := []), Seeing(x, d), true))
  {
    var c1 := c.(b := BGot(Output(0, d)), toBroker := []);
    assert c.toBroker[1..] == [];
    more := BrokerReads(cfg, acts, c, x);
    more := BrokerWorks(cfg, more, c1, x);
    ShowsText(c1.(b := BDeliver(0, d)), x, d);
    more := BrokerWorks(cfg, more, c1.(b := BDeliver(0, d)), x);
  }

  /** One buffer of output goes from the shell to the browser. */
  lemma ShowsChunk(cfg: Registration, acts: seq<Action>, c: Conn, x: Sess, sh: Shell, n: nat) returns (more: seq<Action>)
    requires x.owner == 0 && !x.browser.broken && c.b.BServe? && c.toBroker == []
    requires sh.pump.PRead? && 0 < n <= |sh.unread| && n <= BUFFER_SIZE
    requires Run(acts) == Some(One(cfg, c, With(x, sh), true))
    ensures Run(more) == Some(One(cfg, c, With(Seeing(x, sh.unread[..n]), Sending(Reading(sh, n), sh.unread[..n])), true))
  {
    var d := sh.unread[..n];
    ReadsText(c, With(x, sh), sh, n);
    more := Pumps(cfg, acts, c, With(x, sh), n);
    SendsText(c, With(x, Reading(sh, n)), Reading(sh, n), d);
    more := Pumps(cfg, more, c, With(x, Reading(sh, n)), 0);
    more := Shows(cfg, more, c.(toBroker := [Output(0, d)]), With(x, Sending(Reading(sh, n), d)), d);
  }

  /** The shell after all its output was sent. */
  function Drained(sh: Shell): Shell {
    sh.(unread := [], read := sh.read + sh.unread, sent := sh.sent + sh.unread)
  }

  lemma DrainedLater(sh: Shell, n: nat)
    requires sh.pump.PRead? && n <= |sh.unread|
    ensures Drained(Sending(Reading(sh, n), sh.unread[..n])) == Drained(sh)
  {
    assert sh.unread == sh.unread[..n] + sh.unread[n..];
    assert (sh.read + sh.unread[..n]) + sh.unread[n..] == sh.read + sh.unread;
    assert (sh.sent + sh.unread[..n]) + sh.unread[n..] == sh.sent + sh.unread;
  }

  lemma SeenLater(x: Sess, d: Bytes, rest: Bytes)
    ensures Seeing(Seeing(x, d), rest) == Seeing(x, d + rest) && Seeing(x, []) == x
  {
    assert (x.browser.shown + d) + rest == x.browser.shown + (d + rest);
    assert x.browser.shown + [] == x.browser.shown;
  }

  /** A session that has been shown the first `n` bytes is shown the rest next. */
  lemma ShownLater(x: Sess, sh: Shell, n: nat)
    requires sh.pump.PRead? && n <= |sh.unread|
    ensures var y, next := Seeing(x, sh.unread[..n]), Sending(Reading(sh, n), sh.unread[..n]);
            && y.owner == x.owner && y.browser.broken == x.browser.broken
            && next.pump.PRead? && |next.unread| == |sh.unread| - n
            && With(Seeing(y, next.unread), Drained(next)) == With(Seeing(x, sh.unread), Drained(sh))
  {
    assert sh.unread == sh.unread[..n] + sh.unread[n..];
    SeenLater(x, sh.unread[..n], sh.unread[n..]);
    DrainedLater(sh, n);
  }

  lemma NothingLater(x: Sess, sh: Shell)
    requires sh.unread == []
    ensures With(Seeing(x, sh.unread), Drained(sh)) == With(x, sh)
  {
    SeenLater(x, [], []);
    assert sh.read + [] == sh.read && sh.sent + [] == sh.sent;
  }

  /** All of it does, buffer by buffer. */
  lemma {:induction false} ShowsAll(cfg: Registration, acts: seq<Action>, c: Conn, x: Sess, sh: Shell) returns (more: seq<Action>)
    requires x.owner == 0 && !x.browser.broken && c.b.BServe? && c.toBroker == [] && sh.pump.PRead?
    requires Run(acts) == Some(One(cfg, c, With(x, sh), true))
    ensures Run(more) == Some(One(cfg, c, With(Seeing(x, sh.unread), Drained(sh)), true))
    decreases |sh.unread|
  {
    if sh.unread == [] {
      NothingLater(x, sh);
      more := acts;
    } else {
      var n := if |sh.unread| < BUFFER_SIZE then |sh.unread| else BUFFER_SIZE;
      var y, next := Seeing(x, sh.unread[..n]), Sending(Reading(sh, n), sh.unread[..n]);
      more := ShowsChunk(cfg, acts, c, x, sh, n);
      ShownLater(x, sh, n);
      more := ShowsAll(cfg, more, c, y, next);
    }
  }

  /** A device registers, a browser connects and sends `frames`, and their bytes reach the shell. */
  lemma KeystrokesArrive(cfg: Registration, frames: seq<Frame>) returns (acts: seq<Action>)
    requires cfg.device != ""
    ensures Run(acts) == Some(One(cfg, R.Joining(cfg, BServe, AServe, []).(shells := map[0 := 0]),
                                  With(Typed(ASKED, InboxBytes(frames)), Given(RUNNING, InboxBytes(frames))), true))
  {
    var c := R.Joining(cfg, BServe, AServe, []);
    acts := Registers(cfg);
    acts := Opens(cfg, acts, c);
    acts := Starts(cfg, acts, c.(toAgent := [Open(0)]), ASKED);
    acts := FeedsAll(cfg, acts, c.(shells := map[0 := 0]), With(ASKED, RUNNING), RUNNING, frames);
  }

  /** Then the shell prints `e`, however long, and the browser is shown it. */
  lemma KeystrokesAndOutputArrive(cfg: Registration, frames: seq<Frame>, e: Bytes) returns (acts: seq<Action>)
    requires cfg.device != ""
    ensures Run(acts).Some? && |Run(acts).value.sess| == 1 && |Run(acts).value.sess[0].shells| == 1
    ensures var x := Run(acts).value.sess[0];
            && x.browser.typed == InboxBytes(frames) && x.shells[0].fed == InboxBytes(frames)
            && x.shells[0].produced == e && x.browser.shown == e
  {
    var d := InboxBytes(frames);
    var c, sh := R.Joining(cfg, BServe, AServe, []).(shells := map[0 := 0]), Given(RUNNING, d);
    acts := KeystrokesArrive(cfg, frames);
    assert [] + d == d && [] + e == e;
    acts := Prints(cfg, acts, c, With(Typed(ASKED, d), sh), sh, e);
    acts := ShowsAll(cfg, acts, c, Typed(ASKED, d), sh.(unread := e, produced := e));
  }
}
