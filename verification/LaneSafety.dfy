/** What one session keeps, whatever the order of its steps. */
module LaneSafety {
  import opened Protocol
  import opened Threads
  import opened Lane

  function N(b: bool): nat { if b then 1 else 0 }

  // ----- who holds a shell, and which `close` frames are still to come -----

  /** `open` has been put on the channel and the agent has not acted on it. */
  predicate OpenAhead(l: Lane) {
    (|l.toAgent| > 0 && l.toAgent[0].Open?) || (l.a.AGot? && l.a.m.Open?)
  }

  predicate CloseAhead(l: Lane) {
    (|l.toAgent| > 0 && l.toAgent[|l.toAgent| - 1].Close?) || (l.a.AGot? && l.a.m.Close?)
  }

  /** The agent's loop has welcomed the broker and has not begun to leave. */
  predicate Serving(a: AgentPc) {
    !a.ARegister? && !a.AAwait? && !a.AStop? && !a.ALeft?
  }

  /** Places that hold the session's shell open. */
  function Held(l: Lane): nat {
    N(l.a.AStarted?) + N(l.table.Some?) + N(l.a.AStop? && l.id in l.a.todo)
  }

  /** Threads that have taken the shell out of the table to close it. */
  function Claimed(l: Lane): nat {
    N(l.a.AKill?) + N(l.x.shells != [] && l.x.shells[0].pump.PKill?)
  }

  /** Threads that will send a `close` to the broker. */
  function EndsToCome(l: Lane): nat {
    N(l.a.AKill? || l.a.ARefuse? || l.a.ABye?)
    + N(l.x.shells != [] && (l.x.shells[0].pump.PKill? || l.x.shells[0].pump.PBye?))
  }

  /** `close` frames on their way to the broker's session table. */
  function EndsInFlight(l: Lane): nat {
    Closes(l.toBroker) + N(l.b.BGot? && l.b.m.Close?)
  }

  // ----- the invariant -----

  predicate Indexes(l: Lane) {
    && |l.x.shells| <= 1
    && (l.table.Some? ==> l.table.value == 0 < |l.x.shells|)
    && (l.a.AStarted? ==> l.a.session == l.id && l.a.shell == 0 < |l.x.shells|)
    && (l.a.AFeed? ==> l.a.session == l.id && l.a.shell == 0 < |l.x.shells|)
    && (l.a.AKill? ==> l.a.session == l.id && l.a.shell == 0 < |l.x.shells|)
    && (l.a.ARefuse? ==> l.a.session == l.id)
    && (l.a.ABye? ==> l.a.session == l.id)
    && (l.a.AGot? ==> Names(l.a.m, l.id) && !l.a.m.Output?)
    && (l.a.AStop? ==> l.a.todo.Keys <= {l.id} && (l.id in l.a.todo ==> l.a.todo[l.id] == 0 < |l.x.shells|))
    && !l.a.ARegister?
    && (l.x.shells != [] && l.x.shells[0].pump.PKill? ==> l.x.shells[0].pump.victim == 0)
    && (l.b.BServe? || l.b.BGot? || l.b.BDeliver? || l.b.BHangup? || l.b.BDone?)
    && (l.b.BGot? ==> Names(l.b.m, l.id) && (l.b.m.Output? || l.b.m.Close?))
    && (l.b.BDeliver? ==> l.b.session == l.id)
    && (l.b.BHangup? ==> l.b.session == l.id)
  }

  predicate Channels(l: Lane) {
    && (forall i | 0 <= i < |l.toAgent| ::
          Names(l.toAgent[i], l.id) && !l.toAgent[i].Output?
          && (l.toAgent[i].Open? ==> i == 0) && (l.toAgent[i].Close? ==> i == |l.toAgent| - 1))
    && (forall i | 0 <= i < |l.toBroker| ::
          Names(l.toBroker[i], l.id) && (l.toBroker[i].Output? || l.toBroker[i].Close?))
    && (l.a.AGot? && l.a.m.Open? ==> |l.toAgent| > 0 ==> !l.toAgent[0].Open?)
    && (l.a.AGot? && l.a.m.Close? ==> l.toAgent == [])
  }

  /** Before `open` is on the channel nothing on the agent's side knows the session. */
  predicate Fresh(l: Lane) {
    && (l.x.h.HUpgrade? || l.x.h.HInsert? || l.x.h.HOpen? ==> !l.x.asked)
    && (l.x.h.HRead? || l.x.h.HForward? || l.x.h.HBye? ==> l.x.asked)
    && (!l.x.asked ==>
          && l.toAgent == [] && l.toBroker == [] && l.x.shells == []
          && l.x.ends == 0 && l.x.typedOn == []
          && AgentSubject(l.a).None? && BrokerSubject(l.b).None?)
    && (OpenAhead(l) ==> l.x.asked && l.x.shells == [] && l.x.ends == 0)
    && (|l.toAgent| > 0 && l.toAgent[0].Open? ==> AgentSubject(l.a).None?)
    && (l.a.AAwait? ==> l.x.shells == [] && l.x.ends == 0 && (l.x.asked ==> OpenAhead(l)))
    && (l.x.shells == [] && l.x.ends == 0 && !l.a.ARefuse? && Serving(l.a) && l.x.asked && !l.down ==> OpenAhead(l))
  }

  /** Each shell is held open by one place, or claimed by one thread, or closed once. */
  predicate Ownership(l: Lane) {
    && (l.x.shells != [] ==> Held(l) + Claimed(l) + l.x.shells[0].closes == 1)
    && (l.x.shells != [] ==> (l.x.shells[0].pump.PIdle? <==> l.a.AStarted?))
    && (l.a.AStop? || l.a.ALeft? ==> l.table.None?)
  }

  /** A session is opened once, and one `close` at most comes back for it. */
  predicate EndOnce(l: Lane) {
    && Held(l) + EndsToCome(l) + l.x.ends <= 1
    && (OpenAhead(l) ==> EndsToCome(l) == 0)
    && (!l.down && l.x.asked && !OpenAhead(l) && Serving(l.a) ==> Held(l) + EndsToCome(l) + l.x.ends == 1)
    && EndsInFlight(l) <= l.x.ends
  }

  predicate ByeOnce(l: Lane) {
    && l.x.byes <= 1
    && (l.x.byes == 1 ==> l.x.h.HDrop? || l.x.h.HHangup? || l.x.h.HDone?)
    && (CloseAhead(l) ==> l.x.byes == 1)
    && (l.x.byes == 1 && !CloseAhead(l) ==>
          l.toAgent == [] && l.table.None? && !l.a.AStarted? && !l.a.AGot? && !l.a.AFeed?)
    && (l.x.asked && (l.x.h.HDrop? || l.x.h.HHangup? || l.x.h.HDone?) && !l.down ==> l.x.byes == 1)
  }

  predicate Listing(l: Lane) {
    && (l.x.h.HUpgrade? || l.x.h.HInsert? || l.x.h.HHangup? || l.x.h.HDone? ==> !l.listed)
    && (l.x.h.HOpen? ==> l.listed)
    && (l.x.h.HRead? || l.x.h.HForward? || l.x.h.HBye? || l.x.h.HDrop? ==>
          (l.listed <==> EndsInFlight(l) == l.x.ends))
    && (l.x.h.HDrop? && !l.x.asked ==> l.down)
    && (l.b.BDone? ==> l.down)
  }

  predicate Control(l: Lane) {
    Indexes(l) && Channels(l) && Fresh(l) && Ownership(l) && EndOnce(l) && ByeOnce(l) && Listing(l)
  }

  // ----- keystrokes -----

  function Fed(l: Lane): Bytes { if l.x.shells == [] then [] else l.x.shells[0].fed }

  /** Keystrokes between the broker's handler and the shell. */
  function KeysInFlight(l: Lane): Bytes {
    (if l.a.AGot? && l.a.m.Input? then l.a.m.data else if l.a.AFeed? then l.a.data else []) + Keys(l.toAgent)
  }

  predicate Taking(x: Sess) {
    && x.browser.taken + InboxBytes(x.browser.inbox) == x.browser.typed
    && x.typedOn <= x.browser.taken
    && (x.h.HUpgrade? || x.h.HInsert? || x.h.HOpen? ==> x.browser.taken == [])
    && (x.h.HRead? ==> x.typedOn == x.browser.taken)
    && (x.h.HForward? ==> x.typedOn + x.h.data == x.browser.taken)
  }

  predicate Feeding(l: Lane) {
    && Fed(l) <= l.x.typedOn
    && (OpenAhead(l) || !l.x.asked ==> KeysInFlight(l) == l.x.typedOn)
    && ((l.table.Some? || l.a.AStarted? || l.a.AFeed?) && l.x.shells != [] && !l.x.shells[0].jammed ==>
          Fed(l) + KeysInFlight(l) == l.x.typedOn)
  }

  // ----- shell output -----

  function Sent(l: Lane): Bytes { if l.x.shells == [] then [] else l.x.shells[0].sent }

  /** Output between the shell goroutine and the browser. */
  function ScreenInFlight(l: Lane): Bytes {
    (if l.b.BGot? && l.b.m.Output? then l.b.m.data else if l.b.BDeliver? then l.b.data else []) + Screen(l.toBroker)
  }

  predicate Printing(x: Sess) {
    x.shells != [] ==>
      var sh := x.shells[0];
      && sh.read + sh.unread == sh.produced
      && sh.sent <= sh.read
      && (sh.pump.PIdle? || sh.pump.PRead? ==> sh.sent == sh.read)
      && (sh.pump.PSend? ==> sh.sent + sh.pump.chunk == sh.read)
  }

  predicate Showing(l: Lane) {
    && l.x.browser.shown <= Sent(l)
    && (!l.x.asked ==> l.x.browser.shown == [])
    && ((l.listed || l.b.BDeliver?) && !l.x.browser.broken ==>
          l.x.browser.shown + ScreenInFlight(l) == Sent(l))
  }

  predicate Streams(l: Lane) {
    Taking(l.x) && Feeding(l) && Printing(l.x) && Showing(l)
  }

  predicate LaneInv(l: Lane) {
    Control(l) && Streams(l)
  }
}
