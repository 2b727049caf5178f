/** The byte streams of a session under every move: nothing is reordered, duplicated or invented. */
module LaneStreams {
  import opened Protocol
  import opened Threads
  import opened Lane
  import opened LaneSafety
  import opened LaneControl

  lemma PostedBytes(q: seq<Msg>, m: Option<Msg>)
    ensures Keys(Post(q, m)) == Keys(q) + if m.Some? && m.value.Input? then m.value.data else []
    ensures Screen(Post(q, m)) == Screen(q) + if m.Some? && m.value.Output? then m.value.data else []
  {
    if m.Some? { AppendMeasures(q, m.value); }
  }

  /** Bytes that arrive at the far end of a pipeline lengthen the whole. */
  lemma Longer(a: Bytes, p: Bytes, q: Bytes, d: Bytes, whole: Bytes)
    requires a + (p + q) == whole
    ensures a + (p + (q + d)) == whole + d
  {
    assert a + (p + (q + d)) == a + (p + q) + d;
  }

  /** The first `n` bytes of `d` leave the pipeline at its near end. */
  lemma Shorter(a: Bytes, d: Bytes, n: nat, rest: Bytes, whole: Bytes)
    requires n <= |d| && a + (d + rest) == whole
    ensures a + d[..n] <= whole
    ensures (a + d) + rest == whole
  {
    assert a + (d + rest) == (a + d[..n]) + (d[n..] + rest);
  }

  lemma HandlerTakes(x: Sess, down: bool, present: bool)
    requires Taking(x) && HandlerCan(x, down, true) && x.h.HRead?
    ensures Taking(HandlerDo(x, down, present, true))
  {
    var f := x.browser.inbox[0];
    Shorter(x.browser.taken, FrameBytes(f), |FrameBytes(f)|, InboxBytes(x.browser.inbox[1..]), x.browser.typed);
  }

  lemma HandlerTakesNothing(x: Sess, down: bool, present: bool, ok: bool)
    requires Taking(x) && HandlerCan(x, down, ok) && !(x.h.HRead? && ok)
    ensures Taking(HandlerDo(x, down, present, ok))
  {
  }

  lemma HandlerTaking(x: Sess, down: bool, present: bool, ok: bool)
    requires Taking(x) && HandlerCan(x, down, ok)
    ensures Taking(HandlerDo(x, down, present, ok))
  {
    if x.h.HRead? && ok { HandlerTakes(x, down, present); } else { HandlerTakesNothing(x, down, present, ok); }
  }

  /** Feeding depends on the agent's end of the pipeline only. */
  lemma SameFeeding(l: Lane, l': Lane)
    requires Feeding(l)
    requires l'.a == l.a && l'.toAgent == l.toAgent && l'.x.asked == l.x.asked && l'.x.typedOn == l.x.typedOn
    requires l'.table == l.table || l'.table.None?
    requires Fed(l') == Fed(l) && (l'.x.shells != [] ==> l.x.shells != [] && l'.x.shells[0].jammed == l.x.shells[0].jammed)
    ensures Feeding(l')
  {
  }

  lemma HandlerSilent(l: Lane, ok: bool)
    requires Feeding(l) && Can(l, MHandler(ok)) && HandlerSays(l.x, l.id, ok).None?
    ensures Feeding(Do(l, MHandler(ok)))
  {
    SameFeeding(l, Do(l, MHandler(ok)));
  }

  lemma HandlerFeeding(l: Lane)
    requires Fresh(l) && Feeding(l) && Can(l, MHandler(true)) && (l.x.h.HOpen? || l.x.h.HBye?)
    ensures Feeding(Do(l, MHandler(true)))
  {
    PostedBytes(l.toAgent, HandlerSays(l.x, l.id, true));
  }

  lemma HandlerForwards(l: Lane)
    requires Fresh(l) && Feeding(l) && Can(l, MHandler(true)) && l.x.h.HForward?
    ensures Feeding(Do(l, MHandler(true)))
  {
    var p := if l.a.AGot? && l.a.m.Input? then l.a.m.data else if l.a.AFeed? then l.a.data else [];
    var q, d := Keys(l.toAgent), l.x.h.data;
    AppendMeasures(l.toAgent, Input(l.id, d));
    if p + q == l.x.typedOn { Longer([], p, q, d, l.x.typedOn); }
    if Fed(l) + (p + q) == l.x.typedOn { Longer(Fed(l), p, q, d, l.x.typedOn); }
  }

  lemma HandlerShowing(l: Lane, ok: bool)
    requires Fresh(l) && Listing(l) && Showing(l) && Can(l, MHandler(ok))
    ensures Showing(Do(l, MHandler(ok)))
  {
  }

  lemma HandlerPrinting(x: Sess, down: bool, present: bool, ok: bool)
    requires HandlerCan(x, down, ok)
    ensures HandlerDo(x, down, present, ok).shells == x.shells
  {
  }

  lemma PumpTaking(x: Sess, i: nat, down: bool, ok: bool, n: nat, t: Option<nat>)
    requires Taking(x) && PumpCan(x, i, down, ok, n)
    ensures Taking(PumpDo(x, i, down, ok, n, t))
  {
  }

  lemma PumpFeedsNothing(x: Sess, i: nat, down: bool, ok: bool, n: nat, t: Option<nat>)
    requires |x.shells| <= 1 && PumpCan(x, i, down, ok, n)
    requires x.shells[0].pump.PKill? ==> x.shells[0].pump.victim == 0
    ensures var y := PumpDo(x, i, down, ok, n, t);
            && y.asked == x.asked && y.typedOn == x.typedOn && |y.shells| == 1
            && y.shells[0].fed == x.shells[0].fed && y.shells[0].jammed == x.shells[0].jammed
  {
  }

  lemma PumpFeeding(l: Lane, i: nat, ok: bool, n: nat)
    requires Indexes(l) && Feeding(l) && Can(l, MPump(i, ok, n))
    ensures Feeding(Do(l, MPump(i, ok, n)))
  {
    PumpFeedsNothing(l.x, i, l.down, ok, n, l.table);
    SameFeeding(l, Do(l, MPump(i, ok, n)));
  }

  lemma Moved(read: Bytes, unread: Bytes, n: nat)
    requires n <= |unread|
    ensures (read + unread[..n]) + unread[n..] == read + unread
  {
  }

  lemma PumpReads(x: Sess, i: nat, down: bool, ok: bool, n: nat, t: Option<nat>)
    requires |x.shells| <= 1 && Printing(x) && PumpCan(x, i, down, ok, n) && x.shells[i].pump.PRead?
    ensures Printing(PumpDo(x, i, down, ok, n, t))
  {
    Moved(x.shells[0].read, x.shells[0].unread, n);
  }

  lemma PumpPrinting(x: Sess, i: nat, down: bool, ok: bool, n: nat, t: Option<nat>)
    requires |x.shells| <= 1 && Printing(x) && PumpCan(x, i, down, ok, n) && !x.shells[i].pump.PRead?
    requires x.shells[0].pump.PKill? ==> x.shells[0].pump.victim == 0
    ensures Printing(PumpDo(x, i, down, ok, n, t))
  {
  }

  lemma PumpShowing(l: Lane, i: nat, ok: bool, n: nat)
    requires Indexes(l) && Fresh(l) && Showing(l) && Can(l, MPump(i, ok, n)) && PumpSays(l.x, l.id, i, ok).None?
    ensures Showing(Do(l, MPump(i, ok, n)))
  {
  }

  lemma PumpEnds(l: Lane, i: nat, n: nat)
    requires Indexes(l) && Fresh(l) && Showing(l) && Can(l, MPump(i, true, n)) && l.x.shells[i].pump.PBye?
    ensures Showing(Do(l, MPump(i, true, n)))
  {
    AppendMeasures(l.toBroker, Close(l.id));
  }

  lemma PumpSends(l: Lane, i: nat, n: nat)
    requires Indexes(l) && Fresh(l) && Showing(l) && Can(l, MPump(i, true, n)) && l.x.shells[i].pump.PSend?
    ensures Showing(Do(l, MPump(i, true, n)))
  {
    var d := l.x.shells[i].pump.chunk;
    var p := if l.b.BGot? && l.b.m.Output? then l.b.m.data else if l.b.BDeliver? then l.b.data else [];
    AppendMeasures(l.toBroker, Output(l.id, d));
    if l.x.browser.shown + (p + Screen(l.toBroker)) == Sent(l) {
      Longer(l.x.browser.shown, p, Screen(l.toBroker), d, Sent(l));
    }
  }

  lemma AgentTaking(x: Sess, a: AgentPc, down: bool, ok: bool, n: nat)
    requires Taking(x) && AgentCan(x, a, down, ok, n)
    ensures Taking(AgentDo(x, a, down, ok, n))
  {
  }

  lemma AgentReceives(l: Lane, ok: bool, n: nat)
    requires Indexes(l) && Channels(l) && Fresh(l) && Feeding(l)
    requires Can(l, MAgent(ok, n)) && (l.a.AServe? || l.a.AStop?)
    ensures Feeding(Do(l, MAgent(ok, n)))
  {
  }

  lemma AgentFeeding(l: Lane, ok: bool, n: nat)
    requires Indexes(l) && Channels(l) && Fresh(l) && Feeding(l)
    requires Can(l, MAgent(ok, n)) && !l.a.AFeed? && !l.a.AServe? && !l.a.AStop?
    ensures Feeding(Do(l, MAgent(ok, n)))
  {
  }

  /** The shell takes `n` of the bytes, and the rest is lost with it. */
  lemma Fills(l: Lane, l': Lane, n: nat)
    requires Fresh(l) && Feeding(l) && l.a.AFeed? && n <= |l.a.data| && l.x.shells != [] && !l.x.shells[0].jammed
    requires l' == l.(a := AServe, x := l'.x) && l'.x == l.x.(shells := l'.x.shells) && l'.x.shells != []
    requires Fed(l') == Fed(l) + l.a.data[..n] && l'.x.shells[0].jammed == (n < |l.a.data|)
    ensures Feeding(l')
  {
    Shorter(Fed(l), l.a.data, n, Keys(l.toAgent), l.x.typedOn);
    assert l.a.data[..|l.a.data|] == l.a.data;
  }

  lemma AgentFeeds(l: Lane, ok: bool, n: nat)
    requires Indexes(l) && Fresh(l) && Feeding(l) && Can(l, MAgent(ok, n)) && l.a.AFeed? && !l.x.shells[0].jammed
    ensures Feeding(Do(l, MAgent(ok, n)))
  {
    Fills(l, Do(l, MAgent(ok, n)), n);
  }

  lemma AgentDiscards(l: Lane, ok: bool, n: nat)
    requires Indexes(l) && Fresh(l) && Feeding(l) && Can(l, MAgent(ok, n)) && l.a.AFeed? && l.x.shells[0].jammed
    ensures Feeding(Do(l, MAgent(ok, n)))
  {
  }

  lemma AgentPrinting(l: Lane, ok: bool, n: nat)
    requires Indexes(l) && Ownership(l) && Printing(l.x) && Can(l, MAgent(ok, n))
    ensures Printing(Do(l, MAgent(ok, n)).x)
  {
  }

  /** Showing depends on the broker's end of the pipeline only. */
  lemma SameShowing(l: Lane, l': Lane)
    requires Showing(l)
    requires l'.listed == l.listed && l'.b == l.b && l'.x.asked == l.x.asked
    requires Screen(l'.toBroker) == Screen(l.toBroker)
    requires l'.x.browser.shown == l.x.browser.shown && l'.x.browser.broken == l.x.browser.broken && Sent(l') == Sent(l)
    ensures Showing(l')
  {
  }

  lemma AgentKeepsSent(l: Lane, ok: bool, n: nat)
    requires Indexes(l) && Fresh(l) && Can(l, MAgent(ok, n)) && AgentSays(l.a, ok).None?
    ensures Sent(Do(l, MAgent(ok, n))) == Sent(l)
  {
  }

  lemma AgentShowing(l: Lane, ok: bool, n: nat)
    requires Indexes(l) && Fresh(l) && Showing(l) && Can(l, MAgent(ok, n)) && AgentSays(l.a, ok).None?
    ensures Showing(Do(l, MAgent(ok, n)))
  {
    AgentKeepsSent(l, ok, n);
    SameShowing(l, Do(l, MAgent(ok, n)));
  }

  lemma AgentEnds(l: Lane, n: nat)
    requires Showing(l) && Can(l, MAgent(true, n)) && AgentSays(l.a, true).Some?
    ensures Showing(Do(l, MAgent(true, n)))
  {
    PostedBytes(l.toBroker, AgentSays(l.a, true));
    SameShowing(l, Do(l, MAgent(true, n)));
  }

  lemma BrokerTaking(l: Lane, ok: bool)
    requires Taking(l.x) && Printing(l.x) && Can(l, MBroker(ok))
    ensures Taking(Do(l, MBroker(ok)).x) && Printing(Do(l, MBroker(ok)).x)
  {
  }

  lemma BrokerFeeding(l: Lane, ok: bool)
    requires Feeding(l) && Can(l, MBroker(ok))
    ensures Feeding(Do(l, MBroker(ok)))
  {
    SameFeeding(l, Do(l, MBroker(ok)));
  }

  lemma BrokerShowing(l: Lane, ok: bool)
    requires Showing(l) && Fresh(l) && Can(l, MBroker(ok)) && !l.b.BDeliver?
    ensures Showing(Do(l, MBroker(ok)))
  {
  }

  lemma Refuses(l: Lane)
    requires Showing(l) && Fresh(l) && Can(l, MBroker(false)) && l.b.BDeliver?
    ensures Showing(Do(l, MBroker(false)))
  {
  }

  lemma BrokerDelivers(l: Lane)
    requires Showing(l) && Fresh(l) && Can(l, MBroker(true)) && l.b.BDeliver?
    ensures Showing(Do(l, MBroker(true)))
  {
    var rest := Screen(l.toBroker);
    Shorter(l.x.browser.shown, l.b.data, |l.b.data|, rest, Sent(l));
    assert l.b.data[..|l.b.data|] == l.b.data && [] + rest == rest;
  }

  predicate Environmental(m: Move) {
    !m.MHandler? && !m.MPump? && !m.MAgent? && !m.MBroker?
  }

  lemma OtherTaking(l: Lane, m: Move)
    requires Taking(l.x) && Can(l, m) && Environmental(m)
    ensures Taking(Do(l, m).x)
  {
    if m.MType? { InboxAppend(l.x.browser.inbox, m.f); }
  }

  lemma OtherFeeding(l: Lane, m: Move)
    requires Fresh(l) && Feeding(l) && Can(l, m) && Environmental(m)
    ensures Feeding(Do(l, m))
  {
  }

  lemma OtherPrinting(l: Lane, m: Move)
    requires Printing(l.x) && Can(l, m) && Environmental(m)
    ensures Printing(Do(l, m).x)
  {
  }

  lemma OtherShowing(l: Lane, m: Move)
    requires Showing(l) && Can(l, m) && Environmental(m)
    ensures Showing(Do(l, m))
  {
    SameShowing(l, Do(l, m));
  }

  // ----- all moves -----

  lemma HandlerKeepsStreams(l: Lane, ok: bool)
    requires LaneInv(l) && Can(l, MHandler(ok))
    ensures Streams(Do(l, MHandler(ok)))
  {
    HandlerTaking(l.x, l.down, l.listed, ok);
    HandlerPrinting(l.x, l.down, l.listed, ok);
    HandlerShowing(l, ok);
    if HandlerSays(l.x, l.id, ok).None? { HandlerSilent(l, ok); }
    else if l.x.h.HForward? { HandlerForwards(l); }
    else { HandlerFeeding(l); }
  }

  lemma PumpKeepsStreams(l: Lane, i: nat, ok: bool, n: nat)
    requires LaneInv(l) && Can(l, MPump(i, ok, n))
    ensures Streams(Do(l, MPump(i, ok, n)))
  {
    PumpTaking(l.x, i, l.down, ok, n, l.table);
    PumpFeeding(l, i, ok, n);
    if l.x.shells[i].pump.PRead? { PumpReads(l.x, i, l.down, ok, n, l.table); }
    else { PumpPrinting(l.x, i, l.down, ok, n, l.table); }
    if PumpSays(l.x, l.id, i, ok).None? { PumpShowing(l, i, ok, n); }
    else if l.x.shells[i].pump.PSend? { PumpSends(l, i, n); }
    else { PumpEnds(l, i, n); }
  }

  lemma AgentKeepsStreams(l: Lane, ok: bool, n: nat)
    requires LaneInv(l) && Can(l, MAgent(ok, n))
    ensures Streams(Do(l, MAgent(ok, n)))
  {
    AgentPrinting(l, ok, n);
    if !l.a.AServe? && !l.a.AStop? { AgentTaking(l.x, l.a, l.down, ok, n); }
    if AgentSays(l.a, ok).None? { AgentShowing(l, ok, n); } else { AgentEnds(l, n); }
    if l.a.AFeed? { if l.x.shells[0].jammed { AgentDiscards(l, ok, n); } else { AgentFeeds(l, ok, n); } }
    else if l.a.AServe? || l.a.AStop? { AgentReceives(l, ok, n); }
    else { AgentFeeding(l, ok, n); }
  }

  lemma KeepsStreams(l: Lane, m: Move)
    requires LaneInv(l) && Can(l, m)
    ensures Streams(Do(l, m))
  {
    match m
    case MHandler(ok) => HandlerKeepsStreams(l, ok);
    case MPump(i, ok, n) => PumpKeepsStreams(l, i, ok, n);
    case MAgent(ok, n) => AgentKeepsStreams(l, ok, n);
    case MBroker(ok) =>
      BrokerTaking(l, ok); BrokerFeeding(l, ok);
      if !l.b.BDeliver? { BrokerShowing(l, ok); } else if ok { BrokerDelivers(l); } else { Refuses(l); }
    case _ =>
      OtherTaking(l, m); OtherFeeding(l, m); OtherPrinting(l, m); OtherShowing(l, m);
  }

  /** Whatever a session does next, it keeps the whole invariant. */
  lemma Keeps(l: Lane, m: Option<Move>, l': Lane)
    requires LaneInv(l) && Moves(l, m, l')
    ensures LaneInv(l')
  {
    if m.Some? {
      KeepsControl(l, m.value);
      KeepsStreams(l, m.value);
    }
  }
}
