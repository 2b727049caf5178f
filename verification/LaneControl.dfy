/** Every move of a session keeps the invariant of LaneSafety.dfy: one lemma per thread and clause. */
module LaneControl {
  import opened Protocol
  import opened Threads
  import opened Lane
  import opened LaneSafety

  lemma PostedCloses(q: seq<Msg>, m: Option<Msg>)
    ensures Closes(Post(q, m)) == Closes(q) + N(m.Some? && m.value.Close?)
  {
    if m.Some? { AppendMeasures(q, m.value); }
  }

  // ----- the browser handler -----

  /** What a step of the handler does to everything but the browser and the bytes. */
  predicate HandlerEffect(l: Lane, ok: bool, l': Lane) {
    && l' == l.(x := l'.x, listed := l'.listed, toAgent := l'.toAgent)
    && l'.x.ends == l.x.ends && l'.x.shells == l.x.shells && l'.listed == Listed(l.x.h, l.listed)
    && l'.toAgent == Post(l.toAgent, HandlerSays(l.x, l.id, ok))
    && l'.x.byes == l.x.byes + N(l.x.h.HBye? && ok)
    && l'.x.asked == (l.x.asked || (l.x.h.HOpen? && ok))
    && (!l.x.h.HForward? ==> l'.x.typedOn == l.x.typedOn)
    && match l.x.h
       case HUpgrade => l'.x.h.HInsert? || l'.x.h.HDone?
       case HInsert => l'.x.h.HOpen?
       case HOpen => if ok then l'.x.h.HRead? else l.down && l'.x.h.HDrop?
       case HRead => l'.x.h.HRead? || l'.x.h.HForward? || l'.x.h.HBye?
       case HForward(_) => l'.x.h.HRead? || l'.x.h.HBye?
       case HBye => (ok || l.down) && l'.x.h.HDrop?
       case HDrop => l'.x.h.HHangup? || l'.x.h.HDone?
       case HHangup => l'.x.h.HDone?
       case HDone => false
  }

  lemma HandlerHasEffect(l: Lane, ok: bool)
    requires Can(l, MHandler(ok))
    ensures HandlerEffect(l, ok, Do(l, MHandler(ok)))
  {
  }

  lemma HandlerIndexes(l: Lane, ok: bool, l': Lane)
    requires Indexes(l) && HandlerEffect(l, ok, l')
    ensures Indexes(l')
  {
  }

  lemma HandlerChannels(l: Lane, ok: bool, l': Lane)
    requires Channels(l) && Fresh(l) && ByeOnce(l) && HandlerEffect(l, ok, l')
    ensures Channels(l')
  {
  }

  lemma HandlerFresh(l: Lane, ok: bool, l': Lane)
    requires Fresh(l) && HandlerEffect(l, ok, l')
    ensures Fresh(l')
  {
  }

  lemma HandlerOwnership(l: Lane, ok: bool, l': Lane)
    requires Ownership(l) && HandlerEffect(l, ok, l')
    ensures Ownership(l')
  {
  }

  lemma HandlerEndOnce(l: Lane, ok: bool, l': Lane)
    requires Fresh(l) && EndOnce(l) && HandlerEffect(l, ok, l')
    ensures EndOnce(l')
  {
  }

  lemma HandlerByeOnce(l: Lane, ok: bool, l': Lane)
    requires Fresh(l) && ByeOnce(l) && HandlerEffect(l, ok, l')
    ensures ByeOnce(l')
  {
  }

  lemma HandlerListing(l: Lane, ok: bool, l': Lane)
    requires Fresh(l) && EndOnce(l) && Listing(l) && HandlerEffect(l, ok, l')
    ensures Listing(l')
  {
  }

  lemma HandlerKeepsControl(l: Lane, ok: bool)
    requires Control(l) && Can(l, MHandler(ok))
    ensures Control(Do(l, MHandler(ok)))
  {
    var l' := Do(l, MHandler(ok));
    HandlerHasEffect(l, ok);
    HandlerIndexes(l, ok, l');
    HandlerChannels(l, ok, l');
    HandlerFresh(l, ok, l');
    HandlerOwnership(l, ok, l');
    HandlerEndOnce(l, ok, l');
    HandlerByeOnce(l, ok, l');
    HandlerListing(l, ok, l');
  }

  // ----- the shell goroutine -----

  /** What a step of the goroutine does to everything but the bytes. */
  predicate PumpEffect(l: Lane, ok: bool, l': Lane) {
    && |l.x.shells| == 1 && |l'.x.shells| == 1
    && l' == l.(x := l'.x, table := l'.table, toBroker := l'.toBroker)
    && l'.x == l.x.(shells := l'.x.shells, ends := l'.x.ends)
    && var sh, sh' := l.x.shells[0], l'.x.shells[0];
       match sh.pump
       case PRead =>
         (sh'.pump.PClaim? || sh'.pump.PSend?) && sh'.closes == sh.closes
         && l'.x.ends == l.x.ends && l'.table == l.table && l'.toBroker == l.toBroker
       case PSend(d, _) =>
         (sh'.pump.PClaim? || sh'.pump.PRead?) && sh'.closes == sh.closes
         && l'.x.ends == l.x.ends && l'.table == l.table
         && l'.toBroker == if ok then l.toBroker + [Output(l.id, d)] else l.toBroker
       case PClaim =>
         sh'.pump == (if l.table.Some? then PKill(l.table.value) else PDone) && sh'.closes == sh.closes
         && l'.x.ends == l.x.ends && l'.table.None? && l'.toBroker == l.toBroker
       case PKill(_) =>
         sh'.pump.PBye? && sh'.closes == sh.closes + 1
         && l'.x.ends == l.x.ends && l'.table == l.table && l'.toBroker == l.toBroker
       case PBye =>
         sh'.pump.PDone? && sh'.closes == sh.closes && (ok || l.down)
         && l'.x.ends == l.x.ends + (if ok then 1 else 0) && l'.table == l.table
         && l'.toBroker == if ok then l.toBroker + [Close(l.id)] else l.toBroker
       case _ => false
  }

  lemma ReadHasEffect(l: Lane, i: nat, ok: bool, n: nat)
    requires Indexes(l) && Can(l, MPump(i, ok, n)) && l.x.shells[0].pump.PRead?
    ensures PumpEffect(l, ok, Do(l, MPump(i, ok, n)))
  {
  }

  lemma SendHasEffect(l: Lane, i: nat, ok: bool, n: nat)
    requires Indexes(l) && Can(l, MPump(i, ok, n)) && l.x.shells[0].pump.PSend?
    ensures PumpEffect(l, ok, Do(l, MPump(i, ok, n)))
  {
  }

  lemma EndHasEffect(l: Lane, i: nat, ok: bool, n: nat)
    requires Indexes(l) && Can(l, MPump(i, ok, n)) && !l.x.shells[0].pump.PRead? && !l.x.shells[0].pump.PSend?
    ensures PumpEffect(l, ok, Do(l, MPump(i, ok, n)))
  {
  }

  lemma PumpHasEffect(l: Lane, i: nat, ok: bool, n: nat)
    requires Indexes(l) && Can(l, MPump(i, ok, n))
    ensures PumpEffect(l, ok, Do(l, MPump(i, ok, n)))
  {
    if l.x.shells[0].pump.PRead? { ReadHasEffect(l, i, ok, n); }
    else if l.x.shells[0].pump.PSend? { SendHasEffect(l, i, ok, n); }
    else { EndHasEffect(l, i, ok, n); }
  }

  lemma PumpIndexes(l: Lane, ok: bool, l': Lane)
    requires Indexes(l) && PumpEffect(l, ok, l')
    ensures Indexes(l')
  {
  }

  lemma PumpChannels(l: Lane, ok: bool, l': Lane)
    requires Channels(l) && PumpEffect(l, ok, l')
    ensures Channels(l')
  {
  }

  lemma PumpFresh(l: Lane, ok: bool, l': Lane)
    requires Fresh(l) && PumpEffect(l, ok, l')
    ensures Fresh(l')
  {
  }

  lemma PumpOwnership(l: Lane, ok: bool, l': Lane)
    requires Indexes(l) && Ownership(l) && PumpEffect(l, ok, l')
    ensures Ownership(l')
  {
  }

  lemma PumpEndOnce(l: Lane, ok: bool, l': Lane)
    requires Indexes(l) && Fresh(l) && Ownership(l) && EndOnce(l) && PumpEffect(l, ok, l')
    ensures EndOnce(l')
  {
    PostedCloses(l.toBroker, Some(Close(l.id)));
    if l.x.shells[0].pump.PSend? { PostedCloses(l.toBroker, Some(Output(l.id, l.x.shells[0].pump.chunk))); }
  }

  lemma PumpByeOnce(l: Lane, ok: bool, l': Lane)
    requires Indexes(l) && ByeOnce(l) && PumpEffect(l, ok, l')
    ensures ByeOnce(l')
  {
  }

  lemma PumpListing(l: Lane, ok: bool, l': Lane)
    requires Listing(l) && PumpEffect(l, ok, l')
    ensures Listing(l')
  {
    PostedCloses(l.toBroker, Some(Close(l.id)));
    if l.x.shells[0].pump.PSend? { PostedCloses(l.toBroker, Some(Output(l.id, l.x.shells[0].pump.chunk))); }
  }

  lemma PumpKeepsControl(l: Lane, i: nat, ok: bool, n: nat)
    requires Control(l) && Can(l, MPump(i, ok, n))
    ensures Control(Do(l, MPump(i, ok, n)))
  {
    var l' := Do(l, MPump(i, ok, n));
    PumpHasEffect(l, i, ok, n);
    PumpIndexes(l, ok, l');
    PumpChannels(l, ok, l');
    PumpFresh(l, ok, l');
    PumpOwnership(l, ok, l');
    PumpEndOnce(l, ok, l');
    PumpByeOnce(l, ok, l');
    PumpListing(l, ok, l');
  }

  // ----- the agent's loop -----

  lemma ReceiveKeepsControl(l: Lane, n: nat)
    requires Control(l) && Can(l, MAgent(true, n)) && l.a.AServe?
    ensures Control(Do(l, MAgent(true, n)))
  {
  }

  lemma LoseKeepsControl(l: Lane, n: nat)
    requires Control(l) && Can(l, MAgent(false, n)) && l.a.AServe?
    ensures Control(Do(l, MAgent(false, n)))
  {
  }

  lemma StopKeepsControl(l: Lane, ok: bool, n: nat)
    requires Control(l) && Can(l, MAgent(ok, n)) && l.a.AStop? && l.id in l.a.todo
    ensures Control(Do(l, MAgent(ok, n)))
  {
  }

  lemma LeaveKeepsControl(l: Lane, ok: bool, n: nat)
    requires Control(l) && Can(l, MAgent(ok, n)) && l.a.AStop? && l.id !in l.a.todo
    ensures Control(Do(l, MAgent(ok, n)))
  {
  }

  lemma AgentIndexes(l: Lane, ok: bool, n: nat)
    requires Control(l) && Can(l, MAgent(ok, n)) && !l.a.AServe? && !l.a.AStop?
    ensures Indexes(Do(l, MAgent(ok, n)))
  {
  }

  lemma AgentChannels(l: Lane, ok: bool, n: nat)
    requires Control(l) && Can(l, MAgent(ok, n)) && !l.a.AServe? && !l.a.AStop?
    ensures Channels(Do(l, MAgent(ok, n)))
  {
  }

  lemma AgentFresh(l: Lane, ok: bool, n: nat)
    requires Control(l) && Can(l, MAgent(ok, n)) && !l.a.AServe? && !l.a.AStop?
    ensures Fresh(Do(l, MAgent(ok, n)))
  {
  }

  lemma AgentOwnership(l: Lane, ok: bool, n: nat)
    requires Control(l) && Can(l, MAgent(ok, n)) && !l.a.AServe? && !l.a.AStop?
    ensures Ownership(Do(l, MAgent(ok, n)))
  {
  }

  lemma AgentEndOnce(l: Lane, ok: bool, n: nat)
    requires Control(l) && Can(l, MAgent(ok, n)) && !l.a.AServe? && !l.a.AStop?
    ensures EndOnce(Do(l, MAgent(ok, n)))
  {
    PostedCloses(l.toBroker, AgentSays(l.a, ok));
  }

  lemma AgentByeOnce(l: Lane, ok: bool, n: nat)
    requires Control(l) && Can(l, MAgent(ok, n)) && !l.a.AServe? && !l.a.AStop?
    ensures ByeOnce(Do(l, MAgent(ok, n)))
  {
  }

  lemma AgentListing(l: Lane, ok: bool, n: nat)
    requires Control(l) && Can(l, MAgent(ok, n)) && !l.a.AServe? && !l.a.AStop?
    ensures Listing(Do(l, MAgent(ok, n)))
  {
    PostedCloses(l.toBroker, AgentSays(l.a, ok));
  }

  lemma AgentKeepsControl(l: Lane, ok: bool, n: nat)
    requires Control(l) && Can(l, MAgent(ok, n))
    ensures Control(Do(l, MAgent(ok, n)))
  {
    if l.a.AStop? {
      if l.id in l.a.todo { StopKeepsControl(l, ok, n); } else { LeaveKeepsControl(l, ok, n); }
    } else if l.a.AServe? {
      if ok { ReceiveKeepsControl(l, n); } else { LoseKeepsControl(l, n); }
    } else {
      AgentIndexes(l, ok, n);
      AgentChannels(l, ok, n);
      AgentFresh(l, ok, n);
      AgentOwnership(l, ok, n);
      AgentEndOnce(l, ok, n);
      AgentByeOnce(l, ok, n);
      AgentListing(l, ok, n);
    }
  }

  // ----- the broker's loop -----

  lemma BrokerIndexes(l: Lane, ok: bool)
    requires Control(l) && Can(l, MBroker(ok))
    ensures Indexes(Do(l, MBroker(ok)))
  {
  }

  lemma BrokerChannels(l: Lane, ok: bool)
    requires Control(l) && Can(l, MBroker(ok))
    ensures Channels(Do(l, MBroker(ok)))
  {
  }

  lemma BrokerFresh(l: Lane, ok: bool)
    requires Control(l) && Can(l, MBroker(ok))
    ensures Fresh(Do(l, MBroker(ok)))
  {
  }

  lemma BrokerOwnership(l: Lane, ok: bool)
    requires Control(l) && Can(l, MBroker(ok))
    ensures Ownership(Do(l, MBroker(ok)))
  {
  }

  lemma BrokerEndOnce(l: Lane, ok: bool)
    requires Control(l) && Can(l, MBroker(ok))
    ensures EndOnce(Do(l, MBroker(ok)))
  {
  }

  lemma BrokerByeOnce(l: Lane, ok: bool)
    requires Control(l) && Can(l, MBroker(ok))
    ensures ByeOnce(Do(l, MBroker(ok)))
  {
  }

  lemma BrokerListing(l: Lane, ok: bool)
    requires Control(l) && Can(l, MBroker(ok))
    ensures Listing(Do(l, MBroker(ok)))
  {
  }

  lemma BrokerKeepsControl(l: Lane, ok: bool)
    requires Control(l) && Can(l, MBroker(ok))
    ensures Control(Do(l, MBroker(ok)))
  {
    BrokerIndexes(l, ok);
    BrokerChannels(l, ok);
    BrokerFresh(l, ok);
    BrokerOwnership(l, ok);
    BrokerEndOnce(l, ok);
    BrokerByeOnce(l, ok);
    BrokerListing(l, ok);
  }

  // ----- the environment, and the moves that end registration -----

  lemma TypeKeepsControl(l: Lane, f: Frame)
    requires Control(l) && Can(l, MType(f))
    ensures Control(Do(l, MType(f)))
  {
  }

  lemma LeaveKeeps(l: Lane)
    requires Control(l)
    ensures Control(Do(l, MLeave))
  {
  }

  lemma ProduceKeepsControl(l: Lane, i: nat, d: Bytes)
    requires Control(l) && Can(l, MProduce(i, d))
    ensures Control(Do(l, MProduce(i, d)))
  {
  }

  lemma ExitKeepsControl(l: Lane, i: nat)
    requires Control(l) && Can(l, MExit(i))
    ensures Control(Do(l, MExit(i)))
  {
    assert Do(l, MExit(i)).x.shells == [l.x.shells[0].(exited := true)];
  }

  lemma CutKeepsControl(l: Lane)
    requires Control(l)
    ensures Control(Do(l, MCut))
  {
  }

  lemma WelcomeKeepsControl(l: Lane, m: Move)
    requires Control(l) && Can(l, m) && (m.MWelcome? || m.MQuit?)
    ensures Control(Do(l, m))
  {
  }

  lemma KeepsControl(l: Lane, m: Move)
    requires Control(l) && Can(l, m)
    ensures Control(Do(l, m))
  {
    match m
    case MHandler(ok) => HandlerKeepsControl(l, ok);
    case MPump(i, ok, n) => PumpKeepsControl(l, i, ok, n);
    case MAgent(ok, n) => AgentKeepsControl(l, ok, n);
    case MBroker(ok) => BrokerKeepsControl(l, ok);
    case MCut => CutKeepsControl(l);
    case MType(f) => TypeKeepsControl(l, f);
    case MLeave => LeaveKeeps(l);
    case MProduce(i, d) => ProduceKeepsControl(l, i, d);
    case MExit(i) => ExitKeepsControl(l, i);
    case MWelcome => WelcomeKeepsControl(l, m);
    case MQuit(_) => WelcomeKeepsControl(l, m);
  }
}
