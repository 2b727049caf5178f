/** secure.Handshake at both ends of a pipe: who obtains a session, and with which keys. */
module Handshakes {
  import opened Protocol
  import opened Noise
  import F = Fifo

  /** What the two parties were started with: static and ephemeral private keys, the initiator's pin,
      and the responder's allow-list. */
  datatype Setup = Setup(
    iStatic: nat, iEphemeral: nat, pin: PublicKey, rStatic: nat, rEphemeral: nat, allowed: seq<PublicKey>)

  datatype Session = Session(send: Term, recv: Term, peer: PublicKey)

  /** secure.go:202-216. */
  datatype InitiatorPc =
    | IBegin                    // 182-203
    | IPut(hs: Handshake, m: Message)  // 207
    | ITake(hs: Handshake)      // 210-214
    | IDone(session: Option<Session>)

  /** secure.go:218-238. */
  datatype ResponderPc =
    | RTake                     // 218-226
    | RCheck(hs: Handshake)     // 227-231
    | RClose                    // 228
    | RPut(hs: Handshake, m: Message, k1: Term, k2: Term)  // 235
    | RDone(session: Option<Session>)

  datatype State = State(i: InitiatorPc, r: ResponderPc, pipe: F.Pipe<Message>)

  const START := State(IBegin, RTake, F.NewPipe())

  /** secure.go:275-285, as a loop. */
  method Authorized(peer: PublicKey, allowed: seq<PublicKey>) returns (ok: bool)
    ensures ok <==> Allows(allowed, peer)
    ensures ok <==> |allowed| == 0 || exists j :: 0 <= j < |allowed| && allowed[j] == peer
  {
    if |allowed| == 0 { return true; }
    for j := 0 to |allowed|
      invariant peer !in allowed[..j]
    {
      if allowed[j] == peer { return true; }
    }
    return false;
  }

  predicate Allows(allowed: seq<PublicKey>, peer: PublicKey) { allowed == [] || peer in allowed }

  datatype Step = Initiator(ok: bool) | Responder(ok: bool)

  predicate Can(st: State, step: Step) {
    match step
    case Initiator(ok) =>
      (match st.i
       case IBegin => ok
       case IPut(_, m) => F.Ready(st.pipe, F.Write(F.Left, m, ok))
       case ITake(_) => F.Ready(st.pipe, F.Read(F.Left, ok))
       case IDone(_) => false)
    case Responder(ok) =>
      (match st.r
       case RTake => F.Ready(st.pipe, F.Read(F.Right, ok))
       case RCheck(_) => ok
       case RClose => ok
       case RPut(_, m, _, _) => F.Ready(st.pipe, F.Write(F.Right, m, ok))
       case RDone(_) => false)
  }

  function InitiatorStep(c: Setup, st: State, ok: bool): State
    requires Can(st, Initiator(ok))
  {
    match st.i
    case IBegin =>
      if c.pin == NOBODY then st.(i := IDone(None)) else
      var out := WriteMessage1(Initialize(c.pin, c.iStatic, c.iEphemeral, c.pin));
      if out.None? then st.(i := IDone(None)) else st.(i := IPut(out.value.0, out.value.1))
    case IPut(hs, m) =>
      if ok then st.(i := ITake(hs), pipe := F.Perform(st.pipe, F.Write(F.Left, m, true))) else st.(i := IDone(None))
    case ITake(hs) =>
      if !ok then st.(i := IDone(None)) else
      var keys := ReadMessage2(hs, st.pipe.toLeft.queue[0]);
      st.(i := IDone(if keys.None? then None else Some(Session(keys.value.0, keys.value.1, hs.rs))),
          pipe := F.Perform(st.pipe, F.Read(F.Left, true)))
  }

  function ResponderStep(c: Setup, st: State, ok: bool): State
    requires Can(st, Responder(ok))
  {
    match st.r
    case RTake =>
      if !ok then st.(r := RDone(None)) else
      var hs := ReadMessage1(Initialize(Of(c.rStatic), c.rStatic, c.rEphemeral, NOBODY), st.pipe.toRight.queue[0]);
      st.(r := if hs.None? then RDone(None) else RCheck(hs.value),
          pipe := F.Perform(st.pipe, F.Read(F.Right, true)))
    case RCheck(hs) =>
      if !Allows(c.allowed, hs.rs) then st.(r := RClose) else
      var out := WriteMessage2(hs);
      st.(r := if out.None? then RDone(None) else RPut(hs, out.value.0, out.value.1, out.value.2))
    case RClose => st.(r := RDone(None), pipe := F.Perform(st.pipe, F.Close))
    case RPut(hs, m, k1, k2) =>
      if ok then st.(r := RDone(Some(Session(k2, k1, hs.rs))), pipe := F.Perform(st.pipe, F.Write(F.Right, m, true)))
      else st.(r := RDone(None))
  }

  function Next(c: Setup, st: State, step: Step): State
    requires Can(st, step)
  {
    match step
    case Initiator(ok) => InitiatorStep(c, st, ok)
    case Responder(ok) => ResponderStep(c, st, ok)
  }

  function Run(c: Setup, steps: seq<Step>): Option<State> {
    if steps == [] then Some(START) else
    var before := Run(c, steps[..|steps| - 1]);
    var step := steps[|steps| - 1];
    if before.Some? && Can(before.value, step) then Some(Next(c, before.value, step)) else None
  }

  // ----- what the two parties compute -----

  /** The pin is the responder's key, and the responder lets the initiator in. */
  predicate Match(c: Setup) { c.pin == Of(c.rStatic) && (c.allowed == [] || Of(c.iStatic) in c.allowed) }

  function IStart(c: Setup): Handshake { Initialize(c.pin, c.iStatic, c.iEphemeral, c.pin) }

  function RStart(c: Setup): Handshake { Initialize(Of(c.rStatic), c.rStatic, c.rEphemeral, NOBODY) }

  lemma FirstMessage(c: Setup)
    ensures WriteMessage1(IStart(c)).Some? <==> c.pin.Of?
    ensures c.pin.Of? ==>
              var m := WriteMessage1(IStart(c)).value.1;
              && m.Message1?
              && (ReadMessage1(RStart(c), m).Some? <==> c.pin == Of(c.rStatic))
  {
  }

  lemma FirstMessageRead(c: Setup)
    requires c.pin == Of(c.rStatic)
    ensures var (hs, m) := WriteMessage1(IStart(c)).value;
            var r := ReadMessage1(RStart(c), m).value;
            && r.rs == Of(c.iStatic) && r.re == Of(c.iEphemeral) && r.s == c.rStatic && r.e == c.rEphemeral
            && r.sym == hs.sym
  {
    FirstMessage(c);
    DHAgrees(c.iEphemeral, c.rStatic);
    DHAgrees(c.iStatic, c.rStatic);
  }

  lemma SecondMessage(c: Setup)
    requires c.pin == Of(c.rStatic)
    ensures FirstMessageIsRead(c)
    ensures var (hs, m) := WriteMessage1(IStart(c)).value;
            var r := ReadMessage1(RStart(c), m).value;
            var out := WriteMessage2(r);
            && out.Some?
            && ReadMessage2(hs, out.value.0) == Some((out.value.1, out.value.2))
            && hs.rs == Of(c.rStatic) && out.value.1 != out.value.2
  {
    FirstMessage(c);
    FirstMessageRead(c);
  }

  predicate FirstMessageIsRead(c: Setup) {
    var out := WriteMessage1(IStart(c));
    out.Some? && ReadMessage1(RStart(c), out.value.1).Some?
  }

  // ----- every interleaving -----

  function M1(c: Setup): Option<(Handshake, Message)> { WriteMessage1(IStart(c)) }

  /** The responder after the first message. */
  function R1(c: Setup): Option<Handshake> {
    if M1(c).None? then None else ReadMessage1(RStart(c), M1(c).value.1)
  }

  function M2(c: Setup): Option<(Message, Term, Term)> {
    if R1(c).None? then None else WriteMessage2(R1(c).value)
  }

  predicate Silent(st: State) { st.pipe.toRight.queue == [] && st.pipe.toLeft.queue == [] && !st.pipe.closed }

  /** Before the first message has been read. */
  predicate Early(c: Setup, st: State) {
    match st.i
    case IBegin => Silent(st)
    case IPut(hs, m) => Silent(st) && c.pin != NOBODY && M1(c) == Some((hs, m))
    case ITake(hs) =>
      && M1(c).Some? && hs == M1(c).value.0 && c.pin != NOBODY
      && st.pipe.toRight.queue == [M1(c).value.1] && st.pipe.toLeft.queue == [] && !st.pipe.closed
    case IDone(session) => session.None? && Silent(st) && (c.pin == NOBODY || M1(c).None?)
  }

  /** After the first message has been read. */
  predicate Late(c: Setup, st: State) {
    && M1(c).Some? && c.pin != NOBODY && st.pipe.toRight.queue == []
    && (st.i.ITake? ==> st.i.hs == M1(c).value.0) && (st.i.ITake? || st.i.IDone?)
    && match st.r
       case RTake => false
       case RCheck(hs) => st.i.ITake? && Silent(st) && R1(c) == Some(hs)
       case RClose => st.i.ITake? && Silent(st) && R1(c).Some? && !Allows(c.allowed, R1(c).value.rs)
       case RPut(hs, m, k1, k2) =>
         st.i.ITake? && Silent(st) && R1(c) == Some(hs) && Allows(c.allowed, hs.rs) && M2(c) == Some((m, k1, k2))
       case RDone(session) =>
         if session.None? then
           && (R1(c).None? || !Allows(c.allowed, R1(c).value.rs) || M2(c).None?)
           && st.pipe.toLeft.queue == [] && (st.i.ITake? || st.i == IDone(None))
           && (st.i.ITake? || st.pipe.closed)
           && (R1(c).Some? && !Allows(c.allowed, R1(c).value.rs) ==> st.pipe.closed)
           && (R1(c).None? ==> !st.pipe.closed)
         else
           && R1(c).Some? && Allows(c.allowed, R1(c).value.rs) && M2(c).Some? && !st.pipe.closed
           && session.value == Session(M2(c).value.2, M2(c).value.1, R1(c).value.rs)
           && (if st.i.ITake? then st.pipe.toLeft.queue == [M2(c).value.0]
               else st.pipe.toLeft.queue == [] && st.i == IDone(ISession(c)))
  }

  /** The initiator's session, if it makes sense of the second message. */
  function ISession(c: Setup): Option<Session>
    requires M1(c).Some? && M2(c).Some?
  {
    var keys := ReadMessage2(M1(c).value.0, M2(c).value.0);
    if keys.None? then None else Some(Session(keys.value.0, keys.value.1, M1(c).value.0.rs))
  }

  predicate Inv(c: Setup, st: State) { if st.r.RTake? then Early(c, st) else Late(c, st) }

  lemma InitiatorKeeps(c: Setup, st: State, ok: bool)
    requires Inv(c, st) && Can(st, Initiator(ok))
    ensures Inv(c, InitiatorStep(c, st, ok))
  {
  }

  lemma ResponderKeeps(c: Setup, st: State, ok: bool)
    requires Inv(c, st) && Can(st, Responder(ok))
    ensures Inv(c, ResponderStep(c, st, ok))
  {
  }

  lemma {:induction false} Reachable(c: Setup, steps: seq<Step>)
    requires Run(c, steps).Some?
    ensures Inv(c, Run(c, steps).value)
  {
    if steps != [] {
      var before, step := steps[..|steps| - 1], steps[|steps| - 1];
      Reachable(c, before);
      match step
      case Initiator(ok) => InitiatorKeeps(c, Run(c, before).value, ok);
      case Responder(ok) => ResponderKeeps(c, Run(c, before).value, ok);
    }
  }

  function Rank(st: State): nat {
    (match st.i case IBegin => 3 case IPut(_, _) => 2 case ITake(_) => 1 case IDone(_) => 0)
    + (match st.r case RTake => 3 case RCheck(_) => 2 case RClose => 1 case RPut(_, _, _, _) => 1 case RDone(_) => 0)
  }

  /** A handshake takes at most six steps. */
  lemma {:induction false} HandshakesEnd(c: Setup, steps: seq<Step>)
    requires Run(c, steps).Some?
    ensures |steps| + Rank(Run(c, steps).value) <= 6
  {
    if steps != [] {
      HandshakesEnd(c, steps[..|steps| - 1]);
    }
  }

  /** Neither party can go on. */
  predicate Over(st: State) {
    forall ok :: !Can(st, Initiator(ok)) && !Can(st, Responder(ok))
  }

  predicate HasSession(i: Option<Session>, r: Option<Session>, c: Setup) {
    && i.Some? && r.Some?
    && i.value.send == r.value.recv && i.value.recv == r.value.send
    && i.value.send.Split1? && i.value.recv.Split2?
    && i.value.peer == Of(c.rStatic) && r.value.peer == Of(c.iStatic)
  }

  lemma Computed(c: Setup)
    ensures M1(c).Some? <==> c.pin.Of?
    ensures R1(c).Some? <==> c.pin == Of(c.rStatic)
    ensures R1(c).Some? ==> R1(c).value.rs == Of(c.iStatic) && M2(c).Some?
    ensures R1(c).Some? ==> HasSession(ISession(c), Some(Session(M2(c).value.2, M2(c).value.1, R1(c).value.rs)), c)
  {
    FirstMessage(c);
    if c.pin == Of(c.rStatic) {
      FirstMessageRead(c);
      SecondMessage(c);
    }
  }

  /** A session is never obtained by the wrong pair of parties, and never by the initiator alone. */
  lemma OnlyMatchingParties(c: Setup, steps: seq<Step>)
    requires Run(c, steps).Some?
    ensures var st := Run(c, steps).value;
            && (st.r.RDone? && st.r.session.Some? ==> Match(c))
            && (st.i.IDone? && st.i.session.Some? ==>
                  st.r.RDone? && HasSession(st.i.session, st.r.session, c))
  {
    Reachable(c, steps);
    Computed(c);
  }

  /** When the handshake is over, both parties have a session exactly when they match, and otherwise
      neither has one. An initiator that is not on the allow-list is cut off; one that pinned another key
      waits for an answer that does not come; one without a key to pin does not begin. */
  lemma HandshakeOutcome(c: Setup, steps: seq<Step>)
    requires Run(c, steps).Some? && Over(Run(c, steps).value)
    ensures var st := Run(c, steps).value;
            if Match(c) then st.i.IDone? && st.r.RDone? && HasSession(st.i.session, st.r.session, c) && !st.pipe.closed
            else if c.pin == Of(c.rStatic) then st.i == IDone(None) && st.r == RDone(None) && st.pipe.closed
            else if c.pin.Of? then st.i.ITake? && st.r == RDone(None) && !st.pipe.closed
            else st.i == IDone(None) && st.r.RTake? && !st.pipe.closed
  {
    Reachable(c, steps);
    Computed(c);
    var st := Run(c, steps).value;
    assert !Can(st, Initiator(true)) && !Can(st, Initiator(false));
    assert !Can(st, Responder(true)) && !Can(st, Responder(false));
  }
}
