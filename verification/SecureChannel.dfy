/** One direction of an established session: any number of writers share a lock, a cipher state and a
    bounded, closable pipe; one reader decrypts at the other end (secure.go:254-270, with the callers'
    locks at broker.go:42-50 and agent.go:96-104). Section 5.1 of the Noise Protocol Framework. */
module SecureChannel {
  import opened Protocol
  import F = Fifo

  /** A ciphertext opens only under the key and nonce it was sealed with. */
  datatype Cipher = Sealed(key: nat, nonce: nat, plain: Bytes)

  /** Nonce 2^64 - 1 is reserved. */
  const NONCES: nat := 0xFFFF_FFFF_FFFF_FFFF

  function Unseal(key: nat, nonce: nat, c: Cipher): Option<Bytes> {
    if c.key == key && c.nonce == nonce && nonce < NONCES then Some(c.plain) else None
  }

  // ----- cipher states and sessions, as objects -----

  class CipherState {
    const key: nat
    var n: nat

    constructor (key: nat)
      ensures this.key == key && n == 0
    {
      this.key := key;
      n := 0;
    }

    method Encrypt(p: Bytes) returns (c: Option<Cipher>)
      modifies this
      ensures old(n) < 0xFFFF_FFFF_FFFF_FFFF ==> c == Some(Sealed(key, old(n), p)) && n == old(n) + 1
      ensures old(n) >= 0xFFFF_FFFF_FFFF_FFFF ==> c == None && n == old(n)
    {
      if n >= NONCES { return None; }
      c := Some(Sealed(key, n, p));
      n := n + 1;
    }

    /** A message that does not open leaves the nonce as it was. */
    method Decrypt(c: Cipher) returns (p: Option<Bytes>)
      modifies this
      ensures p == Unseal(key, old(n), c)
      ensures n == old(n) + if p.Some? then 1 else 0
    {
      if c.key == key && c.nonce == n && n < NONCES {
        p := Some(c.plain);
        n := n + 1;
      } else {
        p := None;
      }
    }
  }

  /** One direction of a MsgConn, with the outcome of its calls left to the environment. */
  class Conn {
    var duct: F.Duct<Cipher>
    var closed: bool

    constructor ()
      ensures duct == F.Duct([], [], []) && !closed
    {
      duct := F.Duct([], [], []);
      closed := false;
    }

    method WriteMsg(c: Cipher, ok: bool)
      requires if ok then |duct.queue| < F.CAPACITY else closed
      modifies this`duct
      ensures duct == if ok then F.Push(old(duct), c) else old(duct)
    {
      if ok { duct := F.Push(duct, c); }
    }

    method ReadMsg(ok: bool) returns (c: Option<Cipher>)
      requires if ok then duct.queue != [] else closed
      modifies this`duct
      ensures ok ==> c == Some(old(duct).queue[0]) && duct == F.Pop(old(duct))
      ensures !ok ==> c == None && duct == old(duct)
    {
      if !ok { return None; }
      c := Some(duct.queue[0]);
      duct := F.Pop(duct);
    }
  }

  class Session {
    const send: CipherState
    const recv: CipherState
    const output: Conn
    const input: Conn

    constructor (send: CipherState, recv: CipherState, output: Conn, input: Conn)
      ensures this.send == send && this.recv == recv && this.output == output && this.input == input
    {
      this.send := send;
      this.recv := recv;
      this.output := output;
      this.input := input;
    }

    /** secure.go:255-261: the nonce is spent even if the connection then refuses the message. */
    method Write(p: Bytes, ok: bool) returns (sent: bool)
      requires if ok then |output.duct.queue| < F.CAPACITY else output.closed
      modifies send, output`duct
      ensures sent <==> ok && old(send.n) < NONCES
      ensures send.n == old(send.n) + if old(send.n) < NONCES then 1 else 0
      ensures output.duct == if sent then F.Push(old(output.duct), Sealed(send.key, old(send.n), p)) else old(output.duct)
    {
      var c := send.Encrypt(p);
      if c.None? { return false; }
      output.WriteMsg(c.value, ok);
      sent := ok;
    }

    /** secure.go:264-270: nothing happens if the connection gives no message; a message that does not open
        is gone all the same. */
    method Read(ok: bool) returns (p: Option<Bytes>)
      requires if ok then input.duct.queue != [] else input.closed
      modifies recv, input`duct
      ensures ok ==> p == Unseal(recv.key, old(recv.n), old(input.duct).queue[0]) && input.duct == F.Pop(old(input.duct))
      ensures !ok ==> p == None && input.duct == old(input.duct)
      ensures recv.n == old(recv.n) + if p.Some? then 1 else 0
    {
      var c := input.ReadMsg(ok);
      if c.None? { return None; }
      p := recv.Decrypt(c.value);
    }
  }

  // ----- concurrent writers -----

  datatype WriterPc =
    | Idle
    | Wants(p: Bytes)      // at the lock
    | Holds(p: Bytes)      // at Encrypt
    | Writes(c: Cipher)    // at WriteMsg, still holding the lock

  /** `sealed` and `heard` are histories: the plaintexts given to Encrypt, in order, and those the
      reader returned. `tried` counts the messages the reader has taken from the pipe. */
  datatype Channel = Channel(
    key: nat, lock: Option<nat>, n: nat, m: nat, writers: seq<WriterPc>, duct: F.Duct<Cipher>, closed: bool,
    sealed: seq<Bytes>, heard: seq<Bytes>)

  datatype Event =
    | Begin(w: nat, p: Bytes)
    | Step(w: nat, ok: bool)
    | Receive
    | CloseConn

  predicate Can(s: Channel, e: Event) {
    match e
    case Begin(w, _) => w < |s.writers| && s.writers[w].Idle?
    case Step(w, ok) =>
      w < |s.writers| &&
      (match s.writers[w]
       case Idle => false
       case Wants(_) => ok && s.lock.None?
       case Holds(_) => ok
       case Writes(_) => if ok then |s.duct.queue| < F.CAPACITY else s.closed)
    case Receive => s.duct.queue != []
    case CloseConn => true
  }

  function Next(s: Channel, e: Event): Channel
    requires Can(s, e)
  {
    match e
    case Begin(w, p) => s.(writers := s.writers[w := Wants(p)])
    case Step(w, ok) =>
      (match s.writers[w]
       case Wants(p) => s.(writers := s.writers[w := Holds(p)], lock := Some(w))
       case Holds(p) =>
         if s.n < NONCES then
           s.(writers := s.writers[w := Writes(Sealed(s.key, s.n, p))], n := s.n + 1, sealed := s.sealed + [p])
         else s.(writers := s.writers[w := Idle], lock := None)
       case Writes(c) =>
         s.(writers := s.writers[w := Idle], lock := None, duct := if ok then F.Push(s.duct, c) else s.duct))
    case Receive =>
      var p := Unseal(s.key, s.m, s.duct.queue[0]);
      s.(duct := F.Pop(s.duct), m := s.m + (if p.Some? then 1 else 0),
         heard := if p.Some? then s.heard + [p.value] else s.heard)
    case CloseConn => s.(closed := true)
  }

  /** `count` writers, on a fresh pipe. */
  function Start(key: nat, count: nat): Channel {
    Channel(key, None, 0, 0, seq(count, _ => Idle), F.Duct([], [], []), false, [], [])
  }

  function Run(key: nat, count: nat, events: seq<Event>): Option<Channel> {
    if events == [] then Some(Start(key, count)) else
    var before := Run(key, count, events[..|events| - 1]);
    var e := events[|events| - 1];
    if before.Some? && Can(before.value, e) then Some(Next(before.value, e)) else None
  }

  /** The writer that holds the lock and has sealed a message it has not yet handed over. */
  predicate Pending(s: Channel) {
    s.lock.Some? && s.lock.value < |s.writers| && s.writers[s.lock.value].Writes?
  }

  predicate Locking(s: Channel) {
    && (forall w | 0 <= w < |s.writers| ::
          s.writers[w].Holds? || s.writers[w].Writes? ==> s.lock == Some(w))
    && (s.lock.Some? ==> s.lock.value < |s.writers|
                         && (s.writers[s.lock.value].Holds? || s.writers[s.lock.value].Writes?))
    && s.n == |s.sealed| && s.m == |s.heard| && s.n <= NONCES
    && (Pending(s) ==> s.n > 0 && s.writers[s.lock.value].c == Sealed(s.key, s.n - 1, s.sealed[s.n - 1]))
  }

  /** Every message in the pipe is what was sealed under its nonce, and nonces rise along the pipe. */
  predicate Ordered(s: Channel) {
    var q := s.duct.queue;
    && (forall i | 0 <= i < |q| :: q[i].key == s.key && q[i].nonce < |s.sealed| && q[i].plain == s.sealed[q[i].nonce])
    && (forall i, j | 0 <= i < j < |q| :: q[i].nonce < q[j].nonce)
    && (Pending(s) ==> forall i | 0 <= i < |q| :: q[i].nonce < s.n - 1)
    && s.heard <= s.sealed
  }

  /** Every message is what was sealed under its nonce, and nonces rise, below `bound`. */
  predicate Chronicle(q: seq<Cipher>, key: nat, sealed: seq<Bytes>, bound: nat) {
    && bound <= |sealed|
    && (forall i | 0 <= i < |q| :: q[i].key == key && q[i].nonce < bound && q[i].plain == sealed[q[i].nonce])
    && (forall i, j | 0 <= i < j < |q| :: q[i].nonce < q[j].nonce)
  }

  /** The same of every message that the pipe ever took, read or not. */
  predicate Recorded(s: Channel) {
    Chronicle(s.duct.accepted, s.key, s.sealed, if Pending(s) && |s.sealed| > 0 then |s.sealed| - 1 else |s.sealed|)
  }

  /** On a pipe that nobody closed nothing is missing. */
  predicate Gapless(s: Channel) {
    !s.closed ==>
      && s.n == s.m + |s.duct.queue| + (if Pending(s) then 1 else 0)
      && forall i | 0 <= i < |s.duct.queue| :: s.duct.queue[i].nonce == s.m + i
  }

  lemma StepKeepsLocking(s: Channel, e: Event)
    requires Locking(s) && Can(s, e) && e.Step?
    ensures Locking(Next(s, e))
  {
  }

  lemma StepKeepsOrdered(s: Channel, e: Event)
    requires Locking(s) && Ordered(s) && Can(s, e) && e.Step?
    ensures Ordered(Next(s, e))
  {
  }

  lemma OtherKeeps(s: Channel, e: Event)
    requires Locking(s) && Ordered(s) && Can(s, e) && !e.Step?
    ensures Locking(Next(s, e)) && Ordered(Next(s, e))
  {
  }

  lemma ChronicleSeals(q: seq<Cipher>, key: nat, sealed: seq<Bytes>, p: Bytes)
    requires Chronicle(q, key, sealed, |sealed|)
    ensures Chronicle(q, key, sealed + [p], |sealed|)
  {
  }

  lemma ChronicleTakes(q: seq<Cipher>, key: nat, sealed: seq<Bytes>)
    requires sealed != [] && Chronicle(q, key, sealed, |sealed| - 1)
    ensures Chronicle(q, key, sealed, |sealed|)
    ensures Chronicle(q + [Sealed(key, |sealed| - 1, sealed[|sealed| - 1])], key, sealed, |sealed|)
  {
  }

  lemma StepKeepsRecorded(s: Channel, e: Event)
    requires Locking(s) && Recorded(s) && Can(s, e) && e.Step?
    ensures Recorded(Next(s, e))
  {
    match s.writers[e.w]
    case Holds(p) => if s.n < NONCES { ChronicleSeals(s.duct.accepted, s.key, s.sealed, p); }
    case Writes(c) => ChronicleTakes(s.duct.accepted, s.key, s.sealed);
    case _ =>
  }

  lemma OtherKeepsRecorded(s: Channel, e: Event)
    requires Locking(s) && Recorded(s) && Can(s, e) && !e.Step?
    ensures Recorded(Next(s, e))
  {
  }

  lemma KeepsGapless(s: Channel, e: Event)
    requires Locking(s) && Ordered(s) && Gapless(s) && Can(s, e)
    ensures Gapless(Next(s, e))
  {
  }

  lemma {:induction false} Reachable(key: nat, count: nat, events: seq<Event>)
    requires Run(key, count, events).Some?
    ensures var s := Run(key, count, events).value; s.key == key && Locking(s) && Ordered(s) && Recorded(s) && Gapless(s)
  {
    if events != [] {
      var before, e := events[..|events| - 1], events[|events| - 1];
      Reachable(key, count, before);
      var s := Run(key, count, before).value;
      if e.Step? { StepKeepsLocking(s, e); StepKeepsOrdered(s, e); } else { OtherKeeps(s, e); }
      if e.Step? { StepKeepsRecorded(s, e); } else { OtherKeepsRecorded(s, e); }
      KeepsGapless(s, e);
    }
  }

  // ----- what this means -----

  /** However many writers share a session, on a pipe that nobody closed the sender's nonce is the
      reader's plus the messages in flight, and the next message read opens to the plaintext that was
      sealed next. */
  lemma NoncesStayInStep(key: nat, count: nat, events: seq<Event>)
    requires Run(key, count, events).Some? && !Run(key, count, events).value.closed
    ensures var s := Run(key, count, events).value;
            && s.n == s.m + |s.duct.queue| + (if Pending(s) then 1 else 0)
            && (s.duct.queue != [] ==> s.m < |s.sealed| && Unseal(key, s.m, s.duct.queue[0]) == Some(s.sealed[s.m]))
  {
    Reachable(key, count, events);
  }

  /** Over the whole run ciphertexts enter the pipe in nonce order, closed or not, and each is what was
      sealed under its nonce. */
  lemma AcceptedInOrder(key: nat, count: nat, events: seq<Event>)
    requires Run(key, count, events).Some?
    ensures var s := Run(key, count, events).value;
            var q := s.duct.accepted;
            && (forall i, j | 0 <= i < j < |q| :: q[i].nonce < q[j].nonce)
            && (forall i | 0 <= i < |q| :: q[i].nonce < |s.sealed| && q[i] == Sealed(key, q[i].nonce, s.sealed[q[i].nonce]))
  {
    Reachable(key, count, events);
  }

  /** The reader never returns anything but a prefix of what was given to Encrypt, even when a closed
      pipe took some later messages and refused others. */
  lemma ReadsArePrefix(key: nat, count: nat, events: seq<Event>)
    requires Run(key, count, events).Some?
    ensures var s := Run(key, count, events).value; s.heard <= s.sealed && s.m == |s.heard|
  {
    Reachable(key, count, events);
  }

  function Plains(q: seq<Cipher>): seq<Bytes> { seq(|q|, i requires 0 <= i < |q| => q[i].plain) }

  lemma PlainsAreSealed(q: seq<Cipher>, m: nat, sealed: seq<Bytes>)
    requires m + |q| <= |sealed|
    requires forall i | 0 <= i < |q| :: q[i].nonce == m + i && q[i].plain == sealed[q[i].nonce]
    ensures Plains(q) == sealed[m..m + |q|]
  {
  }

  lemma Whole(heard: seq<Bytes>, plains: seq<Bytes>, last: seq<Bytes>, sealed: seq<Bytes>)
    requires heard <= sealed && |heard| + |plains| <= |sealed|
    requires plains == sealed[|heard|..|heard| + |plains|] && last == sealed[|heard| + |plains|..]
    ensures heard + plains + last == sealed
  {
  }

  /** The message that was sealed and is not in the pipe yet. */
  function Held(s: Channel): seq<Bytes> {
    if Pending(s) then [s.writers[s.lock.value].c.plain] else []
  }

  /** Seen from outside, an open session is a queue of plaintexts. */
  lemma SessionsAreFifo(key: nat, count: nat, events: seq<Event>)
    requires Run(key, count, events).Some? && !Run(key, count, events).value.closed
    ensures var s := Run(key, count, events).value;
            s.heard + Plains(s.duct.queue) + Held(s) == s.sealed
  {
    Reachable(key, count, events);
    OpenIsFifo(Run(key, count, events).value);
  }

  lemma OpenIsFifo(s: Channel)
    requires Locking(s) && Ordered(s) && Gapless(s) && !s.closed
    ensures s.heard + Plains(s.duct.queue) + Held(s) == s.sealed
  {
    PlainsAreSealed(s.duct.queue, s.m, s.sealed);
    assert Held(s) == s.sealed[s.m + |s.duct.queue|..];
    Whole(s.heard, Plains(s.duct.queue), Held(s), s.sealed);
  }

  // ----- the reader on its own -----

  /** What a reader at nonce `m` returns for a series of messages, skipping those that do not open. */
  function ReadAll(key: nat, m: nat, cs: seq<Cipher>): seq<Bytes>
    decreases |cs|
  {
    if cs == [] then [] else
    var p := Unseal(key, m, cs[0]);
    if p.Some? then [p.value] + ReadAll(key, m + 1, cs[1..]) else ReadAll(key, m, cs[1..])
  }

  /** Messages may be lost, repeated, reordered or made up under other keys: as long as those under
      `key` are ones that were sealed, the reader returns the next plaintexts sealed, in order. */
  lemma {:induction false} AnyDeliveryIsAPrefix(key: nat, m: nat, cs: seq<Cipher>, sealed: seq<Bytes>)
    requires m <= |sealed|
    requires forall c | c in cs && c.key == key :: c.nonce < |sealed| && c.plain == sealed[c.nonce]
    ensures ReadAll(key, m, cs) <= sealed[m..]
    decreases |cs|
  {
    if cs != [] {
      if Unseal(key, m, cs[0]).Some? {
        AnyDeliveryIsAPrefix(key, m + 1, cs[1..], sealed);
        assert sealed[m..] == [sealed[m]] + sealed[m + 1..];
      } else {
        AnyDeliveryIsAPrefix(key, m, cs[1..], sealed);
      }
    }
  }

  /** A series of messages opens completely exactly when it is in nonce order and without gaps: the
      reason why the lock must cover both Encrypt and WriteMsg. */
  lemma {:induction false} OrderMatters(key: nat, m: nat, cs: seq<Cipher>)
    requires forall c | c in cs :: c.key == key && c.nonce < NONCES
    ensures |ReadAll(key, m, cs)| <= |cs|
    ensures |ReadAll(key, m, cs)| == |cs| <==> forall i | 0 <= i < |cs| :: cs[i].nonce == m + i
    decreases |cs|
  {
    if cs != [] {
      OrderMatters(key, m, cs[1..]);
      OrderMatters(key, m + 1, cs[1..]);
      if cs[0].nonce == m {
        assert (forall i | 0 <= i < |cs| :: cs[i].nonce == m + i)
          <==> (forall i | 0 <= i < |cs[1..]| :: cs[1..][i].nonce == m + 1 + i) by {
          assert forall i | 0 < i < |cs| :: cs[i] == cs[1..][i - 1];
        }
      }
    }
  }
}
