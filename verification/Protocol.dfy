/** The frames of internal/protocol/protocol.go, and the part of a channel that one session sees. */
module Protocol {

  type Byte = b: int | 0 <= b < 256
  type Bytes = seq<Byte>
  type DeviceId = string
  type Token = string

  /** The n-th identifier returned by `newID`; identifiers are fresh. */
  type SessionId = nat

  /** The n-th control connection that completed its handshake. */
  type ConnId = nat

  datatype Option<+T> = None | Some(value: T)

  predicate Distinct<T(==)>(q: seq<T>) {
    forall i, j | 0 <= i < j < |q| :: q[i] != q[j]
  }

  lemma {:induction false} Bounded(names: set<string>) returns (bound: nat)
    ensures forall n | n in names :: |n| < bound
  {
    bound := 0;
    if names != {} {
      var n :| n in names;
      bound := Bounded(names - {n});
      bound := if bound <= |n| then |n| + 1 else bound;
    }
  }

  /** There is always another name. */
  lemma FreshName(names: set<string>) returns (name: string)
    ensures name !in names
  {
    var bound := Bounded(names);
    name := seq(bound, _ => 'a');
  }

  datatype Msg =
    | Register(device: DeviceId, token: Token)
    | Registered
    | Rejected
    | Open(session: SessionId)
    | Input(session: SessionId, data: Bytes)
    | Output(session: SessionId, data: Bytes)
    | Close(session: SessionId)

  /** The session a message names. */
  function Subject(m: Msg): Option<SessionId> {
    match m
    case Open(s) => Some(s)
    case Input(s, _) => Some(s)
    case Output(s, _) => Some(s)
    case Close(s) => Some(s)
    case _ => None
  }

  predicate Names(m: Msg, s: SessionId) { Subject(m) == Some(s) }

  /** `q` with `m`, if there is one, appended. */
  function Post(q: seq<Msg>, m: Option<Msg>): seq<Msg> {
    if m.Some? then q + [m.value] else q
  }

  /** The messages of a shared channel that name session `s`, in channel order. */
  function Only(q: seq<Msg>, s: SessionId): seq<Msg> {
    if q == [] then []
    else if Names(q[0], s) then [q[0]] + Only(q[1..], s)
    else Only(q[1..], s)
  }

  lemma {:induction false} OnlyAppend(q: seq<Msg>, m: Msg, s: SessionId)
    ensures Only(q + [m], s) == if Names(m, s) then Only(q, s) + [m] else Only(q, s)
  {
    if q == [] {
    } else {
      assert (q + [m])[1..] == q[1..] + [m];
      OnlyAppend(q[1..], m, s);
    }
  }

  lemma {:induction false} OnlyNamesNobody(q: seq<Msg>, s: SessionId)
    requires forall i | 0 <= i < |q| :: !Names(q[i], s)
    ensures Only(q, s) == []
  {
    if q != [] {
      OnlyNamesNobody(q[1..], s);
    }
  }

  /** The keystrokes carried by a channel towards an agent. */
  function Keys(q: seq<Msg>): Bytes {
    if q == [] then [] else (if q[0].Input? then q[0].data else []) + Keys(q[1..])
  }

  /** The shell output carried by a channel towards the broker. */
  function Screen(q: seq<Msg>): Bytes {
    if q == [] then [] else (if q[0].Output? then q[0].data else []) + Screen(q[1..])
  }

  /** How many `close` frames a channel carries. */
  function Closes(q: seq<Msg>): nat {
    if q == [] then 0 else (if q[0].Close? then 1 else 0) + Closes(q[1..])
  }

  lemma {:induction false} AppendMeasures(q: seq<Msg>, m: Msg)
    ensures Keys(q + [m]) == Keys(q) + if m.Input? then m.data else []
    ensures Screen(q + [m]) == Screen(q) + if m.Output? then m.data else []
    ensures Closes(q + [m]) == Closes(q) + if m.Close? then 1 else 0
  {
    if q == [] {
    } else {
      assert (q + [m])[1..] == q[1..] + [m];
      AppendMeasures(q[1..], m);
    }
  }
}
