/** The in-memory pipe of internal/transport/transport.go as values: two bounded queues and one shared
    closed state. */
module Fifo {

  const CAPACITY: nat := 16

  /** One direction. `accepted` and `delivered` are histories of the messages written and read. */
  datatype Duct<T> = Duct(queue: seq<T>, accepted: seq<T>, delivered: seq<T>)

  datatype Side = Left | Right

  datatype Pipe<T> = Pipe(toRight: Duct<T>, toLeft: Duct<T>, closed: bool)

  function NewPipe<T>(): Pipe<T> { Pipe(Duct([], [], []), Duct([], [], []), false) }

  /** The duct that `s` writes to. */
  function Out<T>(p: Pipe<T>, s: Side): Duct<T> { if s.Left? then p.toRight else p.toLeft }

  /** The duct that `s` reads from. */
  function In<T>(p: Pipe<T>, s: Side): Duct<T> { if s.Left? then p.toLeft else p.toRight }

  function WithOut<T>(p: Pipe<T>, s: Side, d: Duct<T>): Pipe<T> {
    if s.Left? then p.(toRight := d) else p.(toLeft := d)
  }

  function WithIn<T>(p: Pipe<T>, s: Side, d: Duct<T>): Pipe<T> {
    if s.Left? then p.(toLeft := d) else p.(toRight := d)
  }

  function Push<T>(d: Duct<T>, m: T): Duct<T> {
    d.(queue := d.queue + [m], accepted := d.accepted + [m])
  }

  function Pop<T>(d: Duct<T>): Duct<T>
    requires d.queue != []
  {
    d.(queue := d.queue[1..], delivered := d.delivered + [d.queue[0]])
  }

  /** A `select` takes any case that is ready: on a closed pipe with room left a write may succeed or
      fail, and so may a read while messages are buffered. */
  datatype Op<T> = Write(s: Side, m: T, ok: bool) | Read(s: Side, ok: bool) | Close

  predicate Ready<T>(p: Pipe<T>, op: Op<T>) {
    match op
    case Write(s, _, ok) => if ok then |Out(p, s).queue| < CAPACITY else p.closed
    case Read(s, ok) => if ok then In(p, s).queue != [] else p.closed
    case Close => true
  }

  function Perform<T>(p: Pipe<T>, op: Op<T>): Pipe<T>
    requires Ready(p, op)
  {
    match op
    case Write(s, m, ok) => if ok then WithOut(p, s, Push(Out(p, s), m)) else p
    case Read(s, ok) => if ok then WithIn(p, s, Pop(In(p, s))) else p
    case Close => p.(closed := true)
  }

  ghost predicate Orderly<T>(d: Duct<T>) {
    d.delivered + d.queue == d.accepted && |d.queue| <= CAPACITY
  }

  /** The pipe after a run of operations, or nothing if one of them had to wait. */
  ghost predicate Runs<T>(p: Pipe<T>, ops: seq<Op<T>>, p': Pipe<T>)
    decreases |ops|
  {
    if ops == [] then p' == p
    else Ready(p, ops[0]) && Runs(Perform(p, ops[0]), ops[1..], p')
  }

  lemma PushOrderly<T>(d: Duct<T>, m: T)
    requires Orderly(d) && |d.queue| < CAPACITY
    ensures Orderly(Push(d, m))
  {
    assert d.delivered + (d.queue + [m]) == (d.delivered + d.queue) + [m];
  }

  lemma PopOrderly<T>(d: Duct<T>)
    requires Orderly(d) && d.queue != []
    ensures Orderly(Pop(d))
  {
    assert d.queue == [d.queue[0]] + d.queue[1..];
  }

  /** Whatever the interleaving of writes, reads and closes, the messages read followed by those still
      buffered are the messages accepted, and at most sixteen are buffered. */
  lemma {:induction false} PipesAreFifo<T>(p: Pipe<T>, ops: seq<Op<T>>, p': Pipe<T>)
    requires Orderly(p.toRight) && Orderly(p.toLeft) && Runs(p, ops, p')
    ensures Orderly(p'.toRight) && Orderly(p'.toLeft)
    ensures |p'.toRight.queue| <= 16 && |p'.toLeft.queue| <= 16
    ensures p.closed ==> p'.closed
    decreases |ops|
  {
    if ops != [] {
      match ops[0] {
        case Write(s, m, ok) => if ok { PushOrderly(Out(p, s), m); }
        case Read(s, ok) => if ok { PopOrderly(In(p, s)); }
        case Close =>
      }
      PipesAreFifo(Perform(p, ops[0]), ops[1..], p');
    }
  }
}
