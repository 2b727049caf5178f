/** transport.Pipe on real buffers: a message is copied when it is written, so that what the writer does
    with its array afterwards never shows at the other end. */
module Transport {
  import opened Protocol
  import F = Fifo

  datatype Outcome = Done | Closed | Waits

  /** What the arrays hold now. */
  ghost function Snapshot(q: seq<array<Byte>>): (c: seq<Bytes>)
    reads set b | b in q :: b
    ensures |c| == |q| && forall i | 0 <= i < |q| :: c[i] == q[i][..]
  {
    if q == [] then [] else
    assert q[0] in q && forall b | b in q[1..] :: b in q;
    [q[0][..]] + Snapshot(q[1..])
  }

  /** A buffered Go channel of byte slices. */
  class Chan {
    var buffers: seq<array<Byte>>
    ghost var accepted: seq<Bytes>
    ghost var delivered: seq<Bytes>

    ghost function Buffers(): set<object>
      reads this
    {
      set b | b in buffers :: b
    }

    /** The messages buffered, as they are now. */
    ghost function Contents(): (c: seq<Bytes>)
      reads this, Buffers()
      ensures |c| == |buffers| && forall i | 0 <= i < |buffers| :: c[i] == buffers[i][..]
    {
      Snapshot(buffers)
    }

    ghost function View(): F.Duct<Bytes>
      reads this, Buffers()
    {
      F.Duct(Contents(), accepted, delivered)
    }

    ghost predicate Valid()
      reads this, Buffers()
    {
      F.Orderly(View())
    }

    constructor ()
      ensures Valid() && View() == F.Duct([], [], []) && buffers == []
    {
      buffers, accepted, delivered := [], [], [];
    }
  }

  /** The `closed` channel and its `sync.Once`. */
  class Latch {
    var shut: bool

    constructor ()
      ensures !shut
    {
      shut := false;
    }
  }

  method Copy(b: array<Byte>) returns (cp: array<Byte>)
    ensures fresh(cp) && cp[..] == b[..]
  {
    cp := new Byte[b.Length];
    forall i | 0 <= i < b.Length { cp[i] := b[i]; }
  }

  class PipeConn {
    const input: Chan
    const output: Chan
    const closed: Latch

    constructor (input: Chan, output: Chan, closed: Latch)
      ensures this.input == input && this.output == output && this.closed == closed
    {
      this.input := input;
      this.output := output;
      this.closed := closed;
    }

    /** `first` tells which ready case the select takes. */
    method WriteMsg(b: array<Byte>, first: bool) returns (o: Outcome)
      requires output.Valid()
      modifies output
      ensures output.Valid()
      ensures o == Done ==> old(|output.buffers|) < F.CAPACITY
                            && output.View() == F.Push(old(output.View()), b[..])
                            && (exists cp :: fresh(cp) && output.buffers == old(output.buffers) + [cp])
      ensures o != Done ==> output.buffers == old(output.buffers) && output.View() == old(output.View())
      ensures o == Closed ==> closed.shut
      ensures o == Waits <==> !closed.shut && old(|output.buffers|) == F.CAPACITY
    {
      var cp := Copy(b);
      var room := |output.buffers| < F.CAPACITY;
      if room && (first || !closed.shut) {
        ghost var before := output.View();
        output.buffers := output.buffers + [cp];
        output.accepted := output.accepted + [b[..]];
        assert output.Contents() == before.queue + [b[..]];
        F.PushOrderly(before, b[..]);
        o := Done;
      } else if closed.shut {
        o := Closed;
      } else {
        o := Waits;
      }
    }

    method ReadMsg(first: bool) returns (o: Outcome, b: array?<Byte>)
      requires input.Valid()
      modifies input
      ensures input.Valid()
      ensures o == Done ==> old(input.buffers) != [] && b == old(input.buffers)[0]
                            && input.buffers == old(input.buffers)[1..]
                            && b[..] == old(input.View()).queue[0]
                            && input.View() == F.Pop(old(input.View()))
      ensures o != Done ==> b == null && input.buffers == old(input.buffers) && input.View() == old(input.View())
      ensures o == Closed ==> closed.shut
      ensures o == Waits <==> !closed.shut && old(input.buffers) == []
    {
      b := null;
      if input.buffers != [] && (first || !closed.shut) {
        ghost var before := input.View();
        b := input.buffers[0];
        input.buffers := input.buffers[1..];
        input.delivered := input.delivered + [b[..]];
        assert input.Contents() == before.queue[1..];
        F.PopOrderly(before);
        o := Done;
      } else if closed.shut {
        o := Closed;
      } else {
        o := Waits;
      }
    }

    method Close()
      modifies closed
      ensures closed.shut
    {
      if !closed.shut { closed.shut := true; }
    }
  }

  method NewPipe() returns (a: PipeConn, b: PipeConn)
    ensures a.output == b.input && b.output == a.input && a.output != a.input && a.closed == b.closed
    ensures !a.closed.shut && a.output.Valid() && a.input.Valid() && a.output.buffers == [] && a.input.buffers == []
    ensures fresh(a) && fresh(b) && fresh(a.output) && fresh(a.input) && fresh(a.closed)
  {
    var ab := new Chan();
    var ba := new Chan();
    var closed := new Latch();
    a := new PipeConn(ba, ab, closed);
    b := new PipeConn(ab, ba, closed);
  }

  /** Whatever is written over the caller's array after it was sent, the reader gets what was sent. */
  method SendThenOverwrite(msg: array<Byte>, junk: Byte) returns (got: array?<Byte>)
    modifies msg
    ensures got != null && got != msg && got[..] == old(msg[..])
  {
    var a, b := NewPipe();
    var sent := a.WriteMsg(msg, true);
    label written:
    for i := 0 to msg.Length
      invariant a.output.Valid() && a.output.buffers == old@written(a.output.buffers)
      invariant a.output.View() == old@written(a.output.View())
      invariant !b.closed.shut
    {
      msg[i] := junk;
    }
    var o;
    o, got := b.ReadMsg(true);
  }
}
