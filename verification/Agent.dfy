/** The agent's table of shells, and the loops of agent.go that run without interference: closing what
    is left, and reading a shell into frames through one reused buffer. */
module Agent {
  import opened Protocol
  import Threads

  /** A shell in a PTY: output it still holds, input it was given, and how often it was closed. */
  class Shell {
    var output: Bytes
    var fed: Bytes
    var closes: nat

    constructor (output: Bytes)
      ensures this.output == output && fed == [] && closes == 0
    {
      this.output := output;
      fed := [];
      closes := 0;
    }

    /** Reads at most a buffer; `eof` once there is nothing left to wait for. */
    method Read(buf: array<Byte>) returns (n: nat, eof: bool)
      modifies this`output, buf
      ensures n <= buf.Length && n <= |old(output)|
      ensures buf[..n] == old(output)[..n] && output == old(output)[n..]
      ensures n == 0 ==> eof || buf.Length == 0
      ensures eof ==> output == []
    {
      n := if |output| < buf.Length then |output| else buf.Length;
      var chunk := output;
      for i := 0 to n
        invariant output == old(output) == chunk
        invariant forall j | 0 <= j < i :: buf[j] == chunk[j]
      {
        buf[i] := chunk[i];
      }
      output := output[n..];
      eof := output == [];
    }

    method Write(data: Bytes)
      modifies this`fed
      ensures fed == old(fed) + data
    {
      fed := fed + data;
    }

    method Close()
      modifies this`closes
      ensures closes == old(closes) + 1
    {
      closes := closes + 1;
    }
  }

  datatype Frame = Out(session: SessionId, data: array<Byte>) | End(session: SessionId)

  /** The sending side of the control session; a failed write stays failed. */
  class Wire {
    var frames: seq<Frame>
    var room: nat

    constructor (room: nat)
      ensures frames == [] && this.room == room
    {
      frames := [];
      this.room := room;
    }

    method Send(f: Frame) returns (ok: bool)
      modifies this
      ensures ok <==> old(room) > 0
      ensures ok ==> frames == old(frames) + [f] && room == old(room) - 1
      ensures !ok ==> frames == old(frames) && room == old(room)
    {
      ok := room > 0;
      if ok {
        frames := frames + [f];
        room := room - 1;
      }
    }
  }

  ghost function Arrays(frames: seq<Frame>): set<object> {
    set f | f in frames && f.Out? :: f.data
  }

  /** The bytes that the `out` frames hold now. */
  ghost function Carried(frames: seq<Frame>): Bytes
    reads Arrays(frames)
  {
    if frames == [] then [] else
    var last := frames[|frames| - 1];
    assert Arrays(frames[..|frames| - 1]) <= Arrays(frames);
    Carried(frames[..|frames| - 1]) + if last.Out? then last.data[..] else []
  }

  lemma CarriedAppend(frames: seq<Frame>, f: Frame)
    ensures Carried(frames + [f]) == Carried(frames) + if f.Out? then f.data[..] else []
  {
    assert (frames + [f])[..|frames|] == frames;
  }

  /** agent.go:122-123. */
  method Copy(buf: array<Byte>, n: nat) returns (data: array<Byte>)
    requires n <= buf.Length
    ensures fresh(data) && data[..] == buf[..n]
  {
    data := new Byte[n];
    forall i | 0 <= i < n { data[i] := buf[i]; }
  }

  /** Frames with chunks of one session, none of them the buffer. */
  ghost predicate Chunks(frames: seq<Frame>, session: SessionId, buf: array<Byte>) {
    forall f | f in frames ::
      f.Out? && f.session == session && 0 < f.data.Length <= Threads.BUFFER_SIZE && f.data != buf
  }

  /** agent.go:120-127: one chunk is read, copied out of the buffer, and sent. `sent` are the frames of the
      earlier rounds, which hold what they held, and of this one. */
  method Round(sh: Shell, buf: array<Byte>, session: SessionId, wire: Wire, ghost before: seq<Frame>)
    returns (n: nat, eof: bool, ok: bool, ghost sent: seq<Frame>)
    requires buf.Length == Threads.BUFFER_SIZE && Chunks(before, session, buf)
    modifies sh`output, buf, wire
    ensures n <= |old(sh.output)| && sh.output == old(sh.output)[n..]
    ensures (n == 0 ==> eof && ok) && (eof ==> sh.output == [])
    ensures Chunks(sent, session, buf) && before <= sent && forall f | f in sent[|before|..] :: fresh(f.data)
    ensures wire.frames == old(wire.frames) + sent[|before|..] && wire.room == old(wire.room) - |sent[|before|..]|
    ensures |sent| == |before| + if ok && n > 0 then 1 else 0
    ensures !ok ==> n > 0 && wire.room == 0
    ensures Carried(sent) == old(Carried(before)) + if ok then old(sh.output)[..n] else []
  {
    ok, sent := true, before;
    assert buf !in Arrays(before);
    n, eof := sh.Read(buf);
    if n > 0 {
      var data := Copy(buf, n);
      ok := wire.Send(Out(session, data));
      if ok {
        CarriedAppend(before, Out(session, data));
        sent := before + [Out(session, data)];
      }
    }
  }

  /** The frames put on the wire after the first `n`. */
  function Added(frames: seq<Frame>, n: nat): seq<Frame> { if n <= |frames| then frames[n..] else [] }

  /** agent.go:117-131: every chunk is copied out of the buffer that the next read overwrites. The loop ends
      early only if the wire refused a frame; then output is missing. A wire with room for a frame for each
      byte takes it all, however the reads cut the output up. */
  method Pump(sh: Shell, session: SessionId, wire: Wire) returns (failed: bool)
    modifies sh, wire
    ensures old(wire.frames) <= wire.frames
    ensures var added := Added(wire.frames, old(|wire.frames|));
            && (forall f | f in added ::
                  f.Out? && f.session == session && 0 < f.data.Length <= 4096 && fresh(f.data))
            && Carried(added) <= old(sh.output)
            && (failed <==> Carried(added) != old(sh.output))
            && (failed ==> wire.room == 0 && |added| == old(wire.room))
    ensures old(wire.room) >= |old(sh.output)| ==> !failed
    ensures sh.closes == old(sh.closes) && sh.fed == old(sh.fed)
  {
    var buf := new Byte[Threads.BUFFER_SIZE];
    ghost var all, done := sh.output, 0;
    ghost var added: seq<Frame> := [];
    failed := false;
    while true
      invariant fresh(buf) && buf.Length == Threads.BUFFER_SIZE
      invariant wire.frames == old(wire.frames) + added
      invariant Chunks(added, session, buf) && forall f | f in added :: fresh(f.data)
      invariant 0 <= done <= |all| && sh.output == all[done..] && Carried(added) == all[..done]
      invariant wire.room + |added| == old(wire.room) && |added| <= done && !failed
      invariant sh.closes == old(sh.closes) && sh.fed == old(sh.fed)
      decreases |sh.output|
    {
      var n, eof, ok;
      n, eof, ok, added := Round(sh, buf, session, wire, added);
      if !ok {
        failed := true;
        break;
      }
      assert all[..done] + all[done..][..n] == all[..done + n];
      done := done + n;
      if eof { break; }
    }
    assert Added(wire.frames, old(|wire.frames|)) == added;
  }

  class Agent {
    var shells: map<SessionId, Shell>

    constructor ()
      ensures shells == map[]
    {
      shells := map[];
    }

    /** Each session has a shell of its own. */
    ghost predicate Distinct()
      reads this
    {
      forall s, t | s in shells && t in shells && s != t :: shells[s] != shells[t]
    }

    /** agent.go:112-114. */
    method Insert(session: SessionId, sh: Shell)
      requires Distinct() && sh !in shells.Values
      modifies this
      ensures Distinct() && shells == old(shells)[session := sh]
    {
      shells := shells[session := sh];
    }

    /** agent.go:136-143. */
    method Input(session: SessionId, data: Bytes)
      requires Distinct()
      modifies if session in shells then {shells[session]} else {}
      ensures session in shells ==> shells[session].fed == old(shells[session].fed) + data
      ensures forall s | s in shells && s != session :: shells[s].fed == old(shells[s].fed)
    {
      if session in shells {
        shells[session].Write(data);
      }
    }

    /** agent.go:145-154: whoever finds the shell in the table closes it and says so once. */
    method CloseShell(session: SessionId, wire: Wire)
      requires Distinct()
      modifies this, wire, if session in shells then {shells[session]} else {}
      ensures Distinct() && shells == old(shells) - {session}
      ensures session in old(shells) ==>
                old(shells)[session].closes == old(shells[session].closes) + 1
                && wire.frames == old(wire.frames) + if old(wire.room) > 0 then [End(session)] else []
      ensures session !in old(shells) ==> wire.frames == old(wire.frames)
      ensures forall s | s in old(shells) && s != session :: old(shells)[s].closes == old(shells[s].closes)
    {
      if session in shells {
        var sh := shells[session];
        shells := shells - {session};
        sh.Close();
        var _ := wire.Send(End(session));
      } else {
        shells := shells - {session};
      }
    }

    /** agent.go:156-164: takes the whole table, then closes what it took. */
    method CloseAll()
      requires Distinct()
      modifies this, shells.Values
      ensures shells == map[]
      ensures forall s | s in old(shells) :: old(shells)[s].closes == old(shells[s].closes) + 1
    {
      var taken := shells;
      shells := map[];
      var left := taken.Keys;
      while left != {}
        invariant left <= taken.Keys && shells == map[]
        invariant forall s | s in taken :: taken[s].closes == old(shells[s].closes) + if s in left then 0 else 1
        decreases left
      {
        var s :| s in left;
        taken[s].Close();
        left := left - {s};
      }
    }
  }
}
