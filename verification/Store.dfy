/** The identity service's store, internal/auth/store.go: what each method does to the data in memory,
    and a small file system on which a crash may strike between any two system calls and inside a
    write. The file holds the data themselves: JSON is taken as lossless. */
module Store {
  import opened Protocol

  type Time = int

  datatype Credential = Credential(id: Bytes, signCount: nat)

  datatype User = User(id: Bytes, name: string, credentials: seq<Credential>, totp: string)

  predicate HasTOTP(u: User) { u.totp != "" }

  datatype Ticket = Ticket(username: string, expires: Time)

  datatype Data = Data(users: map<string, User>, invites: map<string, Ticket>, agentTokens: map<string, Ticket>)

  const EMPTY := Data(map[], map[], map[])

  // ----- tokens -----

  function HexDigit(n: nat): char
    requires n < 16
  {
    "0123456789abcdef"[n]
  }

  function Hex(b: Bytes): string {
    if b == [] then "" else Hex(b[..|b| - 1]) + [HexDigit(b[|b| - 1] / 16), HexDigit(b[|b| - 1] % 16)]
  }

  /** store.go:195-204. */
  method RandomToken(b: Bytes) returns (tok: string)
    ensures tok == Hex(b) && |tok| == 2 * |b|
  {
    var out := new char[2 * |b|](_ => '0');
    for i := 0 to |b|
      invariant out[..2 * i] == Hex(b[..i])
    {
      out[2 * i] := HexDigit(b[i] / 16);
      out[2 * i + 1] := HexDigit(b[i] % 16);
      assert b[..i + 1][..i] == b[..i];
      assert out[..2 * (i + 1)] == out[..2 * i] + [HexDigit(b[i] / 16), HexDigit(b[i] % 16)];
    }
    assert b[..|b|] == b;
    tok := out[..];
  }

  lemma HexDigitsDiffer(m: nat, n: nat)
    requires m < 16 && n < 16 && HexDigit(m) == HexDigit(n)
    ensures m == n
  {
  }

  /** Different random bytes give different tokens. */
  lemma {:induction false} HexIsInjective(a: Bytes, b: Bytes)
    requires Hex(a) == Hex(b)
    ensures a == b
    decreases |a|
  {
    if a != [] && b != [] {
      var x, y := a[|a| - 1], b[|b| - 1];
      var p, q := Hex(a[..|a| - 1]), Hex(b[..|b| - 1]);
      var n := |Hex(a)|;
      assert Hex(a)[n - 2] == HexDigit(x / 16) && Hex(a)[n - 1] == HexDigit(x % 16);
      assert Hex(b)[n - 2] == HexDigit(y / 16) && Hex(b)[n - 1] == HexDigit(y % 16);
      HexDigitsDiffer(x / 16, y / 16);
      HexDigitsDiffer(x % 16, y % 16);
      assert p == Hex(a)[..n - 2] && q == Hex(b)[..n - 2];
      HexIsInjective(a[..|a| - 1], b[..|b| - 1]);
      assert a == a[..|a| - 1] + [x] && b == b[..|b| - 1] + [y];
    }
  }

  /** What a hexadecimal digit stands for. */
  function DigitValue(c: char): Option<nat> {
    if '0' <= c <= '9' then Some(c as nat - '0' as nat)
    else if 'a' <= c <= 'f' then Some(c as nat - 'a' as nat + 10)
    else None
  }

  lemma DigitsAreValues(n: nat)
    requires n < 16
    ensures DigitValue(HexDigit(n)) == Some(n)
  {
  }

  /** Two digits for each byte, in order, the higher one first. */
  lemma {:induction false} HexReadsBack(b: Bytes, i: nat)
    requires i < |b|
    ensures |Hex(b)| == 2 * |b|
    ensures DigitValue(Hex(b)[2 * i]).Some? && DigitValue(Hex(b)[2 * i + 1]).Some?
    ensures b[i] == 16 * DigitValue(Hex(b)[2 * i]).value + DigitValue(Hex(b)[2 * i + 1]).value
  {
    var n := |b| - 1;
    DigitsAreValues(b[n] / 16);
    DigitsAreValues(b[n] % 16);
    if i < n { HexReadsBack(b[..n], i); } else if n > 0 { HexReadsBack(b[..n], 0); }
  }

  // ----- the methods, on the data in memory -----

  datatype Op =
    | CreateUser(name: string, id: Bytes)
    | PutUser(u: User)
    | CreateInvite(tok: string, username: string, expires: Time)
    | ConsumeInvite(tok: string, now: Time)
    | CreateAgentToken(tok: string, expires: Time)
    | CheckAgentToken(tok: string, now: Time)

  function After(d: Data, op: Op): Data {
    match op
    case CreateUser(name, id) => if name in d.users then d else d.(users := d.users[name := User(id, name, [], "")])
    case PutUser(u) => d.(users := d.users[u.name := u])
    case CreateInvite(tok, username, expires) => d.(invites := d.invites[tok := Ticket(username, expires)])
    case ConsumeInvite(tok, _) => d.(invites := d.invites - {tok})
    case CreateAgentToken(tok, expires) => d.(agentTokens := d.agentTokens[tok := Ticket("", expires)])
    case CheckAgentToken(tok, _) => d.(agentTokens := d.agentTokens - {tok})
  }

  /** Whether the method gets as far as `save`. */
  predicate Saves(d: Data, op: Op) {
    match op
    case CreateUser(name, _) => name !in d.users
    case CheckAgentToken(tok, _) => tok in d.agentTokens
    case _ => true
  }

  /** store.go:184: the token was there and has not expired; whether it was saved does not count. */
  predicate Accepts(d: Data, tok: string, now: Time) {
    tok in d.agentTokens && now < d.agentTokens[tok].expires
  }

  /** store.go:143-144 and 154-155: an invite still counts at the instant of its expiry. */
  predicate Invited(d: Data, tok: string, now: Time) {
    tok in d.invites && now <= d.invites[tok].expires
  }

  // ----- files -----

  /** `Part` is a file that holds the first bytes of a rendering. */
  datatype File = Absent | Whole(d: Data) | Part(d: Data, written: nat)

  datatype Disk = Disk(main: File, tmp: File)

  /** How far a save has come. */
  datatype Point = Untouched | Writing(written: nat) | Written | Renamed

  function DiskAt(disk: Disk, d: Data, at: Point): Disk {
    match at
    case Untouched => disk
    case Writing(n) => disk.(tmp := Part(d, n))
    case Written => disk.(tmp := Whole(d))
    case Renamed => Disk(Whole(d), Absent)
  }

  /** What OpenStore makes of the file; a broken file is an error. */
  function Recover(disk: Disk): Option<Data> {
    match disk.main
    case Absent => Some(EMPTY)
    case Whole(d) => Some(d)
    case Part(_, _) => None
  }

  /** The file system. `trace` lists every state the disk has been in. */
  class FileSystem {
    var disk: Disk
    ghost var trace: seq<Disk>

    constructor ()
      ensures disk == Disk(Absent, Absent) && trace == [disk]
    {
      disk := Disk(Absent, Absent);
      trace := [Disk(Absent, Absent)];
    }

    /** Whatever instant a crash picks since `from`, the store file was as described. */
    ghost predicate Since(from: nat, before: File, after: File)
      reads this
    {
      from <= |trace| && forall i | from <= i < |trace| :: trace[i].main == before || trace[i].main == after
    }

    /** Truncates the file and fills it piece by piece; `pieces` of them are written if it fails. */
    method WriteTmp(d: Data, pieces: nat, ok: bool)
      modifies this
      ensures disk == old(disk).(tmp := if ok then Whole(d) else Part(d, pieces))
      ensures old(trace) <= trace && forall i | |old(trace)| <= i < |trace| :: trace[i].main == old(disk).main
      ensures trace != [] && trace[|trace| - 1] == disk
    {
      disk := disk.(tmp := Part(d, 0));
      trace := trace + [disk];
      for n := 0 to pieces
        invariant disk == old(disk).(tmp := Part(d, n))
        invariant old(trace) < trace && trace[|trace| - 1] == disk
        invariant forall i | |old(trace)| <= i < |trace| :: trace[i].main == old(disk).main
      {
        disk := disk.(tmp := Part(d, n + 1));
        trace := trace + [disk];
      }
      if ok {
        disk := disk.(tmp := Whole(d));
        trace := trace + [disk];
      }
    }

    /** Replaces the store file in one step. */
    method RenameTmp()
      modifies this
      ensures disk == Disk(old(disk).tmp, Absent) && trace == old(trace) + [disk]
    {
      disk := Disk(disk.tmp, Absent);
      trace := trace + [disk];
    }
  }

  datatype Fault = NoFault | MkdirFails | WriteFails(pieces: nat) | RenameFails

  /** The disk after a save that ended in the given way. */
  function SavedDisk(disk: Disk, d: Data, f: Fault): Disk {
    match f
    case NoFault => DiskAt(disk, d, Renamed)
    case MkdirFails => disk
    case WriteFails(n) => DiskAt(disk, d, Writing(n))
    case RenameFails => DiskAt(disk, d, Written)
  }

  class Store {
    const persistent: bool
    const fs: FileSystem
    var d: Data

    /** store.go:56-76, once there is something to open. */
    constructor (persistent: bool, fs: FileSystem)
      requires persistent ==> Recover(fs.disk).Some?
      ensures this.persistent == persistent && this.fs == fs
      ensures d == if persistent then Recover(fs.disk).value else EMPTY
    {
      this.persistent := persistent;
      this.fs := fs;
      d := if persistent && fs.disk.main.Whole? then fs.disk.main.d else EMPTY;
    }

    /** The disk after this method, and every instant of it. */
    twostate predicate Saved(f: Fault)
      reads this, fs
    {
      && fs.disk == (if persistent then SavedDisk(old(fs.disk), d, f) else old(fs.disk))
      && fs.Since(|old(fs.trace)|, old(fs.disk).main, Whole(d))
    }

    twostate predicate Unsaved()
      reads this, fs
    {
      d == old(d) && fs.disk == old(fs.disk) && fs.trace == old(fs.trace)
    }

    /** store.go:79-95. */
    method Save(f: Fault) returns (ok: bool)
      modifies fs
      ensures Saved(f)
      ensures ok <==> !persistent || f.NoFault?
    {
      if !persistent { return true; }
      if f.MkdirFails? { return false; }
      fs.WriteTmp(d, if f.WriteFails? then f.pieces else 0, !f.WriteFails?);
      if f.WriteFails? || f.RenameFails? { return false; }
      fs.RenameTmp();
      return true;
    }

    /** store.go:98-106. */
    method GetUser(name: string) returns (u: Option<User>)
      ensures u == if name in d.users then Some(d.users[name]) else None
    {
      if name in d.users { u := Some(d.users[name]); } else { u := None; }
    }

    /** store.go:109-118. */
    method CreateUser(name: string, id: Bytes, f: Fault) returns (u: Option<User>, ok: bool)
      modifies this, fs
      ensures d == After(old(d), Op.CreateUser(name, id))
      ensures if name in old(d).users then Unsaved() else Saved(f)
      ensures u.Some? <==> name !in old(d).users
      ensures u.Some? ==> d.users[name] == u.value
      ensures ok <==> u.Some? && (!persistent || f.NoFault?)
    {
      if name in d.users { return None, false; }
      u := Some(User(id, name, [], ""));
      d := d.(users := d.users[name := u.value]);
      ok := Save(f);
    }

    /** store.go:122-127. */
    method PutUser(u: User, f: Fault) returns (ok: bool)
      modifies this, fs
      ensures d == After(old(d), Op.PutUser(u)) && Saved(f)
      ensures ok <==> !persistent || f.NoFault?
    {
      d := d.(users := d.users[u.name := u]);
      ok := Save(f);
    }

    /** store.go:130-136. */
    method CreateInvite(tok: string, username: string, expires: Time, f: Fault) returns (ok: bool)
      modifies this, fs
      ensures d == After(old(d), Op.CreateInvite(tok, username, expires)) && Saved(f)
      ensures ok <==> !persistent || f.NoFault?
    {
      d := d.(invites := d.invites[tok := Ticket(username, expires)]);
      ok := Save(f);
    }

    /** store.go:140-148. */
    method PeekInvite(tok: string, now: Time) returns (username: Option<string>)
      ensures username == if Invited(d, tok, now) then Some(d.invites[tok].username) else None
    {
      if tok !in d.invites || now > d.invites[tok].expires { return None; }
      username := Some(d.invites[tok].username);
    }

    /** store.go:151-162: the invite goes, valid or not. */
    method ConsumeInvite(tok: string, now: Time, f: Fault) returns (username: Option<string>, ok: bool)
      modifies this, fs
      ensures d == After(old(d), Op.ConsumeInvite(tok, now)) && Saved(f)
      ensures username == if Invited(old(d), tok, now) then Some(old(d).invites[tok].username) else None
      ensures ok <==> username.Some? && (!persistent || f.NoFault?)
    {
      var inv := if tok in d.invites then Some(d.invites[tok]) else None;
      if inv.None? || now > inv.value.expires {
        d := d.(invites := d.invites - {tok});
        ok := Save(f);
        return None, false;
      }
      d := d.(invites := d.invites - {tok});
      username := Some(inv.value.username);
      ok := Save(f);
    }

    /** store.go:165-171. */
    method CreateAgentToken(tok: string, expires: Time, f: Fault) returns (ok: bool)
      modifies this, fs
      ensures d == After(old(d), Op.CreateAgentToken(tok, expires)) && Saved(f)
      ensures ok <==> !persistent || f.NoFault?
    {
      d := d.(agentTokens := d.agentTokens[tok := Ticket("", expires)]);
      ok := Save(f);
    }

    /** store.go:175-185: the answer does not depend on the save. */
    method CheckAgentToken(tok: string, now: Time, f: Fault) returns (ok: bool)
      modifies this, fs
      ensures d == After(old(d), Op.CheckAgentToken(tok, now))
      ensures if tok in old(d).agentTokens then Saved(f) else Unsaved()
      ensures ok <==> Accepts(old(d), tok, now)
    {
      if tok !in d.agentTokens { return false; }
      var at := d.agentTokens[tok];
      d := d.(agentTokens := d.agentTokens - {tok});
      var _ := Save(f);
      ok := now < at.expires;
    }
  }

  /** store.go:56-76: a file that cannot be read, or that is broken, is an error; no file is an empty store. */
  method OpenStore(persistent: bool, fs: FileSystem, readable: bool) returns (s: Store?)
    ensures s != null <==> !persistent || fs.disk.main.Absent? || (readable && fs.disk.main.Whole?)
    ensures s != null ==> fresh(s) && s.persistent == persistent && s.fs == fs
    ensures s != null ==> s.d == if persistent && fs.disk.main.Whole? then fs.disk.main.d else EMPTY
  {
    if persistent && !fs.disk.main.Absent? {
      if !readable || fs.disk.main.Part? { return null; }
    }
    s := new Store(persistent, fs);
  }
}
