/** Identity files and authorized-key files of internal/secure/secure.go. */
module Identity {
  import opened Protocol
  import B = Base64

  datatype Keypair = Keypair(public: Bytes, private: Bytes)

  datatype Error = Malformed | BadBase64 | Unreadable | Unwritable
  datatype Result<+T> = Ok(value: T) | Err(error: Error)

  // ----- strings.Fields -----

  /** unicode.IsSpace. */
  predicate IsSpace(c: char) {
    || '\t' <= c <= '\r' || c == ' ' || c == 0x85 as char || c == 0xA0 as char || c == 0x1680 as char
    || 0x2000 as char <= c <= 0x200A as char || c == 0x2028 as char || c == 0x2029 as char
    || c == 0x202F as char || c == 0x205F as char || c == 0x3000 as char
  }

  /** The length of the word at the front. */
  function Word(s: string): (n: nat)
    ensures n <= |s|
    ensures forall i | 0 <= i < n :: !IsSpace(s[i])
    ensures n < |s| ==> IsSpace(s[n])
  {
    if s == "" || IsSpace(s[0]) then 0 else 1 + Word(s[1..])
  }

  lemma {:induction false} WordEnds(s: string, n: nat)
    requires n <= |s| && (forall i | 0 <= i < n :: !IsSpace(s[i])) && (n < |s| ==> IsSpace(s[n]))
    ensures Word(s) == n
  {
    if n > 0 { WordEnds(s[1..], n - 1); }
  }

  function Fields(s: string): seq<string>
    decreases |s|
  {
    if s == "" then []
    else if IsSpace(s[0]) then Fields(s[1..])
    else [s[..Word(s)]] + Fields(s[Word(s)..])
  }

  predicate Solid(w: string) { forall i | 0 <= i < |w| :: !IsSpace(w[i]) }

  lemma WordThenSpace(w: string, c: char, rest: string)
    requires Solid(w) && IsSpace(c)
    ensures Fields(w + [c] + rest) == if w == "" then Fields(rest) else [w] + Fields(rest)
  {
    var s := w + [c] + rest;
    if w == "" {
      assert s[1..] == rest;
    } else {
      assert s[|w|] == c;
      WordEnds(s, |w|);
      assert s[..Word(s)] == w && s[Word(s)..] == [c] + rest;
      assert ([c] + rest)[1..] == rest;
    }
  }

  lemma PlainIsSolid(s: string)
    requires B.Plain(s)
    ensures Solid(s)
  {
  }

  // ----- identity files -----

  /** secure.go:104. */
  function Render(kp: Keypair): string { B.Encode(kp.private) + "\n" + B.Encode(kp.public) + "\n" }

  /** secure.go:81-90. */
  function Parse(text: string): Result<Keypair> {
    var fields := Fields(text);
    if |fields| < 2 then Err(Malformed) else
    var private, public := B.Decode(fields[0]), B.Decode(fields[1]);
    if private.None? || public.None? then Err(BadBase64) else Ok(Keypair(public.value, private.value))
  }

  lemma RenderedFields(kp: Keypair)
    ensures Fields(Render(kp)) == (if kp.private == [] then [] else [B.Encode(kp.private)])
                                  + (if kp.public == [] then [] else [B.Encode(kp.public)])
  {
    var a, b := B.Encode(kp.private), B.Encode(kp.public);
    B.EncodingIsPlain(kp.private);
    B.EncodingIsPlain(kp.public);
    PlainIsSolid(a);
    PlainIsSolid(b);
    assert Render(kp) == a + ['\n'] + (b + ['\n'] + "");
    WordThenSpace(a, '\n', b + ['\n'] + "");
    WordThenSpace(b, '\n', "");
  }

  /** The file written on first use reads back as the same keypair, exactly when neither key is empty. */
  lemma IdentityRoundTrip(kp: Keypair)
    ensures Parse(Render(kp)) == Ok(kp) <==> kp.private != [] && kp.public != []
    ensures kp.private == [] || kp.public == [] ==> Parse(Render(kp)) == Err(Malformed)
  {
    RenderedFields(kp);
    B.RoundTrip(kp.private);
    B.RoundTrip(kp.public);
  }

  /** Files by path; `faulty` holds the paths that cannot be read or written for other reasons. */
  class Disk {
    var files: map<string, string>
    var faulty: set<string>

    constructor ()
      ensures files == map[] && faulty == {}
    {
      files := map[];
      faulty := {};
    }
  }

  /** secure.go:78-109; `generated` is the keypair that GenerateKeypair would return. */
  method LoadOrCreateIdentity(disk: Disk, path: string, generated: Keypair) returns (r: Result<Keypair>)
    modifies disk`files
    ensures path in old(disk.files) && path !in disk.faulty ==>
              r == Parse(old(disk.files)[path]) && disk.files == old(disk.files)
    ensures path !in old(disk.files) && path !in disk.faulty ==>
              r == Ok(generated) && disk.files == old(disk.files)[path := Render(generated)]
    ensures path in disk.faulty ==> r.Err? && disk.files == old(disk.files)
  {
    if path in disk.files {
      if path in disk.faulty { return Err(Unreadable); }
      var fields := Fields(disk.files[path]);
      if |fields| < 2 { return Err(Malformed); }
      var private := B.Decode(fields[0]);
      var public := B.Decode(fields[1]);
      if private.None? || public.None? { return Err(BadBase64); }
      return Ok(Keypair(public.value, private.value));
    }
    if path in disk.faulty { return Err(Unwritable); }
    disk.files := disk.files[path := B.Encode(generated.private) + "\n" + B.Encode(generated.public) + "\n"];
    return Ok(generated);
  }

  /** A device keeps the identity it was given on first use: the second load finds it, and leaves the
      file as it was for the third. */
  method LoadTwice(disk: Disk, path: string, first: Keypair, second: Keypair) returns (a: Result<Keypair>, b: Result<Keypair>)
    requires path !in disk.files && path !in disk.faulty
    requires first.private != [] && first.public != []
    modifies disk`files
    ensures a == Ok(first) && b == Ok(first)
    ensures path in disk.files && Parse(disk.files[path]) == Ok(first) && path !in disk.faulty
  {
    a := LoadOrCreateIdentity(disk, path, first);
    IdentityRoundTrip(first);
    b := LoadOrCreateIdentity(disk, path, second);
  }

  // ----- authorized-key files -----

  function TrimLeft(s: string): string {
    if s != "" && IsSpace(s[0]) then TrimLeft(s[1..]) else s
  }

  function TrimRight(s: string): string {
    if s != "" && IsSpace(s[|s| - 1]) then TrimRight(s[..|s| - 1]) else s
  }

  function TrimSpace(s: string): string { TrimRight(TrimLeft(s)) }

  lemma {:induction false} TrimLeftKeepsFields(s: string)
    ensures Fields(TrimLeft(s)) == Fields(s)
  {
    if s != "" && IsSpace(s[0]) {
      TrimLeftKeepsFields(s[1..]);
    }
  }

  lemma {:induction false} SpaceAtTheEnd(s: string, c: char)
    requires IsSpace(c)
    ensures Fields(s + [c]) == Fields(s)
    decreases |s|
  {
    if s == "" {
      assert ([c])[1..] == "";
    } else if IsSpace(s[0]) {
      assert (s + [c])[1..] == s[1..] + [c];
      SpaceAtTheEnd(s[1..], c);
    } else {
      var n := Word(s);
      assert (s + [c])[n] == if n < |s| then s[n] else c;
      WordEnds(s + [c], n);
      assert (s + [c])[..n] == s[..n] && (s + [c])[n..] == s[n..] + [c];
      SpaceAtTheEnd(s[n..], c);
    }
  }

  lemma {:induction false} TrimRightKeepsFields(s: string)
    ensures Fields(TrimRight(s)) == Fields(s)
  {
    if s != "" && IsSpace(s[|s| - 1]) {
      TrimRightKeepsFields(s[..|s| - 1]);
      SpaceAtTheEnd(s[..|s| - 1], s[|s| - 1]);
      assert s == s[..|s| - 1] + [s[|s| - 1]];
    }
  }

  /** A line of the file: nothing, a comment, or a key with a label. */
  predicate Skipped(line: string) {
    var text := TrimSpace(line);
    text == "" || text[0] == '#'
  }

  lemma {:induction false} SomeField(s: string)
    requires s != "" && !IsSpace(s[0])
    ensures Fields(s) != []
  {
  }

  lemma {:induction false} TrimmedHead(line: string)
    ensures TrimSpace(line) != "" ==> !IsSpace(TrimSpace(line)[0])
  {
    LeftHead(line);
    RightHead(TrimLeft(line));
  }

  lemma {:induction false} LeftHead(s: string)
    ensures TrimLeft(s) != "" ==> !IsSpace(TrimLeft(s)[0])
  {
    if s != "" && IsSpace(s[0]) { LeftHead(s[1..]); }
  }

  lemma {:induction false} RightHead(s: string)
    ensures TrimRight(s) != "" ==> TrimRight(s)[0] == s[0]
  {
    if s != "" && IsSpace(s[|s| - 1]) { RightHead(s[..|s| - 1]); }
  }

  /** The keys of the first lines of a file, or the line that stops the scan. */
  function KeysOf(lines: seq<string>): Result<seq<Bytes>> {
    if lines == [] then Ok([]) else
    var before, line := KeysOf(lines[..|lines| - 1]), lines[|lines| - 1];
    if before.Err? || Skipped(line) then before else
    var fields := Fields(TrimSpace(line));
    if fields == [] then Err(Malformed) else
    var key := B.Decode(fields[0]);
    if key.None? then Err(BadBase64) else Ok(before.value + [key.value])
  }

  /** secure.go:125-146: `lines` are those that the scanner returns, if the file could be opened; it may
      stop after them with an error. */
  method LoadAuthorizedKeys(lines: Option<seq<string>>, stopped: bool) returns (r: Result<seq<Bytes>>)
    ensures lines.None? ==> r == Err(Unreadable)
    ensures lines.Some? && (KeysOf(lines.value).Err? || !stopped) ==> r == KeysOf(lines.value)
    ensures lines.Some? && KeysOf(lines.value).Ok? && stopped ==> r == Err(Unreadable)
  {
    if lines.None? { return Err(Unreadable); }
    var q := lines.value;
    var keys: seq<Bytes> := [];
    for n := 0 to |q|
      invariant KeysOf(q[..n]) == Ok(keys)
    {
      assert q[..n + 1][..n] == q[..n];
      var text := TrimSpace(q[n]);
      if text == "" || text[0] == '#' { continue; }
      TrimmedHead(q[n]);
      SomeField(text);
      var key := B.Decode(Fields(text)[0]);
      if key.None? {
        StaysBad(q, n + 1);
        return Err(BadBase64);
      }
      keys := keys + [key.value];
    }
    assert q[..|q|] == q;
    if stopped { return Err(Unreadable); }
    return Ok(keys);
  }

  lemma {:induction false} StaysBad(lines: seq<string>, n: nat)
    requires n <= |lines| && KeysOf(lines[..n]).Err?
    ensures KeysOf(lines) == KeysOf(lines[..n])
    decreases |lines|
  {
    if n == |lines| {
      assert lines[..n] == lines;
    } else {
      assert lines[..|lines| - 1][..n] == lines[..n];
      StaysBad(lines[..|lines| - 1], n);
    }
  }

  /** A line that is neither empty nor a comment, and whose first word is not base64. */
  predicate Broken(line: string) {
    !Skipped(line) && (Fields(TrimSpace(line)) == [] || B.Decode(Fields(TrimSpace(line))[0]).None?)
  }

  /** The scan fails exactly if some line is broken, wherever it stands. */
  lemma {:induction false} BrokenLinesStopTheScan(lines: seq<string>)
    ensures KeysOf(lines).Err? <==> exists i :: 0 <= i < |lines| && Broken(lines[i])
  {
    if lines != [] {
      var n := |lines| - 1;
      BrokenLinesStopTheScan(lines[..n]);
      assert forall i | 0 <= i < n :: lines[..n][i] == lines[i];
      if KeysOf(lines[..n]).Err? {
        var i :| 0 <= i < n && Broken(lines[..n][i]);
        assert Broken(lines[i]);
      } else {
        assert forall i | 0 <= i < n :: !Broken(lines[i]) by {
          forall i | 0 <= i < n
            ensures !Broken(lines[i])
          {
            assert lines[..n][i] == lines[i];
          }
        }
        if Broken(lines[n]) { assert KeysOf(lines).Err?; }
      }
    }
  }

  /** A key with a character that base64 does not have breaks its line. */
  lemma StrangeKeysAreBroken(w: string, i: nat)
    requires i < |w| && Solid(w) && w[0] != '#' && B.Value(w[i]).None? && w[i] != '='
    ensures Broken(w)
  {
    assert "" + w == w;
    TrimIndent("", w);
    TrimRightKeepsFields(w);
    TrimRightKeepsHead(w);
    assert w + "" == w;
    FirstField(w, "");
    B.StrangersDoNotDecode(w, i);
  }

  /** An entry as an operator writes it. */
  datatype Entry = Blank(spaces: string) | Comment(indent: string, text: string) | Key(indent: string, key: Bytes, tag: string)

  predicate Spaces(s: string) { forall i | 0 <= i < |s| :: IsSpace(s[i]) }

  predicate WellFormed(e: Entry) {
    match e
    case Blank(spaces) => Spaces(spaces)
    case Comment(indent, _) => Spaces(indent)
    case Key(indent, key, tag) => Spaces(indent) && key != [] && (tag == "" || IsSpace(tag[0]))
  }

  function Line(e: Entry): string {
    match e
    case Blank(spaces) => spaces
    case Comment(indent, text) => indent + "#" + text
    case Key(indent, key, tag) => indent + B.Encode(key) + tag
  }

  function Lines(es: seq<Entry>): seq<string> {
    if es == [] then [] else Lines(es[..|es| - 1]) + [Line(es[|es| - 1])]
  }

  function Listed(es: seq<Entry>): seq<Bytes> {
    if es == [] then [] else
    var e := es[|es| - 1];
    Listed(es[..|es| - 1]) + if e.Key? then [e.key] else []
  }

  lemma {:induction false} TrimIndent(indent: string, rest: string)
    requires Spaces(indent) && (rest == "" || !IsSpace(rest[0]))
    ensures TrimLeft(indent + rest) == rest
  {
    if indent == "" {
      assert indent + rest == rest;
    } else {
      assert (indent + rest)[1..] == indent[1..] + rest;
      TrimIndent(indent[1..], rest);
    }
  }

  lemma {:induction false} TrimRightKeepsHead(s: string)
    requires s != "" && !IsSpace(s[0])
    ensures TrimRight(s) != "" && TrimRight(s)[0] == s[0]
  {
    if IsSpace(s[|s| - 1]) {
      TrimRightKeepsHead(s[..|s| - 1]);
    }
  }

  lemma FirstField(w: string, tag: string)
    requires w != "" && Solid(w) && (tag == "" || IsSpace(tag[0]))
    ensures Fields(w + tag) != [] && Fields(w + tag)[0] == w
  {
    if tag == "" {
      WordEnds(w, |w|);
      assert w + tag == w && w[..|w|] == w;
    } else {
      assert w + tag == w + [tag[0]] + tag[1..];
      WordThenSpace(w, tag[0], tag[1..]);
    }
  }

  /** What follows the indentation starts with the encoded key, and so does its first field. */
  lemma KeyRest(key: Bytes, tag: string)
    requires key != [] && (tag == "" || IsSpace(tag[0]))
    ensures var w, rest := B.Encode(key), B.Encode(key) + tag;
            && rest != "" && !IsSpace(rest[0]) && rest[0] != '#'
            && TrimRight(rest) != "" && TrimRight(rest)[0] == rest[0]
            && Fields(TrimRight(rest)) != [] && Fields(TrimRight(rest))[0] == w
  {
    var w := B.Encode(key);
    B.EncodingIsPlain(key);
    PlainIsSolid(w);
    assert (w + tag)[0] == w[0];
    TrimRightKeepsFields(w + tag);
    TrimRightKeepsHead(w + tag);
    FirstField(w, tag);
  }

  lemma KeyLine(indent: string, key: Bytes, tag: string)
    requires WellFormed(Key(indent, key, tag))
    ensures var line := Line(Key(indent, key, tag));
            && !Skipped(line)
            && Fields(TrimSpace(line)) != [] && B.Decode(Fields(TrimSpace(line))[0]) == Some(key)
  {
    var w := B.Encode(key);
    assert indent + w + tag == indent + (w + tag);
    KeyRest(key, tag);
    TrimIndent(indent, w + tag);
    B.RoundTrip(key);
  }

  lemma SkippedLine(e: Entry)
    requires WellFormed(e) && !e.Key?
    ensures Skipped(Line(e))
  {
    if e.Blank? {
      TrimIndent(e.spaces, "");
      assert e.spaces + "" == e.spaces;
    } else {
      assert e.indent + "#" + e.text == e.indent + ("#" + e.text);
      TrimIndent(e.indent, "#" + e.text);
      TrimRightKeepsHead("#" + e.text);
    }
  }

  /** Whatever comments, blank lines, indents and labels an operator writes, the keys are read in order. */
  lemma {:induction false} KeysAreRead(es: seq<Entry>)
    requires forall e | e in es :: WellFormed(e)
    ensures KeysOf(Lines(es)) == Ok(Listed(es))
  {
    if es != [] {
      var e := es[|es| - 1];
      KeysAreRead(es[..|es| - 1]);
      assert Lines(es)[..|Lines(es)| - 1] == Lines(es[..|es| - 1]);
      if e.Key? { KeyLine(e.indent, e.key, e.tag); } else { SkippedLine(e); assert Listed(es) == Listed(es[..|es| - 1]); }
    }
  }
}
