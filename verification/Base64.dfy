/** Standard base64 with padding, section 4 of RFC 4648, as `base64.StdEncoding` reads and writes it. */
module Base64 {
  import opened Protocol

  type Sextet = i: int | 0 <= i < 64

  function Symbol(i: Sextet): char {
    if i < 26 then (i + 65) as char
    else if i < 52 then (i + 71) as char
    else if i < 62 then (i - 4) as char
    else if i == 62 then '+' else '/'
  }

  function Value(c: char): Option<Sextet> {
    if 'A' <= c <= 'Z' then Some(c as int - 65)
    else if 'a' <= c <= 'z' then Some(c as int - 71)
    else if '0' <= c <= '9' then Some(c as int + 4)
    else if c == '+' then Some(62)
    else if c == '/' then Some(63)
    else None
  }

  lemma SymbolsAreValues(i: Sextet)
    ensures Value(Symbol(i)) == Some(i)
    ensures Symbol(i) != '=' && Symbol(i) != '\n' && Symbol(i) != '\r'
  {
  }

  function Encode(b: Bytes): string {
    if b == [] then ""
    else if |b| == 1 then [Symbol(b[0] / 4), Symbol(b[0] % 4 * 16), '=', '=']
    else if |b| == 2 then
      [Symbol(b[0] / 4), Symbol(b[0] % 4 * 16 + b[1] / 16), Symbol(b[1] % 16 * 4), '=']
    else
      [Symbol(b[0] / 4), Symbol(b[0] % 4 * 16 + b[1] / 16), Symbol(b[1] % 16 * 4 + b[2] / 64), Symbol(b[2] % 64)]
      + Encode(b[3..])
  }

  /** The first byte of a quantum; surplus bits are ignored. */
  function Byte1(x: Sextet, y: Sextet): Byte { x * 4 + y / 16 }
  function Byte2(y: Sextet, z: Sextet): Byte { y % 16 * 16 + z / 4 }
  function Byte3(z: Sextet, w: Sextet): Byte { z % 4 * 64 + w }

  /** Line breaks are skipped wherever they stand. */
  function Strip(s: string): string {
    if s == "" then "" else if s[0] == '\n' || s[0] == '\r' then Strip(s[1..]) else [s[0]] + Strip(s[1..])
  }

  function Quanta(s: string): Option<Bytes> {
    if s == "" then Some([])
    else if |s| < 4 then None
    else
      var x, y, z, w := Value(s[0]), Value(s[1]), Value(s[2]), Value(s[3]);
      if x.None? || y.None? then None
      else if |s| == 4 && s[2] == '=' && s[3] == '=' then Some([Byte1(x.value, y.value)])
      else if z.None? then None
      else if |s| == 4 && s[3] == '=' then Some([Byte1(x.value, y.value), Byte2(y.value, z.value)])
      else if w.None? then None
      else
        var rest := Quanta(s[4..]);
        if rest.None? then None
        else Some([Byte1(x.value, y.value), Byte2(y.value, z.value), Byte3(z.value, w.value)] + rest.value)
  }

  function Decode(s: string): Option<Bytes> { Quanta(Strip(s)) }

  /** Characters that an encoding may contain. */
  predicate Plain(s: string) {
    forall i | 0 <= i < |s| :: Value(s[i]).Some? || s[i] == '='
  }

  lemma {:induction false} EncodingIsPlain(b: Bytes)
    ensures Plain(Encode(b))
    ensures Encode(b) == "" <==> b == []
  {
    if |b| >= 3 {
      EncodingIsPlain(b[3..]);
      SymbolsAreValues(b[0] / 4);
      SymbolsAreValues(b[0] % 4 * 16 + b[1] / 16);
      SymbolsAreValues(b[1] % 16 * 4 + b[2] / 64);
      SymbolsAreValues(b[2] % 64);
    } else if |b| == 2 {
      SymbolsAreValues(b[0] / 4);
      SymbolsAreValues(b[0] % 4 * 16 + b[1] / 16);
      SymbolsAreValues(b[1] % 16 * 4);
    } else if |b| == 1 {
      SymbolsAreValues(b[0] / 4);
      SymbolsAreValues(b[0] % 4 * 16);
    }
  }

  lemma {:induction false} StripPlain(s: string)
    requires Plain(s)
    ensures Strip(s) == s
  {
    if s != "" {
      StripPlain(s[1..]);
    }
  }

  lemma Triple(a: Byte, b: Byte, c: Byte)
    ensures Byte1(a / 4, a % 4 * 16 + b / 16) == a
    ensures Byte2(a % 4 * 16 + b / 16, b % 16 * 4 + c / 64) == b
    ensures Byte3(b % 16 * 4 + c / 64, c % 64) == c
  {
  }

  /** One full quantum is read back. */
  lemma Quantum(a: Byte, b: Byte, c: Byte, rest: string)
    ensures Quanta([Symbol(a / 4), Symbol(a % 4 * 16 + b / 16), Symbol(b % 16 * 4 + c / 64), Symbol(c % 64)] + rest)
            == if Quanta(rest).None? then None else Some([a, b, c] + Quanta(rest).value)
  {
    Triple(a, b, c);
    SymbolsAreValues(a / 4);
    SymbolsAreValues(a % 4 * 16 + b / 16);
    SymbolsAreValues(b % 16 * 4 + c / 64);
    SymbolsAreValues(c % 64);
    var s := [Symbol(a / 4), Symbol(a % 4 * 16 + b / 16), Symbol(b % 16 * 4 + c / 64), Symbol(c % 64)] + rest;
    assert s[4..] == rest;
  }

  lemma Single(a: Byte)
    ensures Byte1(a / 4, a % 4 * 16) == a
    ensures Quanta([Symbol(a / 4), Symbol(a % 4 * 16), '=', '=']) == Some([a])
  {
    SymbolsAreValues(a / 4);
    SymbolsAreValues(a % 4 * 16);
  }

  lemma PairBytes(a: Byte, b: Byte)
    ensures Byte1(a / 4, a % 4 * 16 + b / 16) == a
    ensures Byte2(a % 4 * 16 + b / 16, b % 16 * 4) == b
  {
  }

  lemma Pair(a: Byte, b: Byte)
    ensures Quanta([Symbol(a / 4), Symbol(a % 4 * 16 + b / 16), Symbol(b % 16 * 4), '=']) == Some([a, b])
  {
    PairBytes(a, b);
    SymbolsAreValues(a / 4);
    SymbolsAreValues(a % 4 * 16 + b / 16);
    SymbolsAreValues(b % 16 * 4);
  }

  lemma {:induction false} QuantaRoundTrip(b: Bytes)
    ensures Quanta(Encode(b)) == Some(b)
  {
    if |b| >= 3 {
      QuantaRoundTrip(b[3..]);
      Quantum(b[0], b[1], b[2], Encode(b[3..]));
      assert b == [b[0], b[1], b[2]] + b[3..];
    } else if |b| == 2 {
      Pair(b[0], b[1]);
      assert b == [b[0], b[1]];
    } else if |b| == 1 {
      Single(b[0]);
      assert b == [b[0]];
    }
  }

  // ----- against the RFC -----

  /** Eight symbols from `i` on. */
  function Row(i: nat): string
    requires i + 8 <= 64
  {
    [Symbol(i), Symbol(i + 1), Symbol(i + 2), Symbol(i + 3), Symbol(i + 4), Symbol(i + 5), Symbol(i + 6), Symbol(i + 7)]
  }

  /** Table 1. */
  lemma SymbolsAreTheAlphabet()
    ensures Row(0) == "ABCDEFGH"
    ensures Row(8) == "IJKLMNOP"
    ensures Row(16) == "QRSTUVWX"
    ensures Row(24) == "YZabcdef"
    ensures Row(32) == "ghijklmn"
    ensures Row(40) == "opqrstuv"
    ensures Row(48) == "wxyz0123"
    ensures Row(56) == "456789+/"
  {
  }

  /** Section 10, with the letters of "foobar" in ASCII. */
  lemma TestVectors()
    ensures Encode([]) == ""
    ensures Encode([102]) == "Zg==" && Encode([102, 111]) == "Zm8=" && Encode([102, 111, 111]) == "Zm9v"
    ensures Encode([102, 111, 111, 98]) == "Zm9vYg==" && Encode([102, 111, 111, 98, 97, 114]) == "Zm9vYmFy"
  {
    assert [102, 111, 111, 98][3..] == [98] && [102, 111, 111, 98, 97, 114][3..] == [98, 97, 114];
    assert [98, 97, 114][3..] == [];
    assert Encode([98]) == "Yg==" && Encode([98, 97, 114]) == "YmFy" && Encode([102, 111, 111]) == "Zm9v";
  }

  /** Nothing decodes but whole quanta of the alphabet and padding. */
  lemma {:induction false} QuantaArePlain(s: string)
    requires Quanta(s).Some?
    ensures Plain(s) && |s| % 4 == 0
    decreases |s|
  {
    if |s| > 4 {
      QuantaArePlain(s[4..]);
      assert s == s[..4] + s[4..];
    }
  }

  /** Whole quanta of symbols, of which the last two or the last one may be padding. */
  predicate Padded(s: string) {
    && |s| % 4 == 0
    && exists p: nat | p <= 2 && p <= |s| :: PaddedBy(s, p)
  }

  predicate PaddedBy(s: string, p: nat)
    requires p <= |s|
  {
    && (forall i | 0 <= i < |s| - p :: Value(s[i]).Some?)
    && (forall i | |s| - p <= i < |s| :: s[i] == '=')
  }

  lemma PaddedLater(s: string)
    requires |s| > 4 && Value(s[0]).Some? && Value(s[1]).Some? && Value(s[2]).Some? && Value(s[3]).Some?
    ensures Padded(s) <==> Padded(s[4..])
  {
    var t := s[4..];
    if Padded(s) {
      var p: nat :| p <= 2 && p <= |s| && PaddedBy(s, p);
      assert |t| >= 4 ==> PaddedBy(t, p);
    }
    if Padded(t) {
      var p: nat :| p <= 2 && p <= |t| && PaddedBy(t, p);
      forall i | 0 <= i < |s|
        ensures if i < |s| - p then Value(s[i]).Some? else s[i] == '='
      {
        if i >= 4 { assert s[i] == t[i - 4]; }
      }
      assert PaddedBy(s, p);
    }
  }

  lemma LastQuantum(s: string)
    requires |s| == 4
    ensures Quanta(s).Some? <==> Padded(s)
  {
    assert Padded(s) <==> PaddedBy(s, 0) || PaddedBy(s, 1) || PaddedBy(s, 2);
    assert s[4..] == "";
  }

  lemma ShortQuantum(s: string)
    requires |s| < 4
    ensures Quanta(s).Some? <==> Padded(s)
  {
    if s == "" { assert PaddedBy(s, 0); }
  }

  lemma FirstQuantum(s: string)
    requires |s| > 4 && Padded(s)
    ensures Value(s[0]).Some? && Value(s[1]).Some? && Value(s[2]).Some? && Value(s[3]).Some?
  {
  }

  /** What decodes, exactly. */
  lemma {:induction false} QuantaDecodeExactly(s: string)
    ensures Quanta(s).Some? <==> Padded(s)
    decreases |s|
  {
    if |s| < 4 {
      ShortQuantum(s);
    } else if |s| == 4 {
      LastQuantum(s);
    } else {
      QuantaDecodeExactly(s[4..]);
      if Padded(s) { FirstQuantum(s); }
      if Value(s[0]).Some? && Value(s[1]).Some? && Value(s[2]).Some? && Value(s[3]).Some? { PaddedLater(s); }
    }
  }

  /** A string decodes exactly if, line breaks aside, it is whole quanta with at most two characters of
      padding at the end. */
  lemma DecodesExactly(s: string)
    ensures Decode(s).Some? <==> Padded(Strip(s))
  {
    QuantaDecodeExactly(Strip(s));
  }

  /** Line breaks may stand anywhere. */
  lemma LineBreaksAreSkipped(s: string, t: string, c: char)
    requires c == '\n' || c == '\r'
    ensures Decode(s + [c] + t) == Decode(s + t)
  {
    StripsBreak(s, t, c);
  }

  lemma {:induction false} StripsBreak(s: string, t: string, c: char)
    requires c == '\n' || c == '\r'
    ensures Strip(s + [c] + t) == Strip(s + t)
  {
    if s == "" {
      assert (s + [c] + t)[1..] == t && s + t == t;
    } else {
      assert (s + [c] + t)[1..] == s[1..] + [c] + t && (s + t)[1..] == s[1..] + t;
      StripsBreak(s[1..], t, c);
    }
  }

  lemma {:induction false} StripKeeps(s: string, i: nat)
    requires i < |s| && s[i] != '\n' && s[i] != '\r'
    ensures s[i] in Strip(s)
  {
    if i > 0 {
      StripKeeps(s[1..], i - 1);
      assert s[1..][i - 1] == s[i];
    }
  }

  /** A string with any other character than these and line breaks does not decode. */
  lemma StrangersDoNotDecode(s: string, i: nat)
    requires i < |s| && Value(s[i]).None? && s[i] != '=' && s[i] != '\n' && s[i] != '\r'
    ensures Decode(s).None?
  {
    StripKeeps(s, i);
    if Decode(s).Some? { QuantaArePlain(Strip(s)); }
  }

  /** For all byte strings, decoding undoes encoding. */
  lemma RoundTrip(b: Bytes)
    ensures Decode(Encode(b)) == Some(b)
  {
    EncodingIsPlain(b);
    StripPlain(Encode(b));
    QuantaRoundTrip(b);
  }
}
