/**
 * Base64 with the standard alphabet and padding (section 4 of RFC 4648), and the two
 * decoders that read it: the strict one of the helper and the forgiving one of the reader,
 * which re-encodes what it decoded and compares.
 *
 * A text is the string of its UTF-8 bytes, one character per byte.
 */
module Base64 {
  import opened Base

  type Text = s: string | forall i | 0 <= i < |s| :: s[i] as int < 256

  type Sextet = v: int | 0 <= v < 64

  function Symbol(v: Sextet): char {
    if v < 26 then (65 + v) as char
    else if v < 52 then (97 + v - 26) as char
    else if v < 62 then (48 + v - 52) as char
    else if v == 62 then '+' else '/'
  }

  function SextetOf(c: char): Option<Sextet> {
    var k := c as int;
    if 65 <= k < 91 then Some(k - 65)
    else if 97 <= k < 123 then Some(k - 97 + 26)
    else if 48 <= k < 58 then Some(k - 48 + 52)
    else if c == '+' then Some(62)
    else if c == '/' then Some(63) else None
  }

  lemma SymbolsReadBack(v: Sextet)
    ensures SextetOf(Symbol(v)) == Some(v) && Symbol(v) != '=' && Symbol(v) != '\n' && Symbol(v) != '\r'
  {
  }

  /** Two, three or four symbols for one, two or three bytes. */
  function Group(b: Text): (g: string)
    requires 1 <= |b| <= 3
    ensures |g| == |b| + 1
  {
    var x := b[0] as int;
    if |b| == 1 then [Symbol(x / 4), Symbol(x % 4 * 16)]
    else
      var y := b[1] as int;
      if |b| == 2 then [Symbol(x / 4), Symbol(x % 4 * 16 + y / 16), Symbol(y % 16 * 4)]
      else
        var z := b[2] as int;
        [Symbol(x / 4), Symbol(x % 4 * 16 + y / 16), Symbol(y % 16 * 4 + z / 64), Symbol(z % 64)]
  }

  /** The bytes behind one group of symbols; unused low bits are dropped. */
  function Ungroup(g: string): (b: Option<Text>)
    requires 2 <= |g| <= 4
    ensures b.Some? ==> |b.value| == |g| - 1
  {
    var p, q := SextetOf(g[0]), SextetOf(g[1]);
    if p.None? || q.None? then None
    else
      var x := (p.value * 4 + q.value / 16) as char;
      if |g| == 2 then Some([x])
      else
        var r := SextetOf(g[2]);
        if r.None? then None
        else
          var y := (q.value % 16 * 16 + r.value / 4) as char;
          if |g| == 3 then Some([x, y])
          else
            var t := SextetOf(g[3]);
            if t.None? then None else Some([x, y, (r.value % 4 * 64 + t.value) as char])
  }

  lemma BitsReassemble(x: int, y: int, z: int)
    requires 0 <= x < 256 && 0 <= y < 256 && 0 <= z < 256
    ensures x / 4 * 4 + (x % 4 * 16 + y / 16) / 16 == x
    ensures (x % 4 * 16 + y / 16) % 16 * 16 + (y % 16 * 4 + z / 64) / 4 == y
    ensures (y % 16 * 4 + z / 64) % 4 * 64 + z % 64 == z
  {
  }

  lemma GroupsReadBack(b: Text)
    requires 1 <= |b| <= 3
    ensures Ungroup(Group(b)) == Some(b)
    ensures forall i | 0 <= i < |b| + 1 :: SextetOf(Group(b)[i]).Some?
  {
    hide Symbol, SextetOf;
    var x := b[0] as int;
    SymbolsReadBack(x / 4);
    SymbolsReadBack(x % 4 * 16);
    if |b| > 1 {
      var y := b[1] as int;
      SymbolsReadBack(x % 4 * 16 + y / 16);
      SymbolsReadBack(y % 16 * 4);
      BitsReassemble(x, y, 0);
      if |b| > 2 {
        var z := b[2] as int;
        SymbolsReadBack(y % 16 * 4 + z / 64);
        SymbolsReadBack(z % 64);
        BitsReassemble(x, y, z);
        assert Ungroup(Group(b)).value == [b[0], b[1], b[2]] == b;
      } else {
        assert Ungroup(Group(b)).value == [b[0], b[1]] == b;
      }
    } else {
      BitsReassemble(x, 0, 0);
      assert Ungroup(Group(b)).value == [b[0]] == b;
    }
  }

  /** `Buffer.from(value, 'utf8').toString('base64')`, without its padding. */
  function Symbols(b: Text): (s: string)
    ensures forall i | 0 <= i < |s| :: SextetOf(s[i]).Some?
  {
    if b == "" then ""
    else if |b| <= 3 then GroupsReadBack(b); Group(b)
    else GroupsReadBack(b[..3]); Group(b[..3]) + Symbols(b[3..])
  }

  function PaddingFor(b: Text): string {
    if |b| % 3 == 1 then "==" else if |b| % 3 == 2 then "=" else ""
  }

  function Encode(b: Text): string {
    Symbols(b) + PaddingFor(b)
  }

  // ------------------------------------------------------------------ decoding

  /** Whole groups of four, then a last group of two or three; one symbol alone carries no byte. */
  function Bytes(s: string): Option<Text>
  {
    if |s| <= 1 then Some("")
    else if |s| <= 4 then Ungroup(s)
    else
      var first, rest := Ungroup(s[..4]), Bytes(s[4..]);
      if first.None? || rest.None? then None else Some(first.value + rest.value)
  }

  lemma {:induction false} BytesOfSymbols(b: Text)
    ensures Bytes(Symbols(b)) == Some(b)
    ensures |Symbols(b)| == |b| / 3 * 4 + if |b| % 3 == 0 then 0 else |b| % 3 + 1
    decreases |b|
  {
    if b == "" {
    } else if |b| <= 3 {
      GroupsReadBack(b);
    } else {
      GroupsReadBack(b[..3]);
      BytesOfSymbols(b[3..]);
      var s := Symbols(b);
      assert s[..4] == Group(b[..3]) && s[4..] == Symbols(b[3..]);
      assert b == b[..3] + b[3..];
    }
  }

  /** Everything before the trailing run of '='. */
  function Strip(s: string): (r: string)
    ensures |r| <= |s| && r == s[..|r|]
    ensures forall i | |r| <= i < |s| :: s[i] == '='
    ensures |r| > 0 ==> r[|r| - 1] != '='
  {
    if s != "" && s[|s| - 1] == '=' then Strip(s[..|s| - 1]) else s
  }

  lemma StripIsUnique(s: string, k: nat)
    requires k <= |s| && (forall i | k <= i < |s| :: s[i] == '=') && (k > 0 ==> s[k - 1] != '=')
    ensures Strip(s) == s[..k]
  {
    var r := Strip(s);
    assert k == 0 || s[k - 1] != '=';
    assert r == "" || s[|r| - 1] != '=';
  }

  lemma PaddingCompletes(b: Text)
    ensures (|b| / 3 * 4 + (if |b| % 3 == 0 then 0 else |b| % 3 + 1) + |PaddingFor(b)|) % 4 == 0
    ensures forall i | 0 <= i < |PaddingFor(b)| :: PaddingFor(b)[i] == '='
  {
  }

  lemma NoSymbolPads()
    ensures SextetOf('=').None?
  {
  }

  lemma EncodingStripped(b: Text)
    ensures Strip(Encode(b)) == Symbols(b)
    ensures |Encode(b)| % 4 == 0
  {
    hide Symbols, Bytes, SextetOf;
    BytesOfSymbols(b);
    PaddingCompletes(b);
    NoSymbolPads();
    var s := Symbols(b);
    hide PaddingFor;
    assert s == "" || SextetOf(s[|s| - 1]).Some?;
    StripIsUnique(Encode(b), |s|);
    assert Encode(b)[..|s|] == s;
  }

  /** `Convert.FromBase64String`: whole groups of four, padding only to complete the last. */
  function StrictDecode(e: string): Option<Text> {
    var s := Strip(e);
    if |e| % 4 != 0 || |e| - |s| > 2 || |s| % 4 == 1 then None
    else if |e| - |s| != (4 - |s| % 4) % 4 then None else Bytes(s)
  }

  lemma StrictDecodeUndoesEncode(b: Text)
    ensures StrictDecode(Encode(b)) == Some(b)
  {
    hide Symbols, Bytes, Strip;
    BytesOfSymbols(b);
    EncodingStripped(b);
  }

  /** A letter, a digit, '+' or '/'. */
  ghost predicate InAlphabet(c: char) {
    'A' <= c <= 'Z' || 'a' <= c <= 'z' || '0' <= c <= '9' || c == '+' || c == '/'
  }

  lemma AlphabetMeans(c: char)
    ensures SextetOf(c).Some? <==> InAlphabet(c)
    ensures SextetOf(c).Some? ==> Symbol(SextetOf(c).value) == c
  {
  }

  lemma UngroupedMeans(g: string)
    requires 2 <= |g| <= 4
    ensures Ungroup(g).Some? <==> forall i | 0 <= i < |g| :: SextetOf(g[i]).Some?
  {
    hide SextetOf;
  }

  lemma {:induction false} BytesMean(s: string)
    requires |s| % 4 != 1
    ensures Bytes(s).Some? <==> forall i | 0 <= i < |s| :: SextetOf(s[i]).Some?
  {
    hide SextetOf, Ungroup;
    if 1 < |s| <= 4 {
      UngroupedMeans(s);
    } else if |s| > 4 {
      UngroupedMeans(s[..4]);
      BytesMean(s[4..]);
      assert forall i | 0 <= i < 4 :: s[..4][i] == s[i];
      assert forall i | 4 <= i < |s| :: s[i] == s[4..][i - 4];
    }
  }

  /** These are a text's symbols and its padding. */
  ghost predicate Padded(e: string, pads: nat) {
    && pads <= 2 && pads <= |e|
    && (forall i | 0 <= i < |e| - pads :: InAlphabet(e[i]))
    && (forall i | |e| - pads <= i < |e| :: e[i] == '=')
  }

  /** The strict decoder reads whole groups of four of the alphabet, the last one padded by one or two '='. */
  lemma StrictDecodeAccepts(e: string)
    ensures StrictDecode(e).Some? <==> |e| % 4 == 0 && exists pads: nat :: Padded(e, pads)
  {
    hide SextetOf, Bytes, Strip, InAlphabet;
    var s := Strip(e);
    forall c: char ensures SextetOf(c).Some? <==> InAlphabet(c) { AlphabetMeans(c); }
    NoSymbolPads();
    assert s == e[..|s|];
    if StrictDecode(e).Some? {
      BytesMean(s);
      assert Padded(e, |e| - |s|);
    }
    if pads: nat :| |e| % 4 == 0 && Padded(e, pads) {
      assert |e| - pads > 0 ==> e[|e| - pads - 1] != '=' by { assert |e| - pads > 0 ==> InAlphabet(e[|e| - pads - 1]); }
      StripIsUnique(e, |e| - pads);
      BytesMean(s);
    }
  }

  /** `/^[A-Za-z0-9+/]*={0,2}$/` */
  predicate LooksEncoded(e: string) {
    |e| - |Strip(e)| <= 2 && forall i | 0 <= i < |Strip(e)| :: SextetOf(Strip(e)[i]).Some?
  }

  /** Decode forgivingly, encode again, and accept only what comes back the same but for padding. */
  function CheckedDecode(e: string): Option<Text> {
    if !LooksEncoded(e) then None
    else
      var decoded := Bytes(Strip(e));
      if decoded.Some? && Strip(Encode(decoded.value)) == Strip(e) then decoded else None
  }

  /** The check makes the forgiving decoder exact: one text per line, and only encodings pass. */
  lemma CheckedDecodeIsExact(e: string, b: Text)
    ensures CheckedDecode(e) == Some(b) <==> LooksEncoded(e) && Strip(e) == Strip(Encode(b))
  {
    EncodingStripped(b);
    BytesOfSymbols(b);
  }

  lemma CheckedDecodeUndoesEncode(b: Text)
    ensures CheckedDecode(Encode(b)) == Some(b)
  {
    EncodingStripped(b);
    CheckedDecodeIsExact(Encode(b), b);
  }

  lemma EncodingsHaveNoBreaks(b: Text)
    ensures forall c | c in Encode(b) :: c != '\n' && c != '\r'
  {
  }
}
