/**
 * Texts as lines, lines as `key=base64(value)`, and numbers as decimal digits: the shared
 * form of the launch request and of the status file.
 */
module WireLines {
  import opened Base
  import opened Base64
  import opened ExitCodes

  // --------------------------------------------------------------------- lines

  predicate OneLine(s: string) {
    forall i | 0 <= i < |s| :: s[i] != '\n' && s[i] != '\r'
  }

  /** `lines.join('\n')` */
  function Joined(lines: seq<string>): string {
    if lines == [] then ""
    else if |lines| == 1 then lines[0]
    else lines[0] + "\n" + Joined(lines[1..])
  }

  /** Every line ended, as `File.WriteAllLines` ends it. */
  function Written(lines: seq<string>): string {
    if lines == [] then "" else lines[0] + "\r\n" + Written(lines[1..])
  }

  /** The length of what precedes the first line break. */
  function LineEnd(text: string, returnsBreak: bool): (k: nat)
    ensures k <= |text|
    ensures forall i | 0 <= i < k :: text[i] != '\n' && (returnsBreak ==> text[i] != '\r')
    ensures k < |text| ==> text[k] == '\n' || (returnsBreak && text[k] == '\r')
  {
    if text == "" || text[0] == '\n' || (returnsBreak && text[0] == '\r') then 0
    else 1 + LineEnd(text[1..], returnsBreak)
  }

  /** `File.ReadAllLines`, less the empty lines its caller skips. */
  function NonEmptyLines(text: string): seq<string>
    decreases |text|
  {
    var k := LineEnd(text, true);
    var rest := if k == |text| then [] else NonEmptyLines(text[k + 1..]);
    if k == 0 then rest else [text[..k]] + rest
  }

  /** `text.split(/\r?\n/)` */
  function SplitLines(text: string): seq<string>
    decreases |text|
  {
    var k := LineEnd(text, false);
    if k == |text| then [text]
    else
      var line := if k > 0 && text[k - 1] == '\r' then text[..k - 1] else text[..k];
      [line] + SplitLines(text[k + 1..])
  }

  lemma LineEndIs(text: string, returnsBreak: bool, k: nat)
    requires k < |text| && (text[k] == '\n' || (returnsBreak && text[k] == '\r'))
    requires forall i | 0 <= i < k :: text[i] != '\n' && (returnsBreak ==> text[i] != '\r')
    ensures LineEnd(text, returnsBreak) == k
  {
    var e := LineEnd(text, returnsBreak);
    assert e == |text| || text[e] == '\n' || (returnsBreak && text[e] == '\r');
  }

  lemma EndOfFirstLine(line: string, ending: string, rest: string, returnsBreak: bool)
    requires OneLine(line) && ending == if returnsBreak then "\n" else "\r\n"
    ensures LineEnd(line + ending + rest, returnsBreak) == |line + ending| - 1
  {
    var text := line + ending + rest;
    assert forall i | 0 <= i < |line| :: text[i] == line[i];
    LineEndIs(text, returnsBreak, |line + ending| - 1);
  }

  /** The text up to its first line break, and what the rest reads as. */
  lemma NonEmptyLinesUnfold(text: string, k: nat)
    requires k == LineEnd(text, true) && k > 0
    ensures k <= |text|
    ensures NonEmptyLines(text) == [text[..k]] + if k == |text| then [] else NonEmptyLines(text[k + 1..])
  {
  }

  lemma LastOfNonEmptyLines(line: string)
    requires OneLine(line) && line != ""
    ensures NonEmptyLines(line) == [line]
  {
    hide NonEmptyLines;
    assert LineEnd(line, true) == |line| && line[..|line|] == line;
    NonEmptyLinesUnfold(line, |line|);
  }

  lemma FirstOfNonEmptyLines(line: string, rest: string)
    requires OneLine(line) && line != ""
    ensures NonEmptyLines(line + "\n" + rest) == [line] + NonEmptyLines(rest)
  {
    hide NonEmptyLines, LineEnd;
    var text := line + "\n" + rest;
    EndOfFirstLine(line, "\n", rest, true);
    hide OneLine;
    NonEmptyLinesUnfold(text, |line|);
    assert text[..|line|] == line && text[|line| + 1..] == rest;
  }

  lemma FirstOfSplitLines(line: string, rest: string)
    requires OneLine(line)
    ensures SplitLines(line + "\r\n" + rest) == [line] + SplitLines(rest)
  {
    var text := line + "\r\n" + rest;
    EndOfFirstLine(line, "\r\n", rest, false);
    assert text[|line|] == '\r' && text[..|line|] == line && text[|line| + 2..] == rest;
  }

  lemma {:induction false} JoinedLinesReadBack(lines: seq<string>)
    requires forall i | 0 <= i < |lines| :: lines[i] != "" && OneLine(lines[i])
    ensures NonEmptyLines(Joined(lines)) == lines
    decreases |lines|
  {
    if lines == [] {
    } else {
      hide OneLine, NonEmptyLines;
      LastOfNonEmptyLines(lines[0]);
      FirstOfNonEmptyLines(lines[0], Joined(lines[1..]));
      JoinedLinesReadBack(lines[1..]);
      assert lines == [lines[0]] + lines[1..];
    }
  }

  lemma {:induction false} WrittenLinesReadBack(lines: seq<string>)
    requires forall i | 0 <= i < |lines| :: OneLine(lines[i])
    ensures SplitLines(Written(lines)) == lines + [""]
    decreases |lines|
  {
    hide OneLine, SplitLines, LineEnd;
    if lines == [] {
      NoLinesAreOneEmptyLine();
    } else {
      var first, rest := lines[0], lines[1..];
      WrittenLinesReadBack(rest);
      FirstOfSplitLines(first, Written(rest));
      assert lines + [""] == [first] + (rest + [""]);
    }
  }

  lemma NoLinesAreOneEmptyLine()
    ensures SplitLines("") == [""]
  {
  }

  // --------------------------------------------------------------- key and value

  function PairLine(key: string, value: Text): string {
    key + "=" + Encode(value)
  }

  predicate GoodKey(key: string) {
    key != "" && forall i | 0 <= i < |key| :: key[i] != '=' && key[i] != '\n' && key[i] != '\r'
  }

  function FirstEquals(line: string): (k: nat)
    ensures k <= |line| && forall i | 0 <= i < k :: line[i] != '='
    ensures k < |line| ==> line[k] == '='
  {
    if line == "" || line[0] == '=' then 0 else 1 + FirstEquals(line[1..])
  }

  datatype Pair = Pair(key: string, value: Text)

  /** A line with something before its first '=' and a decodable rest. */
  function ParsePair(line: string, strict: bool): Option<Pair> {
    var k := FirstEquals(line);
    if k == 0 || k == |line| then None
    else
      var value := if strict then StrictDecode(line[k + 1..]) else CheckedDecode(line[k + 1..]);
      if value.None? then None else Some(Pair(line[..k], value.value))
  }

  lemma FirstEqualsIs(line: string, k: nat)
    requires k < |line| && line[k] == '=' && forall i | 0 <= i < k :: line[i] != '='
    ensures FirstEquals(line) == k
  {
    var e := FirstEquals(line);
    assert e == |line| || line[e] == '=';
  }

  lemma PairIsSplit(key: string, value: string)
    requires GoodKey(key)
    ensures
      var line := key + "=" + value;
      FirstEquals(line) == |key| && line[..|key|] == key && line[|key| + 1..] == value
  {
    hide FirstEquals;
    var line := key + "=" + value;
    assert forall i | 0 <= i < |key| :: line[i] == key[i];
    FirstEqualsIs(line, |key|);
  }

  lemma PairIsOneLine(key: string, value: string)
    requires GoodKey(key) && OneLine(value)
    ensures key + "=" + value != "" && OneLine(key + "=" + value)
  {
  }

  lemma PairLinesReadBack(key: string, value: Text, strict: bool)
    requires GoodKey(key)
    ensures ParsePair(PairLine(key, value), strict) == Some(Pair(key, value))
    ensures PairLine(key, value) != "" && OneLine(PairLine(key, value))
  {
    hide Encode, StrictDecode, CheckedDecode, FirstEquals;
    StrictDecodeUndoesEncode(value);
    CheckedDecodeUndoesEncode(value);
    EncodingsHaveNoBreaks(value);
    PairIsSplit(key, Encode(value));
    assert OneLine(Encode(value)) by { assert forall i | 0 <= i < |Encode(value)| :: Encode(value)[i] in Encode(value); }
    PairIsOneLine(key, Encode(value));
    hide OneLine;
  }

  // ------------------------------------------------------------------- numbers

  predicate IsDigit(c: char) { '0' <= c <= '9' }

  function Digits(n: nat): (s: Text)
    ensures s != "" && forall i | 0 <= i < |s| :: IsDigit(s[i])
  {
    var last := (48 + n % 10) as char;
    if n < 10 then [last] else Digits(n / 10) + [last]
  }

  function Decimal(i: int): (s: Text) {
    if i < 0 then "-" + Digits(-i) else Digits(i)
  }

  /** What a run of digits is worth. */
  function Worth(s: string): nat
    requires forall i | 0 <= i < |s| :: IsDigit(s[i])
  {
    if s == "" then 0
    else
      assert IsDigit(s[|s| - 1]);
      Worth(s[..|s| - 1]) * 10 + (s[|s| - 1] as int - 48)
  }

  lemma {:induction false} DigitsAreWorth(n: nat)
    ensures Worth(Digits(n)) == n
  {
    var s := Digits(n);
    if n < 10 {
      assert s[..0] == "";
    } else {
      DigitsAreWorth(n / 10);
      assert s[..|s| - 1] == Digits(n / 10);
    }
  }

  const MAX_SAFE_INTEGER := 0x1F_FFFF_FFFF_FFFF

  function DigitRun(s: string): (r: string)
    ensures |r| <= |s| && r == s[..|r|] && forall i | 0 <= i < |r| :: IsDigit(r[i])
    ensures |r| < |s| ==> !IsDigit(s[|r|])
  {
    if s == "" || !IsDigit(s[0]) then "" else [s[0]] + DigitRun(s[1..])
  }

  predicate IsBlank(c: char) { c == ' ' || '\t' <= c <= '\r' }

  function TrimLeft(s: string): string {
    if s != "" && IsBlank(s[0]) then TrimLeft(s[1..]) else s
  }

  /** `Number.parseInt(value, 10)`, kept only when it is a safe integer. */
  function ReadInt(value: string): Option<int> {
    var s := TrimLeft(value);
    var signed := s != "" && (s[0] == '-' || s[0] == '+');
    var digits := DigitRun(if signed then s[1..] else s);
    if digits == "" || Worth(digits) > MAX_SAFE_INTEGER then None
    else
      var n: int := Worth(digits);
      Some(if signed && s[0] == '-' then -n else n)
  }

  lemma DigitRunOfDigits(s: string)
    requires forall i | 0 <= i < |s| :: IsDigit(s[i])
    ensures DigitRun(s) == s
  {
  }

  lemma NothingToTrim(s: string)
    requires s != "" && !IsBlank(s[0])
    ensures TrimLeft(s) == s
  {
  }

  lemma ReadIntUndoesDecimal(i: int)
    requires -MAX_SAFE_INTEGER <= i <= MAX_SAFE_INTEGER
    ensures ReadInt(Decimal(i)) == Some(i)
  {
    hide Digits, Worth, DigitRun, TrimLeft, MAX_SAFE_INTEGER;
    var digits: Text := if i < 0 then Digits(-i) else Digits(i);
    DigitRunOfDigits(digits);
    NothingToTrim(Decimal(i));
    if i < 0 {
      DigitsAreWorth(-i);
      assert Decimal(i)[1..] == digits;
    } else {
      DigitsAreWorth(i);
    }
  }

  /** `int.TryParse` with no style allowed: digits only, and no more than an `int` holds. */
  function TryParseInt32(value: string): Option<nat> {
    if value == "" || DigitRun(value) != value || Worth(DigitRun(value)) >= TWO_TO_31 then None
    else Some(Worth(DigitRun(value)))
  }

  lemma TryParseOfDigits(n: nat)
    ensures TryParseInt32(Digits(n)) == if n < TWO_TO_31 then Some(n) else None
  {
    DigitsAreWorth(n);
    DigitRunOfDigits(Digits(n));
  }

  /** The helper reads exactly the non-empty runs of digits that an `int` can hold. */
  lemma TryParseMeans(value: string, n: nat)
    ensures TryParseInt32(value) == Some(n) <==>
      value != "" && (forall i | 0 <= i < |value| :: '0' <= value[i] <= '9') && Worth(value) == n && n < 0x8000_0000
  {
    if forall i | 0 <= i < |value| :: IsDigit(value[i]) { DigitRunOfDigits(value); }
  }

  /** Blanks, a sign or none, digits, and whatever does not go on with a digit. */
  ghost predicate ReadsAs(value: string, blanks: string, sign: string, digits: string, rest: string) {
    && value == blanks + sign + digits + rest
    && (forall i | 0 <= i < |blanks| :: blanks[i] == ' ' || 9 <= blanks[i] as int <= 13)
    && (sign == "" || sign == "-" || sign == "+")
    && digits != "" && (forall i | 0 <= i < |digits| :: '0' <= digits[i] <= '9')
    && (rest == "" || !('0' <= rest[0] <= '9'))
  }

  ghost function Signed10(sign: string, digits: string): int
    requires forall i | 0 <= i < |digits| :: IsDigit(digits[i])
  {
    var n: int := Worth(digits);
    if sign == "-" then -n else n
  }

  lemma {:induction false} TrimLeftIs(blanks: string, s: string)
    requires (forall i | 0 <= i < |blanks| :: IsBlank(blanks[i])) && (s == "" || !IsBlank(s[0]))
    ensures TrimLeft(blanks + s) == s
  {
    if blanks == "" {
      assert blanks + s == s;
    } else {
      assert (blanks + s)[1..] == blanks[1..] + s;
      TrimLeftIs(blanks[1..], s);
    }
  }

  lemma {:induction false} TrimLeftSplits(s: string) returns (blanks: string)
    ensures s == blanks + TrimLeft(s) && forall i | 0 <= i < |blanks| :: IsBlank(blanks[i])
    ensures TrimLeft(s) == "" || !IsBlank(TrimLeft(s)[0])
  {
    if s != "" && IsBlank(s[0]) {
      blanks := TrimLeftSplits(s[1..]);
      blanks := [s[0]] + blanks;
      assert s == [s[0]] + s[1..];
    } else {
      blanks := "";
    }
  }

  lemma {:induction false} DigitRunIs(digits: string, rest: string)
    requires (forall i | 0 <= i < |digits| :: IsDigit(digits[i])) && (rest == "" || !IsDigit(rest[0]))
    ensures DigitRun(digits + rest) == digits
  {
    if digits == "" {
      assert digits + rest == rest;
    } else {
      assert (digits + rest)[1..] == digits[1..] + rest;
      DigitRunIs(digits[1..], rest);
    }
  }

  /** The sign a trimmed text begins with. */
  ghost function SignOf(s: string): (sign: string)
    ensures (sign == "" || sign == "-" || sign == "+") && |sign| <= |s| && s == sign + s[|sign|..]
  {
    if s != "" && (s[0] == '-' || s[0] == '+') then [s[0]] else ""
  }

  lemma ReadIntByParts(value: string)
    ensures
      var sign := SignOf(TrimLeft(value));
      var digits := DigitRun(TrimLeft(value)[|sign|..]);
      ReadInt(value) ==
      if digits == "" || Worth(digits) > MAX_SAFE_INTEGER then None else Some(Signed10(sign, digits))
  {
    hide Worth, DigitRun, TrimLeft, MAX_SAFE_INTEGER;
  }

  lemma SignIs(sign: string, tail: string)
    requires (sign == "" || sign == "-" || sign == "+") && tail != "" && IsDigit(tail[0])
    ensures SignOf(sign + tail) == sign && (sign + tail)[|sign|..] == tail
  {
    assert sign == "" ==> sign + tail == tail;
  }

  lemma ReadIntOf(value: string, blanks: string, sign: string, digits: string, rest: string)
    requires ReadsAs(value, blanks, sign, digits, rest)
    requires -MAX_SAFE_INTEGER <= Signed10(sign, digits) <= MAX_SAFE_INTEGER
    ensures ReadInt(value) == Some(Signed10(sign, digits))
  {
    hide Worth, TrimLeft, DigitRun, ReadInt, SignOf, MAX_SAFE_INTEGER;
    var tail := digits + rest;
    assert tail[0] == digits[0];
    SignIs(sign, tail);
    assert value == blanks + (sign + tail);
    assert sign != "" ==> (sign + tail)[0] == sign[0];
    TrimLeftIs(blanks, sign + tail);
    DigitRunIs(digits, rest);
    hide ReadsAs;
    ReadIntByParts(value);
  }

  /** The reader takes the number in front of the text, blanks and a sign aside, exactly where it is safe. */
  lemma ReadIntMeans(value: string, n: int)
    ensures ReadInt(value) == Some(n) <==> exists blanks, sign, digits, rest ::
      && ReadsAs(value, blanks, sign, digits, rest)
      && n == Signed10(sign, digits) && -MAX_SAFE_INTEGER <= n <= MAX_SAFE_INTEGER
  {
    if ReadInt(value) == Some(n) { var _, _, _, _ := ReadIntSplits(value, n); }
    if blanks, sign, digits, rest :|
      && ReadsAs(value, blanks, sign, digits, rest)
      && n == Signed10(sign, digits) && -MAX_SAFE_INTEGER <= n <= MAX_SAFE_INTEGER
    {
      ReadIntOf(value, blanks, sign, digits, rest);
    }
    hide ReadInt, Signed10, ReadsAs;
  }

  lemma ReadIntSplits(value: string, n: int) returns (blanks: string, sign: string, digits: string, rest: string)
    requires ReadInt(value) == Some(n)
    ensures ReadsAs(value, blanks, sign, digits, rest)
    ensures n == Signed10(sign, digits) && -MAX_SAFE_INTEGER <= n <= MAX_SAFE_INTEGER
  {
    hide Worth, DigitRun, ReadInt, SignOf, TrimLeft, ReadsAs, IsBlank, IsDigit, MAX_SAFE_INTEGER;
    ReadIntByParts(value);
    var s := TrimLeft(value);
    blanks := TrimLeftSplits(value);
    sign := SignOf(s);
    var tail := s[|sign|..];
    digits := DigitRun(tail);
    rest := tail[|digits|..];
    FourParts(value, blanks, s, sign, tail, digits, rest);
  }

  lemma FourParts(value: string, blanks: string, s: string, sign: string, tail: string, digits: string, rest: string)
    requires value == blanks + s && s == sign + tail && tail == digits + rest
    requires forall i | 0 <= i < |blanks| :: IsBlank(blanks[i])
    requires sign == "" || sign == "-" || sign == "+"
    requires digits != "" && (forall i | 0 <= i < |digits| :: IsDigit(digits[i])) && (rest == "" || !IsDigit(rest[0]))
    ensures ReadsAs(value, blanks, sign, digits, rest)
  {
    assert value == blanks + sign + digits + rest;
  }

  /** A kernel exit code printed as a signed number, read back and made unsigned is itself. */
  lemma ExitCodesCrossTheWire(c: ExitCode)
    ensures ReadInt(Decimal(Signed(c))).Some?
    ensures UnsignedExitCode(ReadInt(Decimal(Signed(c))).value) == Some(c)
  {
    ReadIntUndoesDecimal(Signed(c));
    UnsignedUndoesSigned(c);
  }
}
