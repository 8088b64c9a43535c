/**
 * The status file as text: what the helper writes line by line, and what the reader makes
 * of it. Two lines for one key read as the later one.
 */
module BoundaryReport {
  import opened Base
  import opened Base64
  import opened WireLines
  import opened LaunchBoundary

  datatype StatusKey =
    | KBoundary | KFailure | KWin32 | KMode | KHelperPid | KChildPid | KVerifiedInJob | KAssignedAtCreation
    | KJobHandleInheritable | KJobMembersAtStart | KJobMembersAtEnd | KChildExitCode | KTerminatedByOwnerLoss
    | KStdinForward | KNonce | KTargetStarted | KChildExitUnobservable

  function StatusName(k: StatusKey): string {
    match k
    case KBoundary => "boundary"
    case KFailure => "failure"
    case KWin32 => "win32"
    case KMode => "mode"
    case KHelperPid => "helperPid"
    case KChildPid => "childPid"
    case KVerifiedInJob => "verifiedInJob"
    case KAssignedAtCreation => "assignedAtCreation"
    case KJobHandleInheritable => "jobHandleInheritable"
    case KJobMembersAtStart => "jobMembersAtStart"
    case KJobMembersAtEnd => "jobMembersAtEnd"
    case KChildExitCode => "childExitCode"
    case KTerminatedByOwnerLoss => "terminatedByOwnerLoss"
    case KStdinForward => "stdinForward"
    case KNonce => "nonce"
    case KTargetStarted => "targetStarted"
    case KChildExitUnobservable => "childExitUnobservable"
  }

  ghost predicate IsFact(k: StatusKey) {
    k.KVerifiedInJob? || k.KAssignedAtCreation? || k.KJobHandleInheritable? || k.KTerminatedByOwnerLoss?
  }

  ghost predicate IsCount(k: StatusKey) {
    k.KJobMembersAtStart? || k.KJobMembersAtEnd? || k.KChildExitCode? || k.KChildExitUnobservable?
  }

  lemma FactNamesAreGoodKeys(k: StatusKey)
    requires IsFact(k)
    ensures GoodKey(StatusName(k))
  {
  }

  lemma CountNamesAreGoodKeys(k: StatusKey)
    requires IsCount(k)
    ensures GoodKey(StatusName(k))
  {
  }

  lemma StatusNamesAreGoodKeys(k: StatusKey)
    ensures GoodKey(StatusName(k))
  {
    if IsFact(k) {
      FactNamesAreGoodKeys(k);
    } else if IsCount(k) {
      CountNamesAreGoodKeys(k);
    }
  }

  lemma StatusNamesDiffer(j: StatusKey, k: StatusKey)
    ensures StatusName(j) == StatusName(k) <==> j == k
  {
    var s, t := StatusName(j), StatusName(k);
    if |s| == |t| && j != k {
      assert |s| == 5 ==> s[0] != t[0];
      assert |s| == 8 ==> s[0] != t[0];
      assert |s| == 13 ==> s[0] != t[0];
    }
  }

  // ------------------------------------------------------------------- reading

  type Raw = map<string, Text>

  function Lookup(raw: Raw, k: StatusKey): Option<Text> {
    if StatusName(k) in raw then Some(raw[StatusName(k)]) else None
  }

  function IntAt(raw: Raw, k: StatusKey): Option<int> {
    if Lookup(raw, k).None? then None else ReadInt(Lookup(raw, k).value)
  }

  function BoolAt(raw: Raw, k: StatusKey): Option<bool> {
    if Lookup(raw, k).None? then None else Some(Lookup(raw, k).value == "true")
  }

  function TextAt(raw: Raw, k: StatusKey): Option<string> {
    if Lookup(raw, k).None? then None else Some(Lookup(raw, k).value)
  }

  predicate SaysTrue(raw: Raw, k: StatusKey) {
    Lookup(raw, k) == Some("true")
  }

  function VerdictNamed(s: Option<string>): Option<Verdict> {
    if s == Some("OK") then Some(BoundaryOk) else if s == Some("FAILED") then Some(BoundaryFailed) else None
  }

  function ModeReported(s: Option<string>): Option<Mode> {
    if s == Some("SUSPENDED") then Some(SuspendedMode) else if s == Some("JOBLIST") then Some(JobListMode) else None
  }

  /** The typed status behind the decoded keys. */
  function StatusOf(raw: Raw): BoundaryStatus {
    BoundaryStatus(
      VerdictNamed(TextAt(raw, KBoundary)), TextAt(raw, KFailure), IntAt(raw, KWin32),
      ModeReported(TextAt(raw, KMode)), IntAt(raw, KHelperPid), IntAt(raw, KChildPid), SaysTrue(raw, KVerifiedInJob),
      BoolAt(raw, KAssignedAtCreation), BoolAt(raw, KJobHandleInheritable), IntAt(raw, KJobMembersAtStart),
      IntAt(raw, KJobMembersAtEnd), IntAt(raw, KChildExitCode), SaysTrue(raw, KTerminatedByOwnerLoss),
      TextAt(raw, KStdinForward), TextAt(raw, KNonce), SaysTrue(raw, KTargetStarted),
      SaysTrue(raw, KChildExitUnobservable))
  }

  /** The keys of the lines read so far; `None` once a line is not one of the helper's. */
  function RawOf(lines: seq<string>): Option<Raw> {
    if lines == [] then Some(map[])
    else
      var before, last := RawOf(lines[..|lines| - 1]), lines[|lines| - 1];
      if before.None? || last == "" then before
      else
        var pair := ParsePair(last, false);
        if pair.None? then None else Some(before.value[pair.value.key := pair.value.value])
  }

  lemma {:induction false} OneBadLineRefusesAll(lines: seq<string>, i: nat)
    requires i < |lines| && lines[i] != "" && ParsePair(lines[i], false).None?
    ensures RawOf(lines).None?
    decreases |lines|
  {
    if i < |lines| - 1 { OneBadLineRefusesAll(lines[..|lines| - 1], i); }
  }

  predicate IsBad(line: string) { line != "" && ParsePair(line, false).None? }

  /** Some line is not one of the helper's. */
  predicate AnyBad(lines: seq<string>) { exists i | 0 <= i < |lines| :: IsBad(lines[i]) }

  /** This line says something about this key. */
  predicate Names(line: string, key: string) {
    line != "" && ParsePair(line, false).Some? && ParsePair(line, false).value.key == key
  }

  /** The last line that says something about this key. */
  ghost predicate LastNaming(lines: seq<string>, i: nat, key: string) {
    i < |lines| && Names(lines[i], key) && forall j | i < j < |lines| :: !Names(lines[j], key)
  }

  /** Exactly the keys some line names, each with the value of the last line that does. */
  ghost predicate HoldsLastValues(raw: Raw, lines: seq<string>) {
    && (forall key :: key in raw <==> exists i | 0 <= i < |lines| :: Names(lines[i], key))
    && (forall i: nat, key | LastNaming(lines, i, key) && key in raw :: raw[key] == ParsePair(lines[i], false).value.value)
  }

  /** The fold over the lines keeps, of every key, the value on the last line that names it. */
  lemma {:induction false} LastLinesWin(lines: seq<string>)
    ensures RawOf(lines).None? <==> AnyBad(lines)
    ensures RawOf(lines).Some? ==> HoldsLastValues(RawOf(lines).value, lines)
    decreases |lines|
  {
    hide ParsePair;
    if lines != [] {
      var init, last := lines[..|lines| - 1], lines[|lines| - 1];
      LastLinesWin(init);
      assert forall i | 0 <= i < |init| :: init[i] == lines[i];
      if RawOf(lines).Some? { LastValuesAfter(RawOf(init).value, RawOf(lines).value, init, last); }
      assert lines == init + [last];
    }
  }

  lemma LastValuesAfter(before: Raw, after: Raw, init: seq<string>, last: string)
    requires HoldsLastValues(before, init) && !IsBad(last)
    requires after == if last == "" then before
                      else before[ParsePair(last, false).value.key := ParsePair(last, false).value.value]
    ensures HoldsLastValues(after, init + [last])
  {
    hide ParsePair;
    var lines := init + [last];
    assert forall i | 0 <= i < |init| :: lines[i] == init[i];
    assert lines[|init|] == last;
    forall key ensures key in after <==> exists i | 0 <= i < |lines| :: Names(lines[i], key) {
      if i :| 0 <= i < |init| && Names(init[i], key) { assert Names(lines[i], key); }
      if Names(last, key) { assert Names(lines[|init|], key); }
    }
    forall i: nat, key | LastNaming(lines, i, key) && key in after
      ensures after[key] == ParsePair(lines[i], false).value.value
    {
      if i < |init| {
        assert !Names(lines[|init|], key);
        assert LastNaming(init, i, key);
      }
    }
  }

  /** What a reader makes of a text. */
  function StatusIn(text: string): Option<BoundaryStatus> {
    var raw := RawOf(SplitLines(text));
    if raw.None? then None else Some(StatusOf(raw.value))
  }

  lemma DecodedMeans(text: string)
    ensures StatusIn(text).None? <==> AnyBad(SplitLines(text))
    ensures StatusIn(text).Some? ==>
      exists raw :: HoldsLastValues(raw, SplitLines(text)) && StatusIn(text).value == StatusOf(raw)
  {
    hide HoldsLastValues, AnyBad, StatusOf, ParsePair, SplitLines, RawOf;
    LastLinesWin(SplitLines(text));
  }

  /**
   * `None` exactly when some line is not one of the helper's; otherwise the status is read
   * from the last value of every key.
   */
  method DecodeBoundaryStatus(text: string) returns (status: Option<BoundaryStatus>)
    ensures status == StatusIn(text)
    ensures status.None? <==> AnyBad(SplitLines(text))
    ensures status.Some? ==> exists raw :: HoldsLastValues(raw, SplitLines(text)) && status.value == StatusOf(raw)
  {
    DecodedMeans(text);
    hide HoldsLastValues, AnyBad, StatusOf, ParsePair;
    var lines := SplitLines(text);
    var raw: Raw := map[];
    for i := 0 to |lines|
      invariant RawOf(lines[..i]) == Some(raw)
    {
      assert lines[..i + 1][..i] == lines[..i];
      if lines[i] != "" {
        var pair := ParsePair(lines[i], false);
        if pair.None? {
          OneBadLineRefusesAll(lines, i);
          return None;
        }
        raw := raw[pair.value.key := pair.value.value];
      }
    }
    assert lines[..|lines|] == lines;
    return Some(StatusOf(raw));
  }

  // ------------------------------------------------------------------- writing

  predicate IsText(s: string) { forall i | 0 <= i < |s| :: s[i] as int < 256 }

  predicate IsSafe(n: int) { -MAX_SAFE_INTEGER <= n <= MAX_SAFE_INTEGER }

  /** What the helper can print on a line and the reader can hold. */
  predicate Printable(line: Line) {
    match line
    case NonceLine(s) => IsText(s)
    case FailureLine(s) => IsText(s)
    case StdinForwardLine(s) => IsText(s)
    case HelperPidLine(n) => IsSafe(n)
    case ChildPidLine(n) => IsSafe(n)
    case JobMembersAtStartLine(n) => IsSafe(n)
    case JobMembersAtEndLine(n) => IsSafe(n)
    case Win32Line(n) => IsSafe(n)
    case ChildExitCodeLine(n) => IsSafe(n)
    case _ => true
  }

  function TrueOrFalse(b: bool): Text { if b then "true" else "false" }

  /** The key the helper puts a line under. */
  function PutUnder(line: Line): string {
    match line
    case NonceLine(_) => "nonce"
    case HelperPidLine(_) => "helperPid"
    case ModeLine(_) => "mode"
    case JobHandleInheritableLine(_) => "jobHandleInheritable"
    case ChildPidLine(_) => "childPid"
    case AssignedAtCreationLine(_) => "assignedAtCreation"
    case VerifiedInJobLine => "verifiedInJob"
    case JobMembersAtStartLine(_) => "jobMembersAtStart"
    case TargetStartedLine => "targetStarted"
    case BoundaryOkLine => "boundary"
    case BoundaryFailedLine => "boundary"
    case FailureLine(_) => "failure"
    case Win32Line(_) => "win32"
    case ChildExitCodeLine(_) => "childExitCode"
    case ChildExitUnobservableLine => "childExitUnobservable"
    case TerminatedByOwnerLossLine(_) => "terminatedByOwnerLoss"
    case JobMembersAtEndLine(_) => "jobMembersAtEnd"
    case StdinForwardLine(_) => "stdinForward"
  }

  /** The key of the reader's that a line is about. */
  ghost function KeyOf(line: Line): StatusKey {
    match line
    case NonceLine(_) => KNonce
    case HelperPidLine(_) => KHelperPid
    case ModeLine(_) => KMode
    case JobHandleInheritableLine(_) => KJobHandleInheritable
    case ChildPidLine(_) => KChildPid
    case AssignedAtCreationLine(_) => KAssignedAtCreation
    case VerifiedInJobLine => KVerifiedInJob
    case JobMembersAtStartLine(_) => KJobMembersAtStart
    case TargetStartedLine => KTargetStarted
    case BoundaryOkLine => KBoundary
    case BoundaryFailedLine => KBoundary
    case FailureLine(_) => KFailure
    case Win32Line(_) => KWin32
    case ChildExitCodeLine(_) => KChildExitCode
    case ChildExitUnobservableLine => KChildExitUnobservable
    case TerminatedByOwnerLossLine(_) => KTerminatedByOwnerLoss
    case JobMembersAtEndLine(_) => KJobMembersAtEnd
    case StdinForwardLine(_) => KStdinForward
  }

  function ValueOf(line: Line): Text
    requires Printable(line)
  {
    match line
    case NonceLine(s) => s
    case HelperPidLine(n) => Decimal(n)
    case ModeLine(m) => if m.SuspendedMode? then "SUSPENDED" else "JOBLIST"
    case JobHandleInheritableLine(b) => TrueOrFalse(b)
    case ChildPidLine(n) => Decimal(n)
    case AssignedAtCreationLine(b) => TrueOrFalse(b)
    case VerifiedInJobLine => "true"
    case JobMembersAtStartLine(n) => Decimal(n)
    case TargetStartedLine => "true"
    case BoundaryOkLine => "OK"
    case BoundaryFailedLine => "FAILED"
    case FailureLine(s) => s
    case Win32Line(n) => Decimal(n)
    case ChildExitCodeLine(n) => Decimal(n)
    case ChildExitUnobservableLine => "true"
    case TerminatedByOwnerLossLine(b) => TrueOrFalse(b)
    case JobMembersAtEndLine(n) => Decimal(n)
    case StdinForwardLine(s) => s
  }

  /** A line of the file: one the reader interprets, or one with a key it only keeps. */
  datatype FileLine = Known(line: Line) | Other(key: string, value: Text)

  predicate Writable(f: FileLine) {
    match f
    case Known(line) => Printable(line)
    case Other(key, _) => GoodKey(key) && forall k :: StatusName(k) != key
  }

  function LineText(f: FileLine): string
    requires Writable(f)
  {
    match f
    case Known(line) => PairLine(PutUnder(line), ValueOf(line))
    case Other(key, value) => PairLine(key, value)
  }

  function LineTexts(fs: seq<FileLine>): (lines: seq<string>)
    requires forall i | 0 <= i < |fs| :: Writable(fs[i])
    ensures |lines| == |fs| && forall i | 0 <= i < |fs| :: lines[i] == LineText(fs[i])
  {
    seq(|fs|, i requires 0 <= i < |fs| => LineText(fs[i]))
  }

  function KnownLines(fs: seq<FileLine>): seq<Line> {
    if fs == [] then []
    else
      var last := fs[|fs| - 1];
      if last.Known? then KnownLines(fs[..|fs| - 1]) + [last.line] else KnownLines(fs[..|fs| - 1])
  }

  // ---------------------------------------------------------------- round trip

  /** Helper and reader spell their keys alike. */
  lemma KeysAgree(line: Line)
    ensures PutUnder(line) == StatusName(KeyOf(line))
  {
  }

  lemma LookupAfter(raw: Raw, k: StatusKey, v: Text)
    ensures Lookup(raw[StatusName(k) := v], k) == Some(v)
    ensures forall j | j != k :: Lookup(raw[StatusName(k) := v], j) == Lookup(raw, j)
  {
    hide StatusName;
    forall j | j != k ensures Lookup(raw[StatusName(k) := v], j) == Lookup(raw, j) { StatusNamesDiffer(j, k); }
  }

  lemma FieldsAfter(raw: Raw, k: StatusKey, v: Text)
    ensures
      var next := raw[StatusName(k) := v];
      && IntAt(next, k) == ReadInt(v) && BoolAt(next, k) == Some(v == "true") && TextAt(next, k) == Some(v)
      && (SaysTrue(next, k) <==> v == "true")
    ensures forall j | j != k :: IntAt(raw[StatusName(k) := v], j) == IntAt(raw, j)
    ensures forall j | j != k :: BoolAt(raw[StatusName(k) := v], j) == BoolAt(raw, j)
    ensures forall j | j != k :: TextAt(raw[StatusName(k) := v], j) == TextAt(raw, j)
    ensures forall j | j != k :: SaysTrue(raw[StatusName(k) := v], j) == SaysTrue(raw, j)
  {
    hide Lookup, StatusName, ReadInt;
    LookupAfter(raw, k, v);
  }

  ghost predicate IsNumber(line: Line) {
    line.HelperPidLine? || line.ChildPidLine? || line.JobMembersAtStartLine? || line.JobMembersAtEndLine?
    || line.Win32Line? || line.ChildExitCodeLine?
  }

  ghost predicate IsFlag(line: Line) {
    line.JobHandleInheritableLine? || line.AssignedAtCreationLine? || line.VerifiedInJobLine? || line.TargetStartedLine?
    || line.ChildExitUnobservableLine? || line.TerminatedByOwnerLossLine?
  }

  lemma StatusAfterNumber(raw: Raw, line: Line)
    requires Printable(line) && IsNumber(line)
    ensures StatusOf(raw[StatusName(KeyOf(line)) := ValueOf(line)]) == Apply(StatusOf(raw), line)
  {
    hide IntAt, BoolAt, TextAt, SaysTrue, StatusName, ReadInt, Decimal, VerdictNamed, ModeReported;
    FieldsAfter(raw, KeyOf(line), ValueOf(line));
    match line
    case HelperPidLine(n) => ReadIntUndoesDecimal(n);
    case ChildPidLine(n) => ReadIntUndoesDecimal(n);
    case JobMembersAtStartLine(n) => ReadIntUndoesDecimal(n);
    case JobMembersAtEndLine(n) => ReadIntUndoesDecimal(n);
    case Win32Line(n) => ReadIntUndoesDecimal(n);
    case ChildExitCodeLine(n) => ReadIntUndoesDecimal(n);
  }

  ghost predicate IsAnswer(line: Line) {
    line.JobHandleInheritableLine? || line.AssignedAtCreationLine? || line.TerminatedByOwnerLossLine?
  }

  lemma StatusAfterAnswer(raw: Raw, line: Line)
    requires Printable(line) && IsAnswer(line)
    ensures StatusOf(raw[StatusName(KeyOf(line)) := ValueOf(line)]) == Apply(StatusOf(raw), line)
  {
    hide IntAt, BoolAt, TextAt, SaysTrue, StatusName, VerdictNamed, ModeReported, ReadInt, Decimal;
    var k, v := KeyOf(line), ValueOf(line);
    FieldsAfter(raw, k, v);
    match line {
      case JobHandleInheritableLine(b) => assert k == KJobHandleInheritable && (v == "true" <==> b);
      case AssignedAtCreationLine(b) => assert k == KAssignedAtCreation && (v == "true" <==> b);
      case TerminatedByOwnerLossLine(b) => assert k == KTerminatedByOwnerLoss && (v == "true" <==> b);
    }
    hide KeyOf, ValueOf;
  }

  lemma StatusAfterFlag(raw: Raw, line: Line)
    requires Printable(line) && IsFlag(line) && !IsAnswer(line)
    ensures StatusOf(raw[StatusName(KeyOf(line)) := ValueOf(line)]) == Apply(StatusOf(raw), line)
  {
    hide IntAt, BoolAt, TextAt, SaysTrue, StatusName, VerdictNamed, ModeReported, ReadInt, Decimal;
    FieldsAfter(raw, KeyOf(line), ValueOf(line));
  }

  ghost predicate IsFreeText(line: Line) {
    line.NonceLine? || line.FailureLine? || line.StdinForwardLine?
  }

  lemma StatusAfterFreeText(raw: Raw, line: Line)
    requires Printable(line) && IsFreeText(line)
    ensures StatusOf(raw[StatusName(KeyOf(line)) := ValueOf(line)]) == Apply(StatusOf(raw), line)
  {
    hide IntAt, BoolAt, TextAt, SaysTrue, StatusName, ReadInt, Decimal, VerdictNamed, ModeReported;
    FieldsAfter(raw, KeyOf(line), ValueOf(line));
  }

  lemma StatusAfterWord(raw: Raw, line: Line)
    requires Printable(line) && !IsFlag(line) && !IsNumber(line) && !IsFreeText(line)
    ensures StatusOf(raw[StatusName(KeyOf(line)) := ValueOf(line)]) == Apply(StatusOf(raw), line)
  {
    hide StatusOf, Apply, StatusName, KeyOf, ValueOf;
    if line.ModeLine? { StatusAfterMode(raw, line); } else { StatusAfterVerdict(raw, line); }
  }

  lemma StatusAfterMode(raw: Raw, line: Line)
    requires line.ModeLine?
    ensures StatusOf(raw[StatusName(KeyOf(line)) := ValueOf(line)]) == Apply(StatusOf(raw), line)
  {
    hide IntAt, BoolAt, TextAt, SaysTrue, StatusName, ReadInt, Decimal, VerdictNamed, ModeReported;
    ModesReadBack(line);
    var v := ValueOf(line);
    FieldsAfter(raw, KMode, v);
    hide ValueOf;
  }

  lemma ModesReadBack(line: Line)
    requires line.ModeLine?
    ensures ModeReported(Some(ValueOf(line))) == Some(line.mode)
  {
    assert "SUSPENDED"[0] != "JOBLIST"[0];
  }

  lemma StatusAfterVerdict(raw: Raw, line: Line)
    requires line.BoundaryOkLine? || line.BoundaryFailedLine?
    ensures StatusOf(raw[StatusName(KeyOf(line)) := ValueOf(line)]) == Apply(StatusOf(raw), line)
  {
    hide IntAt, BoolAt, TextAt, SaysTrue, StatusName, ReadInt, Decimal, ModeReported;
    FieldsAfter(raw, KBoundary, ValueOf(line));
  }

  /** One more line on the file is one more line applied. */
  lemma StatusAfterLine(raw: Raw, line: Line)
    requires Printable(line)
    ensures StatusOf(raw[StatusName(KeyOf(line)) := ValueOf(line)]) == Apply(StatusOf(raw), line)
  {
    hide StatusOf, Apply, StatusName;
    if IsNumber(line) {
      StatusAfterNumber(raw, line);
    } else if IsAnswer(line) {
      StatusAfterAnswer(raw, line);
    } else if IsFlag(line) {
      StatusAfterFlag(raw, line);
    } else if IsFreeText(line) {
      StatusAfterFreeText(raw, line);
    } else {
      StatusAfterWord(raw, line);
    }
  }

  lemma StatusAfterOther(raw: Raw, key: string, value: Text)
    requires forall k :: StatusName(k) != key
    ensures StatusOf(raw[key := value]) == StatusOf(raw)
  {
    hide StatusName;
    assert forall k :: Lookup(raw[key := value], k) == Lookup(raw, k);
    hide Lookup;
  }

  lemma {:induction false} LinesReadAsApplied(fs: seq<FileLine>)
    requires forall i | 0 <= i < |fs| :: Writable(fs[i])
    ensures RawOf(LineTexts(fs)).Some?
    ensures StatusOf(RawOf(LineTexts(fs)).value) == Decode(KnownLines(fs))
    ensures forall i | 0 <= i < |fs| :: OneLine(LineTexts(fs)[i])
    decreases |fs|
  {
    hide StatusOf, StatusName, PutUnder, PairLine, ParsePair, Apply, OneLine, GoodKey, Printable;
    if fs == [] {
      assert StatusOf(map[]) == EmptyStatus by { NothingReported(); }
    } else {
      var init, last := fs[..|fs| - 1], fs[|fs| - 1];
      LinesReadAsApplied(init);
      var raw := RawOf(LineTexts(init)).value;
      assert LineTexts(fs)[..|fs| - 1] == LineTexts(init);
      match last {
        case Known(line) =>
          KeysAgree(line);
          StatusNamesAreGoodKeys(KeyOf(line));
          PairLinesReadBack(StatusName(KeyOf(line)), ValueOf(line), false);
          StatusAfterLine(raw, line);
          DecodeAppend(KnownLines(init), line);
        case Other(key, value) =>
          PairLinesReadBack(key, value, false);
          StatusAfterOther(raw, key, value);
      }
      forall i | 0 <= i < |fs| ensures OneLine(LineTexts(fs)[i]) {
        if i < |fs| - 1 { assert LineTexts(fs)[i] == LineTexts(init)[i]; }
      }
    }
  }

  lemma NothingReported()
    ensures StatusOf(map[]) == EmptyStatus
  {
  }

  /** The file the helper writes reads as the list it wrote, last line per key first. */
  lemma StatusesCrossTheWire(fs: seq<FileLine>)
    requires forall i | 0 <= i < |fs| :: Writable(fs[i])
    ensures
      var raw := RawOf(SplitLines(Written(LineTexts(fs))));
      raw.Some? && StatusOf(raw.value) == Decode(KnownLines(fs))
  {
    hide StatusOf, SplitLines, Written, Writable, RawOf, LineTexts, Decode, KnownLines, OneLine;
    LinesReadAsApplied(fs);
    WrittenLinesReadBack(LineTexts(fs));
    BlankLinesAreSkipped(LineTexts(fs));
  }

  lemma BlankLinesAreSkipped(lines: seq<string>)
    ensures RawOf(lines + [""]) == RawOf(lines)
  {
    assert (lines + [""])[..|lines|] == lines;
  }
}
