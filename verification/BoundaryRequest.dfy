/**
 * The launch request across the wire: what the caller encodes, what the helper reads back,
 * and the two places where that is not what the caller meant.
 */
module BoundaryRequest {
  import opened Base
  import opened Base64
  import opened ExitCodes
  import opened WireLines
  import opened LaunchBoundary

  datatype EnvEntry = EnvEntry(name: Text, value: Option<Text>)

  datatype Request = Request(
    mode: Mode, file: Text, args: seq<Text>, verbatim: bool, cwd: Option<Text>,
    env: Option<seq<EnvEntry>>, ownerPid: int, statusPath: Text, nonce: Text)

  /** What the helper holds after reading: an environment is a list, and an empty one means "inherit". */
  datatype HelperRequest = HelperRequest(
    mode: Option<Mode>, file: Text, args: seq<Text>, verbatim: bool, cwd: Option<Text>,
    env: seq<Text>, ownerPid: int, statusPath: Text, nonce: Text)

  datatype Key = NonceKey | ModeKey | FileKey | VerbatimKey | OwnerPidKey | StatusPathKey | ArgKey | CwdKey | EnvKey

  function Name(k: Key): (s: string)
    ensures GoodKey(s)
  {
    match k
    case NonceKey => "nonce"
    case ModeKey => "mode"
    case FileKey => "file"
    case VerbatimKey => "verbatim"
    case OwnerPidKey => "ownerPid"
    case StatusPathKey => "statusPath"
    case ArgKey => "arg"
    case CwdKey => "cwd"
    case EnvKey => "env"
  }

  /** An unknown key is a refusal, not an ignored option. */
  function KeyNamed(s: string): Option<Key> {
    if s == "nonce" then Some(NonceKey)
    else if s == "mode" then Some(ModeKey)
    else if s == "file" then Some(FileKey)
    else if s == "verbatim" then Some(VerbatimKey)
    else if s == "ownerPid" then Some(OwnerPidKey)
    else if s == "statusPath" then Some(StatusPathKey)
    else if s == "arg" then Some(ArgKey)
    else if s == "cwd" then Some(CwdKey)
    else if s == "env" then Some(EnvKey) else None
  }

  lemma NamesReadBack(k: Key)
    ensures KeyNamed(Name(k)) == Some(k)
  {
    var s := Name(k);
    assert s[0] in "nmfvosace";
  }

  function ModeName(m: Mode): Text {
    if m.SuspendedMode? then "SUSPENDED" else "JOBLIST"
  }

  function ModeNamed(s: string): Option<Mode> {
    if s == "SUSPENDED" then Some(SuspendedMode) else if s == "JOBLIST" then Some(JobListMode) else None
  }

  function BoolName(b: bool): Text { if b then "true" else "false" }

  // ------------------------------------------------------------------ encoding

  const NUL := 0 as char

  predicate NoNul(s: string) { NUL !in s }

  predicate EnvEncodable(e: EnvEntry) {
    e.value.Some? ==> e.name != "" && '=' !in e.name && NoNul(e.name) && NoNul(e.value.value)
  }

  predicate Encodable(r: Request) {
    && r.ownerPid > 0
    && r.nonce != "" && NoNul(r.nonce) && r.file != "" && r.statusPath != ""
    && NoNul(r.file) && NoNul(r.statusPath) && (r.cwd.Some? ==> NoNul(r.cwd.value))
    && (forall i | 0 <= i < |r.args| :: NoNul(r.args[i]))
    && (r.env.Some? ==> forall i | 0 <= i < |r.env.value| :: EnvEncodable(r.env.value[i]))
  }

  datatype Field = Field(key: Key, value: Text)

  function ScalarFields(r: Request): seq<Field> {
    [Field(NonceKey, r.nonce), Field(ModeKey, ModeName(r.mode)), Field(FileKey, r.file),
     Field(VerbatimKey, BoolName(r.verbatim)), Field(OwnerPidKey, Decimal(r.ownerPid)),
     Field(StatusPathKey, r.statusPath)]
  }

  function ArgFields(args: seq<Text>): seq<Field> {
    if args == [] then [] else ArgFields(args[..|args| - 1]) + [Field(ArgKey, args[|args| - 1])]
  }

  function CwdFields(cwd: Option<Text>): seq<Field> {
    if cwd.Some? then [Field(CwdKey, cwd.value)] else []
  }

  /** The entries that have a value, in order, as `name=value`. */
  function EnvTexts(es: seq<EnvEntry>): seq<Text> {
    if es == [] then []
    else
      var e := es[|es| - 1];
      EnvTexts(es[..|es| - 1]) + if e.value.Some? then [e.name + "=" + e.value.value] else []
  }

  function EnvFields(texts: seq<Text>): seq<Field> {
    if texts == [] then [] else EnvFields(texts[..|texts| - 1]) + [Field(EnvKey, texts[|texts| - 1])]
  }

  function EnvOf(r: Request): seq<Text> {
    if r.env.Some? then EnvTexts(r.env.value) else []
  }

  function RequestFields(r: Request): seq<Field> {
    ScalarFields(r) + ArgFields(r.args) + CwdFields(r.cwd) + EnvFields(EnvOf(r))
  }

  function FieldLines(fs: seq<Field>): (lines: seq<string>)
    ensures |lines| == |fs|
    ensures forall i | 0 <= i < |fs| :: lines[i] == PairLine(Name(fs[i].key), fs[i].value)
  {
    seq(|fs|, i requires 0 <= i < |fs| => PairLine(Name(fs[i].key), fs[i].value))
  }

  lemma ArgFieldsAppend(args: seq<Text>, arg: Text)
    ensures ArgFields(args + [arg]) == ArgFields(args) + [Field(ArgKey, arg)]
  {
    assert (args + [arg])[..|args|] == args;
  }

  lemma EnvTextsAppend(es: seq<EnvEntry>, e: EnvEntry)
    ensures e.value.None? ==> EnvTexts(es + [e]) == EnvTexts(es)
    ensures e.value.Some? ==>
      && EnvTexts(es + [e]) == EnvTexts(es) + [e.name + "=" + e.value.value]
      && EnvFields(EnvTexts(es + [e])) == EnvFields(EnvTexts(es)) + [Field(EnvKey, e.name + "=" + e.value.value)]
  {
    assert (es + [e])[..|es|] == es;
    if e.value.Some? {
      var texts := EnvTexts(es);
      assert (texts + [e.name + "=" + e.value.value])[..|texts|] == texts;
    }
  }

  lemma NoFields()
    ensures ArgFields([]) == [] && EnvFields([]) == [] && EnvTexts([]) == []
  {
  }

  /** The checks in front of the environment's own. */
  method CheckScalars(r: Request) returns (ok: bool)
    ensures ok <==> Encodable(r.(env := None))
  {
    hide NoNul;
    if r.ownerPid <= 0 || r.nonce == "" || !NoNul(r.nonce) || r.file == "" || r.statusPath == "" { return false; }
    if !NoNul(r.file) || !NoNul(r.statusPath) || (r.cwd.Some? && !NoNul(r.cwd.value)) { return false; }
    for i := 0 to |r.args|
      invariant forall k | 0 <= k < i :: NoNul(r.args[k])
    {
      if !NoNul(r.args[i]) { return false; }
    }
    return true;
  }

  /** `None` where the encoder throws. */
  method EncodeBoundaryRequest(r: Request) returns (text: Option<string>)
    ensures text == if Encodable(r) then Some(Joined(FieldLines(RequestFields(r)))) else None
  {
    hide Joined, Decimal, NoNul, EnvTexts, EnvFields, ArgFields, EnvEncodable, FieldLines, ScalarFields;
    var ok := CheckScalars(r);
    if !ok { return None; }
    NoFields();
    var fields := ScalarFields(r);
    for i := 0 to |r.args|
      invariant fields == ScalarFields(r) + ArgFields(r.args[..i])
    {
      ArgFieldsAppend(r.args[..i], r.args[i]);
      assert r.args[..i + 1] == r.args[..i] + [r.args[i]];
      fields := fields + [Field(ArgKey, r.args[i])];
    }
    assert r.args[..|r.args|] == r.args;
    fields := fields + CwdFields(r.cwd);
    ghost var before := fields;
    var es := if r.env.Some? then r.env.value else [];
    for i := 0 to |es|
      invariant forall k | 0 <= k < i :: EnvEncodable(es[k])
      invariant fields == before + EnvFields(EnvTexts(es[..i]))
    {
      EnvTextsAppend(es[..i], es[i]);
      assert es[..i + 1] == es[..i] + [es[i]];
      if es[i].value.Some? {
        if !EnvEncodable(es[i]) { return None; }
        fields := fields + [Field(EnvKey, es[i].name + "=" + es[i].value.value)];
      } else {
        UnsetIsEncodable(es[i]);
      }
    }
    assert es[..|es|] == es && EnvTexts(es) == EnvOf(r);
    return Some(Joined(FieldLines(fields)));
  }

  lemma UnsetIsEncodable(e: EnvEntry)
    requires e.value.None?
    ensures EnvEncodable(e)
  {
  }

  // ------------------------------------------------------------------- reading

  datatype Reading = Reading(request: HelperRequest, seen: set<Key>)

  const NothingRead := Reading(HelperRequest(None, "", [], false, None, [], -1, "", ""), {})

  /** One key and its value, or a refusal. */
  function Absorb(reading: Reading, f: Field): Option<Reading> {
    var q := reading.request;
    if !f.key.ArgKey? && !f.key.EnvKey? && f.key in reading.seen then None
    else
      var seen := if f.key.ArgKey? || f.key.EnvKey? then reading.seen else reading.seen + {f.key};
      match f.key
      case NonceKey => if f.value == "" then None else Some(Reading(q.(nonce := f.value), seen))
      case ModeKey => if ModeNamed(f.value).None? then None else Some(Reading(q.(mode := ModeNamed(f.value)), seen))
      case FileKey => Some(Reading(q.(file := f.value), seen))
      case VerbatimKey =>
        if f.value != "true" && f.value != "false" then None else Some(Reading(q.(verbatim := f.value == "true"), seen))
      case OwnerPidKey =>
        var pid := TryParseInt32(f.value);
        if pid.None? then None else Some(Reading(q.(ownerPid := pid.value), seen))
      case StatusPathKey => Some(Reading(q.(statusPath := f.value), seen))
      case ArgKey => Some(Reading(q.(args := q.args + [f.value]), seen))
      case CwdKey => Some(Reading(q.(cwd := Some(f.value)), seen))
      case EnvKey =>
        var k := FirstEquals(f.value);
        if k == 0 || k == |f.value| then None else Some(Reading(q.(env := q.env + [f.value]), seen))
  }

  function Absorbed(fs: seq<Field>): Option<Reading> {
    if fs == [] then Some(NothingRead)
    else
      var before := Absorbed(fs[..|fs| - 1]);
      if before.None? then None else Absorb(before.value, fs[|fs| - 1])
  }

  /** A line's key and value; `None` for a line that is not one, and for a key this helper does not know. */
  function FieldOn(line: string): Option<Field> {
    var pair := ParsePair(line, true);
    if pair.None? || KeyNamed(pair.value.key).None? then None
    else Some(Field(KeyNamed(pair.value.key).value, pair.value.value))
  }

  function FieldsOn(lines: seq<string>): Option<seq<Field>> {
    if lines == [] then Some([])
    else
      var before, last := FieldsOn(lines[..|lines| - 1]), FieldOn(lines[|lines| - 1]);
      if before.None? || last.None? then None else Some(before.value + [last.value])
  }

  predicate Complete(q: HelperRequest) {
    q.mode.Some? && q.file != "" && q.statusPath != "" && q.nonce != "" && q.ownerPid > 0
  }

  /** What the helper makes of a request file; `None` is OWNED_CONTAINMENT_REQUEST_INVALID. */
  function ReadRequest(text: string): Option<HelperRequest> {
    var fields := FieldsOn(NonEmptyLines(text));
    if fields.None? then None
    else
      var reading := Absorbed(fields.value);
      if reading.None? || !Complete(reading.value.request) then None else Some(reading.value.request)
  }

  // ---------------------------------------------------------------- round trip

  /** The request as the helper should hold it. */
  function HelperView(r: Request): HelperRequest {
    HelperRequest(Some(r.mode), r.file, r.args, r.verbatim, r.cwd, EnvOf(r), r.ownerPid, r.statusPath, r.nonce)
  }

  lemma {:induction false} FieldsReadBack(fs: seq<Field>)
    ensures FieldsOn(FieldLines(fs)) == Some(fs)
    ensures forall i | 0 <= i < |fs| :: FieldLines(fs)[i] != "" && OneLine(FieldLines(fs)[i])
    decreases |fs|
  {
    hide PairLine, ParsePair, KeyNamed, Name, OneLine;
    if fs != [] {
      var init, last := fs[..|fs| - 1], fs[|fs| - 1];
      FieldsReadBack(init);
      assert FieldLines(fs)[..|fs| - 1] == FieldLines(init);
      PairLinesReadBack(Name(last.key), last.value, true);
      NamesReadBack(last.key);
      assert FieldOn(FieldLines(fs)[|fs| - 1]) == Some(last);
      assert init + [last] == fs;
      forall i | 0 <= i < |fs| ensures FieldLines(fs)[i] != "" && OneLine(FieldLines(fs)[i]) {
        PairLinesReadBack(Name(fs[i].key), fs[i].value, true);
      }
    }
  }

  lemma AbsorbedStep(fs: seq<Field>, f: Field)
    ensures Absorbed(fs + [f]) == if Absorbed(fs).None? then None else Absorb(Absorbed(fs).value, f)
  {
    assert (fs + [f])[..|fs|] == fs;
  }

  lemma FirstScalarsAbsorbed(r: Request)
    requires Encodable(r)
    ensures
      var reading := Absorbed(ScalarFields(r)[..4]);
      && reading.Some?
      && reading.value.request == NothingRead.request.(
           nonce := r.nonce, mode := Some(r.mode), file := r.file, verbatim := r.verbatim)
      && OwnerPidKey !in reading.value.seen && StatusPathKey !in reading.value.seen && CwdKey !in reading.value.seen
  {
    hide Absorbed, Decimal, NoNul, ModeNamed, ModeName;
    ModesReadBack(r.mode);
    var fs := ScalarFields(r);
    NothingAbsorbed();
    AbsorbedStep([], fs[0]);
    assert [] + [fs[0]] == fs[..1];
    AbsorbedStep(fs[..1], fs[1]);
    assert fs[..1] + [fs[1]] == fs[..2];
    AbsorbedStep(fs[..2], fs[2]);
    assert fs[..2] + [fs[2]] == fs[..3];
    AbsorbedStep(fs[..3], fs[3]);
    assert fs[..3] + [fs[3]] == fs[..4];
  }

  /** The six scalars, the only place where the owner's pid can be refused. */
  lemma ScalarsAbsorbed(r: Request)
    requires Encodable(r)
    ensures r.ownerPid >= TWO_TO_31 ==> Absorbed(ScalarFields(r)).None?
    ensures r.ownerPid < TWO_TO_31 ==>
      && Absorbed(ScalarFields(r)).Some?
      && Absorbed(ScalarFields(r)).value.request == HelperView(r).(args := [], cwd := None, env := [])
      && CwdKey !in Absorbed(ScalarFields(r)).value.seen
  {
    hide Absorbed, TryParseInt32, Digits, NoNul, ModeName, BoolName, EnvTexts;
    TryParseOfDigits(r.ownerPid);
    FirstScalarsAbsorbed(r);
    var fs := ScalarFields(r);
    AbsorbedStep(fs[..4], fs[4]);
    assert fs[..4] + [fs[4]] == fs[..5];
    AbsorbedStep(fs[..5], fs[5]);
    assert fs[..5] + [fs[5]] == fs;
  }

  lemma ModesReadBack(m: Mode)
    ensures ModeNamed(ModeName(m)) == Some(m)
  {
  }

  lemma NothingAbsorbed()
    ensures Absorbed([]) == Some(NothingRead)
  {
  }

  lemma {:induction false} ArgsAbsorbed(fs: seq<Field>, args: seq<Text>)
    ensures
      Absorbed(fs + ArgFields(args)) ==
      if Absorbed(fs).None? then None
      else
        var reading := Absorbed(fs).value;
        Some(reading.(request := reading.request.(args := reading.request.args + args)))
    decreases |args|
  {
    hide Absorbed;
    if args == [] {
      assert fs + ArgFields(args) == fs;
      assert forall q: HelperRequest :: q.args + args == q.args;
    } else {
      var init, last := args[..|args| - 1], Field(ArgKey, args[|args| - 1]);
      ArgsAbsorbed(fs, init);
      AbsorbedStep(fs + ArgFields(init), last);
      assert fs + ArgFields(args) == fs + ArgFields(init) + [last];
      assert forall q: HelperRequest :: q.args + init + [args[|args| - 1]] == q.args + args;
    }
  }

  lemma {:induction false} EnvAbsorbed(fs: seq<Field>, texts: seq<Text>)
    requires forall i | 0 <= i < |texts| :: 0 < FirstEquals(texts[i]) < |texts[i]|
    ensures
      Absorbed(fs + EnvFields(texts)) ==
      if Absorbed(fs).None? then None
      else
        var reading := Absorbed(fs).value;
        Some(reading.(request := reading.request.(env := reading.request.env + texts)))
    decreases |texts|
  {
    hide Absorbed, FirstEquals;
    if texts == [] {
      assert fs + EnvFields(texts) == fs;
      assert forall q: HelperRequest :: q.env + texts == q.env;
    } else {
      var init, last := texts[..|texts| - 1], Field(EnvKey, texts[|texts| - 1]);
      EnvAbsorbed(fs, init);
      AbsorbedStep(fs + EnvFields(init), last);
      assert fs + EnvFields(texts) == fs + EnvFields(init) + [last];
      assert forall q: HelperRequest :: q.env + init + [texts[|texts| - 1]] == q.env + texts;
    }
  }

  lemma {:induction false} EnvTextsSplit(es: seq<EnvEntry>)
    requires forall i | 0 <= i < |es| :: EnvEncodable(es[i])
    ensures forall i | 0 <= i < |EnvTexts(es)| :: 0 < FirstEquals(EnvTexts(es)[i]) < |EnvTexts(es)[i]|
    decreases |es|
  {
    if es != [] {
      EnvTextsSplit(es[..|es| - 1]);
      var e := es[|es| - 1];
      if e.value.Some? {
        var text := e.name + "=" + e.value.value;
        assert text[|e.name|] == '=' && text[0] == e.name[0] && text[0] in e.name;
        assert FirstEquals(text) <= |e.name|;
      }
    }
  }

  lemma AllAbsorbed(r: Request)
    requires Encodable(r)
    ensures r.ownerPid >= TWO_TO_31 ==> Absorbed(RequestFields(r)).None?
    ensures r.ownerPid < TWO_TO_31 ==>
      Absorbed(RequestFields(r)).Some? && Absorbed(RequestFields(r)).value.request == HelperView(r)
  {
    hide Absorbed, FirstEquals, EnvTexts, EnvFields, ArgFields, ScalarFields, EnvEncodable, NoNul, Name, TryParseInt32;
    var scalars := ScalarFields(r);
    var withArgs := scalars + ArgFields(r.args);
    var withCwd := withArgs + CwdFields(r.cwd);
    ScalarsAbsorbed(r);
    ArgsAbsorbed(scalars, r.args);
    if r.cwd.Some? {
      AbsorbedStep(withArgs, Field(CwdKey, r.cwd.value));
    } else {
      assert withCwd == withArgs;
    }
    NoTextsSplit();
    if r.env.Some? { EnvTextsSplit(r.env.value); }
    EnvAbsorbed(withCwd, EnvOf(r));
    assert [] + r.args == r.args && [] + EnvOf(r) == EnvOf(r);
  }

  /**
   * The helper recovers every request the encoder accepts, and refuses exactly those whose
   * owner pid does not fit the helper's integer.
   */
  lemma RequestsCrossTheWire(r: Request)
    requires Encodable(r)
    ensures ReadRequest(Joined(FieldLines(RequestFields(r))))
      == if r.ownerPid < TWO_TO_31 then Some(HelperView(r)) else None
  {
    hide Absorbed, Joined, NonEmptyLines, FieldLines, FieldsOn, RequestFields, OneLine, Name;
    FieldsReadBack(RequestFields(r));
    JoinedLinesReadBack(FieldLines(RequestFields(r)));
    AllAbsorbed(r);
  }

  lemma NoTextsSplit()
    ensures EnvTexts([]) == []
  {
  }

  /**
   * A present environment replaces the helper's, the interface says; but one in which no
   * entry has a value is written exactly as an absent one, and is inherited.
   */
  lemma EmptyEnvironmentIsWrittenAsAbsent(r: Request, es: seq<EnvEntry>)
    ensures FieldLines(RequestFields(r.(env := Some(es)))) == FieldLines(RequestFields(r.(env := None)))
      <==> forall i | 0 <= i < |es| :: es[i].value.None?
  {
    hide Name, PairLine;
    var present, absent := RequestFields(r.(env := Some(es))), RequestFields(r.(env := None));
    EnvTextsEmpty(es);
    EnvFieldsLength(EnvTexts(es));
    assert |FieldLines(present)| - |FieldLines(absent)| == |EnvTexts(es)|;
    if EnvTexts(es) == [] { assert present == absent; }
  }

  /** A request for an empty environment, which the encoder accepts. */
  const EMPTY_ENVIRONMENT := Request(JobListMode, "tool", [], false, None, Some([]), 1, "status", "nonce")

  /**
   * The helper reads it back with no environment of its own, exactly as it reads one that
   * names none: it will inherit.
   */
  lemma AnEmptyEnvironmentIsInherited()
    ensures Encodable(EMPTY_ENVIRONMENT) && EMPTY_ENVIRONMENT.env == Some([])
    ensures
      var read := ReadRequest(Joined(FieldLines(RequestFields(EMPTY_ENVIRONMENT))));
      && read.Some? && read.value.env == []
      && read == ReadRequest(Joined(FieldLines(RequestFields(EMPTY_ENVIRONMENT.(env := None)))))
  {
    hide ReadRequest, Joined, FieldLines, RequestFields;
    RequestsCrossTheWire(EMPTY_ENVIRONMENT);
    RequestsCrossTheWire(EMPTY_ENVIRONMENT.(env := None));
    NoTextsSplit();
  }

  /** A request whose owner pid the encoder accepts and the helper cannot hold. */
  const LARGE_OWNER_PID := EMPTY_ENVIRONMENT.(ownerPid := TWO_TO_31)

  lemma ALargeOwnerPidIsRefused()
    ensures Encodable(LARGE_OWNER_PID) && LARGE_OWNER_PID.ownerPid == 0x8000_0000
    ensures ReadRequest(Joined(FieldLines(RequestFields(LARGE_OWNER_PID)))).None?
  {
    hide ReadRequest, Joined, FieldLines, RequestFields;
    RequestsCrossTheWire(LARGE_OWNER_PID);
  }

  lemma {:induction false} EnvTextsEmpty(es: seq<EnvEntry>)
    ensures EnvTexts(es) == [] <==> forall i | 0 <= i < |es| :: es[i].value.None?
    decreases |es|
  {
    if es != [] { EnvTextsEmpty(es[..|es| - 1]); }
  }

  lemma {:induction false} EnvFieldsLength(texts: seq<Text>)
    ensures |EnvFields(texts)| == |texts|
    decreases |texts|
  {
    if texts != [] { EnvFieldsLength(texts[..|texts| - 1]); }
  }

  // ----------------------------------------------------------------- strictness

  lemma {:induction false} BadLineRefuses(lines: seq<string>, i: nat)
    requires i < |lines| && FieldOn(lines[i]).None?
    ensures FieldsOn(lines).None?
    decreases |lines|
  {
    if i < |lines| - 1 { BadLineRefuses(lines[..|lines| - 1], i); }
  }

  /** One line with an unknown key, or with a value that is not base64, refuses the whole request. */
  lemma UnknownKeysAreRefused(text: string, i: nat)
    requires i < |NonEmptyLines(text)| && FieldOn(NonEmptyLines(text)[i]).None?
    ensures ReadRequest(text).None?
  {
    BadLineRefuses(NonEmptyLines(text), i);
  }

  predicate IsScalar(k: Key) { !k.ArgKey? && !k.EnvKey? }

  lemma {:induction false} ScalarsSeen(fs: seq<Field>, i: nat)
    requires i < |fs| && IsScalar(fs[i].key) && Absorbed(fs).Some?
    ensures fs[i].key in Absorbed(fs).value.seen
    decreases |fs|
  {
    if i < |fs| - 1 { ScalarsSeen(fs[..|fs| - 1], i); }
  }

  lemma {:induction false} RepeatedFieldRefuses(fs: seq<Field>, i: nat, j: nat)
    requires i < j < |fs| && IsScalar(fs[i].key) && fs[i].key == fs[j].key
    ensures Absorbed(fs).None?
    decreases |fs|
  {
    var init := fs[..|fs| - 1];
    if j < |fs| - 1 {
      RepeatedFieldRefuses(init, i, j);
    } else if Absorbed(init).Some? {
      ScalarsSeen(init, i);
    }
  }

  /** A scalar key given twice refuses the whole request, whatever the two values are. */
  lemma RepeatedScalarsAreRefused(text: string, i: nat, j: nat)
    requires FieldsOn(NonEmptyLines(text)).Some?
    requires
      var fs := FieldsOn(NonEmptyLines(text)).value;
      i < j < |fs| && IsScalar(fs[i].key) && fs[i].key == fs[j].key
    ensures ReadRequest(text).None?
  {
    RepeatedFieldRefuses(FieldsOn(NonEmptyLines(text)).value, i, j);
  }
}
