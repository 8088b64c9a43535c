/**
 * Which request files the helper accepts, and what it then holds: the exact set, from the
 * lines of the file. And what the encoder's own checks keep off the wire.
 */
module RequestAcceptance {
  import opened Base
  import opened Base64
  import opened WireLines
  import opened LaunchBoundary
  import opened BoundaryRequest

  // ------------------------------------------------------------------ the fields

  lemma KeyNamedIff(s: string, k: Key)
    ensures KeyNamed(s) == Some(k) <==> s == Name(k)
  {
    NamesReadBack(k);
  }

  /** A line is a field exactly when it is a pair under one of the nine names. */
  lemma FieldOnMeans(line: string, f: Field)
    ensures FieldOn(line) == Some(f) <==> ParsePair(line, true) == Some(Pair(Name(f.key), f.value))
  {
    hide ParsePair, KeyNamed, Name;
    if ParsePair(line, true).Some? { KeyNamedIff(ParsePair(line, true).value.key, f.key); }
  }

  lemma {:induction false} FieldsOnMean(lines: seq<string>)
    ensures FieldsOn(lines).Some? <==> forall i | 0 <= i < |lines| :: FieldOn(lines[i]).Some?
    ensures FieldsOn(lines).Some? ==> |FieldsOn(lines).value| == |lines|
    ensures FieldsOn(lines).Some? ==> forall i | 0 <= i < |lines| :: FieldOn(lines[i]) == Some(FieldsOn(lines).value[i])
    decreases |lines|
  {
    hide FieldOn;
    if lines != [] {
      var init := lines[..|lines| - 1];
      FieldsOnMean(init);
      assert forall i | 0 <= i < |init| :: init[i] == lines[i];
    }
  }

  /** The values a key can have. */
  ghost predicate Acceptable(f: Field) {
    match f.key
    case NonceKey => f.value != ""
    case ModeKey => f.value == "SUSPENDED" || f.value == "JOBLIST"
    case VerbatimKey => f.value == "true" || f.value == "false"
    case OwnerPidKey => TryParseInt32(f.value).Some?
    case EnvKey => f.value != "" && f.value[0] != '=' && '=' in f.value
    case FileKey => true
    case StatusPathKey => true
    case ArgKey => true
    case CwdKey => true
  }

  ghost predicate IsThere(fs: seq<Field>, k: Key) {
    exists i | 0 <= i < |fs| :: fs[i].key == k
  }

  /** A key that can be given once is given at most once. */
  ghost predicate NoneRepeated(fs: seq<Field>) {
    forall i, j | 0 <= i < j < |fs| && fs[i].key == fs[j].key :: fs[j].key == ArgKey || fs[j].key == EnvKey
  }

  /** The values given under a key, in order. */
  ghost function ValuesOf(fs: seq<Field>, k: Key): seq<Text> {
    if fs == [] then []
    else
      var last := fs[|fs| - 1];
      ValuesOf(fs[..|fs| - 1], k) + if last.key == k then [last.value] else []
  }

  /** What a request holds of one field. */
  ghost predicate HoldsField(q: HelperRequest, f: Field) {
    match f.key
    case NonceKey => q.nonce == f.value
    case ModeKey => q.mode == Some(if f.value == "SUSPENDED" then SuspendedMode else JobListMode)
    case FileKey => q.file == f.value
    case VerbatimKey => q.verbatim == (f.value == "true")
    case OwnerPidKey => Some(q.ownerPid) == TryParseInt32(f.value)
    case StatusPathKey => q.statusPath == f.value
    case CwdKey => q.cwd == Some(f.value)
    case ArgKey => true
    case EnvKey => true
  }

  /** What it holds of the keys that were not given. */
  ghost predicate HoldsNothingElse(q: HelperRequest, fs: seq<Field>) {
    && (IsThere(fs, NonceKey) || q.nonce == "") && (IsThere(fs, ModeKey) || q.mode.None?)
    && (IsThere(fs, FileKey) || q.file == "") && (IsThere(fs, VerbatimKey) || !q.verbatim)
    && (IsThere(fs, OwnerPidKey) || q.ownerPid == -1) && (IsThere(fs, StatusPathKey) || q.statusPath == "")
    && (IsThere(fs, CwdKey) || q.cwd.None?)
  }

  ghost predicate HoldsAll(q: HelperRequest, fs: seq<Field>) {
    && (forall i | 0 <= i < |fs| :: HoldsField(q, fs[i]))
    && HoldsNothingElse(q, fs)
    && q.args == ValuesOf(fs, ArgKey) && q.env == ValuesOf(fs, EnvKey)
  }

  ghost predicate SeenAre(seen: set<Key>, fs: seq<Field>) {
    forall k :: k in seen <==> IsThere(fs, k) && k != ArgKey && k != EnvKey
  }

  // ------------------------------------------------------------- field by field

  lemma AbsorbsIff(reading: Reading, f: Field)
    ensures Absorb(reading, f).Some? <==> Acceptable(f) && (f.key in reading.seen ==> f.key == ArgKey || f.key == EnvKey)
  {
    hide TryParseInt32;
  }

  lemma AbsorbHolds(reading: Reading, f: Field)
    requires Absorb(reading, f).Some?
    ensures
      var (q, n) := (reading.request, Absorb(reading, f).value.request);
      && HoldsField(n, f)
      && n.args == (if f.key == ArgKey then q.args + [f.value] else q.args)
      && n.env == (if f.key == EnvKey then q.env + [f.value] else q.env)
      && Absorb(reading, f).value.seen == reading.seen + (if f.key == ArgKey || f.key == EnvKey then {} else {f.key})
    ensures
      forall g: Field | g.key != f.key && HoldsField(reading.request, g) ::
        HoldsField(Absorb(reading, f).value.request, g)
  {
    hide TryParseInt32, FirstEquals;
  }

  lemma AbsorbLeavesTheRest(reading: Reading, f: Field, fs: seq<Field>)
    requires Absorb(reading, f).Some? && HoldsNothingElse(reading.request, fs)
    ensures HoldsNothingElse(Absorb(reading, f).value.request, fs + [f])
  {
    hide TryParseInt32, FirstEquals, IsThere;
    forall k ensures IsThere(fs + [f], k) <==> IsThere(fs, k) || f.key == k { ThereAfter(fs, f, k); }
  }

  lemma ThereAfter(fs: seq<Field>, f: Field, k: Key)
    ensures IsThere(fs + [f], k) <==> IsThere(fs, k) || f.key == k
  {
    if IsThere(fs, k) {
      var i :| 0 <= i < |fs| && fs[i].key == k;
      assert (fs + [f])[i].key == k;
    }
    if f.key == k { assert (fs + [f])[|fs|].key == k; }
  }

  lemma NoneRepeatedAfter(fs: seq<Field>, f: Field)
    ensures NoneRepeated(fs + [f]) <==> NoneRepeated(fs) && (IsThere(fs, f.key) ==> f.key == ArgKey || f.key == EnvKey)
  {
    var all := fs + [f];
    assert forall i | 0 <= i < |fs| :: all[i] == fs[i];
    assert all[|fs|] == f;
  }

  /** The reading of the fields so far: refused exactly when one is unacceptable or repeated, and complete otherwise. */
  lemma {:induction false} AbsorbedMeans(fs: seq<Field>)
    ensures Absorbed(fs).Some? <==> (forall i | 0 <= i < |fs| :: Acceptable(fs[i])) && NoneRepeated(fs)
    ensures Absorbed(fs).Some? ==> HoldsAll(Absorbed(fs).value.request, fs) && SeenAre(Absorbed(fs).value.seen, fs)
    decreases |fs|
  {
    hide Absorb, Acceptable, HoldsField, HoldsNothingElse, NoneRepeated, IsThere;
    if fs == [] {
      NothingIsHeld();
    } else {
      var init, last := fs[..|fs| - 1], fs[|fs| - 1];
      AbsorbedMeans(init);
      assert fs == init + [last];
      NoneRepeatedAfter(init, last);
      assert forall i | 0 <= i < |init| :: fs[i] == init[i];
      if Absorbed(init).Some? {
        var reading := Absorbed(init).value;
        AbsorbsIff(reading, last);
        if Absorbed(fs).Some? { AbsorbedHolds(reading, init, last); }
      }
    }
  }

  lemma NothingIsHeld()
    ensures HoldsNothingElse(NothingRead.request, []) && NoneRepeated([])
    ensures forall k :: !IsThere([], k)
  {
  }

  lemma AbsorbedHolds(reading: Reading, init: seq<Field>, last: Field)
    requires HoldsAll(reading.request, init) && SeenAre(reading.seen, init)
    requires Absorb(reading, last).Some?
    ensures HoldsAll(Absorb(reading, last).value.request, init + [last])
    ensures SeenAre(Absorb(reading, last).value.seen, init + [last])
  {
    hide Absorb, HoldsField, HoldsNothingElse, IsThere;
    var fs, next := init + [last], Absorb(reading, last).value;
    AbsorbsIff(reading, last);
    AbsorbHolds(reading, last);
    AbsorbLeavesTheRest(reading, last, init);
    assert fs[..|fs| - 1] == init && fs[|fs| - 1] == last;
    forall k ensures IsThere(fs, k) <==> IsThere(init, k) || last.key == k { ThereAfter(init, last, k); }
    forall i | 0 <= i < |fs| ensures HoldsField(next.request, fs[i]) {
      if i < |init| {
        assert fs[i] == init[i] && HoldsField(reading.request, init[i]);
        if fs[i].key == last.key { SameKeyIsRepeatable(reading.seen, init, i, last, next.request); }
      }
    }
  }

  lemma SameKeyIsRepeatable(seen: set<Key>, init: seq<Field>, i: nat, last: Field, q: HelperRequest)
    requires SeenAre(seen, init) && i < |init| && init[i].key == last.key
    requires last.key in seen ==> last.key == ArgKey || last.key == EnvKey
    ensures HoldsField(q, init[i])
  {
    assert IsThere(init, last.key);
  }

  // ------------------------------------------------------------ the whole file

  /** A key that has to be there, with something in it. */
  ghost predicate IsGiven(fs: seq<Field>, k: Key) {
    exists i | 0 <= i < |fs| :: fs[i].key == k && fs[i].value != ""
  }

  ghost predicate HasAnOwner(fs: seq<Field>) {
    exists i | 0 <= i < |fs| :: fs[i].key == OwnerPidKey && TryParseInt32(fs[i].value).Some? && TryParseInt32(fs[i].value).value > 0
  }

  /**
   * The helper accepts a file exactly when every line is a field with a value its key can
   * have, no key is given twice but arguments and environment entries, and mode, program,
   * status path, nonce and a positive owner are there. It then holds those values, the
   * arguments and entries in their order, and nothing else.
   */
  lemma RequestsAreReadIff(text: string)
    ensures
      var fields := FieldsOn(NonEmptyLines(text));
      && (ReadRequest(text).Some? <==>
            && fields.Some?
            && (forall i | 0 <= i < |fields.value| :: Acceptable(fields.value[i]))
            && NoneRepeated(fields.value)
            && IsGiven(fields.value, ModeKey) && IsGiven(fields.value, FileKey) && IsGiven(fields.value, StatusPathKey)
            && IsGiven(fields.value, NonceKey) && HasAnOwner(fields.value))
      && (ReadRequest(text).Some? ==> HoldsAll(ReadRequest(text).value, fields.value))
  {
    hide Absorbed, NonEmptyLines, FieldsOn, HoldsAll, NoneRepeated, Acceptable, IsGiven, HasAnOwner;
    var fields := FieldsOn(NonEmptyLines(text));
    if fields.Some? {
      AbsorbedMeans(fields.value);
      if Absorbed(fields.value).Some? { CompleteMeans(Absorbed(fields.value).value.request, fields.value); }
    }
  }

  lemma CompleteMeans(q: HelperRequest, fs: seq<Field>)
    requires HoldsAll(q, fs) && forall i | 0 <= i < |fs| :: Acceptable(fs[i])
    ensures Complete(q) <==>
      && IsGiven(fs, ModeKey) && IsGiven(fs, FileKey) && IsGiven(fs, StatusPathKey) && IsGiven(fs, NonceKey) && HasAnOwner(fs)
  {
    hide TryParseInt32, ValuesOf;
  }

  // ------------------------------------------------------- what stays off the wire

  lemma {:induction false} ArgFieldsAre(args: seq<Text>, f: Field)
    ensures f in ArgFields(args) <==> f.key == ArgKey && f.value in args
    decreases |args|
  {
    if args != [] {
      ArgFieldsAre(args[..|args| - 1], f);
      assert args == args[..|args| - 1] + [args[|args| - 1]];
    }
  }

  lemma {:induction false} EnvFieldsAre(texts: seq<Text>, f: Field)
    ensures f in EnvFields(texts) <==> f.key == EnvKey && f.value in texts
    decreases |texts|
  {
    if texts != [] {
      EnvFieldsAre(texts[..|texts| - 1], f);
      assert texts == texts[..|texts| - 1] + [texts[|texts| - 1]];
    }
  }

  lemma {:induction false} EnvTextsAre(es: seq<EnvEntry>, text: Text)
    ensures text in EnvTexts(es) <==> exists e | e in es :: e.value.Some? && text == e.name + "=" + e.value.value
    decreases |es|
  {
    if es != [] {
      var init, last := es[..|es| - 1], es[|es| - 1];
      EnvTextsAre(init, text);
      assert es == init + [last];
      assert forall e :: e in es <==> e in init || e == last;
    }
  }

  lemma {:induction false} DigitsHoldNoNul(n: nat)
    ensures NUL !in Digits(n)
  {
    if n >= 10 { DigitsHoldNoNul(n / 10); }
  }

  /** No field the encoder writes holds a NUL. */
  ghost predicate NothingHoldsANul(fs: seq<Field>) {
    forall f | f in fs :: NUL !in f.value
  }

  lemma ScalarsHoldNoNul(r: Request)
    requires r.ownerPid > 0
    ensures NothingHoldsANul(ScalarFields(r)) <==> NUL !in r.nonce && NUL !in r.file && NUL !in r.statusPath
  {
    hide Digits;
    DigitsHoldNoNul(r.ownerPid);
    var fs := ScalarFields(r);
    assert fs[0] in fs && fs[2] in fs && fs[5] in fs;
  }

  lemma ArgsHoldNoNul(args: seq<Text>)
    ensures NothingHoldsANul(ArgFields(args)) <==> forall i | 0 <= i < |args| :: NUL !in args[i]
  {
    forall f ensures f in ArgFields(args) <==> f.key == ArgKey && f.value in args { ArgFieldsAre(args, f); }
    if NothingHoldsANul(ArgFields(args)) {
      forall i | 0 <= i < |args| ensures NUL !in args[i] { assert Field(ArgKey, args[i]) in ArgFields(args); }
    }
  }

  /** The entries that have a value hold no NUL. */
  ghost predicate EntriesHoldNoNul(es: seq<EnvEntry>) {
    forall e | e in es && e.value.Some? :: NUL !in e.name && NUL !in e.value.value
  }

  lemma EnvHoldsNoNul(es: seq<EnvEntry>)
    ensures NothingHoldsANul(EnvFields(EnvTexts(es))) <==> EntriesHoldNoNul(es)
  {
    var texts := EnvTexts(es);
    forall f ensures f in EnvFields(texts) <==> f.key == EnvKey && f.value in texts { EnvFieldsAre(texts, f); }
    forall text ensures text in texts <==> exists e | e in es :: e.value.Some? && text == e.name + "=" + e.value.value {
      EnvTextsAre(es, text);
    }
    if NothingHoldsANul(EnvFields(texts)) {
      forall e | e in es && e.value.Some? ensures NUL !in e.name && NUL !in e.value.value {
        var text: Text := e.name + "=" + e.value.value;
        assert Field(EnvKey, text) in EnvFields(texts) && NUL !in text;
      }
    }
  }

  /**
   * The encoder refuses exactly the requests that would put a NUL on the wire, that lack an
   * owner, a nonce, a program or a status path, or that set a variable whose name is empty
   * or holds the sign that ends a name.
   */
  lemma EncodableMeans(r: Request)
    ensures Encodable(r) <==>
      && r.ownerPid > 0 && r.nonce != "" && r.file != "" && r.statusPath != ""
      && NothingHoldsANul(RequestFields(r))
      && (r.env.Some? ==> forall e | e in r.env.value && e.value.Some? :: e.name != "" && '=' !in e.name)
  {
    hide EnvTexts, EnvFields, ArgFields, ScalarFields, NothingHoldsANul;
    var (s, a, c, e) := (ScalarFields(r), ArgFields(r.args), CwdFields(r.cwd), EnvFields(EnvOf(r)));
    PartsHoldNoNul(s, a, c, e);
    ArgsHoldNoNul(r.args);
    CwdHoldsNoNul(r.cwd);
    EnvHoldsNoNul(if r.env.Some? then r.env.value else []);
    assert EnvOf(r) == EnvTexts(if r.env.Some? then r.env.value else []) by { NoTextsSplit(); }
    if r.ownerPid > 0 { ScalarsHoldNoNul(r); }
    if r.env.Some? { EntriesAreEncodable(r.env.value); }
  }

  lemma EntriesAreEncodable(es: seq<EnvEntry>)
    ensures (forall i | 0 <= i < |es| :: EnvEncodable(es[i])) <==>
      EntriesHoldNoNul(es) && forall e | e in es && e.value.Some? :: e.name != "" && '=' !in e.name
  {
    assert forall i | 0 <= i < |es| :: es[i] in es;
  }

  lemma CwdHoldsNoNul(cwd: Option<Text>)
    ensures NothingHoldsANul(CwdFields(cwd)) <==> (cwd.Some? ==> NUL !in cwd.value)
  {
    if cwd.Some? { assert Field(CwdKey, cwd.value) in CwdFields(cwd); }
  }

  lemma PartsHoldNoNul(s: seq<Field>, a: seq<Field>, c: seq<Field>, e: seq<Field>)
    ensures NothingHoldsANul(s + a + c + e) <==>
      NothingHoldsANul(s) && NothingHoldsANul(a) && NothingHoldsANul(c) && NothingHoldsANul(e)
  {
    assert forall f :: f in s + a + c + e <==> f in s || f in a || f in c || f in e;
  }
}
