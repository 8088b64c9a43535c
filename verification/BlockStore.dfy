/**
 * Where block-run ledgers live, and the gates a write passes through.
 *
 * One file per run. A file's revision is the document itself: SHA-256 over the bytes is
 * taken to be injective, and serialising a ledger and parsing it back to be the identity.
 */
module BlockStore {
  import opened Base
  import opened Identifiers
  import opened TaskRecords
  import opened BlockLedger
  import opened BlockEvidence

  datatype Document =
    | Malformed
    | NotALedger(declaredVersion: Option<int>)
    | LedgerText(ledger: Ledger)

  datatype FileContent = Unreadable | Bytes(document: Document)

  type Files = map<string, FileContent>

  /** Whether the syscalls of one write succeed. */
  datatype WriteFate = Lands | DirectoryFails | ReplaceFails

  datatype ConflictDetail =
    | LedgerExists | FileUnreadable | LedgerAbsent | RevisionMismatch
    | PredecessorMalformed | PredecessorInvalid | PredecessorSchemaUnsupported

  datatype SaveCode =
    | LedgerContractViolation
    | CreationMustClaimNoProgress
    | RepositoryRootNotAbsolute
    | RepositoryRootMismatch
    | RepositoryProfileUnusable
    | RepositoryIdMismatch
    | LedgerConflict(conflict: ConflictDetail)
    | LedgerSuccessionRefused
    | EntryNotProven(proof: ProofCode)
    | DirectoryCreateFailed
    | WriteFailed

  datatype SaveResult = Saved(revision: Document) | Refused(code: SaveCode)

  datatype PathIdentity = Equal | Different | NotAbsolute

  predicate IsAbsolute(path: string) {
    path != [] && path[0] == '/'
  }

  function ComparePathIdentity(a: string, b: string): PathIdentity {
    if !IsAbsolute(a) || !IsAbsolute(b) then NotAbsolute
    else if a == b then Equal
    else Different
  }

  /** `safeParseBlockRunLedger` over whatever the JSON parser produced. */
  function Parse(document: Document): Option<Ledger> {
    match document
    case LedgerText(l) => if Valid(l) then Some(l) else None
    case _ => None
  }

  /** A usable version declaration: a positive integer, of a document that is an object. */
  function DeclaredSchemaVersion(document: Document): Option<int> {
    match document
    case Malformed => None
    case NotALedger(v) => if v.Some? && v.value > 0 then v else None
    case LedgerText(l) => if l.schemaVersion > 0 then Some(l.schemaVersion) else None
  }

  predicate DeclaresAnotherVersion(document: Document) {
    var v := DeclaredSchemaVersion(document);
    v.Some? && v.value != BLOCK_LEDGER_SCHEMA_VERSION
  }

  /** The document's own identity claims, held against the checkout it is going to. */
  function CheckRecordedIdentity(l: Ledger, root: string, declared: Option<string>): Option<SaveCode> {
    match ComparePathIdentity(l.repositoryRoot, root)
    case NotAbsolute => Some(RepositoryRootNotAbsolute)
    case Different => Some(RepositoryRootMismatch)
    case Equal =>
      if declared.None? then Some(RepositoryProfileUnusable)
      else if declared.value != l.repositoryId then Some(RepositoryIdMismatch)
      else None
  }

  predicate NamesCheckout(l: Ledger, root: string, declared: Option<string>) {
    CheckRecordedIdentity(l, root, declared).None?
  }

  predicate ClaimsNothing(l: Ledger) {
    l.stopReason.None? && l.activeTaskId.None? && forall e | e in l.tasks :: e.disposition == Planned
  }

  predicate DispositionsMoved(p: Ledger, n: Ledger) {
    exists i | 0 <= i < |n.tasks| :: MovedAt(p, n, i)
  }

  predicate MovedAt(p: Ledger, n: Ledger, i: nat)
    requires i < |n.tasks|
  {
    i >= |p.tasks| || n.tasks[i].disposition != p.tasks[i].disposition
  }

  predicate NewlyClaimsProgress(p: Ledger, n: Ledger) {
    n.stopReason.Some? && n.stopReason != p.stopReason && ClaimsProgress(n.stopReason.value)
  }

  /** The position of the first entry the records do not support; the length when all are. */
  function FirstUnsupported(records: Records, tasks: seq<Entry>): (k: nat)
    ensures k <= |tasks|
    ensures forall i | 0 <= i < k :: ProveEntry(records, tasks[i]) == Proven
    ensures k < |tasks| ==> ProveEntry(records, tasks[k]) != Proven
  {
    if tasks == [] || ProveEntry(records, tasks[0]) != Proven then 0
    else 1 + FirstUnsupported(records, tasks[1..])
  }

  function FirstUnprovenClaimOf(p: Ledger, n: Ledger, records: Records): Option<ProofCode> {
    if !DispositionsMoved(p, n) && !NewlyClaimsProgress(p, n) then None
    else
      var k := FirstUnsupported(records, n.tasks);
      if k == |n.tasks| then None else Some(ProveEntry(records, n.tasks[k]))
  }

  function Persisted(next: Document, fate: WriteFate): SaveResult {
    match fate
    case Lands => Saved(next)
    case DirectoryFails => Refused(DirectoryCreateFailed)
    case ReplaceFails => Refused(WriteFailed)
  }

  /** What one update answers, gate by gate. */
  function UpdateOutcome(
    files: Files, root: string, declared: Option<string>,
    next: Document, expected: Document, records: Records, fate: WriteFate): SaveResult
  {
    var parsed := Parse(next);
    if parsed.None? then Refused(LedgerContractViolation) else
    var n := parsed.value;
    var identity := CheckRecordedIdentity(n, root, declared);
    if identity.Some? then Refused(identity.value) else
    if n.runId !in files then Refused(LedgerConflict(LedgerAbsent)) else
    match files[n.runId]
    case Unreadable => Refused(LedgerConflict(FileUnreadable))
    case Bytes(current) =>
      if current != expected then Refused(LedgerConflict(RevisionMismatch)) else
      if current.Malformed? then Refused(LedgerConflict(PredecessorMalformed)) else
      var previous := Parse(current);
      if previous.None? then
        Refused(LedgerConflict(
          if DeclaresAnotherVersion(current) then PredecessorSchemaUnsupported else PredecessorInvalid))
      else if !LegalSuccessor(previous.value, n) then Refused(LedgerSuccessionRefused) else
      var unproven := FirstUnprovenClaimOf(previous.value, n, records);
      if unproven.Some? then Refused(EntryNotProven(unproven.value))
      else Persisted(next, fate)
  }

  function CreateOutcome(
    files: Files, root: string, declared: Option<string>, next: Document, fate: WriteFate): SaveResult
  {
    var parsed := Parse(next);
    if parsed.None? then Refused(LedgerContractViolation) else
    var n := parsed.value;
    if !ClaimsNothing(n) then Refused(CreationMustClaimNoProgress) else
    var identity := CheckRecordedIdentity(n, root, declared);
    if identity.Some? then Refused(identity.value) else
    if n.runId in files then
      Refused(LedgerConflict(if files[n.runId].Unreadable? then FileUnreadable else LedgerExists))
    else Persisted(next, fate)
  }

  datatype LoadCode =
    | LocationUnsuitable
    | LoadMissing
    | LoadUnreadable
    | LoadMalformed
    | LoadSchemaUnsupported
    | LoadContractViolation
    | LoadRootNotAbsolute
    | LoadRootMismatch
    | LoadRunIdMismatch
    | LoadProfileUnusable
    | LoadRepositoryIdMismatch

  datatype LoadResult = Loaded(ledger: Ledger, revision: Document) | NotLoaded(code: LoadCode)

  function LoadOutcome(files: Files, root: string, declared: Option<string>, runId: string): LoadResult {
    if !IsAbsolute(root) || !IsValidTaskId(runId) then NotLoaded(LocationUnsuitable) else
    if runId !in files then NotLoaded(LoadMissing) else
    match files[runId]
    case Unreadable => NotLoaded(LoadUnreadable)
    case Bytes(document) =>
      if document.Malformed? then NotLoaded(LoadMalformed) else
      if DeclaresAnotherVersion(document) then NotLoaded(LoadSchemaUnsupported) else
      var parsed := Parse(document);
      if parsed.None? then NotLoaded(LoadContractViolation) else
      var l := parsed.value;
      match ComparePathIdentity(l.repositoryRoot, root)
      case NotAbsolute => NotLoaded(LoadRootNotAbsolute)
      case Different => NotLoaded(LoadRootMismatch)
      case Equal =>
        if l.runId != runId then NotLoaded(LoadRunIdMismatch)
        else if declared.None? then NotLoaded(LoadProfileUnusable)
        else if declared.value != l.repositoryId then NotLoaded(LoadRepositoryIdMismatch)
        else Loaded(l, document)
  }

  /** The file map after a save that answered `r`. */
  function FilesAfter(files: Files, next: Document, r: SaveResult): Files {
    if r.Saved? && next.LedgerText? then files[next.ledger.runId := Bytes(next)] else files
  }

  /** One checkout's ledgers. Every method that refuses leaves every file as it was. */
  class Store {
    const root: string
    var declaredId: Option<string>
    var files: Files

    constructor (root: string, declaredId: Option<string>)
      ensures this.root == root && this.declaredId == declaredId && files == map[]
    {
      this.root := root;
      this.declaredId := declaredId;
      this.files := map[];
    }

    /** Reads every entry once any disposition moved, and stops at the first unsupported one. */
    method FirstUnprovenClaim(p: Ledger, n: Ledger, records: Records) returns (code: Option<ProofCode>)
      ensures code == FirstUnprovenClaimOf(p, n, records)
    {
      var moved := false;
      for i := 0 to |n.tasks|
        invariant moved <==> exists k | 0 <= k < i :: MovedAt(p, n, k)
      {
        if MovedAt(p, n, i) { moved := true; }
      }
      if !moved && !NewlyClaimsProgress(p, n) { return None; }
      for i := 0 to |n.tasks|
        invariant forall k | 0 <= k < i :: ProveEntry(records, n.tasks[k]) == Proven
      {
        if ProveEntry(records, n.tasks[i]) != Proven {
          assert FirstUnsupported(records, n.tasks) == i;
          return Some(ProveEntry(records, n.tasks[i]));
        }
      }
      return None;
    }

    method Create(next: Document, fate: WriteFate) returns (r: SaveResult)
      modifies this`files
      ensures r == CreateOutcome(old(files), root, declaredId, next, fate)
      ensures files == FilesAfter(old(files), next, r)
      ensures r.Refused? ==> SaveExplained(r.code, old(files), root, declaredId, next, None, map[], fate)
      ensures r.Saved? ==> r == Saved(next) && fate == Lands
    {
      CreateRefusalsAreExplained(files, root, declaredId, next, map[], fate);
      SavedMeansLanded(files, root, declaredId, next, next, map[], fate);
      hide SaveExplained;
      hide Valid, CheckRecordedIdentity, ClaimsNothing;
      var parsed := Parse(next);
      if parsed.None? { return Refused(LedgerContractViolation); }
      var value := parsed.value;
      if !ClaimsNothing(value) { return Refused(CreationMustClaimNoProgress); }
      var identity := CheckRecordedIdentity(value, root, declaredId);
      if identity.Some? { return Refused(identity.value); }
      if value.runId in files {
        return Refused(LedgerConflict(if files[value.runId].Unreadable? then FileUnreadable else LedgerExists));
      }
      r := Persisted(next, fate);
      if r.Saved? { files := files[value.runId := Bytes(next)]; }
    }

    method Update(next: Document, expected: Document, records: Records, fate: WriteFate)
      returns (r: SaveResult)
      modifies this`files
      ensures r == UpdateOutcome(old(files), root, declaredId, next, expected, records, fate)
      ensures files == FilesAfter(old(files), next, r)
      ensures r.Refused? ==> SaveExplained(r.code, old(files), root, declaredId, next, Some(expected), records, fate)
      ensures r.Saved? ==> r == Saved(next) && fate == Lands
    {
      UpdateRefusalsAreExplained(files, root, declaredId, next, expected, records, fate);
      SavedMeansLanded(files, root, declaredId, next, expected, records, fate);
      hide SaveExplained;
      hide Valid, LegalSuccessor, CheckRecordedIdentity, FirstUnprovenClaimOf, DeclaresAnotherVersion;
      var parsed := Parse(next);
      if parsed.None? { return Refused(LedgerContractViolation); }
      var n := parsed.value;
      var identity := CheckRecordedIdentity(n, root, declaredId);
      if identity.Some? { return Refused(identity.value); }
      if n.runId !in files { return Refused(LedgerConflict(LedgerAbsent)); }
      if files[n.runId].Unreadable? { return Refused(LedgerConflict(FileUnreadable)); }
      var current := files[n.runId].document;
      if current != expected { return Refused(LedgerConflict(RevisionMismatch)); }
      if current.Malformed? { return Refused(LedgerConflict(PredecessorMalformed)); }
      var previous := Parse(current);
      if previous.None? {
        return Refused(LedgerConflict(
          if DeclaresAnotherVersion(current) then PredecessorSchemaUnsupported else PredecessorInvalid));
      }
      var violations := AssessLedgerSuccession(previous.value, n);
      if violations != {} { return Refused(LedgerSuccessionRefused); }
      var unproven := FirstUnprovenClaim(previous.value, n, records);
      if unproven.Some? { return Refused(EntryNotProven(unproven.value)); }
      r := Persisted(next, fate);
      if r.Saved? { files := files[n.runId := Bytes(next)]; }
    }

    /** Loads what is on disk, or says the first thing that is wrong with it; changes nothing. */
    method LoadLedger(runId: string) returns (r: LoadResult)
      ensures r == LoadOutcome(files, root, declaredId, runId)
      ensures forall l, doc :: r == Loaded(l, doc) <==> Loadable(files, root, declaredId, runId, l, doc)
      ensures r.NotLoaded? ==> LoadExplained(r.code, files, root, declaredId, runId)
    {
      LoadedIff(files, root, declaredId, runId);
      LoadRefusalsAreExplained(files, root, declaredId, runId);
      hide Valid, IsValidTaskId, DeclaresAnotherVersion;
      if !IsAbsolute(root) || !IsValidTaskId(runId) { return NotLoaded(LocationUnsuitable); }
      if runId !in files { return NotLoaded(LoadMissing); }
      if files[runId].Unreadable? { return NotLoaded(LoadUnreadable); }
      var document := files[runId].document;
      if document.Malformed? { return NotLoaded(LoadMalformed); }
      if DeclaresAnotherVersion(document) { return NotLoaded(LoadSchemaUnsupported); }
      var parsed := Parse(document);
      if parsed.None? { return NotLoaded(LoadContractViolation); }
      var identity := ComparePathIdentity(parsed.value.repositoryRoot, root);
      if identity == NotAbsolute { return NotLoaded(LoadRootNotAbsolute); }
      if identity == Different { return NotLoaded(LoadRootMismatch); }
      if parsed.value.runId != runId { return NotLoaded(LoadRunIdMismatch); }
      if declaredId.None? { return NotLoaded(LoadProfileUnusable); }
      if declaredId.value != parsed.value.repositoryId { return NotLoaded(LoadRepositoryIdMismatch); }
      return Loaded(parsed.value, document);
    }
  }

  /** The file at this run's place holds a valid ledger that names this run, root and repository. */
  ghost predicate Loadable(
    files: Files, root: string, declared: Option<string>, runId: string, l: Ledger, doc: Document)
  {
    && IsAbsolute(root) && IsValidTaskId(runId)
    && runId in files && files[runId] == Bytes(doc) && doc == LedgerText(l)
    && Valid(l) && l.runId == runId && l.repositoryRoot == root && declared == Some(l.repositoryId)
  }

  /** The document says of itself that it has a schema version, and it is not the one read here. */
  ghost predicate OfAnotherVersion(document: Document) {
    match document
    case Malformed => false
    case NotALedger(v) => v.Some? && v.value >= 1 && v.value != 2
    case LedgerText(l) => l.schemaVersion >= 1 && l.schemaVersion != 2
  }

  ghost predicate RootedPath(path: string) { |path| > 0 && path[0] == '/' }

  /** A disposition differs from the predecessor's, or a claim of progress is newly the reason to stop. */
  ghost predicate ProofIsOwed(p: Ledger, n: Ledger) {
    || (exists i | 0 <= i < |n.tasks| :: i >= |p.tasks| || n.tasks[i].disposition != p.tasks[i].disposition)
    || (n.stopReason != p.stopReason
        && (n.stopReason == Some(Complete) || n.stopReason == Some(TaskBlocked) || n.stopReason == Some(TaskAbandoned)))
  }

  /** The first entry the records do not support, with its proof code, where a proof is owed. */
  ghost predicate FirstWithoutProof(p: Ledger, n: Ledger, records: Records, code: ProofCode) {
    && ProofIsOwed(p, n)
    && exists k | 0 <= k < |n.tasks| ::
         && !Supported(records, n.tasks[k]) && code == ProveEntry(records, n.tasks[k])
         && forall i | 0 <= i < k :: Supported(records, n.tasks[i])
  }

  /** What each refusal of a write says about the document, the checkout, the file, the records or the disk. */
  ghost predicate SaveExplained(
    code: SaveCode, files: Files, root: string, declared: Option<string>,
    next: Document, expected: Option<Document>, records: Records, fate: WriteFate)
  {
    if code == LedgerContractViolation then !next.LedgerText? || !Valid(next.ledger)
    else
      && next.LedgerText? && Valid(next.ledger)
      && var n := next.ledger;
         match code
         case LedgerContractViolation => false
         case CreationMustClaimNoProgress =>
           expected.None? && (n.stopReason.Some? || exists i | 0 <= i < |n.tasks| :: n.tasks[i].disposition != Planned)
         case RepositoryRootNotAbsolute => !RootedPath(n.repositoryRoot) || !RootedPath(root)
         case RepositoryRootMismatch => RootedPath(n.repositoryRoot) && RootedPath(root) && n.repositoryRoot != root
         case RepositoryProfileUnusable => declared.None?
         case RepositoryIdMismatch => declared.Some? && declared.value != n.repositoryId
         case LedgerConflict(LedgerExists) => expected.None? && n.runId in files && files[n.runId].Bytes?
         case LedgerConflict(FileUnreadable) => n.runId in files && files[n.runId].Unreadable?
         case LedgerConflict(LedgerAbsent) => expected.Some? && n.runId !in files
         case LedgerConflict(why) =>
           && expected.Some? && n.runId in files && files[n.runId].Bytes?
           && var current := files[n.runId].document;
              && (why == RevisionMismatch <==> current != expected.value)
              && (why == PredecessorMalformed ==> current.Malformed?)
              && (why == PredecessorSchemaUnsupported ==> OfAnotherVersion(current))
              && (why == PredecessorInvalid ==> !OfAnotherVersion(current) && !current.Malformed? && Parse(current).None?)
         case LedgerSuccessionRefused =>
           && expected.Some? && expected.value.LedgerText? && Valid(expected.value.ledger)
           && !Succeeds(expected.value.ledger, n)
         case EntryNotProven(proof) =>
           && expected.Some? && expected.value.LedgerText? && FirstWithoutProof(expected.value.ledger, n, records, proof)
         case DirectoryCreateFailed => fate == DirectoryFails
         case WriteFailed => fate == ReplaceFails
  }

  lemma AnotherVersionMeans(document: Document)
    ensures DeclaresAnotherVersion(document) <==> OfAnotherVersion(document)
  {
  }

  lemma ProofOwedMeans(p: Ledger, n: Ledger)
    ensures DispositionsMoved(p, n) || NewlyClaimsProgress(p, n) <==> ProofIsOwed(p, n)
  {
    if i :| 0 <= i < |n.tasks| && (i >= |p.tasks| || n.tasks[i].disposition != p.tasks[i].disposition) {
      assert MovedAt(p, n, i);
    }
    if DispositionsMoved(p, n) {
      var i :| 0 <= i < |n.tasks| && MovedAt(p, n, i);
      assert ProofIsOwed(p, n);
    }
  }

  lemma UnprovenMeans(p: Ledger, n: Ledger, records: Records)
    ensures FirstUnprovenClaimOf(p, n, records).Some? ==>
      FirstWithoutProof(p, n, records, FirstUnprovenClaimOf(p, n, records).value)
  {
    hide DispositionsMoved, NewlyClaimsProgress, ProveEntry, Supported, ProofIsOwed;
    ProofOwedMeans(p, n);
    forall i | 0 <= i < |n.tasks| ensures ProveEntry(records, n.tasks[i]) == Proven <==> Supported(records, n.tasks[i]) {
      ProvenMeansSupported(records, n.tasks[i]);
    }
  }

  lemma IdentityRefusalsMean(
    files: Files, root: string, declared: Option<string>,
    next: Document, expected: Option<Document>, records: Records, fate: WriteFate)
    requires next.LedgerText? && Valid(next.ledger) && CheckRecordedIdentity(next.ledger, root, declared).Some?
    ensures SaveExplained(
      CheckRecordedIdentity(next.ledger, root, declared).value, files, root, declared, next, expected, records, fate)
  {
    hide Valid, Succeeds;
  }

  lemma CreateRefusalsAreExplained(
    files: Files, root: string, declared: Option<string>, next: Document, records: Records, fate: WriteFate)
    ensures
      var r := CreateOutcome(files, root, declared, next, fate);
      r.Refused? ==> SaveExplained(r.code, files, root, declared, next, None, records, fate)
  {
    hide Valid, CheckRecordedIdentity, Succeeds, FirstWithoutProof, OfAnotherVersion, RootedPath;
    if Parse(next).Some? {
      NotPlannedMeans(next.ledger);
      if CheckRecordedIdentity(next.ledger, root, declared).Some? {
        IdentityRefusalsMean(files, root, declared, next, None, records, fate);
      }
    }
  }

  /** A valid document in which every entry is planned has no active task. */
  lemma NotPlannedMeans(l: Ledger)
    requires Valid(l)
    ensures ClaimsNothing(l) <==> l.stopReason.None? && forall i | 0 <= i < |l.tasks| :: l.tasks[i].disposition == Planned
  {
    hide WellShaped, MirrorsMembership, RelationIsCanonical, StopAgrees, CarriesEvidence;
    if forall i | 0 <= i < |l.tasks| :: l.tasks[i].disposition == Planned {
      assert forall e | e in l.tasks :: e.disposition == Planned;
    }
    assert forall i | 0 <= i < |l.tasks| :: l.tasks[i] in l.tasks;
  }

  lemma UpdateRefusalsAreExplained(
    files: Files, root: string, declared: Option<string>,
    next: Document, expected: Document, records: Records, fate: WriteFate)
    ensures
      var r := UpdateOutcome(files, root, declared, next, expected, records, fate);
      r.Refused? ==> SaveExplained(r.code, files, root, declared, next, Some(expected), records, fate)
  {
    hide Valid, CheckRecordedIdentity, LegalSuccessor, FirstUnprovenClaimOf, DeclaresAnotherVersion, OfAnotherVersion,
      FirstWithoutProof, Succeeds, RootedPath;
    if Parse(next).Some? {
      var n := next.ledger;
      if CheckRecordedIdentity(n, root, declared).Some? {
        IdentityRefusalsMean(files, root, declared, next, Some(expected), records, fate);
      }
      AnotherVersionMeans(expected);
      if expected.LedgerText? {
        UnprovenMeans(expected.ledger, n, records);
        if Valid(expected.ledger) { LegalSuccessorMeans(expected.ledger, n); }
      }
    }
  }

  /** A write the gates let through is saved exactly when the disk takes it. */
  lemma SavedMeansLanded(
    files: Files, root: string, declared: Option<string>,
    next: Document, expected: Document, records: Records, fate: WriteFate)
    ensures UpdateOutcome(files, root, declared, next, expected, records, fate).Saved? ==>
      fate == Lands && UpdateOutcome(files, root, declared, next, expected, records, fate) == Saved(next)
    ensures CreateOutcome(files, root, declared, next, fate).Saved? ==>
      fate == Lands && CreateOutcome(files, root, declared, next, fate) == Saved(next)
  {
    hide Valid, CheckRecordedIdentity, LegalSuccessor, FirstUnprovenClaimOf, DeclaresAnotherVersion, ClaimsNothing;
  }

  /** What each refusal says about the place, the file or the document. */
  ghost predicate LoadExplained(code: LoadCode, files: Files, root: string, declared: Option<string>, runId: string) {
    match code
    case LocationUnsuitable => !IsAbsolute(root) || !IsValidTaskId(runId)
    case LoadMissing => runId !in files
    case LoadUnreadable => runId in files && files[runId] == Unreadable
    case LoadMalformed => runId in files && files[runId] == Bytes(Malformed)
    case LoadSchemaUnsupported => runId in files && files[runId].Bytes? && OfAnotherVersion(files[runId].document)
    case LoadContractViolation => runId in files && files[runId].Bytes? && Parse(files[runId].document).None?
    case _ =>
      && runId in files && files[runId].Bytes? && files[runId].document.LedgerText?
      && var l := files[runId].document.ledger;
      && Valid(l)
      && (code == LoadRootNotAbsolute ==> !IsAbsolute(l.repositoryRoot))
      && (code == LoadRootMismatch ==> l.repositoryRoot != root)
      && (code == LoadRunIdMismatch ==> l.runId != runId)
      && (code == LoadProfileUnusable ==> declared.None?)
      && (code == LoadRepositoryIdMismatch ==> declared.Some? && declared.value != l.repositoryId)
  }

  lemma LoadedIff(files: Files, root: string, declared: Option<string>, runId: string)
    ensures forall l, doc ::
      LoadOutcome(files, root, declared, runId) == Loaded(l, doc) <==> Loadable(files, root, declared, runId, l, doc)
  {
    hide IsValidTaskId, WellShaped, MirrorsMembership, RelationIsCanonical, ActiveIsOneFact, StopAgrees;
  }

  lemma LoadRefusalsAreExplained(files: Files, root: string, declared: Option<string>, runId: string)
    ensures
      var r := LoadOutcome(files, root, declared, runId);
      r.NotLoaded? ==> LoadExplained(r.code, files, root, declared, runId)
  {
    hide Valid, IsValidTaskId, DeclaresAnotherVersion, OfAnotherVersion;
    if runId in files && files[runId].Bytes? { AnotherVersionMeans(files[runId].document); }
  }

  // ------------------------------------------------ what a landed update entails

  ghost predicate AllSupported(records: Records, tasks: seq<Entry>) {
    forall e | e in tasks :: Supported(records, e)
  }

  lemma NoneUnsupportedMeansAllSupported(records: Records, tasks: seq<Entry>)
    ensures FirstUnsupported(records, tasks) == |tasks| <==> AllSupported(records, tasks)
  {
    forall e | e in tasks ensures ProveEntry(records, e) == Proven <==> Supported(records, e) {
      ProvenMeansSupported(records, e);
    }
    var k := FirstUnsupported(records, tasks);
    if k < |tasks| { assert tasks[k] in tasks; }
  }

  lemma GatesInOrder(
    files: Files, root: string, declared: Option<string>,
    p: Ledger, n: Ledger, records: Records)
    requires Parse(LedgerText(p)) == Some(p) && p.runId in files && files[p.runId] == Bytes(LedgerText(p))
    requires n.runId == p.runId
    ensures UpdateOutcome(files, root, declared, LedgerText(n), LedgerText(p), records, Lands).Saved? <==>
      && Parse(LedgerText(n)).Some? && NamesCheckout(n, root, declared) && LegalSuccessor(p, n)
      && FirstUnprovenClaimOf(p, n, records).None?
  {
  }

  /** For a legal successor that names this checkout, only a missing proof can refuse the update. */
  lemma OnlyProofRefuses(
    files: Files, root: string, declared: Option<string>, p: Ledger, n: Ledger, records: Records)
    requires Valid(p) && p.runId in files && files[p.runId] == Bytes(LedgerText(p))
    requires n.runId == p.runId && Valid(n) && NamesCheckout(n, root, declared) && LegalSuccessor(p, n)
    ensures
      var r := UpdateOutcome(files, root, declared, LedgerText(n), LedgerText(p), records, Lands);
      r.Saved? || r.code.EntryNotProven?
  {
    hide Valid, LegalSuccessor, CheckRecordedIdentity, FirstUnprovenClaimOf, DeclaresAnotherVersion;
  }

  /** And where a proof is owed and missing, the refusal is the proof code of the first entry that lacks it. */
  lemma RefusedForTheFirstUnproven(
    files: Files, root: string, declared: Option<string>, p: Ledger, n: Ledger, records: Records) returns (k: nat)
    requires Valid(p) && p.runId in files && files[p.runId] == Bytes(LedgerText(p))
    requires n.runId == p.runId && Valid(n) && NamesCheckout(n, root, declared) && LegalSuccessor(p, n)
    requires DispositionsMoved(p, n) && !AllSupported(records, n.tasks)
    ensures k < |n.tasks| && !Supported(records, n.tasks[k]) && forall i | 0 <= i < k :: Supported(records, n.tasks[i])
    ensures UpdateOutcome(files, root, declared, LedgerText(n), LedgerText(p), records, Lands)
      == Refused(EntryNotProven(ProveEntry(records, n.tasks[k])))
  {
    hide Valid, LegalSuccessor, CheckRecordedIdentity, DeclaresAnotherVersion, Supported, ProveEntry, DispositionsMoved;
    k := FirstUnsupported(records, n.tasks);
    NoneUnsupportedMeansAllSupported(records, n.tasks);
    forall i | 0 <= i < |n.tasks| ensures ProveEntry(records, n.tasks[i]) == Proven <==> Supported(records, n.tasks[i]) {
      ProvenMeansSupported(records, n.tasks[i]);
    }
  }

  lemma NothingUnprovenMeans(p: Ledger, n: Ledger, records: Records)
    ensures FirstUnprovenClaimOf(p, n, records).None? <==>
      (DispositionsMoved(p, n) || NewlyClaimsProgress(p, n) ==> AllSupported(records, n.tasks))
  {
    NoneUnsupportedMeansAllSupported(records, n.tasks);
  }

  /** An update lands exactly when all four gates open; nothing else is asked. */
  lemma UpdateLandsIff(
    files: Files, root: string, declared: Option<string>,
    p: Ledger, n: Ledger, records: Records)
    requires Valid(p) && p.runId in files && files[p.runId] == Bytes(LedgerText(p))
    requires n.runId == p.runId
    ensures UpdateOutcome(files, root, declared, LedgerText(n), LedgerText(p), records, Lands).Saved? <==>
      && Valid(n) && NamesCheckout(n, root, declared) && Succeeds(p, n)
      && (DispositionsMoved(p, n) || NewlyClaimsProgress(p, n) ==> AllSupported(records, n.tasks))
  {
    GatesInOrder(files, root, declared, p, n, records);
    if Valid(n) { LegalSuccessorMeans(p, n); }
    NothingUnprovenMeans(p, n, records);
  }

  /** What is on disk afterwards was proved, legal and addressed to this checkout, whoever proposed it. */
  lemma LandedUpdateIsSound(
    files: Files, root: string, declared: Option<string>,
    next: Document, expected: Document, records: Records, fate: WriteFate)
    requires UpdateOutcome(files, root, declared, next, expected, records, fate).Saved?
    ensures next.LedgerText? && Valid(next.ledger) && NamesCheckout(next.ledger, root, declared)
    ensures next.ledger.runId in files && files[next.ledger.runId] == Bytes(expected)
    ensures expected.LedgerText? && Valid(expected.ledger) && Succeeds(expected.ledger, next.ledger)
    ensures DispositionsMoved(expected.ledger, next.ledger) || NewlyClaimsProgress(expected.ledger, next.ledger)
      ==> AllSupported(records, next.ledger.tasks)
  {
    hide Valid, LegalSuccessor, Succeeds, CheckRecordedIdentity, DeclaresAnotherVersion, Supported, ProveEntry;
    LegalSuccessorMeans(expected.ledger, next.ledger);
    NoneUnsupportedMeansAllSupported(records, next.ledger.tasks);
  }
}
