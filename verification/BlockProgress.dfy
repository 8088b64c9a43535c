/** Moving a block run forward, never further than the task records allow. */
module BlockProgress {
  import opened Base
  import opened Identifiers
  import opened PlanEncoding
  import opened BlockDefinition
  import opened TaskRecords
  import opened BlockLedger
  import opened BlockEvidence
  import opened BlockStore

  datatype Outcome =
    | Recorded
    | TaskNotInRun
    | DispositionUnchanged
    | AnotherTaskActive
    | StateDoesNotProveIt
    | NotStarted
    | StateUnusableOutcome
    | RunAlreadyStopped
    | NotRecorded

  datatype ProgressResult = ProgressResult(outcome: Outcome, ledger: Option<Ledger>, save: Option<SaveResult>)

  /** The five moves are named by the disposition they record. */
  datatype Move = Activate | Settle | Park | Abandon | Resolve

  function Target(move: Move): Disposition {
    match move
    case Activate => Active
    case Settle => Settled
    case Park => Blocked
    case Abandon => Abandoned
    case Resolve => Resolved
  }

  /** The dispositions each primitive declines to move, one list per function. */
  function Declined(move: Move): set<Disposition> {
    match move
    case Activate => {Active, Settled, Blocked, Abandoned, Resolved}
    case Settle => {Settled, Abandoned, Resolved}
    case Park => {Blocked, Settled, Abandoned, Resolved}
    case Abandon => {Abandoned, Settled, Resolved}
    case Resolve => {Resolved, Settled, Abandoned}
  }

  /** The refusal of the primitive's own guards, in order, or `None`. */
  function Guard(move: Move, l: Ledger, taskId: string, state: Reading): Option<Outcome> {
    if l.stopReason.Some? then Some(RunAlreadyStopped) else
    var entry := EntryFor(l, taskId);
    if entry.None? then Some(TaskNotInRun) else
    if entry.value.disposition in Declined(move) then Some(DispositionUnchanged) else
    if move == Activate && l.activeTaskId.Some? then Some(AnotherTaskActive) else
    match state
    case Missing => Some(NotStarted)
    case Unusable => Some(StateUnusableOutcome)
    case Read(record, _) =>
      if StateProves(Target(move), record.state) then None else Some(StateDoesNotProveIt)
  }

  /** The entry as the move leaves it: what the record proves, and nothing carried along. */
  function MovedEntry(move: Move, e: Entry, record: TaskRecord, revision: Revision): Entry {
    match move
    case Activate => e.(disposition := Active, baseCommit := record.basePinnedCommit)
    case Settle =>
      e.(disposition := Settled, evidenceRevision := Some(revision),
         baseCommit := record.basePinnedCommit, resultCommit := record.currentCommit)
    case _ =>
      e.(disposition := Target(move), evidenceRevision := Some(revision),
         baseCommit := record.basePinnedCommit)
  }

  function WithEntry(tasks: seq<Entry>, taskId: string, replacement: Entry): (r: seq<Entry>)
    ensures |r| == |tasks|
    ensures forall i | 0 <= i < |tasks| :: r[i] == if tasks[i].taskId == taskId then replacement else tasks[i]
  {
    seq(|tasks|, i requires 0 <= i < |tasks| => if tasks[i].taskId == taskId then replacement else tasks[i])
  }

  function NextLedger(move: Move, l: Ledger, taskId: string, record: TaskRecord, revision: Revision): Ledger
    requires EntryFor(l, taskId).Some?
  {
    l.(activeTaskId :=
         if move == Activate then Some(taskId)
         else if l.activeTaskId == Some(taskId) then None else l.activeTaskId,
       tasks := WithEntry(l.tasks, taskId, MovedEntry(move, EntryFor(l, taskId).value, record, revision)))
  }

  /** The store's refusal in this module's vocabulary. */
  function CommitResult(next: Ledger, save: SaveResult): ProgressResult {
    match save
    case Saved(_) => ProgressResult(Recorded, Some(next), Some(save))
    case Refused(EntryNotProven(TaskNotStarted)) => ProgressResult(NotStarted, None, Some(save))
    case Refused(EntryNotProven(TaskStateUnusable)) => ProgressResult(StateUnusableOutcome, None, Some(save))
    case Refused(EntryNotProven(_)) => ProgressResult(StateDoesNotProveIt, None, Some(save))
    case Refused(_) => ProgressResult(NotRecorded, None, Some(save))
  }

  /** The file map after a progress call: its document replaced when the call recorded one. */
  function FilesAfterProgress(files: Files, r: ProgressResult): Files {
    if r.outcome == Recorded && r.ledger.Some?
    then files[r.ledger.value.runId := Bytes(LedgerText(r.ledger.value))] else files
  }

  function Declines(outcome: Outcome): ProgressResult {
    ProgressResult(outcome, None, None)
  }

  /**
   * What one move answers. `state` is the primitive's own reading; `records` is what the
   * store reads a moment later, which the environment may have changed in between.
   */
  function MoveOutcome(
    move: Move, files: Files, root: string, declared: Option<string>,
    current: Ledger, revision: Document, taskId: string,
    state: Reading, records: Records, fate: WriteFate): ProgressResult
  {
    var refusal := Guard(move, current, taskId, state);
    if refusal.Some? then Declines(refusal.value)
    else
      var next := NextLedger(move, current, taskId, state.record, state.revision);
      CommitResult(next, UpdateOutcome(files, root, declared, LedgerText(next), revision, records, fate))
  }

  method RecordMove(
    move: Move, store: Store, current: Ledger, revision: Document, taskId: string,
    state: Reading, records: Records, fate: WriteFate) returns (r: ProgressResult)
    modifies store`files
    ensures r == MoveOutcome(move, old(store.files), store.root, store.declaredId,
                             current, revision, taskId, state, records, fate)
    ensures store.files == FilesAfterProgress(old(store.files), r)
  {
    hide UpdateOutcome, SaveExplained, NextLedger;
    var refusal := Guard(move, current, taskId, state);
    if refusal.Some? { return Declines(refusal.value); }
    var next := NextLedger(move, current, taskId, state.record, state.revision);
    var save := store.Update(LedgerText(next), revision, records, fate);
    r := CommitResult(next, save);
  }

  function StopOutcome(
    files: Files, root: string, declared: Option<string>,
    current: Ledger, revision: Document, reason: StopReason, records: Records, fate: WriteFate): ProgressResult
  {
    if current.stopReason.Some? then Declines(RunAlreadyStopped)
    else if current.activeTaskId.Some? && ClaimsProgress(reason) then Declines(AnotherTaskActive)
    else
      var next := current.(stopReason := Some(reason));
      CommitResult(next, UpdateOutcome(files, root, declared, LedgerText(next), revision, records, fate))
  }

  method StopBlockRun(
    store: Store, current: Ledger, revision: Document, reason: StopReason,
    records: Records, fate: WriteFate) returns (r: ProgressResult)
    modifies store`files
    ensures r == StopOutcome(old(store.files), store.root, store.declaredId, current, revision, reason, records, fate)
    ensures store.files == FilesAfterProgress(old(store.files), r)
  {
    hide UpdateOutcome, SaveExplained;
    if current.stopReason.Some? { return Declines(RunAlreadyStopped); }
    if current.activeTaskId.Some? && ClaimsProgress(reason) { return Declines(AnotherTaskActive); }
    var next := current.(stopReason := Some(reason));
    var save := store.Update(LedgerText(next), revision, records, fate);
    r := CommitResult(next, save);
  }

  // ------------------------------------------------------------------ starting

  function FirstLedger(d: Definition, repositoryId: string, repositoryRoot: string, runId: string, now: string): Ledger {
    Ledger(
      BLOCK_LEDGER_SCHEMA_VERSION, repositoryId, repositoryRoot, d.blockId, runId, now,
      d.taskIds, d.dependencies, Fingerprint(d.blockId, d.taskIds, d.dependencies),
      None,
      seq(|d.taskIds|, i requires 0 <= i < |d.taskIds| => Entry(d.taskIds[i], Planned, None, None, None)),
      None)
  }

  method StartBlockRun(
    store: Store, d: Definition, repositoryId: string, runId: string, now: string, fate: WriteFate)
    returns (r: SaveResult)
    modifies store`files
    ensures
      var next := LedgerText(FirstLedger(d, repositoryId, store.root, runId, now));
      && r == CreateOutcome(old(store.files), store.root, store.declaredId, next, fate)
      && store.files == FilesAfter(old(store.files), next, r)
  {
    hide CreateOutcome, SaveExplained;
    r := store.Create(LedgerText(FirstLedger(d, repositoryId, store.root, runId, now)), fate);
  }

  lemma RowsFit(d: Definition, taskIds: seq<string>, rows: seq<Row>)
    requires |taskIds| <= MAX_BLOCK_TASKS && (forall i | 0 <= i < |taskIds| :: IsValidTaskId(taskIds[i]))
    requires RelationAccepted(taskIds, rows) && Canonicalises(d, taskIds, rows)
    ensures forall i | 0 <= i < |taskIds| ::
      && (forall x | x in d.dependencies[i].dependsOn :: x != taskIds[i] && x in taskIds)
      && |d.dependencies[i].dependsOn| <= MAX_BLOCK_TASKS
  {
    forall i | 0 <= i < |taskIds|
      ensures forall x | x in d.dependencies[i].dependsOn :: x != taskIds[i] && x in taskIds
      ensures |d.dependencies[i].dependsOn| <= MAX_BLOCK_TASKS
    {
      assert taskIds[i] in taskIds && HasRow(rows, taskIds[i]);
      var j :| 0 <= j < |rows| && rows[j].taskId == taskIds[i];
      assert RowAccepted(taskIds, rows[j]);
      SortedHasNoRepeats(d.dependencies[i].dependsOn);
      DistinctFits(d.dependencies[i].dependsOn, taskIds);
    }
  }

  lemma {:induction false} DistinctFits(a: seq<string>, b: seq<string>)
    requires NoRepeats(a) && forall x | x in a :: x in b
    ensures |a| <= |b|
  {
    if a != [] {
      assert a[0] in a;
      var i :| 0 <= i < |b| && b[i] == a[0];
      var b' := b[..i] + b[i + 1..];
      forall k | 1 <= k < |a| ensures a[k] in b' {
        assert a[k] in a;
        var m :| 0 <= m < |b| && b[m] == a[k];
        assert m != i;
        assert b'[if m < i then m else m - 1] == a[k];
      }
      assert forall i, j | 0 <= i < j < |a[1..]| :: a[1..][i] != a[1..][j];
      DistinctFits(a[1..], b');
    }
  }

  /**
   * Every plan that can be frozen can be recorded: what `defineBlock` accepts, started in
   * a checkout whose profile declares an identity, is a contract-valid first ledger that
   * claims nothing.
   */
  lemma FrozenPlansAreRecordable(
    files: Files, d: Definition, taskIds: seq<string>, rows: seq<Row>,
    repositoryId: string, root: string, runId: string, now: string)
    requires MembersAccepted(d.blockId, taskIds) && RelationAccepted(taskIds, rows) && Canonicalises(d, taskIds, rows)
    requires 0 < |repositoryId| <= 64 && IsAbsolute(root) && IsValidTaskId(runId) && runId !in files
    ensures Valid(FirstLedger(d, repositoryId, root, runId, now))
    ensures ClaimsNothing(FirstLedger(d, repositoryId, root, runId, now))
    ensures CreateOutcome(files, root, Some(repositoryId),
      LedgerText(FirstLedger(d, repositoryId, root, runId, now)), Lands).Saved?
  {
    FrozenRelationIsCanonical(d, taskIds, rows);
    var l := FirstLedger(d, repositoryId, root, runId, now);
    FrozenRowsAreShaped(d, taskIds, rows);
    FirstLedgerIsValid(d, repositoryId, root, runId, now);
    hide Valid;
    assert Parse(LedgerText(l)) == Some(l);
  }

  lemma FrozenRelationIsCanonical(d: Definition, taskIds: seq<string>, rows: seq<Row>)
    requires |taskIds| <= MAX_BLOCK_TASKS && (forall i | 0 <= i < |taskIds| :: IsValidTaskId(taskIds[i]))
    requires RelationAccepted(taskIds, rows) && Canonicalises(d, taskIds, rows)
    ensures RelationIsCanonical(d.taskIds, d.dependencies)
  {
    hide IsValidTaskId, RelationAccepted;
    RowsFit(d, taskIds, rows);
    forall i | 0 <= i < |d.dependencies| ensures d.dependencies[i].dependsOn == Canonical(d.dependencies[i].dependsOn) {
      CanonicalIsFixedOnSorted(d.dependencies[i].dependsOn);
    }
  }

  predicate RowShaped(row: Row) {
    IsValidTaskId(row.taskId) && |row.dependsOn| <= MAX_BLOCK_TASKS && forall x | x in row.dependsOn :: IsValidTaskId(x)
  }

  lemma FrozenRowsAreShaped(d: Definition, taskIds: seq<string>, rows: seq<Row>)
    requires |taskIds| <= MAX_BLOCK_TASKS && (forall i | 0 <= i < |taskIds| :: IsValidTaskId(taskIds[i]))
    requires RelationAccepted(taskIds, rows) && Canonicalises(d, taskIds, rows)
    ensures forall row | row in d.dependencies :: RowShaped(row)
  {
    hide IsValidTaskId, RelationAccepted;
    RowsFit(d, taskIds, rows);
    forall row | row in d.dependencies ensures RowShaped(row) {
      var i :| 0 <= i < |d.dependencies| && d.dependencies[i] == row;
    }
  }

  lemma FirstLedgerIsValid(d: Definition, repositoryId: string, root: string, runId: string, now: string)
    requires MembersAccepted(d.blockId, d.taskIds) && RelationIsCanonical(d.taskIds, d.dependencies)
    requires forall row | row in d.dependencies :: RowShaped(row)
    requires 0 < |repositoryId| <= 64 && root != [] && IsValidTaskId(runId)
    ensures Valid(FirstLedger(d, repositoryId, root, runId, now))
    ensures ClaimsNothing(FirstLedger(d, repositoryId, root, runId, now))
  {
    hide IsValidTaskId, Fingerprint, NoRepeats, Canonical;
    var l := FirstLedger(d, repositoryId, root, runId, now);
    assert WellShaped(l) && MirrorsMembership(l);
    assert ActiveIsOneFact(l) && StopAgrees(l);
  }

  // ------------------------------------------------------------- never wedged

  /** The ledger is the one on disk, and it names this checkout. */
  ghost predicate OnDisk(files: Files, root: string, declared: Option<string>, l: Ledger) {
    && Valid(l) && NamesCheckout(l, root, declared)
    && l.runId in files && files[l.runId] == Bytes(LedgerText(l))
  }

  ghost predicate ReasonAgrees(l: Ledger, reason: StopReason) {
    && (reason == Complete ==> forall e | e in l.tasks :: e.disposition == Settled || e.disposition == Resolved)
    && (reason == TaskBlocked ==> exists e | e in l.tasks :: e.disposition == Blocked)
    && (reason == TaskAbandoned ==> exists e | e in l.tasks :: e.disposition == Abandoned)
  }

  lemma StoppedLedgerIsValid(l: Ledger, reason: StopReason)
    requires Valid(l) && l.stopReason.None?
    ensures Valid(l.(stopReason := Some(reason))) <==>
      (l.activeTaskId.Some? ==> !ClaimsProgress(reason)) && ReasonAgrees(l, reason)
  {
    hide WellShaped, MirrorsMembership, ActiveIsOneFact, StopAgrees, RelationIsCanonical, Fingerprint, CarriesEvidence, ReasonAgrees;
    StopKeepsTheShape(l, reason);
    StopAgreesIff(l, reason);
  }

  lemma StopKeepsTheShape(l: Ledger, reason: StopReason)
    ensures
      var n := l.(stopReason := Some(reason));
      (WellShaped(n) <==> WellShaped(l)) && (MirrorsMembership(n) <==> MirrorsMembership(l))
      && (ActiveIsOneFact(n) <==> ActiveIsOneFact(l))
  {
  }

  lemma StopAgreesIff(l: Ledger, reason: StopReason)
    ensures StopAgrees(l.(stopReason := Some(reason))) <==>
      (l.activeTaskId.Some? ==> !ClaimsProgress(reason)) && ReasonAgrees(l, reason)
  {
  }

  /**
   * A run can always say that it stopped. A reason that claims no progress lands whatever
   * the task records say; one that claims progress lands exactly when no task is active,
   * the entries agree with it, and the records support every one of them.
   */
  lemma StopLandsIff(
    files: Files, root: string, declared: Option<string>, l: Ledger, reason: StopReason, records: Records)
    requires OnDisk(files, root, declared, l) && l.stopReason.None?
    ensures StopOutcome(files, root, declared, l, LedgerText(l), reason, records, Lands).outcome == Recorded <==>
      !ClaimsProgress(reason)
      || (l.activeTaskId.None? && ReasonAgrees(l, reason) && AllSupported(records, l.tasks))
  {
    hide Valid, UpdateOutcome, Succeeds, AllSupported, DispositionsMoved, NewlyClaimsProgress;
    var n := l.(stopReason := Some(reason));
    StopIsAQuietSuccessor(l, reason);
    StoppedLedgerIsValid(l, reason);
    UpdateLandsIff(files, root, declared, l, n, records);
    RecordedMeansSaved(n, UpdateOutcome(files, root, declared, LedgerText(n), LedgerText(l), records, Lands));
  }

  lemma RecordedMeansSaved(next: Ledger, save: SaveResult)
    ensures CommitResult(next, save).outcome == Recorded <==> save.Saved?
  {
  }

  lemma StopIsAQuietSuccessor(l: Ledger, reason: StopReason)
    requires l.stopReason.None?
    ensures
      var n := l.(stopReason := Some(reason));
      Succeeds(l, n) && !DispositionsMoved(l, n) && (NewlyClaimsProgress(l, n) <==> ClaimsProgress(reason))
  {
    var n := l.(stopReason := Some(reason));
    forall i | 0 <= i < |n.tasks| ensures !MovedAt(l, n, i) && EntryAdvances(l.tasks[i], n.tasks[i]) { }
  }

  /** Every entry but this task's own is supported. */
  ghost predicate OthersSupported(records: Records, l: Ledger, taskId: string) {
    forall e | e in l.tasks && e.taskId != taskId :: Supported(records, e)
  }

  lemma MovedEntryFacts(move: Move, l: Ledger, taskId: string, record: TaskRecord, revision: Revision) returns (k: nat)
    requires Valid(l) && EntryFor(l, taskId).Some?
    requires EntryFor(l, taskId).value.disposition !in Declined(move)
    ensures k < |l.tasks| && l.tasks[k].taskId == taskId && l.tasks[k] == EntryFor(l, taskId).value
    ensures
      var n := NextLedger(move, l, taskId, record, revision);
      && n.tasks[k].taskId == taskId && n.tasks[k].disposition == Target(move)
      && CarriesEvidence(n.tasks[k])
      && EntryAdvances(l.tasks[k], n.tasks[k])
      && |n.tasks| == |l.tasks|
      && forall i | 0 <= i < |l.tasks| && i != k :: n.tasks[i] == l.tasks[i] && l.tasks[i].taskId != taskId
  {
    hide WellShaped, MirrorsMembership, RelationIsCanonical, Fingerprint, ActiveIsOneFact, StopAgrees;
    k := IndexOf(l.tasks, taskId);
    assert l.tasks[k] in l.tasks;
    assert CarriesEvidence(l.tasks[k]);
    forall i | 0 <= i < |l.tasks| && i != k ensures l.tasks[i].taskId != taskId {
      if l.tasks[i].taskId == taskId { EntriesAreDistinct(l, i, k); }
    }
  }

  lemma ActiveIndex(l: Ledger) returns (a: nat)
    requires Valid(l) && l.activeTaskId.Some?
    ensures a < |l.tasks| && l.tasks[a].disposition == Active && l.tasks[a].taskId == l.activeTaskId.value
    ensures forall i | 0 <= i < |l.tasks| && l.tasks[i].disposition == Active :: i == a
  {
    var e :| e in l.tasks && e.taskId == l.activeTaskId.value && e.disposition == Active;
    a :| 0 <= a < |l.tasks| && l.tasks[a] == e;
  }

  lemma MovedLedgerHasOneActive(move: Move, l: Ledger, taskId: string, record: TaskRecord, revision: Revision)
    requires Valid(l) && EntryFor(l, taskId).Some?
    requires EntryFor(l, taskId).value.disposition !in Declined(move)
    requires move == Activate ==> l.activeTaskId.None?
    ensures ActiveIsOneFact(NextLedger(move, l, taskId, record, revision))
  {
    hide Valid, MovedEntry, WithEntry, EntryAdvances, CarriesEvidence, EntryFor, ActiveIsOneFact;
    var n := NextLedger(move, l, taskId, record, revision);
    var k := MovedEntryFacts(move, l, taskId, record, revision);
    if l.activeTaskId.Some? {
      var a := ActiveIndex(l);
      if a != k { assert l.tasks[a].taskId != taskId; }
      OneActiveAfterwards(n, k, a);
    } else {
      NoActiveEntry(l);
      OneActiveAfterwards(n, k, k);
    }
  }

  lemma NoActiveEntry(l: Ledger)
    requires Valid(l) && l.activeTaskId.None?
    ensures forall i | 0 <= i < |l.tasks| :: l.tasks[i].disposition != Active
  {
    assert forall i | 0 <= i < |l.tasks| :: l.tasks[i] in l.tasks;
  }

  /** Only the entries at `k` and `a` may be active, and the active task says which. */
  lemma OneActiveAfterwards(n: Ledger, k: nat, a: nat)
    requires k < |n.tasks| && a < |n.tasks|
    requires forall i | 0 <= i < |n.tasks| && n.tasks[i].disposition == Active :: i == k || i == a
    requires a != k ==> n.tasks[k].disposition != Active
    requires match n.activeTaskId
             case None => n.tasks[a].disposition != Active && n.tasks[k].disposition != Active
             case Some(t) => n.tasks[a].taskId == t && n.tasks[a].disposition == Active
    ensures ActiveIsOneFact(n)
  {
    assert n.tasks[a] in n.tasks;
    forall e | e in n.tasks && e.disposition == Active ensures n.activeTaskId.Some? {
      var i :| 0 <= i < |n.tasks| && n.tasks[i] == e;
    }
  }

  lemma MovedLedgerIsValid(move: Move, l: Ledger, taskId: string, record: TaskRecord, revision: Revision)
    requires Valid(l) && l.stopReason.None? && EntryFor(l, taskId).Some?
    requires EntryFor(l, taskId).value.disposition !in Declined(move)
    requires move == Activate ==> l.activeTaskId.None?
    ensures Valid(NextLedger(move, l, taskId, record, revision))
    ensures Succeeds(l, NextLedger(move, l, taskId, record, revision))
    ensures DispositionsMoved(l, NextLedger(move, l, taskId, record, revision))
  {
    hide RelationIsCanonical, Fingerprint, MovedEntry, ActiveIsOneFact, IsValidTaskId, NoRepeats;
    var n := NextLedger(move, l, taskId, record, revision);
    var k := MovedEntryFacts(move, l, taskId, record, revision);
    MovedLedgerHasOneActive(move, l, taskId, record, revision);
    forall i | 0 <= i < |n.tasks|
      ensures CarriesEvidence(n.tasks[i]) && n.tasks[i].taskId == n.frozenTaskIds[i]
      ensures EntryAdvances(l.tasks[i], n.tasks[i])
    {
      assert l.tasks[i] in l.tasks;
    }
    assert MovedAt(l, n, k);
  }

  /** The move passes its own guards on what these records hold for its task. */
  predicate Allowed(move: Move, records: Records, l: Ledger, taskId: string)
    ensures Allowed(move, records, l, taskId) ==> Load(records, taskId).Read? && EntryFor(l, taskId).Some?
  {
    Guard(move, l, taskId, Load(records, taskId)).None?
  }

  function NextOnRecord(move: Move, records: Records, l: Ledger, taskId: string): Ledger
    requires Allowed(move, records, l, taskId)
  {
    NextLedger(move, l, taskId, Load(records, taskId).record, Load(records, taskId).revision)
  }

  lemma MovedEntryIsSupported(move: Move, l: Ledger, taskId: string, records: Records) returns (k: nat)
    requires Valid(l) && Allowed(move, records, l, taskId)
    ensures
      var n := NextOnRecord(move, records, l, taskId);
      && k < |n.tasks| && n.tasks[k].taskId == taskId
      && Supported(records, n.tasks[k])
      && |n.tasks| == |l.tasks|
      && l.tasks[k].taskId == taskId
      && forall i | 0 <= i < |l.tasks| && i != k :: n.tasks[i] == l.tasks[i] && l.tasks[i].taskId != taskId
  {
    hide WellShaped, MirrorsMembership, RelationIsCanonical, Fingerprint, ActiveIsOneFact, StopAgrees, EntryAdvances;
    var state := Load(records, taskId);
    k := MovedEntryFacts(move, l, taskId, state.record, state.revision);
    assert l.tasks[k] in l.tasks;
    assert CarriesEvidence(l.tasks[k]);
  }

  lemma MovedSupportIsOthersSupport(move: Move, l: Ledger, taskId: string, records: Records)
    requires Valid(l) && Allowed(move, records, l, taskId)
    ensures AllSupported(records, NextOnRecord(move, records, l, taskId).tasks) <==> OthersSupported(records, l, taskId)
  {
    hide Valid, Supported, NextLedger;
    var state := Load(records, taskId);
    var n := NextLedger(move, l, taskId, state.record, state.revision);
    var k := MovedEntryIsSupported(move, l, taskId, records);
    if OthersSupported(records, l, taskId) {
      forall e | e in n.tasks ensures Supported(records, e) {
        var i :| 0 <= i < |n.tasks| && n.tasks[i] == e;
        if i != k { assert l.tasks[i] in l.tasks; }
      }
    }
    if AllSupported(records, n.tasks) {
      forall e | e in l.tasks && e.taskId != taskId ensures Supported(records, e) {
        var i :| 0 <= i < |l.tasks| && l.tasks[i] == e;
        assert n.tasks[i] in n.tasks;
      }
    }
  }

  /**
   * A move that passes its own guards is recorded exactly when the records support every
   * other entry. One unsupported sibling refuses every move of the run, and nothing else
   * can: the run is never wedged for any other reason.
   */
  lemma MoveLandsIff(
    move: Move, files: Files, root: string, declared: Option<string>,
    l: Ledger, taskId: string, records: Records)
    requires OnDisk(files, root, declared, l)
    requires Guard(move, l, taskId, Load(records, taskId)).None?
    ensures MoveOutcome(move, files, root, declared, l, LedgerText(l), taskId,
                        Load(records, taskId), records, Lands).outcome == Recorded
      <==> OthersSupported(records, l, taskId)
  {
    hide UpdateOutcome, Valid, Succeeds;
    var state := Load(records, taskId);
    var n := NextLedger(move, l, taskId, state.record, state.revision);
    MovedLedgerIsValid(move, l, taskId, state.record, state.revision);
    UpdateLandsIff(files, root, declared, l, n, records);
    RecordedMeansSaved(n, UpdateOutcome(files, root, declared, LedgerText(n), LedgerText(l), records, Lands));
    MovedSupportIsOthersSupport(move, l, taskId, records);
  }

  /** Whatever happened between the reading and the write, a recorded move is supported when it lands. */
  lemma RecordedMoveIsSupported(
    move: Move, files: Files, root: string, declared: Option<string>,
    l: Ledger, revision: Document, taskId: string, state: Reading, records: Records, fate: WriteFate)
    requires Valid(l) && l.stopReason.None?
    requires MoveOutcome(move, files, root, declared, l, revision, taskId, state, records, fate).outcome == Recorded
    requires revision == LedgerText(l)
    ensures
      var r := MoveOutcome(move, files, root, declared, l, revision, taskId, state, records, fate);
      && r.ledger.Some? && Valid(r.ledger.value) && AllSupported(records, r.ledger.value.tasks)
      && Load(records, taskId).Read? && SpeaksFor(Load(records, taskId).record.state, Target(move))
  {
    hide Valid, UpdateOutcome, Succeeds, Supported;
    var n := NextLedger(move, l, taskId, state.record, state.revision);
    RecordedMeansSaved(n, UpdateOutcome(files, root, declared, LedgerText(n), revision, records, fate));
    LandedUpdateIsSound(files, root, declared, LedgerText(n), revision, records, fate);
    MovedLedgerIsValid(move, l, taskId, state.record, state.revision);
    var k := MovedEntryFacts(move, l, taskId, state.record, state.revision);
    SupportedMovedEntry(records, n.tasks[k]);
  }

  lemma SupportedMovedEntry(records: Records, e: Entry)
    requires Supported(records, e) && e.disposition != Planned
    ensures Load(records, e.taskId).Read? && SpeaksFor(Load(records, e.taskId).record.state, e.disposition)
  {
  }

  // ------------------------------------------------------- what every move answers

  /** The dispositions each move takes an entry from. */
  ghost predicate MovesFrom(move: Move, d: Disposition) {
    && (move == Activate ==> d == Planned)
    && (move == Park ==> d == Planned || d == Active)
    && (move == Settle || move == Abandon || move == Resolve ==> d == Planned || d == Active || d == Blocked)
  }

  /** The states of the task's own record each move is recorded on. */
  ghost predicate RecordedOn(move: Move, state: TaskStateName) {
    && (move == Settle ==> state == ReadyForPr)
    && (move == Abandon ==> state == Aborted)
    && (move == Resolve ==> state == OperatorResolved)
    && (move == Park ==>
          || state == BlockedAuth || state == BlockedUsageLimit || state == BlockedVerify
          || state == ScopeViolation || state == ResumeStateDiverged || state == HumanDecisionRequired)
  }

  /** What a record that cannot carry a claim is answered as. */
  ghost function RefusedAs(state: Reading): Outcome {
    match state
    case Missing => NotStarted
    case Unusable => StateUnusableOutcome
    case Read(_, _) => StateDoesNotProveIt
  }

  /** The first entry, this task's own left aside, that the records do not support. */
  ghost predicate FirstUnsupportedOther(records: Records, l: Ledger, taskId: string, k: nat) {
    && k < |l.tasks| && l.tasks[k].taskId != taskId && !Supported(records, l.tasks[k])
    && forall i | 0 <= i < k && l.tasks[i].taskId != taskId :: Supported(records, l.tasks[i])
  }

  /**
   * The answer of a move and its cause. It is recorded exactly when the run is open, the
   * task is in it with a disposition this move takes it from, no other task is active for
   * an activation, the task's record says so, and the records support every other entry.
   */
  ghost predicate AnswersMove(outcome: Outcome, move: Move, l: Ledger, taskId: string, records: Records) {
    var (entry, state) := (EntryFor(l, taskId), Load(records, taskId));
    if l.stopReason.Some? then outcome == RunAlreadyStopped
    else if entry.None? then outcome == TaskNotInRun
    else if !MovesFrom(move, entry.value.disposition) then outcome == DispositionUnchanged
    else if move == Activate && l.activeTaskId.Some? then outcome == AnotherTaskActive
    else if !(state.Read? && RecordedOn(move, state.record.state)) then outcome == RefusedAs(state)
    else if OthersSupported(records, l, taskId) then outcome == Recorded
    else exists k: nat | FirstUnsupportedOther(records, l, taskId, k) :: outcome == RefusedAs(Load(records, l.tasks[k].taskId))
  }

  /** From any ledger on disk, all five moves answer so, whatever the records hold. */
  lemma MoveAnswers(
    move: Move, files: Files, root: string, declared: Option<string>, l: Ledger, taskId: string, records: Records)
    requires OnDisk(files, root, declared, l)
    ensures AnswersMove(
      MoveOutcome(move, files, root, declared, l, LedgerText(l), taskId, Load(records, taskId), records, Lands).outcome,
      move, l, taskId, records)
  {
    hide Valid, UpdateOutcome, OthersSupported, CommitResult, NextLedger, FirstUnsupportedOther;
    GuardOpensIff(move, l, taskId, Load(records, taskId));
    if Allowed(move, records, l, taskId) {
      MoveLandsIff(move, files, root, declared, l, taskId, records);
      if !OthersSupported(records, l, taskId) {
        var k := RefusedForAnother(move, files, root, declared, l, taskId, records);
      }
    }
  }

  /** When a primitive's own guards let a move through, and what they answer when they do not. */
  lemma MovesAreNotDeclined(move: Move, d: Disposition)
    ensures d in Declined(move) <==> !MovesFrom(move, d)
  {
  }

  lemma RecordsProveTargets(move: Move, state: TaskStateName)
    ensures StateProves(Target(move), state) <==> RecordedOn(move, state)
  {
  }

  lemma GuardOpensIff(move: Move, l: Ledger, taskId: string, state: Reading)
    ensures
      var (refusal, entry) := (Guard(move, l, taskId, state), EntryFor(l, taskId));
      if l.stopReason.Some? then refusal == Some(RunAlreadyStopped)
      else if entry.None? then refusal == Some(TaskNotInRun)
      else if !MovesFrom(move, entry.value.disposition) then refusal == Some(DispositionUnchanged)
      else if move == Activate && l.activeTaskId.Some? then refusal == Some(AnotherTaskActive)
      else if !(state.Read? && RecordedOn(move, state.record.state)) then refusal == Some(RefusedAs(state))
      else refusal.None?
  {
    hide Declined, MovesFrom, StateProves, Target, RecordedOn, EntryFor;
    forall d: Disposition ensures d in Declined(move) <==> !MovesFrom(move, d) { MovesAreNotDeclined(move, d); }
    if state.Read? { RecordsProveTargets(move, state.record.state); }
  }

  /** A planned entry of a valid ledger claims nothing. */
  lemma UnsupportedIsRefusedAs(records: Records, l: Ledger, k: nat, save: SaveResult, next: Ledger)
    requires Valid(l) && k < |l.tasks| && !Supported(records, l.tasks[k])
    requires save == Refused(EntryNotProven(ProveEntry(records, l.tasks[k])))
    ensures CommitResult(next, save).outcome == RefusedAs(Load(records, l.tasks[k].taskId))
  {
    hide WellShaped, MirrorsMembership, RelationIsCanonical, ActiveIsOneFact, StopAgrees, Fingerprint;
    assert CarriesEvidence(l.tasks[k]) by { assert l.tasks[k] in l.tasks; }
    ProofCodesMean(records, l.tasks[k]);
  }

  lemma RefusedForAnother(
    move: Move, files: Files, root: string, declared: Option<string>, l: Ledger, taskId: string, records: Records)
    returns (k: nat)
    requires OnDisk(files, root, declared, l) && Allowed(move, records, l, taskId) && !OthersSupported(records, l, taskId)
    ensures FirstUnsupportedOther(records, l, taskId, k)
    ensures MoveOutcome(move, files, root, declared, l, LedgerText(l), taskId, Load(records, taskId), records, Lands).outcome
      == RefusedAs(Load(records, l.tasks[k].taskId))
  {
    hide Valid, UpdateOutcome, Succeeds, LegalSuccessor, DispositionsMoved, AllSupported, OthersSupported, Supported, ProveEntry,
      CommitResult, RefusedAs;
    var state := Load(records, taskId);
    var n := NextLedger(move, l, taskId, state.record, state.revision);
    MovedLedgerIsValid(move, l, taskId, state.record, state.revision);
    SucceedsMeansNoViolations(l, n);
    MovedSupportIsOthersSupport(move, l, taskId, records);
    var own := MovedEntryIsSupported(move, l, taskId, records);
    k := RefusedForTheFirstUnproven(files, root, declared, l, n, records);
    UnsupportedIsRefusedAs(records, l, k, UpdateOutcome(files, root, declared, LedgerText(n), LedgerText(l), records, Lands), n);
  }

  /** What a recorded move writes: one entry, and the active task, out of the task's own record. */
  lemma RecordedMoveWrites(
    move: Move, files: Files, root: string, declared: Option<string>, l: Ledger, taskId: string, records: Records)
    requires OnDisk(files, root, declared, l)
    requires MoveOutcome(move, files, root, declared, l, LedgerText(l), taskId, Load(records, taskId), records, Lands).outcome == Recorded
    ensures
      var (r, state) := (
        MoveOutcome(move, files, root, declared, l, LedgerText(l), taskId, Load(records, taskId), records, Lands),
        Load(records, taskId));
      && r.ledger.Some? && state.Read? && EntryFor(l, taskId).Some?
      && var (n, own) := (r.ledger.value, EntryFor(r.ledger.value, taskId));
      && n == l.(tasks := n.tasks, activeTaskId := n.activeTaskId)
      && n.activeTaskId == (if move == Activate then Some(taskId) else if l.activeTaskId == Some(taskId) then None else l.activeTaskId)
      && |n.tasks| == |l.tasks| && (forall i | 0 <= i < |l.tasks| && l.tasks[i].taskId != taskId :: n.tasks[i] == l.tasks[i])
      && own.Some? && own.value.taskId == taskId
      && (move == Activate <==> own.value.disposition == Active) && (move == Settle <==> own.value.disposition == Settled)
      && (move == Park <==> own.value.disposition == Blocked) && (move == Abandon <==> own.value.disposition == Abandoned)
      && (move == Resolve <==> own.value.disposition == Resolved)
      && own.value.baseCommit == state.record.basePinnedCommit
      && own.value.evidenceRevision == (if move == Activate then None else Some(state.revision))
      && own.value.resultCommit == (if move == Settle then state.record.currentCommit else None)
  {
    hide UpdateOutcome, Valid, Succeeds;
    var state := Load(records, taskId);
    var n := NextLedger(move, l, taskId, state.record, state.revision);
    GuardOpensIff(move, l, taskId, state);
    RecordedMeansSaved(n, UpdateOutcome(files, root, declared, LedgerText(n), LedgerText(l), records, Lands));
    MovedLedgerIsValid(move, l, taskId, state.record, state.revision);
    var k := MovedEntryIsSupported(move, l, taskId, records);
    EntryForFinds(n, k);
  }
}
