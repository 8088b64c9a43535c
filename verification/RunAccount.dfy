/**
 * What a run leaves behind: what is true of the disk when it ends, and how the report it
 * renders stands to that.
 */
module RunAccount {
  import opened Base
  import opened Identifiers
  import opened PlanEncoding
  import opened TaskRecords
  import opened BlockLedger
  import opened BlockEvidence
  import opened BlockStore
  import opened BlockHistory
  import opened BlockProgress
  import opened BlockConclusion
  import opened ForcedProgress
  import opened RunScript

  datatype RunCode =
    | BlockRunEnded
    | LeaseAuthorityUncertain
    | DurableWriteFailed
    | RunGateRefused
    | ReconciliationUnresolved

  /** Still open; stopped in the ledger; or ended in the report only. */
  datatype RunStep =
    | OpenStep(open: Ledger)
    | StoppedStep(reason: StopReason, stopped: Ledger)
    | EndedStep(code: RunCode)

  datatype TaskReport = TaskReport(taskId: string, disposition: Disposition, runOutcome: Option<RunOutcome>)

  datatype AttendedResult = AttendedResult(
    code: RunCode, stopReason: Option<StopReason>, tasks: seq<TaskReport>, steps: nat)

  // ------------------------------------------------- what the disk and the report hold

  /** What is true of the disk however a step ended. */
  ghost predicate StepHolds(step: RunStep, files: Files, runId: string) {
    match step
    case OpenStep(l) => Holds(files, runId, l) && l.stopReason.None?
    case StoppedStep(reason, l) => Holds(files, runId, l) && l.stopReason == Some(reason)
    case EndedStep(code) => code != BlockRunEnded && Unstopped(files, runId)
  }

  /** The run's ledger is on disk and carries no ending. */
  ghost predicate Unstopped(files: Files, runId: string) {
    var l := LedgerIn(files, runId);
    l.Some? && Holds(files, runId, l.value) && l.value.stopReason.None?
  }

  /** Every other run's file is as it was, and this run's ledger keeps its identity and its plan. */
  ghost predicate OnlyThisRunMoved(before: Files, after: Files, runId: string) {
    && after - {runId} == before - {runId}
    && match LedgerIn(before, runId)
       case None => true
       case Some(p) =>
         match LedgerIn(after, runId)
         case None => false
         case Some(n) => SameIdentity(p, n) && SamePlan(p, n)
  }

  lemma ThisRunMoved(before: Files, after: Files, runId: string, p: Ledger, n: Ledger)
    requires after - {runId} == before - {runId} && Holds(before, runId, p) && Holds(after, runId, n) && SameRun(p, n)
    ensures OnlyThisRunMoved(before, after, runId)
  {
  }

  lemma NothingMoved(files: Files, runId: string)
    ensures OnlyThisRunMoved(files, files, runId)
    ensures forall l | Holds(files, runId, l) && l.stopReason.None? :: Unstopped(files, runId)
  {
    hide Valid;
  }

  lemma MovedAgain(a: Files, b: Files, c: Files, runId: string)
    requires OnlyThisRunMoved(a, b, runId) && OnlyThisRunMoved(b, c, runId)
    ensures OnlyThisRunMoved(a, c, runId)
  {
  }

  /** Two moments of one run: the same run and plan, and no member planned again. */
  ghost predicate SameRun(before: Ledger, after: Ledger) {
    && SameIdentity(before, after) && SamePlan(before, after)
    && |after.tasks| == |before.tasks|
    && PlannedCount(after.tasks) <= PlannedCount(before.tasks)
    && forall i | 0 <= i < |before.tasks| ::
         && after.tasks[i].taskId == before.tasks[i].taskId
         && (before.tasks[i].disposition != Planned ==> after.tasks[i].disposition != Planned)
  }

  /** Whatever ledger a step ends on is this run's. */
  ghost predicate KeepsTheRun(step: RunStep, before: Ledger) {
    match step
    case OpenStep(l) => SameRun(before, l)
    case StoppedStep(_, l) => SameRun(before, l)
    case EndedStep(_) => true
  }

  lemma SameRunIsReflexive(l: Ledger)
    ensures SameRun(l, l)
  {
  }

  /** The same entries, but for one task's, which has come to this disposition. */
  ghost predicate OneMoved(before: Ledger, after: Ledger, taskId: string, d: Disposition) {
    && |after.tasks| == |before.tasks|
    && forall i | 0 <= i < |before.tasks| ::
         if before.tasks[i].taskId == taskId
         then after.tasks[i].taskId == taskId && after.tasks[i].disposition == d
         else after.tasks[i] == before.tasks[i]
  }

  lemma MovedThenStopped(a: Ledger, b: Ledger, c: Ledger, taskId: string, d: Disposition)
    requires OneMoved(a, b, taskId, d) && c.tasks == b.tasks
    ensures OneMoved(a, c, taskId, d)
  {
  }

  lemma MoveKeepsTheRun(move: Move, l: Ledger, taskId: string, record: TaskRecord, revision: Revision)
    requires Valid(l) && EntryFor(l, taskId).Some? && EntryFor(l, taskId).value.disposition !in Declined(move)
    ensures
      var n := NextLedger(move, l, taskId, record, revision);
      && SameRun(l, n) && PastPlanned(n.tasks, taskId) && n.stopReason == l.stopReason
      && OneMoved(l, n, taskId, Target(move))
      && PlannedCount(n.tasks) == PlannedCount(l.tasks) - if TaskPlanned(l, taskId) then 1 else 0
  {
    hide Valid;
    var n := NextLedger(move, l, taskId, record, revision);
    var k := MovedEntryFacts(move, l, taskId, record, revision);
    assert Target(move) != Planned;
    MoveLowersPlannedCount(move, l, taskId, record, revision);
  }

  ghost predicate TaskPlanned(l: Ledger, taskId: string) {
    EntryFor(l, taskId).Some? && EntryFor(l, taskId).value.disposition == Planned
  }

  lemma PlannedIsNotPast(l: Ledger, taskId: string)
    requires Valid(l) && TaskPlanned(l, taskId)
    ensures !PastPlanned(l.tasks, taskId)
  {
    hide Valid;
    forall i | 0 <= i < |l.tasks| && l.tasks[i].taskId == taskId ensures l.tasks[i].disposition == Planned { EntryForFinds(l, i); }
  }

  lemma StartedStayPast(asked: seq<Ask>, before: Ledger, after: Ledger)
    requires StartedArePast(asked, before.tasks) && SameRun(before, after)
    ensures StartedArePast(asked, after.tasks)
  {
    forall i | 0 <= i < |asked| ensures PastPlanned(after.tasks, AskedFor(asked[i])) {
      assert PastPlanned(before.tasks, AskedFor(asked[i]));
      var k :| 0 <= k < |before.tasks| && before.tasks[k].taskId == AskedFor(asked[i])
             && before.tasks[k].disposition != Planned;
      assert after.tasks[k].disposition != Planned;
    }
  }

  /**
   * How far a ledger shown earlier is behind the one on disk: exactly the tasks in `unshown`
   * have moved since, and each of them was still planned when it was shown.
   */
  ghost predicate Behind(shown: seq<Entry>, tasks: seq<Entry>, unshown: set<string>) {
    && |shown| == |tasks|
    && (forall i | 0 <= i < |shown| ::
          && shown[i].taskId == tasks[i].taskId
          && if shown[i].taskId in unshown
             then shown[i].disposition == Planned && tasks[i].disposition != Planned
             else shown[i].disposition == tasks[i].disposition)
    && (forall t | t in unshown :: Names(shown, t))
  }

  ghost predicate Names(tasks: seq<Entry>, taskId: string) {
    exists i | 0 <= i < |tasks| :: tasks[i].taskId == taskId
  }

  lemma NothingBehind(tasks: seq<Entry>)
    ensures Behind(tasks, tasks, {})
  {
  }

  /** A move that lands puts exactly its own task among the unshown ones. */
  lemma MovePutsOneBehind(
    shown: seq<Entry>, unshown: set<string>, move: Move, l: Ledger, taskId: string, record: TaskRecord, revision: Revision)
    requires Valid(l) && EntryFor(l, taskId).Some? && EntryFor(l, taskId).value.disposition !in Declined(move)
    requires Behind(shown, l.tasks, unshown)
    requires TaskPlanned(l, taskId) || taskId in unshown
    ensures Behind(shown, NextLedger(move, l, taskId, record, revision).tasks, unshown + {taskId})
  {
    hide Valid;
    var n := NextLedger(move, l, taskId, record, revision);
    var k := MovedEntryFacts(move, l, taskId, record, revision);
    assert Target(move) != Planned;
    assert shown[k].taskId == taskId;
  }

  /** The report carries exactly the dispositions of the ledger on disk. */
  ghost predicate AsPersisted(files: Files, runId: string, reports: seq<TaskReport>) {
    var l := LedgerIn(files, runId);
    && l.Some? && |reports| == |l.value.tasks|
    && forall i | 0 <= i < |reports| ::
         && reports[i].taskId == l.value.tasks[i].taskId
         && reports[i].disposition == l.value.tasks[i].disposition
  }

  function Reports(l: Ledger, outcomes: map<string, RunOutcome>): (r: seq<TaskReport>)
    ensures |r| == |l.tasks|
    ensures forall i | 0 <= i < |l.tasks| ::
      r[i].taskId == l.tasks[i].taskId && r[i].disposition == l.tasks[i].disposition
  {
    seq(|l.tasks|, i requires 0 <= i < |l.tasks| =>
      TaskReport(l.tasks[i].taskId, l.tasks[i].disposition,
        if l.tasks[i].taskId in outcomes then Some(outcomes[l.tasks[i].taskId]) else None))
  }

  lemma AsPersistedIff(files: Files, runId: string, shown: Ledger, outcomes: map<string, RunOutcome>, unshown: set<string>)
    requires LedgerIn(files, runId).Some? && Behind(shown.tasks, LedgerIn(files, runId).value.tasks, unshown)
    ensures AsPersisted(files, runId, Reports(shown, outcomes)) <==> unshown == {}
  {
    var tasks := LedgerIn(files, runId).value.tasks;
    if unshown != {} {
      var t :| t in unshown;
      assert Names(shown.tasks, t);
      var i :| 0 <= i < |shown.tasks| && shown.tasks[i].taskId == t;
      assert Reports(shown, outcomes)[i].disposition != tasks[i].disposition;
    }
  }

  lemma ReportNamesThePlan(
    before: Files, after: Files, runId: string, first: Ledger, shown: Ledger, outcomes: map<string, RunOutcome>, unshown: set<string>)
    requires Holds(before, runId, first) && OnlyThisRunMoved(before, after, runId)
    requires LedgerIn(after, runId).Some? && Valid(LedgerIn(after, runId).value)
    requires Behind(shown.tasks, LedgerIn(after, runId).value.tasks, unshown)
    ensures ReportNames(Reports(shown, outcomes), first.frozenTaskIds)
  {
    hide WellShaped, RelationIsCanonical, ActiveIsOneFact, StopAgrees, CarriesEvidence, Fingerprint;
  }

  /** The report lists these tasks, in this order. */
  ghost predicate ReportNames(reports: seq<TaskReport>, taskIds: seq<string>) {
    |reports| == |taskIds| && forall i | 0 <= i < |reports| :: reports[i].taskId == taskIds[i]
  }

  lemma AnEmptyReportIsNotAsPersisted(files: Files, runId: string, l: Ledger)
    requires Holds(files, runId, l)
    ensures !AsPersisted(files, runId, [])
  {
  }

  /** One reading of the profile, and of the records as they answer to what was asked. */
  datatype Stillness = Stillness(records: seq<Ask> -> Records, declared: Option<string>)

  /** Nothing moves of itself and every write lands: records change only as the run asks. */
  ghost predicate Steady(script: Script, still: Stillness) {
    && (forall t: nat, asked :: script.records(t, asked) == still.records(asked))
    && (forall t: nat :: script.declared(t) == still.declared && script.fates(t) == Lands)
  }

  lemma SteadyAtAnInstant(script: Script, still: Stillness, t: nat, asked: seq<Ask>)
    ensures Steady(script, still) ==>
      script.records(t, asked) == still.records(asked) && script.declared(t) == still.declared && script.fates(t) == Lands
  {
  }

  lemma SameRunNamesTheSameCheckout(before: Ledger, after: Ledger, root: string, declared: Option<string>)
    requires SameRun(before, after)
    ensures NamesCheckout(before, root, declared) <==> NamesCheckout(after, root, declared)
  {
  }

  lemma OthersAreSupportedToo(records: Records, l: Ledger, taskId: string)
    ensures AllSupported(records, l.tasks) ==> OthersSupported(records, l, taskId)
  {
  }

  /** A stop either lands as the same document with its reason, or leaves every file alone. */
  lemma RecordedStop(
    files: Files, root: string, declared: Option<string>, runId: string,
    l: Ledger, reason: StopReason, records: Records, fate: WriteFate)
    requires Holds(files, runId, l) && l.stopReason.None?
    ensures
      var r := StopOutcome(files, root, declared, l, LedgerText(l), reason, records, fate);
      && (r.outcome != Recorded ==> FilesAfterProgress(files, r) == files)
      && (r.outcome == Recorded ==>
            && r.ledger == Some(l.(stopReason := Some(reason)))
            && Holds(FilesAfterProgress(files, r), runId, r.ledger.value))
  {
    hide UpdateOutcome, Valid, Succeeds;
    var n := l.(stopReason := Some(reason));
    var save := UpdateOutcome(files, root, declared, LedgerText(n), LedgerText(l), records, fate);
    RecordedMeansSaved(n, save);
    if save.Saved? {
      LandedUpdateIsSound(files, root, declared, LedgerText(n), LedgerText(l), records, fate);
    }
  }

  /**
   * With the checkout named and the disk sound, only evidence can refuse a move: whatever
   * was read before and is read now, the answer is never that the write was not recorded.
   */
  lemma OnlyEvidenceRefusesMoves(
    move: Move, files: Files, root: string, declared: Option<string>, runId: string,
    l: Ledger, taskId: string, state: Reading, records: Records)
    requires Holds(files, runId, l) && NamesCheckout(l, root, declared) && l.stopReason.None?
    ensures MoveOutcome(move, files, root, declared, l, LedgerText(l), taskId, state, records, Lands).outcome != NotRecorded
  {
    hide Valid, Succeeds, LegalSuccessor, UpdateOutcome, WithEntry, MovedEntry;
    if Guard(move, l, taskId, state).None? {
      var n := NextLedger(move, l, taskId, state.record, state.revision);
      MovedLedgerIsValid(move, l, taskId, state.record, state.revision);
      SucceedsMeansNoViolations(l, n);
      OnlyProofRefuses(files, root, declared, l, n, records);
    }
  }

  /** With the checkout named and the disk sound, a supported move on the record read twice lands. */
  lemma QuietMovesLand(
    move: Move, files: Files, root: string, declared: Option<string>, runId: string,
    l: Ledger, taskId: string, state: Reading, records: Records)
    requires Holds(files, runId, l) && l.stopReason.None?
    ensures
      var r := MoveOutcome(move, files, root, declared, l, LedgerText(l), taskId, state, records, Lands);
      NamesCheckout(l, root, declared) ==>
        && r.outcome != NotRecorded
        && (state == Load(records, taskId) && Allowed(move, records, l, taskId) && OthersSupported(records, l, taskId) ==>
              r.outcome == Recorded)
  {
    hide Valid, MoveOutcome, Guard, NamesCheckout, OthersSupported;
    if NamesCheckout(l, root, declared) {
      OnlyEvidenceRefusesMoves(move, files, root, declared, runId, l, taskId, state, records);
      if state == Load(records, taskId) && Allowed(move, records, l, taskId) {
        MoveLandsIff(move, files, root, declared, l, taskId, records);
      }
    }
  }

  /** What a move that was recorded leaves behind. */
  lemma RecordedMoveLeaves(
    move: Move, files: Files, root: string, declared: Option<string>, runId: string,
    l: Ledger, taskId: string, state: Reading, records: Records, fate: WriteFate)
    requires Holds(files, runId, l)
    ensures
      var r := MoveOutcome(move, files, root, declared, l, LedgerText(l), taskId, state, records, fate);
      var after := FilesAfterProgress(files, r);
      && OnlyThisRunMoved(files, after, runId)
      && (r.outcome != Recorded ==> after == files)
      && (r.outcome == Recorded ==>
            && l.stopReason.None? && state.Read?
            && EntryFor(l, taskId).Some? && EntryFor(l, taskId).value.disposition !in Declined(move)
            && r.ledger.Some? && Holds(after, runId, r.ledger.value) && r.ledger.value.stopReason.None?
            && r.ledger.value == NextLedger(move, l, taskId, state.record, state.revision)
            && SameRun(l, r.ledger.value) && PastPlanned(r.ledger.value.tasks, taskId)
            && OneMoved(l, r.ledger.value, taskId, Target(move))
            && (TaskPlanned(l, taskId) ==> PlannedCount(r.ledger.value.tasks) < PlannedCount(l.tasks)))
  {
    hide Valid, MoveOutcome, NextLedger, FilesAfterProgress, OnlyThisRunMoved, SameRun, OneMoved, PastPlanned, PlannedCount;
    var r := MoveOutcome(move, files, root, declared, l, LedgerText(l), taskId, state, records, fate);
    RecordedMove(move, files, root, declared, runId, l, taskId, state, records, fate);
    NothingMoved(files, runId);
    if r.outcome == Recorded {
      MoveKeepsTheRun(move, l, taskId, state.record, state.revision);
      ThisRunMoved(files, FilesAfterProgress(files, r), runId, l, r.ledger.value);
    }
  }

  /** A ledger of this run on disk is loaded back exactly when the profile still names its checkout. */
  lemma ReloadIsWhatIsOnDisk(files: Files, root: string, declared: Option<string>, runId: string, l: Ledger)
    requires Holds(files, runId, l)
    ensures
      var r := LoadOutcome(files, root, declared, runId);
      && (r.Loaded? ==> r.ledger == l)
      && (r.Loaded? <==> NamesCheckout(l, root, declared))
  {
    hide Valid, IsValidTaskId, Parse, DeclaresAnotherVersion;
    ValidLedgersParse(l);
  }

  lemma ValidLedgersParse(l: Ledger)
    requires Valid(l)
    ensures Parse(LedgerText(l)) == Some(l) && !DeclaresAnotherVersion(LedgerText(l)) && IsValidTaskId(l.runId)
  {
  }

  // --------------------------------------------------------------- one driven task

  ghost predicate StepActive(l: Ledger, taskId: string) {
    && l.activeTaskId == Some(taskId)
    && EntryFor(l, taskId).Some? && EntryFor(l, taskId).value.disposition == Active
  }

  lemma FitHandover(h: Handover, runId: string, request: Request)
    requires Valid(h.ledger) && h.ledger.runId == runId
    requires h.ledger.frozenTaskIds == request.definition.taskIds
    requires h.ledger.frozenDependencies == request.definition.dependencies
    requires h.ledger.stopReason.None? && h.ledger.activeTaskId.None?
    requires ChooseTask(h.ledger, request.eligibility) == Chosen(h.taskId, h.maximum)
    requires BaseFits(h, request.blockBase) && MayGoOn(h.ledger)
    ensures HandoverFit(h, runId, request)
  {
  }

  lemma ActivatedTaskIsActive(l: Ledger, taskId: string, next: Ledger)
    requires Valid(l) && Valid(next) && EntryFor(l, taskId).Some?
    requires EntryFor(l, taskId).value.disposition !in Declined(Activate)
    requires exists record, revision :: next == NextLedger(Activate, l, taskId, record, revision)
    ensures StepActive(next, taskId)
  {
    hide Valid;
    var record, revision :| next == NextLedger(Activate, l, taskId, record, revision);
    var k := MovedEntryFacts(Activate, l, taskId, record, revision);
    EntryForFinds(next, k);
  }

  lemma ConcludedTaskIsNotActive(move: Move, l: Ledger, taskId: string, next: Ledger)
    requires EntryFor(l, taskId).Some? && l.activeTaskId == Some(taskId) && move != Activate
    requires exists record, revision :: next == NextLedger(move, l, taskId, record, revision)
    ensures next.activeTaskId.None?
  {
  }

  predicate IsReady(records: Records, taskId: string) {
    Load(records, taskId).Read? && Load(records, taskId).record.state == ReadyForPr
  }

  /** What was asked when a member was handed over and its driver called until its verdict. */
  ghost predicate DrivenToTheEnd(before: seq<Ask>, asked: seq<Ask>, taskId: string, script: Script) {
    exists h: Handover | h.taskId == taskId ::
      asked == before + [StartAsk(h)] + Calls(taskId, CallsNeeded(script.drives(taskId), 0))
  }

  lemma OthersStaySupported(before: Ledger, after: Ledger, taskId: string, d: Disposition, records: Records)
    requires OneMoved(before, after, taskId, d) && OthersSupported(records, before, taskId)
    ensures OthersSupported(records, after, taskId)
  {
    hide Supported;
    forall e | e in after.tasks && e.taskId != taskId ensures Supported(records, e) {
      var i :| 0 <= i < |after.tasks| && after.tasks[i] == e;
      assert before.tasks[i] in before.tasks;
    }
  }

  lemma ActiveTaskMaySettle(active: Ledger, taskId: string, records: Records)
    requires StepActive(active, taskId) && active.stopReason.None? && IsReady(records, taskId)
    ensures Allowed(Settle, records, active, taskId)
  {
  }

  lemma ActivationOnRecord(l: Ledger, taskId: string, records: Records)
    requires Valid(l) && Allowed(Activate, records, l, taskId) && Valid(NextOnRecord(Activate, records, l, taskId))
    ensures
      var active := NextOnRecord(Activate, records, l, taskId);
      OneMoved(l, active, taskId, Active) && StepActive(active, taskId) && active.stopReason.None?
  {
    hide Valid, OneMoved, MovedEntry, WithEntry;
    var reading := Load(records, taskId);
    MoveKeepsTheRun(Activate, l, taskId, reading.record, reading.revision);
    ActivatedTaskIsActive(l, taskId, NextOnRecord(Activate, records, l, taskId));
  }

  lemma SettlementOnRecord(active: Ledger, taskId: string, records: Records)
    requires Valid(active) && Allowed(Settle, records, active, taskId) && OthersSupported(records, active, taskId)
    ensures
      var after := NextOnRecord(Settle, records, active, taskId);
      OneMoved(active, after, taskId, Settled) && AllSupported(records, after.tasks)
  {
    hide Valid, OneMoved, MovedEntry, WithEntry, OthersSupported, AllSupported;
    var reading := Load(records, taskId);
    MoveKeepsTheRun(Settle, active, taskId, reading.record, reading.revision);
    MovedSupportIsOthersSupport(Settle, active, taskId, records);
  }

  /** Activated on one reading and settled on a later one: one entry moved, and everything is supported. */
  lemma SettlesAfterActivation(l: Ledger, active: Ledger, taskId: string, first: Records, second: Records)
    requires Valid(l) && Valid(active)
    ensures
      && Allowed(Activate, first, l, taskId) && active == NextOnRecord(Activate, first, l, taskId)
      && IsReady(second, taskId) && OthersSupported(second, l, taskId) ==>
      && Allowed(Settle, second, active, taskId) && OthersSupported(second, active, taskId)
      && OneMoved(l, NextOnRecord(Settle, second, active, taskId), taskId, Settled)
      && AllSupported(second, NextOnRecord(Settle, second, active, taskId).tasks)
  {
    hide Valid, AllSupported, OthersSupported, Allowed, NextOnRecord, IsReady, StepActive;
    if Allowed(Activate, first, l, taskId) && active == NextOnRecord(Activate, first, l, taskId)
       && IsReady(second, taskId) && OthersSupported(second, l, taskId) {
      ActivationOnRecord(l, taskId, first);
      OthersStaySupported(l, active, taskId, Active, second);
      ActiveTaskMaySettle(active, taskId, second);
      SettlementOnRecord(active, taskId, second);
    }
  }

  lemma ActiveIsPast(current: Ledger, active: Ledger, after: Ledger, taskId: string)
    requires SameRun(current, active) && SameRun(active, after) && StepActive(active, taskId)
    ensures SameRun(current, after) && PastPlanned(after.tasks, taskId)
  {
    var k := IndexOf(active.tasks, taskId);
    assert after.tasks[k].taskId == taskId && after.tasks[k].disposition != Planned;
  }

  lemma StartedAfterDrive(
    before: seq<Ask>, started: seq<Ask>, asked: seq<Ask>, taskId: string, current: Ledger, active: Ledger, after: Ledger)
    requires StartedArePast(before, current.tasks) && SameRun(current, active) && SameRun(active, after)
    requires started != [] && started[..|started| - 1] == before
    requires started[|started| - 1].StartAsk? && started[|started| - 1].handover.taskId == taskId
    requires exists n: nat :: asked == started + Calls(taskId, n)
    requires StepActive(active, taskId)
    ensures SameRun(current, after) && PlannedCount(after.tasks) <= PlannedCount(active.tasks)
    ensures StartedArePast(asked, after.tasks) && PastPlanned(after.tasks, taskId)
  {
    ActiveIsPast(current, active, after, taskId);
    StartedStayPast(before, current, after);
    var n: nat :| asked == started + Calls(taskId, n);
    assert started == before + [started[|started| - 1]];
  }

  lemma StartAndCalls(before: seq<Ask>, started: seq<Ask>, asked: seq<Ask>, taskId: string, script: Script)
    requires started != [] && started[..|started| - 1] == before
    requires started[|started| - 1].StartAsk? && started[|started| - 1].handover.taskId == taskId
    requires asked == started + Calls(taskId, CallsNeeded(script.drives(taskId), 0))
    ensures DrivenToTheEnd(before, asked, taskId, script)
  {
    assert started == before + [started[|started| - 1]];
  }

  /** A task-local failure: it ends the task, and the run only where independence is not established. */
  predicate FailedLocally(l: Ledger, taskId: string) {
    var entry := EntryFor(l, taskId);
    entry.Some? && (entry.value.disposition == Blocked || entry.value.disposition == Abandoned)
  }

  lemma ClaimsNothingMayGoOn(l: Ledger)
    requires ClaimsNothing(l)
    ensures MayGoOn(l)
  {
    assert forall i | 0 <= i < |l.tasks| :: l.tasks[i] in l.tasks;
  }

  lemma SettledMoreMayGoOn(before: Ledger, after: Ledger)
    requires SettledMore(before, after) && SameRun(before, after) && MayGoOn(before)
    ensures MayGoOn(after)
  {
  }

  /** The driver's answer parks or abandons its task, in a plan in which some member requires another. */
  ghost predicate EndsTheRun(outcome: RunOutcome, l: Ledger) {
    && (RecordedFor(ConclusionForRunOutcome(outcome)) == Some(Blocked)
        || RecordedFor(ConclusionForRunOutcome(outcome)) == Some(Abandoned))
    && SomeDepends(l)
  }

  lemma LocalFailuresMean(before: Ledger, after: Ledger, taskId: string, outcome: RunOutcome)
    requires Valid(after) && TaskPlanned(before, taskId) && ConcludedBy(before, after, taskId, outcome)
    ensures FailedLocally(after, taskId) && !IndependenceIsEstablished(after.frozenDependencies) <==> EndsTheRun(outcome, after)
  {
    hide Valid, ConclusionForRunOutcome, RecordedFor;
    var k := IndexOf(before.tasks, taskId);
    EntryForFinds(after, k);
  }

  /** One task concluded, and unless it failed in a plan with dependencies the run may go on. */
  lemma ConcludedMayGoOn(before: Ledger, after: Ledger, taskId: string, outcome: RunOutcome)
    requires Valid(after) && SameRun(before, after) && MayGoOn(before) && ConcludedBy(before, after, taskId, outcome)
    requires !(FailedLocally(after, taskId) && !IndependenceIsEstablished(after.frozenDependencies))
    ensures MayGoOn(after)
  {
    hide Valid, ConclusionForRunOutcome, RecordedFor, EntryFor, IndexOf;
    if SomeDepends(after) {
      forall i | 0 <= i < |after.tasks| ensures after.tasks[i].disposition != Blocked && after.tasks[i].disposition != Abandoned {
        if before.tasks[i].taskId == taskId { EntryForFinds(after, i); }
      }
    }
  }

  // ------------------------------------------------------------- driven, yet reported planned

  ghost predicate OutcomesArePast(tasks: seq<Entry>, outcomes: map<string, RunOutcome>) {
    forall i | 0 <= i < |tasks| && tasks[i].taskId in outcomes :: tasks[i].disposition != Planned
  }

  /** A report that contradicts itself: the driver answered for a task that is said to be planned. */
  ghost predicate DrivenButPlanned(reports: seq<TaskReport>) {
    exists i | 0 <= i < |reports| :: reports[i].disposition == Planned && reports[i].runOutcome.Some?
  }

  lemma DrivenButPlannedIff(l: Ledger, outcomes: map<string, RunOutcome>)
    ensures DrivenButPlanned(Reports(l, outcomes)) <==> !OutcomesArePast(l.tasks, outcomes)
  {
    var reports := Reports(l, outcomes);
    assert forall i | 0 <= i < |l.tasks| :: reports[i].runOutcome.Some? <==> l.tasks[i].taskId in outcomes;
  }

  /** A planned task with an answer makes the report contradict itself. */
  lemma DrivenIsReportedPlanned(l: Ledger, outcomes: map<string, RunOutcome>, taskId: string, outcome: RunOutcome)
    requires TaskPlanned(l, taskId)
    ensures DrivenButPlanned(Reports(l, outcomes[taskId := outcome]))
  {
    var k := IndexOf(l.tasks, taskId);
    assert Reports(l, outcomes[taskId := outcome])[k].runOutcome.Some?;
  }

  // ------------------------------------------------------- what an answer entitles to

  /** The disposition a conclusion may be recorded as. */
  function RecordedFor(c: TaskConclusion): Option<Disposition> {
    match c
    case SettleIt => Some(Settled)
    case ParkIt => Some(Blocked)
    case AbandonIt => Some(Abandoned)
    case ResolveIt => Some(Resolved)
    case _ => None
  }

  /** The state of the task's own record that an answer of the driver names, if it names one. */
  ghost function StateBehind(outcome: RunOutcome): Option<TaskStateName> {
    match outcome
    case TaskCompleted => Some(ReadyForPr)
    case TaskAborted => Some(Aborted)
    case TaskOperatorResolved => Some(OperatorResolved)
    case RunBlockedUsageLimit => Some(BlockedUsageLimit)
    case RunBlockedVerify => Some(BlockedVerify)
    case RunBlockedAuth => Some(BlockedAuth)
    case RunScopeViolation => Some(ScopeViolation)
    case RunResumeStateDiverged => Some(ResumeStateDiverged)
    case RunHumanDecisionRequired => Some(HumanDecisionRequired)
    case _ => None
  }

  /**
   * An answer is recorded as an outcome exactly when it names a state, and as the outcome
   * that state speaks for; of the rest, two forbid the write, one says the record is
   * unusable, one asks for another drive, and everything else is unresolved.
   */
  lemma ConclusionsFollowTheState(outcome: RunOutcome)
    ensures RecordedFor(ConclusionForRunOutcome(outcome)).Some? <==> StateBehind(outcome).Some?
    ensures StateBehind(outcome).Some? ==>
      && RecordedFor(ConclusionForRunOutcome(outcome)).value !in {Planned, Active}
      && SpeaksFor(StateBehind(outcome).value, RecordedFor(ConclusionForRunOutcome(outcome)).value)
    ensures ConclusionForRunOutcome(outcome) == LeaseUncertain <==> outcome == RunLeaseNotHeld || outcome == RunLeaseLost
    ensures ConclusionForRunOutcome(outcome) == UnusableState <==> outcome == RunStateUnusable
    ensures ConclusionForRunOutcome(outcome) == Continue <==> outcome == StepBudgetExhausted
  {
  }

  /**
   * A task the driver never answered for is planned, or settled on its own record; one it
   * did answer for is what that answer entitles to, unless it was left where the drive found it.
   */
  ghost predicate EntitledBy(d: Disposition, answer: Option<RunOutcome>) {
    match answer
    case None => d == Planned || d == Settled
    case Some(o) => d == Planned || d == Active || Some(d) == RecordedFor(ConclusionForRunOutcome(o))
  }

  /** One task's entry came to what this answer entitles to, and no other changed. */
  ghost predicate ConcludedBy(before: Ledger, after: Ledger, taskId: string, outcome: RunOutcome) {
    var d := RecordedFor(ConclusionForRunOutcome(outcome));
    d.Some? && OneMoved(before, after, taskId, d.value)
  }

  lemma ActivatedAndConcluded(
    l: Ledger, active: Ledger, after: Ledger, taskId: string, conclusion: TaskConclusion, outcome: RunOutcome)
    requires OneMoved(l, active, taskId, Active)
    requires RecordedFor(conclusion).Some? && OneMoved(active, after, taskId, RecordedFor(conclusion).value)
    requires conclusion == ConclusionForRunOutcome(outcome) || conclusion == Unresolved
    ensures ConcludedBy(l, after, taskId, outcome)
    ensures conclusion == SettleIt ==> OneMoved(l, after, taskId, Settled)
  {
  }

  function AnswerFor(outcomes: map<string, RunOutcome>, taskId: string): Option<RunOutcome> {
    if taskId in outcomes then Some(outcomes[taskId]) else None
  }

  ghost predicate Entitled(tasks: seq<Entry>, outcomes: map<string, RunOutcome>) {
    forall i | 0 <= i < |tasks| :: EntitledBy(tasks[i].disposition, AnswerFor(outcomes, tasks[i].taskId))
  }

  ghost predicate ReportEntitled(reports: seq<TaskReport>) {
    forall report | report in reports :: EntitledBy(report.disposition, report.runOutcome)
  }

  /** Between passes: entitled, and nothing driven is planned any more. */
  ghost predicate InOrder(l: Ledger, outcomes: map<string, RunOutcome>) {
    OutcomesArePast(l.tasks, outcomes) && Entitled(l.tasks, outcomes)
  }

  lemma EntitledReports(l: Ledger, outcomes: map<string, RunOutcome>)
    requires Entitled(l.tasks, outcomes)
    ensures ReportEntitled(Reports(l, outcomes))
  {
  }

  /** Some planned entries have come to be settled, and nothing else has changed. */
  ghost predicate SettledMore(before: Ledger, after: Ledger) {
    && |after.tasks| == |before.tasks|
    && forall i | 0 <= i < |before.tasks| ::
         || after.tasks[i] == before.tasks[i]
         || (after.tasks[i].taskId == before.tasks[i].taskId
             && before.tasks[i].disposition == Planned && after.tasks[i].disposition == Settled)
  }

  lemma SettlingOneMore(before: Ledger, after: Ledger, taskId: string)
    requires Valid(before) && OneMoved(before, after, taskId, Settled) && TaskPlanned(before, taskId)
    ensures SettledMore(before, after)
  {
    hide Valid;
    forall i | 0 <= i < |before.tasks| && before.tasks[i].taskId == taskId ensures before.tasks[i].disposition == Planned {
      EntryForFinds(before, i);
    }
  }

  lemma SettledMoreIsInOrder(before: Ledger, after: Ledger, outcomes: map<string, RunOutcome>)
    requires InOrder(before, outcomes) && SettledMore(before, after)
    ensures InOrder(after, outcomes)
  {
  }

  lemma ConcludedIsInOrder(
    before: Ledger, after: Ledger, outcomes: map<string, RunOutcome>, taskId: string, outcome: RunOutcome)
    requires InOrder(before, outcomes)
    requires ConcludedBy(before, after, taskId, outcome) || OneMoved(before, after, taskId, Active)
    ensures InOrder(after, outcomes[taskId := outcome])
  {
  }

  /** The answer is in, the entry is not: driven and planned. */
  lemma UnshownIsEntitled(before: Ledger, outcomes: map<string, RunOutcome>, taskId: string, outcome: RunOutcome)
    requires Valid(before) && InOrder(before, outcomes) && TaskPlanned(before, taskId)
    ensures Entitled(before.tasks, outcomes[taskId := outcome])
  {
    hide Valid;
    forall i | 0 <= i < |before.tasks| && before.tasks[i].taskId == taskId ensures before.tasks[i].disposition == Planned {
      EntryForFinds(before, i);
    }
  }

  /** A ledger on disk is not behind itself. */
  lemma ShownLedgerIsNotBehind(files: Files, runId: string, l: Ledger)
    requires Holds(files, runId, l)
    ensures LedgerIn(files, runId) == Some(l) && Behind(l.tasks, l.tasks, {})
  {
    NothingBehind(l.tasks);
  }

  lemma StopKeepsTheRun(l: Ledger, reason: StopReason)
    ensures SameRun(l, l.(stopReason := Some(reason)))
  {
  }

  // ------------------------------------------------------------------- the first ledger

  lemma CreateSavesTheDocument(
    files: Files, root: string, declared: Option<string>, next: Document, fate: WriteFate)
    requires next.LedgerText?
    ensures
      var r := CreateOutcome(files, root, declared, next, fate);
      && FilesAfter(files, next, r) - {next.ledger.runId} == files - {next.ledger.runId}
      && (r.Saved? ==>
            && r == Saved(next) && next.ledger.runId !in files
            && Holds(FilesAfter(files, next, r), next.ledger.runId, next.ledger)
            && ClaimsNothing(next.ledger) && NamesCheckout(next.ledger, root, declared))
      && (r.Refused? ==> FilesAfter(files, next, r) == files)
      && (r.Refused? && next.ledger.runId in files ==> r.code != WriteFailed && r.code != DirectoryCreateFailed)
  {
    hide Valid;
  }

  // --------------------------------------------------------------- from pass to pass

  lemma StartingOut(first: Ledger, asked: seq<Ask>, outcomes: map<string, RunOutcome>)
    requires ClaimsNothing(first) && asked == [] && outcomes == map[]
    ensures first.stopReason.None? && first.activeTaskId.None? && SameRun(first, first)
    ensures InOrder(first, outcomes) && StartedArePast(asked, first.tasks)
    ensures PlannedCount(first.tasks) <= |first.tasks|
  {
    PlannedCountBound(first.tasks);
  }

  lemma PassKeeps(first: Ledger, current: Ledger, next: Ledger, asked: seq<Ask>)
    requires SameRun(first, current) && SameRun(current, next)
    requires StartedArePast(asked, current.tasks)
    ensures SameRun(first, next) && PlannedCount(next.tasks) <= PlannedCount(current.tasks)
    ensures next.frozenTaskIds == first.frozenTaskIds && next.frozenDependencies == first.frozenDependencies
    ensures StartedArePast(asked, next.tasks)
  {
    StartedStayPast(asked, current, next);
  }
}
