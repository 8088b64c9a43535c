/**
 * Progress the ledger has not caught up with, recorded only where it is forced: a planned
 * entry whose own record already reads READY_FOR_PR.
 */
module ForcedProgress {
  import opened Base
  import opened TaskRecords
  import opened BlockLedger
  import opened BlockEvidence
  import opened BlockStore
  import opened BlockHistory
  import opened BlockReconciliation
  import opened BlockProgress

  function PlannedCount(tasks: seq<Entry>): nat {
    if tasks == [] then 0
    else (if tasks[0].disposition == Planned then 1 else 0) + PlannedCount(tasks[1..])
  }

  lemma {:induction false} PlannedCountAfterOneChange(p: seq<Entry>, n: seq<Entry>, k: nat)
    requires |p| == |n| && k < |p| && forall i | 0 <= i < |p| && i != k :: n[i] == p[i]
    requires n[k].disposition != Planned
    ensures PlannedCount(n) == PlannedCount(p) - if p[k].disposition == Planned then 1 else 0
  {
    if k == 0 {
      assert p[1..] == n[1..];
    } else {
      PlannedCountAfterOneChange(p[1..], n[1..], k - 1);
    }
  }

  lemma {:induction false} PlannedCountBound(tasks: seq<Entry>)
    ensures PlannedCount(tasks) <= |tasks|
  {
    if tasks != [] { PlannedCountBound(tasks[1..]); }
  }

  lemma MoveLowersPlannedCount(move: Move, l: Ledger, taskId: string, record: TaskRecord, revision: Revision)
    requires Valid(l) && EntryFor(l, taskId).Some?
    requires EntryFor(l, taskId).value.disposition !in Declined(move)
    ensures PlannedCount(NextLedger(move, l, taskId, record, revision).tasks)
      == PlannedCount(l.tasks) - if EntryFor(l, taskId).value.disposition == Planned then 1 else 0
  {
    var k := MovedEntryFacts(move, l, taskId, record, revision);
    PlannedCountAfterOneChange(l.tasks, NextLedger(move, l, taskId, record, revision).tasks, k);
  }

  /** A move either lands as the legal next document or leaves every file alone. */
  lemma RecordedMove(
    move: Move, files: Files, root: string, declared: Option<string>, runId: string,
    l: Ledger, taskId: string, state: Reading, records: Records, fate: WriteFate)
    requires Holds(files, runId, l)
    ensures
      var r := MoveOutcome(move, files, root, declared, l, LedgerText(l), taskId, state, records, fate);
      && FilesAfterProgress(files, r) - {runId} == files - {runId}
      && (r.outcome != Recorded ==> FilesAfterProgress(files, r) == files)
      && (r.outcome == Recorded ==>
            && l.stopReason.None? && state.Read?
            && EntryFor(l, taskId).Some? && EntryFor(l, taskId).value.disposition !in Declined(move)
            && r.ledger == Some(NextLedger(move, l, taskId, state.record, state.revision))
            && Holds(FilesAfterProgress(files, r), runId, r.ledger.value))
  {
    hide UpdateOutcome, Valid, Succeeds, DispositionsMoved, MovedEntry, WithEntry;
    if Guard(move, l, taskId, state).None? {
      var n := NextLedger(move, l, taskId, state.record, state.revision);
      RecordedMeansSaved(n, UpdateOutcome(files, root, declared, LedgerText(n), LedgerText(l), records, fate));
      MovedLedgerIsValid(move, l, taskId, state.record, state.revision);
    }
  }

  // --------------------------------------------------- which entries are forced

  predicate IsForced(records: Records, e: Entry) {
    && e.disposition == Planned
    && Load(records, e.taskId).Read?
    && Load(records, e.taskId).record.state == ReadyForPr
    && ProveEntry(records, e) == Proven
  }

  function ForcedEntry(records: Records, e: Entry): Entry {
    if IsForced(records, e)
    then MovedEntry(Settle, e, Load(records, e.taskId).record, Load(records, e.taskId).revision)
    else e
  }

  /** Every forced entry settled on its own record, every other entry as it was. */
  function ForcedLedger(records: Records, l: Ledger): Ledger {
    l.(tasks := seq(|l.tasks|, i requires 0 <= i < |l.tasks| => ForcedEntry(records, l.tasks[i])))
  }

  /** Doing it again changes nothing, and an active task is never touched. */
  lemma ForcedProgressIsIdempotent(records: Records, l: Ledger)
    ensures ForcedLedger(records, ForcedLedger(records, l)) == ForcedLedger(records, l)
    ensures forall i | 0 <= i < |l.tasks| && l.tasks[i].disposition != Planned ::
      ForcedLedger(records, l).tasks[i] == l.tasks[i]
    ensures ForcedLedger(records, l).activeTaskId == l.activeTaskId
  {
    var once := ForcedLedger(records, l);
    forall i | 0 <= i < |l.tasks| ensures ForcedEntry(records, once.tasks[i]) == once.tasks[i] { }
  }

  lemma {:induction false} AheadFindingsNameEntries(records: Records, tasks: seq<Entry>, taskId: string)
    ensures FindingEntry(taskId, TaskAheadOfLedger) in EntryFindings(records, tasks)
      <==> exists e | e in tasks :: e.taskId == taskId && ProvenAndAhead(records, e)
    decreases |tasks|
  {
    if tasks != [] {
      var init, last := tasks[..|tasks| - 1], tasks[|tasks| - 1];
      AheadFindingsNameEntries(records, init, taskId);
      assert tasks == init + [last];
      assert forall e :: e in tasks <==> e in init || e == last;
      assert EntryFinding(records, last) == Some(FindingEntry(taskId, TaskAheadOfLedger))
        <==> last.taskId == taskId && ProvenAndAhead(records, last);
    }
  }

  /** `findings.find(...)`: the first report of a finished task that this ledger still plans. */
  function FirstForced(findings: seq<FindingEntry>, l: Ledger): (r: Option<string>)
    ensures r.Some? ==>
      && FindingEntry(r.value, TaskAheadOfLedger) in findings
      && EntryFor(l, r.value).Some? && EntryFor(l, r.value).value.disposition == Planned
    ensures r.None? ==> forall t | FindingEntry(t, TaskAheadOfLedger) in findings ::
      EntryFor(l, t).None? || EntryFor(l, t).value.disposition != Planned
  {
    if findings == [] then None
    else if findings[0].finding == TaskAheadOfLedger
         && EntryFor(l, findings[0].taskId).Some?
         && EntryFor(l, findings[0].taskId).value.disposition == Planned
    then Some(findings[0].taskId)
    else FirstForced(findings[1..], l)
  }

  lemma DocumentFindingsAreNotProgress(l: Ledger, root: string, declared: Option<string>, taskId: string)
    ensures FindingEntry(taskId, TaskAheadOfLedger) !in DocumentFindings(l, root, declared, None)
  {
  }

  /** The search answers a forced entry while there is one, and nothing once there is none. */
  lemma FirstForcedMeans(l: Ledger, root: string, declared: Option<string>, records: Records)
    requires Valid(l)
    ensures
      var found := FirstForced(ReconcileOf(l, root, declared, None, records).findings, l);
      && (found.Some? ==> EntryFor(l, found.value).Some? && IsForced(records, EntryFor(l, found.value).value))
      && (found.None? ==> ForcedLedger(records, l) == l)
    ensures !ReconcileOf(l, root, declared, None, records).progressAvailable ==>
      ForcedLedger(records, l) == l && FirstForced(ReconcileOf(l, root, declared, None, records).findings, l).None?
  {
    hide Valid, DocumentFindings, EntryFindings, IsForced, ProvenAndAhead, ForcedLedger;
    var r := ReconcileOf(l, root, declared, None, records);
    var found := FirstForced(r.findings, l);
    if found.Some? {
      DocumentFindingsAreNotProgress(l, root, declared, found.value);
      FoundIsForced(records, l, found.value);
    }
    if !(exists i | 0 <= i < |l.tasks| :: IsForced(records, l.tasks[i])) {
      NothingForced(records, l);
    } else {
      var i :| 0 <= i < |l.tasks| && IsForced(records, l.tasks[i]);
      ForcedIsFound(records, l, i);
    }
  }

  lemma NothingForced(records: Records, l: Ledger)
    requires forall i | 0 <= i < |l.tasks| :: !IsForced(records, l.tasks[i])
    ensures ForcedLedger(records, l) == l
  {
    hide IsForced;
  }

  lemma FoundIsForced(records: Records, l: Ledger, taskId: string)
    requires Valid(l) && TaskAhead(taskId) in EntryFindings(records, l.tasks)
    requires EntryFor(l, taskId).Some? && EntryFor(l, taskId).value.disposition == Planned
    ensures IsForced(records, EntryFor(l, taskId).value) && exists e | e in l.tasks :: ProvenAndAhead(records, e)
  {
    hide Valid, EntryFindings;
    AheadFindingsNameEntries(records, l.tasks, taskId);
    var e :| e in l.tasks && e.taskId == taskId && ProvenAndAhead(records, e);
    var i :| 0 <= i < |l.tasks| && l.tasks[i] == e;
    EntryForFinds(l, i);
  }

  lemma ForcedIsFound(records: Records, l: Ledger, i: nat)
    requires Valid(l) && i < |l.tasks| && IsForced(records, l.tasks[i])
    ensures TaskAhead(l.tasks[i].taskId) in EntryFindings(records, l.tasks)
    ensures l.tasks[i] in l.tasks && ProvenAndAhead(records, l.tasks[i])
    ensures EntryFor(l, l.tasks[i].taskId) == Some(l.tasks[i]) && l.tasks[i].disposition == Planned
  {
    hide Valid, EntryFindings;
    assert l.tasks[i] in l.tasks && ProvenAndAhead(records, l.tasks[i]);
    AheadFindingsNameEntries(records, l.tasks, l.tasks[i].taskId);
    EntryForFinds(l, i);
  }

  function TaskAhead(taskId: string): FindingEntry { FindingEntry(taskId, TaskAheadOfLedger) }

  lemma PlannedTaskIsNotActive(l: Ledger, taskId: string)
    requires Valid(l) && EntryFor(l, taskId).Some? && EntryFor(l, taskId).value.disposition == Planned
    ensures l.activeTaskId != Some(taskId)
  {
    if l.activeTaskId == Some(taskId) {
      var a := ActiveIndex(l);
      EntryForFinds(l, a);
    }
  }

  lemma SettlingLeavesTheActiveTask(l: Ledger, taskId: string)
    requires Valid(l) && EntryFor(l, taskId).Some? && EntryFor(l, taskId).value.disposition == Planned
    ensures forall record, revision ::
      NextLedger(Settle, l, taskId, record, revision).activeTaskId == l.activeTaskId
  {
    hide Valid;
    PlannedTaskIsNotActive(l, taskId);
  }

  lemma ForcedEntryIsPlanned(records: Records, l: Ledger, taskId: string)
    requires EntryFor(l, taskId).Some? && IsForced(records, EntryFor(l, taskId).value)
    ensures EntryFor(l, taskId).value.disposition == Planned
  {
  }

  /** Settling one forced entry leaves the same work to do as before. */
  lemma SettlingOneForcedEntry(records: Records, l: Ledger, taskId: string)
    requires Valid(l) && l.stopReason.None?
    requires EntryFor(l, taskId).Some? && IsForced(records, EntryFor(l, taskId).value)
    ensures Guard(Settle, l, taskId, Load(records, taskId)).None?
    ensures
      var state := Load(records, taskId);
      var n := NextLedger(Settle, l, taskId, state.record, state.revision);
      && ForcedLedger(records, n) == ForcedLedger(records, l)
      && (AllSupported(records, l.tasks) ==> AllSupported(records, n.tasks))
  {
    hide Valid, Supported, ProveEntry;
    var state := Load(records, taskId);
    var n := NextLedger(Settle, l, taskId, state.record, state.revision);
    var k := MovedEntryIsSupported(Settle, l, taskId, records);
    EntryForFinds(l, k);
    PlannedTaskIsNotActive(l, taskId);
    forall i | 0 <= i < |l.tasks| ensures ForcedEntry(records, n.tasks[i]) == ForcedEntry(records, l.tasks[i]) { }
    assert ForcedLedger(records, n).tasks == ForcedLedger(records, l).tasks;
    MovedSupportIsOthersSupport(Settle, l, taskId, records);
  }
}
