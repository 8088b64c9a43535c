/** Whether a ledger entry is supported by the task record it claims to describe. */
module BlockEvidence {
  import opened Base
  import opened TaskRecords
  import opened BlockLedger

  datatype ProofCode =
    | Proven
    | TaskNotStarted
    | TaskStateUnusable
    | TaskStateDoesNotProveIt
    | EvidenceNotCurrent
    | CommitNotProvenByState

  /** One reading of one record, shared by every prover. */
  datatype FieldContext = FieldContext(entry: Entry, record: Option<TaskRecord>, revision: Option<Revision>)

  /** The one task state each outcome may be claimed from. */
  predicate StateProves(d: Disposition, state: TaskStateName) {
    match d
    case Planned => true
    case Active => true
    case Settled => state == ReadyForPr
    case Blocked => KindOf(state) == Blocking
    case Abandoned => state == Aborted
    case Resolved => state == OperatorResolved
  }

  function ProveDisposition(c: FieldContext): Option<ProofCode> {
    if c.entry.disposition == Planned || c.entry.disposition == Active then None
    else if c.record.None? then Some(TaskStateDoesNotProveIt)
    else if StateProves(c.entry.disposition, c.record.value.state) then None
    else Some(TaskStateDoesNotProveIt)
  }

  function ProveEvidenceRevision(c: FieldContext): Option<ProofCode> {
    var expected := if EvidenceBacked(c.entry.disposition) then c.revision else None;
    if c.entry.evidenceRevision == expected then None else Some(EvidenceNotCurrent)
  }

  function ProveBaseCommit(c: FieldContext): Option<ProofCode> {
    if c.entry.disposition == Planned then
      if c.entry.baseCommit.None? then None else Some(CommitNotProvenByState)
    else if c.record.None? then Some(CommitNotProvenByState)
    else if c.entry.baseCommit == c.record.value.basePinnedCommit then None
    else Some(CommitNotProvenByState)
  }

  function ProveResultCommit(c: FieldContext): Option<ProofCode> {
    if c.entry.disposition != Settled then
      if c.entry.resultCommit.None? then None else Some(CommitNotProvenByState)
    else if c.record.None? then Some(CommitNotProvenByState)
    else if c.entry.resultCommit == c.record.value.currentCommit then None
    else Some(CommitNotProvenByState)
  }

  /** The verdict of the first prover that refuses, in declaration order. */
  function FirstUnprovenField(c: FieldContext): Option<ProofCode> {
    var disposition := ProveDisposition(c);
    if disposition.Some? then disposition else
    var evidence := ProveEvidenceRevision(c);
    if evidence.Some? then evidence else
    var base := ProveBaseCommit(c);
    if base.Some? then base else ProveResultCommit(c)
  }

  function CodeOf(verdict: Option<ProofCode>): ProofCode {
    if verdict.None? then Proven else verdict.value
  }

  /** `proveBlockTaskEntry(...).code` */
  function ProveEntry(records: Records, entry: Entry): ProofCode {
    var state := Load(records, entry.taskId);
    if entry.disposition == Planned then
      match state
      case Read(record, revision) => CodeOf(FirstUnprovenField(FieldContext(entry, Some(record), Some(revision))))
      case _ => CodeOf(FirstUnprovenField(FieldContext(entry, None, None)))
    else match state
         case Missing => TaskNotStarted
         case Unusable => TaskStateUnusable
         case Read(record, revision) =>
           CodeOf(FirstUnprovenField(FieldContext(entry, Some(record), Some(revision))))
  }

  /** `proveBlockTaskEntry(...).state` */
  function StateRead(records: Records, entry: Entry): Option<TaskRecord> {
    match Load(records, entry.taskId)
    case Read(record, _) => Some(record)
    case _ => None
  }

  /** The states in which a record speaks for an outcome, outcome by outcome. */
  ghost predicate SpeaksFor(state: TaskStateName, d: Disposition) {
    && (d == Settled ==> state == ReadyForPr)
    && (d == Abandoned ==> state == Aborted)
    && (d == Resolved ==> state == OperatorResolved)
    && (d == Blocked ==> state in {
          BlockedAuth, BlockedUsageLimit, BlockedVerify, ScopeViolation, ResumeStateDiverged, HumanDecisionRequired})
  }

  /**
   * What it means for the records to support an entry, field by field: a planned entry
   * claims nothing, an active one its base, and any other is the image of its own task's
   * current record.
   */
  ghost predicate Supported(records: Records, e: Entry) {
    if e.disposition == Planned then
      e.evidenceRevision.None? && e.baseCommit.None? && e.resultCommit.None?
    else
      match Load(records, e.taskId)
      case Read(record, revision) =>
        && SpeaksFor(record.state, e.disposition)
        && e.evidenceRevision == (if e.disposition == Active then None else Some(revision))
        && e.baseCommit == record.basePinnedCommit
        && e.resultCommit == (if e.disposition == Settled then record.currentCommit else None)
      case _ => false
  }

  /** The provers, applied in order, accept exactly the supported entries. */
  lemma ProvenMeansSupported(records: Records, e: Entry)
    ensures ProveEntry(records, e) == Proven <==> Supported(records, e)
  {
    assert forall d | d == Planned || d == Active :: StateProves(d, Created);
  }

  /**
   * Each refusal has one cause, and the causes are asked for in this order: is there a
   * record, can it be used, does its state say so, is the evidence current, do the commits
   * agree.
   */
  lemma ProofCodesMean(records: Records, e: Entry)
    requires e.disposition != Planned
    ensures ProveEntry(records, e) ==
      match Load(records, e.taskId)
      case Missing => TaskNotStarted
      case Unusable => TaskStateUnusable
      case Read(record, revision) =>
        if !SpeaksFor(record.state, e.disposition) then TaskStateDoesNotProveIt
        else if e.evidenceRevision != (if e.disposition == Active then None else Some(revision)) then EvidenceNotCurrent
        else if e.baseCommit != record.basePinnedCommit
             || e.resultCommit != (if e.disposition == Settled then record.currentCommit else None) then CommitNotProvenByState
        else Proven
  {
  }

  /** A planned entry that claims something is refused for what it claims, whatever its record says. */
  lemma PlannedProofCodesMean(records: Records, e: Entry)
    requires e.disposition == Planned
    ensures ProveEntry(records, e) ==
      if e.evidenceRevision.Some? then EvidenceNotCurrent
      else if e.baseCommit.Some? || e.resultCommit.Some? then CommitNotProvenByState else Proven
  {
  }

  /** One record supports at most one outcome for its task. */
  lemma OutcomesExcludeEachOther(records: Records, a: Entry, b: Entry)
    requires a.taskId == b.taskId && Supported(records, a) && Supported(records, b)
    requires EvidenceBacked(a.disposition) && EvidenceBacked(b.disposition)
    ensures a == b
  {
    var r := Load(records, a.taskId);
    assert r.Read?;
  }
}
