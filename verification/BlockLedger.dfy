/**
 * The durable record of one started block run: its contract, and which document may
 * succeed which.
 */
module BlockLedger {
  import opened Base
  import opened Identifiers
  import opened PlanEncoding
  import opened BlockDefinition
  import opened TaskRecords

  const BLOCK_LEDGER_SCHEMA_VERSION := 2

  datatype Disposition = Planned | Active | Settled | Blocked | Abandoned | Resolved

  datatype StopReason =
    | Complete | TaskBlocked | TaskAbandoned
    | NoEligibleTask | OperatorStopped | LedgerDiverged | StateUnusable
    | DefinitionDrifted | ActiveTaskUnresolved

  datatype Entry = Entry(
    taskId: string,
    disposition: Disposition,
    evidenceRevision: Option<Revision>,
    baseCommit: Option<Commit>,
    resultCommit: Option<Commit>)

  datatype Ledger = Ledger(
    schemaVersion: int,
    repositoryId: string,
    repositoryRoot: string,
    blockId: string,
    runId: string,
    startedAt: string,
    frozenTaskIds: seq<string>,
    frozenDependencies: seq<Row>,
    planFingerprint: string,
    activeTaskId: Option<string>,
    tasks: seq<Entry>,
    stopReason: Option<StopReason>)

  predicate EvidenceBacked(d: Disposition) {
    d == Settled || d == Blocked || d == Abandoned || d == Resolved
  }

  predicate ClaimsProgress(reason: StopReason) {
    reason == Complete || reason == TaskBlocked || reason == TaskAbandoned
  }

  // -------------------------------------------------------------- the contract

  /** Field shapes. Digests, commits and instants are well-formed by their types. */
  predicate WellShaped(l: Ledger) {
    && 0 < |l.repositoryId| <= 64
    && l.repositoryRoot != []
    && IsValidTaskId(l.blockId)
    && IsValidTaskId(l.runId)
    && 0 < |l.frozenTaskIds| <= MAX_BLOCK_TASKS
    && (forall t | t in l.frozenTaskIds :: IsValidTaskId(t))
    && 0 < |l.frozenDependencies| <= MAX_BLOCK_TASKS
    && (forall row | row in l.frozenDependencies ::
          && IsValidTaskId(row.taskId)
          && |row.dependsOn| <= MAX_BLOCK_TASKS
          && forall d | d in row.dependsOn :: IsValidTaskId(d))
    && 0 < |l.tasks| <= MAX_BLOCK_TASKS
  }

  /** Rule 1: the entries are exactly the frozen membership, in order. */
  predicate MirrorsMembership(l: Ledger) {
    && |l.tasks| == |l.frozenTaskIds|
    && (forall i | 0 <= i < |l.tasks| :: l.tasks[i].taskId == l.frozenTaskIds[i])
    && NoRepeats(l.frozenTaskIds)
    && l.blockId !in l.frozenTaskIds
  }

  /** Rule 1a: one row per frozen task, in order, canonically spelled, naming members only. */
  predicate RelationIsCanonical(taskIds: seq<string>, rows: seq<Row>) {
    && |rows| == |taskIds|
    && (forall i | 0 <= i < |rows| :: rows[i].taskId == taskIds[i])
    && (forall i | 0 <= i < |rows| ::
          && (forall d | d in rows[i].dependsOn :: d != rows[i].taskId && d in taskIds)
          && rows[i].dependsOn == Canonical(rows[i].dependsOn))
  }

  /** Rules 2 and 3: at most one active task, and `activeTaskId` is that task. */
  predicate ActiveIsOneFact(l: Ledger) {
    && (forall i, j | 0 <= i < j < |l.tasks| ::
          !(l.tasks[i].disposition == Active && l.tasks[j].disposition == Active))
    && (l.activeTaskId.None? ==> forall e | e in l.tasks :: e.disposition != Active)
    && (l.activeTaskId.Some? ==>
          exists e | e in l.tasks :: e.taskId == l.activeTaskId.value && e.disposition == Active)
  }

  /** Rule 4: an outcome claim carries its evidence, and nothing else carries any. */
  predicate CarriesEvidence(e: Entry) {
    && (EvidenceBacked(e.disposition) <==> e.evidenceRevision.Some?)
    && (e.resultCommit.Some? ==> e.disposition == Settled)
    && (e.baseCommit.Some? ==> e.disposition != Planned)
  }

  /** Rule 5: a stop reason that claims progress agrees with the entries. */
  predicate StopAgrees(l: Ledger) {
    && (l.stopReason.Some? && l.activeTaskId.Some? ==> !ClaimsProgress(l.stopReason.value))
    && (l.stopReason == Some(Complete) ==>
          forall e | e in l.tasks :: e.disposition == Settled || e.disposition == Resolved)
    && (l.stopReason == Some(TaskBlocked) ==> exists e | e in l.tasks :: e.disposition == Blocked)
    && (l.stopReason == Some(TaskAbandoned) ==> exists e | e in l.tasks :: e.disposition == Abandoned)
  }

  /** `safeParseBlockRunLedger(value).success`. */
  predicate Valid(l: Ledger) {
    && WellShaped(l)
    && l.schemaVersion == BLOCK_LEDGER_SCHEMA_VERSION
    && MirrorsMembership(l)
    && RelationIsCanonical(l.frozenTaskIds, l.frozenDependencies)
    && l.planFingerprint == Fingerprint(l.blockId, l.frozenTaskIds, l.frozenDependencies)
    && ActiveIsOneFact(l)
    && (forall e | e in l.tasks :: CarriesEvidence(e))
    && StopAgrees(l)
  }

  /** `entryFor` as a position: the first entry of that task, or the length. */
  function IndexOf(tasks: seq<Entry>, taskId: string): (k: nat)
    ensures k <= |tasks|
    ensures k < |tasks| ==> tasks[k].taskId == taskId
    ensures forall i | 0 <= i < k :: tasks[i].taskId != taskId
  {
    if tasks == [] || tasks[0].taskId == taskId then 0 else 1 + IndexOf(tasks[1..], taskId)
  }

  function EntryFor(l: Ledger, taskId: string): Option<Entry> {
    var k := IndexOf(l.tasks, taskId);
    if k < |l.tasks| then Some(l.tasks[k]) else None
  }

  /** In a valid ledger a task has one entry, so its position names it. */
  lemma EntriesAreDistinct(l: Ledger, i: nat, j: nat)
    requires Valid(l) && i < |l.tasks| && j < |l.tasks| && l.tasks[i].taskId == l.tasks[j].taskId
    ensures i == j
  {
    assert l.frozenTaskIds[i] == l.frozenTaskIds[j];
  }

  lemma EntryForFinds(l: Ledger, i: nat)
    requires Valid(l) && i < |l.tasks|
    ensures IndexOf(l.tasks, l.tasks[i].taskId) == i
    ensures EntryFor(l, l.tasks[i].taskId) == Some(l.tasks[i])
  {
    var k := IndexOf(l.tasks, l.tasks[i].taskId);
    EntriesAreDistinct(l, i, k);
  }

  /** Two valid ledgers with the same entries name the same active task. */
  lemma ActiveTaskIsDetermined(a: Ledger, b: Ledger)
    requires Valid(a) && Valid(b) && a.tasks == b.tasks
    ensures a.activeTaskId == b.activeTaskId
  {
    hide MirrorsMembership, RelationIsCanonical, StopAgrees, WellShaped;
    if a.activeTaskId.Some? && b.activeTaskId.Some? {
      var x :| x in a.tasks && x.taskId == a.activeTaskId.value && x.disposition == Active;
      var y :| y in b.tasks && y.taskId == b.activeTaskId.value && y.disposition == Active;
      var i :| 0 <= i < |a.tasks| && a.tasks[i] == x;
      var j :| 0 <= j < |a.tasks| && a.tasks[j] == y;
      assert i == j;
    }
  }

  // -------------------------------------------------------------- succession

  datatype Violation =
    | RunIdentityChanged
    | FrozenPlanChanged
    | DispositionRewound
    | RecordedEntryChanged
    | MovedEntryCarriedMore
    | StopReasonRelabelled
    | StoppedRunProgressed
    | UnresolvedStopCarriedMore

  function LegalSuccession(d: Disposition): set<Disposition> {
    match d
    case Planned => {Active, Settled, Blocked, Abandoned, Resolved}
    case Active => {Settled, Blocked, Abandoned, Resolved}
    case Blocked => {Settled, Abandoned, Resolved}
    case Settled => {}
    case Abandoned => {}
    case Resolved => {}
  }

  predicate SameIdentity(p: Ledger, n: Ledger) {
    && p.schemaVersion == n.schemaVersion
    && p.repositoryId == n.repositoryId
    && p.repositoryRoot == n.repositoryRoot
    && p.blockId == n.blockId
    && p.runId == n.runId
    && p.startedAt == n.startedAt
  }

  predicate SamePlan(p: Ledger, n: Ledger) {
    && p.frozenTaskIds == n.frozenTaskIds
    && p.frozenDependencies == n.frozenDependencies
    && p.planFingerprint == n.planFingerprint
  }

  /** `before` with exactly its re-proved fields taken from `after`. */
  predicate OnlyReprovedFieldsChanged(before: Entry, after: Entry) {
    before.(disposition := after.disposition,
            evidenceRevision := after.evidenceRevision,
            baseCommit := after.baseCommit,
            resultCommit := after.resultCommit) == after
  }

  predicate OnlyStopReasonChanged(p: Ledger, n: Ledger) {
    p.(stopReason := n.stopReason) == n
  }

  /** What one pair of entries can contribute. */
  function EntryViolations(before: Entry, after: Entry): set<Violation> {
    if after.disposition == before.disposition then
      if before == after then {} else {RecordedEntryChanged}
    else
      (if after.disposition in LegalSuccession(before.disposition) then {} else {DispositionRewound})
      + (if OnlyReprovedFieldsChanged(before, after) then {} else {MovedEntryCarriedMore})
  }

  /** What makes each violation be reported. */
  predicate Violates(p: Ledger, n: Ledger, v: Violation) {
    match v
    case RunIdentityChanged => !SameIdentity(p, n)
    case FrozenPlanChanged => !SamePlan(p, n)
    case StopReasonRelabelled => p.stopReason.Some? && n.stopReason != p.stopReason
    case StoppedRunProgressed => p.stopReason.Some? && !OnlyStopReasonChanged(p, n)
    case UnresolvedStopCarriedMore =>
      p.stopReason.None? && n.stopReason.Some? && n.activeTaskId.Some? && !OnlyStopReasonChanged(p, n)
    case _ =>
      SamePlan(p, n)
      && exists i | 0 <= i < |p.tasks| && i < |n.tasks| :: v in EntryViolations(p.tasks[i], n.tasks[i])
  }

  predicate LegalSuccessor(p: Ledger, n: Ledger) {
    forall v: Violation :: !Violates(p, n, v)
  }

  /** Collects every violation there is, not the first one found. */
  method AssessLedgerSuccession(p: Ledger, n: Ledger) returns (violations: set<Violation>)
    ensures forall v :: v in violations <==> Violates(p, n, v)
    ensures violations == {} <==> LegalSuccessor(p, n)
  {
    violations := {};
    if !SameIdentity(p, n) { violations := violations + {RunIdentityChanged}; }
    if !SamePlan(p, n) { violations := violations + {FrozenPlanChanged}; }
    if FrozenPlanChanged !in violations {
      var base := violations;
      for index := 0 to |p.tasks|
        invariant forall v :: v in violations <==>
          (v in base || exists i | 0 <= i < index && i < |n.tasks| :: v in EntryViolations(p.tasks[i], n.tasks[i]))
      {
        if index < |n.tasks| {
          var before, after := p.tasks[index], n.tasks[index];
          if after.disposition == before.disposition {
            if before != after { violations := violations + {RecordedEntryChanged}; }
          } else {
            if after.disposition !in LegalSuccession(before.disposition) {
              violations := violations + {DispositionRewound};
            }
            if !OnlyReprovedFieldsChanged(before, after) {
              violations := violations + {MovedEntryCarriedMore};
            }
          }
        }
      }
    }
    if p.stopReason.Some? && n.stopReason != p.stopReason {
      violations := violations + {StopReasonRelabelled};
    }
    if p.stopReason.Some? && !OnlyStopReasonChanged(p, n) {
      violations := violations + {StoppedRunProgressed};
    }
    if p.stopReason.None? && n.stopReason.Some? && n.activeTaskId.Some? && !OnlyStopReasonChanged(p, n) {
      violations := violations + {UnresolvedStopCarriedMore};
    }
  }

  /** One entry either stays exactly as it was or moves forward and keeps its task. */
  predicate EntryAdvances(before: Entry, after: Entry) {
    before == after
    || (after.disposition in LegalSuccession(before.disposition) && after.taskId == before.taskId)
  }

  /** The whole succession contract between two documents, in one reading. */
  predicate Succeeds(p: Ledger, n: Ledger) {
    && SameIdentity(p, n) && SamePlan(p, n)
    && |n.tasks| == |p.tasks|
    && (forall i | 0 <= i < |p.tasks| :: EntryAdvances(p.tasks[i], n.tasks[i]))
    && (p.stopReason.Some? ==> n == p)
    && (p.stopReason.None? && n.stopReason.Some? && n.activeTaskId.Some? ==> OnlyStopReasonChanged(p, n))
  }

  lemma EntryViolationsMean(before: Entry, after: Entry)
    requires before.taskId == after.taskId
    ensures EntryViolations(before, after) == {} <==> EntryAdvances(before, after)
  {
    if !EntryAdvances(before, after) {
      assert RecordedEntryChanged in EntryViolations(before, after)
          || DispositionRewound in EntryViolations(before, after);
    }
  }

  lemma NoViolationMeansAdvances(p: Ledger, n: Ledger, i: nat)
    requires LegalSuccessor(p, n) && i < |p.tasks| && i < |n.tasks| && p.tasks[i].taskId == n.tasks[i].taskId
    ensures EntryAdvances(p.tasks[i], n.tasks[i])
  {
    hide EntryAdvances, SamePlan, SameIdentity;
    EntryViolationsMean(p.tasks[i], n.tasks[i]);
    assert !Violates(p, n, FrozenPlanChanged);
    assert !Violates(p, n, DispositionRewound) && !Violates(p, n, RecordedEntryChanged)
        && !Violates(p, n, MovedEntryCarriedMore);
    var vs := EntryViolations(p.tasks[i], n.tasks[i]);
    assert vs <= {DispositionRewound, RecordedEntryChanged, MovedEntryCarriedMore};
    assert DispositionRewound !in vs && RecordedEntryChanged !in vs && MovedEntryCarriedMore !in vs;
  }

  lemma NoViolationsMeansSucceeds(p: Ledger, n: Ledger)
    requires Valid(p) && Valid(n) && LegalSuccessor(p, n)
    ensures Succeeds(p, n)
  {
    hide EntryViolations, EntryAdvances, ActiveIsOneFact, StopAgrees, RelationIsCanonical;
    assert !Violates(p, n, RunIdentityChanged) && !Violates(p, n, FrozenPlanChanged);
    assert !Violates(p, n, StopReasonRelabelled) && !Violates(p, n, StoppedRunProgressed);
    assert !Violates(p, n, UnresolvedStopCarriedMore);
    forall i | 0 <= i < |p.tasks| && i < |n.tasks| ensures EntryAdvances(p.tasks[i], n.tasks[i]) {
      NoViolationMeansAdvances(p, n, i);
    }
  }

  lemma SucceedsMeansNoViolations(p: Ledger, n: Ledger)
    requires Succeeds(p, n)
    ensures LegalSuccessor(p, n)
  {
    forall v ensures !Violates(p, n, v) {
      if exists i :: 0 <= i < |p.tasks| && i < |n.tasks| && v in EntryViolations(p.tasks[i], n.tasks[i]) {
        var i :| 0 <= i < |p.tasks| && i < |n.tasks| && v in EntryViolations(p.tasks[i], n.tasks[i]);
        assert EntryAdvances(p.tasks[i], n.tasks[i]);
        EntryViolationsMean(p.tasks[i], n.tasks[i]);
        assert false;
      }
    }
  }

  /** Collecting no violation and satisfying the contract's one-line reading are the same thing. */
  lemma LegalSuccessorMeans(p: Ledger, n: Ledger)
    requires Valid(p) && Valid(n)
    ensures LegalSuccessor(p, n) <==> Succeeds(p, n)
  {
    if LegalSuccessor(p, n) { NoViolationsMeansSucceeds(p, n); }
    if Succeeds(p, n) { SucceedsMeansNoViolations(p, n); }
  }

  // ------------------------------------------------------------ bounded history

  function Rank(d: Disposition): nat {
    match d
    case Planned => 0
    case Active => 1
    case Blocked => 2
    case Settled => 3
    case Abandoned => 3
    case Resolved => 3
  }

  /** A disposition may follow another exactly when it is further on. */
  lemma ForwardMeansHigher(before: Disposition, after: Disposition)
    ensures after in LegalSuccession(before) <==> Rank(before) < Rank(after)
  {
  }

  function TotalRank(tasks: seq<Entry>): nat {
    if tasks == [] then 0 else Rank(tasks[0].disposition) + TotalRank(tasks[1..])
  }

  /** How far a run has come: never more than three steps per task, and one for the ending. */
  function Progress(l: Ledger): nat {
    TotalRank(l.tasks) + if l.stopReason.Some? then 1 else 0
  }

  lemma {:induction false} TotalRankBound(tasks: seq<Entry>)
    ensures TotalRank(tasks) <= 3 * |tasks|
  {
    if tasks != [] { TotalRankBound(tasks[1..]); }
  }

  lemma {:induction false} AdvancingNeverLowersRank(p: seq<Entry>, n: seq<Entry>)
    requires |p| == |n| && forall i | 0 <= i < |p| :: EntryAdvances(p[i], n[i])
    ensures TotalRank(p) <= TotalRank(n)
    ensures p != n ==> TotalRank(p) < TotalRank(n)
  {
    if p != [] {
      assert EntryAdvances(p[0], n[0]);
      AdvancingNeverLowersRank(p[1..], n[1..]);
      assert p == [p[0]] + p[1..] && n == [n[0]] + n[1..];
    }
  }

  /** A legal successor is the same document or one that is strictly further along. */
  lemma SuccessorsProgress(p: Ledger, n: Ledger)
    requires Valid(p) && Valid(n) && LegalSuccessor(p, n)
    ensures n == p || Progress(p) < Progress(n)
    ensures Progress(n) <= 3 * |n.frozenTaskIds| + 1
  {
    LegalSuccessorMeans(p, n);
    AdvancingNeverLowersRank(p.tasks, n.tasks);
    TotalRankBound(n.tasks);
    if p.tasks == n.tasks {
      ActiveTaskIsDetermined(p, n);
    }
  }
}
