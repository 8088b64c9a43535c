/** Every decision the block runner makes that is not I/O. */
module BlockConclusion {
  import opened Base
  import opened PlanEncoding
  import opened BlockLedger
  import BlockProgress

  /** The driver's answers. Their names are its own; two of them repeat task-state names. */
  datatype RunOutcome =
    | TaskCompleted | TaskAborted | TaskOperatorResolved
    | RunBlockedUsageLimit | RunBlockedVerify | RunBlockedAuth | RunScopeViolation
    | RunResumeStateDiverged | RunHumanDecisionRequired
    | RunLeaseNotHeld | RunLeaseLost
    | RunStateUnusable
    | StepBudgetExhausted
    | RunStateDiverged | StateUnobservable | TaskNeverStarted | StateConflict | RunStateNotRecorded
    | ContinuationNotAuthorised | ExecutionUnauthorised | NoProgress

  datatype TaskConclusion =
    | SettleIt | ParkIt | AbandonIt | ResolveIt | Unresolved | UnusableState | LeaseUncertain | Continue

  function ConclusionForRunOutcome(outcome: RunOutcome): TaskConclusion {
    match outcome
    case TaskCompleted => SettleIt
    case TaskAborted => AbandonIt
    case TaskOperatorResolved => ResolveIt
    case RunBlockedUsageLimit => ParkIt
    case RunBlockedVerify => ParkIt
    case RunBlockedAuth => ParkIt
    case RunScopeViolation => ParkIt
    case RunResumeStateDiverged => ParkIt
    case RunHumanDecisionRequired => ParkIt
    case RunLeaseNotHeld => LeaseUncertain
    case RunLeaseLost => LeaseUncertain
    case RunStateUnusable => UnusableState
    case StepBudgetExhausted => Continue
    case _ => Unresolved
  }

  /** What a progress call means for the run: it landed, or one of three refusals. */
  datatype Recording = Landed | ClaimRefused | RecordUnusable | WriteDidNotLand

  function RecordingResultFor(outcome: BlockProgress.Outcome): Recording {
    match outcome
    case Recorded => Landed
    case NotRecorded => WriteDidNotLand
    case StateUnusableOutcome => RecordUnusable
    case _ => ClaimRefused
  }

  /** The most specific disposition that explains the ending wins. */
  function EndReasonFor(entries: seq<Entry>): StopReason {
    if forall e | e in entries :: e.disposition == Settled then Complete
    else if exists e | e in entries :: e.disposition == Blocked then TaskBlocked
    else if exists e | e in entries :: e.disposition == Abandoned then TaskAbandoned
    else NoEligibleTask
  }

  /**
   * The reason the runner ends under is always one the contract accepts. It is not always
   * the one the contract would allow to say most: a block that an operator finished is
   * recorded as having no eligible task, while the contract would accept `COMPLETE`.
   */
  lemma EndReasonAgreesWithContract(l: Ledger)
    ensures BlockProgress.ReasonAgrees(l, EndReasonFor(l.tasks))
    ensures (forall e | e in l.tasks :: e.disposition == Settled || e.disposition == Resolved)
      ==> (BlockProgress.ReasonAgrees(l, Complete)
           && (EndReasonFor(l.tasks) == NoEligibleTask <==> exists e | e in l.tasks :: e.disposition == Resolved))
  {
  }

  /** Which disposition the ending is named after: a human can act on a blocked task, and nobody on an abandoned one. */
  lemma EndReasonMeans(entries: seq<Entry>)
    ensures EndReasonFor(entries) == Complete <==> forall e | e in entries :: e.disposition == Settled
    ensures EndReasonFor(entries) == TaskBlocked <==> exists e | e in entries :: e.disposition == Blocked
    ensures EndReasonFor(entries) == TaskAbandoned <==>
      (exists e | e in entries :: e.disposition == Abandoned) && !exists e | e in entries :: e.disposition == Blocked
    ensures EndReasonFor(entries) in {Complete, TaskBlocked, TaskAbandoned, NoEligibleTask}
  {
  }

  /** The grades of a recording attempt: one outcome landed, one was not written, one met an unusable record. */
  lemma GradesMean(outcome: BlockProgress.Outcome)
    ensures RecordingResultFor(outcome) == Landed <==> outcome == BlockProgress.Recorded
    ensures RecordingResultFor(outcome) == WriteDidNotLand <==> outcome == BlockProgress.NotRecorded
    ensures RecordingResultFor(outcome) == RecordUnusable <==> outcome == BlockProgress.StateUnusableOutcome
  {
  }

  predicate IndependenceIsEstablished(rows: seq<Row>) {
    forall row | row in rows :: row.dependsOn == []
  }

  datatype StartOutcome =
    | Started | Adopted | AlreadyStarted
    | StartLeaseNotHeld | StartLeaseLost
    | StartStateUnusable
    | TaskIdRefused | PlanningFailed | TaskUnknown | TaskIneligible
    | RuntimeNotIgnored | RuntimeIgnoreUndetermined | AuthPreflightFailed
    | WorkspaceCollision | WorkspaceRefused | StartNotRecorded

  datatype StartConclusion = DriveIt | StartLeaseUncertain | StartUnusable | GateRefused

  function StartConclusionFor(outcome: StartOutcome): StartConclusion {
    match outcome
    case Started => DriveIt
    case Adopted => DriveIt
    case AlreadyStarted => DriveIt
    case StartLeaseNotHeld => StartLeaseUncertain
    case StartLeaseLost => StartLeaseUncertain
    case StartStateUnusable => StartUnusable
    case _ => GateRefused
  }

  /** What a start attempt entitles to. */
  lemma StartConclusionsMean(outcome: StartOutcome)
    ensures StartConclusionFor(outcome) == DriveIt <==> outcome in {Started, Adopted, AlreadyStarted}
    ensures StartConclusionFor(outcome) == StartLeaseUncertain <==> outcome in {StartLeaseNotHeld, StartLeaseLost}
    ensures StartConclusionFor(outcome) == StartUnusable <==> outcome == StartStateUnusable
  {
  }

  /** The planner's report about one task, as frozen when the block was. */
  datatype Eligibility = Eligibility(
    taskId: string, eligible: bool, blockedByDependencies: bool, unsatisfied: seq<string>)

  datatype Runnability = Runnable(satisfiedBy: seq<string>) | NotRunnable(reason: Unrunnable)

  datatype Unrunnable = FrozenIneligible | DependencyNotSettled | DependencyOutsideBlock

  function FindEligibility(reports: seq<Eligibility>, taskId: string): Option<Eligibility> {
    if reports == [] then None
    else if reports[0].taskId == taskId then Some(reports[0])
    else FindEligibility(reports[1..], taskId)
  }

  predicate IsMember(entries: seq<Entry>, taskId: string) {
    exists e | e in entries :: e.taskId == taskId
  }

  predicate HasSettled(entries: seq<Entry>, taskId: string) {
    exists e | e in entries :: e.taskId == taskId && e.disposition == Settled
  }

  function FirstObstacle(entries: seq<Entry>, dependencies: seq<string>): (r: Option<Unrunnable>)
    ensures r.None? <==> forall d | d in dependencies :: HasSettled(entries, d)
  {
    assert dependencies != [] ==> dependencies[0] in dependencies;
    if dependencies == [] then None
    else if !IsMember(entries, dependencies[0]) then Some(DependencyOutsideBlock)
    else if !HasSettled(entries, dependencies[0]) then Some(DependencyNotSettled)
    else FirstObstacle(entries, dependencies[1..])
  }

  function MemberRunnability(taskId: string, reports: seq<Eligibility>, entries: seq<Entry>): Runnability {
    var report := FindEligibility(reports, taskId);
    if report.None? then NotRunnable(FrozenIneligible)
    else if report.value.eligible then Runnable([])
    else if !report.value.blockedByDependencies then NotRunnable(FrozenIneligible)
    else
      var obstacle := FirstObstacle(entries, report.value.unsatisfied);
      if obstacle.Some? then NotRunnable(obstacle.value) else Runnable(report.value.unsatisfied)
  }

  /** The first report about a task. */
  ghost predicate FirstReport(reports: seq<Eligibility>, taskId: string, i: nat) {
    i < |reports| && reports[i].taskId == taskId && forall j | 0 <= j < i :: reports[j].taskId != taskId
  }

  ghost predicate SettledIn(entries: seq<Entry>, taskId: string) {
    exists k | 0 <= k < |entries| :: entries[k].taskId == taskId && entries[k].disposition == Settled
  }

  ghost predicate NamedIn(entries: seq<Entry>, taskId: string) {
    exists k | 0 <= k < |entries| :: entries[k].taskId == taskId
  }

  /** The first dependency in order that has not settled. */
  ghost predicate FirstUnsettled(dependencies: seq<string>, entries: seq<Entry>, i: nat) {
    && i < |dependencies| && !SettledIn(entries, dependencies[i])
    && forall j | 0 <= j < i :: SettledIn(entries, dependencies[j])
  }

  /** The frozen report lets the task run: eligible as it was read, or waiting for settled entries only. */
  ghost predicate MayRunNow(reports: seq<Eligibility>, entries: seq<Entry>, taskId: string) {
    exists i: nat | FirstReport(reports, taskId, i) ::
      reports[i].eligible
      || (reports[i].blockedByDependencies && forall d | d in reports[i].unsatisfied :: SettledIn(entries, d))
  }

  /** The frozen report calls the task ineligible for something no settlement can change. */
  ghost predicate IneligibleForGood(reports: seq<Eligibility>, taskId: string) {
    forall i: nat | FirstReport(reports, taskId, i) :: !reports[i].eligible && !reports[i].blockedByDependencies
  }

  lemma {:induction false} FindEligibilityFinds(reports: seq<Eligibility>, taskId: string)
    ensures FindEligibility(reports, taskId).None? ==> forall i: nat :: !FirstReport(reports, taskId, i)
    ensures FindEligibility(reports, taskId).Some? ==>
      exists i: nat :: FirstReport(reports, taskId, i) && reports[i] == FindEligibility(reports, taskId).value
  {
    if reports != [] {
      if reports[0].taskId == taskId {
        assert FirstReport(reports, taskId, 0);
      } else {
        FindEligibilityFinds(reports[1..], taskId);
        if i: nat :| FirstReport(reports, taskId, i) { assert FirstReport(reports[1..], taskId, i - 1); }
        if i: nat :| FirstReport(reports[1..], taskId, i) && reports[1..][i] == FindEligibility(reports[1..], taskId).value {
          assert FirstReport(reports, taskId, i + 1);
        }
      }
    }
  }

  lemma {:induction false} FirstObstacleIs(entries: seq<Entry>, dependencies: seq<string>)
    ensures
      match FirstObstacle(entries, dependencies)
      case None => forall d | d in dependencies :: SettledIn(entries, d)
      case Some(why) => exists i: nat | FirstUnsettled(dependencies, entries, i) ::
        why == if NamedIn(entries, dependencies[i]) then DependencyNotSettled else DependencyOutsideBlock
  {
    if dependencies != [] {
      var first, rest := dependencies[0], dependencies[1..];
      MembershipByIndex(entries, first);
      FirstObstacleIs(entries, rest);
      assert dependencies == [first] + rest;
      if !SettledIn(entries, first) {
        assert FirstUnsettled(dependencies, entries, 0);
      } else if FirstObstacle(entries, rest).Some? {
        var i: nat :| FirstUnsettled(rest, entries, i)
          && FirstObstacle(entries, rest).value == if NamedIn(entries, rest[i]) then DependencyNotSettled else DependencyOutsideBlock;
        assert FirstUnsettled(dependencies, entries, i + 1);
      }
    }
  }

  lemma MembershipByIndex(entries: seq<Entry>, taskId: string)
    ensures IsMember(entries, taskId) <==> NamedIn(entries, taskId)
    ensures HasSettled(entries, taskId) <==> SettledIn(entries, taskId)
    ensures SettledIn(entries, taskId) ==> NamedIn(entries, taskId)
  {
  }

  /**
   * A member may run exactly when its own frozen report says so, waiting for nothing but
   * entries this run has settled; and each refusal has its cause.
   */
  lemma RunnabilityMeans(taskId: string, reports: seq<Eligibility>, entries: seq<Entry>)
    ensures
      var r := MemberRunnability(taskId, reports, entries);
      && (r.Runnable? <==> MayRunNow(reports, entries, taskId))
      && (r == NotRunnable(FrozenIneligible) <==> IneligibleForGood(reports, taskId))
      && (r.NotRunnable? && r.reason != FrozenIneligible ==>
            exists i: nat, k: nat | FirstReport(reports, taskId, i) && FirstUnsettled(reports[i].unsatisfied, entries, k) ::
              r.reason == if NamedIn(entries, reports[i].unsatisfied[k]) then DependencyNotSettled else DependencyOutsideBlock)
      && (r.Runnable? ==>
            exists i: nat | FirstReport(reports, taskId, i) ::
              r.satisfiedBy == if reports[i].eligible then [] else reports[i].unsatisfied)
  {
    hide FirstObstacle, FindEligibility, FirstReport, FirstUnsettled;
    FindEligibilityFinds(reports, taskId);
    OneFirstReport(reports, taskId);
    var report := FindEligibility(reports, taskId);
    if report.Some? { FirstObstacleIs(entries, report.value.unsatisfied); }
    forall d ensures HasSettled(entries, d) <==> SettledIn(entries, d) { MembershipByIndex(entries, d); }
  }

  lemma OneFirstReport(reports: seq<Eligibility>, taskId: string)
    ensures forall i: nat, j: nat | FirstReport(reports, taskId, i) && FirstReport(reports, taskId, j) :: i == j
  {
  }

  lemma SettledStaysSettled(p: Ledger, n: Ledger, taskId: string)
    requires Succeeds(p, n) && HasSettled(p.tasks, taskId)
    ensures HasSettled(n.tasks, taskId)
  {
    var e :| e in p.tasks && e.taskId == taskId && e.disposition == Settled;
    var i :| 0 <= i < |p.tasks| && p.tasks[i] == e;
    assert EntryAdvances(p.tasks[i], n.tasks[i]);
    assert n.tasks[i] in n.tasks;
  }

  /**
   * Settlements only ever open doors: along any legal succession, a member that could run
   * can still run.
   */
  lemma RunnabilityIsMonotone(taskId: string, reports: seq<Eligibility>, p: Ledger, n: Ledger)
    requires Succeeds(p, n)
    requires MemberRunnability(taskId, reports, p.tasks).Runnable?
    ensures MemberRunnability(taskId, reports, n.tasks).Runnable?
  {
    hide Succeeds;
    var report := FindEligibility(reports, taskId);
    forall d | HasSettled(p.tasks, d) ensures HasSettled(n.tasks, d) { SettledStaysSettled(p, n, d); }
  }
}
