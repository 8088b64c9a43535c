/** One task's own durable record: the only authority on what happened to that task. */
module TaskRecords {
  import opened Base

  type Commit = string
  type Revision = string

  datatype TaskStateName =
    | Created | RepositoryResolved | ConfigValidated | AuthPreflight | GitPreflight
    | WorktreeReady | ContextLoading | Implementing | Verifying | Reviewing | Remediating
    | ReadyForPr
    | BlockedAuth | BlockedUsageLimit | BlockedVerify | ScopeViolation
    | ResumeStateDiverged | HumanDecisionRequired
    | Aborted | OperatorResolved

  datatype StateKind = Regular | Blocking | Terminal

  /** `getStateKind`: ready, aborted and operator-resolved are terminal; six states block. */
  function KindOf(state: TaskStateName): StateKind {
    match state
    case ReadyForPr => Terminal
    case Aborted => Terminal
    case OperatorResolved => Terminal
    case BlockedAuth => Blocking
    case BlockedUsageLimit => Blocking
    case BlockedVerify => Blocking
    case ScopeViolation => Blocking
    case ResumeStateDiverged => Blocking
    case HumanDecisionRequired => Blocking
    case _ => Regular
  }

  datatype TaskRecord = TaskRecord(
    state: TaskStateName,
    basePinnedCommit: Option<Commit>,
    currentCommit: Option<Commit>)

  /** What is on disk for one task: something unusable, or a record and its revision. */
  datatype Stored = Broken | Stored(record: TaskRecord, revision: Revision)

  type Records = map<string, Stored>

  /** `loadTaskState`. */
  datatype Reading = Missing | Unusable | Read(record: TaskRecord, revision: Revision)

  function Load(records: Records, taskId: string): Reading {
    if taskId !in records then Missing
    else match records[taskId]
         case Broken => Unusable
         case Stored(record, revision) => Read(record, revision)
  }
}
