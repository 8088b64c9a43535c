/**
 * The reader's half of the launch boundary: the status the helper reports, as typed lines
 * in the order they were put, and the decision how a run ended.
 */
module LaunchBoundary {
  import opened Base

  datatype Mode = SuspendedMode | JobListMode

  /** One status line. Keys the reader does not interpret are left out. */
  datatype Line =
    | NonceLine(nonce: string)
    | HelperPidLine(pid: int)
    | ModeLine(mode: Mode)
    | JobHandleInheritableLine(inheritable: bool)
    | ChildPidLine(pid: int)
    | AssignedAtCreationLine(atCreation: bool)
    | VerifiedInJobLine
    | JobMembersAtStartLine(count: int)
    | TargetStartedLine
    | BoundaryOkLine
    | BoundaryFailedLine
    | FailureLine(failure: string)
    | Win32Line(win32: int)
    | ChildExitCodeLine(exitCode: int)
    | ChildExitUnobservableLine
    | TerminatedByOwnerLossLine(lost: bool)
    | JobMembersAtEndLine(count: int)
    | StdinForwardLine(forward: string)

  datatype Verdict = BoundaryOk | BoundaryFailed

  datatype BoundaryStatus = BoundaryStatus(
    boundary: Option<Verdict>,
    failure: Option<string>,
    win32: Option<int>,
    mode: Option<Mode>,
    helperPid: Option<int>,
    childPid: Option<int>,
    verifiedInJob: bool,
    assignedAtCreation: Option<bool>,
    jobHandleInheritable: Option<bool>,
    jobMembersAtStart: Option<int>,
    jobMembersAtEnd: Option<int>,
    childExitCode: Option<int>,
    terminatedByOwnerLoss: bool,
    stdinForward: Option<string>,
    nonce: Option<string>,
    targetStarted: bool,
    childExitUnobservable: bool)

  const EmptyStatus := BoundaryStatus(
    None, None, None, None, None, None, false, None, None, None, None, None, false, None, None, false, false)

  /** One more line read: a later line for a key replaces an earlier one. */
  function Apply(status: BoundaryStatus, line: Line): BoundaryStatus {
    match line
    case NonceLine(n) => status.(nonce := Some(n))
    case HelperPidLine(p) => status.(helperPid := Some(p))
    case ModeLine(m) => status.(mode := Some(m))
    case JobHandleInheritableLine(b) => status.(jobHandleInheritable := Some(b))
    case ChildPidLine(p) => status.(childPid := Some(p))
    case AssignedAtCreationLine(b) => status.(assignedAtCreation := Some(b))
    case VerifiedInJobLine => status.(verifiedInJob := true)
    case JobMembersAtStartLine(n) => status.(jobMembersAtStart := Some(n))
    case TargetStartedLine => status.(targetStarted := true)
    case BoundaryOkLine => status.(boundary := Some(BoundaryOk))
    case BoundaryFailedLine => status.(boundary := Some(BoundaryFailed))
    case FailureLine(f) => status.(failure := Some(f))
    case Win32Line(n) => status.(win32 := Some(n))
    case ChildExitCodeLine(c) => status.(childExitCode := Some(c))
    case ChildExitUnobservableLine => status.(childExitUnobservable := true)
    case TerminatedByOwnerLossLine(b) => status.(terminatedByOwnerLoss := b)
    case JobMembersAtEndLine(n) => status.(jobMembersAtEnd := Some(n))
    case StdinForwardLine(v) => status.(stdinForward := Some(v))
  }

  /** What a whole status file says. */
  function Decode(lines: seq<Line>): BoundaryStatus {
    if lines == [] then EmptyStatus
    else Apply(Decode(lines[..|lines| - 1]), lines[|lines| - 1])
  }

  lemma DecodeAppend(lines: seq<Line>, line: Line)
    ensures Decode(lines + [line]) == Apply(Decode(lines), line)
  {
    assert (lines + [line])[..|lines|] == lines;
  }

  // ------------------------------------------------------------------- endings

  datatype LostReason = NoChildExitObserved | OwnerLost | StatusUnreadable

  datatype Started = StartedNo | StartedYes | StartedUnknown

  datatype Ending =
    | ChildExited(childExitCode: int, exited: BoundaryStatus)
    | TerminatedByCaller(terminated: BoundaryStatus)
    | Lost(reason: LostReason, lost: Option<BoundaryStatus>)
    | Refused(failureCode: string, win32: Option<int>, targetStarted: Started, refused: Option<BoundaryStatus>)

  datatype Identity = Identity(nonce: string, helperPid: Option<int>)

  datatype Observation = Observation(
    status: Option<BoundaryStatus>,
    helperExitCode: Option<int>,
    callerRequestedTermination: bool,
    expected: Option<Identity>)

  const EXIT_CHILD_OBSERVED := 0
  const EXIT_USAGE := 64
  const EXIT_BOUNDARY_FAILURE := 90
  const EXIT_INTERNAL_ERROR := 91
  const EXIT_OWNER_ALREADY_GONE := 92
  const EXIT_OWNER_LOST := 93

  const KNOWN_FAILURE_CODES: set<string> := {
    "OWNED_CONTAINMENT_REQUEST_INVALID", "OWNED_CONTAINMENT_JOB_CREATE", "OWNED_CONTAINMENT_JOB_CONFIGURE",
    "OWNED_CONTAINMENT_OWNER_GONE", "OWNED_CONTAINMENT_PIPES", "OWNED_CONTAINMENT_ATTRIBUTE_LIST",
    "OWNED_CONTAINMENT_HANDLE_LIST", "OWNED_CONTAINMENT_JOB_LIST", "OWNED_CONTAINMENT_CREATE",
    "OWNED_CONTAINMENT_ASSIGN", "OWNED_CONTAINMENT_VERIFY", "OWNED_CONTAINMENT_RESUME",
    "HELPER_INTERNAL_ERROR", "BOUNDARY_FAILURE_UNKNOWN", "BOUNDARY_STATUS_UNREADABLE",
    "BOUNDARY_STATUS_INCONSISTENT", "BOUNDARY_STATUS_FOREIGN", "OWNED_CONTAINMENT_JOB_HANDLE",
    "BOUNDARY_EXECUTABLE_MISSING", "BOUNDARY_HELPER_SPAWN_FAILED", "BOUNDARY_NOT_ESTABLISHED_IN_TIME"
  }

  function RefusedWith(code: string, win32: Option<int>, status: Option<BoundaryStatus>): Ending {
    Refused(code, win32,
            if status.None? || status.value.nonce.None? then StartedUnknown
            else if status.value.targetStarted then StartedYes else StartedNo,
            status)
  }

  /** A status another launch wrote, or one that claims ownership without naming its launch. */
  predicate Foreign(status: BoundaryStatus, expected: Identity) {
    || (status.nonce.Some? && status.nonce.value != expected.nonce)
    || (expected.helperPid.Some? && status.helperPid.Some? && status.helperPid != expected.helperPid)
    || (status.nonce.None? && status.boundary == Some(BoundaryOk))
  }

  predicate IsRefusalExit(code: int) {
    code in {EXIT_USAGE, EXIT_BOUNDARY_FAILURE, EXIT_INTERNAL_ERROR, EXIT_OWNER_ALREADY_GONE}
  }

  function ClassifyBoundaryEnding(o: Observation): Ending {
    if o.status.None? then
      if o.helperExitCode.Some? && IsRefusalExit(o.helperExitCode.value)
      then RefusedWith("BOUNDARY_STATUS_UNREADABLE", None, None)
      else Lost(StatusUnreadable, None)
    else
      var status := o.status.value;
      if o.expected.Some? && Foreign(status, o.expected.value) then RefusedWith("BOUNDARY_STATUS_FOREIGN", None, None)
      else if status.boundary == Some(BoundaryFailed) then
        RefusedWith(if status.failure.Some? && status.failure.value in KNOWN_FAILURE_CODES
                    then status.failure.value else "BOUNDARY_FAILURE_UNKNOWN", status.win32, o.status)
      else if status.boundary != Some(BoundaryOk) then
        RefusedWith("BOUNDARY_STATUS_UNREADABLE", status.win32, o.status)
      else if !status.verifiedInJob || status.childPid.None? then
        RefusedWith("BOUNDARY_STATUS_INCONSISTENT", status.win32, o.status)
      else if o.callerRequestedTermination then TerminatedByCaller(status)
      else if status.terminatedByOwnerLoss || o.helperExitCode == Some(EXIT_OWNER_LOST) then Lost(OwnerLost, o.status)
      else if status.childExitCode.None? then Lost(NoChildExitObserved, o.status)
      else ChildExited(status.childExitCode.value, status)
  }

  /** A status that does not carry this launch's nonce proves neither a completion nor "nothing ran". */
  lemma OtherLaunchesProveNothing(o: Observation)
    requires o.expected.Some? && o.status.Some? && o.status.value.nonce != Some(o.expected.value.nonce)
    ensures ClassifyBoundaryEnding(o).Refused?
    ensures ClassifyBoundaryEnding(o).targetStarted == StartedUnknown
  {
  }

  /** The status of this launch says that the boundary stands, with its target in the job. */
  ghost predicate SaysOwned(o: Observation) {
    && o.status.Some?
    && (o.expected.Some? ==>
          && o.status.value.nonce == Some(o.expected.value.nonce)
          && (o.status.value.helperPid == o.expected.value.helperPid
              || o.status.value.helperPid.None? || o.expected.value.helperPid.None?))
    && o.status.value.boundary == Some(BoundaryOk) && o.status.value.verifiedInJob && o.status.value.childPid.Some?
  }

  /**
   * The four endings of a boundary and their causes. An owned launch is never answered as a
   * refusal; it ended by the caller exactly when the caller asked for that, by its owner's
   * loss when the status or the exit code says so, with the observed exit code when there
   * is one, and is lost when there is none.
   */
  lemma EndingsMean(o: Observation)
    ensures
      var ending := ClassifyBoundaryEnding(o);
      && (ending.Refused? <==> !SaysOwned(o) && (o.status.Some? || (o.helperExitCode.Some? && o.helperExitCode.value in {64, 90, 91, 92})))
      && (ending == Lost(StatusUnreadable, None) <==>
            o.status.None? && !(o.helperExitCode.Some? && o.helperExitCode.value in {64, 90, 91, 92}))
      && (SaysOwned(o) ==>
            var status := o.status.value;
            if o.callerRequestedTermination then ending == TerminatedByCaller(status)
            else if status.terminatedByOwnerLoss || o.helperExitCode == Some(93) then ending == Lost(OwnerLost, Some(status))
            else if status.childExitCode.Some? then ending == ChildExited(status.childExitCode.value, status)
            else ending == Lost(NoChildExitObserved, Some(status)))
  {
  }

  /** The status names another launch or another helper, or claims ownership and names no launch. */
  ghost predicate SaysAnother(o: Observation) {
    && o.status.Some? && o.expected.Some?
    && var (status, expected) := (o.status.value, o.expected.value);
       if status.nonce.None? && status.boundary == Some(BoundaryOk) then true
       else if status.nonce.Some? && status.nonce.value != expected.nonce then true
       else status.helperPid.Some? && expected.helperPid.Some? && status.helperPid.value != expected.helperPid.value
  }

  /**
   * The account of a refusal: the helper's own code where it gave one that is known, and
   * "nothing ran" exactly where a status of this launch carries its nonce and no start.
   */
  lemma RefusalsMean(o: Observation)
    requires ClassifyBoundaryEnding(o).Refused?
    ensures
      var ending := ClassifyBoundaryEnding(o);
      var foreign := SaysAnother(o);
      && (foreign ==> ending == Refused("BOUNDARY_STATUS_FOREIGN", None, StartedUnknown, None))
      && (o.status.None? ==> ending == Refused("BOUNDARY_STATUS_UNREADABLE", None, StartedUnknown, None))
      && (o.status.Some? && !foreign ==>
            var status := o.status.value;
            && ending.refused == Some(status) && ending.win32 == status.win32
            && (ending.targetStarted == StartedUnknown <==> status.nonce.None?)
            && (ending.targetStarted == StartedNo <==> status.nonce.Some? && !status.targetStarted)
            && (status.boundary == Some(BoundaryFailed) && status.failure.Some? && status.failure.value in KNOWN_FAILURE_CODES
                ==> ending.failureCode == status.failure.value)
            && (status.boundary == Some(BoundaryFailed) && !(status.failure.Some? && status.failure.value in KNOWN_FAILURE_CODES)
                ==> ending.failureCode == "BOUNDARY_FAILURE_UNKNOWN")
            && (status.boundary.None? ==> ending.failureCode == "BOUNDARY_STATUS_UNREADABLE")
            && (status.boundary == Some(BoundaryOk) ==> ending.failureCode == "BOUNDARY_STATUS_INCONSISTENT"))
  {
    hide KNOWN_FAILURE_CODES;
  }
}
