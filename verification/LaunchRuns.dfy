/**
 * Whole runs of the launch helper, over every interleaving of its threads, the target, the
 * owner's death and an outside kill, and what the reader answers at the end of one.
 */
module LaunchRuns {
  import opened Base
  import opened ExitCodes
  import opened LaunchBoundary
  import opened LaunchProtocol
  import opened LaunchSafety
  import opened LaunchEndings

  ghost predicate Holds(s: State) {
    LocksHold(s) && KernelHolds(s) && StartHolds(s) && ExitHolds(s) && ReportHolds(s)
  }

  lemma StepKeeps(s: State, a: Action, n: State)
    requires Holds(s) && Next(s, a) == Some(n)
    ensures Holds(n)
  {
    hide LocksHold, KernelHolds, StartHolds, ExitHolds, ReportHolds, EnvironmentNext, PrepareNext, PlaceNext, RunNext,
      FailureNext, SideNext, WriterNext;
    match a
    case Environment(step) =>
      LocksAfterEnvironment(s, step, n); KernelAfterEnvironment(s, step, n); StartAfterEnvironment(s, step, n);
      ExitAfterEnvironment(s, step, n); ReportAfterEnvironment(s, step, n);
    case Prepare(step) =>
      LocksAfterPrepare(s, step, n); KernelAfterPrepare(s, step, n); StartAfterPrepare(s, step, n);
      ExitAfterPrepare(s, step, n); ReportAfterPrepare(s, step, n);
    case Place(step) =>
      LocksAfterPlace(s, step, n); KernelAfterPlace(s, step, n); StartAfterPlace(s, step, n);
      ExitAfterPlace(s, step, n); ReportAfterPlace(s, step, n);
    case Run(step) =>
      LocksAfterRun(s, step, n); KernelAfterRun(s, step, n); StartAfterRun(s, step, n);
      ExitAfterRun(s, step, n); ReportAfterRun(s, step, n);
    case Failure(step) =>
      LocksAfterFailure(s, step, n); KernelAfterFailure(s, step, n); StartAfterFailure(s, step, n);
      ExitAfterFailure(s, step, n); ReportAfterFailure(s, step, n);
    case Side(step) =>
      LocksAfterSide(s, step, n); KernelAfterSide(s, step, n); StartAfterSide(s, step, n);
      ExitAfterSide(s, step, n); ReportAfterSide(s, step, n);
    case Writer(step) =>
      LocksAfterWriter(s, step, n); KernelAfterWriter(s, step, n); StartAfterWriter(s, step, n);
      ExitAfterWriter(s, step, n); ReportAfterWriter(s, step, n);
  }

  lemma {:induction false} RunsKeep(s: State, actions: seq<Action>)
    requires Holds(s) && RunFrom(s, actions).Some?
    ensures Holds(RunFrom(s, actions).value)
    decreases |actions|
  {
    hide Holds, Next;
    if actions != [] {
      var before := RunFrom(s, actions[..|actions| - 1]).value;
      RunsKeep(s, actions[..|actions| - 1]);
      StepKeeps(before, actions[|actions| - 1], RunFrom(s, actions).value);
    }
  }

  lemma ReachableHolds(s: State)
    requires Reachable(s)
    ensures Holds(s)
  {
    hide RunFrom;
    var start, actions :| Init(start) && RunFrom(start, actions) == Some(s);
    assert Decode([]) == EmptyStatus;
    RunsKeep(start, actions);
  }

  // ----------------------------------------------------------- what the reader sees

  /** What can be read at the status path: a snapshot of this launch, what was there before it, or nothing. */
  ghost predicate Reads(s: State, leftBehind: Option<BoundaryStatus>, status: Option<BoundaryStatus>) {
    || status.None?
    || (s.file.LeftBehind? && status == leftBehind)
    || (s.file.Published? && status == Some(Decode(s.file.lines)))
  }

  /** The nonce was invented for this launch: nothing left behind carries it. */
  predicate FreshNonce(nonce: string, leftBehind: Option<BoundaryStatus>) {
    leftBehind.Some? ==> leftBehind.value.nonce != Some(nonce)
  }

  /**
   * A completion is answered only for a target that ended on its own, with its own exit
   * code: never for one the watcher, a refusal or the closing job ended, whatever the
   * helper's own exit code and whatever was left at the status path before.
   */
  lemma NoKilledRunLooksFinished(s: State, leftBehind: Option<BoundaryStatus>, o: Observation)
    requires Reachable(s) && FreshNonce(s.nonce, leftBehind) && Reads(s, leftBehind, o.status)
    requires o.expected.Some? && o.expected.value.nonce == s.nonce
    requires ClassifyBoundaryEnding(o).ChildExited?
    ensures EndedBy(s.kernel.target, OnItsOwn)
    ensures ClassifyBoundaryEnding(o).childExitCode == Signed(s.kernel.target.code)
    ensures UnsignedExitCode(ClassifyBoundaryEnding(o).childExitCode) == Some(s.kernel.target.code)
  {
    hide Decode, Reachable;
    ReachableHolds(s);
    if s.file.LeftBehind? && o.status.Some? { OtherLaunchesProveNothing(o); }
    UnsignedUndoesSigned(s.kernel.target.code);
  }

  /** And the run whose main thread finished and delivered its report is answered as what it was. */
  lemma FinishedRunsAreReported(s: State, o: Observation)
    requires Reachable(s) && s.helper == MainReturned(EXIT_CHILD_OBSERVED) && s.delivered && s.file.Published?
    requires o == Observation(Some(Decode(s.file.lines)), HelperExitCode(s.helper), false,
                              Some(Identity(s.nonce, Some(s.helperPid))))
    ensures s.waited.SawExit? ==>
      && EndedBy(s.kernel.target, OnItsOwn) && s.kernel.target.code == s.waited.code
      && ClassifyBoundaryEnding(o) == ChildExited(Signed(s.waited.code), Decode(s.file.lines))
    ensures !s.waited.SawExit? ==> ClassifyBoundaryEnding(o) == Lost(NoChildExitObserved, o.status)
  {
    hide Decode, Reachable;
    ReachableHolds(s);
  }

  /**
   * Whichever thread leaves last after the owner's loss, the run is no completion, even
   * where the status that would have said so was never published.
   */
  lemma OwnerLossIsNeverACompletion(s: State, o: Observation)
    requires Reachable(s) && s.flag && (s.helper.WatcherExited? || (s.helper.MainReturned? && s.main.Return?))
    requires o.helperExitCode == HelperExitCode(s.helper)
    ensures o.helperExitCode == Some(EXIT_OWNER_LOST)
    ensures !ClassifyBoundaryEnding(o).ChildExited?
  {
    hide Decode, Reachable, ClassifyBoundaryEnding;
    ReachableHolds(s);
    OwnerLostExitsAreNoCompletion(o);
  }

  lemma OwnerLostExitsAreNoCompletion(o: Observation)
    requires o.helperExitCode == Some(EXIT_OWNER_LOST)
    ensures !ClassifyBoundaryEnding(o).ChildExited?
  {
  }

  /** An owner found gone at the launch is a launch in which no process was ever created. */
  lemma OwnerAlreadyGoneMeansNothingCreated(s: State)
    requires Reachable(s) && s.helper == MainReturned(EXIT_OWNER_ALREADY_GONE)
    ensures s.kernel.target.NoTarget? && !s.executed && s.kernel.alive == {}
  {
    hide Decode, Reachable, ExitHolds, StartHolds;
    ReachableHolds(s);
  }

  /** "Nothing ran" is only ever answered when nothing ran. */
  lemma NothingRanMeansNothingRan(s: State, leftBehind: Option<BoundaryStatus>, o: Observation)
    requires Reachable(s) && FreshNonce(s.nonce, leftBehind) && Reads(s, leftBehind, o.status)
    requires o.expected.Some? && o.expected.value.nonce == s.nonce
    requires ClassifyBoundaryEnding(o).Refused? && ClassifyBoundaryEnding(o).targetStarted == StartedNo
    ensures !s.executed
  {
    hide Decode, Reachable;
    ReachableHolds(s);
    if s.file.LeftBehind? && o.status.Some? { OtherLaunchesProveNothing(o); }
  }

  // ------------------------------------------------------- nothing outlives the helper

  /** Killed from outside between the creation and the assignment of a suspended target. */
  predicate KilledBeforeAssignment(s: State) {
    s.helper.Killed? && s.main.PlaceTarget? && s.mode.SuspendedMode?
  }

  /**
   * Once the helper is gone, something is alive exactly when it was killed in that window
   * with its target created and not yet in the job; and then that one process is all there
   * is, suspended before its first instruction.
   */
  lemma NothingOutlivesTheHelper(s: State)
    requires Reachable(s) && !s.helper.Up?
    ensures s.kernel.alive != {} <==> KilledBeforeAssignment(s) && s.kernel.target.Held?
    ensures s.kernel.alive != {} ==> !s.executed && s.kernel.alive == {s.kernel.target.pid}
  {
    hide Reachable, ExitHolds, ReportHolds, StartHolds;
    ReachableHolds(s);
  }

  lemma OneMore(s: State, actions: seq<Action>, a: Action)
    requires RunFrom(s, actions).Some?
    ensures RunFrom(s, actions + [a]) == Next(RunFrom(s, actions).value, a)
  {
    hide Next;
    assert (actions + [a])[..|actions|] == actions;
  }

  /** The exception is real: some run leaves a suspended process that nothing will resume or reap. */
  lemma AnOrphanIsPossible(start: State) returns (actions: seq<Action>)
    requires Init(start) && start.mode.SuspendedMode?
    ensures RunFrom(start, actions).Some?
    ensures KilledBeforeAssignment(RunFrom(start, actions).value)
    ensures RunFrom(start, actions).value.kernel.alive == {7}
  {
    actions := [];
    OneMore(start, actions, Prepare(ReadsRequest));
    actions := actions + [Prepare(ReadsRequest)];
    OneMore(start, actions, Prepare(MakesJob));
    actions := actions + [Prepare(MakesJob)];
    OneMore(start, actions, Prepare(ArmsWatcher));
    actions := actions + [Prepare(ArmsWatcher)];
    OneMore(start, actions, Prepare(TakesGate));
    actions := actions + [Prepare(TakesGate)];
    OneMore(start, actions, Prepare(ChecksFlag));
    actions := actions + [Prepare(ChecksFlag)];
    OneMore(start, actions, Place(Creates(7)));
    actions := actions + [Place(Creates(7))];
    OneMore(start, actions, Environment(HelperIsKilled(None)));
    actions := actions + [Environment(HelperIsKilled(None))];
  }

  // ------------------------------------------------------------- snapshots over time

  /** Every snapshot taken once the target may execute says that it started. */
  lemma SnapshotsTellOfStarts(s: State, n: State)
    requires Reachable(s) && Next(s, Writer(TakesSnapshot)) == Some(n) && s.executed
    ensures n.publishing.Writes? && n.publishing.snapshot.Some?
    ensures Decode(n.publishing.snapshot.value).targetStarted
  {
    hide Decode, Reachable, ExitHolds, ReportHolds;
    ReachableHolds(s);
    SnapshotIsHonest(s);
  }

  lemma PutsTouchNoFile(s: State, number: int, n: State)
    requires RunNext(s, Puts(number)) == Some(n)
    ensures n.file == s.file
  {
    hide MainPut;
  }

  lemma OnlyWritersTouchTheFile(s: State, a: Action, n: State)
    requires Holds(s) && Next(s, a) == Some(n) && !a.Writer?
    ensures n.file == s.file
  {
    hide LocksHold, KernelHolds, StartHolds, CausesHold, ReportHolds, EnvironmentNext, PrepareNext, PlaceNext, RunNext,
      FailureNext, SideNext, Decode, SnapshotsTruthful, LossAnnounced;
    match a
    case Environment(step) => CausesAfterEnvironment(s, step, n);
    case Prepare(step) => CausesAfterPrepare(s, step, n);
    case Place(step) => CausesAfterPlace(s, step, n);
    case Run(step) => if step.Puts? { PutsTouchNoFile(s, step.number, n); } else { RunsReport(s, step, n); }
    case Failure(step) => CausesAfterFailure(s, step, n);
    case Side(step) => CausesAfterSide(s, step, n);
  }

  lemma StepsOnlyAddToTheFile(s: State, a: Action, n: State)
    requires Holds(s) && Next(s, a) == Some(n) && s.file.Published?
    ensures n.file.Published? && s.file.lines <= n.file.lines
  {
    hide LocksHold, KernelHolds, ExitHolds, ReportHolds, Decode;
    if a.Writer? {
      assert WriterNext(s, a.writer) == Some(n);
    } else {
      hide *;
      OnlyWritersTouchTheFile(s, a, n);
    }
  }

  /** However the run goes on, what has been published is only ever added to. */
  lemma {:induction false} PublishedSnapshotsOnlyGrow(s: State, actions: seq<Action>)
    requires Reachable(s) && RunFrom(s, actions).Some? && s.file.Published?
    ensures RunFrom(s, actions).value.file.Published?
    ensures s.file.lines <= RunFrom(s, actions).value.file.lines
    decreases |actions|
  {
    hide Reachable, Holds, Next;
    if actions != [] {
      var before := RunFrom(s, actions[..|actions| - 1]).value;
      PublishedSnapshotsOnlyGrow(s, actions[..|actions| - 1]);
      ReachableHolds(s);
      RunsKeep(s, actions[..|actions| - 1]);
      StepsOnlyAddToTheFile(before, actions[|actions| - 1], RunFrom(s, actions).value);
    }
  }
}
