/**
 * That the launch helper does what it is for: a run whose wait is answered reports its
 * target's own exit code, and every target can be run to such an end.
 */
module LaunchCompletions {
  import opened Base
  import opened ExitCodes
  import opened LaunchBoundary
  import opened LaunchProtocol
  import opened LaunchSafety
  import opened LaunchEndings
  import opened LaunchRuns

  /** No wait for the target fails in these steps. */
  ghost predicate WaitsAreAnswered(actions: seq<Action>) {
    forall i | 0 <= i < |actions| :: actions[i] != Run(CannotSeeExit)
  }

  lemma OthersKeepTheWait(s: State, a: Action, n: State)
    requires Next(s, a) == Some(n) && (a.Environment? || a.Prepare? || a.Failure?)
    ensures n.waited == s.waited
  {
    hide PlaceNext, RunNext, SideNext, WriterNext, CloseJob, TerminateJob, EndTarget, MayCrash, MayRefuse;
  }

  lemma PlacementKeepsTheWait(s: State, a: Action, n: State)
    requires Next(s, a) == Some(n) && (a.Place? || a.Side? || a.Writer?)
    ensures n.waited == s.waited
  {
    hide EnvironmentNext, PrepareNext, FailureNext, RunNext, CloseJob, TerminateJob, WritesStatus;
  }

  lemma RunSees(s: State, step: RunStep, n: State)
    requires RunNext(s, step) == Some(n) && !step.CannotSeeExit? && !s.waited.Unobservable?
    ensures !n.waited.Unobservable?
  {
    hide MainPut, ExitFor, CloseJob;
  }

  lemma StepSees(s: State, a: Action, n: State)
    requires Next(s, a) == Some(n) && a != Run(CannotSeeExit) && !s.waited.Unobservable?
    ensures !n.waited.Unobservable?
  {
    hide EnvironmentNext, PrepareNext, FailureNext, PlaceNext, SideNext, WriterNext, RunNext;
    if a.Run? {
      RunSees(s, a.run, n);
    } else if a.Environment? || a.Prepare? || a.Failure? {
      OthersKeepTheWait(s, a, n);
    } else {
      PlacementKeepsTheWait(s, a, n);
    }
  }

  lemma {:induction false} NothingIsMissed(s: State, actions: seq<Action>)
    requires Init(s) && RunFrom(s, actions).Some? && WaitsAreAnswered(actions)
    ensures !RunFrom(s, actions).value.waited.Unobservable?
    decreases |actions|
  {
    hide Next;
    if actions != [] {
      var init, last := actions[..|actions| - 1], actions[|actions| - 1];
      NothingIsMissed(s, init);
      StepSees(RunFrom(s, init).value, last, RunFrom(s, actions).value);
    }
  }

  /** What the reader makes of a helper that returned: the published lines and the exit code, nothing asked of it. */
  ghost function Finished(s: State): Observation {
    Observation(
      if s.file.Published? then Some(Decode(s.file.lines)) else None,
      HelperExitCode(s.helper), false, Some(Identity(s.nonce, Some(s.helperPid))))
  }

  /**
   * Over every run in which no wait fails, whatever else interleaves: a helper that returned
   * 0 and delivered its last status is read as the exit of its target, with the target's own
   * exit code.
   */
  lemma FinishesAreCompletions(start: State, actions: seq<Action>)
    requires Init(start) && RunFrom(start, actions).Some? && WaitsAreAnswered(actions)
    requires RunFrom(start, actions).value.helper == MainReturned(EXIT_CHILD_OBSERVED)
    requires RunFrom(start, actions).value.delivered
    ensures
      var s := RunFrom(start, actions).value;
      && EndedBy(s.kernel.target, OnItsOwn) && s.file.Published?
      && ClassifyBoundaryEnding(Finished(s)) == ChildExited(Signed(s.kernel.target.code), Decode(s.file.lines))
  {
    hide RunFrom, Decode, ClassifyBoundaryEnding;
    var s := RunFrom(start, actions).value;
    assert Reachable(s);
    NothingIsMissed(start, actions);
    ReturnedWithoutLoss(s);
    FinishedRunsAreReported(s, Finished(s));
    NoKilledRunLooksFinished(s, None, Finished(s));
  }

  lemma ReturnedWithoutLoss(s: State)
    requires Reachable(s) && s.helper == MainReturned(EXIT_CHILD_OBSERVED) && s.delivered && !s.waited.Unobservable?
    ensures s.file.Published? && s.waited.SawExit? && s.kernel.target.Dead? && s.waited.code == s.kernel.target.code
  {
    hide Decode, Reachable, StartHolds;
    ReachableHolds(s);
  }

  lemma RunMisses(s: State, step: RunStep, n: State)
    requires CausesHold(s) && RunNext(s, step) == Some(n) && (step.CannotSeeExit? || s.waited.Unobservable?)
    ensures n.waited.Unobservable?
  {
    hide MainPut, ExitFor, CloseJob;
  }

  lemma StepMisses(s: State, a: Action, n: State)
    requires CausesHold(s) && Next(s, a) == Some(n) && (a == Run(CannotSeeExit) || s.waited.Unobservable?)
    ensures n.waited.Unobservable?
  {
    hide EnvironmentNext, PrepareNext, FailureNext, PlaceNext, SideNext, WriterNext, RunNext;
    if a.Run? {
      RunMisses(s, a.run, n);
    } else if a.Environment? || a.Prepare? || a.Failure? {
      OthersKeepTheWait(s, a, n);
    } else {
      PlacementKeepsTheWait(s, a, n);
    }
  }

  lemma {:induction false} MissedStaysMissed(s: State, actions: seq<Action>)
    requires Init(s) && RunFrom(s, actions).Some? && !WaitsAreAnswered(actions)
    ensures RunFrom(s, actions).value.waited.Unobservable?
    decreases |actions|
  {
    hide Next, CausesHold;
    var init, last := actions[..|actions| - 1], actions[|actions| - 1];
    var before := RunFrom(s, init).value;
    assert Reachable(before);
    CausesAreKept(before);
    if last != Run(CannotSeeExit) {
      assert !WaitsAreAnswered(init);
      MissedStaysMissed(s, init);
    }
    StepMisses(before, last, RunFrom(s, actions).value);
  }

  lemma CausesAreKept(s: State)
    requires Reachable(s)
    ensures CausesHold(s)
  {
    hide Reachable, CausesHold, LocksHold, KernelHolds, StartHolds, ReportHolds;
    ReachableHolds(s);
  }

  /** A run whose wait failed is never read as finished, and where it was delivered it is read as lost. */
  lemma UnseenExitsAreLost(start: State, actions: seq<Action>)
    requires Init(start) && RunFrom(start, actions).Some? && !WaitsAreAnswered(actions)
    requires RunFrom(start, actions).value.helper == MainReturned(EXIT_CHILD_OBSERVED)
    requires RunFrom(start, actions).value.delivered
    ensures
      var s := RunFrom(start, actions).value;
      s.file.Published? && ClassifyBoundaryEnding(Finished(s)) == Lost(NoChildExitObserved, Some(Decode(s.file.lines)))
  {
    hide RunFrom, Decode, ClassifyBoundaryEnding;
    var s := RunFrom(start, actions).value;
    assert Reachable(s);
    MissedStaysMissed(start, actions);
    DeliveredIsPublished(s);
    FinishedRunsAreReported(s, Finished(s));
  }

  lemma DeliveredIsPublished(s: State)
    requires Reachable(s) && s.helper == MainReturned(EXIT_CHILD_OBSERVED) && s.delivered
    ensures s.file.Published?
  {
    hide Decode, Reachable, StartHolds, ExitHolds;
    ReachableHolds(s);
  }

  /** Every write of the status is published: none is given up on. */
  ghost predicate WritesLand(actions: seq<Action>) {
    forall i | 0 <= i < |actions| :: actions[i] != Writer(Drops)
  }

  /** Past its last write the main thread has delivered it. */
  ghost predicate LastWriteLanded(s: State) {
    Finishing(s.main) ==> s.delivered
  }

  lemma WriterLands(s: State, step: WriterStep, n: State)
    requires LocksHold(s) && LastWriteLanded(s) && WriterNext(s, step) == Some(n) && !step.Drops?
    ensures LastWriteLanded(n)
  {
  }

  lemma OthersDeliverNothing(s: State, a: Action, n: State)
    requires Next(s, a) == Some(n) && (a.Environment? || a.Side?)
    ensures n.main == s.main && n.delivered == s.delivered
  {
    hide PrepareNext, PlaceNext, RunNext, FailureNext, WriterNext, CloseJob, TerminateJob, EndTarget;
  }

  lemma PlacementIsNotTheEnd(s: State, step: PlaceStep, n: State)
    requires PlaceNext(s, step) == Some(n)
    ensures !Finishing(n.main)
  {
  }

  lemma PreparationIsNotTheEnd(s: State, step: PrepareStep, n: State)
    requires PrepareNext(s, step) == Some(n)
    ensures !Finishing(n.main)
  {
  }

  lemma FailureIsNotTheEnd(s: State, step: FailureStep, n: State)
    requires FailureNext(s, step) == Some(n)
    ensures !Finishing(n.main)
  {
    hide MayCrash, MayRefuse, TerminateJob, EndTarget;
  }

  lemma MainWritesBeforeFinishing(s: State, step: RunStep, n: State)
    requires RunNext(s, step) == Some(n) && LastWriteLanded(s)
    ensures LastWriteLanded(n)
  {
    hide ExitFor, CloseJob;
  }

  lemma MainWritesFirst(s: State, a: Action, n: State)
    requires Next(s, a) == Some(n) && !a.Writer? && LastWriteLanded(s)
    ensures LastWriteLanded(n)
  {
    hide EnvironmentNext, PrepareNext, PlaceNext, RunNext, FailureNext, SideNext, WriterNext;
    if a.Run? {
      MainWritesBeforeFinishing(s, a.run, n);
    } else if a.Environment? || a.Side? {
      OthersDeliverNothing(s, a, n);
    } else if a.Prepare? {
      PreparationIsNotTheEnd(s, a.prepare, n);
    } else if a.Place? {
      PlacementIsNotTheEnd(s, a.place, n);
    } else {
      FailureIsNotTheEnd(s, a.failure, n);
    }
  }

  lemma {:induction false} LastWritesLand(s: State, actions: seq<Action>)
    requires Init(s) && RunFrom(s, actions).Some? && WritesLand(actions)
    ensures LastWriteLanded(RunFrom(s, actions).value)
    decreases |actions|
  {
    hide Next, LocksHold;
    if actions != [] {
      var init, last := actions[..|actions| - 1], actions[|actions| - 1];
      var before, n := RunFrom(s, init).value, RunFrom(s, actions).value;
      LastWritesLand(s, init);
      assert Reachable(before);
      LocksAreKept(before);
      if last.Writer? {
        NextWrites(before, last, n);
        WriterLands(before, last.writer, n);
      } else {
        MainWritesFirst(before, last, n);
      }
    }
  }

  lemma NextWrites(s: State, a: Action, n: State)
    requires Next(s, a) == Some(n) && a.Writer?
    ensures WriterNext(s, a.writer) == Some(n)
  {
  }

  lemma LocksAreKept(s: State)
    requires Reachable(s)
    ensures LocksHold(s)
  {
    hide Reachable, LocksHold, KernelHolds, StartHolds, ExitHolds, ReportHolds;
    ReachableHolds(s);
  }

  /**
   * Where in addition every status write lands, a helper that returned 0 has delivered: its
   * exit code alone says that what is read is the target's own end.
   */
  lemma ReturnsAreCompletions(start: State, actions: seq<Action>)
    requires Init(start) && RunFrom(start, actions).Some? && WaitsAreAnswered(actions) && WritesLand(actions)
    requires RunFrom(start, actions).value.helper == MainReturned(EXIT_CHILD_OBSERVED)
    ensures
      var s := RunFrom(start, actions).value;
      && EndedBy(s.kernel.target, OnItsOwn) && s.file.Published?
      && ClassifyBoundaryEnding(Finished(s)) == ChildExited(Signed(s.kernel.target.code), Decode(s.file.lines))
  {
    hide RunFrom, Decode, ClassifyBoundaryEnding;
    var s := RunFrom(start, actions).value;
    assert Reachable(s);
    LastWritesLand(start, actions);
    ReturnedAtTheEnd(s);
    FinishesAreCompletions(start, actions);
  }

  lemma ReturnedAtTheEnd(s: State)
    requires Reachable(s) && s.helper == MainReturned(EXIT_CHILD_OBSERVED)
    ensures Finishing(s.main)
  {
    hide Decode, Reachable, StartHolds, ExitHolds, KernelHolds;
    ReachableHolds(s);
  }

  // ------------------------------------------------------------ a run to completion

  lemma Take(start: State, actions: seq<Action>, s: State, a: Action) returns (more: seq<Action>, n: State)
    requires RunFrom(start, actions) == Some(s) && Next(s, a).Some?
    ensures more == actions + [a] && n == Next(s, a).value && RunFrom(start, more) == Some(n)
    ensures a != Run(CannotSeeExit) && WaitsAreAnswered(actions) ==> WaitsAreAnswered(more)
  {
    hide Next;
    more, n := actions + [a], Next(s, a).value;
    OneMore(start, actions, a);
  }

  /** Up and undisturbed, with the main thread here. */
  ghost predicate Undisturbed(s: State, m: MainPc) {
    && s.helper.Up? && s.main == m && !s.flag && s.publishing.NobodyWrites? && s.waited.NotYet?
    && (s.watcher.Unarmed? || s.watcher.AwaitOwner?)
    && s.gate == if MainHoldsGate(m) then MainInside else Open
  }

  lemma ReachesCreation(start: State) returns (actions: seq<Action>, s: State)
    requires Init(start)
    ensures RunFrom(start, actions) == Some(s) && WaitsAreAnswered(actions)
    ensures Undisturbed(s, CreateTarget) && s.mode == start.mode
    ensures s.kernel == Kernel(OpenJob, NoTarget, {}, {})
  {
    hide RunFrom, EnvironmentNext, PlaceNext, FailureNext, SideNext, WriterNext, RunNext;
    actions, s := [], start;
    NoSteps(start);
    actions, s := Take(start, actions, s, Prepare(ReadsRequest));
    actions, s := Take(start, actions, s, Prepare(MakesJob));
    actions, s := Take(start, actions, s, Prepare(ArmsWatcher));
    actions, s := Take(start, actions, s, Prepare(TakesGate));
    actions, s := Take(start, actions, s, Prepare(ChecksFlag));
  }

  lemma NoSteps(s: State)
    ensures RunFrom(s, []) == Some(s)
  {
  }

  /** The target stands in the job, suspended or running as the mode has it. */
  ghost predicate Placed(s: State, pid: int) {
    && s.kernel.job.OpenJob? && s.kernel.alive == {pid} && s.kernel.inJob == {pid}
    && s.kernel.target == if s.mode.JobListMode? then Running(pid) else Held(pid)
  }

  lemma ReachesPlacement(start: State, before: seq<Action>, s0: State) returns (actions: seq<Action>, s: State)
    requires RunFrom(start, before) == Some(s0) && WaitsAreAnswered(before)
    requires Undisturbed(s0, CreateTarget) && s0.kernel == Kernel(OpenJob, NoTarget, {}, {})
    ensures RunFrom(start, actions) == Some(s) && WaitsAreAnswered(actions)
    ensures Undisturbed(s, LeaveGate) && Placed(s, 7) && s.mode == s0.mode
  {
    hide RunFrom, EnvironmentNext, FailureNext, SideNext, WriterNext;
    actions, s := Take(start, before, s0, Place(Creates(7)));
    if s.mode.JobListMode? {
      actions, s := Take(start, actions, s, Run(Puts(0)));
    } else {
      actions, s := Take(start, actions, s, Place(Assigns));
    }
  }

  /** The main thread put its line and went on, and nothing else changed. */
  lemma Put(start: State, before: seq<Action>, s0: State, m: MainPc) returns (actions: seq<Action>, s: State)
    requires RunFrom(start, before) == Some(s0) && s0.helper.Up?
    requires MainPut(s0, 0).Some? && MainPut(s0, 0).value.1 == m
    ensures RunFrom(start, actions) == Some(s) && (WaitsAreAnswered(before) ==> WaitsAreAnswered(actions))
    ensures s == s0.(status := s0.status + [MainPut(s0, 0).value.0], main := m)
  {
    hide RunFrom, MainPut;
    actions, s := Take(start, before, s0, Run(Puts(0)));
  }

  lemma ReachesVerification(start: State, before: seq<Action>, s0: State) returns (actions: seq<Action>, s: State)
    requires RunFrom(start, before) == Some(s0) && WaitsAreAnswered(before)
    requires Undisturbed(s0, LeaveGate) && Placed(s0, 7)
    ensures RunFrom(start, actions) == Some(s) && WaitsAreAnswered(actions)
    ensures Undisturbed(s, PutVerified) && Placed(s, 7) && s.mode == s0.mode
  {
    hide RunFrom, EnvironmentNext, PrepareNext, FailureNext, SideNext, WriterNext, RunNext;
    actions, s := Take(start, before, s0, Place(LeavesGate));
    actions, s := Put(start, actions, s, PutAssigned);
    actions, s := Put(start, actions, s, Verify);
    actions, s := Take(start, actions, s, Place(Verifies));
  }

  lemma ReachesResume(start: State, before: seq<Action>, s0: State) returns (actions: seq<Action>, s: State)
    requires RunFrom(start, before) == Some(s0) && WaitsAreAnswered(before)
    requires Undisturbed(s0, TakeResumeGate) && s0.kernel.target == Held(7)
    ensures RunFrom(start, actions) == Some(s) && WaitsAreAnswered(actions)
    ensures Undisturbed(s, PutOk) && s.kernel.target == Running(7)
  {
    hide RunFrom, EnvironmentNext, PrepareNext, FailureNext, SideNext, WriterNext, RunNext;
    actions, s := ReachesRecord(start, before, s0);
    actions, s := Put(start, actions, s, LeaveResumeGate);
    actions, s := Take(start, actions, s, Place(LeavesGate));
  }

  lemma ReachesRecord(start: State, before: seq<Action>, s0: State) returns (actions: seq<Action>, s: State)
    requires RunFrom(start, before) == Some(s0) && WaitsAreAnswered(before)
    requires Undisturbed(s0, TakeResumeGate) && s0.kernel.target == Held(7)
    ensures RunFrom(start, actions) == Some(s) && WaitsAreAnswered(actions)
    ensures Undisturbed(s, PutStarted) && s.kernel.target == Running(7)
  {
    hide RunFrom, EnvironmentNext, FailureNext, SideNext, WriterNext, RunNext;
    actions, s := Take(start, before, s0, Prepare(TakesGate));
    actions, s := Take(start, actions, s, Place(Resumes));
  }

  lemma ReachesOk(start: State, before: seq<Action>, s0: State) returns (actions: seq<Action>, s: State)
    requires RunFrom(start, before) == Some(s0) && WaitsAreAnswered(before)
    requires Undisturbed(s0, PutVerified) && Placed(s0, 7)
    ensures RunFrom(start, actions) == Some(s) && WaitsAreAnswered(actions)
    ensures Undisturbed(s, PutOk) && s.kernel.target == Running(7)
  {
    hide RunFrom, Next;
    actions, s := Put(start, before, s0, PutMembersAtStart);
    actions, s := Put(start, actions, s, if s0.mode.JobListMode? then PutOk else TakeResumeGate);
    if !s0.mode.JobListMode? {
      actions, s := ReachesResume(start, actions, s);
    }
  }

  /** The main thread took the status lock, its snapshot and published it. */
  lemma Publish(start: State, before: seq<Action>, s0: State) returns (actions: seq<Action>, s: State)
    requires RunFrom(start, before) == Some(s0) && s0.helper.Up?
    requires s0.publishing.NobodyWrites? && (s0.main.EarlyWrite? || s0.main.FinalWrite?)
    ensures RunFrom(start, actions) == Some(s) && (WaitsAreAnswered(before) ==> WaitsAreAnswered(actions))
    ensures s == s0.(main := if s0.main.EarlyWrite? then StartPumps else CloseHandles,
                     file := s.file, delivered := s0.delivered || s0.main.FinalWrite?)
  {
    hide RunFrom, EnvironmentNext, PrepareNext, PlaceNext, FailureNext, SideNext, RunNext;
    actions, s := Take(start, before, s0, Writer(TakesStatusLock(MainThread)));
    actions, s := Take(start, actions, s, Writer(TakesSnapshot));
    actions, s := Take(start, actions, s, Writer(Publishes));
  }

  lemma ReachesWait(start: State, before: seq<Action>, s0: State) returns (actions: seq<Action>, s: State)
    requires RunFrom(start, before) == Some(s0) && WaitsAreAnswered(before)
    requires Undisturbed(s0, PutOk) && s0.kernel.target == Running(7)
    ensures RunFrom(start, actions) == Some(s) && WaitsAreAnswered(actions)
    ensures Undisturbed(s, AwaitTarget) && s.kernel.target == Running(7)
  {
    hide RunFrom, EnvironmentNext, PrepareNext, PlaceNext, FailureNext, SideNext, WriterNext;
    actions, s := Put(start, before, s0, EarlyWrite);
    actions, s := Publish(start, actions, s);
    actions, s := Take(start, actions, s, Run(StartsPumps));
  }

  lemma SeesTheExit(start: State, before: seq<Action>, s0: State, code: ExitCode) returns (actions: seq<Action>, s: State)
    requires RunFrom(start, before) == Some(s0) && WaitsAreAnswered(before)
    requires Undisturbed(s0, AwaitTarget) && s0.kernel.target == Running(7)
    ensures RunFrom(start, actions) == Some(s) && WaitsAreAnswered(actions)
    ensures s.helper.Up? && s.main.PutExit? && !s.flag && s.publishing.NobodyWrites?
    ensures s.kernel.target == Dead(7, code, OnItsOwn)
  {
    hide RunFrom, PrepareNext, PlaceNext, FailureNext, SideNext, WriterNext;
    actions, s := Take(start, before, s0, Environment(TargetExits(code)));
    actions, s := Take(start, actions, s, Run(SeesExit));
  }

  lemma ReportsTheExit(start: State, before: seq<Action>, s0: State) returns (actions: seq<Action>, s: State)
    requires RunFrom(start, before) == Some(s0)
    requires s0.helper.Up? && s0.main.PutExit? && !s0.flag && s0.publishing.NobodyWrites?
    ensures RunFrom(start, actions) == Some(s) && (WaitsAreAnswered(before) ==> WaitsAreAnswered(actions))
    ensures s.helper.Up? && s.main.CloseHandles? && !s.flag && s.delivered && s.kernel == s0.kernel
  {
    hide RunFrom, EnvironmentNext, PrepareNext, PlaceNext, FailureNext, SideNext, WriterNext;
    actions, s := Put(start, before, s0, ReadFlag);
    actions, s := Take(start, actions, s, Run(ReadsFlag));
    actions, s := Put(start, actions, s, PutMembersAtEnd);
    actions, s := Put(start, actions, s, FinalWrite);
    actions, s := Publish(start, actions, s);
  }

  lemma Returned(start: State, before: seq<Action>, s0: State, code: ExitCode) returns (actions: seq<Action>, s: State)
    requires RunFrom(start, before) == Some(s0) && WaitsAreAnswered(before)
    requires s0.helper.Up? && s0.main.CloseHandles? && !s0.flag && s0.delivered
    requires s0.kernel.target == Dead(7, code, OnItsOwn)
    ensures RunFrom(start, actions) == Some(s) && WaitsAreAnswered(actions)
    ensures s.helper == MainReturned(EXIT_CHILD_OBSERVED) && s.delivered
    ensures s.kernel.target == Dead(7, code, OnItsOwn)
  {
    hide RunFrom, EnvironmentNext, PrepareNext, PlaceNext, FailureNext, SideNext, WriterNext, MainPut;
    actions, s := Take(start, before, s0, Run(ClosesHandles));
    actions, s := Take(start, actions, s, Run(Returns));
  }

  /** From any start, in either mode, a target may end with any exit code and is reported so. */
  lemma EveryExitCanBeReported(start: State, code: ExitCode) returns (actions: seq<Action>)
    requires Init(start)
    ensures RunFrom(start, actions).Some?
    ensures
      var s := RunFrom(start, actions).value;
      && s.helper == MainReturned(EXIT_CHILD_OBSERVED) && s.file.Published?
      && ClassifyBoundaryEnding(Finished(s)) == ChildExited(Signed(code), Decode(s.file.lines))
  {
    hide RunFrom, ClassifyBoundaryEnding, Decode, Undisturbed, Placed, Finished;
    var s: State;
    actions, s := ReachesCreation(start);
    actions, s := ReachesPlacement(start, actions, s);
    actions, s := ReachesVerification(start, actions, s);
    actions, s := ReachesOk(start, actions, s);
    actions, s := ReachesWait(start, actions, s);
    actions, s := SeesTheExit(start, actions, s, code);
    actions, s := ReportsTheExit(start, actions, s);
    actions, s := Returned(start, actions, s, code);
    FinishesAreCompletions(start, actions);
  }

  // ----------------------------------------------------- what the owner's loss ends

  /** Past its termination of the job the watcher leaves nothing alive behind it. */
  ghost predicate TerminationHolds(s: State) {
    s.watcher.WatcherWrite? || s.watcher.ExitHelper? ==> s.kernel.alive == {}
  }

  lemma TerminationEndsAll(s: State, n: State)
    requires LocksHold(s) && KernelHolds(s) && SideNext(s, WatcherEndsJob) == Some(n)
    ensures n.kernel.alive == {}
  {
    hide IsRefusing;
  }

  lemma SidesBearNothing(s: State, step: SideStep, n: State)
    requires SideNext(s, step) == Some(n) && !step.WatcherEndsJob?
    ensures n.kernel.alive <= s.kernel.alive
    ensures n.watcher.WatcherWrite? || n.watcher.ExitHelper? ==> n.watcher == s.watcher
  {
  }

  lemma EnvironmentBearsNothing(s: State, step: EnvironmentStep, n: State)
    requires EnvironmentNext(s, step) == Some(n) && s.kernel.alive == {}
    ensures n.kernel.alive == {}
  {
  }

  lemma PreparationBearsNothing(s: State, step: PrepareStep, n: State)
    requires PrepareNext(s, step) == Some(n)
    ensures n.kernel.alive <= s.kernel.alive
  {
  }

  lemma FailureBearsNothing(s: State, step: FailureStep, n: State)
    requires FailureNext(s, step) == Some(n)
    ensures n.kernel.alive <= s.kernel.alive
  {
    hide MayCrash, MayRefuse;
  }

  lemma PlacementBearsNothing(s: State, step: PlaceStep, n: State)
    requires PlaceNext(s, step) == Some(n) && LocksHold(s) && WatcherHoldsGate(s.watcher)
    ensures n.kernel.alive <= s.kernel.alive
  {
    hide IsRefusing, WritesStatus;
  }

  lemma RunBearsNothing(s: State, step: RunStep, n: State)
    requires RunNext(s, step) == Some(n)
    ensures n.kernel.alive <= s.kernel.alive
  {
    hide MainPut, ExitFor;
  }

  lemma MainBearsNothing(s: State, a: Action, n: State)
    requires Next(s, a) == Some(n) && (a.Prepare? || a.Place? || a.Run? || a.Failure?)
    requires LocksHold(s) && WatcherHoldsGate(s.watcher)
    ensures n.kernel.alive <= s.kernel.alive
  {
    hide EnvironmentNext, PrepareNext, PlaceNext, RunNext, FailureNext, SideNext, WriterNext, LocksHold, WatcherHoldsGate;
    if a.Place? {
      PlacementBearsNothing(s, a.place, n);
    } else if a.Run? {
      RunBearsNothing(s, a.run, n);
    } else if a.Prepare? {
      PreparationBearsNothing(s, a.prepare, n);
    } else {
      FailureBearsNothing(s, a.failure, n);
    }
  }

  lemma PreparationKeepsTheWatcher(s: State, step: PrepareStep, n: State)
    requires PrepareNext(s, step) == Some(n)
    ensures n.watcher.WatcherWrite? || n.watcher.ExitHelper? ==> n.watcher == s.watcher
  {
  }

  lemma MainLeavesTheWatcher(s: State, a: Action, n: State)
    requires Next(s, a) == Some(n) && (a.Place? || a.Run?)
    ensures n.watcher == s.watcher
  {
    hide EnvironmentNext, PrepareNext, FailureNext, SideNext, WriterNext, MainPut, ExitFor, CloseJob;
  }

  lemma RestLeavesTheWatcher(s: State, a: Action, n: State)
    requires Next(s, a) == Some(n) && (a.Failure? || a.Environment?)
    ensures n.watcher == s.watcher
  {
    hide PrepareNext, PlaceNext, RunNext, SideNext, WriterNext, MayCrash, MayRefuse, CloseJob, TerminateJob, EndTarget;
  }

  lemma MainKeepsTheWatcher(s: State, a: Action, n: State)
    requires Next(s, a) == Some(n) && (a.Prepare? || a.Place? || a.Run? || a.Failure? || a.Environment?)
    ensures n.watcher.WatcherWrite? || n.watcher.ExitHelper? ==> n.watcher == s.watcher
  {
    hide EnvironmentNext, PrepareNext, PlaceNext, RunNext, FailureNext, SideNext, WriterNext;
    if a.Prepare? {
      PreparationKeepsTheWatcher(s, a.prepare, n);
    } else if a.Place? || a.Run? {
      MainLeavesTheWatcher(s, a, n);
    } else {
      RestLeavesTheWatcher(s, a, n);
    }
  }

  lemma WritersBearNothing(s: State, step: WriterStep, n: State)
    requires LocksHold(s) && WriterNext(s, step) == Some(n)
    ensures n.kernel == s.kernel && (n.watcher.WatcherWrite? || n.watcher.ExitHelper? ==> s.watcher.WatcherWrite? || s.watcher.ExitHelper?)
  {
  }

  lemma StepTerminates(s: State, a: Action, n: State)
    requires Holds(s) && TerminationHolds(s) && Next(s, a) == Some(n)
    ensures TerminationHolds(n)
  {
    hide LocksHold, KernelHolds, StartHolds, ExitHolds, ReportHolds, EnvironmentNext, PrepareNext, PlaceNext, RunNext,
      FailureNext, SideNext, WriterNext;
    if a.Side? {
      if a.side.WatcherEndsJob? { TerminationEndsAll(s, n); } else { SidesBearNothing(s, a.side, n); }
    } else if a.Writer? {
      WritersBearNothing(s, a.writer, n);
    } else {
      MainKeepsTheWatcher(s, a, n);
      if s.watcher.WatcherWrite? || s.watcher.ExitHelper? {
        if a.Environment? { EnvironmentBearsNothing(s, a.environment, n); } else { MainBearsNothing(s, a, n); }
      }
    }
  }

  lemma {:induction false} RunsTerminate(s: State, actions: seq<Action>)
    requires Init(s) && RunFrom(s, actions).Some?
    ensures Holds(RunFrom(s, actions).value) && TerminationHolds(RunFrom(s, actions).value)
    decreases |actions|
  {
    hide Next, Holds, TerminationHolds;
    if actions == [] {
      assert Reachable(s) by { assert RunFrom(s, []) == Some(s); }
      ReachableHolds(s);
      StartsUnarmed(s);
    } else {
      var before := RunFrom(s, actions[..|actions| - 1]).value;
      RunsTerminate(s, actions[..|actions| - 1]);
      StepKeeps(before, actions[|actions| - 1], RunFrom(s, actions).value);
      StepTerminates(before, actions[|actions| - 1], RunFrom(s, actions).value);
    }
  }

  lemma StartsUnarmed(s: State)
    requires Init(s)
    ensures TerminationHolds(s)
  {
  }

  /**
   * The owner's loss ends the whole tree at once: from the moment the watcher has ended the
   * job, before it reports and before the helper leaves, no process of the launch lives and
   * none can be born.
   */
  lemma OwnerLossEndsTheTree(s: State)
    requires Reachable(s) && (s.watcher.WatcherWrite? || s.watcher.ExitHelper?)
    ensures s.kernel.alive == {}
  {
    hide RunFrom;
    var start, actions :| Init(start) && RunFrom(start, actions) == Some(s);
    RunsTerminate(start, actions);
  }

  // ----------------------------------------------------------- refusals and their names

  /** The code each refusal is known by. */
  ghost function CodeNamed(why: RefusalReason): string {
    match why
    case RequestInvalid => "OWNED_CONTAINMENT_REQUEST_INVALID"
    case JobCreate => "OWNED_CONTAINMENT_JOB_CREATE"
    case JobHandle => "OWNED_CONTAINMENT_JOB_HANDLE"
    case JobConfigure => "OWNED_CONTAINMENT_JOB_CONFIGURE"
    case OwnerGone => "OWNED_CONTAINMENT_OWNER_GONE"
    case PipesFailed => "OWNED_CONTAINMENT_PIPES"
    case AttributeList => "OWNED_CONTAINMENT_ATTRIBUTE_LIST"
    case HandleList => "OWNED_CONTAINMENT_HANDLE_LIST"
    case JobList => "OWNED_CONTAINMENT_JOB_LIST"
    case CreateFailed => "OWNED_CONTAINMENT_CREATE"
    case AssignFailed => "OWNED_CONTAINMENT_ASSIGN"
    case VerifyFailed => "OWNED_CONTAINMENT_VERIFY"
    case ResumeFailed => "OWNED_CONTAINMENT_RESUME"
    case InternalError => "HELPER_INTERNAL_ERROR"
  }

  lemma NamesAreKnown(why: RefusalReason)
    ensures FailureName(why) == CodeNamed(why) && FailureName(why) in KNOWN_FAILURE_CODES
  {
  }

  /** What the reader makes of a helper that returned, asked for no particular launch. */
  ghost function ReadAlone(s: State): Observation {
    Finished(s).(expected := None)
  }

  /**
   * Wherever the main thread refused the launch, the rest of its way, taken undisturbed,
   * ends in a report that is read as that refusal, under its own code, with the exit code
   * that goes with it.
   */
  lemma RefusalsAreReported(start: State, before: seq<Action>, s0: State, why: RefusalReason)
    returns (actions: seq<Action>, s: State)
    requires RunFrom(start, before) == Some(s0)
    requires s0.helper.Up? && s0.main == PutFailed(why) && s0.publishing.NobodyWrites?
    ensures RunFrom(start, actions) == Some(s)
    ensures s.helper == MainReturned(if why.InternalError? then 91 else if why.OwnerGone? then 92 else 90)
    ensures ClassifyBoundaryEnding(ReadAlone(s)).Refused? && ClassifyBoundaryEnding(ReadAlone(s)).failureCode == CodeNamed(why)
    ensures s.file == Published(s0.status + RefusalLines(why)) && s.nonce == s0.nonce && s.helperPid == s0.helperPid
  {
    hide RunFrom, Next, Decode, FailureName, KNOWN_FAILURE_CODES, CodeNamed, RefusalLines;
    actions, s := RefusalIsListed(start, before, s0, why);
    actions, s := RefusalIsPublished(start, actions, s, why);
    RefusalDecodes(s0.status, why);
    NamesAreKnown(why);
    RefusalsMean(ReadAlone(s));
  }

  /** What a refusing main thread lists, line by line. */
  lemma RefusalPuts(s: State, why: RefusalReason)
    ensures s.main == PutFailed(why) ==> MainPut(s, 0) == Some((BoundaryFailedLine, PutFailure(why)))
    ensures s.main == PutFailure(why) ==>
      MainPut(s, 0) == Some((FailureLine(FailureName(why)), if why.InternalError? then RefusalWrite(why) else PutWin32(why)))
    ensures s.main == PutWin32(why) ==> MainPut(s, 0) == Some((Win32Line(0), RefusalWrite(why)))
  {
    hide FailureName;
  }

  ghost function RefusalLines(why: RefusalReason): seq<Line> {
    [BoundaryFailedLine, FailureLine(FailureName(why))] + if why.InternalError? then [] else [Win32Line(0)]
  }

  lemma RefusalDecodes(status: seq<Line>, why: RefusalReason)
    ensures
      var v := Decode(status + RefusalLines(why));
      && v.boundary == Some(BoundaryFailed) && v.failure == Some(FailureName(why))
      && v.nonce == Decode(status).nonce && v.helperPid == Decode(status).helperPid
      && v.targetStarted == Decode(status).targetStarted
  {
    hide FailureName, Decode;
    var failed := status + [BoundaryFailedLine];
    var named := failed + [FailureLine(FailureName(why))];
    DecodeAppend(status, BoundaryFailedLine);
    DecodeAppend(failed, FailureLine(FailureName(why)));
    DecodeAppend(named, Win32Line(0));
    assert status + RefusalLines(why) == if why.InternalError? then named else named + [Win32Line(0)];
  }

  lemma RefusalIsNamed(start: State, before: seq<Action>, s0: State, why: RefusalReason)
    returns (actions: seq<Action>, s: State)
    requires RunFrom(start, before) == Some(s0)
    requires s0.helper.Up? && s0.main == PutFailed(why)
    ensures RunFrom(start, actions) == Some(s)
    ensures s.main == if why.InternalError? then RefusalWrite(why) else PutWin32(why)
    ensures s.helper.Up? && s.publishing == s0.publishing
    ensures s.status == s0.status + [BoundaryFailedLine, FailureLine(FailureName(why))]
    ensures s.nonce == s0.nonce && s.helperPid == s0.helperPid
  {
    hide RunFrom, Next, FailureName, MainPut;
    RefusalPuts(s0, why);
    actions, s := Put(start, before, s0, PutFailure(why));
    RefusalPuts(s, why);
    actions, s := Put(start, actions, s, if why.InternalError? then RefusalWrite(why) else PutWin32(why));
    assert s.status == s0.status + [BoundaryFailedLine, FailureLine(FailureName(why))];
  }

  lemma RefusalIsListed(start: State, before: seq<Action>, s0: State, why: RefusalReason)
    returns (actions: seq<Action>, s: State)
    requires RunFrom(start, before) == Some(s0)
    requires s0.helper.Up? && s0.main == PutFailed(why)
    ensures RunFrom(start, actions) == Some(s)
    ensures s.main == RefusalWrite(why) && s.helper.Up? && s.publishing == s0.publishing
    ensures s.status == s0.status + RefusalLines(why)
    ensures s.nonce == s0.nonce && s.helperPid == s0.helperPid
  {
    hide RunFrom, Next, FailureName, MainPut, RefusalLines;
    actions, s := RefusalIsNamed(start, before, s0, why);
    RefusalLinesAre(s0.status, why);
    if !why.InternalError? { actions, s := RefusalIsNumbered(start, actions, s, why); }
  }

  lemma RefusalLinesAre(status: seq<Line>, why: RefusalReason)
    ensures
      var named := status + [BoundaryFailedLine, FailureLine(FailureName(why))];
      status + RefusalLines(why) == if why.InternalError? then named else named + [Win32Line(0)]
  {
    hide FailureName;
  }

  lemma RefusalIsNumbered(start: State, before: seq<Action>, s0: State, why: RefusalReason)
    returns (actions: seq<Action>, s: State)
    requires RunFrom(start, before) == Some(s0)
    requires s0.helper.Up? && s0.main == PutWin32(why)
    ensures RunFrom(start, actions) == Some(s)
    ensures s.main == RefusalWrite(why) && s.helper.Up? && s.publishing == s0.publishing
    ensures s.status == s0.status + [Win32Line(0)]
    ensures s.nonce == s0.nonce && s.helperPid == s0.helperPid
  {
    hide RunFrom, Next, FailureName, MainPut;
    RefusalPuts(s0, why);
    actions, s := Put(start, before, s0, RefusalWrite(why));
  }

  lemma RefusalIsPublished(start: State, before: seq<Action>, s0: State, why: RefusalReason)
    returns (actions: seq<Action>, s: State)
    requires RunFrom(start, before) == Some(s0)
    requires s0.helper.Up? && s0.main == RefusalWrite(why) && s0.publishing.NobodyWrites?
    ensures RunFrom(start, actions) == Some(s) && s.file == Published(s0.status)
    ensures s.helper == MainReturned(if why.InternalError? then 91 else if why.OwnerGone? then 92 else 90)
    ensures s.nonce == s0.nonce && s.helperPid == s0.helperPid
  {
    hide RunFrom, Next;
    actions, s := RefusalIsWritten(start, before, s0, why);
    actions, s := RefusalReturns(start, actions, s, why);
  }

  lemma RefusalIsWritten(start: State, before: seq<Action>, s0: State, why: RefusalReason)
    returns (actions: seq<Action>, s: State)
    requires RunFrom(start, before) == Some(s0)
    requires s0.helper.Up? && s0.main == RefusalWrite(why) && s0.publishing.NobodyWrites?
    ensures RunFrom(start, actions) == Some(s)
    ensures s == s0.(main := RefusalReturn(why), file := Published(s0.status))
  {
    hide RunFrom, EnvironmentNext, PrepareNext, PlaceNext, FailureNext, SideNext, RunNext;
    actions, s := Take(start, before, s0, Writer(TakesStatusLock(MainThread)));
    actions, s := Take(start, actions, s, Writer(TakesSnapshot));
    actions, s := Take(start, actions, s, Writer(Publishes));
  }

  lemma RefusalReturns(start: State, before: seq<Action>, s0: State, why: RefusalReason)
    returns (actions: seq<Action>, s: State)
    requires RunFrom(start, before) == Some(s0)
    requires s0.helper.Up? && s0.main == RefusalReturn(why)
    ensures RunFrom(start, actions) == Some(s) && s.file == s0.file
    ensures s.helper == MainReturned(if why.InternalError? then 91 else if why.OwnerGone? then 92 else 90)
    ensures s.nonce == s0.nonce && s.helperPid == s0.helperPid
  {
    hide RunFrom, EnvironmentNext, PrepareNext, PlaceNext, FailureNext, SideNext, WriterNext, MainPut, CloseJob;
    actions, s := Take(start, before, s0, Run(Returns));
  }
}
