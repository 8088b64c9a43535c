/**
 * What the reader may conclude from the last published snapshot, whenever the helper ended
 * and whoever ended it.
 */
module LaunchEndings {
  import opened Base
  import opened ExitCodes
  import opened LaunchBoundary
  import opened LaunchProtocol
  import opened LaunchSafety

  // ------------------------------------------------ exit codes and owner loss

  predicate AfterExit(m: MainPc) {
    m.PutExit? || m.ReadFlag? || m.PutOwnerLoss? || m.PutMembersAtEnd? || m.FinalWrite? || m.CloseHandles? || m.Return?
  }

  predicate EndedBy(t: Target, cause: Cause) { t.Dead? && t.cause == cause }

  /** An exit code in a snapshot is the observed one, and never hides that the watcher ended the target. */
  ghost predicate Truthful(s: State, v: BoundaryStatus) {
    v.childExitCode.Some? ==>
      && s.waited.SawExit? && v.childExitCode == Some(Signed(s.waited.code))
      && (EndedBy(s.kernel.target, ByWatcher) ==> v.terminatedByOwnerLoss)
  }

  ghost predicate SnapshotsTruthful(s: State) {
    && (s.publishing.Writes? && s.publishing.snapshot.Some? ==> Truthful(s, Decode(s.publishing.snapshot.value)))
    && (s.file.Published? ==> Truthful(s, Decode(s.file.lines)))
  }

  /** The watcher has announced itself and its job termination is still ahead of a living target. */
  predicate LossAnnounced(s: State) {
    EndedBy(s.kernel.target, ByWatcher) || (TargetLives(s.kernel) && s.watcher.EndJob?)
  }

  ghost predicate CausesHold(s: State) {
    var t := s.kernel.target;
    && (EndedBy(t, ByWatcher) ==> s.flag)
    && (EndedBy(t, ByRefusal) ==> IsRefusing(s.main))
    && (EndedBy(t, ByJobClose) ==> s.kernel.job.ClosedJob?)
    && (s.waited.SawExit? ==> t.Dead? && t.code == s.waited.code && (t.cause.OnItsOwn? || t.cause.ByWatcher?))
    && (s.waited.NotYet? ==> !AfterExit(s.main))
    && (!s.waited.NotYet? ==> AfterExit(s.main) || IsRefusing(s.main))
    && (s.main.PutOwnerLoss? && s.waited.SawExit? && EndedBy(t, ByWatcher) ==> s.main.seen)
  }

  ghost predicate ExitHolds(s: State) {
    && CausesHold(s)
    && (Decode(s.status).childExitCode.Some? ==>
          s.waited.SawExit? && Decode(s.status).childExitCode == Some(Signed(s.waited.code)))
    && (!s.waited.Unobservable? && LossAnnounced(s) ==> Decode(s.status).terminatedByOwnerLoss)
    && SnapshotsTruthful(s)
  }

  lemma TruthLasts(s: State, n: State)
    requires SnapshotsTruthful(s) && n.publishing == s.publishing && n.file == s.file
    requires s.waited.SawExit? ==> n.waited == s.waited
    requires s.waited.SawExit? && EndedBy(n.kernel.target, ByWatcher) ==> EndedBy(s.kernel.target, ByWatcher)
    ensures SnapshotsTruthful(n)
  {
  }

  lemma CausesAfterEnvironment(s: State, step: EnvironmentStep, n: State)
    requires LocksHold(s) && KernelHolds(s) && CausesHold(s) && EnvironmentNext(s, step) == Some(n)
    ensures CausesHold(n) && (LossAnnounced(n) ==> LossAnnounced(s))
    ensures n.publishing == s.publishing && n.file == s.file && n.waited == s.waited && n.status == s.status
    ensures EndedBy(n.kernel.target, ByWatcher) <==> EndedBy(s.kernel.target, ByWatcher)
  {
  }

  lemma CausesAfterPrepare(s: State, step: PrepareStep, n: State)
    requires LocksHold(s) && KernelHolds(s) && CausesHold(s) && PrepareNext(s, step) == Some(n)
    ensures CausesHold(n) && (LossAnnounced(n) ==> LossAnnounced(s))
    ensures n.publishing == s.publishing && n.file == s.file && n.waited == s.waited
    ensures EndedBy(n.kernel.target, ByWatcher) <==> EndedBy(s.kernel.target, ByWatcher)
  {
  }

  lemma CreationComesFirst(s: State)
    requires LocksHold(s) && KernelHolds(s) && s.main.CreateTarget?
    ensures s.kernel.target.NoTarget? && !s.watcher.EndJob?
  {
  }

  lemma CausesAfterPlace(s: State, step: PlaceStep, n: State)
    requires LocksHold(s) && KernelHolds(s) && CausesHold(s) && PlaceNext(s, step) == Some(n)
    ensures CausesHold(n) && (LossAnnounced(n) ==> LossAnnounced(s))
    ensures n.publishing == s.publishing && n.file == s.file && n.waited == s.waited && n.status == s.status
    ensures EndedBy(n.kernel.target, ByWatcher) <==> EndedBy(s.kernel.target, ByWatcher)
  {
    hide LocksHold, KernelHolds;
    if step.Creates? {
      CreationComesFirst(s);
      CausesAfterCreation(s, step.pid, n);
    } else {
      CausesAfterPlacement(s, step, n);
    }
    hide PlaceNext;
  }

  lemma CausesAfterCreation(s: State, pid: int, n: State)
    requires CausesHold(s) && PlaceNext(s, Creates(pid)) == Some(n) && s.kernel.target.NoTarget? && !s.watcher.EndJob?
    ensures CausesHold(n) && !LossAnnounced(n)
    ensures n.publishing == s.publishing && n.file == s.file && n.waited == s.waited && n.status == s.status
    ensures !EndedBy(n.kernel.target, ByWatcher)
  {
  }

  lemma PlacementIsEarly(s: State, step: PlaceStep, n: State)
    requires PlaceNext(s, step) == Some(n)
    ensures !AfterExit(s.main) && !IsRefusing(s.main) && !AfterExit(n.main) && !IsRefusing(n.main)
  {
    PlacingMoves(s, step, n);
    hide PlaceNext;
  }

  /** Where the main thread stands before and after a placement step. */
  lemma PlacingMoves(s: State, step: PlaceStep, n: State)
    requires PlaceNext(s, step) == Some(n)
    ensures
      || (s.main.CreateTarget? && n.main.PlaceTarget?) || (s.main.PlaceTarget? && n.main.LeaveGate?)
      || (s.main.LeaveGate? && n.main.PutChildPid?) || (s.main.LeaveResumeGate? && n.main.PutOk?)
      || (s.main.Verify? && n.main.PutVerified?) || (s.main.ResumeTarget? && n.main.PutStarted?)
  {
  }

  lemma PlacementStartsAtMost(s: State, step: PlaceStep, n: State)
    requires PlaceNext(s, step) == Some(n) && !step.Creates?
    ensures n.publishing == s.publishing && n.file == s.file && n.waited == s.waited && n.status == s.status
    ensures n.flag == s.flag && n.watcher == s.watcher && n.kernel.job == s.kernel.job
    ensures n.kernel.target == s.kernel.target || (s.kernel.target.Held? && n.kernel.target.Running?)
  {
  }

  lemma CausesAfterPlacement(s: State, step: PlaceStep, n: State)
    requires CausesHold(s) && PlaceNext(s, step) == Some(n) && !step.Creates?
    ensures CausesHold(n) && (LossAnnounced(n) ==> LossAnnounced(s))
    ensures n.publishing == s.publishing && n.file == s.file && n.waited == s.waited && n.status == s.status
    ensures EndedBy(n.kernel.target, ByWatcher) <==> EndedBy(s.kernel.target, ByWatcher)
  {
    PlacementIsEarly(s, step, n);
    PlacementStartsAtMost(s, step, n);
    hide PlaceNext, IsRefusing;
  }

  lemma CausesAfterFailure(s: State, step: FailureStep, n: State)
    requires LocksHold(s) && KernelHolds(s) && CausesHold(s) && FailureNext(s, step) == Some(n)
    ensures CausesHold(n) && (LossAnnounced(n) ==> LossAnnounced(s))
    ensures n.publishing == s.publishing && n.file == s.file && n.waited == s.waited
    ensures EndedBy(n.kernel.target, ByWatcher) <==> EndedBy(s.kernel.target, ByWatcher)
    ensures n.status == s.status || s.main.ReadRequest?
  {
    hide MayRefuse;
  }

  lemma CausesAfterSide(s: State, step: SideStep, n: State)
    requires LocksHold(s) && KernelHolds(s) && CausesHold(s) && SideNext(s, step) == Some(n) && s.helper.Up?
    ensures CausesHold(n) && (LossAnnounced(n) ==> LossAnnounced(s) || step.WatcherPutsLoss?)
    ensures n.publishing == s.publishing && n.file == s.file && n.waited == s.waited
    ensures s.waited.SawExit? ==> n.kernel.target == s.kernel.target
  {
  }

  /** Where a put may touch the exit code or the owner loss, and what it puts there. */
  lemma PutsAboutTheEnd(s: State, number: int)
    requires MainPut(s, number).Some?
    ensures
      var (line, m) := MainPut(s, number).value;
      && (line.ChildExitCodeLine? ==> s.waited.SawExit? && line.exitCode == Signed(s.waited.code))
      && (line.TerminatedByOwnerLossLine? ==> s.main.PutOwnerLoss? && line.lost == s.main.seen)
      && (s.main.PutOwnerLoss? ==> AfterExit(s.main))
      && (AfterExit(m) <==> AfterExit(s.main)) && (IsRefusing(m) <==> IsRefusing(s.main)) && !m.PutOwnerLoss?
  {
  }

  lemma ExitAfterPut(s: State, number: int, n: State)
    requires CausesHold(s) && ExitHolds(s) && RunNext(s, Puts(number)) == Some(n)
    ensures ExitHolds(n)
  {
    hide Decode, MainPut, SnapshotsTruthful, CausesHold, Apply;
    PutsAboutTheEnd(s, number);
    PutKeepsTheCauses(s, number, n);
    var line := MainPut(s, number).value.0;
    OneLineMore(s, n, line);
    LineAboutTheEnd(Decode(s.status), line);
    PutOwnerLossSaysSo(s);
    TruthLasts(s, n);
  }

  lemma PutOwnerLossSaysSo(s: State)
    requires CausesHold(s)
    ensures s.main.PutOwnerLoss? && s.waited.SawExit? && EndedBy(s.kernel.target, ByWatcher) ==> s.main.seen
    ensures s.main.PutOwnerLoss? ==> !s.waited.NotYet? && (LossAnnounced(s) && s.waited.SawExit? ==> EndedBy(s.kernel.target, ByWatcher))
  {
  }

  /** Which fields a line touches that are about the end of the target. */
  lemma LineAboutTheEnd(v: BoundaryStatus, line: Line)
    ensures Apply(v, line).childExitCode == if line.ChildExitCodeLine? then Some(line.exitCode) else v.childExitCode
    ensures Apply(v, line).terminatedByOwnerLoss
      == if line.TerminatedByOwnerLossLine? then line.lost else v.terminatedByOwnerLoss
  {
  }

  lemma PutKeepsTheCauses(s: State, number: int, n: State)
    requires CausesHold(s) && RunNext(s, Puts(number)) == Some(n)
    ensures CausesHold(n) && n.kernel == s.kernel && n.waited == s.waited && n.watcher == s.watcher
    ensures n.publishing == s.publishing && n.file == s.file
    ensures n.status == s.status + [MainPut(s, number).value.0]
  {
    hide MainPut, AfterExit, IsRefusing;
    PutsAboutTheEnd(s, number);
  }

  lemma ClosingEndsTheRest(k: Kernel)
    ensures
      var c := CloseJob(k);
      && (c.target == k.target || (TargetLives(k) && EndedBy(c.target, ByJobClose) && c.job.ClosedJob?))
      && (k.job.ClosedJob? ==> c.job.ClosedJob?)
  {
  }

  lemma ExitPlaces(m: MainPc, n: MainPc)
    ensures m.AwaitTarget? || m.StartPumps? ==> !AfterExit(m) && !IsRefusing(m)
    ensures n.AwaitTarget? ==> !AfterExit(n)
    ensures n.PutExit? || n.PutOwnerLoss? || n.Return? ==> AfterExit(n)
    ensures m.ReadFlag? || m.CloseHandles? ==> AfterExit(m) && !IsRefusing(m)
  {
  }

  lemma CausesAfterRun(s: State, step: RunStep, n: State)
    requires CausesHold(s) && RunNext(s, step) == Some(n) && !step.Puts?
    requires s.kernel.job.ClosedJob? ==> s.main.Return?
    ensures CausesHold(n) && (LossAnnounced(n) ==> LossAnnounced(s))
    ensures n.publishing == s.publishing && n.file == s.file && n.status == s.status
    ensures n.waited == s.waited || s.waited.NotYet?
    ensures EndedBy(n.kernel.target, ByWatcher) <==> EndedBy(s.kernel.target, ByWatcher)
  {
    hide MainPut, CloseJob, AfterExit, IsRefusing;
    ExitPlaces(s.main, n.main);
    if step.ClosesHandles? || step.Returns? {
      ClosingEndsTheRest(s.kernel);
    } else {
      assert n.kernel == s.kernel;
    }
  }

  lemma ExitAfterEnvironment(s: State, step: EnvironmentStep, n: State)
    requires LocksHold(s) && KernelHolds(s) && ExitHolds(s) && EnvironmentNext(s, step) == Some(n)
    ensures ExitHolds(n)
  {
    hide Decode, CausesHold, LossAnnounced, SnapshotsTruthful, EnvironmentNext;
    CausesAfterEnvironment(s, step, n);
    TruthLasts(s, n);
  }

  lemma ExitAfterPrepare(s: State, step: PrepareStep, n: State)
    requires LocksHold(s) && KernelHolds(s) && StartHolds(s) && ExitHolds(s) && PrepareNext(s, step) == Some(n)
    ensures ExitHolds(n)
  {
    hide Decode, LocksHold, KernelHolds, CausesHold, LossAnnounced, SnapshotsTruthful;
    CausesAfterPrepare(s, step, n);
    RequestLines(s);
    if step.MakesJob? { OneLineMore(s, n, JobHandleInheritableLine(false)); }
    TruthLasts(s, n);
  }

  lemma ExitAfterPlace(s: State, step: PlaceStep, n: State)
    requires LocksHold(s) && KernelHolds(s) && ExitHolds(s) && PlaceNext(s, step) == Some(n)
    ensures ExitHolds(n)
  {
    hide Decode, LocksHold, KernelHolds, CausesHold, LossAnnounced, SnapshotsTruthful, PlaceNext;
    CausesAfterPlace(s, step, n);
    TruthLasts(s, n);
  }

  lemma ExitAfterRun(s: State, step: RunStep, n: State)
    requires LocksHold(s) && KernelHolds(s) && ExitHolds(s) && RunNext(s, step) == Some(n) && s.helper.Up?
    ensures ExitHolds(n)
  {
    if step.Puts? {
      ExitAfterPut(s, step.number, n);
    } else {
      hide Decode, LocksHold, CausesHold, LossAnnounced, SnapshotsTruthful, RunNext;
      CausesAfterRun(s, step, n);
      TruthLasts(s, n);
    }
  }

  lemma ExitAfterFailure(s: State, step: FailureStep, n: State)
    requires LocksHold(s) && KernelHolds(s) && StartHolds(s) && ExitHolds(s) && FailureNext(s, step) == Some(n)
    ensures ExitHolds(n)
  {
    hide Decode, LocksHold, KernelHolds, CausesHold, LossAnnounced, SnapshotsTruthful;
    CausesAfterFailure(s, step, n);
    RequestLines(s);
    TruthLasts(s, n);
  }

  lemma ExitAfterSide(s: State, step: SideStep, n: State)
    requires LocksHold(s) && KernelHolds(s) && ExitHolds(s) && SideNext(s, step) == Some(n) && s.helper.Up?
    ensures ExitHolds(n)
  {
    hide Decode, LocksHold, KernelHolds, CausesHold, LossAnnounced, SnapshotsTruthful;
    CausesAfterSide(s, step, n);
    if step.WatcherPutsLoss? { OneLineMore(s, n, TerminatedByOwnerLossLine(true)); }
    if step.StdinEnds? { OneLineMore(s, n, StdinForwardLine(step.forward)); }
    TruthLasts(s, n);
  }

  lemma CausesAfterWriter(s: State, step: WriterStep, n: State)
    requires CausesHold(s) && WriterNext(s, step) == Some(n)
    ensures CausesHold(n) && (LossAnnounced(n) ==> LossAnnounced(s))
  {
    hide PastWrite, WritesStatus;
    WritesStayPastTheExit(s.main);
  }

  lemma WritesStayPastTheExit(m: MainPc)
    ensures (AfterExit(PastWrite(m)) <==> AfterExit(m)) && (IsRefusing(PastWrite(m)) <==> IsRefusing(m))
    ensures PastWrite(m).PutOwnerLoss? ==> PastWrite(m) == m
  {
  }

  lemma ExitAfterWriter(s: State, step: WriterStep, n: State)
    requires ExitHolds(s) && WriterNext(s, step) == Some(n)
    ensures ExitHolds(n)
  {
    hide Decode, CausesHold, PastWrite;
    CausesAfterWriter(s, step, n);
    assert Truthful(s, Decode(s.status));
  }

  // ------------------------------------------------- what a finished run reports

  /** How far the main thread has come on its way to a finished run. */
  function Stage(m: MainPc): nat {
    match m
    case MakeJob | ArmWatcher | TakeGate | CheckFlag | CreateTarget | PlaceTarget | LeaveGate | PutChildPid => 1
    case PutAssigned | Verify | PutVerified => 2
    case PutMembersAtStart | TakeResumeGate | ResumeTarget | PutStarted | LeaveResumeGate | PutOk => 3
    case EarlyWrite | StartPumps | AwaitTarget | PutExit => 4
    case ReadFlag | PutOwnerLoss(_) | PutMembersAtEnd | FinalWrite | CloseHandles | Return => 5
    case _ => 0
  }

  predicate Finishing(m: MainPc) { m.CloseHandles? || m.Return? }

  /** Where the main thread stands, this much is on the list. */
  ghost predicate Reported(s: State, v: BoundaryStatus) {
    && (Stage(s.main) >= 1 ==> v.nonce == Some(s.nonce) && v.helperPid == Some(s.helperPid))
    && (Stage(s.main) >= 2 ==> v.childPid.Some?)
    && (Stage(s.main) >= 3 ==> v.verifiedInJob)
    && (Stage(s.main) >= 4 ==> v.boundary == Some(BoundaryOk))
    && (Stage(s.main) >= 5 && s.waited.SawExit? ==> v.childExitCode == Some(Signed(s.waited.code)))
    && (v.terminatedByOwnerLoss ==> s.flag)
  }

  ghost predicate Delivered(s: State) {
    && (Finishing(s.main) && s.delivered ==> s.file.Published? && Reported(s, Decode(s.file.lines)))
    && (s.delivered ==> Finishing(s.main) || IsRefusing(s.main))
    && (s.publishing.Writes? && s.publishing.snapshot.Some? && (s.main.FinalWrite? || Finishing(s.main))
        && (Finishing(s.main) || s.publishing.writer.MainThread?) ==>
          Reported(s, Decode(s.publishing.snapshot.value)))
  }

  ghost predicate ReportHolds(s: State) {
    && Reported(s, Decode(s.status))
    && Delivered(s)
    && (s.helper.MainReturned? ==> ExitFor(s.main, s.flag) == Some(s.helper.code))
  }

  /** Nothing a thread other than the main one does takes a report back. */
  lemma ReportLasts(s: State, n: State)
    requires Delivered(s) && n.main == s.main && n.waited == s.waited && (s.flag ==> n.flag)
    requires n.nonce == s.nonce && n.helperPid == s.helperPid
    requires n.publishing == s.publishing && n.file == s.file && n.delivered == s.delivered
    ensures Delivered(n)
  {
  }

  lemma NothingToDeliverYet(s: State)
    requires !s.delivered && !s.main.FinalWrite? && !Finishing(s.main)
    ensures Delivered(s)
  {
  }

  lemma ReportCarries(s: State, n: State, v: BoundaryStatus)
    requires Reported(s, v) && Stage(n.main) <= Stage(s.main) && n.waited == s.waited && (s.flag ==> n.flag)
    requires n.nonce == s.nonce && n.helperPid == s.helperPid
    ensures Reported(n, v)
  {
  }

  lemma ReportAfterEnvironment(s: State, step: EnvironmentStep, n: State)
    requires ReportHolds(s) && EnvironmentNext(s, step) == Some(n)
    ensures ReportHolds(n)
  {
    hide Decode, Delivered, EndTarget, CloseJob, Stage;
    ReportLasts(s, n);
  }

  lemma PreparingOwesNothing(s: State, step: PrepareStep, n: State)
    requires Delivered(s) && PrepareNext(s, step) == Some(n)
    ensures !n.delivered && !n.main.FinalWrite? && !Finishing(n.main) && n.helper == s.helper
  {
    hide Decode, Reported;
  }

  lemma ReadingReports(s: State, n: State)
    requires PrepareNext(s, ReadsRequest) == Some(n)
    ensures Reported(n, Decode(n.status))
  {
    RequestLines(s);
    hide Decode;
  }

  lemma PreparingKeepsTheStage(s: State, step: PrepareStep, n: State)
    requires PrepareNext(s, step) == Some(n) && !step.ReadsRequest?
    ensures Stage(n.main) <= Stage(s.main) && n.waited == s.waited && n.flag == s.flag
    ensures n.nonce == s.nonce && n.helperPid == s.helperPid
    ensures n.status == if step.MakesJob? then s.status + [JobHandleInheritableLine(false)] else s.status
  {
  }

  /** What was reported still is, from no later a place and with nothing more to report. */
  lemma ReportedFromNoLater(s: State, n: State, v: BoundaryStatus, w: BoundaryStatus)
    requires Reported(s, v) && Stage(n.main) <= Stage(s.main) && n.waited == s.waited && n.flag == s.flag
    requires n.nonce == s.nonce && n.helperPid == s.helperPid && w == v.(jobHandleInheritable := w.jobHandleInheritable)
    ensures Reported(n, w)
  {
    hide Stage;
  }

  lemma PreparingReports(s: State, step: PrepareStep, n: State)
    requires Reported(s, Decode(s.status)) && PrepareNext(s, step) == Some(n)
    ensures Reported(n, Decode(n.status))
  {
    hide Decode, Stage, Reported;
    if step.ReadsRequest? {
      ReadingReports(s, n);
    } else {
      PreparingKeepsTheStage(s, step, n);
      hide PrepareNext;
      if step.MakesJob? { OneLineMore(s, n, JobHandleInheritableLine(false)); }
      ReportedFromNoLater(s, n, Decode(s.status), Decode(n.status));
    }
  }

  lemma ReportAfterPrepare(s: State, step: PrepareStep, n: State)
    requires StartHolds(s) && ReportHolds(s) && PrepareNext(s, step) == Some(n) && s.helper.Up?
    ensures ReportHolds(n)
  {
    hide Decode, StartHolds, Delivered, Reported;
    RequestLines(s);
    PreparingReports(s, step, n);
    PreparingOwesNothing(s, step, n);
    NothingToDeliverYet(n);
  }

  lemma PlacingOwesNothing(s: State, step: PlaceStep, n: State)
    requires PlaceNext(s, step) == Some(n)
    ensures Stage(n.main) <= Stage(s.main) && !Finishing(s.main) && !IsRefusing(s.main)
    ensures !n.main.FinalWrite? && !Finishing(n.main)
    ensures n.waited == s.waited && n.flag == s.flag && n.nonce == s.nonce && n.helperPid == s.helperPid
    ensures n.status == s.status && n.delivered == s.delivered && n.helper == s.helper
  {
    PlacingKeepsTheStage(s, step, n);
    PlacementIsEarly(s, step, n);
    PlacingMoves(s, step, n);
    hide Stage, IsRefusing;
  }

  lemma PlacingKeepsTheStage(s: State, step: PlaceStep, n: State)
    requires PlaceNext(s, step) == Some(n)
    ensures Stage(n.main) <= Stage(s.main)
  {
    PlacingMoves(s, step, n);
    hide PlaceNext;
  }

  lemma ReportAfterPlace(s: State, step: PlaceStep, n: State)
    requires ReportHolds(s) && PlaceNext(s, step) == Some(n) && s.helper.Up?
    ensures ReportHolds(n)
  {
    hide Decode, Reported, PlaceNext, Stage, IsRefusing, Finishing;
    PlacingOwesNothing(s, step, n);
    ReportCarries(s, n, Decode(s.status));
    NothingToDeliverYet(n);
  }

  /** A thread on its way out with a refusal owes the list nothing more. */
  lemma RefusalOwesNothing(s: State, n: State)
    requires n.main.PutFailed? && n.flag == s.flag && Reported(s, Decode(s.status))
    requires n.status == s.status || !Decode(n.status).terminatedByOwnerLoss
    ensures Reported(n, Decode(n.status)) && Delivered(n)
  {
    hide Decode;
  }

  lemma ReportAfterFailure(s: State, step: FailureStep, n: State)
    requires StartHolds(s) && ReportHolds(s) && FailureNext(s, step) == Some(n) && s.helper.Up?
    ensures ReportHolds(n)
  {
    hide Decode, MayRefuse, TerminateJob, EndTarget, Reported, Delivered;
    RequestLines(s);
    RefusalOwesNothing(s, n);
  }

  lemma ReportAfterSide(s: State, step: SideStep, n: State)
    requires LocksHold(s) && ReportHolds(s) && SideNext(s, step) == Some(n) && s.helper.Up?
    ensures ReportHolds(n)
  {
    hide Decode, Delivered, TerminateJob, CloseJob, Stage, AfterPumps, MainHoldsGate;
    if step.WatcherPutsLoss? { OneLineMore(s, n, TerminatedByOwnerLossLine(true)); }
    if step.StdinEnds? { OneLineMore(s, n, StdinForwardLine(step.forward)); }
    ReportLasts(s, n);
  }

  lemma PutsReport(s: State, number: int)
    requires MainPut(s, number).Some?
    ensures
      var (line, m) := MainPut(s, number).value;
      && (Stage(m) == Stage(s.main)
          || (Stage(m) == 2 == Stage(s.main) + 1 && line.ChildPidLine?)
          || (Stage(m) == 3 == Stage(s.main) + 1 && line.VerifiedInJobLine?)
          || (Stage(m) == 4 == Stage(s.main) + 1 && line.BoundaryOkLine?)
          || (Stage(m) == 5 == Stage(s.main) + 1
              && (s.waited.SawExit? ==> line == ChildExitCodeLine(Signed(s.waited.code)))))
      && !line.NonceLine? && !line.HelperPidLine?
      && (line.ChildExitCodeLine? ==> Stage(m) == Stage(s.main) + 1)
      && (line.BoundaryFailedLine? ==> Stage(m) == 0)
      && (line.TerminatedByOwnerLossLine? ==> s.main.PutOwnerLoss? && line.lost == s.main.seen)
      && (IsRefusing(m) <==> IsRefusing(s.main)) && !Finishing(m) && !Finishing(s.main)
      && !WritesStatus(s, MainThread)
  {
  }

  /** What one line can and cannot do to a report. */
  lemma LinesReport(v: BoundaryStatus, line: Line)
    ensures
      var w := Apply(v, line);
      && (!line.NonceLine? && !line.HelperPidLine? ==> w.nonce == v.nonce && w.helperPid == v.helperPid)
      && (v.childPid.Some? || line.ChildPidLine? ==> w.childPid.Some?)
      && (v.verifiedInJob || line.VerifiedInJobLine? ==> w.verifiedInJob)
      && (!line.BoundaryFailedLine? && !line.BoundaryOkLine? ==> w.boundary == v.boundary)
      && (line.BoundaryOkLine? ==> w.boundary == Some(BoundaryOk))
      && (if line.ChildExitCodeLine? then w.childExitCode == Some(line.exitCode) else w.childExitCode == v.childExitCode)
      && (w.terminatedByOwnerLoss ==>
            v.terminatedByOwnerLoss || (line.TerminatedByOwnerLossLine? && line.lost))
  {
  }

  lemma DeliveryAfterPut(s: State, number: int, n: State)
    requires LocksHold(s) && Delivered(s) && RunNext(s, Puts(number)) == Some(n)
    ensures Delivered(n)
  {
    hide Decode, MainPut, Reported, IsRefusing, Finishing, WritesStatus;
    PutsReport(s, number);
  }

  lemma ReportAfterPut(s: State, number: int, n: State)
    requires LocksHold(s) && ReportHolds(s) && RunNext(s, Puts(number)) == Some(n) && s.helper.Up?
    ensures ReportHolds(n)
  {
    hide Decode, MainPut, Stage, IsRefusing, Finishing, Delivered, Apply;
    DeliveryAfterPut(s, number, n);
    PutsReport(s, number);
    LinesReport(Decode(s.status), MainPut(s, number).value.0);
    OneLineMore(s, n, MainPut(s, number).value.0);
  }

  lemma RunsReport(s: State, step: RunStep, n: State)
    requires RunNext(s, step) == Some(n) && !step.Puts? && s.helper.Up?
    ensures Stage(n.main) <= Stage(s.main) && (n.waited == s.waited || Stage(s.main) == 4)
    ensures (IsRefusing(n.main) <==> IsRefusing(s.main)) && (Finishing(n.main) <==> Finishing(s.main))
    ensures !s.main.FinalWrite? && !n.main.FinalWrite?
    ensures n.helper.MainReturned? ==> ExitFor(n.main, n.flag) == Some(n.helper.code)
    ensures n.nonce == s.nonce && n.helperPid == s.helperPid && n.flag == s.flag && n.status == s.status
    ensures n.publishing == s.publishing && n.file == s.file && n.delivered == s.delivered
    ensures Finishing(n.main) ==> n.waited == s.waited && Stage(n.main) == Stage(s.main)
  {
    hide CloseJob, MainPut;
    match step
    case StartsPumps | SeesExit | CannotSeeExit =>
      assert Stage(n.main) == Stage(s.main) == 4;
    case ReadsFlag | ClosesHandles =>
      assert Stage(n.main) == Stage(s.main) == 5;
    case Returns =>
      assert n.main == s.main;
  }

  lemma ReportAfterRun(s: State, step: RunStep, n: State)
    requires LocksHold(s) && ReportHolds(s) && RunNext(s, step) == Some(n) && s.helper.Up?
    ensures ReportHolds(n)
  {
    if step.Puts? {
      ReportAfterPut(s, step.number, n);
    } else {
      hide Decode, LocksHold, RunNext, Stage, IsRefusing, Finishing;
      RunsReport(s, step, n);
    }
  }

  lemma WritesReport(m: MainPc)
    ensures
      var n := PastWrite(m);
      && Stage(n) == Stage(m) && (IsRefusing(n) <==> IsRefusing(m)) && !n.FinalWrite?
      && (Finishing(n) <==> Finishing(m) || m.FinalWrite?)
      && (m.FinalWrite? ==> !IsRefusing(m) && !Finishing(m))
  {
  }

  lemma ReportAfterWriter(s: State, step: WriterStep, n: State)
    requires LocksHold(s) && ReportHolds(s) && WriterNext(s, step) == Some(n) && s.helper.Up?
    ensures ReportHolds(n)
  {
    hide Decode, Stage, PastWrite, IsRefusing;
    WritesReport(s.main);
  }
}
