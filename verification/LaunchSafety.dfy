/**
 * What every run of the launch helper keeps, and what it means for the reader: no
 * interleaving makes a killed run look like a finished one, nothing outlives the helper,
 * and no report says "nothing ran" over a process that ran.
 */
module LaunchSafety {
  import opened Base
  import opened LaunchBoundary
  import opened LaunchProtocol

  // ------------------------------------------------------------ locks and order

  /** Before the target exists, and after it may no longer be created. */
  predicate BeforeCreation(m: MainPc) {
    m.ReadRequest? || m.MakeJob? || m.ArmWatcher? || m.TakeGate? || m.CheckFlag? || m.CreateTarget?
  }

  predicate AfterPumps(m: MainPc) {
    m.AwaitTarget? || m.PutExit? || m.ReadFlag? || m.PutOwnerLoss? || m.PutMembersAtEnd?
    || m.FinalWrite? || m.CloseHandles? || m.Return?
  }

  /** From here on the target has been allowed to run and the list says so. */
  predicate AfterStart(m: MainPc) {
    m.LeaveResumeGate? || m.PutOk? || m.EarlyWrite? || m.StartPumps? || AfterPumps(m)
  }

  ghost predicate LocksHold(s: State) {
    && (s.gate.MainInside? <==> MainHoldsGate(s.main))
    && (s.gate.WatcherInside? <==> WatcherHoldsGate(s.watcher))
    && (s.publishing.Writes? ==> WritesStatus(s, s.publishing.writer))
    && (!s.stdin.NotStarted? ==> AfterPumps(s.main) || IsRefusing(s.main))
    && (!s.watcher.Unarmed? ==> !s.main.ReadRequest? && !s.main.MakeJob? && !s.main.ArmWatcher?)
    && (s.flag <==> s.watcher.PutLoss? || s.watcher.EndJob? || s.watcher.WatcherWrite? || s.watcher.ExitHelper?)
    && (s.main.PutOwnerLoss? && s.main.seen ==> s.flag)
    && (s.helper.WatcherExited? ==> s.watcher.ExitHelper?)
    && (s.helper.MainReturned? ==> s.main.Return? || s.main.RefusalReturn?)
  }

  lemma LocksAfterEnvironment(s: State, step: EnvironmentStep, n: State)
    requires LocksHold(s) && EnvironmentNext(s, step) == Some(n)
    ensures LocksHold(n)
  {
  }

  lemma LocksAfterPrepare(s: State, step: PrepareStep, n: State)
    requires LocksHold(s) && PrepareNext(s, step) == Some(n) && s.helper.Up?
    ensures LocksHold(n)
  {
  }

  lemma LocksAfterPlace(s: State, step: PlaceStep, n: State)
    requires LocksHold(s) && PlaceNext(s, step) == Some(n) && s.helper.Up?
    ensures LocksHold(n)
  {
  }

  lemma LocksAfterRun(s: State, step: RunStep, n: State)
    requires LocksHold(s) && RunNext(s, step) == Some(n) && s.helper.Up?
    ensures LocksHold(n)
  {
    hide MainPut;
    if step.Puts? { PutsKeepThePlace(s, step.number); }
  }

  lemma LocksAfterFailure(s: State, step: FailureStep, n: State)
    requires LocksHold(s) && FailureNext(s, step) == Some(n) && s.helper.Up?
    ensures LocksHold(n)
  {
    hide MayRefuse;
  }

  lemma LocksAfterSide(s: State, step: SideStep, n: State)
    requires LocksHold(s) && SideNext(s, step) == Some(n) && s.helper.Up?
    ensures LocksHold(n)
  {
  }

  lemma WritesKeepTheLocks(m: MainPc)
    ensures
      var n := PastWrite(m);
      && (MainHoldsGate(n) <==> MainHoldsGate(m)) && (IsRefusing(n) <==> IsRefusing(m))
      && (AfterPumps(m) ==> AfterPumps(n)) && (n.PutOwnerLoss? ==> n == m)
      && !(n.ReadRequest? && !m.ReadRequest?) && !(n.MakeJob? && !m.MakeJob?) && !(n.ArmWatcher? && !m.ArmWatcher?)
  {
  }

  lemma LocksAfterWriter(s: State, step: WriterStep, n: State)
    requires LocksHold(s) && WriterNext(s, step) == Some(n) && s.helper.Up?
    ensures LocksHold(n)
  {
    hide PastWrite, MainHoldsGate, IsRefusing, AfterPumps;
    WritesKeepTheLocks(s.main);
  }

  // -------------------------------------------------------------------- kernel

  /** Nothing the target could have started is outside the job. */
  ghost predicate KernelHolds(s: State) {
    var k := s.kernel;
    && (BeforeCreation(s.main) ==> k.target.NoTarget?)
    && (!BeforeCreation(s.main) && !IsRefusing(s.main) ==> !k.target.NoTarget? && !k.job.NoJob?)
    && (k.target.NoTarget? ==> !s.executed && k.alive == {} && k.inJob == {})
    && (s.main.ArmWatcher? || s.main.TakeGate? || s.main.CheckFlag? || s.main.CreateTarget? ==> !k.job.NoJob?)
    && (!k.target.NoTarget? ==> !k.job.NoJob?)
    && (k.job.ClosedJob? ==> !s.helper.Up? || s.main.Return?)
    && (!s.helper.Up? ==> !k.job.OpenJob?)
    && (k.job.ClosedJob? ==> k.alive !! k.inJob)
    && (k.target.Held? ==> !s.executed && k.alive == {k.target.pid})
    && (k.target.Held? && k.target.pid !in k.inJob ==> s.main.PlaceTarget? && s.mode.SuspendedMode?)
    && (k.target.Running? ==> s.executed && k.target.pid in k.alive && k.target.pid in k.inJob)
    && (k.target.Dead? ==> k.target.pid !in k.alive)
    && (!k.target.Held? ==> k.alive <= k.inJob)
    && (s.main.PlaceTarget? && s.mode.SuspendedMode? ==> !s.executed)
    && (IsRefusing(s.main) && PrecedesTarget(s.main.why) ==> k.target.NoTarget?)
    && (!s.executed ==> !k.target.Running? && (k.target.Held? || k.alive == {}))
  }

  lemma KernelAfterEnvironment(s: State, step: EnvironmentStep, n: State)
    requires LocksHold(s) && KernelHolds(s) && EnvironmentNext(s, step) == Some(n)
    ensures KernelHolds(n)
  {
  }

  lemma KernelAfterPrepare(s: State, step: PrepareStep, n: State)
    requires LocksHold(s) && KernelHolds(s) && PrepareNext(s, step) == Some(n) && s.helper.Up?
    ensures KernelHolds(n)
  {
  }

  lemma KernelAfterPlace(s: State, step: PlaceStep, n: State)
    requires LocksHold(s) && KernelHolds(s) && PlaceNext(s, step) == Some(n) && s.helper.Up?
    ensures KernelHolds(n)
  {
  }

  lemma KernelAfterRun(s: State, step: RunStep, n: State)
    requires LocksHold(s) && KernelHolds(s) && RunNext(s, step) == Some(n) && s.helper.Up?
    ensures KernelHolds(n)
  {
    hide MainPut;
    if step.Puts? { PutsKeepThePlace(s, step.number); }
  }

  /** What a failing step does, whichever it is: it only ever ends processes, and leaves with a refusal. */
  lemma FailuresRefuse(s: State, step: FailureStep, n: State)
    requires FailureNext(s, step) == Some(n)
    ensures n.main.PutFailed? && !s.main.Return? && !s.main.PutStarted? && !IsRefusing(s.main)
    ensures PrecedesTarget(n.main.why) ==> BeforeCreation(s.main)
    ensures s.main.PlaceTarget? ==> s.mode.SuspendedMode?
    ensures s.main.PlaceTarget? && TargetLives(s.kernel) ==> n.kernel == EndTarget(s.kernel, KILL_CODE, ByRefusal)
    ensures n.kernel == s.kernel || (TargetLives(s.kernel) && n.kernel == EndTarget(s.kernel, KILL_CODE, ByRefusal))
      || n.kernel == TerminateJob(s.kernel, ByRefusal)
    ensures n.executed == s.executed && n.helper == s.helper && n.mode == s.mode && n.stdin == s.stdin
    ensures n.publishing == s.publishing && n.file == s.file
    ensures s.gate.WatcherInside? ==> n.gate.WatcherInside?
    ensures n.status == s.status || (s.main.ReadRequest? && (n.status == [] || n.status == [NonceLine(s.nonce)]))
  {
    hide MayRefuse, EndTarget, TerminateJob;
  }

  lemma KernelAfterFailure(s: State, step: FailureStep, n: State)
    requires LocksHold(s) && KernelHolds(s) && FailureNext(s, step) == Some(n) && s.helper.Up?
    ensures KernelHolds(n)
  {
    hide FailureNext, LocksHold;
    FailuresRefuse(s, step, n);
  }

  lemma KernelAfterSide(s: State, step: SideStep, n: State)
    requires LocksHold(s) && KernelHolds(s) && SideNext(s, step) == Some(n) && s.helper.Up?
    ensures KernelHolds(n)
  {
  }

  /** Writing the status moves its writer on and leaves everything the kernel knows alone. */
  lemma WritersMoveOn(s: State, step: WriterStep, n: State)
    requires WriterNext(s, step) == Some(n)
    ensures n.kernel == s.kernel && n.executed == s.executed && n.mode == s.mode && n.helper == s.helper
    ensures n.main == s.main || n.main == PastWrite(s.main)
  {
    hide PastWrite, WritesStatus;
  }

  lemma KernelAfterWriter(s: State, step: WriterStep, n: State)
    requires KernelHolds(s) && WriterNext(s, step) == Some(n) && s.helper.Up?
    ensures KernelHolds(n)
  {
    hide WriterNext, PastWrite, IsRefusing, BeforeCreation;
    WritersMoveOn(s, step, n);
    WritesKeepThePlace(s.main);
  }

  lemma WritesKeepThePlace(m: MainPc)
    ensures
      var n := PastWrite(m);
      && (MainHoldsGate(n) <==> MainHoldsGate(m)) && (IsRefusing(n) <==> IsRefusing(m))
      && (IsRefusing(n) ==> n.why == m.why)
      && (BeforeCreation(n) <==> BeforeCreation(m)) && (AfterPumps(m) ==> AfterPumps(n))
      && (AfterStart(n) <==> AfterStart(m))
      && (m.ReadRequest? ==> !AfterPumps(m) && !IsRefusing(m))
      && (n == m || ((m.EarlyWrite? && n.StartPumps?) || (m.FinalWrite? && n.CloseHandles?)
                     || (m.RefusalWrite? && n.RefusalReturn?)))
  {
  }

  lemma PutsKeepThePlace(s: State, number: int)
    requires MainPut(s, number).Some?
    ensures
      var m := MainPut(s, number).value.1;
      && !BeforeCreation(s.main) && !BeforeCreation(m) && !m.Return?
      && (IsRefusing(m) <==> IsRefusing(s.main)) && (IsRefusing(m) ==> m.why == s.main.why)
      && (s.main.PlaceTarget? ==> s.mode.JobListMode?) && !m.PlaceTarget?
      && (MainHoldsGate(m) <==> MainHoldsGate(s.main)) && !m.PutOwnerLoss?
      && (AfterPumps(s.main) ==> AfterPumps(m))
      && !s.main.Return? && !s.main.EarlyWrite? && !s.main.FinalWrite? && !s.main.RefusalWrite?
  {
  }

  // ------------------------------------------------- what the status list records

  lemma RequestLines(s: State)
    ensures Decode([]) == EmptyStatus
    ensures Decode([NonceLine(s.nonce)]) == EmptyStatus.(nonce := Some(s.nonce))
    ensures Decode([NonceLine(s.nonce), HelperPidLine(s.helperPid), ModeLine(s.mode)])
      == EmptyStatus.(nonce := Some(s.nonce), helperPid := Some(s.helperPid), mode := Some(s.mode))
  {
    var named := [NonceLine(s.nonce)];
    DecodeAppend([], NonceLine(s.nonce));
    assert [] + named == named;
    DecodeAppend(named, HelperPidLine(s.helperPid));
    assert named + [HelperPidLine(s.helperPid)] == [NonceLine(s.nonce), HelperPidLine(s.helperPid)];
    DecodeAppend(named + [HelperPidLine(s.helperPid)], ModeLine(s.mode));
    assert named + [HelperPidLine(s.helperPid)] + [ModeLine(s.mode)]
        == [NonceLine(s.nonce), HelperPidLine(s.helperPid), ModeLine(s.mode)];
  }

  lemma OneLineMore(s: State, n: State, line: Line)
    requires n.status == s.status + [line]
    ensures s.status <= n.status && Decode(n.status) == Apply(Decode(s.status), line)
  {
    DecodeAppend(s.status, line);
  }

  /** The point from which the list must say that the target may execute. */
  predicate MustSayStarted(s: State) {
    || AfterStart(s.main) || !s.stdin.NotStarted?
    || (s.mode.JobListMode?
        && (s.main.LeaveGate? || s.main.PutChildPid? || s.main.PutAssigned? || s.main.Verify?
            || s.main.PutVerified? || s.main.PutMembersAtStart?))
  }

  /** The target has not been let go and never will be. */
  predicate NeverStarts(s: State) {
    !s.executed && (IsRefusing(s.main) || s.gate.WatcherInside?)
  }

  /** A snapshot a reader may see: an earlier state of the list that hides no start. */
  ghost predicate Honest(s: State, lines: seq<Line>) {
    lines <= s.status && (Decode(lines).targetStarted || NeverStarts(s))
  }

  ghost predicate SnapshotsHonest(s: State) {
    && (s.publishing.Writes? && s.publishing.snapshot.Some? ==> Honest(s, s.publishing.snapshot.value))
    && (s.file.Published? ==> Honest(s, s.file.lines))
    && (s.file.Published? && s.publishing.Writes? && s.publishing.snapshot.Some? ==>
          s.file.lines <= s.publishing.snapshot.value)
  }

  ghost predicate StartHolds(s: State) {
    && (MustSayStarted(s) ==> Decode(s.status).targetStarted)
    && (s.executed && !Decode(s.status).targetStarted ==> s.main.PlaceTarget? || s.main.PutStarted?)
    && (s.main.ReadRequest? ==> s.status == [] && s.file.LeftBehind?)
    && SnapshotsHonest(s)
  }

  lemma HonestyLasts(s: State, n: State)
    requires SnapshotsHonest(s) && n.publishing == s.publishing && n.file == s.file
    requires s.status <= n.status && (NeverStarts(s) ==> NeverStarts(n))
    ensures SnapshotsHonest(n)
  {
  }

  lemma StartAfterEnvironment(s: State, step: EnvironmentStep, n: State)
    requires LocksHold(s) && KernelHolds(s) && StartHolds(s) && EnvironmentNext(s, step) == Some(n)
    ensures StartHolds(n)
  {
    hide Decode, CloseJob, EndTarget, SnapshotsHonest;
    HonestyLasts(s, n);
  }

  lemma PreparingStartsNothing(s: State, step: PrepareStep, n: State)
    requires LocksHold(s) && KernelHolds(s) && PrepareNext(s, step) == Some(n)
    ensures !MustSayStarted(n) && n.executed == s.executed && (NeverStarts(s) ==> NeverStarts(n))
    ensures !s.main.PlaceTarget? && !s.main.PutStarted? && !n.main.ReadRequest?
    ensures n.publishing == s.publishing && n.file == s.file
  {
  }

  lemma StartAfterPrepare(s: State, step: PrepareStep, n: State)
    requires LocksHold(s) && KernelHolds(s) && StartHolds(s) && PrepareNext(s, step) == Some(n) && s.helper.Up?
    ensures StartHolds(n)
  {
    hide Decode, SnapshotsHonest, LocksHold, KernelHolds, MustSayStarted, NeverStarts;
    PreparingStartsNothing(s, step, n);
    RequestLines(s);
    if step.MakesJob? { OneLineMore(s, n, JobHandleInheritableLine(false)); }
    HonestyLasts(s, n);
  }

  lemma PlacingIsRecorded(s: State, step: PlaceStep, n: State)
    requires LocksHold(s) && KernelHolds(s) && PlaceNext(s, step) == Some(n)
    ensures MustSayStarted(n) ==> MustSayStarted(s)
    ensures s.main.PlaceTarget? ==> !s.executed
    ensures !s.main.PutStarted? && !n.main.ReadRequest? && (NeverStarts(s) ==> NeverStarts(n))
    ensures n.executed && !s.executed ==> n.main.PlaceTarget? || n.main.PutStarted?
    ensures n.publishing == s.publishing && n.file == s.file && n.status == s.status
  {
  }

  lemma StartAfterPlace(s: State, step: PlaceStep, n: State)
    requires LocksHold(s) && KernelHolds(s) && StartHolds(s) && PlaceNext(s, step) == Some(n) && s.helper.Up?
    ensures StartHolds(n)
  {
    hide Decode, SnapshotsHonest, LocksHold, KernelHolds, MustSayStarted, NeverStarts, PlaceNext;
    PlacingIsRecorded(s, step, n);
    HonestyLasts(s, n);
  }

  lemma PutsSayStarted(s: State, number: int, n: State)
    requires RunNext(s, Puts(number)) == Some(n)
    ensures
      var line := MainPut(s, number).value.0;
      && (MustSayStarted(n) ==> MustSayStarted(s) || line.TargetStartedLine?)
      && (s.main.PlaceTarget? || s.main.PutStarted? ==> line.TargetStartedLine?)
      && (NeverStarts(s) ==> NeverStarts(n)) && !n.main.ReadRequest?
      && n.status == s.status + [line] && n.executed == s.executed
      && n.publishing == s.publishing && n.file == s.file
  {
  }

  lemma StartAfterPut(s: State, number: int, n: State)
    requires StartHolds(s) && RunNext(s, Puts(number)) == Some(n)
    ensures StartHolds(n)
  {
    hide Decode, MainPut, MustSayStarted, NeverStarts, SnapshotsHonest;
    PutsSayStarted(s, number, n);
    hide RunNext;
    OneLineMore(s, n, MainPut(s, number).value.0);
    HonestyLasts(s, n);
  }

  lemma RunningIsRecorded(s: State, step: RunStep, n: State)
    requires LocksHold(s) && RunNext(s, step) == Some(n) && !step.Puts?
    ensures MustSayStarted(n) ==> MustSayStarted(s)
    ensures !s.main.PlaceTarget? && !s.main.PutStarted? && !n.main.ReadRequest? && (NeverStarts(s) ==> NeverStarts(n))
    ensures n.publishing == s.publishing && n.file == s.file && n.status == s.status && n.executed == s.executed
  {
  }

  lemma StartAfterRun(s: State, step: RunStep, n: State)
    requires LocksHold(s) && KernelHolds(s) && StartHolds(s) && RunNext(s, step) == Some(n) && s.helper.Up?
    ensures StartHolds(n)
  {
    if step.Puts? {
      StartAfterPut(s, step.number, n);
    } else {
      hide Decode, SnapshotsHonest, LocksHold, KernelHolds, MustSayStarted, NeverStarts, RunNext;
      RunningIsRecorded(s, step, n);
      HonestyLasts(s, n);
    }
  }

  lemma StartAfterFailure(s: State, step: FailureStep, n: State)
    requires LocksHold(s) && KernelHolds(s) && StartHolds(s) && FailureNext(s, step) == Some(n) && s.helper.Up?
    ensures StartHolds(n)
  {
    hide Decode, SnapshotsHonest, FailureNext, LocksHold, TerminateJob, EndTarget;
    FailuresRefuse(s, step, n);
    RequestLines(s);
    HonestyLasts(s, n);
  }

  lemma StartAfterSide(s: State, step: SideStep, n: State)
    requires LocksHold(s) && KernelHolds(s) && StartHolds(s) && SideNext(s, step) == Some(n) && s.helper.Up?
    ensures StartHolds(n)
  {
    hide Decode, CloseJob, TerminateJob, SnapshotsHonest;
    if step.WatcherPutsLoss? { OneLineMore(s, n, TerminatedByOwnerLossLine(true)); }
    if step.StdinEnds? { OneLineMore(s, n, StdinForwardLine(step.forward)); }
    HonestyLasts(s, n);
  }

  /** A snapshot taken once the target may execute says so, whoever takes it. */
  lemma SnapshotIsHonest(s: State)
    requires LocksHold(s) && KernelHolds(s) && StartHolds(s) && s.publishing.Writes?
    ensures s.executed ==> Decode(s.status).targetStarted
    ensures Honest(s, s.status)
  {
    hide Decode, SnapshotsHonest;
  }

  lemma SnapshotsStayHonest(s: State, step: WriterStep, n: State)
    requires LocksHold(s) && KernelHolds(s) && StartHolds(s) && WriterNext(s, step) == Some(n) && s.helper.Up?
    ensures SnapshotsHonest(n)
  {
    hide Decode, LocksHold, KernelHolds, PastWrite, IsRefusing;
    WritesKeepThePlace(s.main);
    if s.publishing.Writes? { SnapshotIsHonest(s); }
  }

  lemma StartAfterWriter(s: State, step: WriterStep, n: State)
    requires LocksHold(s) && KernelHolds(s) && StartHolds(s) && WriterNext(s, step) == Some(n) && s.helper.Up?
    ensures StartHolds(n)
  {
    hide Decode, SnapshotsHonest, PastWrite, IsRefusing, AfterPumps, AfterStart;
    WritesKeepThePlace(s.main);
    SnapshotsStayHonest(s, step, n);
  }

}
