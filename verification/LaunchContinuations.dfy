/**
 * What the launch helper can always still do: its two locks never keep the watcher from
 * ending an ownerless launch, every refusal can be raised and is then reported under its
 * own name, and the end of the input is put on record.
 */
module LaunchContinuations {
  import opened Base
  import opened LaunchBoundary
  import opened LaunchProtocol
  import opened LaunchSafety
  import opened LaunchEndings
  import opened LaunchRuns
  import opened LaunchCompletions

  // ------------------------------------------------------------ the locks come free

  /** Whoever is writing the status can give up on it. */
  lemma StatusComesFree(start: State, before: seq<Action>, s0: State) returns (actions: seq<Action>, s: State)
    requires RunFrom(start, before) == Some(s0) && s0.helper.Up? && s0.publishing.Writes?
    ensures RunFrom(start, actions) == Some(s)
    ensures s == AfterWrite(s0, s0.publishing.writer, s0.file, s0.delivered)
  {
    hide RunFrom, EnvironmentNext, PrepareNext, PlaceNext, FailureNext, SideNext, RunNext;
    actions, s := Take(start, before, s0, Writer(Drops));
  }

  /** The main thread has left the gate, and the watcher and the status lock are as they were. */
  ghost predicate GateLeft(s0: State, s: State) {
    s.helper.Up? && s.gate.Open? && s.watcher == s0.watcher && s.publishing == s0.publishing
  }

  lemma LeavesTheGate(start: State, before: seq<Action>, s0: State) returns (actions: seq<Action>, s: State)
    requires RunFrom(start, before) == Some(s0) && s0.helper.Up? && (s0.main.LeaveGate? || s0.main.LeaveResumeGate?)
    ensures RunFrom(start, actions) == Some(s) && GateLeft(s0, s)
  {
    hide RunFrom, EnvironmentNext, PrepareNext, FailureNext, SideNext, WriterNext, RunNext;
    actions, s := Take(start, before, s0, Place(LeavesGate));
  }

  lemma GivesUpCreating(start: State, before: seq<Action>, s0: State) returns (actions: seq<Action>, s: State)
    requires RunFrom(start, before) == Some(s0) && s0.helper.Up? && s0.main.CreateTarget? && s0.gate.MainInside?
    ensures RunFrom(start, actions) == Some(s) && GateLeft(s0, s)
  {
    hide RunFrom, EnvironmentNext, PrepareNext, PlaceNext, SideNext, WriterNext, RunNext;
    actions, s := Take(start, before, s0, Failure(Refuses(CreateFailed)));
  }

  lemma GivesUpResuming(start: State, before: seq<Action>, s0: State) returns (actions: seq<Action>, s: State)
    requires RunFrom(start, before) == Some(s0) && s0.helper.Up? && s0.main.ResumeTarget? && s0.gate.MainInside?
    ensures RunFrom(start, actions) == Some(s) && GateLeft(s0, s)
  {
    hide RunFrom, EnvironmentNext, PrepareNext, PlaceNext, SideNext, WriterNext, RunNext, TerminateJob;
    actions, s := Take(start, before, s0, Failure(ResumeFails));
  }

  lemma ChecksTheFlag(start: State, before: seq<Action>, s0: State) returns (actions: seq<Action>, s: State)
    requires RunFrom(start, before) == Some(s0) && s0.helper.Up? && s0.main.CheckFlag? && s0.gate.MainInside?
    ensures RunFrom(start, actions) == Some(s) && s.helper.Up?
    ensures s.watcher == s0.watcher && s.publishing == s0.publishing
    ensures s.gate.Open? || (s.main.CreateTarget? && s.gate.MainInside?)
  {
    hide RunFrom, EnvironmentNext, PlaceNext, FailureNext, SideNext, WriterNext, RunNext;
    actions, s := Take(start, before, s0, Prepare(ChecksFlag));
  }

  lemma Places(start: State, before: seq<Action>, s0: State) returns (actions: seq<Action>, s: State)
    requires RunFrom(start, before) == Some(s0) && s0.helper.Up? && s0.main.PlaceTarget? && !s0.kernel.target.NoTarget?
    ensures RunFrom(start, actions) == Some(s) && s.helper.Up? && s.main.LeaveGate?
    ensures s.watcher == s0.watcher && s.publishing == s0.publishing
  {
    hide RunFrom, EnvironmentNext, PrepareNext, FailureNext, SideNext, WriterNext, RunNext;
    if s0.mode.JobListMode? {
      actions, s := Put(start, before, s0, LeaveGate);
    } else {
      actions, s := Take(start, before, s0, Place(Assigns));
    }
  }

  lemma HasATarget(s: State)
    requires Reachable(s) && s.main.PlaceTarget?
    ensures !s.kernel.target.NoTarget?
  {
    hide Reachable, ExitHolds, ReportHolds, StartHolds, LocksHold;
    ReachableHolds(s);
  }

  lemma GateComesFree(start: State, before: seq<Action>, s0: State) returns (actions: seq<Action>, s: State)
    requires Init(start) && RunFrom(start, before) == Some(s0) && s0.helper.Up? && s0.gate.MainInside?
    ensures RunFrom(start, actions) == Some(s) && GateLeft(s0, s)
  {
    hide RunFrom, Next, Init, IsRefusing, WritesStatus, WatcherHoldsGate;
    assert Reachable(s0);
    LocksAreKept(s0);
    if s0.main.CheckFlag? {
      actions, s := ChecksTheFlag(start, before, s0);
      if s.main.CreateTarget? && s.gate.MainInside? { actions, s := GivesUpCreating(start, actions, s); }
    } else if s0.main.CreateTarget? {
      actions, s := GivesUpCreating(start, before, s0);
    } else if s0.main.ResumeTarget? {
      actions, s := GivesUpResuming(start, before, s0);
    } else {
      actions, s := GetsToTheEnd(start, before, s0);
      actions, s := LeavesTheGate(start, actions, s);
    }
  }

  lemma GetsToTheEnd(start: State, before: seq<Action>, s0: State) returns (actions: seq<Action>, s: State)
    requires Init(start) && RunFrom(start, before) == Some(s0) && s0.helper.Up?
    requires s0.main.PlaceTarget? || s0.main.PutStarted? || s0.main.LeaveGate? || s0.main.LeaveResumeGate?
    ensures RunFrom(start, actions) == Some(s) && s.helper.Up? && (s.main.LeaveGate? || s.main.LeaveResumeGate?)
    ensures s.watcher == s0.watcher && s.publishing == s0.publishing
  {
    hide RunFrom, Next, Init;
    assert Reachable(s0);
    actions, s := before, s0;
    if s.main.PlaceTarget? {
      HasATarget(s);
      actions, s := Places(start, actions, s);
    } else if s.main.PutStarted? {
      actions, s := Put(start, actions, s, LeaveResumeGate);
    }
  }

  // ------------------------------------------------------- the owner's loss is acted on

  /** The watcher has passed the gate, with what it says listed and published. */
  ghost predicate LossPublished(s: State) {
    s.file.Published? && Decode(s.file.lines).terminatedByOwnerLoss
  }

  lemma WatcherTakesTheGate(start: State, before: seq<Action>, s0: State, waitFailed: bool)
    returns (actions: seq<Action>, s: State)
    requires RunFrom(start, before) == Some(s0) && s0.helper.Up? && s0.gate.Open? && s0.publishing.NobodyWrites?
    requires s0.watcher.AwaitOwner? || s0.watcher.WantGate?
    ensures RunFrom(start, actions) == Some(s) && s.helper.Up? && s.publishing.NobodyWrites? && s.watcher.RaiseFlag?
  {
    hide RunFrom, PrepareNext, PlaceNext, FailureNext, WriterNext, RunNext;
    actions, s := before, s0;
    if s.watcher.AwaitOwner? {
      if !waitFailed { actions, s := Take(start, actions, s, Environment(OwnerDies)); }
      actions, s := Take(start, actions, s, Side(WatcherWakes(waitFailed)));
    }
    actions, s := Take(start, actions, s, Side(WatcherTakesGate));
  }

  lemma WatcherEndsTheJob(start: State, before: seq<Action>, s0: State) returns (actions: seq<Action>, s: State)
    requires RunFrom(start, before) == Some(s0) && s0.helper.Up? && s0.publishing.NobodyWrites?
    requires s0.watcher.RaiseFlag? || s0.watcher.PutLoss? || s0.watcher.EndJob?
    ensures RunFrom(start, actions) == Some(s) && s.helper.Up? && s.publishing.NobodyWrites? && s.watcher.WatcherWrite?
    ensures s.status == s0.status + if s0.watcher.EndJob? then [] else [TerminatedByOwnerLossLine(true)]
  {
    hide RunFrom, EnvironmentNext, PrepareNext, PlaceNext, FailureNext, WriterNext, RunNext, TerminateJob;
    actions, s := before, s0;
    if s.watcher.RaiseFlag? { actions, s := Take(start, actions, s, Side(WatcherRaisesFlag)); }
    if s.watcher.PutLoss? { actions, s := Take(start, actions, s, Side(WatcherPutsLoss)); }
    actions, s := Take(start, actions, s, Side(WatcherEndsJob));
  }

  lemma WatcherPublishes(start: State, before: seq<Action>, s0: State) returns (actions: seq<Action>, s: State)
    requires RunFrom(start, before) == Some(s0) && s0.helper.Up? && s0.publishing.NobodyWrites? && s0.watcher.WatcherWrite?
    ensures RunFrom(start, actions) == Some(s) && s.helper.Up? && s.watcher.ExitHelper? && s.file == Published(s0.status)
  {
    hide RunFrom, EnvironmentNext, PrepareNext, PlaceNext, FailureNext, SideNext, RunNext;
    actions, s := Take(start, before, s0, Writer(TakesStatusLock(WatcherThread)));
    actions, s := Take(start, actions, s, Writer(TakesSnapshot));
    actions, s := Take(start, actions, s, Writer(Publishes));
  }

  lemma WatcherLeaves(start: State, before: seq<Action>, s0: State) returns (actions: seq<Action>, s: State)
    requires Init(start) && RunFrom(start, before) == Some(s0) && s0.helper.Up? && s0.watcher.ExitHelper?
    ensures RunFrom(start, actions) == Some(s)
    ensures s.helper.WatcherExited? && s.kernel.alive == {} && s.file == s0.file
  {
    hide RunFrom, EnvironmentNext, PrepareNext, PlaceNext, FailureNext, WriterNext, RunNext, Init;
    assert Reachable(s0);
    OwnerLossEndsTheTree(s0);
    actions, s := Take(start, before, s0, Side(WatcherExits));
  }

  /**
   * In every run, wherever its threads stand, a helper that is up and has armed its watcher
   * can still end the launch for its owner's loss: no lock keeps the watcher from ending
   * every process, from putting the loss on record where it had not passed the gate yet,
   * and from leaving with the exit code that says so.
   */
  lemma OwnerLossCanAlwaysEndIt(start: State, before: seq<Action>, s0: State, waitFailed: bool)
    returns (actions: seq<Action>, s: State)
    requires Init(start) && RunFrom(start, before) == Some(s0) && s0.helper.Up? && !s0.watcher.Unarmed?
    ensures RunFrom(start, actions) == Some(s)
    ensures HelperExitCode(s.helper) == Some(93) && s.kernel.alive == {}
    ensures s0.watcher.AwaitOwner? || s0.watcher.WantGate? ==> LossPublished(s)
  {
    hide RunFrom, Next, Init, Decode;
    assert Reachable(s0);
    LocksAreKept(s0);
    actions, s := before, s0;
    if s.publishing.Writes? { actions, s := StatusComesFree(start, actions, s); }
    if s.watcher.AwaitOwner? || s.watcher.WantGate? {
      actions, s := WatcherGetsIn(start, actions, s, waitFailed);
    }
    if !s.watcher.ExitHelper? { actions, s := WatcherReports(start, actions, s); }
    actions, s := WatcherLeaves(start, actions, s);
  }

  lemma WatcherGetsIn(start: State, before: seq<Action>, s0: State, waitFailed: bool)
    returns (actions: seq<Action>, s: State)
    requires Init(start) && RunFrom(start, before) == Some(s0) && s0.helper.Up? && s0.publishing.NobodyWrites?
    requires s0.watcher.AwaitOwner? || s0.watcher.WantGate?
    ensures RunFrom(start, actions) == Some(s) && s.helper.Up? && s.publishing.NobodyWrites? && s.watcher.RaiseFlag?
  {
    hide RunFrom, Next, Init;
    assert Reachable(s0);
    LocksAreKept(s0);
    actions, s := before, s0;
    if s.gate.MainInside? { actions, s := GateComesFree(start, actions, s); }
    actions, s := WatcherTakesTheGate(start, actions, s, waitFailed);
  }

  lemma WatcherReports(start: State, before: seq<Action>, s0: State) returns (actions: seq<Action>, s: State)
    requires RunFrom(start, before) == Some(s0) && s0.helper.Up? && s0.publishing.NobodyWrites?
    requires s0.watcher.RaiseFlag? || s0.watcher.PutLoss? || s0.watcher.EndJob? || s0.watcher.WatcherWrite?
    ensures RunFrom(start, actions) == Some(s) && s.helper.Up? && s.watcher.ExitHelper?
    ensures s0.watcher.RaiseFlag? || s0.watcher.PutLoss? ==> LossPublished(s)
  {
    hide RunFrom, Next, Decode;
    actions, s := before, s0;
    if !s.watcher.WatcherWrite? { actions, s := WatcherEndsTheJob(start, actions, s); }
    actions, s := WatcherPublishes(start, actions, s);
    DecodeAppend(s0.status, TerminatedByOwnerLossLine(true));
  }

  // ------------------------------------------------------------------- the input

  /** The end of the input, delivered or failed, can be put on record as it was. */
  lemma InputEndsOnRecord(start: State, before: seq<Action>, s0: State, forward: string)
    returns (actions: seq<Action>, s: State)
    requires RunFrom(start, before) == Some(s0) && s0.helper.Up? && s0.stdin.Forwarding? && s0.publishing.NobodyWrites?
    ensures RunFrom(start, actions) == Some(s) && s.stdin.StdinDone?
    ensures s.file.Published? && Decode(s.file.lines).stdinForward == Some(forward)
  {
    hide RunFrom, EnvironmentNext, PrepareNext, PlaceNext, FailureNext, WriterNext, RunNext, Decode;
    actions, s := Take(start, before, s0, Side(StdinEnds(forward)));
    actions, s := StdinPublishes(start, actions, s);
    DecodeAppend(s0.status, StdinForwardLine(forward));
  }

  lemma StdinPublishes(start: State, before: seq<Action>, s0: State) returns (actions: seq<Action>, s: State)
    requires RunFrom(start, before) == Some(s0) && s0.helper.Up? && s0.publishing.NobodyWrites? && s0.stdin.StdinWrite?
    ensures RunFrom(start, actions) == Some(s) && s.stdin.StdinDone? && s.file == Published(s0.status)
  {
    hide RunFrom, EnvironmentNext, PrepareNext, PlaceNext, FailureNext, SideNext, RunNext;
    actions, s := Take(start, before, s0, Writer(TakesStatusLock(StdinThread)));
    actions, s := Take(start, actions, s, Writer(TakesSnapshot));
    actions, s := Take(start, actions, s, Writer(Publishes));
  }

  // -------------------------------------------------------------- the descendants

  /** What the target starts is born into the job, lives beside it and may end on its own. */
  lemma DescendantsComeAndGo(s: State, parent: int, child: int)
    requires s.kernel.target.Running? && parent in s.kernel.alive && parent in s.kernel.inJob
    requires child !in s.kernel.alive + s.kernel.inJob && child != s.kernel.target.pid
    ensures
      var born := EnvironmentNext(s, Spawns(parent, child));
      && born.Some? && child in born.value.kernel.alive && child in born.value.kernel.inJob
      && var gone := EnvironmentNext(born.value, DescendantExits(child));
         gone.Some? && gone.value.kernel.alive == s.kernel.alive && gone.value.kernel.target == s.kernel.target
  {
  }

  // ---------------------------------------------------------------- every refusal

  /** The main thread is about to report this refusal. */
  ghost predicate Refusing(s: State, why: RefusalReason) {
    s.helper.Up? && s.main == PutFailed(why) && s.publishing.NobodyWrites?
  }

  lemma Refuse(start: State, before: seq<Action>, s0: State, why: RefusalReason) returns (actions: seq<Action>, s: State)
    requires RunFrom(start, before) == Some(s0) && s0.helper.Up? && s0.publishing.NobodyWrites? && MayRefuse(s0.main, why)
    ensures RunFrom(start, actions) == Some(s) && Refusing(s, why) && s.kernel == s0.kernel
  {
    hide RunFrom, EnvironmentNext, PrepareNext, PlaceNext, SideNext, WriterNext, RunNext, MayRefuse;
    actions, s := Take(start, before, s0, Failure(Refuses(why)));
  }

  /** Before the job, at the watcher or at the pipes. */
  lemma RefusesEarly(start: State, why: RefusalReason) returns (actions: seq<Action>, s: State)
    requires Init(start)
    requires why in {RequestInvalid, InternalError, JobCreate, JobHandle, JobConfigure, OwnerGone, PipesFailed}
    ensures RunFrom(start, actions) == Some(s) && Refusing(s, why)
  {
    hide RunFrom, EnvironmentNext, PlaceNext, SideNext, WriterNext, RunNext;
    actions, s := [], start;
    NoSteps(start);
    if why.RequestInvalid? {
      actions, s := Take(start, actions, s, Failure(RefusesRequest(true)));
    } else if why.InternalError? {
      actions, s := Take(start, actions, s, Failure(Crashes));
    } else {
      actions, s := Take(start, actions, s, Prepare(ReadsRequest));
      if why in {OwnerGone, PipesFailed} { actions, s := Take(start, actions, s, Prepare(MakesJob)); }
      if why == PipesFailed { actions, s := Take(start, actions, s, Prepare(ArmsWatcher)); }
      actions, s := Refuse(start, actions, s, why);
    }
  }

  lemma RefusesAssignment(start: State, before: seq<Action>, s0: State) returns (actions: seq<Action>, s: State)
    requires RunFrom(start, before) == Some(s0) && s0.mode.SuspendedMode?
    requires Undisturbed(s0, CreateTarget) && s0.kernel == Kernel(OpenJob, NoTarget, {}, {})
    ensures RunFrom(start, actions) == Some(s) && Refusing(s, AssignFailed) && s.kernel.alive == {}
  {
    hide RunFrom, EnvironmentNext, PrepareNext, SideNext, WriterNext, RunNext;
    actions, s := Take(start, before, s0, Place(Creates(7)));
    actions, s := Take(start, actions, s, Failure(AssignFails));
  }

  lemma RefusesVerification(start: State, before: seq<Action>, s0: State) returns (actions: seq<Action>, s: State)
    requires RunFrom(start, before) == Some(s0) && Undisturbed(s0, LeaveGate) && Placed(s0, 7)
    ensures RunFrom(start, actions) == Some(s) && Refusing(s, VerifyFailed) && s.kernel.alive == {}
  {
    hide RunFrom, EnvironmentNext, PrepareNext, SideNext, WriterNext, RunNext;
    actions, s := Take(start, before, s0, Place(LeavesGate));
    actions, s := Put(start, actions, s, PutAssigned);
    actions, s := Put(start, actions, s, Verify);
    actions, s := Take(start, actions, s, Failure(VerifyFails));
  }

  lemma RefusesResume(start: State, before: seq<Action>, s0: State) returns (actions: seq<Action>, s: State)
    requires RunFrom(start, before) == Some(s0) && s0.mode.SuspendedMode?
    requires Undisturbed(s0, PutVerified) && Placed(s0, 7)
    ensures RunFrom(start, actions) == Some(s) && Refusing(s, ResumeFailed) && s.kernel.alive == {}
  {
    hide RunFrom, EnvironmentNext, PlaceNext, SideNext, WriterNext, RunNext;
    actions, s := Put(start, before, s0, PutMembersAtStart);
    actions, s := Put(start, actions, s, TakeResumeGate);
    actions, s := Take(start, actions, s, Prepare(TakesGate));
    actions, s := Take(start, actions, s, Failure(ResumeFails));
  }

  /** Refusals that only a launch which creates its target suspended can end in. */
  predicate NeedsSuspension(why: RefusalReason) {
    why.AssignFailed? || why.ResumeFailed?
  }

  lemma RefusesLate(start: State, why: RefusalReason) returns (actions: seq<Action>, s: State)
    requires Init(start) && (NeedsSuspension(why) ==> start.mode.SuspendedMode?)
    requires why in {AttributeList, HandleList, JobList, CreateFailed, AssignFailed, VerifyFailed, ResumeFailed}
    ensures RunFrom(start, actions) == Some(s) && Refusing(s, why) && s.kernel.alive == {}
  {
    hide RunFrom, Next, Placed, Refusing;
    actions, s := ReachesCreation(start);
    if why.AssignFailed? {
      actions, s := RefusesAssignment(start, actions, s);
    } else if why.VerifyFailed? {
      actions, s := ReachesPlacement(start, actions, s);
      actions, s := RefusesVerification(start, actions, s);
    } else if why.ResumeFailed? {
      actions, s := ReachesPlacement(start, actions, s);
      actions, s := ReachesVerification(start, actions, s);
      actions, s := RefusesResume(start, actions, s);
    } else {
      actions, s := Refuse(start, actions, s, why);
    }
  }

  /**
   * From any start, every refusal the mode admits can come to pass, and the launch is then
   * read as refused, under the code of that refusal and the exit code that goes with it.
   */
  lemma EveryRefusalCanBeReported(start: State, why: RefusalReason) returns (actions: seq<Action>, s: State)
    requires Init(start) && (NeedsSuspension(why) ==> start.mode.SuspendedMode?)
    ensures RunFrom(start, actions) == Some(s)
    ensures s.helper == MainReturned(if why.InternalError? then 91 else if why.OwnerGone? then 92 else 90)
    ensures ClassifyBoundaryEnding(ReadAlone(s)).Refused? && ClassifyBoundaryEnding(ReadAlone(s)).failureCode == CodeNamed(why)
  {
    hide RunFrom, Next, ClassifyBoundaryEnding, ReadAlone, CodeNamed;
    if why in {RequestInvalid, InternalError, JobCreate, JobHandle, JobConfigure, OwnerGone, PipesFailed} {
      actions, s := RefusesEarly(start, why);
    } else {
      actions, s := RefusesLate(start, why);
    }
    actions, s := RefusalsAreReported(start, actions, s, why);
  }

  /**
   * A request the helper cannot use is read as that by the caller who is waiting for this
   * very launch; that nothing ran is certain to it exactly where the helper could still make
   * out the nonce.
   */
  lemma RefusedRequestsAreAttributed(start: State, named: bool) returns (actions: seq<Action>, s: State)
    requires Init(start)
    ensures RunFrom(start, actions) == Some(s)
    ensures
      var ending := ClassifyBoundaryEnding(Finished(s));
      && ending.Refused? && ending.failureCode == "OWNED_CONTAINMENT_REQUEST_INVALID"
      && ending.targetStarted == if named then StartedNo else StartedUnknown
  {
    hide RunFrom, EnvironmentNext, PrepareNext, PlaceNext, SideNext, WriterNext, RunNext, FailureName, KNOWN_FAILURE_CODES, Decode;
    NoSteps(start);
    actions, s := Take(start, [], start, Failure(RefusesRequest(named)));
    var status := s.status;
    FirstLineDecodes(start.nonce);
    actions, s := RefusalsAreReported(start, actions, s, RequestInvalid);
    RefusalDecodes(status, RequestInvalid);
    NamesAreKnown(RequestInvalid);
    RefusalsMean(Finished(s));
  }

  lemma FirstLineDecodes(nonce: string)
    ensures Decode([]) == EmptyStatus && Decode([NonceLine(nonce)]) == EmptyStatus.(nonce := Some(nonce))
  {
    assert [NonceLine(nonce)] == [] + [NonceLine(nonce)];
    DecodeAppend([], NonceLine(nonce));
  }
}
