/**
 * The launch helper as a state machine: its main thread, the owner watcher, the stdin
 * forwarder, the two locks, the status list and the status file, the kernel job, the target
 * and its descendants, the owner's death and an outside kill of the helper.
 *
 * One action is one step no other thread can see inside. Shared variables are sequentially
 * consistent. A process is named by an identity that is never given out twice.
 */
module LaunchProtocol {
  import opened Base
  import opened ExitCodes
  import opened LaunchBoundary

  // -------------------------------------------------------------------- kernel

  datatype Cause = OnItsOwn | ByWatcher | ByRefusal | ByJobClose

  datatype Target =
    | NoTarget
    | Held(pid: int)
    | Running(pid: int)
    | Dead(pid: int, code: ExitCode, cause: Cause)

  datatype Job = NoJob | OpenJob | ClosedJob

  datatype Kernel = Kernel(job: Job, target: Target, alive: set<int>, inJob: set<int>)

  const KILL_CODE: ExitCode := 0xDEAD

  predicate TargetLives(k: Kernel) { k.target.Held? || k.target.Running? }

  function EndTarget(k: Kernel, code: ExitCode, cause: Cause): Kernel
    requires TargetLives(k)
  {
    k.(target := Dead(k.target.pid, code, cause), alive := k.alive - {k.target.pid})
  }

  /** Every living member of the job ends. */
  function EndMembers(k: Kernel, code: ExitCode, cause: Cause): Kernel {
    var survivors := k.(alive := k.alive - k.inJob);
    if TargetLives(k) && k.target.pid in k.inJob
    then survivors.(target := Dead(k.target.pid, code, cause)) else survivors
  }

  function TerminateJob(k: Kernel, cause: Cause): Kernel {
    if k.job.OpenJob? then EndMembers(k, KILL_CODE, cause) else k
  }

  /** The last handle goes: a strict job takes its members with it. */
  function CloseJob(k: Kernel): Kernel {
    if k.job.OpenJob? then EndMembers(k, 0, ByJobClose).(job := ClosedJob) else k
  }

  // ---------------------------------------------------------------- the helper

  datatype Thread = MainThread | WatcherThread | StdinThread

  /** Why a launch is refused. */
  datatype RefusalReason =
    | RequestInvalid | JobCreate | JobHandle | JobConfigure | OwnerGone | PipesFailed
    | AttributeList | HandleList | JobList | CreateFailed | AssignFailed | VerifyFailed | ResumeFailed
    | InternalError

  function FailureName(why: RefusalReason): string {
    match why
    case RequestInvalid => "OWNED_CONTAINMENT_REQUEST_INVALID"
    case JobCreate => "OWNED_CONTAINMENT_JOB_CREATE"
    case JobHandle => "OWNED_CONTAINMENT_JOB_HANDLE"
    case JobConfigure => "OWNED_CONTAINMENT_JOB_CONFIGURE"
    case OwnerGone => "OWNED_CONTAINMENT_OWNER_GONE"
    case PipesFailed => "OWNED_CONTAINMENT_PIPES"
    case AttributeList => "OWNED_CONTAINMENT_ATTRIBUTE_LIST"
    case HandleList => "OWNED_CONTAINMENT_HANDLE_LIST"
    case JobList => "OWNED_CONTAINMENT_JOB_LIST"
    case CreateFailed => "OWNED_CONTAINMENT_CREATE"
    case AssignFailed => "OWNED_CONTAINMENT_ASSIGN"
    case VerifyFailed => "OWNED_CONTAINMENT_VERIFY"
    case ResumeFailed => "OWNED_CONTAINMENT_RESUME"
    case InternalError => "HELPER_INTERNAL_ERROR"
  }

  /** Named after what the main thread does next. */
  datatype MainPc =
    | ReadRequest
    | MakeJob
    | ArmWatcher
    | TakeGate
    | CheckFlag
    | CreateTarget
    | PlaceTarget
    | LeaveGate
    | PutChildPid
    | PutAssigned
    | Verify
    | PutVerified
    | PutMembersAtStart
    | TakeResumeGate
    | ResumeTarget
    | PutStarted
    | LeaveResumeGate
    | PutOk
    | EarlyWrite
    | StartPumps
    | AwaitTarget
    | PutExit
    | ReadFlag
    | PutOwnerLoss(seen: bool)
    | PutMembersAtEnd
    | FinalWrite
    | CloseHandles
    | Return
    | PutFailed(why: RefusalReason)
    | PutFailure(why: RefusalReason)
    | PutWin32(why: RefusalReason)
    | RefusalWrite(why: RefusalReason)
    | RefusalReturn(why: RefusalReason)

  datatype WatcherPc = Unarmed | AwaitOwner | WantGate | RaiseFlag | PutLoss | EndJob | WatcherWrite | ExitHelper

  datatype StdinPc = NotStarted | Forwarding | StdinWrite | StdinDone

  /** Who is inside the ownership gate. */
  datatype Gate = Open | MainInside | WatcherInside

  datatype Publishing = NobodyWrites | Writes(writer: Thread, snapshot: Option<seq<Line>>)

  /** What is at the status path: whatever a previous run left, or one of this helper's snapshots. */
  datatype StatusFile = LeftBehind | Published(lines: seq<Line>)

  datatype Waited = NotYet | SawExit(code: ExitCode) | Unobservable

  datatype Helper = Up | MainReturned(code: int) | WatcherExited | Killed(exit: Option<int>)

  datatype State = State(
    mode: Mode,
    nonce: string,
    helperPid: int,
    kernel: Kernel,
    executed: bool,
    ownerAlive: bool,
    helper: Helper,
    main: MainPc,
    watcher: WatcherPc,
    stdin: StdinPc,
    gate: Gate,
    flag: bool,
    status: seq<Line>,
    publishing: Publishing,
    file: StatusFile,
    waited: Waited,
    delivered: bool)

  datatype EnvironmentStep =
    | OwnerDies
    | HelperIsKilled(exit: Option<int>)
    | TargetExits(code: ExitCode)
    | Spawns(parent: int, child: int)
    | DescendantExits(pid: int)

  datatype PrepareStep =
    | ReadsRequest
    | MakesJob
    | ArmsWatcher
    | TakesGate
    | ChecksFlag

  datatype PlaceStep =
    | Creates(pid: int)
    | Assigns
    | LeavesGate
    | Verifies
    | Resumes

  datatype RunStep =
    | Puts(number: int)
    | StartsPumps
    | SeesExit
    | CannotSeeExit
    | ReadsFlag
    | ClosesHandles
    | Returns

  datatype FailureStep =
    | RefusesRequest(named: bool)
    | Refuses(why: RefusalReason)
    | AssignFails
    | VerifyFails
    | ResumeFails
    | Crashes

  datatype SideStep =
    | WatcherWakes(waitFailed: bool)
    | WatcherTakesGate
    | WatcherRaisesFlag
    | WatcherPutsLoss
    | WatcherEndsJob
    | WatcherExits
    | StdinEnds(forward: string)

  datatype WriterStep =
    | TakesStatusLock(thread: Thread)
    | TakesSnapshot
    | Publishes
    | Drops

  datatype Action =
    | Environment(environment: EnvironmentStep)
    | Prepare(prepare: PrepareStep)
    | Place(place: PlaceStep)
    | Run(run: RunStep)
    | Failure(failure: FailureStep)
    | Side(side: SideStep)
    | Writer(writer: WriterStep)

  ghost predicate Init(s: State) {
    && s.kernel == Kernel(NoJob, NoTarget, {}, {}) && !s.executed && s.ownerAlive && s.helper.Up?
    && s.main.ReadRequest? && s.watcher.Unarmed? && s.stdin.NotStarted?
    && s.gate.Open? && !s.flag && s.status == [] && s.publishing == NobodyWrites
    && s.file == LeftBehind && s.waited == NotYet && !s.delivered
  }

  predicate IsRefusing(m: MainPc) {
    m.PutFailed? || m.PutFailure? || m.PutWin32? || m.RefusalWrite? || m.RefusalReturn?
  }

  predicate MainHoldsGate(m: MainPc) {
    m.CheckFlag? || m.CreateTarget? || m.PlaceTarget? || m.LeaveGate?
    || m.ResumeTarget? || m.PutStarted? || m.LeaveResumeGate?
  }

  predicate WatcherHoldsGate(w: WatcherPc) {
    w.RaiseFlag? || w.PutLoss? || w.EndJob? || w.WatcherWrite? || w.ExitHelper?
  }

  /**
   * Where the main thread may fail unexpectedly: anywhere in `Run` except inside a status
   * write, which swallows its own errors, and between a creation or a resume and the step
   * that records or contains it, where nothing that can throw is called.
   */
  predicate MayCrash(m: MainPc) {
    && !IsRefusing(m) && !m.PlaceTarget? && !m.PutStarted? && !m.EarlyWrite? && !m.FinalWrite? && !m.Return?
  }

  /** The refusals a step can end in without having created a process. */
  predicate MayRefuse(m: MainPc, why: RefusalReason)
    ensures MayRefuse(m, why) ==> m.MakeJob? || m.ArmWatcher? || m.TakeGate? || m.CreateTarget?
  {
    match m
    case MakeJob => why.JobCreate? || why.JobHandle? || why.JobConfigure?
    case ArmWatcher => why.OwnerGone?
    case TakeGate => why.PipesFailed?
    case CreateTarget => why.AttributeList? || why.HandleList? || why.JobList? || why.CreateFailed?
    case _ => false
  }

  function Throw(s: State, why: RefusalReason): State {
    s.(main := PutFailed(why), gate := if s.gate.MainInside? then Open else s.gate)
  }

  /** The process is gone, and with it every handle it held. */
  function Leave(s: State, how: Helper): State {
    s.(helper := how, kernel := CloseJob(s.kernel))
  }

  function HelperExitCode(h: Helper): Option<int> {
    match h
    case Up => None
    case MainReturned(code) => Some(code)
    case WatcherExited => Some(EXIT_OWNER_LOST)
    case Killed(exit) => exit
  }

  /** What the main thread returns where it stands, if it returns there. */
  function ExitFor(m: MainPc, flag: bool): Option<int> {
    match m
    case Return => Some(if flag then EXIT_OWNER_LOST else EXIT_CHILD_OBSERVED)
    case RefusalReturn(InternalError) => Some(EXIT_INTERNAL_ERROR)
    case RefusalReturn(OwnerGone) => Some(EXIT_OWNER_ALREADY_GONE)
    case RefusalReturn(_) => Some(EXIT_BOUNDARY_FAILURE)
    case _ => None
  }

  /** Refusals that can only be raised while there is no target yet. */
  predicate PrecedesTarget(why: RefusalReason) {
    !why.AssignFailed? && !why.VerifyFailed? && !why.ResumeFailed? && !why.InternalError?
  }

  /** The line the main thread puts where it stands, and where it goes next. */
  function MainPut(s: State, number: int): Option<(Line, MainPc)> {
    match s.main
    case PlaceTarget => if s.mode.JobListMode? then Some((TargetStartedLine, LeaveGate)) else None
    case PutChildPid =>
      if s.kernel.target.NoTarget? then None else Some((ChildPidLine(s.kernel.target.pid), PutAssigned))
    case PutAssigned => Some((AssignedAtCreationLine(s.mode.JobListMode?), Verify))
    case PutVerified => Some((VerifiedInJobLine, PutMembersAtStart))
    case PutMembersAtStart =>
      Some((JobMembersAtStartLine(number), if s.mode.JobListMode? then PutOk else TakeResumeGate))
    case PutStarted => Some((TargetStartedLine, LeaveResumeGate))
    case PutOk => Some((BoundaryOkLine, EarlyWrite))
    case PutExit =>
      Some((if s.waited.SawExit? then ChildExitCodeLine(Signed(s.waited.code)) else ChildExitUnobservableLine, ReadFlag))
    case PutOwnerLoss(seen) => Some((TerminatedByOwnerLossLine(seen), PutMembersAtEnd))
    case PutMembersAtEnd => Some((JobMembersAtEndLine(number), FinalWrite))
    case PutFailed(why) => Some((BoundaryFailedLine, PutFailure(why)))
    case PutFailure(why) =>
      Some((FailureLine(FailureName(why)), if why.InternalError? then RefusalWrite(why) else PutWin32(why)))
    case PutWin32(why) => Some((Win32Line(number), RefusalWrite(why)))
    case _ => None
  }

  predicate WritesStatus(s: State, t: Thread) {
    match t
    case MainThread => s.main.EarlyWrite? || s.main.FinalWrite? || s.main.RefusalWrite?
    case WatcherThread => s.watcher.WatcherWrite?
    case StdinThread => s.stdin.StdinWrite?
  }

  function PastWrite(m: MainPc): MainPc {
    if m.EarlyWrite? then StartPumps
    else if m.FinalWrite? then CloseHandles
    else if m.RefusalWrite? then RefusalReturn(m.why) else m
  }

  /** The writer has left the status lock, its snapshot published or given up on. */
  function AfterWrite(s: State, t: Thread, file: StatusFile, delivered: bool): State {
    s.(main := if t.MainThread? then PastWrite(s.main) else s.main,
       watcher := if t.WatcherThread? then ExitHelper else s.watcher,
       stdin := if t.StdinThread? then StdinDone else s.stdin,
       publishing := NobodyWrites, file := file, delivered := delivered)
  }

  // --------------------------------------------------------------- transitions

  function EnvironmentNext(s: State, a: EnvironmentStep): Option<State> {
    match a
    case OwnerDies => Some(s.(ownerAlive := false))
    case HelperIsKilled(exit) => if s.helper.Up? then Some(Leave(s, Killed(exit))) else None
    case TargetExits(code) =>
      if TargetLives(s.kernel) then Some(s.(kernel := EndTarget(s.kernel, code, OnItsOwn))) else None
    case Spawns(parent, child) =>
      if parent in s.kernel.alive && s.kernel.target != Held(parent)
         && child !in s.kernel.alive + s.kernel.inJob
         && (s.kernel.target.NoTarget? || s.kernel.target.pid != child)
      then Some(s.(kernel := s.kernel.(
                     alive := s.kernel.alive + {child},
                     inJob := if parent in s.kernel.inJob then s.kernel.inJob + {child} else s.kernel.inJob)))
      else None
    case DescendantExits(pid) =>
      if s.kernel.target.NoTarget? || s.kernel.target.pid == pid then None
      else Some(s.(kernel := s.kernel.(alive := s.kernel.alive - {pid})))
  }

  function PrepareNext(s: State, a: PrepareStep): Option<State> {
    match a
    case ReadsRequest =>
      if s.main.ReadRequest?
      then Some(s.(status := [NonceLine(s.nonce), HelperPidLine(s.helperPid), ModeLine(s.mode)], main := MakeJob))
      else None
    case MakesJob =>
      if s.main.MakeJob?
      then Some(s.(kernel := s.kernel.(job := OpenJob), status := s.status + [JobHandleInheritableLine(false)],
                   main := ArmWatcher))
      else None
    case ArmsWatcher => if s.main.ArmWatcher? then Some(s.(watcher := AwaitOwner, main := TakeGate)) else None
    case TakesGate =>
      if !s.gate.Open? then None
      else if s.main.TakeGate? then Some(s.(gate := MainInside, main := CheckFlag))
      else if s.main.TakeResumeGate? then Some(s.(gate := MainInside, main := ResumeTarget))
      else None
    case ChecksFlag =>
      if s.main.CheckFlag? then Some(if s.flag then Throw(s, OwnerGone) else s.(main := CreateTarget)) else None
  }

  function PlaceNext(s: State, a: PlaceStep): Option<State> {
    match a
    case Creates(pid) =>
      if s.main.CreateTarget? && pid !in s.kernel.alive + s.kernel.inJob
      then Some(s.(main := PlaceTarget, executed := s.mode.JobListMode?,
                   kernel := s.kernel.(
                     target := if s.mode.JobListMode? then Running(pid) else Held(pid),
                     alive := s.kernel.alive + {pid},
                     inJob := if s.mode.JobListMode? then s.kernel.inJob + {pid} else s.kernel.inJob)))
      else None
    case Assigns =>
      if s.main.PlaceTarget? && s.mode.SuspendedMode? && !s.kernel.target.NoTarget?
      then Some(s.(main := LeaveGate, kernel := s.kernel.(inJob := s.kernel.inJob + {s.kernel.target.pid})))
      else None
    case LeavesGate =>
      if s.main.LeaveGate? then Some(s.(gate := Open, main := PutChildPid))
      else if s.main.LeaveResumeGate? then Some(s.(gate := Open, main := PutOk))
      else None
    case Verifies =>
      if s.main.Verify? && !s.kernel.target.NoTarget? && s.kernel.target.pid in s.kernel.inJob
      then Some(s.(main := PutVerified)) else None
    case Resumes =>
      if !s.main.ResumeTarget? then None
      else if s.kernel.target.Held?
      then Some(s.(main := PutStarted, executed := true, kernel := s.kernel.(target := Running(s.kernel.target.pid))))
      else Some(s.(main := PutStarted))
  }

  function RunNext(s: State, a: RunStep): Option<State> {
    match a
    case Puts(number) =>
      var put := MainPut(s, number);
      if put.Some? then Some(s.(status := s.status + [put.value.0], main := put.value.1)) else None
    case StartsPumps => if s.main.StartPumps? then Some(s.(stdin := Forwarding, main := AwaitTarget)) else None
    case SeesExit =>
      if s.main.AwaitTarget? && s.kernel.target.Dead?
      then Some(s.(waited := SawExit(s.kernel.target.code), main := PutExit)) else None
    case CannotSeeExit =>
      if s.main.AwaitTarget? then Some(s.(waited := Unobservable, main := PutExit)) else None
    case ReadsFlag => if s.main.ReadFlag? then Some(s.(main := PutOwnerLoss(s.flag))) else None
    case ClosesHandles =>
      if s.main.CloseHandles? then Some(s.(kernel := CloseJob(s.kernel), main := Return)) else None
    case Returns =>
      var code := ExitFor(s.main, s.flag);
      if code.Some? then Some(Leave(s, MainReturned(code.value))) else None
  }

  function FailureNext(s: State, a: FailureStep): Option<State> {
    match a
    case RefusesRequest(named) =>
      // the nonce may have been put before the request turned out unusable
      if s.main.ReadRequest?
      then Some(Throw(s.(status := if named then [NonceLine(s.nonce)] else []), RequestInvalid))
      else None
    case Refuses(why) => if MayRefuse(s.main, why) then Some(Throw(s, why)) else None
    case AssignFails =>
      // the process is suspended and in no job, so it is ended by its own handle
      if s.main.PlaceTarget? && s.mode.SuspendedMode?
      then Some(Throw(s.(kernel := if TargetLives(s.kernel) then EndTarget(s.kernel, KILL_CODE, ByRefusal) else s.kernel),
                      AssignFailed))
      else None
    case VerifyFails =>
      if s.main.Verify?
      then Some(Throw(s.(kernel := TerminateJob(s.kernel, ByRefusal)), VerifyFailed)) else None
    case ResumeFails =>
      if s.main.ResumeTarget?
      then Some(Throw(s.(kernel := TerminateJob(s.kernel, ByRefusal)), ResumeFailed)) else None
    case Crashes => if MayCrash(s.main) then Some(Throw(s, InternalError)) else None
  }

  function SideNext(s: State, a: SideStep): Option<State> {
    match a
    case WatcherWakes(waitFailed) =>
      // the wait's own result is not looked at: one that fails counts as the owner's loss
      if s.watcher.AwaitOwner? && (!s.ownerAlive || waitFailed) then Some(s.(watcher := WantGate)) else None
    case WatcherTakesGate =>
      if s.watcher.WantGate? && s.gate.Open? then Some(s.(gate := WatcherInside, watcher := RaiseFlag)) else None
    case WatcherRaisesFlag => if s.watcher.RaiseFlag? then Some(s.(flag := true, watcher := PutLoss)) else None
    case WatcherPutsLoss =>
      if s.watcher.PutLoss?
      then Some(s.(status := s.status + [TerminatedByOwnerLossLine(true)], watcher := EndJob)) else None
    case WatcherEndsJob =>
      if s.watcher.EndJob?
      then Some(s.(kernel := TerminateJob(s.kernel, ByWatcher), watcher := WatcherWrite)) else None
    case WatcherExits => if s.watcher.ExitHelper? then Some(Leave(s, WatcherExited)) else None
    case StdinEnds(forward) =>
      if s.stdin.Forwarding?
      then Some(s.(status := s.status + [StdinForwardLine(forward)], stdin := StdinWrite)) else None
  }

  function WriterNext(s: State, a: WriterStep): Option<State> {
    match a
    case TakesStatusLock(t) =>
      if s.publishing.NobodyWrites? && WritesStatus(s, t) then Some(s.(publishing := Writes(t, None))) else None
    case TakesSnapshot =>
      if s.publishing.Writes? && s.publishing.snapshot.None?
      then Some(s.(publishing := Writes(s.publishing.writer, Some(s.status)))) else None
    case Publishes =>
      if s.publishing.Writes? && s.publishing.snapshot.Some?
      then Some(AfterWrite(s, s.publishing.writer, Published(s.publishing.snapshot.value),
                           s.delivered || (s.publishing.writer.MainThread? && s.main.FinalWrite?)))
      else None
    case Drops =>
      if s.publishing.Writes? then Some(AfterWrite(s, s.publishing.writer, s.file, s.delivered)) else None
  }

  /** One step; `None` where the action is not possible. */
  function Next(s: State, a: Action): Option<State> {
    if a.Environment? then EnvironmentNext(s, a.environment)
    else if !s.helper.Up? then None
    else match a
      case Prepare(step) => PrepareNext(s, step)
      case Place(step) => PlaceNext(s, step)
      case Run(step) => RunNext(s, step)
      case Failure(step) => FailureNext(s, step)
      case Side(step) => SideNext(s, step)
      case Writer(step) => WriterNext(s, step)
  }

  /** A run of the machine: every action possible where it is taken. */
  function RunFrom(s: State, actions: seq<Action>): Option<State>
    decreases |actions|
  {
    if actions == [] then Some(s)
    else
      var before := RunFrom(s, actions[..|actions| - 1]);
      if before.None? then None else Next(before.value, actions[|actions| - 1])
  }

  ghost predicate Reachable(s: State) {
    exists start, actions :: Init(start) && RunFrom(start, actions) == Some(s)
  }
}
