/**
 * The attended block run: choose a member, start it, drive it, record what its own
 * record proves, and again.
 */
module BlockRunner {
  import opened Base
  import opened PlanEncoding
  import opened BlockDefinition
  import opened ChainShape
  import opened ChainFitness
  import opened TaskRecords
  import opened BlockLedger
  import opened BlockStore
  import opened BlockHistory
  import opened BlockReconciliation
  import opened BlockProgress
  import opened BlockConclusion
  import opened ForcedProgress
  import opened RunScript
  import opened RunAccount
  import opened RunProspects

  class BlockRun {
    const store: Store
    const script: Script
    const runId: string
    var now: nat
    /** Every question put to the start path and to the driver, in order. */
    var asked: seq<Ask>
    var runOutcomes: map<string, RunOutcome>
    var seen: Option<Ledger>
    var stepsTaken: nat
    /** Whether this run's ledger has been created. */
    ghost var created: bool
    /** The tasks whose moves landed since the run was last shown its ledger. */
    ghost var unshown: set<string>
    /** Any reading at all: what is promised of a steady environment is promised at this one. */
    ghost const still: Stillness

    constructor (store: Store, script: Script, runId: string, ghost still: Stillness)
      ensures this.store == store && this.script == script && this.runId == runId && this.still == still
      ensures Unstarted() && now == 0
    {
      this.store, this.script, this.runId, this.still := store, script, runId, still;
      now, asked, runOutcomes, seen, stepsTaken := 0, [], map[], None, 0;
      created, unshown := false, {};
    }

    ghost predicate Unstarted()
      reads this
    {
      asked == [] && runOutcomes == map[] && seen == None && stepsTaken == 0 && !created && unshown == {}
    }

    /** Time passes; the profile may have been edited. */
    method Tick()
      modifies this`now, store`declaredId
      ensures now == old(now) + 1 && store.declaredId == script.declared(now)
    {
      now := now + 1;
      store.declaredId := script.declared(now);
    }

    /** The task records as they stand now. */
    function RecordsNow(): Records
      reads this`now, this`asked
    {
      script.records(now, asked)
    }

    // ------------------------------------------------------ ghost views of the state

    /** What the run was last shown is behind the disk by exactly the unshown tasks. */
    ghost predicate Shown()
      reads this`seen, this`unshown, store`files
    {
      ShownOf(store.files)
    }

    /** The same of the files before a write. */
    ghost predicate ShownOf(files: Files)
      reads this`seen, this`unshown
    {
      seen.Some? && LedgerIn(files, runId).Some? && Behind(seen.value.tasks, LedgerIn(files, runId).value.tasks, unshown)
    }

    /** Since these files, no file but this run's own was written, and that kept its identity and plan. */
    ghost predicate OnlyMoved(before: Files)
      reads store`files
    {
      OnlyThisRunMoved(before, store.files, runId)
    }

    /** Nothing moves of itself, every write lands, and this ledger names the checkout. */
    ghost predicate Quiet(l: Ledger) {
      Steady(script, still) && NamesCheckout(l, store.root, still.declared)
    }

    /** No check finds the lease lost, and no driver does. */
    ghost predicate LeaseNeverLost() {
      && (forall t: nat :: script.leaseHeld(t))
      && (forall taskId :: VerdictOf(script.drives(taskId), 0) != LeaseUncertain)
    }

    /** And the records support it as they stand. */
    ghost predicate SteadyAt(l: Ledger)
      reads this`asked
    {
      Quiet(l) && AllSupported(still.records(asked), l.tasks)
    }

    // ------------------------------------------------------------- one write, one read

    method StopStep(current: Ledger, reason: StopReason) returns (step: RunStep)
      requires Holds(store.files, runId, current) && current.stopReason.None?
      modifies this`now, store`declaredId, store`files
      ensures StepHolds(step, store.files, runId) && OnlyMoved(old(store.files))
      ensures step == StoppedStep(reason, current.(stopReason := Some(reason)))
        || (step == EndedStep(DurableWriteFailed) && store.files == old(store.files))
      ensures KeepsTheRun(step, current) && (old(Shown()) ==> Shown())
      ensures Quiet(current) && !ClaimsProgress(reason) ==> step.StoppedStep?
      ensures SteadyAt(current) && current.activeTaskId.None? && ReasonAgrees(current, reason) ==> step.StoppedStep?
    {
      hide Valid, UpdateOutcome, StopOutcome, ReasonAgrees, AllSupported, Behind, SameRun;
      StopKeepsTheRun(current, reason);
      Tick();
      ghost var files := store.files;
      RecordedStop(files, store.root, store.declaredId, runId, current, reason, RecordsNow(), script.fates(now));
      if Quiet(current) {
        StopLandsIff(files, store.root, still.declared, current, reason, still.records(asked));
      }
      var stopped := BlockProgress.StopBlockRun(store, current, LedgerText(current), reason, RecordsNow(), script.fates(now));
      NothingMoved(files, runId);
      if stopped.outcome != Recorded { return EndedStep(DurableWriteFailed); }
      ThisRunMoved(files, store.files, runId, current, stopped.ledger.value);
      return StoppedStep(reason, stopped.ledger.value);
    }

    /** The grade of a move tried at an instant: its record is read, and a moment later the write is made. */
    ghost function Grade(move: Move, files: Files, l: Ledger, taskId: string, at: nat): Recording
      reads this`asked
    {
      RecordingResultFor(MoveOutcome(
        move, files, store.root, script.declared(at + 2), l, LedgerText(l), taskId,
        Load(script.records(at + 1, asked), taskId), script.records(at + 2, asked), script.fates(at + 2)).outcome)
    }

    /** One move, graded, and what it leaves on disk and among the unshown. */
    method TryMove(move: Move, current: Ledger, taskId: string) returns (recording: Recording, next: Ledger)
      requires Holds(store.files, runId, current) && current.stopReason.None?
      modifies this`now, this`unshown, store`declaredId, store`files
      ensures OnlyMoved(old(store.files))
      ensures recording != Landed ==> store.files == old(store.files) && next == current && unshown == old(unshown)
      ensures recording == Landed ==>
        && Holds(store.files, runId, next) && next.stopReason.None?
        && SameRun(current, next) && PastPlanned(next.tasks, taskId) && OneMoved(current, next, taskId, Target(move))
        && EntryFor(current, taskId).Some? && EntryFor(current, taskId).value.disposition !in Declined(move)
        && (exists record, revision :: next == NextLedger(move, current, taskId, record, revision))
        && (TaskPlanned(current, taskId) ==> PlannedCount(next.tasks) < PlannedCount(current.tasks))
        && unshown == old(unshown) + {taskId}
      ensures old(Shown()) && (TaskPlanned(current, taskId) || taskId in old(unshown)) ==> Shown()
      ensures now == old(now) + 2 && recording == Grade(move, old(store.files), current, taskId, old(now))
      ensures Quiet(current) ==> recording != WriteDidNotLand
      ensures
        && Quiet(current)
        && Allowed(move, still.records(asked), current, taskId)
        && OthersSupported(still.records(asked), current, taskId) ==>
        recording == Landed && next == NextOnRecord(move, still.records(asked), current, taskId)
    {
      hide Valid, MoveOutcome, Guard, Behind, SameRun, PastPlanned, OneMoved, NamesCheckout, NextLedger, EntryFor, TaskPlanned,
        OthersSupported, FilesAfterProgress, Declined, Steady, PlannedCount, OnlyThisRunMoved;
      Tick();
      SteadyAtAnInstant(script, still, now, asked);
      var state := Load(RecordsNow(), taskId);
      Tick();
      SteadyAtAnInstant(script, still, now, asked);
      ghost var files := store.files;
      RecordedMoveLeaves(
        move, files, store.root, store.declaredId, runId, current, taskId, state, RecordsNow(), script.fates(now));
      QuietMovesLand(move, files, store.root, store.declaredId, runId, current, taskId, state, RecordsNow());
      var r := RecordMove(move, store, current, LedgerText(current), taskId, state, RecordsNow(), script.fates(now));
      recording := RecordingResultFor(r.outcome);
      if recording != Landed { return recording, current; }
      next := r.ledger.value;
      if ShownOf(files) && (TaskPlanned(current, taskId) || taskId in unshown) {
        MovePutsOneBehind(seen.value.tasks, unshown, move, current, taskId, state.record, state.revision);
      }
      unshown := unshown + {taskId};
    }

    /** Loads the ledger a write just left, which the profile may no longer name. */
    method Reload(next: Ledger) returns (step: RunStep)
      requires Holds(store.files, runId, next) && next.stopReason.None?
      modifies this`now, store`declaredId
      ensures now == old(now) + 1 && StepHolds(step, store.files, runId)
      ensures step == if NamesCheckout(next, store.root, script.declared(now)) then OpenStep(next) else EndedStep(RunGateRefused)
      ensures Quiet(next) ==> step == OpenStep(next)
    {
      hide Valid, LoadOutcome;
      Tick();
      ReloadIsWhatIsOnDisk(store.files, store.root, store.declaredId, runId, next);
      var reloaded := store.LoadLedger(runId);
      if reloaded.NotLoaded? { return EndedStep(RunGateRefused); }
      return OpenStep(reloaded.ledger);
    }

    // ------------------------------------------------------------ forced progress

    /** The first task whose own record forces a settlement at an instant. */
    ghost function ForcedAt(l: Ledger, at: nat): Option<string>
      reads this`asked
    {
      FirstForced(ReconcileOf(l, store.root, script.declared(at), None, script.records(at, asked)).findings, l)
    }

    /** The first task whose own record forces a settlement, as the records stand now. */
    method NextForced(ledger: Ledger) returns (forced: Option<string>)
      requires Valid(ledger)
      modifies this`now, store`declaredId
      ensures forced.Some? ==>
        && EntryFor(ledger, forced.value).Some?
        && IsForced(RecordsNow(), EntryFor(ledger, forced.value).value)
        && TaskPlanned(ledger, forced.value)
      ensures forced.None? ==> ForcedLedger(RecordsNow(), ledger) == ledger
      ensures now == old(now) + 1 && forced == ForcedAt(ledger, now)
    {
      hide Valid, IsForced, ForcedLedger, ReconcileOf;
      Tick();
      var reconciliation := ReconcileBlockRun(ledger, store.root, store.declaredId, None, RecordsNow());
      FirstForcedMeans(ledger, store.root, store.declaredId, RecordsNow());
      if !reconciliation.progressAvailable { return None; }
      forced := FirstForced(reconciliation.findings, ledger);
      if forced.Some? { ForcedEntryIsPlanned(RecordsNow(), ledger, forced.value); }
    }

    /** One forced settlement, or the step that ends the search for them. */
    method ForceOne(ledger: Ledger) returns (next: Option<Ledger>, step: RunStep)
      requires Holds(store.files, runId, ledger) && ledger.stopReason.None?
      modifies this`now, this`unshown, store`declaredId, store`files
      ensures OnlyMoved(old(store.files)) && (old(Shown()) ==> Shown())
      ensures next.None? ==>
        && StepHolds(step, store.files, runId) && KeepsTheRun(step, ledger)
        && (step.OpenStep? ==> step.open == ledger) && (step.StoppedStep? ==> step.stopped.tasks == ledger.tasks)
      ensures
        match ForcedAt(ledger, old(now) + 1)
        case None => next.None? && step == OpenStep(ledger)
        case Some(t) =>
          match Grade(Settle, old(store.files), ledger, t, old(now) + 1)
          case Landed => next.Some? || step == EndedStep(RunGateRefused)
          case WriteDidNotLand => next.None? && step == EndedStep(DurableWriteFailed)
          case ClaimRefused => next.None? && step == EndedStep(ReconciliationUnresolved)
          case RecordUnusable =>
            next.None? && (step == StoppedStep(StateUnusable, ledger.(stopReason := Some(StateUnusable))) || step == EndedStep(DurableWriteFailed))
      ensures step != EndedStep(LeaseAuthorityUncertain)
      ensures next.None? && SteadyAt(ledger) ==>
        step == OpenStep(ledger) && ForcedLedger(still.records(asked), ledger) == ledger && unshown == old(unshown)
      ensures next.Some? ==>
        && Holds(store.files, runId, next.value) && next.value.stopReason.None?
        && SameRun(ledger, next.value) && SettledMore(ledger, next.value) && next.value.activeTaskId == ledger.activeTaskId
        && PlannedCount(next.value.tasks) < PlannedCount(ledger.tasks)
      ensures next.Some? && SteadyAt(ledger) ==>
        && SteadyAt(next.value)
        && ForcedLedger(still.records(asked), next.value) == ForcedLedger(still.records(asked), ledger)
    {
      hide Valid, Guard, IsForced, ForcedLedger, AllSupported, OthersSupported, NextLedger, SameRun, LoadOutcome,
        NamesCheckout, Behind, PastPlanned, OnlyThisRunMoved, OneMoved, SettledMore, Grade, ForcedAt, PlannedCount, Steady, ShownOf;
      next, step := None, OpenStep(ledger);
      SameRunIsReflexive(ledger);
      NothingMoved(store.files, runId);
      var forced := NextForced(ledger);
      SteadyAtAnInstant(script, still, now, asked);
      if forced.None? { return; }
      SettlingOneForcedEntry(RecordsNow(), ledger, forced.value);
      OthersAreSupportedToo(still.records(asked), ledger, forced.value);
      SettlingLeavesTheActiveTask(ledger, forced.value);
      var recording, settled := TryMove(Settle, ledger, forced.value);
      if recording == WriteDidNotLand { step := EndedStep(DurableWriteFailed); return; }
      if recording == RecordUnusable { step := StopStep(ledger, StateUnusable); return; }
      if recording != Landed { step := EndedStep(ReconciliationUnresolved); return; }
      SameRunNamesTheSameCheckout(ledger, settled, store.root, still.declared);
      SettlingOneMore(ledger, settled, forced.value);
      var reloaded := Reload(settled);
      if !reloaded.OpenStep? { step := reloaded; return; }
      next := Some(reloaded.open);
    }

    /** Settles what is forced, one write at a time, and leaves everything else alone. */
    method ApplyForcedProgress(current: Ledger) returns (step: RunStep)
      requires Holds(store.files, runId, current) && current.stopReason.None?
      modifies this`now, this`unshown, store`declaredId, store`files
      ensures StepHolds(step, store.files, runId) && OnlyMoved(old(store.files)) && (old(Shown()) ==> Shown())
      ensures step != EndedStep(LeaseAuthorityUncertain)
      ensures KeepsTheRun(step, current)
      ensures step.OpenStep? ==> SettledMore(current, step.open) && step.open.activeTaskId == current.activeTaskId
      ensures step.StoppedStep? ==> SettledMore(current, step.stopped)
      ensures SteadyAt(current) ==> step == OpenStep(ForcedLedger(still.records(asked), current))
    {
      hide Valid, ForcedLedger, Behind, AllSupported, NamesCheckout, Grade, ForcedAt, Steady, OnlyThisRunMoved, PlannedCount, ShownOf;
      var ledger := current;
      ghost var before := store.files;
      NothingMoved(before, runId);
      SameRunIsReflexive(current);
      while true
        invariant Holds(store.files, runId, ledger) && ledger.stopReason.None?
        invariant OnlyMoved(old(store.files)) && (old(Shown()) ==> Shown())
        invariant SameRun(current, ledger) && SettledMore(current, ledger) && ledger.activeTaskId == current.activeTaskId
        invariant SteadyAt(current) ==>
          SteadyAt(ledger) && ForcedLedger(still.records(asked), ledger) == ForcedLedger(still.records(asked), current)
        decreases PlannedCount(ledger.tasks)
      {
        ghost var files := store.files;
        var next, last := ForceOne(ledger);
        MovedAgain(before, files, store.files, runId);
        if next.None? { return last; }
        ledger := next.value;
      }
    }

    /** The ending that an instant forces on a ledger. */
    function EndingForcedAt(l: Ledger, at: nat): Option<StopReason>
      reads this`asked
    {
      EndingForced(l, store.root, script.declared(at), script.records(at, asked))
    }

    /** Whether the records force an ending, and which. */
    method CheckRecords(current: Ledger) returns (reason: Option<StopReason>)
      requires Valid(current)
      modifies this`now, store`declaredId
      ensures now == old(now) + 1
      ensures reason == EndingForcedAt(current, now)
      ensures reason.None? <==> NamesCheckout(current, store.root, store.declaredId) && AllSupported(RecordsNow(), current.tasks)
      ensures reason == Some(StateUnusable) <==> SomeRecordUnusable(RecordsNow(), current.tasks)
      ensures Quiet(current) ==> (reason.None? <==> SteadyAt(current))
    {
      hide Valid, ReconcileOf, AllSupported, NamesCheckout, SomeRecordUnusable;
      Tick();
      EndingForcedMeans(current, store.root, store.declaredId, RecordsNow());
      var r := ReconcileBlockRun(current, store.root, store.declaredId, None, RecordsNow());
      if r.verdict != Diverged { return None; }
      if AnyUnusable(r.findings) { return Some(StateUnusable); }
      return Some(LedgerDiverged);
    }

    // ------------------------------------------------------------- driving one task

    /** This ledger carries the plan of this request. */
    ghost predicate Follows(l: Ledger, request: Request) {
      l.frozenTaskIds == request.definition.taskIds && l.frozenDependencies == request.definition.dependencies
    }

    /** The base for this member, or the refusal of the gate in front of it. */
    method BaseFor(current: Ledger, choice: Choice, blockBase: Commit) returns (base: Option<Commit>)
      requires choice.Chosen? && UniqueMaximumOf(current.frozenDependencies, choice.taskId) == Ok(choice.maximum)
      modifies this`now, store`declaredId
      ensures now == old(now) + 1
      ensures base.Some? ==>
        BaseFits(Handover(current, choice.taskId, choice.maximum, base.value, script.git(now, asked)), blockBase)
      ensures base.None? ==>
        && choice.maximum.Some?
        && ProveChainBase(current, choice.taskId, choice.maximum.value, blockBase, script.git(now, asked)).Err?
    {
      Tick();
      MaximumIsRequired(current, choice.taskId);
      if choice.maximum.None? { return Some(blockBase); }
      var proven := ProveChainBase(current, choice.taskId, choice.maximum.value, blockBase, script.git(now, asked));
      if proven.Err? { return None; }
      return Some(proven.value);
    }

    /** Hands a member to the start path. There is no other way to ask for a start, and none goes unlogged. */
    method AskStart(h: Handover, ghost request: Request) returns (outcome: StartOutcome)
      requires HandoverFit(h, runId, request) && Holds(store.files, runId, h.ledger)
      requires AskedSoundly(asked, runId, request) && StartedArePast(asked, h.ledger.tasks)
      modifies this`now, this`asked, store`declaredId
      ensures asked == old(asked) + [StartAsk(h)] && AskedSoundly(asked, runId, request)
      ensures Starts(asked) == Starts(old(asked)) + 1 && StepsIn(script, asked) == StepsIn(script, old(asked))
      ensures forall t :: CallsOf(asked, t) == CallsOf(old(asked), t)
      ensures outcome == script.starts(now) && now == old(now) + 1
    {
      hide HandoverFit, Valid, StartedArePast, AskedSoundly;
      Tick();
      StartIsSound(asked, h, runId, request);
      OneMoreAsk(script, asked, StartAsk(h));
      asked := asked + [StartAsk(h)];
      outcome := script.starts(now);
    }

    /** One call of the driver, for the member handed over last. */
    method AskDrive(taskId: string, k: nat, ghost request: Request) returns (run: Drive)
      requires AskedSoundly(asked, runId, request) && asked != [] && AskedFor(asked[|asked| - 1]) == taskId
      requires CallsOf(asked, taskId) == k
      modifies this`now, this`asked, store`declaredId
      ensures asked == old(asked) + [DriveAsk(taskId)] && AskedSoundly(asked, runId, request)
      ensures CallsOf(asked, taskId) == k + 1 && Starts(asked) == Starts(old(asked))
      ensures StepsIn(script, asked) == StepsIn(script, old(asked)) + run.steps
      ensures run == AnswerAt(script.drives(taskId), k) && now == old(now) + 1
    {
      hide AskedSoundly;
      Tick();
      DriveIsSound(asked, taskId, runId, request);
      OneMoreAsk(script, asked, DriveAsk(taskId));
      asked := asked + [DriveAsk(taskId)];
      run := AnswerAt(script.drives(taskId), k);
    }

    /** A move that did not land, graded into the end of the step. */
    method EndUnlanded(current: Ledger, recording: Recording) returns (step: RunStep)
      requires Holds(store.files, runId, current) && current.stopReason.None? && recording != Landed
      modifies this`now, store`declaredId, store`files
      ensures StepHolds(step, store.files, runId) && OnlyMoved(old(store.files)) && KeepsTheRun(step, current)
      ensures old(Shown()) ==> Shown()
      ensures !step.OpenStep? && (Quiet(current) && recording != WriteDidNotLand ==> step.StoppedStep?)
      ensures
        var stopped := if recording == RecordUnusable then StateUnusable else ActiveTaskUnresolved;
        || step == EndedStep(DurableWriteFailed)
        || (recording != WriteDidNotLand && step == StoppedStep(stopped, current.(stopReason := Some(stopped))))
    {
      hide Valid, Behind, SameRun, NamesCheckout, OnlyThisRunMoved, LedgerIn, Steady;
      NothingMoved(store.files, runId);
      if recording == WriteDidNotLand { return EndedStep(DurableWriteFailed); }
      step := StopStep(current, if recording == RecordUnusable then StateUnusable else ActiveTaskUnresolved);
    }

    /** One move graded into a step: recorded and reloaded, reported as not written, or stopped. */
    method RecordStep(move: Move, current: Ledger, taskId: string) returns (step: RunStep)
      requires Holds(store.files, runId, current) && current.stopReason.None?
      requires Shown() && (TaskPlanned(current, taskId) || unshown == {taskId}) && unshown <= {taskId}
      modifies this`now, this`unshown, store`declaredId, store`files
      ensures StepHolds(step, store.files, runId) && OnlyMoved(old(store.files)) && Shown() && KeepsTheRun(step, current)
      ensures old(unshown) <= unshown <= {taskId}
      ensures step.OpenStep? ==>
        && OneMoved(current, step.open, taskId, Target(move)) && unshown == {taskId}
        && (TaskPlanned(current, taskId) ==> PlannedCount(step.open.tasks) < PlannedCount(current.tasks))
        && (move == Activate ==> StepActive(step.open, taskId))
        && (move != Activate && current.activeTaskId == Some(taskId) ==> step.open.activeTaskId.None?)
      ensures step.StoppedStep? ==>
        step.stopped.tasks == current.tasks && (step.reason == StateUnusable || step.reason == ActiveTaskUnresolved)
      ensures
        match Grade(move, old(store.files), current, taskId, old(now))
        case Landed => step.OpenStep? || step == EndedStep(RunGateRefused)
        case WriteDidNotLand => step == EndedStep(DurableWriteFailed)
        case RecordUnusable =>
          step == StoppedStep(StateUnusable, current.(stopReason := Some(StateUnusable))) || step == EndedStep(DurableWriteFailed)
        case ClaimRefused =>
          || step == StoppedStep(ActiveTaskUnresolved, current.(stopReason := Some(ActiveTaskUnresolved)))
          || step == EndedStep(DurableWriteFailed)
      ensures step != EndedStep(LeaseAuthorityUncertain)
      ensures Quiet(current) ==> !step.EndedStep?
      ensures
        && Quiet(current)
        && Allowed(move, still.records(asked), current, taskId)
        && OthersSupported(still.records(asked), current, taskId) ==>
        step == OpenStep(NextOnRecord(move, still.records(asked), current, taskId))
    {
      hide Valid, Behind, SameRun, PastPlanned, NamesCheckout, NextLedger, OthersSupported, Allowed, NextOnRecord, EntryFor,
        OnlyThisRunMoved, LedgerIn, Unstopped, OneMoved, Steady, ShownOf, StepActive, Declined, PlannedCount, TaskPlanned, Grade;
      NothingMoved(store.files, runId);
      var recording, next := TryMove(move, current, taskId);
      if recording != Landed { step := EndUnlanded(current, recording); return; }
      if move == Activate {
        ActivatedTaskIsActive(current, taskId, next);
      } else if current.activeTaskId == Some(taskId) {
        ConcludedTaskIsNotActive(move, current, taskId, next);
      }
      SameRunNamesTheSameCheckout(current, next, store.root, still.declared);
      step := Reload(next);
    }

    /** Under which the start path hands this member over and its activation lands. */
    ghost predicate StartsWell(current: Ledger, choice: Choice, blockBase: Commit)
      requires choice.Chosen?
      reads this`asked
    {
      && Quiet(current)
      && (forall t: nat :: StartConclusionFor(script.starts(t)) == DriveIt)
      && (choice.maximum.Some? ==> forall t: nat ::
            ProveChainBase(current, choice.taskId, choice.maximum.value, blockBase, script.git(t, asked)).Ok?)
      && (forall h: Handover | h.taskId == choice.taskId ::
            && Allowed(Activate, still.records(asked + [StartAsk(h)]), current, choice.taskId)
            && OthersSupported(still.records(asked + [StartAsk(h)]), current, choice.taskId))
    }

    /** The first half of a drive: the base, the start and the activation. */
    method StartTask(choice: Choice, current: Ledger, request: Request) returns (step: RunStep)
      requires Holds(store.files, runId, current) && current.stopReason.None? && current.activeTaskId.None?
      requires choice.Chosen? && choice == ChooseTask(current, request.eligibility) && Follows(current, request)
      requires AskedSoundly(asked, runId, request) && StartedArePast(asked, current.tasks)
      requires Shown() && unshown == {} && MayGoOn(current)
      modifies this`now, this`asked, this`unshown, store`declaredId, store`files
      ensures StepHolds(step, store.files, runId) && OnlyMoved(old(store.files)) && Shown()
      ensures AskedSoundly(asked, runId, request)
      ensures KeepsTheRun(step, current)
      ensures step.OpenStep? ==>
        && PlannedCount(step.open.tasks) < PlannedCount(current.tasks)
        && StepActive(step.open, choice.taskId) && OneMoved(current, step.open, choice.taskId, Active)
        && unshown == {choice.taskId}
        && asked != [] && asked[|asked| - 1].StartAsk? && asked[|asked| - 1].handover.taskId == choice.taskId
        && asked[..|asked| - 1] == old(asked)
      ensures CallsOf(asked, choice.taskId) == 0 && StepsIn(script, asked) == StepsIn(script, old(asked))
      ensures Starts(asked) <= Starts(old(asked)) + 1
      ensures asked == old(asked) ==> step == EndedStep(RunGateRefused) && choice.maximum.Some?
      ensures asked != old(asked) ==>
        match StartConclusionFor(script.starts(old(now) + 2))
        case DriveIt => step != EndedStep(LeaseAuthorityUncertain)
        case StartLeaseUncertain => step == EndedStep(LeaseAuthorityUncertain)
        case StartUnusable =>
          step == StoppedStep(StateUnusable, current.(stopReason := Some(StateUnusable))) || step == EndedStep(DurableWriteFailed)
        case GateRefused => step == EndedStep(RunGateRefused)
      ensures step.StoppedStep? ==> step.stopped.tasks == current.tasks
      ensures unshown <= {choice.taskId} && (step == EndedStep(LeaseAuthorityUncertain) ==> unshown == {})
      ensures Quiet(current) && step.EndedStep? ==> unshown == {}
      ensures old(StartsWell(current, choice, request.blockBase)) ==>
        && Allowed(Activate, still.records(asked), current, choice.taskId)
        && step == OpenStep(NextOnRecord(Activate, still.records(asked), current, choice.taskId))
    {
      hide MayGoOn, Valid, HandoverFit, BaseFits, ChooseTask, ProveChainBase, UniqueMaximumOf, StartConclusionFor, Guard, NextLedger,
        OthersSupported, Load, Behind, SameRun, PastPlanned, NamesCheckout, StartedArePast, AskedSoundly, Allowed, NextOnRecord,
        OnlyThisRunMoved, LedgerIn, Unstopped, Declined, OneMoved, Steady, ShownOf, NamesCheckout, PlannedCount, StepActive, StepsIn, CallsOf, Starts;
      var taskId := choice.taskId;
      NothingMoved(store.files, runId);
      ChosenIsPlanned(current, request.eligibility, choice);
      PlannedIsNotPast(current, taskId);
      NeverCalled(asked, current.tasks, taskId);
      var base := BaseFor(current, choice, request.blockBase);
      if base.None? { return EndedStep(RunGateRefused); }
      var h := Handover(current, taskId, choice.maximum, base.value, script.git(now, asked));
      FitHandover(h, runId, request);
      var outcome := AskStart(h, request);
      var start := StartConclusionFor(outcome);
      if start == StartLeaseUncertain { return EndedStep(LeaseAuthorityUncertain); }
      if start == StartUnusable { step := StopStep(current, StateUnusable); return; }
      if start == GateRefused { return EndedStep(RunGateRefused); }

      step := RecordStep(Activate, current, taskId);
    }

    /**
     * The driver's answer, continued for as long as only its own per-call bound stopped it.
     * `None` as a verdict means the lease was lost between two calls.
     */
    method DriveTask(taskId: string, ghost request: Request)
      returns (outcome: RunOutcome, steps: nat, conclusion: Option<TaskConclusion>)
      requires AskedSoundly(asked, runId, request) && asked != [] && AskedFor(asked[|asked| - 1]) == taskId
      requires CallsOf(asked, taskId) == 0
      modifies this`now, this`asked, store`declaredId
      ensures AskedSoundly(asked, runId, request)
      ensures exists n: nat :: asked == old(asked) + Calls(taskId, n + 1) && outcome == AnswerAt(script.drives(taskId), n).outcome
      ensures StepsIn(script, asked) == StepsIn(script, old(asked)) + steps && Starts(asked) == Starts(old(asked))
      ensures conclusion != Some(Continue)
      ensures conclusion.None? ==> !script.leaseHeld(now)
      ensures conclusion.Some? ==>
        forall i | 0 < i < CallsNeeded(script.drives(taskId), 0) :: script.leaseHeld(old(now) + 2 * i)
      ensures conclusion.Some? ==>
        && conclusion.value == VerdictOf(script.drives(taskId), 0)
        && (conclusion.value == ConclusionForRunOutcome(outcome) || conclusion.value == Unresolved)
        && asked == old(asked) + Calls(taskId, CallsNeeded(script.drives(taskId), 0))
    {
      hide AskedSoundly, ConclusionForRunOutcome, StepsIn, CallsOf, Starts;
      var answers := script.drives(taskId);
      var k := 0;
      steps := 0;
      while true
        invariant 0 <= k <= |answers| && asked == old(asked) + Calls(taskId, k)
        invariant CallsOf(asked, taskId) == k && Starts(asked) == Starts(old(asked))
        invariant StepsIn(script, asked) == StepsIn(script, old(asked)) + steps
        invariant now == old(now) + 2 * k && forall i | 0 < i <= k :: script.leaseHeld(old(now) + 2 * i)
        invariant AskedSoundly(asked, runId, request) && asked != [] && AskedFor(asked[|asked| - 1]) == taskId
        invariant VerdictOf(answers, k) == VerdictOf(answers, 0)
        invariant k + CallsNeeded(answers, k) == CallsNeeded(answers, 0)
        decreases |answers| - k
      {
        var run := AskDrive(taskId, k, request);
        steps := steps + run.steps;
        outcome := run.outcome;
        assert asked == old(asked) + Calls(taskId, k + 1);
        var verdict := ConclusionForRunOutcome(outcome);
        if verdict != Continue { return outcome, steps, Some(verdict); }
        if run.steps == 0 { return outcome, steps, Some(Unresolved); }
        Tick();
        if !script.leaseHeld(now) { return outcome, steps, None; }
        k := k + 1;
      }
    }

    /** The move a conclusion entitles the run to. */
    function MoveFor(conclusion: TaskConclusion): Move
      requires conclusion in {SettleIt, ParkIt, ResolveIt, AbandonIt}
    {
      match conclusion
      case SettleIt => Settle
      case ParkIt => Park
      case ResolveIt => Resolve
      case AbandonIt => Abandon
    }

    /** Records what the driver's answer entitles the run to, and clears the active task. */
    method Conclude(active: Ledger, taskId: string, conclusion: TaskConclusion) returns (step: RunStep)
      requires Holds(store.files, runId, active) && active.stopReason.None? && StepActive(active, taskId)
      requires conclusion != Continue
      requires Shown() && unshown == {taskId}
      modifies this`now, this`unshown, store`declaredId, store`files
      ensures StepHolds(step, store.files, runId) && OnlyMoved(old(store.files)) && Shown() && unshown == {taskId}
      ensures KeepsTheRun(step, active) && (step.OpenStep? ==> step.open.activeTaskId.None?)
      ensures step.OpenStep? ==>
        RecordedFor(conclusion).Some? && OneMoved(active, step.open, taskId, RecordedFor(conclusion).value)
      ensures step.StoppedStep? ==>
        && step.stopped.tasks == active.tasks
        && step.reason == (if conclusion == UnusableState then StateUnusable
                           else if conclusion == Unresolved then ActiveTaskUnresolved else step.reason)
        && (step.reason == StateUnusable || step.reason == ActiveTaskUnresolved)
      ensures step == EndedStep(LeaseAuthorityUncertain) <==> conclusion == LeaseUncertain
      ensures Quiet(active) && step.EndedStep? ==> conclusion == LeaseUncertain
      ensures
        && Quiet(active) && RecordedFor(conclusion).Some?
        && Allowed(MoveFor(conclusion), still.records(asked), active, taskId)
        && OthersSupported(still.records(asked), active, taskId) ==>
        step == OpenStep(NextOnRecord(MoveFor(conclusion), still.records(asked), active, taskId))
      ensures
        && Quiet(active) && conclusion == SettleIt
        && Allowed(Settle, still.records(asked), active, taskId)
        && OthersSupported(still.records(asked), active, taskId) ==>
        step == OpenStep(NextOnRecord(Settle, still.records(asked), active, taskId))
    {
      hide Valid, Behind, SameRun, PastPlanned, NamesCheckout, NextLedger, OthersSupported, Allowed, NextOnRecord, EntryFor,
        OnlyThisRunMoved, LedgerIn, Unstopped, OneMoved, Steady, ShownOf, EntryFor;
      NothingMoved(store.files, runId);
      if conclusion == LeaseUncertain { return EndedStep(LeaseAuthorityUncertain); }
      if conclusion == UnusableState { step := StopStep(active, StateUnusable); return; }
      if conclusion == Unresolved { step := StopStep(active, ActiveTaskUnresolved); return; }
      step := RecordStep(MoveFor(conclusion), active, taskId);
    }

    /** Start, activate, drive, record: one member from planned to concluded. */
    method DriveOneTask(choice: Choice, current: Ledger, request: Request)
      returns (step: RunStep, runOutcome: Option<RunOutcome>, steps: nat)
      requires Holds(store.files, runId, current) && current.stopReason.None? && current.activeTaskId.None?
      requires choice.Chosen? && choice == ChooseTask(current, request.eligibility) && Follows(current, request)
      requires AskedSoundly(asked, runId, request) && StartedArePast(asked, current.tasks)
      requires Shown() && unshown == {} && MayGoOn(current)
      modifies this`now, this`asked, this`unshown, store`declaredId, store`files
      ensures StepHolds(step, store.files, runId) && OnlyMoved(old(store.files)) && Shown()
      ensures AskedSoundly(asked, runId, request)
      ensures StepsIn(script, asked) == StepsIn(script, old(asked)) + steps && Starts(asked) <= Starts(old(asked)) + 1
      ensures KeepsTheRun(step, current)
      ensures step.OpenStep? ==>
        && step.open.activeTaskId.None? && PlannedCount(step.open.tasks) < PlannedCount(current.tasks)
        && StartedArePast(asked, step.open.tasks) && runOutcome.Some?
        && ConcludedBy(current, step.open, choice.taskId, runOutcome.value)
      ensures step.StoppedStep? ==>
        if runOutcome.Some? then OneMoved(current, step.stopped, choice.taskId, Active)
        else step.stopped.tasks == current.tasks
      ensures unshown <= {choice.taskId} && (runOutcome.Some? ==> unshown == {choice.taskId})
      ensures step == EndedStep(LeaseAuthorityUncertain) ==> (runOutcome.Some? <==> unshown == {choice.taskId})
      ensures Quiet(current) && step.EndedStep? && unshown != {} ==> step == EndedStep(LeaseAuthorityUncertain)
      ensures Quiet(current) && LeaseNeverLost() && step.EndedStep? ==> unshown == {}
      ensures old(StartsWell(current, choice, request.blockBase)) && (forall t: nat :: script.leaseHeld(t)) ==>
        && runOutcome.Some? && DrivenToTheEnd(old(asked), asked, choice.taskId, script)
        && (VerdictOf(script.drives(choice.taskId), 0) == LeaseUncertain ==> step == EndedStep(LeaseAuthorityUncertain))
        && (VerdictOf(script.drives(choice.taskId), 0) == SettleIt
            && IsReady(still.records(asked), choice.taskId)
            && OthersSupported(still.records(asked), current, choice.taskId) ==>
            step.OpenStep? && OneMoved(current, step.open, choice.taskId, Settled) && SteadyAt(step.open))
    {
      hide MayGoOn, Valid, Behind, SameRun, PastPlanned, NamesCheckout, NextLedger, OthersSupported, Allowed, NextOnRecord, EntryFor,
        StartedArePast, AskedSoundly, ChooseTask, StepActive, AllSupported, IsReady, OneMoved, StartConclusionFor, ProveChainBase,
        DrivenToTheEnd, VerdictOf, CallsNeeded, Calls, Steady, OneMoved, RecordedFor, ConclusionForRunOutcome, StepsIn, CallsOf, Starts,
        ConcludedBy, PlannedCount;
      var taskId := choice.taskId;
      ghost var before := asked;
      step := StartTask(choice, current, request);
      if !step.OpenStep? { return step, None, 0; }
      var active := step.open;
      SameRunNamesTheSameCheckout(current, active, store.root, still.declared);
      ghost var started := asked;
      var outcome, taken, conclusion := DriveTask(taskId, request);
      if conclusion.None? { return EndedStep(LeaseAuthorityUncertain), Some(outcome), taken; }
      StartAndCalls(before, started, asked, taskId, script);
      SettlesAfterActivation(current, active, taskId, still.records(started), still.records(asked));
      step := Conclude(active, taskId, conclusion.value);
      if step.OpenStep? {
        StartedAfterDrive(before, started, asked, taskId, current, active, step.open);
        SameRunNamesTheSameCheckout(current, step.open, store.root, still.declared);
        ActivatedAndConcluded(current, active, step.open, taskId, conclusion.value, outcome);
      }
      if step.StoppedStep? {
        ActiveIsPast(current, active, step.stopped, taskId);
        MovedThenStopped(current, active, step.stopped, taskId, Active);
      }
      return step, Some(outcome), taken;
    }

    // ---------------------------------------------------------------- the report

    /** The report, rendered from the last ledger this run was shown. */
    function Result(code: RunCode, reason: Option<StopReason>): AttendedResult
      reads this`seen, this`runOutcomes, this`stepsTaken
    {
      AttendedResult(code, reason, if seen.None? then [] else Reports(seen.value, runOutcomes), stepsTaken)
    }

    /** The run is shown a ledger. */
    method Show(l: Ledger)
      modifies this`seen, this`unshown
      ensures seen == Some(l) && unshown == {}
    {
      seen, unshown := Some(l), {};
    }

    /** A finished step, rendered. */
    method From(step: RunStep) returns (result: AttendedResult)
      requires !step.OpenStep? && StepHolds(step, store.files, runId)
      modifies this`seen, this`unshown
      ensures step.StoppedStep? ==>
        seen == Some(step.stopped) && unshown == {} && result == Result(BlockRunEnded, Some(step.reason))
      ensures step.EndedStep? ==>
        seen == old(seen) && unshown == old(unshown) && result == Result(step.code, None)
    {
      if step.StoppedStep? {
        Show(step.stopped);
        return Result(BlockRunEnded, Some(step.reason));
      }
      return Result(step.code, None);
    }

    /**
     * How an opened run's report stands to the disk. A recorded ending is the disk's own
     * account. In any other, the disk is ahead of the report by exactly the unshown tasks,
     * and in one that ended for the lease the report itself tells whether there are any.
     */
    ghost predicate EndsWell(result: AttendedResult)
      reads this`seen, this`unshown, this`runOutcomes, this`stepsTaken, store`files
    {
      && Shown() && result.tasks == Reports(seen.value, runOutcomes) && result.steps == stepsTaken
      && (result.code == BlockRunEnded <==> result.stopReason.Some?)
      && (result.code == BlockRunEnded ==>
            unshown == {} && Holds(store.files, runId, seen.value) && seen.value.stopReason == result.stopReason)
      && (result.code != BlockRunEnded ==> Unstopped(store.files, runId))
      && ReportEntitled(result.tasks)
      && (DrivenButPlanned(result.tasks) ==> unshown != {})
      && (result.code == LeaseAuthorityUncertain && unshown != {} ==> DrivenButPlanned(result.tasks))
    }

    /** Renders the end of a step after which the disk is as shown, or shows it. */
    method Finish(step: RunStep) returns (result: AttendedResult)
      requires !step.OpenStep? && StepHolds(step, store.files, runId) && Shown()
      requires if step.StoppedStep? then InOrder(step.stopped, runOutcomes) else Entitled(seen.value.tasks, runOutcomes)
      requires !OutcomesArePast(seen.value.tasks, runOutcomes) && step.EndedStep? ==> unshown != {}
      requires step == EndedStep(LeaseAuthorityUncertain) && unshown != {} ==> !OutcomesArePast(seen.value.tasks, runOutcomes)
      modifies this`seen, this`unshown
      ensures EndsWell(result)
      ensures step.StoppedStep? ==> seen == Some(step.stopped) && unshown == {} && result.stopReason == Some(step.reason)
      ensures step.EndedStep? ==> result.code == step.code && unshown == old(unshown)
    {
      hide Valid, Behind, OutcomesArePast, DrivenButPlanned, Entitled, ReportEntitled;
      if step.StoppedStep? { ShownLedgerIsNotBehind(store.files, runId, step.stopped); }
      result := From(step);
      DrivenButPlannedIff(seen.value, runOutcomes);
      EntitledReports(seen.value, runOutcomes);
    }

    /** Stops the run and renders the ending. */
    method StopRun(current: Ledger, reason: StopReason) returns (result: AttendedResult)
      requires Holds(store.files, runId, current) && current.stopReason.None?
      requires seen == Some(current) && unshown == {} && InOrder(current, runOutcomes)
      modifies this`now, this`seen, this`unshown, store`declaredId, store`files
      ensures EndsWell(result) && unshown == {} && OnlyMoved(old(store.files))
      ensures result.stopReason == Some(reason) || result.code == DurableWriteFailed
      ensures SteadyAt(current) && current.activeTaskId.None? && ReasonAgrees(current, reason) ==>
        result.stopReason == Some(reason) && seen == Some(current.(stopReason := Some(reason)))
    {
      hide Valid, Behind, OutcomesArePast, DrivenButPlanned, AllSupported, ReasonAgrees, NamesCheckout;
      ShownLedgerIsNotBehind(store.files, runId, current);
      var step := StopStep(current, reason);
      if step.StoppedStep? { SettledMoreIsInOrder(current, step.stopped, runOutcomes); }
      result := Finish(step);
    }

    // ------------------------------------------------------------------- one pass

    /** The head of a pass: the lease, the records, and the progress that is forced. */
    method Prepare(current: Ledger) returns (ready: Option<Ledger>, result: AttendedResult)
      requires Holds(store.files, runId, current) && current.stopReason.None?
      requires seen == Some(current) && unshown == {} && InOrder(current, runOutcomes)
      modifies this`now, this`seen, this`unshown, store`declaredId, store`files
      ensures OnlyMoved(old(store.files))
      ensures ready.Some? ==>
        && Holds(store.files, runId, ready.value) && ready.value.stopReason.None?
        && ready.value.activeTaskId == current.activeTaskId && SameRun(current, ready.value)
        && seen == ready && unshown == {} && InOrder(ready.value, runOutcomes) && (MayGoOn(current) ==> MayGoOn(ready.value))
      ensures ready.None? ==> EndsWell(result)
      ensures !script.leaseHeld(old(now) + 1) ==> ready.None? && result.code == LeaseAuthorityUncertain
      ensures script.leaseHeld(old(now) + 1) && EndingForcedAt(current, old(now) + 2).Some? ==>
        ready.None? && (result.stopReason == EndingForcedAt(current, old(now) + 2) || result.code == DurableWriteFailed)
      ensures Quiet(current) ==> unshown == {}
      ensures SteadyAt(current) && (forall t: nat :: script.leaseHeld(t)) ==>
        ready == Some(ForcedLedger(still.records(asked), current))
    {
      hide MayGoOn, Valid, Behind, OutcomesArePast, DrivenButPlanned, AllSupported, NamesCheckout, SameRun, ForcedLedger, ReconcileOf, Steady;
      ready := None;
      ShownLedgerIsNotBehind(store.files, runId, current);
      Tick();
      if !script.leaseHeld(now) { result := Finish(EndedStep(LeaseAuthorityUncertain)); return; }
      var forcedEnding := CheckRecords(current);
      if forcedEnding.Some? { result := StopRun(current, forcedEnding.value); return; }
      var reconciled := ApplyForcedProgress(current);
      if !reconciled.OpenStep? {
        if reconciled.StoppedStep? { SettledMoreIsInOrder(current, reconciled.stopped, runOutcomes); }
        result := Finish(reconciled);
        return;
      }
      SettledMoreIsInOrder(current, reconciled.open, runOutcomes);
      if MayGoOn(current) { SettledMoreMayGoOn(current, reconciled.open); }
      Show(reconciled.open);
      ready := seen;
      result := Result(RunGateRefused, None);
    }

    // ------------------------------------------------------ when nothing goes wrong

    /** The world does what it is for, and so far the run has only settled. */
    ghost predicate Hopeful(l: Ledger, request: Request, world: World)
      reads this`asked
    {
      && Promising(script, still, world, request) && Quiet(l)
      && OnCourse(l, still.records(asked), request) && l.stopReason.None? && l.activeTaskId.None?
    }

    /** Complete, with every record ready; or ended on the one member whose driver lost the lease. */
    ghost predicate Prospers(result: AttendedResult, request: Request)
      reads this`seen, this`unshown, this`asked
    {
      || (&& result.stopReason == Some(Complete) && unshown == {} && seen.Some?
          && forall e | e in seen.value.tasks :: e.disposition == Settled && IsReady(still.records(asked), e.taskId))
      || (result.code == LeaseAuthorityUncertain
          && exists t | t in request.definition.taskIds :: unshown == {t} && VerdictOf(script.drives(t), 0) == LeaseUncertain)
    }

    /** Every member's driver settles it in the end. */
    ghost predicate Settling(request: Request) {
      forall t | t in request.definition.taskIds :: VerdictOf(script.drives(t), 0) == SettleIt
    }

    /** No task becomes ready whose driver does not settle it. */
    ghost predicate ReadyMeansSettled() {
      forall asked, t | IsReady(still.records(asked), t) :: VerdictOf(script.drives(t), 0) == SettleIt
    }

    lemma DoneMeansComplete(current: Ledger, request: Request, world: World)
      requires Hopeful(current, request, world) && ChooseTask(current, request.eligibility) == Nothing
      ensures SteadyAt(current)
      ensures EndReasonFor(current.tasks) == Complete && ReasonAgrees(current, Complete)
      ensures forall e | e in current.tasks :: e.disposition == Settled && IsReady(still.records(asked), e.taskId)
    {
      NothingToChooseMeansDone(current, script, still, world, request, still.records(asked));
      AllSettledIsComplete(current, still.records(asked));
    }

    lemma ChosenStartsWell(current: Ledger, choice: Choice, request: Request, world: World)
      requires Hopeful(current, request, world) && CaughtUp(current, still.records(asked))
      requires choice == ChooseTask(current, request.eligibility) && choice.Chosen?
      ensures StartsWell(current, choice, request.blockBase) && forall t: nat :: script.leaseHeld(t)
      ensures VerdictOf(script.drives(choice.taskId), 0) in {SettleIt, LeaseUncertain}
      ensures HasRow(current.frozenDependencies, choice.taskId)
      ensures forall d | d in Needs(current.frozenDependencies, choice.taskId) :: IsReady(still.records(asked), d)
    {
      hide Promising, OnCourse, CaughtUp, ChooseTask, ProveChainBase, Allowed, OthersSupported, Needs, IsReady, VerdictOf, NamesCheckout,
        Steady, StartConclusionFor, HasRow;
      ChosenMemberStarts(current, script, still, world, request, asked, choice);
      OnCourseIsValid(current, still.records(asked), request);
      PromisesMade(script, still, world, request, choice.taskId);
    }

    /** Takes the answer of one drive into the report, and decides whether the run goes on. */
    method RecordDrive(current: Ledger, taskId: string, driven: RunStep, runOutcome: Option<RunOutcome>, steps: nat)
      returns (next: Option<Ledger>, result: AttendedResult)
      requires Valid(current) && TaskPlanned(current, taskId) && seen == Some(current) && MayGoOn(current)
      requires StepHolds(driven, store.files, runId) && KeepsTheRun(driven, current) && Shown()
      requires InOrder(current, runOutcomes)
      requires unshown <= {taskId} && (runOutcome.Some? ==> unshown == {taskId})
      requires driven == EndedStep(LeaseAuthorityUncertain) && unshown != {} ==> runOutcome.Some?
      requires driven.OpenStep? ==>
        && runOutcome.Some? && driven.open.activeTaskId.None?
        && ConcludedBy(current, driven.open, taskId, runOutcome.value)
      requires driven.StoppedStep? ==>
        if runOutcome.Some? then OneMoved(current, driven.stopped, taskId, Active)
        else driven.stopped.tasks == current.tasks
      modifies this`now, this`runOutcomes, this`seen, this`stepsTaken, this`unshown, store`declaredId, store`files
      ensures OnlyMoved(old(store.files))
      ensures next.Some? ==>
        && driven == OpenStep(next.value) && store.files == old(store.files)
        && seen == next && unshown == {} && InOrder(next.value, runOutcomes) && MayGoOn(next.value)
      ensures next.None? ==> EndsWell(result)
      ensures driven.OpenStep? ==>
        if EndsTheRun(runOutcome.value, driven.open)
        then next.None? && (result.stopReason == Some(EndReasonFor(driven.open.tasks)) || result.code == DurableWriteFailed)
        else next.Some?
      ensures if driven.EndedStep? then unshown == old(unshown) && result.code == driven.code else unshown == {}
      ensures stepsTaken == old(stepsTaken) + steps
    {
      hide MayGoOn, Valid, Behind, OutcomesArePast, DrivenButPlanned, NamesCheckout, SameRun, PastPlanned, EndReasonFor, ReasonAgrees,
        AllSupported, LedgerIn, TaskPlanned, EntryFor;
      next := None;
      ghost var outcomes := runOutcomes;
      if runOutcome.Some? {
        DrivenIsReportedPlanned(current, runOutcomes, taskId, runOutcome.value);
        UnshownIsEntitled(current, runOutcomes, taskId, runOutcome.value);
        runOutcomes := runOutcomes[taskId := runOutcome.value];
      }
      stepsTaken := stepsTaken + steps;
      if !driven.OpenStep? {
        if driven.StoppedStep? {
          if runOutcome.Some? {
            ConcludedIsInOrder(current, driven.stopped, outcomes, taskId, runOutcome.value);
          } else {
            SettledMoreIsInOrder(current, driven.stopped, outcomes);
          }
        }
        DrivenButPlannedIff(current, runOutcomes);
        result := Finish(driven);
        return;
      }
      var ledger := driven.open;
      ConcludedIsInOrder(current, ledger, outcomes, taskId, runOutcome.value);
      Show(ledger);
      LocalFailuresMean(current, ledger, taskId, runOutcome.value);
      if FailedLocally(ledger, taskId) && !IndependenceIsEstablished(ledger.frozenDependencies) {
        result := StopRun(ledger, EndReasonFor(ledger.tasks));
        return;
      }
      ConcludedMayGoOn(current, ledger, taskId, runOutcome.value);
      next := seen;
      result := Result(RunGateRefused, None);
    }

    /** The body of a pass: choose a member and take it from planned to concluded. */
    method Advance(current: Ledger, request: Request, ghost world: World)
      returns (next: Option<Ledger>, result: AttendedResult)
      requires Holds(store.files, runId, current) && current.stopReason.None? && current.activeTaskId.None?
      requires Follows(current, request)
      requires seen == Some(current) && unshown == {} && InOrder(current, runOutcomes) && MayGoOn(current)
      requires AskedSoundly(asked, runId, request) && StartedArePast(asked, current.tasks)
      requires stepsTaken == StepsIn(script, asked)
      modifies this`now, this`asked, this`runOutcomes, this`seen, this`stepsTaken, this`unshown, store`declaredId, store`files
      ensures OnlyMoved(old(store.files)) && AskedSoundly(asked, runId, request)
      ensures stepsTaken == StepsIn(script, asked) && Starts(asked) <= Starts(old(asked)) + 1
      ensures next.Some? ==>
        && Holds(store.files, runId, next.value) && next.value.stopReason.None? && next.value.activeTaskId.None?
        && seen == next && unshown == {} && InOrder(next.value, runOutcomes)
        && SameRun(current, next.value) && PlannedCount(next.value.tasks) < PlannedCount(current.tasks)
        && StartedArePast(asked, next.value.tasks) && MayGoOn(next.value)
      ensures next.None? ==> EndsWell(result)
      ensures ChooseTask(current, request.eligibility) == Nothing ==>
        && next.None? && asked == old(asked)
        && (result.stopReason == Some(EndReasonFor(current.tasks)) || result.code == DurableWriteFailed)
      ensures Quiet(current) && unshown != {} ==> result.code == LeaseAuthorityUncertain
      ensures Quiet(current) && LeaseNeverLost() ==> unshown == {}
      ensures old(Hopeful(current, request, world)) && CaughtUp(current, old(still.records(asked))) ==>
        if next.Some? then Hopeful(next.value, request, world) else Prospers(result, request)
    {
      hide MayGoOn, EndsTheRun, FailedLocally, IndependenceIsEstablished, Valid, Behind, OutcomesArePast, DrivenButPlanned, AllSupported, NamesCheckout, SameRun, PastPlanned, StartedArePast,
        AskedSoundly, ChooseTask, EndReasonFor, ReasonAgrees, UniqueMaximumOf, Promising, OnCourse, CaughtUp, Steady,
        VerdictOf, IsReady, OneMoved, OthersSupported, DrivenToTheEnd, LedgerIn, Needs, ProveChainBase, Allowed, PlannedCount,
        Entitled, ReportEntitled, ConcludedBy, Unstopped, ForcedLedger, StepsIn, Starts;
      next := None;
      ghost var before := asked;
      ghost var hopeful := Hopeful(current, request, world) && CaughtUp(current, still.records(asked));
      ShownLedgerIsNotBehind(store.files, runId, current);
      var choice := ChooseTask(current, request.eligibility);
      if choice == Nothing {
        if hopeful { DoneMeansComplete(current, request, world); }
        result := StopRun(current, EndReasonFor(current.tasks));
        return;
      }
      ChosenIsPlanned(current, request.eligibility, choice);
      MembersAreFrozen(current, IndexOf(current.tasks, choice.taskId));
      if hopeful { ChosenStartsWell(current, choice, request, world); }
      var driven, runOutcome, steps := DriveOneTask(choice, current, request);
      if hopeful { ChosenDriveSettles(current, script, still, world, request, before, asked, choice.taskId); }
      if hopeful && driven.OpenStep? {
        SettlingStaysOnCourse(current, driven.open, request, still.records(before), still.records(asked), choice.taskId);
        OnCourseNothingFailed(driven.open, still.records(asked), request, choice.taskId);
        LocalFailuresMean(current, driven.open, choice.taskId, runOutcome.value);
      }
      next, result := RecordDrive(current, choice.taskId, driven, runOutcome, steps);
    }

    // --------------------------------------------------------------------- the run

    function FirstOf(request: Request): Ledger {
      FirstLedger(request.definition, request.repositoryId, store.root, runId, request.startedAt)
    }

    /** What creating the run's ledger would answer at an instant. */
    function Creation(files: Files, request: Request, at: nat): SaveResult {
      CreateOutcome(files, store.root, script.declared(at), LedgerText(FirstOf(request)), script.fates(at))
    }

    /** Creates the run's ledger. There is no resume: a run id that has one is refused. */
    method OpenRun(request: Request) returns (step: RunStep)
      requires !created
      modifies this`now, this`created, store`declaredId, store`files
      ensures created <==> Creation(old(store.files), request, old(now) + 1).Saved?
      ensures created ==>
        && runId !in old(store.files) && store.files == old(store.files)[runId := Bytes(LedgerText(FirstOf(request)))]
        && Holds(store.files, runId, FirstOf(request)) && ClaimsNothing(FirstOf(request))
        && NamesCheckout(FirstOf(request), store.root, script.declared(old(now) + 1))
        && step == if NamesCheckout(FirstOf(request), store.root, script.declared(old(now) + 2))
                   then OpenStep(FirstOf(request)) else EndedStep(RunGateRefused)
      ensures !created ==>
        store.files == old(store.files) && (step == EndedStep(DurableWriteFailed) || step == EndedStep(RunGateRefused))
      ensures runId in old(store.files) ==> !created && step == EndedStep(RunGateRefused)
    {
      hide Valid, LoadOutcome, CreateOutcome, NamesCheckout, ClaimsNothing;
      Tick();
      CreateSavesTheDocument(store.files, store.root, store.declaredId, LedgerText(FirstOf(request)), script.fates(now));
      var saved := BlockProgress.StartBlockRun(
        store, request.definition, request.repositoryId, runId, request.startedAt, script.fates(now));
      if saved.Refused? {
        if saved.code == WriteFailed || saved.code == DirectoryCreateFailed { return EndedStep(DurableWriteFailed); }
        return EndedStep(RunGateRefused);
      }
      created := true;
      step := Reload(FirstOf(request));
    }

    /**
     * The passes over an open ledger, counted. Each takes a member out of the planned ones,
     * or is the last.
     */
    method RunPasses(first: Ledger, request: Request, ghost world: World)
      returns (result: AttendedResult, ghost passes: nat)
      requires Holds(store.files, runId, first) && ClaimsNothing(first) && Follows(first, request)
      requires seen == Some(first) && unshown == {} && asked == [] && runOutcomes == map[] && stepsTaken == 0
      modifies this`now, this`asked, this`runOutcomes, this`seen, this`stepsTaken, this`unshown, store`declaredId, store`files
      ensures EndsWell(result) && OnlyMoved(old(store.files)) && AskedSoundly(asked, runId, request)
      ensures Starts(asked) <= passes <= |first.tasks| + 1 && stepsTaken == StepsIn(script, asked)
      ensures Quiet(first) && unshown != {} ==> result.code == LeaseAuthorityUncertain
      ensures Quiet(first) && LeaseNeverLost() ==> unshown == {}
      ensures old(Hopeful(first, request, world)) ==> Prospers(result, request)
    {
      hide MayGoOn, Valid, Behind, DrivenButPlanned, AllSupported, NamesCheckout, StartedArePast, ChooseTask, Promising, OnCourse,
        CaughtUp, Steady, IsReady, LedgerIn, OnlyThisRunMoved, SameRun, OutcomesArePast, ClaimsNothing,
        VerdictOf, Entitled, ShownOf, EndReasonFor, ForcedLedger, AskedSoundly;
      passes := 0;
      var current := first;
      StartingOut(first, asked, runOutcomes);
      ClaimsNothingMayGoOn(first);
      NothingAsked(runId, request);
      NothingMoved(store.files, runId);
      ghost var before := store.files;
      while true
        invariant Holds(store.files, runId, current) && current.stopReason.None? && current.activeTaskId.None?
        invariant seen == Some(current) && unshown == {} && InOrder(current, runOutcomes)
        invariant Follows(current, request) && SameRun(first, current) && MayGoOn(current)
        invariant AskedSoundly(asked, runId, request) && StartedArePast(asked, current.tasks)
        invariant OnlyMoved(old(store.files))
        invariant passes + PlannedCount(current.tasks) <= |first.tasks|
        invariant Starts(asked) <= passes && stepsTaken == StepsIn(script, asked)
        invariant Quiet(first) ==> Quiet(current)
        invariant old(Hopeful(first, request, world)) ==> Hopeful(current, request, world)
        decreases PlannedCount(current.tasks)
      {
        passes := passes + 1;
        ghost var files := store.files;
        if Hopeful(current, request, world) { HopefulIsSteady(current, request, world); }
        var ready, ended := Prepare(current);
        MovedAgain(before, files, store.files, runId);
        if ready.None? { result := ended; return; }
        files := store.files;
        PassKeeps(first, current, ready.value, asked);
        SameRunNamesTheSameCheckout(first, ready.value, store.root, still.declared);
        if Hopeful(current, request, world) {
          ForcedProgressCatchesUp(current, still.records(asked), request);
        }
        var next, finished := Advance(ready.value, request, world);
        MovedAgain(before, files, store.files, runId);
        if next.None? { result := finished; return; }
        PassKeeps(first, ready.value, next.value, []);
        SameRunNamesTheSameCheckout(first, next.value, store.root, still.declared);
        current := next.value;
      }
    }

    lemma HopefulIsSteady(current: Ledger, request: Request, world: World)
      requires Hopeful(current, request, world)
      ensures SteadyAt(current) && forall t: nat :: script.leaseHeld(t)
    {
    }

    /**
     * The run. Its ledger is created exactly when both preflights are proven and the store
     * creates it; the report carries the dispositions on disk exactly when the run was shown
     * its ledger after the last move that landed. `world` is any world at all: what is
     * promised when nothing goes wrong is promised for it.
     */
    method Run(request: Request, ghost world: World) returns (result: AttendedResult, ghost passes: nat)
      requires Unstarted()
      modifies this, store`declaredId, store`files
      ensures created <==>
        script.authProven && script.capabilityProven && Creation(old(store.files), request, old(now) + 1).Saved?
      ensures runId in old(store.files) ==> !created && result.code == RunGateRefused
      ensures !created ==>
        && store.files == old(store.files) && result.tasks == [] && result.stopReason.None?
        && (result.code == RunGateRefused || result.code == DurableWriteFailed)
      ensures created ==> OnlyThisRunMoved(old(store.files)[runId := Bytes(LedgerText(FirstOf(request)))], store.files, runId)
      ensures created ==> (seen.None? <==> !NamesCheckout(FirstOf(request), store.root, script.declared(old(now) + 2)))
      ensures created && seen.None? ==>
        && result == AttendedResult(RunGateRefused, None, [], 0)
        && store.files == old(store.files)[runId := Bytes(LedgerText(FirstOf(request)))]
      ensures created && seen.Some? ==> EndsWell(result) && ReportNames(result.tasks, request.definition.taskIds)
      ensures created ==> (AsPersisted(store.files, runId, result.tasks) <==> seen.Some? && unshown == {})
      ensures created && Steady(script, still) ==>
        (AsPersisted(store.files, runId, result.tasks) <==> !DrivenButPlanned(result.tasks))
        && (DrivenButPlanned(result.tasks) ==> result.code == LeaseAuthorityUncertain)
      ensures created && Steady(script, still) && LeaseNeverLost() ==> AsPersisted(store.files, runId, result.tasks)
      ensures created && Promising(script, still, world, request) && ReadyMeansSettled() ==>
        (AsPersisted(store.files, runId, result.tasks) <==> Settling(request))
      ensures AskedSoundly(asked, runId, request)
      ensures Starts(asked) <= passes <= |request.definition.taskIds| + 1
      ensures result.steps == StepsIn(script, asked)
      ensures created && Promising(script, still, world, request) ==> Prospers(result, request)
      ensures created && Promising(script, still, world, request) && Settling(request) ==>
        && result.code == BlockRunEnded && result.stopReason == Some(Complete)
        && (forall report | report in result.tasks :: report.disposition == Settled)
    {
      hide Valid, Behind, AllSupported, NamesCheckout, Promising, OnCourse, CreateOutcome, ClaimsNothing, AskedSoundly,
        OnlyThisRunMoved, LedgerIn, AsPersisted, DrivenButPlanned, Steady, FirstLedger, Unstopped, ReportEntitled, VerdictOf;
      passes := 0;
      NothingAsked(runId, request);
      if !script.authProven || !script.capabilityProven { result := Result(RunGateRefused, None); return; }
      var opening := OpenRun(request);
      NothingMoved(store.files, runId);
      FirstLedgerFacts(request, still.records(asked), world);
      if !opening.OpenStep? {
        if created { AnEmptyReportIsNotAsPersisted(store.files, runId, FirstOf(request)); }
        result := Result(opening.code, None);
        return;
      }
      Show(opening.open);
      ghost var atOpening := store.files;
      result, passes := RunPasses(opening.open, request, world);
      ReportIsAsPersistedIff(result);
      ReportNamesThePlan(atOpening, store.files, runId, FirstOf(request), seen.value, runOutcomes, unshown);
    }

    /** The first ledger carries the request's plan, and is on course where nothing goes wrong. */
    lemma FirstLedgerFacts(request: Request, records: Records, world: World)
      ensures Follows(FirstOf(request), request) && |FirstOf(request).tasks| == |request.definition.taskIds|
      ensures Valid(FirstOf(request)) ==> OnCourse(FirstOf(request), records, request)
      ensures Promising(script, still, world, request) ==> Steady(script, still)
      ensures Steady(script, still) ==> forall t: nat :: script.declared(t) == still.declared
      ensures ClaimsNothing(FirstOf(request)) && FirstOf(request).activeTaskId.None? && FirstOf(request).stopReason.None?
    {
      hide Valid, Fingerprint, StrictRelation, ChainShapeOf, RecordsFollow, GitFollows, PlannerFollows;
      if Valid(FirstOf(request)) { FirstLedgerIsOnCourse(FirstOf(request), records, request); }
    }

    lemma ReportIsAsPersistedIff(result: AttendedResult)
      requires EndsWell(result)
      ensures AsPersisted(store.files, runId, result.tasks) <==> unshown == {}
      ensures LedgerIn(store.files, runId).Some? && Valid(LedgerIn(store.files, runId).value)
    {
      hide Valid, Behind, DrivenButPlanned, ReportEntitled;
      AsPersistedIff(store.files, runId, seen.value, runOutcomes, unshown);
    }
  }
}
