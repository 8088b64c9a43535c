/**
 * The world an attended block run lives in, and what the run asks of it.
 *
 * Everything the run does not decide is a script: the task records at every instant, the
 * identity the profile declares, whether the lease is held, whether writes land, what a
 * start answers, what Git answers, and what the driver answers for each task. Records,
 * profile, lease, disk and Git may change between any two questions. A driver's answers
 * for one task are finitely many, which is the model's form of "every continuation makes
 * durable progress".
 */
module RunScript {
  import opened Base
  import opened BlockDefinition
  import opened ChainShape
  import opened ChainFitness
  import opened TaskRecords
  import opened BlockLedger
  import opened BlockStore
  import opened BlockConclusion

  datatype Drive = Drive(outcome: RunOutcome, steps: nat)

  /** What the run has asked of the world outside its ledger, in order. */
  datatype Ask = StartAsk(handover: Handover) | DriveAsk(taskId: string)

  /**
   * The world, instant by instant. Task records and Git may also answer to what the run
   * has asked for so far: starting and driving a task is what changes its record.
   */
  datatype Script = Script(
    records: (nat, seq<Ask>) -> Records,
    declared: nat -> Option<string>,
    fates: nat -> WriteFate,
    leaseHeld: nat -> bool,
    starts: nat -> StartOutcome,
    git: (nat, seq<Ask>) -> Git,
    drives: string -> seq<Drive>,
    authProven: bool,
    capabilityProven: bool)

  datatype Choice = Nothing | Chosen(taskId: string, maximum: Option<string>)

  datatype Request = Request(
    definition: Definition, repositoryId: string, startedAt: string,
    eligibility: seq<Eligibility>, blockBase: Commit)

  /** One hand-over to the start path: the ledger and the Git answers it was decided on. */
  datatype Handover = Handover(ledger: Ledger, taskId: string, maximum: Option<string>, base: Commit, git: Git)

  /** What makes a member a candidate: planned, runnable now, and with a shape to build on. */
  predicate Selectable(l: Ledger, reports: seq<Eligibility>, e: Entry) {
    && e.disposition == Planned
    && MemberRunnability(e.taskId, reports, l.tasks).Runnable?
    && UniqueMaximumOf(l.frozenDependencies, e.taskId).Ok?
  }

  /** The first selectable member in frozen order. */
  function ChooseTask(l: Ledger, reports: seq<Eligibility>): Choice {
    var k := FirstFalse(seq(|l.tasks|, i requires 0 <= i < |l.tasks| => !Selectable(l, reports, l.tasks[i])));
    if k == |l.tasks| then Nothing
    else Chosen(l.tasks[k].taskId, UniqueMaximumOf(l.frozenDependencies, l.tasks[k].taskId).value)
  }

  lemma ChoiceMeans(l: Ledger, reports: seq<Eligibility>)
    ensures ChooseTask(l, reports) == Nothing <==> forall e | e in l.tasks :: !Selectable(l, reports, e)
    ensures ChooseTask(l, reports).Chosen? ==>
      && UniqueMaximumOf(l.frozenDependencies, ChooseTask(l, reports).taskId) == Ok(ChooseTask(l, reports).maximum)
      && exists i | 0 <= i < |l.tasks| ::
           && l.tasks[i].taskId == ChooseTask(l, reports).taskId && Selectable(l, reports, l.tasks[i])
           && forall k | 0 <= k < i :: !Selectable(l, reports, l.tasks[k])
  {
    hide MemberRunnability, UniqueMaximumOf;
    var skipped := seq(|l.tasks|, i requires 0 <= i < |l.tasks| => !Selectable(l, reports, l.tasks[i]));
    var k := FirstFalse(skipped);
    if k == |l.tasks| {
      forall e | e in l.tasks ensures !Selectable(l, reports, e) {
        var i :| 0 <= i < |l.tasks| && l.tasks[i] == e;
        assert skipped[i];
      }
    } else {
      assert !skipped[k] && l.tasks[k] in l.tasks;
      forall i | 0 <= i < k ensures !Selectable(l, reports, l.tasks[i]) { assert skipped[i]; }
    }
  }

  /** A member that is planned, that its own frozen report lets run now, and that has a shape to build on. */
  ghost predicate Candidate(l: Ledger, reports: seq<Eligibility>, e: Entry) {
    && e.disposition == Planned
    && MayRunNow(reports, l.tasks, e.taskId)
    && UniqueMaximumOf(l.frozenDependencies, e.taskId).Ok?
  }

  /** The choice is the first candidate in frozen order, and nothing exactly when there is none. */
  lemma ChosenMayRun(l: Ledger, reports: seq<Eligibility>)
    ensures ChooseTask(l, reports) == Nothing <==> forall e | e in l.tasks :: !Candidate(l, reports, e)
    ensures ChooseTask(l, reports).Chosen? ==>
      exists i | 0 <= i < |l.tasks| ::
        && l.tasks[i].taskId == ChooseTask(l, reports).taskId && Candidate(l, reports, l.tasks[i])
        && forall k | 0 <= k < i :: !Candidate(l, reports, l.tasks[k])
  {
    hide ChooseTask, MayRunNow, MemberRunnability, UniqueMaximumOf;
    ChoiceMeans(l, reports);
    forall e ensures Selectable(l, reports, e) <==> Candidate(l, reports, e) {
      RunnabilityMeans(e.taskId, reports, l.tasks);
    }
  }

  /** Some member of the plan requires another. */
  ghost predicate SomeDepends(l: Ledger) {
    exists i | 0 <= i < |l.frozenDependencies| :: |l.frozenDependencies[i].dependsOn| > 0
  }

  /** Where some member requires another, none has failed so far. */
  ghost predicate MayGoOn(l: Ledger) {
    SomeDepends(l) ==>
      forall i | 0 <= i < |l.tasks| :: l.tasks[i].disposition != Blocked && l.tasks[i].disposition != Abandoned
  }

  /**
   * What may be handed to the start path: a member of this run's own open ledger, the one
   * its choice names there, with the block base for a root and a proven base for a chained
   * member.
   */
  ghost predicate HandoverFit(h: Handover, runId: string, request: Request) {
    && Valid(h.ledger) && h.ledger.runId == runId
    && h.ledger.frozenTaskIds == request.definition.taskIds
    && h.ledger.frozenDependencies == request.definition.dependencies
    && h.ledger.stopReason.None? && h.ledger.activeTaskId.None?
    && ChooseTask(h.ledger, request.eligibility) == Chosen(h.taskId, h.maximum)
    && BaseFits(h, request.blockBase)
    && MayGoOn(h.ledger)
  }

  ghost predicate BaseFits(h: Handover, blockBase: Commit) {
    match h.maximum
    case None => RequiredOf(h.ledger, h.taskId) == [] && h.base == blockBase
    case Some(m) =>
      m in RequiredOf(h.ledger, h.taskId)
      && ProveChainBase(h.ledger, h.taskId, m, blockBase, h.git) == Ok(h.base)
  }

  /**
   * With Git telling the truth, a member handed over is planned in this run's own ledger,
   * a root gets the block base, and a chained member a base that is fit for the predecessors
   * the frozen plan names for it.
   */
  lemma HandoversAreFit(h: Handover, runId: string, request: Request, repo: Repository)
    requires HandoverFit(h, runId, request) && Truthful(h.git, repo)
    ensures h.ledger.runId == runId && h.taskId in request.definition.taskIds
    ensures EntryFor(h.ledger, h.taskId).Some? && EntryFor(h.ledger, h.taskId).value.disposition == Planned
    ensures MayRunNow(request.eligibility, h.ledger.tasks, h.taskId)
    ensures FindRow(request.definition.dependencies, h.taskId).Some?
    ensures
      var required := FindRow(request.definition.dependencies, h.taskId).value.dependsOn;
      if required == [] then h.base == request.blockBase
      else
        && FitBase(h.ledger, repo, h.taskId, request.blockBase, h.base)
        && forall p | p in required :: SoundPredecessor(h.ledger, repo, p, h.base)
    ensures MayGoOn(h.ledger)
  {
    hide Valid, ChooseTask, MayRunNow, MayGoOn;
    ChosenIsPlanned(h.ledger, request.eligibility, Chosen(h.taskId, h.maximum));
    ChosenMayRun(h.ledger, request.eligibility);
    var k := IndexOf(h.ledger.tasks, h.taskId);
    MembersAreFrozen(h.ledger, k);
    if h.maximum.Some? {
      ProvenBaseIsFit(h.ledger, h.taskId, h.maximum.value, request.blockBase, h.git, repo);
    }
  }

  lemma MembersAreFrozen(l: Ledger, k: nat)
    requires Valid(l) && k < |l.tasks|
    ensures l.tasks[k].taskId in l.frozenTaskIds
  {
    assert l.tasks[k].taskId == l.frozenTaskIds[k];
  }

  lemma MaximumIsRequired(l: Ledger, taskId: string)
    requires UniqueMaximumOf(l.frozenDependencies, taskId).Ok?
    ensures
      match UniqueMaximumOf(l.frozenDependencies, taskId).value
      case None => RequiredOf(l, taskId) == []
      case Some(m) => m in RequiredOf(l, taskId)
  {
    var row := FindRow(l.frozenDependencies, taskId).value;
    if row.dependsOn != [] {
      var dominating := Dominating(l.frozenDependencies, row.dependsOn, row.dependsOn);
      assert dominating[0] in dominating;
    }
  }

  lemma ChosenIsPlanned(l: Ledger, reports: seq<Eligibility>, choice: Choice)
    requires Valid(l) && choice == ChooseTask(l, reports) && choice.Chosen?
    ensures EntryFor(l, choice.taskId).Some? && EntryFor(l, choice.taskId).value.disposition == Planned
    ensures UniqueMaximumOf(l.frozenDependencies, choice.taskId) == Ok(choice.maximum)
  {
    hide Valid, ChooseTask, MemberRunnability, UniqueMaximumOf;
    ChoiceMeans(l, reports);
    var i :| 0 <= i < |l.tasks| && l.tasks[i].taskId == choice.taskId && Selectable(l, reports, l.tasks[i]);
    EntryForFinds(l, i);
  }

  // ------------------------------------------------------------- the driver's answers

  /** The driver's `k`-th answer for a task; once it has no more to say, nothing moves. */
  function AnswerAt(answers: seq<Drive>, k: nat): Drive {
    if k < |answers| then answers[k] else Drive(NoProgress, 0)
  }

  predicate Continues(answers: seq<Drive>, k: nat)
    ensures Continues(answers, k) ==> k < |answers|
  {
    ConclusionForRunOutcome(AnswerAt(answers, k).outcome) == Continue && AnswerAt(answers, k).steps > 0
  }

  /** What the answers from the `k`-th on amount to, with a continuation that lands nothing unresolved. */
  function VerdictOf(answers: seq<Drive>, k: nat): TaskConclusion
    decreases |answers| - k
  {
    if Continues(answers, k) then VerdictOf(answers, k + 1)
    else if ConclusionForRunOutcome(AnswerAt(answers, k).outcome) == Continue then Unresolved
    else ConclusionForRunOutcome(AnswerAt(answers, k).outcome)
  }

  /** How many more calls of the driver that takes. */
  function CallsNeeded(answers: seq<Drive>, k: nat): nat
    decreases |answers| - k
  {
    if Continues(answers, k) then 1 + CallsNeeded(answers, k + 1) else 1
  }

  function Calls(taskId: string, n: nat): (r: seq<Ask>)
    ensures |r| == n
  {
    seq(n, _ => DriveAsk(taskId))
  }

  // -------------------------------------------------------------- what was asked for

  /**
   * Every start was fit to be asked for, no member was handed over twice, and the driver
   * was only ever called for the member handed over last.
   */
  ghost predicate AskedSoundly(asked: seq<Ask>, runId: string, request: Request) {
    && (forall i | 0 <= i < |asked| && asked[i].StartAsk? :: HandoverFit(asked[i].handover, runId, request))
    && (forall i, j | 0 <= i < j < |asked| && asked[i].StartAsk? && asked[j].StartAsk? ::
          asked[i].handover.taskId != asked[j].handover.taskId)
    && (forall i | 0 <= i < |asked| && asked[i].DriveAsk? ::
          i > 0 && AskedFor(asked[i - 1]) == asked[i].taskId)
  }

  function AskedFor(ask: Ask): string {
    match ask
    case StartAsk(h) => h.taskId
    case DriveAsk(taskId) => taskId
  }

  ghost predicate PastPlanned(tasks: seq<Entry>, taskId: string) {
    exists i | 0 <= i < |tasks| :: tasks[i].taskId == taskId && tasks[i].disposition != Planned
  }

  /** Every member handed over or driven so far is past `PLANNED`. */
  ghost predicate StartedArePast(asked: seq<Ask>, tasks: seq<Entry>) {
    forall i | 0 <= i < |asked| :: PastPlanned(tasks, AskedFor(asked[i]))
  }

  // ------------------------------------------------------------- what it came to

  /** How often the driver has been called for a task. */
  ghost function CallsOf(asked: seq<Ask>, taskId: string): nat {
    if asked == [] then 0
    else CallsOf(asked[..|asked| - 1], taskId) + if asked[|asked| - 1] == DriveAsk(taskId) then 1 else 0
  }

  /** The durable steps of all the calls so far, each the next answer for its task. */
  ghost function StepsIn(script: Script, asked: seq<Ask>): nat {
    if asked == [] then 0
    else
      var before := asked[..|asked| - 1];
      StepsIn(script, before) +
      match asked[|asked| - 1]
      case StartAsk(_) => 0
      case DriveAsk(t) => AnswerAt(script.drives(t), CallsOf(before, t)).steps
  }

  /** How many members have been handed over. */
  ghost function Starts(asked: seq<Ask>): nat {
    if asked == [] then 0
    else Starts(asked[..|asked| - 1]) + if asked[|asked| - 1].StartAsk? then 1 else 0
  }

  lemma OneMoreAsk(script: Script, asked: seq<Ask>, ask: Ask)
    ensures Starts(asked + [ask]) == Starts(asked) + if ask.StartAsk? then 1 else 0
    ensures ask.StartAsk? ==>
      StepsIn(script, asked + [ask]) == StepsIn(script, asked) && forall t :: CallsOf(asked + [ask], t) == CallsOf(asked, t)
    ensures ask.DriveAsk? ==>
      && StepsIn(script, asked + [ask])
         == StepsIn(script, asked) + AnswerAt(script.drives(ask.taskId), CallsOf(asked, ask.taskId)).steps
      && CallsOf(asked + [ask], ask.taskId) == CallsOf(asked, ask.taskId) + 1
  {
    assert (asked + [ask])[..|asked|] == asked;
  }

  lemma {:induction false} NeverCalled(asked: seq<Ask>, tasks: seq<Entry>, taskId: string)
    requires StartedArePast(asked, tasks) && !PastPlanned(tasks, taskId)
    ensures CallsOf(asked, taskId) == 0
    decreases |asked|
  {
    if asked != [] {
      assert PastPlanned(tasks, AskedFor(asked[|asked| - 1]));
      hide PastPlanned;
      NeverCalled(asked[..|asked| - 1], tasks, taskId);
    }
  }

  lemma StartIsSound(asked: seq<Ask>, h: Handover, runId: string, request: Request)
    requires AskedSoundly(asked, runId, request) && StartedArePast(asked, h.ledger.tasks)
    requires HandoverFit(h, runId, request)
    ensures AskedSoundly(asked + [StartAsk(h)], runId, request)
  {
    hide Valid, ChooseTask, BaseFits;
    var after := asked + [StartAsk(h)];
    ChosenIsPlanned(h.ledger, request.eligibility, Chosen(h.taskId, h.maximum));
    forall i | 0 <= i < |asked| && asked[i].StartAsk? ensures asked[i].handover.taskId != h.taskId {
      assert PastPlanned(h.ledger.tasks, AskedFor(asked[i]));
      var k :| 0 <= k < |h.ledger.tasks| && h.ledger.tasks[k].taskId == asked[i].handover.taskId
             && h.ledger.tasks[k].disposition != Planned;
      EntryForFinds(h.ledger, k);
    }
  }

  lemma DriveIsSound(asked: seq<Ask>, taskId: string, runId: string, request: Request)
    requires AskedSoundly(asked, runId, request) && asked != [] && AskedFor(asked[|asked| - 1]) == taskId
    ensures AskedSoundly(asked + [DriveAsk(taskId)], runId, request)
  {
    hide HandoverFit;
  }

  lemma NothingAsked(runId: string, request: Request)
    ensures AskedSoundly([], runId, request)
  {
  }
}
