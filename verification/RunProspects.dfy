/**
 * What a block run can count on when nothing goes wrong: a world in which the start path,
 * the driver, Git and the planner all do what they are for.
 */
module RunProspects {
  import opened Base
  import opened PlanEncoding
  import opened BlockDefinition
  import opened BlockDependencies
  import opened ChainShape
  import opened ChainFitness
  import opened TaskRecords
  import opened BlockLedger
  import opened BlockEvidence
  import opened BlockStore
  import opened BlockProgress
  import opened BlockConclusion
  import opened ForcedProgress
  import opened RunScript
  import opened RunAccount

  /** The commit each member ends on, the revision of its last record, and the repository as it grows. */
  datatype World = World(result: string -> Commit, revision: string -> Revision, repo: seq<Ask> -> Repository)

  function Needs(rows: seq<Row>, taskId: string): seq<string> {
    match FindRow(rows, taskId)
    case Some(row) => row.dependsOn
    case None => []
  }

  /** Where a member of this relation is pinned: the block base, or its maximum's result. */
  function PinOf(rows: seq<Row>, blockBase: Commit, world: World, taskId: string): Commit {
    match UniqueMaximumOf(rows, taskId)
    case Ok(Some(m)) => world.result(m)
    case _ => blockBase
  }

  function FinalReading(request: Request, world: World, taskId: string): Reading {
    Read(
      TaskRecord(ReadyForPr,
        Some(PinOf(request.definition.dependencies, request.blockBase, world, taskId)),
        Some(world.result(taskId))),
      world.revision(taskId))
  }

  /** A ready record is the last word on its task. */
  ghost predicate ReadyIsLast(still: Stillness, world: World, request: Request) {
    && (forall asked, t :: IsReady(still.records(asked), t) ==> Load(still.records(asked), t) == FinalReading(request, world, t))
    && (forall asked, more: seq<Ask>, t :: IsReady(still.records(asked), t) ==> IsReady(still.records(asked + more), t))
  }

  ghost predicate StartsLeaveARecord(still: Stillness, request: Request) {
    forall asked, h: Handover | HasRow(request.definition.dependencies, h.taskId) ::
      Load(still.records(asked + [StartAsk(h)]), h.taskId).Read?
  }

  /** No task is ready before what it requires. */
  ghost predicate ReadyInOrder(still: Stillness, rows: seq<Row>) {
    forall asked, t, d :: IsReady(still.records(asked), t) && Requires(rows, t, d) ==> IsReady(still.records(asked), d)
  }

  /** A member whose predecessors are ready and whose driver settles it is ready once it was driven to the end. */
  ghost predicate DrivesMakeReady(script: Script, still: Stillness, rows: seq<Row>) {
    forall before, asked, t | HasRow(rows, t) && DrivenToTheEnd(before, asked, t, script) ::
      VerdictOf(script.drives(t), 0) == SettleIt && (forall d | Requires(rows, t, d) :: IsReady(still.records(before), d)) ==>
      IsReady(still.records(asked), t)
  }

  ghost predicate RecordsFollow(script: Script, still: Stillness, world: World, request: Request) {
    && ReadyIsLast(still, world, request)
    && StartsLeaveARecord(still, request)
    && ReadyInOrder(still, request.definition.dependencies)
    && DrivesMakeReady(script, still, request.definition.dependencies)
  }

  /** The commits a ready member vouches for: its own, on top of the one it was pinned at. */
  ghost predicate Delivered(repo: Repository, request: Request, world: World, taskId: string) {
    var c, pin := world.result(taskId), PinOf(request.definition.dependencies, request.blockBase, world, taskId);
    c in repo.parents && Referenced(repo, c) && Contains(repo, pin, c) && c != pin
  }

  /** A commit the run may ask about by now. */
  ghost predicate Known(records: Records, request: Request, world: World, c: Commit) {
    c == request.blockBase
    || exists t :: HasRow(request.definition.dependencies, t) && IsReady(records, t) && world.result(t) == c
  }

  /** Git answers the truth about every known commit, and a ready member delivered. */
  ghost predicate GitFollows(script: Script, still: Stillness, world: World, request: Request) {
    && (forall n: nat, asked :: Truthful(script.git(n, asked), world.repo(asked)))
    && GitAnswersKnown(script, still, world, request)
    && ReadyDelivered(still, world, request)
  }

  ghost predicate GitAnswersKnown(script: Script, still: Stillness, world: World, request: Request) {
    && (forall n: nat, asked, a | Known(still.records(asked), request, world, a) ::
          a in script.git(n, asked).present && a in script.git(n, asked).referenced)
    && (forall n: nat, asked, a, b |
          Known(still.records(asked), request, world, a) && Known(still.records(asked), request, world, b) ::
          (a, b) in script.git(n, asked).ancestry)
  }

  ghost predicate ReadyDelivered(still: Stillness, world: World, request: Request) {
    forall asked, t | HasRow(request.definition.dependencies, t) && IsReady(still.records(asked), t) ::
      Delivered(world.repo(asked), request, world, t)
  }

  /**
   * The planner found a member eligible, or blocked by nothing but members it requires,
   * the last of them included.
   */
  predicate PlannerFollows(rows: seq<Row>, reports: seq<Eligibility>, row: Row) {
    var r := FindEligibility(reports, row.taskId);
    && r.Some?
    && if r.value.eligible then row.dependsOn == []
       else
         && r.value.blockedByDependencies
         && (forall d | d in r.value.unsatisfied :: d in row.dependsOn)
         && (row.dependsOn != [] ==>
               match UniqueMaximumOf(rows, row.taskId)
               case Ok(Some(m)) => m in r.value.unsatisfied
               case _ => false)
  }

  /** Nothing goes wrong, except that a driver may find the lease lost. */
  ghost predicate Promising(script: Script, still: Stillness, world: World, request: Request) {
    var rows := request.definition.dependencies;
    && Steady(script, still)
    && (forall t: nat :: script.leaseHeld(t) && StartConclusionFor(script.starts(t)) == DriveIt)
    && StrictRelation(rows) && ChainShapeOf(rows) == Shaped
    && (forall row | row in rows ::
          && PlannerFollows(rows, request.eligibility, row)
          && VerdictOf(script.drives(row.taskId), 0) in {SettleIt, LeaseUncertain})
    && RecordsFollow(script, still, world, request)
    && GitFollows(script, still, world, request)
  }

  // ------------------------------------------------------- what an accepted shape gives

  /** Failures are local exactly where no member requires another. */
  lemma IndependentMeans(rows: seq<Row>)
    ensures IndependenceIsEstablished(rows) <==> forall a, b :: !Requires(rows, a, b)
  {
    if !IndependenceIsEstablished(rows) {
      var row :| row in rows && row.dependsOn != [];
      var i :| 0 <= i < |rows| && rows[i] == row;
      assert Requires(rows, row.taskId, row.dependsOn[0]);
    }
  }

  lemma NeedsAreRequired(rows: seq<Row>, taskId: string)
    requires StrictRelation(rows)
    ensures forall d :: Requires(rows, taskId, d) <==> d in Needs(rows, taskId)
    ensures forall d | d in Needs(rows, taskId) :: HasRow(rows, d)
  {
    var row := FindRow(rows, taskId);
    if row.Some? {
      RowsAgree(rows, row.value);
      var i :| 0 <= i < |rows| && rows[i] == row.value;
    }
  }

  /** A member that requires something requires its maximum and what that requires, and no more. */
  lemma MaximumAndBelow(rows: seq<Row>, taskId: string) returns (m: string)
    requires StrictRelation(rows) && ChainShapeOf(rows) == Shaped && Needs(rows, taskId) != []
    ensures UniqueMaximumOf(rows, taskId) == Ok(Some(m)) && m in Needs(rows, taskId) && HasRow(rows, m)
    ensures forall d :: d in Needs(rows, taskId) <==> d == m || d in Needs(rows, m)
    ensures |set d | d in Needs(rows, m)| < |set d | d in Needs(rows, taskId)|
  {
    hide ChainShapeOf, StrictRelation, UniqueMaximumOf;
    var row := FindRow(rows, taskId).value;
    RequiredSetIsMaximumAndBelow(rows, row);
    m := UniqueMaximumOf(rows, taskId).value.value;
    NeedsAreRequired(rows, taskId);
    NeedsAreRequired(rows, m);
    var below := FindRow(rows, m).value;
    SmallerRow(rows, row, m, below);
  }

  lemma ContainsIsTransitive(repo: Repository, a: Commit, b: Commit, c: Commit)
    requires Contains(repo, a, b) && Contains(repo, b, c)
    ensures Contains(repo, a, c)
  {
    var p :| Lineage(repo, p) && p[0] == a && p[|p| - 1] == b;
    var q :| Lineage(repo, q) && q[0] == b && q[|q| - 1] == c;
    var r := p + q[1..];
    forall i | 0 <= i < |r| - 1 ensures IsParent(repo, r[i], r[i + 1]) {
      if i >= |p| - 1 { assert r[i] == q[i - (|p| - 1)] && r[i + 1] == q[i + 1 - (|p| - 1)]; }
    }
    assert Lineage(repo, r);
  }

  /**
   * Each member is built on its maximum's result and nothing else, yet the result of every
   * member it requires, and the block base, are in the history of its own.
   */
  lemma {:induction false} ResultContainsWhatIsRequired(
    script: Script, still: Stillness, world: World, request: Request, asked: seq<Ask>, taskId: string)
    requires Promising(script, still, world, request)
    requires HasRow(request.definition.dependencies, taskId) && IsReady(still.records(asked), taskId)
    ensures Contains(world.repo(asked), request.blockBase, world.result(taskId))
    ensures forall d | d in Needs(request.definition.dependencies, taskId) ::
      Contains(world.repo(asked), world.result(d), world.result(taskId))
    decreases |set d | d in Needs(request.definition.dependencies, taskId)|
  {
    hide StrictRelation, ChainShapeOf, PlannerFollows, VerdictOf, Contains, Truthful, DrivenToTheEnd, IsReady, Referenced;
    var rows, repo := request.definition.dependencies, world.repo(asked);
    assert Delivered(repo, request, world, taskId);
    if Needs(rows, taskId) != [] {
      var m := MaximumAndBelow(rows, taskId);
      NeedsAreRequired(rows, taskId);
      assert Requires(rows, taskId, m);
      ResultContainsWhatIsRequired(script, still, world, request, asked, m);
      ContainsIsTransitive(repo, request.blockBase, world.result(m), world.result(taskId));
      forall d | d in Needs(rows, taskId) && d != m ensures Contains(repo, world.result(d), world.result(taskId)) {
        ContainsIsTransitive(repo, world.result(d), world.result(m), world.result(taskId));
      }
    }
  }

  /** Below every member that requires something there is one that requires nothing. */
  lemma {:induction false} RootBelow(rows: seq<Row>, taskId: string) returns (root: string)
    requires StrictRelation(rows) && ChainShapeOf(rows) == Shaped && Needs(rows, taskId) != []
    ensures root in Needs(rows, taskId) && HasRow(rows, root) && Needs(rows, root) == []
    decreases |set d | d in Needs(rows, taskId)|
  {
    hide StrictRelation, ChainShapeOf, UniqueMaximumOf;
    var m := MaximumAndBelow(rows, taskId);
    root := m;
    if Needs(rows, m) != [] { root := RootBelow(rows, m); }
  }

  // -------------------------------------------------------------- a ledger on course

  /** Every member is planned or settled, and the records support it all. */
  ghost predicate OnCourse(l: Ledger, records: Records, request: Request) {
    && Valid(l) && l.frozenDependencies == request.definition.dependencies
    && (forall e | e in l.tasks :: e.disposition == Planned || e.disposition == Settled)
    && AllSupported(records, l.tasks)
  }

  /** No record is ahead of the ledger. */
  ghost predicate CaughtUp(l: Ledger, records: Records) {
    forall e | e in l.tasks && e.disposition == Planned :: !IsReady(records, e.taskId)
  }

  lemma ForcedProgressCatchesUp(l: Ledger, records: Records, request: Request)
    requires OnCourse(l, records, request) && Valid(ForcedLedger(records, l))
    ensures OnCourse(ForcedLedger(records, l), records, request) && CaughtUp(ForcedLedger(records, l), records)
  {
    hide Valid, ProveEntry;
    var n := ForcedLedger(records, l);
    forall e | e in n.tasks
      ensures Supported(records, e) && (e.disposition == Planned || e.disposition == Settled)
      ensures e.disposition == Planned ==> !IsReady(records, e.taskId)
    {
      var i :| 0 <= i < |n.tasks| && n.tasks[i] == e;
      assert l.tasks[i] in l.tasks;
      ProvenMeansSupported(records, l.tasks[i]);
    }
  }

  lemma EveryRowHasAnEntry(l: Ledger, taskId: string) returns (i: nat)
    requires Valid(l) && HasRow(l.frozenDependencies, taskId)
    ensures i < |l.tasks| && l.tasks[i].taskId == taskId && l.frozenDependencies[i].taskId == taskId
    ensures EntryFor(l, taskId) == Some(l.tasks[i]) && l.tasks[i] in l.tasks
  {
    i :| 0 <= i < |l.frozenDependencies| && l.frozenDependencies[i].taskId == taskId;
    assert l.tasks[i].taskId == l.frozenTaskIds[i];
    EntryForFinds(l, i);
  }

  lemma EveryEntryHasARow(l: Ledger, i: nat)
    requires Valid(l) && i < |l.tasks|
    ensures HasRow(l.frozenDependencies, l.tasks[i].taskId)
  {
    assert l.frozenDependencies[i].taskId == l.frozenTaskIds[i];
  }

  lemma ReadyIsFinal(script: Script, still: Stillness, world: World, request: Request, asked: seq<Ask>, taskId: string)
    requires Promising(script, still, world, request) && IsReady(still.records(asked), taskId)
    ensures Load(still.records(asked), taskId) == FinalReading(request, world, taskId)
    ensures forall more: seq<Ask> :: IsReady(still.records(asked + more), taskId)
  {
    hide StrictRelation, ChainShapeOf, PlannerFollows, VerdictOf, GitFollows, IsReady, FinalReading, StartsLeaveARecord,
      ReadyInOrder, DrivesMakeReady;
    var final := FinalReading(request, world, taskId);
  }

  /** A settled entry is the image of the last record of its task; a planned one claims nothing. */
  lemma EntryTells(
    l: Ledger, script: Script, still: Stillness, world: World, request: Request, asked: seq<Ask>, taskId: string)
    requires Promising(script, still, world, request) && OnCourse(l, still.records(asked), request)
    requires HasRow(request.definition.dependencies, taskId)
    ensures IsSettled(l, taskId) ==>
      && IsReady(still.records(asked), taskId)
      && ResultOf(l, taskId) == Some(world.result(taskId))
      && BaseOf(l, taskId) == Some(PinOf(request.definition.dependencies, request.blockBase, world, taskId))
    ensures !IsSettled(l, taskId) ==> TaskPlanned(l, taskId) && BaseOf(l, taskId).None?
    ensures CaughtUp(l, still.records(asked)) ==> (IsSettled(l, taskId) <==> IsReady(still.records(asked), taskId))
  {
    hide Valid, Promising, PinOf;
    var i := EveryRowHasAnEntry(l, taskId);
    assert Supported(still.records(asked), l.tasks[i]);
    if IsReady(still.records(asked), taskId) { ReadyIsFinal(script, still, world, request, asked, taskId); }
  }

  /** What is settled stays supported, whatever is asked for next. */
  lemma SupportPersists(
    l: Ledger, script: Script, still: Stillness, world: World, request: Request, asked: seq<Ask>, more: seq<Ask>)
    requires Promising(script, still, world, request) && OnCourse(l, still.records(asked), request)
    ensures AllSupported(still.records(asked + more), l.tasks)
  {
    hide Valid, Promising, PinOf;
    forall e | e in l.tasks ensures Supported(still.records(asked + more), e) {
      assert Supported(still.records(asked), e);
      if e.disposition == Settled {
        ReadyIsFinal(script, still, world, request, asked, e.taskId);
        ReadyIsFinal(script, still, world, request, asked + more, e.taskId);
      }
    }
  }

  /** While a member is planned, some planned member has everything it requires settled. */
  lemma {:induction false} LowestPlanned(l: Ledger, records: Records, request: Request, taskId: string) returns (lowest: string)
    requires OnCourse(l, records, request) && StrictRelation(l.frozenDependencies)
    requires HasRow(l.frozenDependencies, taskId) && TaskPlanned(l, taskId)
    ensures HasRow(l.frozenDependencies, lowest) && TaskPlanned(l, lowest)
    ensures forall d | d in Needs(l.frozenDependencies, lowest) :: IsSettled(l, d)
    decreases |set d | d in Needs(l.frozenDependencies, taskId)|
  {
    hide Valid, StrictRelation, AllSupported;
    var rows := l.frozenDependencies;
    NeedsAreRequired(rows, taskId);
    if d :| d in Needs(rows, taskId) && !IsSettled(l, d) {
      var i := EveryRowHasAnEntry(l, d);
      SmallerRow(rows, FindRow(rows, taskId).value, d, FindRow(rows, d).value);
      lowest := LowestPlanned(l, records, request, d);
    } else {
      lowest := taskId;
    }
  }

  lemma SettledMeansHasSettled(l: Ledger, taskId: string)
    requires Valid(l)
    ensures IsSettled(l, taskId) <==> HasSettled(l.tasks, taskId)
  {
    hide Valid;
    if e :| e in l.tasks && e.taskId == taskId && e.disposition == Settled {
      var i :| 0 <= i < |l.tasks| && l.tasks[i] == e;
      EntryForFinds(l, i);
    }
    if IsSettled(l, taskId) { assert EntryFor(l, taskId).value in l.tasks; }
  }

  /** For a planner that follows the relation, runnable means that everything required is settled. */
  lemma RunnableIff(l: Ledger, records: Records, request: Request, row: Row)
    requires OnCourse(l, records, request) && PlannerFollows(l.frozenDependencies, request.eligibility, row)
    ensures (forall d | d in row.dependsOn :: IsSettled(l, d)) ==>
      MemberRunnability(row.taskId, request.eligibility, l.tasks).Runnable?
    ensures MemberRunnability(row.taskId, request.eligibility, l.tasks).Runnable? && row.dependsOn != [] ==>
      match UniqueMaximumOf(l.frozenDependencies, row.taskId)
      case Ok(Some(m)) => IsSettled(l, m)
      case _ => false
  {
    hide Valid, IsSettled, HasSettled, UniqueMaximumOf;
    forall d ensures IsSettled(l, d) <==> HasSettled(l.tasks, d) { SettledMeansHasSettled(l, d); }
  }

  /** A run on course with a planned member left has one that can be chosen. */
  lemma SomethingCanRun(
    l: Ledger, script: Script, still: Stillness, world: World, request: Request, records: Records, i: nat)
    returns (k: nat)
    requires Promising(script, still, world, request) && OnCourse(l, records, request)
    requires i < |l.tasks| && l.tasks[i].disposition != Settled
    ensures k < |l.tasks| && Selectable(l, request.eligibility, l.tasks[k])
  {
    hide Valid, StrictRelation, AllSupported, RecordsFollow, GitFollows, PlannerFollows, UniqueMaximumOf,
      MemberRunnability, ChainShapeOf, VerdictOf;
    EveryEntryHasARow(l, i);
    EntryForFinds(l, i);
    assert l.tasks[i] in l.tasks;
    var lowest := LowestPlanned(l, records, request, l.tasks[i].taskId);
    k := EveryRowHasAnEntry(l, lowest);
    var row := FindRow(l.frozenDependencies, lowest).value;
    RunnableIff(l, records, request, row);
    ShapedMeansEveryRowHasShape(l.frozenDependencies);
    assert HasShape(l.frozenDependencies, row);
  }

  lemma NothingToChooseMeansDone(
    l: Ledger, script: Script, still: Stillness, world: World, request: Request, records: Records)
    requires Promising(script, still, world, request) && OnCourse(l, records, request)
    requires ChooseTask(l, request.eligibility) == Nothing
    ensures forall e | e in l.tasks :: e.disposition == Settled
  {
    hide OnCourse, Promising, ChooseTask, Selectable;
    ChoiceMeans(l, request.eligibility);
    forall i | 0 <= i < |l.tasks| ensures l.tasks[i].disposition == Settled {
      if l.tasks[i].disposition != Settled {
        var k := SomethingCanRun(l, script, still, world, request, records, i);
      }
    }
  }

  lemma ReadyNeedsAreReady(script: Script, still: Stillness, world: World, request: Request, asked: seq<Ask>, taskId: string)
    requires Promising(script, still, world, request) && IsReady(still.records(asked), taskId)
    ensures forall d | d in Needs(request.definition.dependencies, taskId) :: IsReady(still.records(asked), d)
  {
    hide StrictRelation, ChainShapeOf, PlannerFollows, VerdictOf, GitFollows, IsReady, ReadyIsLast, StartsLeaveARecord,
      DrivesMakeReady;
    NeedsAreRequired(request.definition.dependencies, taskId);
  }

  /** A chosen member has everything it requires settled, though its planner only named its maximum. */
  lemma ChosenNeedsAreSettled(
    l: Ledger, script: Script, still: Stillness, world: World, request: Request, asked: seq<Ask>, choice: Choice)
    requires Promising(script, still, world, request)
    requires OnCourse(l, still.records(asked), request) && CaughtUp(l, still.records(asked))
    requires choice == ChooseTask(l, request.eligibility) && choice.Chosen?
    ensures HasRow(l.frozenDependencies, choice.taskId) && TaskPlanned(l, choice.taskId)
    ensures UniqueMaximumOf(l.frozenDependencies, choice.taskId) == Ok(choice.maximum)
    ensures forall d | d in Needs(l.frozenDependencies, choice.taskId) ::
      IsSettled(l, d) && IsReady(still.records(asked), d)
  {
    hide Valid, StrictRelation, AllSupported, GitFollows, RecordsFollow, PlannerFollows, UniqueMaximumOf, ChooseTask,
      MemberRunnability, ChainShapeOf, VerdictOf, OnCourse, IsReady, CaughtUp, IsSettled;
    var rows, t := l.frozenDependencies, choice.taskId;
    OnCourseIsValid(l, still.records(asked), request);
    ChoiceMeans(l, request.eligibility);
    ChosenIsPlanned(l, request.eligibility, choice);
    var i :| 0 <= i < |l.tasks| && l.tasks[i].taskId == t && Selectable(l, request.eligibility, l.tasks[i]);
    EveryEntryHasARow(l, i);
    var row := FindRow(rows, t).value;
    if row.dependsOn != [] {
      RunnableIff(l, still.records(asked), request, row);
      var m := MaximumAndBelow(rows, t);
      EntryTells(l, script, still, world, request, asked, m);
      ReadyNeedsAreReady(script, still, world, request, asked, m);
      NeedsAreRequired(rows, t);
      forall d | d in Needs(rows, t) ensures IsSettled(l, d) && IsReady(still.records(asked), d) {
        EntryTells(l, script, still, world, request, asked, d);
      }
    }
  }

  lemma OnCourseIsValid(l: Ledger, records: Records, request: Request)
    requires OnCourse(l, records, request)
    ensures Valid(l) && l.frozenDependencies == request.definition.dependencies
  {
  }

  /** Git cannot refuse the base of a chosen member: its maximum's result is fit. */
  lemma ChosenBaseIsProven(
    l: Ledger, script: Script, still: Stillness, world: World, request: Request, asked: seq<Ask>, choice: Choice, n: nat)
    requires Promising(script, still, world, request)
    requires OnCourse(l, still.records(asked), request) && CaughtUp(l, still.records(asked))
    requires choice == ChooseTask(l, request.eligibility) && choice.Chosen? && choice.maximum.Some?
    ensures ProveChainBase(l, choice.taskId, choice.maximum.value, request.blockBase, script.git(n, asked)).Ok?
  {
    hide Valid, StrictRelation, AllSupported, PlannerFollows, UniqueMaximumOf, ChooseTask, RecordsFollow, ChainShapeOf,
      VerdictOf, OnCourse, IsReady, CaughtUp, IsSettled, ProveChainBase, Contains, Truthful, PinOf, Anchors, ResultOf, BaseOf;
    var rows, t, m, git, repo := l.frozenDependencies, choice.taskId, choice.maximum.value, script.git(n, asked), world.repo(asked);
    OnCourseIsValid(l, still.records(asked), request);
    ChosenNeedsAreSettled(l, script, still, world, request, asked, choice);
    MaximumIsRequired(l, t);
    var m' := MaximumAndBelow(rows, t);
    NeedsAreRequired(rows, t);
    NeedsAreRequired(rows, m);
    EntryTells(l, script, still, world, request, asked, m);
    ResultContainsWhatIsRequired(script, still, world, request, asked, m);
    var base := world.result(m);
    assert Delivered(repo, request, world, m) && Known(still.records(asked), request, world, base);
    CommitContainsItself(repo, base);
    forall p | p in RequiredOf(l, t)
      ensures SoundPredecessor(l, repo, p, base) && ResultOf(l, p).Some? && (ResultOf(l, p).value, base) in git.ancestry
    {
      EntryTells(l, script, still, world, request, asked, p);
      assert Delivered(repo, request, world, p) && Known(still.records(asked), request, world, world.result(p));
    }
    AnchorsAreTheBlockBase(l, script, still, world, request, asked, t);
    SingletonAnchors(Anchors(l), request.blockBase);
    OneAnchor(l, request.blockBase);
    assert Known(still.records(asked), request, world, request.blockBase);
    BaseIsProvenIffFit(l, t, m, request.blockBase, git, repo, base);
  }

  lemma AnchorsAreTheBlockBase(
    l: Ledger, script: Script, still: Stillness, world: World, request: Request, asked: seq<Ask>, taskId: string)
    requires Promising(script, still, world, request) && OnCourse(l, still.records(asked), request)
    requires Needs(l.frozenDependencies, taskId) != []
    requires forall d | d in Needs(l.frozenDependencies, taskId) :: IsSettled(l, d)
    ensures Anchors(l) == {request.blockBase}
  {
    hide Valid, StrictRelation, AllSupported, PlannerFollows, RecordsFollow, GitFollows, ChainShapeOf, VerdictOf, IsReady, IsSettled,
      BaseOf, FindRow, UniqueMaximumOf, Steady, OnCourse, Needs;
    var rows := l.frozenDependencies;
    OnCourseIsValid(l, still.records(asked), request);
    var root := RootBelow(rows, taskId);
    EntryTells(l, script, still, world, request, asked, root);
    var rootRow := RowIsIn(rows, root);
    RootsArePinnedAtTheBlockBase(rows, rootRow, request.blockBase, world);
    forall row | row in rows && row.dependsOn == [] && BaseOf(l, row.taskId).Some?
      ensures BaseOf(l, row.taskId).value == request.blockBase
    {
      RootsArePinnedAtTheBlockBase(rows, row, request.blockBase, world);
      EntryTells(l, script, still, world, request, asked, row.taskId);
    }
  }

  lemma RootsArePinnedAtTheBlockBase(rows: seq<Row>, row: Row, blockBase: Commit, world: World)
    requires StrictRelation(rows) && row in rows
    ensures HasRow(rows, row.taskId) && Needs(rows, row.taskId) == row.dependsOn
    ensures row.dependsOn == [] ==> PinOf(rows, blockBase, world, row.taskId) == blockBase
  {
    RowsAgree(rows, row);
  }

  /** Started in a world that follows, the activation of a chosen member lands. */
  lemma ChosenStartLands(
    l: Ledger, script: Script, still: Stillness, world: World, request: Request, asked: seq<Ask>, h: Handover)
    requires Promising(script, still, world, request) && OnCourse(l, still.records(asked), request)
    requires l.stopReason.None? && l.activeTaskId.None? && TaskPlanned(l, h.taskId)
    requires HasRow(l.frozenDependencies, h.taskId)
    ensures Allowed(Activate, still.records(asked + [StartAsk(h)]), l, h.taskId)
    ensures OthersSupported(still.records(asked + [StartAsk(h)]), l, h.taskId)
  {
    hide Valid, StrictRelation, PlannerFollows, GitFollows, ChainShapeOf, VerdictOf, IsReady, ReadyIsLast, ReadyInOrder,
      DrivesMakeReady;
    SupportPersists(l, script, still, world, request, asked, [StartAsk(h)]);
    OthersAreSupportedToo(still.records(asked + [StartAsk(h)]), l, h.taskId);
    assert Load(still.records(asked + [StartAsk(h)]), h.taskId).Read?;
  }

  /** Driven to the end by a driver that settles it, a chosen member is ready, and the rest is as supported as before. */
  lemma ChosenDriveSettles(
    l: Ledger, script: Script, still: Stillness, world: World, request: Request,
    before: seq<Ask>, asked: seq<Ask>, taskId: string)
    requires Promising(script, still, world, request) && OnCourse(l, still.records(before), request)
    requires HasRow(l.frozenDependencies, taskId) && DrivenToTheEnd(before, asked, taskId, script)
    requires forall d | d in Needs(l.frozenDependencies, taskId) :: IsReady(still.records(before), d)
    ensures OthersSupported(still.records(asked), l, taskId)
    ensures VerdictOf(script.drives(taskId), 0) == SettleIt ==> IsReady(still.records(asked), taskId)
  {
    hide Valid, StrictRelation, PlannerFollows, GitFollows, ChainShapeOf, VerdictOf, IsReady, CallsNeeded, Calls, ReadyIsLast,
      StartsLeaveARecord, ReadyInOrder, Steady, HasRow, OnCourse, AllSupported, OthersSupported, Needs;
    OnCourseIsValid(l, still.records(before), request);
    NeedsAreRequired(l.frozenDependencies, taskId);
    var h: Handover :| h.taskId == taskId
      && asked == before + [StartAsk(h)] + Calls(taskId, CallsNeeded(script.drives(taskId), 0));
    var more := [StartAsk(h)] + Calls(taskId, CallsNeeded(script.drives(taskId), 0));
    assert asked == before + more;
    SupportPersists(l, script, still, world, request, before, more);
    OthersAreSupportedToo(still.records(asked), l, taskId);
  }

  lemma SettlingStaysOnCourse(
    l: Ledger, after: Ledger, request: Request, earlier: Records, records: Records, taskId: string)
    requires OnCourse(l, earlier, request) && OneMoved(l, after, taskId, Settled)
    requires Valid(after) && SameRun(l, after) && AllSupported(records, after.tasks)
    ensures OnCourse(after, records, request)
  {
    hide Valid, AllSupported;
    forall e | e in after.tasks ensures e.disposition == Planned || e.disposition == Settled {
      var i :| 0 <= i < |after.tasks| && after.tasks[i] == e;
      assert l.tasks[i] in l.tasks;
    }
  }

  /** A first ledger is on course whatever the records say: it claims nothing. */
  lemma FirstLedgerIsOnCourse(l: Ledger, records: Records, request: Request)
    requires Valid(l) && l.frozenDependencies == request.definition.dependencies
    requires forall e | e in l.tasks ::
      e.disposition == Planned && e.evidenceRevision.None? && e.baseCommit.None? && e.resultCommit.None?
    ensures OnCourse(l, records, request)
  {
  }

  /** A run that ends with everything settled can say so. */
  lemma AllSettledIsComplete(l: Ledger, records: Records)
    requires AllSupported(records, l.tasks) && forall e | e in l.tasks :: e.disposition == Settled
    ensures EndReasonFor(l.tasks) == Complete && ReasonAgrees(l, Complete)
    ensures forall e | e in l.tasks :: IsReady(records, e.taskId)
  {
    forall e | e in l.tasks ensures IsReady(records, e.taskId) { assert Supported(records, e); }
  }

  lemma OnCourseNothingFailed(l: Ledger, records: Records, request: Request, taskId: string)
    requires OnCourse(l, records, request)
    ensures !FailedLocally(l, taskId)
  {
    hide Valid;
    if EntryFor(l, taskId).Some? { assert EntryFor(l, taskId).value in l.tasks; }
  }

  /** Whatever is asked of it, a promising world hands a chosen member over and lets its activation land. */
  lemma ChosenMemberStarts(
    l: Ledger, script: Script, still: Stillness, world: World, request: Request, asked: seq<Ask>, choice: Choice)
    requires Promising(script, still, world, request)
    requires OnCourse(l, still.records(asked), request) && CaughtUp(l, still.records(asked))
    requires l.stopReason.None? && l.activeTaskId.None?
    requires choice == ChooseTask(l, request.eligibility) && choice.Chosen?
    ensures choice.maximum.Some? ==> forall n: nat ::
      ProveChainBase(l, choice.taskId, choice.maximum.value, request.blockBase, script.git(n, asked)).Ok?
    ensures forall h: Handover | h.taskId == choice.taskId ::
      && Allowed(Activate, still.records(asked + [StartAsk(h)]), l, choice.taskId)
      && OthersSupported(still.records(asked + [StartAsk(h)]), l, choice.taskId)
    ensures forall d | d in Needs(l.frozenDependencies, choice.taskId) :: IsReady(still.records(asked), d)
    ensures HasRow(request.definition.dependencies, choice.taskId)
  {
    hide Promising, OnCourse, CaughtUp, ChooseTask, ProveChainBase, Allowed, OthersSupported, Needs, IsReady, HasRow, UniqueMaximumOf;
    ChosenNeedsAreSettled(l, script, still, world, request, asked, choice);
    OnCourseIsValid(l, still.records(asked), request);
    if choice.maximum.Some? {
      forall n: nat ensures
        ProveChainBase(l, choice.taskId, choice.maximum.value, request.blockBase, script.git(n, asked)).Ok?
      {
        ChosenBaseIsProven(l, script, still, world, request, asked, choice, n);
      }
    }
    forall h: Handover | h.taskId == choice.taskId
      ensures Allowed(Activate, still.records(asked + [StartAsk(h)]), l, choice.taskId)
      ensures OthersSupported(still.records(asked + [StartAsk(h)]), l, choice.taskId)
    {
      ChosenStartLands(l, script, still, world, request, asked, h);
    }
  }

  lemma PromisesMade(script: Script, still: Stillness, world: World, request: Request, taskId: string)
    requires Promising(script, still, world, request) && HasRow(request.definition.dependencies, taskId)
    ensures forall t: nat :: script.leaseHeld(t) && StartConclusionFor(script.starts(t)) == DriveIt
    ensures VerdictOf(script.drives(taskId), 0) in {SettleIt, LeaseUncertain}
  {
    hide RecordsFollow, GitFollows, StrictRelation, ChainShapeOf, PlannerFollows, VerdictOf, StartConclusionFor;
    var row := RowIsIn(request.definition.dependencies, taskId);
  }
}
