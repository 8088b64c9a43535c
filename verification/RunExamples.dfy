/**
 * One small block in one steady world: two members, the second built on the first. Its
 * drivers either complete both, or find the lease lost at the first.
 */
module RunExamples {
  import opened Base
  import opened Identifiers
  import opened PlanEncoding
  import opened BlockDefinition
  import opened BlockDependencies
  import opened ChainShape
  import opened ChainFitness
  import opened TaskRecords
  import opened BlockLedger
  import opened BlockStore
  import opened BlockHistory
  import opened BlockProgress
  import opened BlockConclusion
  import opened RunScript
  import opened RunAccount
  import opened RunProspects
  import opened BlockRunner

  const ROWS := [Row("T1", []), Row("T2", ["T1"])]
  const PLAN := Definition("BLOCK", ["T1", "T2"], ROWS)
  const REQUEST := Request(
    PLAN, "repository", "today",
    [Eligibility("T1", true, false, []), Eligibility("T2", false, true, ["T1"])], "c0")

  const COMMITS := Repository(map["c0" := {}, "c1" := {"c0"}, "c2" := {"c1"}], {"c2"})

  const GIT := Git(
    map["c0" := true, "c1" := true, "c2" := true],
    map["c0" := true, "c1" := true, "c2" := true],
    map[("c0", "c0") := true, ("c0", "c1") := true, ("c0", "c2") := true,
        ("c1", "c0") := false, ("c1", "c1") := true, ("c1", "c2") := true,
        ("c2", "c0") := false, ("c2", "c1") := false, ("c2", "c2") := true])

  const WORLD := World(t => if t == "T1" then "c1" else "c2", _ => "done", _ => COMMITS)

  /** A member is ready once the driver was called for it and for what it requires, if it completes at all. */
  predicate DoneBy(outcome: RunOutcome, asked: seq<Ask>, taskId: string) {
    && outcome == TaskCompleted
    && DriveAsk("T1") in asked
    && (taskId == "T1" || (taskId == "T2" && DriveAsk("T2") in asked))
  }

  function RecordOf(outcome: RunOutcome, asked: seq<Ask>, taskId: string): Stored {
    var pin := Some(if taskId == "T1" then "c0" else "c1");
    if DoneBy(outcome, asked, taskId) then Stored(TaskRecord(ReadyForPr, pin, Some(WORLD.result(taskId))), "done")
    else Stored(TaskRecord(Implementing, pin, None), "open")
  }

  function RecordsOf(outcome: RunOutcome, asked: seq<Ask>): Records {
    map["T1" := RecordOf(outcome, asked, "T1"), "T2" := RecordOf(outcome, asked, "T2")]
  }

  function StillOf(outcome: RunOutcome): Stillness {
    Stillness((asked: seq<Ask>) => RecordsOf(outcome, asked), Some("repository"))
  }

  function ScriptOf(outcome: RunOutcome): Script {
    Script(
      (n: nat, asked: seq<Ask>) => RecordsOf(outcome, asked),
      n => Some("repository"), n => Lands, n => true, n => Started,
      (n: nat, asked: seq<Ask>) => GIT,
      t => [Drive(outcome, 1)], true, true)
  }

  lemma RowsAreFound()
    ensures FindRow(ROWS, "T1") == Some(ROWS[0]) && FindRow(ROWS, "T2") == Some(ROWS[1])
    ensures forall t | HasRow(ROWS, t) :: t == "T1" || t == "T2"
    ensures forall t, d | Requires(ROWS, t, d) :: t == "T2" && d == "T1"
  {
    assert ROWS[0].dependsOn == [] && ROWS[1].dependsOn == ["T1"];
    assert FindRow(ROWS[1..], "T2") == Some(ROWS[1]);
  }

  lemma PlanIsStrict()
    ensures StrictRelation(ROWS)
  {
    hide FindRow;
    RowsAreFound();
    assert HasRow(ROWS, "T1") by { assert ROWS[0].taskId == "T1"; }
  }

  lemma PlanIsShaped()
    ensures StrictRelation(ROWS) && ChainShapeOf(ROWS) == Shaped
    ensures UniqueMaximumOf(ROWS, "T1") == Ok(None) && UniqueMaximumOf(ROWS, "T2") == Ok(Some("T1"))
    ensures forall t | HasRow(ROWS, t) :: t == "T1" || t == "T2"
    ensures forall t, d | Requires(ROWS, t, d) :: t == "T2" && d == "T1"
  {
    hide FindRow, HasRow;
    RowsAreFound();
    PlanIsStrict();
    RowsAgree(ROWS, ROWS[0]);
    assert Dominates(ROWS, ["T1"], "T1");
    assert Dominating(ROWS, ["T1"], ["T1"]) == ["T1"] + Dominating(ROWS, ["T1"], []);
    ShapedMeansEveryRowHasShape(ROWS);
  }

  function Depth(c: Commit): nat {
    if c == "c0" then 0 else if c == "c1" then 1 else 2
  }

  lemma {:induction false} HistoriesGoDown(p: seq<Commit>)
    requires Lineage(COMMITS, p)
    ensures |p| > 1 ==> Depth(p[0]) < Depth(p[|p| - 1])
  {
    if |p| > 1 {
      assert IsParent(COMMITS, p[0], p[1]);
      assert forall i | 0 <= i < |p[1..]| - 1 :: p[1..][i] == p[i + 1] && IsParent(COMMITS, p[i + 1], p[i + 2]);
      HistoriesGoDown(p[1..]);
    }
  }

  lemma HistoryByDepth(a: Commit, b: Commit)
    requires a in COMMITS.parents && b in COMMITS.parents
    ensures Contains(COMMITS, a, b) <==> Depth(a) <= Depth(b)
  {
    if Contains(COMMITS, a, b) {
      var p :| Lineage(COMMITS, p) && p[0] == a && p[|p| - 1] == b;
      HistoriesGoDown(p);
    }
    if Depth(a) <= Depth(b) {
      var p := if a == b then [a] else if Depth(a) + 1 == Depth(b) then [a, b] else [a, "c1", b];
      assert Lineage(COMMITS, p) && p[0] == a && p[|p| - 1] == b;
    }
  }

  lemma EveryCommitIsReferenced(c: Commit)
    requires c in COMMITS.parents
    ensures Referenced(COMMITS, c)
  {
    hide Contains;
    HistoryByDepth(c, "c2");
    assert "c2" in COMMITS.refs;
  }

  lemma AncestryIsTrue(a: Commit, b: Commit)
    requires (a, b) in GIT.ancestry
    ensures GIT.ancestry[(a, b)] <==> Contains(COMMITS, a, b)
  {
    hide Contains;
    HistoryByDepth(a, b);
  }

  lemma GitIsTruthful()
    ensures Truthful(GIT, COMMITS)
  {
    hide Contains, Referenced;
    forall c | c in GIT.referenced ensures GIT.referenced[c] <==> Referenced(COMMITS, c) { EveryCommitIsReferenced(c); }
    forall a, b | (a, b) in GIT.ancestry ensures GIT.ancestry[(a, b)] <==> Contains(COMMITS, a, b) { AncestryIsTrue(a, b); }
  }

  lemma DrivenMeansAsked(outcome: RunOutcome, before: seq<Ask>, asked: seq<Ask>, taskId: string)
    requires DrivenToTheEnd(before, asked, taskId, ScriptOf(outcome))
    ensures DriveAsk(taskId) in asked && forall a | a in before :: a in asked
  {
    var n := CallsNeeded(ScriptOf(outcome).drives(taskId), 0);
    var h: Handover :| h.taskId == taskId && asked == before + [StartAsk(h)] + Calls(taskId, n);
    assert asked[|before| + 1] == DriveAsk(taskId);
  }

  lemma ReadyIsDone(outcome: RunOutcome, asked: seq<Ask>, taskId: string)
    ensures IsReady(StillOf(outcome).records(asked), taskId) <==> DoneBy(outcome, asked, taskId)
  {
  }

  lemma DrivesMakeThemReady(outcome: RunOutcome)
    requires outcome == TaskCompleted || outcome == RunLeaseLost
    ensures DrivesMakeReady(ScriptOf(outcome), StillOf(outcome), ROWS)
  {
    hide StrictRelation, ChainShapeOf, UniqueMaximumOf, IsReady, DrivenToTheEnd, Requires, HasRow;
    var still, script := StillOf(outcome), ScriptOf(outcome);
    assert Requires(ROWS, "T2", "T1") by { Chained(); }
    forall before, asked, t | HasRow(ROWS, t) && DrivenToTheEnd(before, asked, t, script)
                              && VerdictOf(script.drives(t), 0) == SettleIt
                              && (forall d | Requires(ROWS, t, d) :: IsReady(still.records(before), d))
      ensures IsReady(still.records(asked), t)
    {
      PlanIsShaped();
      DrivenMeansAsked(outcome, before, asked, t);
      ReadyIsDone(outcome, before, "T1");
      ReadyIsDone(outcome, asked, t);
    }
  }

  lemma Chained()
    ensures Requires(ROWS, "T2", "T1")
  {
    assert ROWS[1].taskId == "T2" && "T1" in ROWS[1].dependsOn;
  }

  lemma RecordsAreLast(outcome: RunOutcome)
    ensures ReadyIsLast(StillOf(outcome), WORLD, REQUEST)
  {
    hide IsReady, RecordOf, RecordsOf, REQUEST, FinalReading;
    var still := StillOf(outcome);
    forall asked, t ensures IsReady(still.records(asked), t) <==> DoneBy(outcome, asked, t) { ReadyIsDone(outcome, asked, t); }
    forall asked, t | IsReady(still.records(asked), t)
      ensures Load(still.records(asked), t) == FinalReading(REQUEST, WORLD, t)
    {
      DoneIsFinal(outcome, asked, t);
    }
  }

  lemma RecordsCanBeRead(outcome: RunOutcome)
    ensures StartsLeaveARecord(StillOf(outcome), REQUEST)
  {
    hide RecordOf, FindRow, HasRow;
    RowsAreFound();
    forall asked, t | HasRow(ROWS, t) ensures Load(RecordsOf(outcome, asked), t).Read? { ARecordCanBeRead(outcome, asked, t); }
  }

  lemma ARecordCanBeRead(outcome: RunOutcome, asked: seq<Ask>, taskId: string)
    requires HasRow(ROWS, taskId)
    ensures Load(RecordsOf(outcome, asked), taskId).Read?
  {
    hide HasRow;
    RowsAreFound();
  }

  lemma RecordsGetReadyInOrder(outcome: RunOutcome)
    ensures ReadyInOrder(StillOf(outcome), ROWS)
  {
    hide IsReady, RecordsOf, Requires;
    RowsAreFound();
    forall asked, t ensures IsReady(StillOf(outcome).records(asked), t) <==> DoneBy(outcome, asked, t) {
      ReadyIsDone(outcome, asked, t);
    }
  }

  lemma RecordsAreFollowed(outcome: RunOutcome)
    requires outcome == TaskCompleted || outcome == RunLeaseLost
    ensures RecordsFollow(ScriptOf(outcome), StillOf(outcome), WORLD, REQUEST)
  {
    hide ReadyIsLast, StartsLeaveARecord, ReadyInOrder, DrivesMakeReady;
    RecordsAreLast(outcome);
    RecordsCanBeRead(outcome);
    RecordsGetReadyInOrder(outcome);
    DrivesMakeThemReady(outcome);
  }

  lemma DoneIsFinal(outcome: RunOutcome, asked: seq<Ask>, taskId: string)
    requires DoneBy(outcome, asked, taskId)
    ensures Load(RecordsOf(outcome, asked), taskId) == FinalReading(REQUEST, WORLD, taskId)
  {
    hide StrictRelation, ChainShapeOf, UniqueMaximumOf;
    PlanIsShaped();
  }

  lemma MembersDeliver(taskId: string)
    requires HasRow(ROWS, taskId)
    ensures Delivered(COMMITS, REQUEST, WORLD, taskId) && WORLD.result(taskId) in COMMITS.parents
  {
    hide StrictRelation, ChainShapeOf, UniqueMaximumOf, Contains, Referenced;
    PlanIsShaped();
    HistoryByDepth("c0", "c1");
    HistoryByDepth("c1", "c2");
    EveryCommitIsReferenced("c1");
    EveryCommitIsReferenced("c2");
  }

  lemma GitAnswers(a: Commit, b: Commit)
    requires a in COMMITS.parents && b in COMMITS.parents
    ensures a in GIT.present && a in GIT.referenced && (a, b) in GIT.ancestry
  {
  }

  lemma KnownCommitsExist(outcome: RunOutcome, asked: seq<Ask>, c: Commit)
    requires Known(StillOf(outcome).records(asked), REQUEST, WORLD, c)
    ensures c in COMMITS.parents
  {
    hide IsReady, HasRow;
    if c != REQUEST.blockBase {
      var t :| HasRow(ROWS, t) && IsReady(StillOf(outcome).records(asked), t) && WORLD.result(t) == c;
      MembersDeliver(t);
    }
  }

  lemma KnownIsAnswered(outcome: RunOutcome, asked: seq<Ask>, a: Commit, b: Commit)
    requires Known(StillOf(outcome).records(asked), REQUEST, WORLD, a)
    requires Known(StillOf(outcome).records(asked), REQUEST, WORLD, b)
    ensures a in GIT.present && a in GIT.referenced && (a, b) in GIT.ancestry
  {
    hide Known, GIT, RecordsOf;
    KnownCommitsExist(outcome, asked, a);
    KnownCommitsExist(outcome, asked, b);
    GitAnswers(a, b);
  }

  lemma KnownCommitsAreAnswered(outcome: RunOutcome)
    ensures GitAnswersKnown(ScriptOf(outcome), StillOf(outcome), WORLD, REQUEST)
  {
    hide Known, GIT, RecordsOf, COMMITS, ROWS, REQUEST;
    forall asked, a, b | Known(StillOf(outcome).records(asked), REQUEST, WORLD, a)
                         && Known(StillOf(outcome).records(asked), REQUEST, WORLD, b)
      ensures a in GIT.present && a in GIT.referenced && (a, b) in GIT.ancestry
    {
      KnownIsAnswered(outcome, asked, a, b);
    }
  }

  lemma GitIsFollowed(outcome: RunOutcome)
    ensures GitFollows(ScriptOf(outcome), StillOf(outcome), WORLD, REQUEST)
  {
    hide Truthful, Delivered, HasRow, IsReady, GitAnswersKnown, GIT, COMMITS, ROWS;
    GitIsTruthful();
    KnownCommitsAreAnswered(outcome);
    forall t | HasRow(ROWS, t) ensures Delivered(COMMITS, REQUEST, WORLD, t) { MembersDeliver(t); }
  }

  lemma PlannerIsFollowed(row: Row)
    requires row in ROWS
    ensures PlannerFollows(ROWS, REQUEST.eligibility, row)
  {
    hide StrictRelation, ChainShapeOf, UniqueMaximumOf;
    PlanIsShaped();
  }

  lemma VerdictIsTheOutcome(outcome: RunOutcome, taskId: string)
    requires ConclusionForRunOutcome(outcome) != Continue
    ensures VerdictOf(ScriptOf(outcome).drives(taskId), 0) == ConclusionForRunOutcome(outcome)
  {
  }

  /** The conditions of the completing run can all be met. */
  lemma WorldIsPromising(outcome: RunOutcome)
    requires outcome == TaskCompleted || outcome == RunLeaseLost
    ensures Promising(ScriptOf(outcome), StillOf(outcome), WORLD, REQUEST)
    ensures forall t :: VerdictOf(ScriptOf(outcome).drives(t), 0) == ConclusionForRunOutcome(outcome)
  {
    hide StrictRelation, ChainShapeOf, UniqueMaximumOf, RecordsFollow, GitFollows, PlannerFollows, VerdictOf, RecordsOf, GIT, ROWS;
    PlanIsShaped();
    RecordsAreFollowed(outcome);
    GitIsFollowed(outcome);
    forall row | row in ROWS ensures PlannerFollows(ROWS, REQUEST.eligibility, row) { PlannerIsFollowed(row); }
    forall t ensures VerdictOf(ScriptOf(outcome).drives(t), 0) == ConclusionForRunOutcome(outcome) {
      VerdictIsTheOutcome(outcome, t);
    }
  }

  lemma PlanIsAccepted()
    ensures RelationAccepted(PLAN.taskIds, ROWS) && Canonicalises(PLAN, PLAN.taskIds, ROWS)
  {
    hide HasRow, RowAccepted, StrictlySorted;
    MembersHaveRows();
    assert ROWS[0] == Row("T1", []) && ROWS[1] == Row("T2", ["T1"]);
    assert "T1" != "T2" by { assert "T1"[1] != "T2"[1]; }
    SmallListsAreSorted("T1");
  }

  lemma MembersHaveRows()
    ensures HasRow(ROWS, "T1") && HasRow(ROWS, "T2")
    ensures RowAccepted(["T1", "T2"], Row("T1", [])) && RowAccepted(["T1", "T2"], Row("T2", ["T1"]))
  {
    assert ROWS[0].taskId == "T1" && ROWS[1].taskId == "T2";
    assert "T1" != "T2" by { assert "T1"[1] != "T2"[1]; }
  }

  lemma SmallListsAreSorted(x: string)
    ensures StrictlySorted([]) && StrictlySorted([x])
  {
  }

  lemma TaskIdsAreValid()
    ensures IsValidTaskId("T1") && IsValidTaskId("T2")
  {
    assert Upper("T1")[0] == 'T' && Upper("T2")[0] == 'T';
  }

  lemma OtherIdsAreValid()
    ensures IsValidTaskId("BLOCK") && IsValidTaskId("RUN")
  {
    assert Upper("BLOCK")[0] == 'B' && Upper("RUN")[0] == 'R';
  }

  lemma PlanIsRecordable()
    ensures CreateOutcome(map[], "/checkout", Some("repository"),
      LedgerText(FirstLedger(PLAN, "repository", "/checkout", "RUN", "today")), Lands).Saved?
  {
    hide Fingerprint, CreateOutcome, FirstLedger, IsValidTaskId, RelationAccepted, Canonicalises, Valid;
    PlanIsAccepted();
    TaskIdsAreValid();
    OtherIdsAreValid();
    FrozenPlansAreRecordable(map[], PLAN, PLAN.taskIds, ROWS, "repository", "/checkout", "RUN", "today");
  }

  lemma NothingIsReady(outcome: RunOutcome, asked: seq<Ask>, l: Ledger)
    requires outcome != TaskCompleted && l.tasks != []
    ensures exists e | e in l.tasks :: !IsReady(StillOf(outcome).records(asked), e.taskId)
  {
    ReadyIsDone(outcome, asked, l.tasks[0].taskId);
    assert l.tasks[0] in l.tasks;
  }

  /** With drivers that complete, the block does. */
  method SmallBlockCompletes() returns (result: AttendedResult, files: Files)
    ensures result.stopReason == Some(Complete) && AsPersisted(files, "RUN", result.tasks)
    ensures |result.tasks| == 2 && forall report | report in result.tasks :: report.disposition == Settled
  {
    hide Promising, CreateOutcome, FirstLedger, Valid, Behind, AsPersisted, VerdictOf, AskedSoundly, OnlyThisRunMoved,
      DrivenButPlanned, Steady, LedgerIn, IsReady, StillOf;
    PlanIsRecordable();
    WorldIsPromising(TaskCompleted);
    var store := new Store("/checkout", None);
    var run := new BlockRun(store, ScriptOf(TaskCompleted), "RUN", StillOf(TaskCompleted));
    ghost var passes;
    result, passes := run.Run(REQUEST, WORLD);
    files := store.files;
  }

  /**
   * With drivers that find the lease lost, the first member is active on disk and planned in
   * the report: the report is not what was persisted when the run ended.
   */
  method LostLeaseLeavesAStaleReport() returns (result: AttendedResult, files: Files)
    ensures result.code == LeaseAuthorityUncertain && |result.tasks| == 2 && !AsPersisted(files, "RUN", result.tasks)
  {
    hide Promising, CreateOutcome, FirstLedger, Valid, Behind, AsPersisted, VerdictOf, AskedSoundly, OnlyThisRunMoved,
      DrivenButPlanned, Steady, LedgerIn, IsReady, StillOf;
    PlanIsRecordable();
    WorldIsPromising(RunLeaseLost);
    var store := new Store("/checkout", None);
    var run := new BlockRun(store, ScriptOf(RunLeaseLost), "RUN", StillOf(RunLeaseLost));
    ghost var passes;
    result, passes := run.Run(REQUEST, WORLD);
    if run.seen.Some? { NothingIsReady(RunLeaseLost, run.asked, run.seen.value); }
    files := store.files;
  }

  /** With a profile edited while the run opens, the ledger is on disk and the report lists nothing. */
  method EditedProfileLeavesAnEmptyReport() returns (result: AttendedResult, files: Files)
    ensures result == AttendedResult(RunGateRefused, None, [], 0) && !AsPersisted(files, "RUN", result.tasks)
    ensures files == map["RUN" := Bytes(LedgerText(FirstLedger(PLAN, "repository", "/checkout", "RUN", "today")))]
  {
    hide Promising, CreateOutcome, FirstLedger, Valid, Behind, AsPersisted, VerdictOf, AskedSoundly,
      DrivenButPlanned, Steady, LedgerIn, IsReady, StillOf;
    PlanIsRecordable();
    var store := new Store("/checkout", None);
    var script := ScriptOf(TaskCompleted).(declared := (n: nat) => if n == 1 then Some("repository") else None);
    var run := new BlockRun(store, script, "RUN", StillOf(TaskCompleted));
    ghost var passes;
    result, passes := run.Run(REQUEST, WORLD);
    files := store.files;
  }
}
