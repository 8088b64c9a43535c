/**
 * The cross-field checks of a ledger document, collected issue by issue as the schema's
 * refinement collects them, and that nothing but those checks makes a document valid.
 */
module LedgerContract {
  import opened Base
  import opened Identifiers
  import opened PlanEncoding
  import opened BlockLedger

  datatype Issue =
    | UnsupportedVersion
    | EntriesDoNotMirror
    | FrozenTaskRepeated
    | BlockIdIsATask
    | RowsDoNotMirror
    | DependsOnItself(index: nat)
    | DependsOnAStranger(index: nat)
    | NotCanonicallySorted(index: nat)
    | AnotherPlansFingerprint
    | TwoActiveTasks
    | ActiveTaskUnnamed
    | ActiveTaskNotInRun
    | NamedTaskNotActive
    | EvidenceMissing(index: nat)
    | EvidenceUnearned(index: nat)
    | ResultUnearned(index: nat)
    | BaseUnearned(index: nat)
    | ProgressClaimedWhileActive
    | NotComplete
    | NothingBlocked
    | NothingAbandoned

  /** What each issue says about the document. */
  ghost predicate Breaks(l: Ledger, issue: Issue) {
    match issue
    case UnsupportedVersion => l.schemaVersion != 2
    case EntriesDoNotMirror =>
      |l.tasks| != |l.frozenTaskIds| || exists i | 0 <= i < |l.tasks| :: l.tasks[i].taskId != l.frozenTaskIds[i]
    case FrozenTaskRepeated => exists i, j | 0 <= i < j < |l.frozenTaskIds| :: l.frozenTaskIds[i] == l.frozenTaskIds[j]
    case BlockIdIsATask => l.blockId in l.frozenTaskIds
    case RowsDoNotMirror =>
      || |l.frozenDependencies| != |l.frozenTaskIds|
      || exists i | 0 <= i < |l.frozenDependencies| :: l.frozenDependencies[i].taskId != l.frozenTaskIds[i]
    case DependsOnItself(i) => i < |l.frozenDependencies| && l.frozenDependencies[i].taskId in l.frozenDependencies[i].dependsOn
    case DependsOnAStranger(i) =>
      && i < |l.frozenDependencies|
      && exists d | d in l.frozenDependencies[i].dependsOn :: d != l.frozenDependencies[i].taskId && d !in l.frozenTaskIds
    case NotCanonicallySorted(i) => i < |l.frozenDependencies| && !StrictlySorted(l.frozenDependencies[i].dependsOn)
    case AnotherPlansFingerprint => l.planFingerprint != Fingerprint(l.blockId, l.frozenTaskIds, l.frozenDependencies)
    case TwoActiveTasks =>
      exists i, j | 0 <= i < j < |l.tasks| :: l.tasks[i].disposition == Active && l.tasks[j].disposition == Active
    case ActiveTaskUnnamed =>
      && l.activeTaskId.None?
      && exists i | 0 <= i < |l.tasks| ::
           l.tasks[i].disposition == Active && forall j | 0 <= j < |l.tasks| && j != i :: l.tasks[j].disposition != Active
    case ActiveTaskNotInRun =>
      l.activeTaskId.Some? && forall i | 0 <= i < |l.tasks| :: l.tasks[i].taskId != l.activeTaskId.value
    case NamedTaskNotActive =>
      && l.activeTaskId.Some?
      && exists i | 0 <= i < |l.tasks| ::
           && l.tasks[i].taskId == l.activeTaskId.value && l.tasks[i].disposition != Active
           && forall j | 0 <= j < i :: l.tasks[j].taskId != l.activeTaskId.value
    case EvidenceMissing(i) =>
      i < |l.tasks| && l.tasks[i].disposition != Planned && l.tasks[i].disposition != Active && l.tasks[i].evidenceRevision.None?
    case EvidenceUnearned(i) =>
      i < |l.tasks| && (l.tasks[i].disposition == Planned || l.tasks[i].disposition == Active) && l.tasks[i].evidenceRevision.Some?
    case ResultUnearned(i) => i < |l.tasks| && l.tasks[i].resultCommit.Some? && l.tasks[i].disposition != Settled
    case BaseUnearned(i) => i < |l.tasks| && l.tasks[i].baseCommit.Some? && l.tasks[i].disposition == Planned
    case ProgressClaimedWhileActive =>
      l.activeTaskId.Some? && l.stopReason.Some? && l.stopReason.value in {Complete, TaskBlocked, TaskAbandoned}
    case NotComplete =>
      && l.stopReason == Some(Complete)
      && exists i | 0 <= i < |l.tasks| :: l.tasks[i].disposition != Settled && l.tasks[i].disposition != Resolved
    case NothingBlocked =>
      l.stopReason == Some(TaskBlocked) && forall i | 0 <= i < |l.tasks| :: l.tasks[i].disposition != Blocked
    case NothingAbandoned =>
      l.stopReason == Some(TaskAbandoned) && forall i | 0 <= i < |l.tasks| :: l.tasks[i].disposition != Abandoned
  }

  ghost predicate OfMembership(issue: Issue) {
    || issue.UnsupportedVersion? || issue.EntriesDoNotMirror? || issue.FrozenTaskRepeated? || issue.BlockIdIsATask?
    || issue.RowsDoNotMirror? || issue.AnotherPlansFingerprint?
  }

  ghost predicate OfRows(issue: Issue) {
    issue.DependsOnItself? || issue.DependsOnAStranger? || issue.NotCanonicallySorted?
  }

  ghost predicate OfActive(issue: Issue) {
    issue.TwoActiveTasks? || issue.ActiveTaskUnnamed? || issue.ActiveTaskNotInRun? || issue.NamedTaskNotActive?
  }

  ghost predicate OfEntries(issue: Issue) {
    issue.EvidenceMissing? || issue.EvidenceUnearned? || issue.ResultUnearned? || issue.BaseUnearned?
  }

  ghost predicate OfStop(issue: Issue) {
    issue.ProgressClaimedWhileActive? || issue.NotComplete? || issue.NothingBlocked? || issue.NothingAbandoned?
  }

  method CheckEntryIds(l: Ledger) returns (issues: set<Issue>)
    ensures issues <= {EntriesDoNotMirror, FrozenTaskRepeated, BlockIdIsATask}
    ensures forall issue | issue in {EntriesDoNotMirror, FrozenTaskRepeated, BlockIdIsATask} ::
      issue in issues <==> Breaks(l, issue)
  {
    issues := {};
    if |l.tasks| != |l.frozenTaskIds| || exists i | 0 <= i < |l.tasks| :: l.tasks[i].taskId != l.frozenTaskIds[i] {
      issues := issues + {EntriesDoNotMirror};
    }
    if !NoRepeats(l.frozenTaskIds) { issues := issues + {FrozenTaskRepeated}; }
    if l.blockId in l.frozenTaskIds { issues := issues + {BlockIdIsATask}; }
  }

  method CheckPlan(l: Ledger) returns (issues: set<Issue>)
    ensures issues <= {UnsupportedVersion, RowsDoNotMirror, AnotherPlansFingerprint}
    ensures forall issue | issue in {UnsupportedVersion, RowsDoNotMirror, AnotherPlansFingerprint} ::
      issue in issues <==> Breaks(l, issue)
  {
    hide Fingerprint;
    issues := {};
    if l.schemaVersion != BLOCK_LEDGER_SCHEMA_VERSION { issues := issues + {UnsupportedVersion}; }
    if |l.frozenDependencies| != |l.frozenTaskIds|
       || exists i | 0 <= i < |l.frozenDependencies| :: l.frozenDependencies[i].taskId != l.frozenTaskIds[i]
    {
      issues := issues + {RowsDoNotMirror};
    }
    if l.planFingerprint != Fingerprint(l.blockId, l.frozenTaskIds, l.frozenDependencies) {
      issues := issues + {AnotherPlansFingerprint};
    }
  }

  /** What a row lists, one dependency after the other. */
  method CheckListed(row: Row, members: seq<string>) returns (itself: bool, stranger: bool)
    ensures itself <==> row.taskId in row.dependsOn
    ensures stranger <==> exists d | d in row.dependsOn :: d != row.taskId && d !in members
  {
    itself, stranger := false, false;
    for i := 0 to |row.dependsOn|
      invariant itself <==> row.taskId in row.dependsOn[..i]
      invariant stranger <==> exists d | d in row.dependsOn[..i] :: d != row.taskId && d !in members
    {
      assert row.dependsOn[..i + 1] == row.dependsOn[..i] + [row.dependsOn[i]];
      if row.dependsOn[i] == row.taskId {
        itself := true;
      } else if row.dependsOn[i] !in members {
        stranger := true;
      }
    }
    assert row.dependsOn[..|row.dependsOn|] == row.dependsOn;
  }

  method CheckRowIssues(l: Ledger, index: nat) returns (issues: set<Issue>)
    requires index < |l.frozenDependencies|
    ensures forall issue :: issue in issues <==> OfRows(issue) && issue.index == index && Breaks(l, issue)
  {
    hide StrictlySorted;
    var row := l.frozenDependencies[index];
    var itself, stranger := CheckListed(row, l.frozenTaskIds);
    CanonicalIsFixedOnSorted(row.dependsOn);
    issues := {};
    if itself { issues := issues + {DependsOnItself(index)}; }
    if stranger { issues := issues + {DependsOnAStranger(index)}; }
    if row.dependsOn != Canonical(row.dependsOn) { issues := issues + {NotCanonicallySorted(index)}; }
  }

  method CheckRows(l: Ledger) returns (issues: set<Issue>)
    ensures forall issue :: issue in issues <==> OfRows(issue) && Breaks(l, issue)
  {
    hide Breaks;
    issues := {};
    for index := 0 to |l.frozenDependencies|
      invariant forall issue :: issue in issues <==> OfRows(issue) && issue.index < index && Breaks(l, issue)
    {
      var row := CheckRowIssues(l, index);
      issues := issues + row;
    }
    RowIssuesAreOfRows(l);
  }

  lemma RowIssuesAreOfRows(l: Ledger)
    ensures forall issue | OfRows(issue) && Breaks(l, issue) :: issue.index < |l.frozenDependencies|
    ensures forall issue | OfEntries(issue) && Breaks(l, issue) :: issue.index < |l.tasks|
  {
  }

  /** How many of the entries are active, and the position of one that is. */
  method CountActive(l: Ledger) returns (count: nat, at: nat)
    ensures count == 0 <==> forall i | 0 <= i < |l.tasks| :: l.tasks[i].disposition != Active
    ensures count >= 1 ==> at < |l.tasks| && l.tasks[at].disposition == Active
    ensures count == 1 ==> forall i | 0 <= i < |l.tasks| && i != at :: l.tasks[i].disposition != Active
    ensures count > 1 ==> exists i | 0 <= i < at :: l.tasks[i].disposition == Active
  {
    count, at := 0, 0;
    for i := 0 to |l.tasks|
      invariant count == 0 <==> forall k | 0 <= k < i :: l.tasks[k].disposition != Active
      invariant count >= 1 ==> at < i && l.tasks[at].disposition == Active
      invariant count == 1 ==> forall k | 0 <= k < i && k != at :: l.tasks[k].disposition != Active
      invariant count > 1 ==> exists k | 0 <= k < at :: l.tasks[k].disposition == Active
    {
      if l.tasks[i].disposition == Active {
        if count >= 1 { assert l.tasks[at].disposition == Active && at < i; }
        count, at := count + 1, i;
      }
    }
  }

  method CheckActive(l: Ledger) returns (issues: set<Issue>)
    ensures forall issue :: issue in issues <==> OfActive(issue) && Breaks(l, issue)
  {
    issues := {};
    var count, at := CountActive(l);
    if count > 1 { issues := issues + {TwoActiveTasks}; }
    if l.activeTaskId.None? && count == 1 { issues := issues + {ActiveTaskUnnamed}; }
    if l.activeTaskId.Some? {
      var named := IndexOf(l.tasks, l.activeTaskId.value);
      if named == |l.tasks| {
        issues := issues + {ActiveTaskNotInRun};
      } else if l.tasks[named].disposition != Active {
        issues := issues + {NamedTaskNotActive};
      }
    }
  }

  const EVIDENCE_BACKED: set<Disposition> := {Settled, Blocked, Abandoned, Resolved}

  method CheckEntries(l: Ledger) returns (issues: set<Issue>)
    ensures forall issue :: issue in issues <==> OfEntries(issue) && Breaks(l, issue)
  {
    issues := {};
    for index := 0 to |l.tasks|
      invariant forall issue :: issue in issues <==> OfEntries(issue) && issue.index < index && Breaks(l, issue)
    {
      var task := l.tasks[index];
      var claimsOutcome := task.disposition in EVIDENCE_BACKED;
      if claimsOutcome && task.evidenceRevision.None? { issues := issues + {EvidenceMissing(index)}; }
      if !claimsOutcome && task.evidenceRevision.Some? { issues := issues + {EvidenceUnearned(index)}; }
      if task.resultCommit.Some? && task.disposition != Settled { issues := issues + {ResultUnearned(index)}; }
      if task.baseCommit.Some? && task.disposition == Planned { issues := issues + {BaseUnearned(index)}; }
    }
  }

  method CheckStop(l: Ledger) returns (issues: set<Issue>)
    ensures forall issue :: issue in issues <==> OfStop(issue) && Breaks(l, issue)
  {
    issues := {};
    if l.stopReason.Some? && l.activeTaskId.Some? && ClaimsProgress(l.stopReason.value) {
      issues := issues + {ProgressClaimedWhileActive};
    }
    if l.stopReason == Some(Complete)
       && exists i | 0 <= i < |l.tasks| :: l.tasks[i].disposition != Settled && l.tasks[i].disposition != Resolved
    {
      issues := issues + {NotComplete};
    }
    if l.stopReason == Some(TaskBlocked) && forall i | 0 <= i < |l.tasks| :: l.tasks[i].disposition != Blocked {
      issues := issues + {NothingBlocked};
    }
    if l.stopReason == Some(TaskAbandoned) && forall i | 0 <= i < |l.tasks| :: l.tasks[i].disposition != Abandoned {
      issues := issues + {NothingAbandoned};
    }
  }

  /** Collects every issue there is; a document is valid exactly when it is well shaped and there is none. */
  method CheckDocument(l: Ledger) returns (issues: set<Issue>)
    ensures forall issue :: issue in issues <==> Breaks(l, issue)
    ensures Valid(l) <==> WellShaped(l) && issues == {}
  {
    hide Breaks, Valid, WellShaped;
    var ids := CheckEntryIds(l);
    var plan := CheckPlan(l);
    var rows := CheckRows(l);
    var active := CheckActive(l);
    var entries := CheckEntries(l);
    var stop := CheckStop(l);
    issues := ids + plan + rows + active + entries + stop;
    assert forall issue :: OfMembership(issue) || OfRows(issue) || OfActive(issue) || OfEntries(issue) || OfStop(issue);
    assert issues == {} <==> forall issue :: !Breaks(l, issue);
    ValidMeansNoIssue(l);
  }

  // ---------------------------------------------------------- valid means no issue

  lemma MembershipMeans(l: Ledger)
    ensures (forall issue | OfMembership(issue) :: !Breaks(l, issue)) <==>
      && l.schemaVersion == BLOCK_LEDGER_SCHEMA_VERSION && MirrorsMembership(l)
      && |l.frozenDependencies| == |l.frozenTaskIds|
      && (forall i | 0 <= i < |l.frozenDependencies| :: l.frozenDependencies[i].taskId == l.frozenTaskIds[i])
      && l.planFingerprint == Fingerprint(l.blockId, l.frozenTaskIds, l.frozenDependencies)
  {
    hide Fingerprint;
    if forall issue | OfMembership(issue) :: !Breaks(l, issue) {
      assert !Breaks(l, UnsupportedVersion) && !Breaks(l, EntriesDoNotMirror) && !Breaks(l, FrozenTaskRepeated);
      assert !Breaks(l, BlockIdIsATask) && !Breaks(l, RowsDoNotMirror) && !Breaks(l, AnotherPlansFingerprint);
    }
  }

  lemma RowsMean(l: Ledger)
    ensures (forall issue | OfRows(issue) :: !Breaks(l, issue)) <==> forall i: nat | i < |l.frozenDependencies| :: RowStands(l, i)
  {
    forall i | 0 <= i < |l.frozenDependencies|
      ensures StrictlySorted(l.frozenDependencies[i].dependsOn) <==>
        l.frozenDependencies[i].dependsOn == Canonical(l.frozenDependencies[i].dependsOn)
    {
      CanonicalIsFixedOnSorted(l.frozenDependencies[i].dependsOn);
    }
    hide Canonical, StrictlySorted;
    if forall issue | OfRows(issue) :: !Breaks(l, issue) {
      forall i: nat | i < |l.frozenDependencies| ensures RowStands(l, i) {
        assert !Breaks(l, DependsOnItself(i)) && !Breaks(l, DependsOnAStranger(i)) && !Breaks(l, NotCanonicallySorted(i));
      }
    }
    if forall i: nat | i < |l.frozenDependencies| :: RowStands(l, i) {
      forall issue | OfRows(issue) ensures !Breaks(l, issue) {
        if issue.index < |l.frozenDependencies| { assert RowStands(l, issue.index); }
      }
    }
  }

  ghost predicate RowStands(l: Ledger, i: nat)
    requires i < |l.frozenDependencies|
  {
    && (forall d | d in l.frozenDependencies[i].dependsOn :: d != l.frozenDependencies[i].taskId && d in l.frozenTaskIds)
    && l.frozenDependencies[i].dependsOn == Canonical(l.frozenDependencies[i].dependsOn)
  }

  lemma ActiveMeans(l: Ledger)
    requires MirrorsMembership(l)
    ensures (forall issue | OfActive(issue) :: !Breaks(l, issue)) <==> ActiveIsOneFact(l)
  {
    assert forall i, j | 0 <= i < j < |l.tasks| :: l.tasks[i].taskId != l.tasks[j].taskId by {
      assert forall i | 0 <= i < |l.tasks| :: l.tasks[i].taskId == l.frozenTaskIds[i];
    }
    if forall issue | OfActive(issue) :: !Breaks(l, issue) {
      assert !Breaks(l, TwoActiveTasks) && !Breaks(l, ActiveTaskUnnamed);
      assert !Breaks(l, ActiveTaskNotInRun) && !Breaks(l, NamedTaskNotActive);
      NoActiveIssueMeans(l);
    }
    if ActiveIsOneFact(l) { ActiveFactHasNoIssue(l); }
  }

  lemma NoActiveIssueMeans(l: Ledger)
    requires forall i, j | 0 <= i < j < |l.tasks| :: l.tasks[i].taskId != l.tasks[j].taskId
    requires !Breaks(l, TwoActiveTasks) && !Breaks(l, ActiveTaskUnnamed)
    requires !Breaks(l, ActiveTaskNotInRun) && !Breaks(l, NamedTaskNotActive)
    ensures ActiveIsOneFact(l)
  {
    if l.activeTaskId.Some? {
      var i :| 0 <= i < |l.tasks| && l.tasks[i].taskId == l.activeTaskId.value;
      assert forall j | 0 <= j < i :: l.tasks[j].taskId != l.activeTaskId.value;
      assert l.tasks[i] in l.tasks;
    } else {
      forall i: nat | i < |l.tasks| ensures l.tasks[i].disposition != Active {
        if l.tasks[i].disposition == Active { ActiveTaskHasNoName(l, i); }
      }
    }
  }

  lemma ActiveTaskHasNoName(l: Ledger, i: nat)
    requires l.activeTaskId.None? && i < |l.tasks| && l.tasks[i].disposition == Active && !Breaks(l, TwoActiveTasks)
    ensures Breaks(l, ActiveTaskUnnamed)
  {
    forall j | 0 <= j < |l.tasks| && j != i ensures l.tasks[j].disposition != Active {
      if j < i { assert l.tasks[j].disposition == Active ==> Breaks(l, TwoActiveTasks); }
    }
  }

  lemma ActiveFactHasNoIssue(l: Ledger)
    requires forall i, j | 0 <= i < j < |l.tasks| :: l.tasks[i].taskId != l.tasks[j].taskId
    requires ActiveIsOneFact(l)
    ensures forall issue | OfActive(issue) :: !Breaks(l, issue)
  {
    if l.activeTaskId.Some? {
      var e :| e in l.tasks && e.taskId == l.activeTaskId.value && e.disposition == Active;
      var i :| 0 <= i < |l.tasks| && l.tasks[i] == e;
    } else {
      assert forall i | 0 <= i < |l.tasks| :: l.tasks[i] in l.tasks;
    }
  }

  lemma EntriesAreEarned(l: Ledger)
    requires forall issue | OfEntries(issue) :: !Breaks(l, issue)
    ensures forall e | e in l.tasks :: CarriesEvidence(e)
  {
    hide StrictlySorted, Fingerprint;
    forall e | e in l.tasks ensures CarriesEvidence(e) {
      var i :| 0 <= i < |l.tasks| && l.tasks[i] == e;
      assert !Breaks(l, EvidenceMissing(i)) && !Breaks(l, EvidenceUnearned(i));
      assert !Breaks(l, ResultUnearned(i)) && !Breaks(l, BaseUnearned(i));
    }
  }

  lemma EntriesMean(l: Ledger)
    ensures (forall issue | OfEntries(issue) :: !Breaks(l, issue)) <==> forall e | e in l.tasks :: CarriesEvidence(e)
  {
    if forall issue | OfEntries(issue) :: !Breaks(l, issue) { EntriesAreEarned(l); }
    if forall e | e in l.tasks :: CarriesEvidence(e) {
      assert forall i | 0 <= i < |l.tasks| :: l.tasks[i] in l.tasks;
    }
  }

  lemma StopMeans(l: Ledger)
    ensures (forall issue | OfStop(issue) :: !Breaks(l, issue)) <==> StopAgrees(l)
  {
    hide StrictlySorted, Fingerprint;
    assert forall i | 0 <= i < |l.tasks| :: l.tasks[i] in l.tasks;
    if forall issue | OfStop(issue) :: !Breaks(l, issue) {
      assert !Breaks(l, ProgressClaimedWhileActive) && !Breaks(l, NotComplete);
      assert !Breaks(l, NothingBlocked) && !Breaks(l, NothingAbandoned);
    }
  }

  lemma RelationMeans(l: Ledger)
    ensures RelationIsCanonical(l.frozenTaskIds, l.frozenDependencies) <==>
      && |l.frozenDependencies| == |l.frozenTaskIds|
      && (forall i | 0 <= i < |l.frozenDependencies| :: l.frozenDependencies[i].taskId == l.frozenTaskIds[i])
      && forall i: nat | i < |l.frozenDependencies| :: RowStands(l, i)
  {
    hide Canonical;
    if forall i: nat | i < |l.frozenDependencies| :: RowStands(l, i) {
      forall i: nat | i < |l.frozenDependencies|
        ensures forall d | d in l.frozenDependencies[i].dependsOn :: d != l.frozenDependencies[i].taskId && d in l.frozenTaskIds
        ensures l.frozenDependencies[i].dependsOn == Canonical(l.frozenDependencies[i].dependsOn)
      {
        assert RowStands(l, i);
      }
    }
  }

  lemma ValidMeansNoIssue(l: Ledger)
    ensures Valid(l) <==> WellShaped(l) && forall issue :: !Breaks(l, issue)
  {
    hide Breaks, WellShaped, MirrorsMembership, ActiveIsOneFact, CarriesEvidence, StopAgrees, Fingerprint, Canonical;
    MembershipMeans(l);
    RowsMean(l);
    RelationMeans(l);
    hide RowStands, RelationIsCanonical;
    if MirrorsMembership(l) { ActiveMeans(l); }
    EntriesMean(l);
    StopMeans(l);
    assert forall issue :: OfMembership(issue) || OfRows(issue) || OfActive(issue) || OfEntries(issue) || OfStop(issue);
  }

  /** The shape every field of a document must have, whatever the checks say about them together. */
  lemma FieldsAreShaped(l: Ledger)
    ensures WellShaped(l) <==>
      && 1 <= |l.repositoryId| <= 64 && |l.repositoryRoot| >= 1 && IsValidTaskId(l.blockId) && IsValidTaskId(l.runId)
      && 1 <= |l.frozenTaskIds| <= 64 && 1 <= |l.frozenDependencies| <= 64 && 1 <= |l.tasks| <= 64
      && (forall i | 0 <= i < |l.frozenTaskIds| :: IsValidTaskId(l.frozenTaskIds[i]))
      && (forall i | 0 <= i < |l.frozenDependencies| ::
            && IsValidTaskId(l.frozenDependencies[i].taskId) && |l.frozenDependencies[i].dependsOn| <= 64
            && forall k | 0 <= k < |l.frozenDependencies[i].dependsOn| :: IsValidTaskId(l.frozenDependencies[i].dependsOn[k]))
  {
    hide IsValidTaskId;
    forall i | 0 <= i < |l.frozenDependencies| && WellShaped(l)
      ensures forall k | 0 <= k < |l.frozenDependencies[i].dependsOn| :: IsValidTaskId(l.frozenDependencies[i].dependsOn[k])
    {
      assert l.frozenDependencies[i] in l.frozenDependencies;
    }
  }
}
