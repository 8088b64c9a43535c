/** Checking a ledger's claims against the records that would have to support them. */
module BlockReconciliation {
  import opened Base
  import opened PlanEncoding
  import opened BlockDefinition
  import opened TaskRecords
  import opened BlockLedger
  import opened BlockEvidence
  import opened BlockStore

  datatype Finding =
    | SettledWithoutTerminalState
    | EvidenceStale
    | BlockedWithoutBlockingState
    | AbandonedWithoutAbortedState
    | ResolvedWithoutOperatorState
    | ActiveWithoutTaskState
    | TaskStateUnusableFinding
    | CommitNotProven
    | TaskAheadOfLedger
    | DefinitionDriftedFinding
    | PlanFingerprintUnsound
    | RepositoryIdentityDrifted

  datatype FindingEntry = FindingEntry(taskId: string, finding: Finding)

  datatype Verdict = Consistent | Diverged

  datatype Reconciliation = Reconciliation(
    verdict: Verdict, findings: seq<FindingEntry>, progressAvailable: bool)

  /** Every finding but one means the ledger asserts something reality does not support. */
  predicate Divergent(f: Finding) {
    f != TaskAheadOfLedger
  }

  predicate AnyDivergent(findings: seq<FindingEntry>) {
    exists f | f in findings :: Divergent(f.finding)
  }

  function FindingFor(code: ProofCode, d: Disposition): Finding
    requires code != Proven
  {
    match code
    case TaskStateUnusable => TaskStateUnusableFinding
    case EvidenceNotCurrent => EvidenceStale
    case CommitNotProvenByState => CommitNotProven
    case _ =>
      match d
      case Active => ActiveWithoutTaskState
      case Settled => SettledWithoutTerminalState
      case Blocked => BlockedWithoutBlockingState
      case Abandoned => AbandonedWithoutAbortedState
      case Resolved => ResolvedWithoutOperatorState
      case Planned => CommitNotProven
  }

  /**
   * What is found about an entry that claims something: first whether its record is there
   * and can be used, then whether its state says so, whether the evidence is current and
   * whether the commits agree; and about an active one that all of it supports, whether its
   * task has finished.
   */
  lemma FindingsMean(records: Records, e: Entry)
    requires e.disposition != Planned
    ensures
      var found := EntryFinding(records, e);
      && (found.Some? ==> found.value.taskId == e.taskId)
      && match Load(records, e.taskId)
         case Unusable => found == Some(FindingEntry(e.taskId, TaskStateUnusableFinding))
         case Missing => found.Some? && NotSaidBy(found.value.finding, e.disposition)
         case Read(record, revision) =>
           if !SpeaksFor(record.state, e.disposition) then found.Some? && NotSaidBy(found.value.finding, e.disposition)
           else if e.evidenceRevision != (if e.disposition == Active then None else Some(revision))
             then found == Some(FindingEntry(e.taskId, EvidenceStale))
           else if e.baseCommit != record.basePinnedCommit
                   || e.resultCommit != (if e.disposition == Settled then record.currentCommit else None)
             then found == Some(FindingEntry(e.taskId, CommitNotProven))
           else if e.disposition == Active && record.state == ReadyForPr
             then found == Some(FindingEntry(e.taskId, TaskAheadOfLedger))
           else found.None?
  {
    ProofCodesMean(records, e);
  }

  /** The finding that a disposition is not what the task's own record says, by disposition. */
  ghost predicate NotSaidBy(f: Finding, d: Disposition) {
    && (f == ActiveWithoutTaskState <==> d == Active)
    && (f == SettledWithoutTerminalState <==> d == Settled)
    && (f == BlockedWithoutBlockingState <==> d == Blocked)
    && (f == AbandonedWithoutAbortedState <==> d == Abandoned)
    && (f == ResolvedWithoutOperatorState <==> d == Resolved)
  }

  /** And about a planned entry that claims nothing, as one of a valid ledger does: whether its task has finished. */
  lemma PlannedFindingsMean(records: Records, e: Entry)
    requires e.disposition == Planned && e.evidenceRevision.None? && e.baseCommit.None? && e.resultCommit.None?
    ensures EntryFinding(records, e) ==
      match Load(records, e.taskId)
      case Read(record, _) =>
        if record.state == ReadyForPr then Some(FindingEntry(e.taskId, TaskAheadOfLedger)) else None
      case _ => None
  {
    PlannedProofCodesMean(records, e);
  }

  predicate AheadOfLedger(records: Records, e: Entry) {
    && (e.disposition == Planned || e.disposition == Active)
    && StateRead(records, e).Some?
    && StateRead(records, e).value.state == ReadyForPr
  }

  function EntryFinding(records: Records, e: Entry): Option<FindingEntry> {
    var code := ProveEntry(records, e);
    if code != Proven then Some(FindingEntry(e.taskId, FindingFor(code, e.disposition)))
    else if AheadOfLedger(records, e) then Some(FindingEntry(e.taskId, TaskAheadOfLedger))
    else None
  }

  /** The findings of the entries, in entry order. */
  function EntryFindings(records: Records, tasks: seq<Entry>): seq<FindingEntry> {
    if tasks == [] then []
    else
      var last := EntryFinding(records, tasks[|tasks| - 1]);
      EntryFindings(records, tasks[..|tasks| - 1]) + (if last.Some? then [last.value] else [])
  }

  /** The findings about the document itself, before any record is read. */
  function DocumentFindings(
    l: Ledger, root: string, declared: Option<string>, definition: Option<Definition>): seq<FindingEntry>
  {
    var frozen := Fingerprint(l.blockId, l.frozenTaskIds, l.frozenDependencies);
    (if NamesCheckout(l, root, declared) then [] else [FindingEntry(l.blockId, RepositoryIdentityDrifted)])
    + (if l.planFingerprint == frozen then [] else [FindingEntry(l.blockId, PlanFingerprintUnsound)])
    + (match definition
       case Some(d) =>
         if Fingerprint(d.blockId, d.taskIds, d.dependencies) == frozen then []
         else [FindingEntry(l.blockId, DefinitionDriftedFinding)]
       case None => [])
  }

  function ReconcileOf(
    l: Ledger, root: string, declared: Option<string>,
    definition: Option<Definition>, records: Records): Reconciliation
  {
    var findings := DocumentFindings(l, root, declared, definition) + EntryFindings(records, l.tasks);
    Reconciliation(
      if AnyDivergent(findings) then Diverged else Consistent,
      findings,
      exists e | e in l.tasks :: ProvenAndAhead(records, e))
  }

  method ReconcileDocument(
    l: Ledger, root: string, declared: Option<string>, definition: Option<Definition>)
    returns (findings: seq<FindingEntry>)
    ensures findings == DocumentFindings(l, root, declared, definition)
  {
    findings := [];
    if !NamesCheckout(l, root, declared) {
      findings := findings + [FindingEntry(l.blockId, RepositoryIdentityDrifted)];
    }
    var frozen := Fingerprint(l.blockId, l.frozenTaskIds, l.frozenDependencies);
    if l.planFingerprint != frozen {
      findings := findings + [FindingEntry(l.blockId, PlanFingerprintUnsound)];
    }
    if definition.Some? {
      var d := definition.value;
      if Fingerprint(d.blockId, d.taskIds, d.dependencies) != frozen {
        findings := findings + [FindingEntry(l.blockId, DefinitionDriftedFinding)];
      }
    }
  }

  /** The task finished and the ledger, claiming nothing false, has not caught up. */
  predicate ProvenAndAhead(records: Records, e: Entry) {
    ProveEntry(records, e) == Proven && AheadOfLedger(records, e)
  }

  method ReconcileEntries(tasks: seq<Entry>, records: Records)
    returns (findings: seq<FindingEntry>, progressAvailable: bool)
    ensures findings == EntryFindings(records, tasks)
    ensures progressAvailable <==> exists e | e in tasks :: ProvenAndAhead(records, e)
  {
    findings, progressAvailable := [], false;
    for i := 0 to |tasks|
      invariant findings == EntryFindings(records, tasks[..i])
      invariant progressAvailable <==> exists k | 0 <= k < i :: ProvenAndAhead(records, tasks[k])
    {
      var entry := tasks[i];
      assert tasks[..i + 1][..i] == tasks[..i];
      var code := ProveEntry(records, entry);
      if code != Proven {
        findings := findings + [FindingEntry(entry.taskId, FindingFor(code, entry.disposition))];
      } else if AheadOfLedger(records, entry) {
        findings := findings + [FindingEntry(entry.taskId, TaskAheadOfLedger)];
        progressAvailable := true;
      }
    }
    assert tasks[..|tasks|] == tasks;
  }

  method ReconcileBlockRun(
    l: Ledger, root: string, declared: Option<string>, definition: Option<Definition>, records: Records)
    returns (r: Reconciliation)
    ensures r == ReconcileOf(l, root, declared, definition, records)
  {
    var document := ReconcileDocument(l, root, declared, definition);
    var entries, progressAvailable := ReconcileEntries(l.tasks, records);
    var findings := document + entries;
    return Reconciliation(if AnyDivergent(findings) then Diverged else Consistent, findings, progressAvailable);
  }

  lemma DivergenceOfParts(a: seq<FindingEntry>, b: seq<FindingEntry>)
    ensures AnyDivergent(a + b) <==> AnyDivergent(a) || AnyDivergent(b)
  {
    assert forall f :: f in a + b <==> f in a || f in b;
  }

  lemma {:induction false} EntryFindingsDivergeIff(records: Records, tasks: seq<Entry>)
    ensures AnyDivergent(EntryFindings(records, tasks)) <==> !AllSupported(records, tasks)
    decreases |tasks|
  {
    if tasks != [] {
      var init, last := tasks[..|tasks| - 1], tasks[|tasks| - 1];
      EntryFindingsDivergeIff(records, init);
      ProvenMeansSupported(records, last);
      var found := EntryFinding(records, last);
      var tail := if found.Some? then [found.value] else [];
      DivergenceOfParts(EntryFindings(records, init), tail);
      assert AnyDivergent(tail) <==> found.Some? && Divergent(found.value.finding);
      assert AllSupported(records, tasks) <==> AllSupported(records, init) && Supported(records, last) by {
        assert tasks == init + [last];
      }
    }
  }

  /**
   * The observer and the gate hold one idea of "supported": a document that came through
   * the contract and names this checkout is consistent exactly when the records support
   * every entry.
   */
  lemma ConsistentIffSupported(l: Ledger, root: string, declared: Option<string>, records: Records)
    requires Valid(l) && NamesCheckout(l, root, declared)
    ensures ReconcileOf(l, root, declared, None, records).verdict == Consistent <==> AllSupported(records, l.tasks)
  {
    EntryFindingsDivergeIff(records, l.tasks);
    assert DocumentFindings(l, root, declared, None) == [];
    assert [] + EntryFindings(records, l.tasks) == EntryFindings(records, l.tasks);
  }

  /** Some entry that claims something has a record that is there and cannot be used. */
  predicate SomeRecordUnusable(records: Records, tasks: seq<Entry>) {
    exists e | e in tasks :: e.disposition != Planned && Load(records, e.taskId).Unusable?
  }

  predicate AnyUnusable(findings: seq<FindingEntry>) {
    exists f | f in findings :: f.finding == TaskStateUnusableFinding
  }

  /** The ending that a reading of the records forces on a run, unusable records first. */
  function EndingForced(l: Ledger, root: string, declared: Option<string>, records: Records): Option<StopReason> {
    var r := ReconcileOf(l, root, declared, None, records);
    if r.verdict == Consistent then None
    else if AnyUnusable(r.findings) then Some(StateUnusable)
    else Some(LedgerDiverged)
  }

  lemma UnusableOfParts(a: seq<FindingEntry>, b: seq<FindingEntry>)
    ensures AnyUnusable(a + b) <==> AnyUnusable(a) || AnyUnusable(b)
  {
    assert forall f :: f in a + b <==> f in a || f in b;
  }

  lemma UnusableFound(records: Records, e: Entry)
    ensures EntryFinding(records, e).Some? && EntryFinding(records, e).value.finding == TaskStateUnusableFinding
      <==> e.disposition != Planned && Load(records, e.taskId).Unusable?
  {
  }

  lemma {:induction false} UnusableFindings(records: Records, tasks: seq<Entry>)
    ensures AnyUnusable(EntryFindings(records, tasks)) <==> SomeRecordUnusable(records, tasks)
    decreases |tasks|
  {
    if tasks != [] {
      var init, last := tasks[..|tasks| - 1], tasks[|tasks| - 1];
      UnusableFindings(records, init);
      UnusableFound(records, last);
      hide EntryFinding, Load;
      var found := EntryFinding(records, last);
      var tail := if found.Some? then [found.value] else [];
      UnusableOfParts(EntryFindings(records, init), tail);
      assert AnyUnusable(tail) <==> found.Some? && found.value.finding == TaskStateUnusableFinding;
      assert tasks == init + [last];
    }
  }

  /**
   * A run is stopped for its records exactly when its ledger does not name the checkout or
   * the records do not support it; and as unusable, rather than diverged, exactly when some
   * claimed task's own record cannot be used.
   */
  lemma EndingForcedMeans(l: Ledger, root: string, declared: Option<string>, records: Records)
    requires Valid(l)
    ensures
      var reason := EndingForced(l, root, declared, records);
      && (reason.None? <==> NamesCheckout(l, root, declared) && AllSupported(records, l.tasks))
      && (reason == Some(StateUnusable) <==> SomeRecordUnusable(records, l.tasks))
      && (reason.Some? ==> reason.value == StateUnusable || reason.value == LedgerDiverged)
  {
    hide Valid, AllSupported, SomeRecordUnusable, EntryFindings, AnyDivergent, AnyUnusable, DocumentFindings, NamesCheckout;
    var document, entries := DocumentFindings(l, root, declared, None), EntryFindings(records, l.tasks);
    EntryFindingsDivergeIff(records, l.tasks);
    UnusableFindings(records, l.tasks);
    DivergenceOfParts(document, entries);
    UnusableOfParts(document, entries);
    DocumentFindingsMean(l, root, declared);
    UnusableDiverges(document + entries);
  }

  lemma UnusableDiverges(findings: seq<FindingEntry>)
    ensures AnyUnusable(findings) ==> AnyDivergent(findings)
  {
    if f :| f in findings && f.finding == TaskStateUnusableFinding { assert Divergent(f.finding); }
  }

  lemma DocumentFindingsMean(l: Ledger, root: string, declared: Option<string>)
    requires Valid(l)
    ensures var document := DocumentFindings(l, root, declared, None);
      (AnyDivergent(document) <==> !NamesCheckout(l, root, declared)) && !AnyUnusable(document)
  {
    var document := DocumentFindings(l, root, declared, None);
    if NamesCheckout(l, root, declared) {
      assert document == [];
    } else {
      assert document == [FindingEntry(l.blockId, RepositoryIdentityDrifted)];
      assert document[0] in document && Divergent(document[0].finding);
    }
  }

  /**
   * Gate and reconciler agree. Whatever document a caller proposed, an update that landed
   * and moved a disposition, or newly claimed progress, leaves a document the reconciler
   * calls consistent under the records the gate read.
   */
  lemma GateAndReconcilerAgree(
    files: Files, root: string, declared: Option<string>,
    next: Document, expected: Document, records: Records, fate: WriteFate)
    requires UpdateOutcome(files, root, declared, next, expected, records, fate).Saved?
    ensures next.LedgerText? && expected.LedgerText?
    ensures DispositionsMoved(expected.ledger, next.ledger) || NewlyClaimsProgress(expected.ledger, next.ledger)
      ==> ReconcileOf(next.ledger, root, declared, None, records).verdict == Consistent
  {
    LandedUpdateIsSound(files, root, declared, next, expected, records, fate);
    ConsistentIffSupported(next.ledger, root, declared, records);
  }

  /** With a definition supplied, drift is reported exactly when the frozen plan is another one. */
  lemma DriftMeansAnotherPlan(
    l: Ledger, root: string, declared: Option<string>, definition: Definition, records: Records)
    requires Valid(l) && MembersAccepted(definition.blockId, definition.taskIds)
    requires EncodableRows(definition.dependencies)
    ensures FindingEntry(l.blockId, DefinitionDriftedFinding)
        in ReconcileOf(l, root, declared, Some(definition), records).findings
      <==> !(definition.blockId == l.blockId && definition.taskIds == l.frozenTaskIds
             && definition.dependencies == l.frozenDependencies)
  {
    EntryFindingsAreNotDrift(records, l.tasks, l.blockId);
    LedgerPlanIsEncodable(l);
    ValidIdsAreEncodable(definition.blockId);
    forall i | 0 <= i < |definition.taskIds| ensures Encodable(definition.taskIds[i]) {
      ValidIdsAreEncodable(definition.taskIds[i]);
    }
    if Fingerprint(definition.blockId, definition.taskIds, definition.dependencies)
       == Fingerprint(l.blockId, l.frozenTaskIds, l.frozenDependencies) {
      FingerprintIsInjective(
        definition.blockId, definition.taskIds, definition.dependencies,
        l.blockId, l.frozenTaskIds, l.frozenDependencies);
    }
  }

  lemma LedgerPlanIsEncodable(l: Ledger)
    requires Valid(l)
    ensures Encodable(l.blockId) && AllEncodable(l.frozenTaskIds) && EncodableRows(l.frozenDependencies)
  {
    ValidIdsAreEncodable(l.blockId);
    forall i | 0 <= i < |l.frozenTaskIds| ensures Encodable(l.frozenTaskIds[i]) {
      assert l.frozenTaskIds[i] in l.frozenTaskIds;
      ValidIdsAreEncodable(l.frozenTaskIds[i]);
    }
    forall i | 0 <= i < |l.frozenDependencies| ensures EncodableRow(l.frozenDependencies[i]) {
      var row := l.frozenDependencies[i];
      assert row in l.frozenDependencies;
      ValidIdsAreEncodable(row.taskId);
      forall k | 0 <= k < |row.dependsOn| ensures Encodable(row.dependsOn[k]) {
        ValidIdsAreEncodable(row.dependsOn[k]);
      }
    }
  }

  lemma {:induction false} EntryFindingsAreNotDrift(records: Records, tasks: seq<Entry>, id: string)
    ensures FindingEntry(id, DefinitionDriftedFinding) !in EntryFindings(records, tasks)
    decreases |tasks|
  {
    if tasks != [] { EntryFindingsAreNotDrift(records, tasks[..|tasks| - 1], id); }
  }
}
