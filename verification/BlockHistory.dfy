/**
 * What any sequence of writes to one checkout can do to one run's ledger.
 *
 * Writers are taken one at a time: the store's compare-and-swap is advisory, and a single
 * writer per ledger is its stated prerequisite. Everything else is arbitrary: who writes,
 * what they propose, which revision they quote, what the task records say at that moment,
 * whether the write lands, and how many other runs are written in between.
 */
module BlockHistory {
  import opened Base
  import opened TaskRecords
  import opened BlockLedger
  import opened BlockStore

  datatype Write = Write(
    next: Document, expected: Document, declared: Option<string>, records: Records, fate: WriteFate)

  function Outcome(files: Files, root: string, w: Write): SaveResult {
    UpdateOutcome(files, root, w.declared, w.next, w.expected, w.records, w.fate)
  }

  /** `fs[i + 1]` is what the i-th write left behind. */
  ghost predicate Trace(fs: seq<Files>, root: string, ws: seq<Write>) {
    && |fs| == |ws| + 1
    && forall i | 0 <= i < |ws| :: fs[i + 1] == FilesAfter(fs[i], ws[i].next, Outcome(fs[i], root, ws[i]))
  }

  ghost predicate Holds(files: Files, runId: string, l: Ledger) {
    runId in files && files[runId] == Bytes(LedgerText(l)) && Valid(l) && l.runId == runId
  }

  /** One write leaves a run's ledger as it was, or replaces it by a strictly later legal successor. */
  lemma OneWrite(files: Files, root: string, w: Write, runId: string, l: Ledger) returns (l': Ledger)
    requires Holds(files, runId, l)
    ensures Holds(FilesAfter(files, w.next, Outcome(files, root, w)), runId, l')
    ensures Succeeds(l, l')
    ensures l' == l || Progress(l) < Progress(l')
    ensures Progress(l') <= 3 * |l.frozenTaskIds| + 1
  {
    hide Valid, UpdateOutcome, Progress;
    var r := Outcome(files, root, w);
    if r.Saved? && w.next.LedgerText? && w.next.ledger.runId == runId {
      LandedUpdateIsSound(files, root, w.declared, w.next, w.expected, w.records, w.fate);
      l' := w.next.ledger;
      SucceedsMeansNoViolations(l, l');
    } else {
      l' := l;
      SucceedsIsReflexive(l);
    }
    SuccessorsProgress(l, l');
  }

  lemma SucceedsIsReflexive(l: Ledger)
    ensures Succeeds(l, l) && LegalSuccessor(l, l)
  {
    SucceedsMeansNoViolations(l, l);
  }

  function LedgerIn(files: Files, runId: string): Option<Ledger> {
    if runId in files && files[runId].Bytes? && files[runId].document.LedgerText?
    then Some(files[runId].document.ledger) else None
  }

  /** Everything a run's ledger keeps between two moments of its history. */
  ghost predicate Later(l: Ledger, l': Ledger) {
    && Valid(l') && SameIdentity(l, l') && SamePlan(l, l')
    && |l'.tasks| == |l.tasks|
    && (l == l' || Progress(l) < Progress(l'))
    && (l.stopReason.Some? ==> l' == l)
    && Progress(l') <= 3 * |l.frozenTaskIds| + 1
  }

  /** The ledger after the first `k` writes still exists, and is no earlier than the one at the start. */
  lemma {:induction false} HistoryMovesForward(
    fs: seq<Files>, root: string, ws: seq<Write>, runId: string, i: nat, k: nat)
    requires Trace(fs, root, ws) && i <= k < |fs|
    requires LedgerIn(fs[i], runId).Some? && Holds(fs[i], runId, LedgerIn(fs[i], runId).value)
    ensures LedgerIn(fs[k], runId).Some? && Holds(fs[k], runId, LedgerIn(fs[k], runId).value)
    ensures Later(LedgerIn(fs[i], runId).value, LedgerIn(fs[k], runId).value)
    decreases k
  {
    hide Valid, Outcome, FilesAfter, Progress;
    var l := LedgerIn(fs[i], runId).value;
    if k == i {
      SucceedsIsReflexive(l);
      SuccessorsProgress(l, l);
    } else {
      HistoryMovesForward(fs, root, ws, runId, i, k - 1);
      var before := LedgerIn(fs[k - 1], runId).value;
      assert fs[(k - 1) + 1] == FilesAfter(fs[k - 1], ws[k - 1].next, Outcome(fs[k - 1], root, ws[k - 1]));
      var after := OneWrite(fs[k - 1], root, ws[k - 1], runId, before);
      assert LedgerIn(fs[k], runId).value == after;
    }
  }

  /** How many of the first `k` writes changed this run's document. */
  function Changes(fs: seq<Files>, runId: string, k: nat): nat
    requires k < |fs|
  {
    if k == 0 then 0
    else Changes(fs, runId, k - 1) + if LedgerIn(fs[k], runId) != LedgerIn(fs[k - 1], runId) then 1 else 0
  }

  lemma {:induction false} ChangesAreBoundedByProgress(
    fs: seq<Files>, root: string, ws: seq<Write>, runId: string, k: nat)
    requires Trace(fs, root, ws) && k < |fs|
    requires LedgerIn(fs[0], runId).Some? && Holds(fs[0], runId, LedgerIn(fs[0], runId).value)
    ensures LedgerIn(fs[k], runId).Some?
    ensures Progress(LedgerIn(fs[0], runId).value) + Changes(fs, runId, k) <= Progress(LedgerIn(fs[k], runId).value)
    decreases k
  {
    hide Valid, Trace, Progress, SameIdentity, SamePlan;
    HistoryMovesForward(fs, root, ws, runId, 0, k);
    if k > 0 {
      ChangesAreBoundedByProgress(fs, root, ws, runId, k - 1);
      HistoryMovesForward(fs, root, ws, runId, 0, k - 1);
      HistoryMovesForward(fs, root, ws, runId, k - 1, k);
    }
  }

  /**
   * Over any history a run of `n` tasks is rewritten at most `3n + 1` times, less what it
   * had already done when the history began.
   */
  lemma HistoryIsBounded(fs: seq<Files>, root: string, ws: seq<Write>, runId: string)
    requires Trace(fs, root, ws)
    requires LedgerIn(fs[0], runId).Some? && Holds(fs[0], runId, LedgerIn(fs[0], runId).value)
    ensures
      var l := LedgerIn(fs[0], runId).value;
      Changes(fs, runId, |ws|) <= 3 * |l.frozenTaskIds| + 1 - Progress(l)
  {
    ChangesAreBoundedByProgress(fs, root, ws, runId, |ws|);
    HistoryMovesForward(fs, root, ws, runId, 0, |ws|);
  }

  /**
   * A document once left is never returned to, identity and frozen plan never move, and
   * from the moment a stop reason is on disk the document is final.
   */
  lemma HistoryNeverReturns(
    fs: seq<Files>, root: string, ws: seq<Write>, runId: string, i: nat, j: nat, k: nat)
    requires Trace(fs, root, ws) && i <= j <= k < |fs|
    requires LedgerIn(fs[i], runId).Some? && Holds(fs[i], runId, LedgerIn(fs[i], runId).value)
    ensures LedgerIn(fs[j], runId).Some? && LedgerIn(fs[k], runId).Some?
    ensures
      var a, b, c := LedgerIn(fs[i], runId).value, LedgerIn(fs[j], runId).value, LedgerIn(fs[k], runId).value;
      && (a == c ==> b == a)
      && SameIdentity(a, c) && SamePlan(a, c)
      && (b.stopReason.Some? ==> c == b)
  {
    HistoryMovesForward(fs, root, ws, runId, i, j);
    HistoryMovesForward(fs, root, ws, runId, j, k);
  }

  /** A created ledger starts the whole allowance: nothing has happened yet. */
  lemma CreatedLedgerHasNoProgress(files: Files, root: string, declared: Option<string>, next: Document, fate: WriteFate)
    requires CreateOutcome(files, root, declared, next, fate).Saved?
    ensures next.LedgerText? && next.ledger.runId !in files
    ensures Holds(FilesAfter(files, next, Saved(next)), next.ledger.runId, next.ledger)
    ensures Progress(next.ledger) == 0
  {
    NothingPlannedHasRank(next.ledger.tasks);
  }

  lemma {:induction false} NothingPlannedHasRank(tasks: seq<Entry>)
    requires forall e | e in tasks :: e.disposition == Planned
    ensures TotalRank(tasks) == 0
  {
    if tasks != [] { NothingPlannedHasRank(tasks[1..]); }
  }
}
