/**
 * Whether a predecessor's result is fit to be a member's execution base.
 *
 * Git is a commit graph behind three questions, any of which may come back unanswered.
 */
module ChainFitness {
  import opened Base
  import opened ChainShape
  import opened TaskRecords
  import opened BlockLedger

  datatype BaseRefusal =
    | PredecessorNotSettled
    | PredecessorResultAbsent
    | PredecessorDeliveredNothing
    | BaseObjectAbsent
    | BaseObjectUnreadable
    | BaseNotReferenced
    | BaseNotDescendedFromBlockBase
    | BaseMissingRequiredPredecessor
    | ChainAnchorMissing
    | ChainAnchorAmbiguous

  datatype Ancestry = IsAncestor | NotAncestor | Indeterminate

  /** The probes as answered now; `None` and `Indeterminate` are "could not be evaluated". */
  datatype Git = Git(
    present: map<Commit, bool>,
    referenced: map<Commit, bool>,
    ancestry: map<(Commit, Commit), bool>)

  function Probe(answers: map<Commit, bool>, c: Commit): Option<bool> {
    if c in answers then Some(answers[c]) else None
  }

  /** `git merge-base --is-ancestor a b` */
  function ClassifyAncestry(git: Git, a: Commit, b: Commit): Ancestry {
    if (a, b) !in git.ancestry then Indeterminate
    else if git.ancestry[(a, b)] then IsAncestor else NotAncestor
  }

  function RequiredOf(l: Ledger, taskId: string): seq<string> {
    match FindRow(l.frozenDependencies, taskId)
    case Some(row) => row.dependsOn
    case None => []
  }

  function ResultOf(l: Ledger, taskId: string): Option<Commit> {
    match EntryFor(l, taskId)
    case Some(e) => e.resultCommit
    case None => None
  }

  function BaseOf(l: Ledger, taskId: string): Option<Commit> {
    match EntryFor(l, taskId)
    case Some(e) => e.baseCommit
    case None => None
  }

  predicate IsSettled(l: Ledger, taskId: string) {
    var e := EntryFor(l, taskId);
    e.Some? && e.value.disposition == Settled
  }

  /** It settled with a result, and the result is the commit it started on. */
  predicate DeliveredNothing(l: Ledger, taskId: string) {
    ResultOf(l, taskId).Some? && ResultOf(l, taskId) == BaseOf(l, taskId)
  }

  /** What containment in the candidate answers for one more predecessor. */
  function Containment(l: Ledger, git: Git, predecessor: string, maximum: string, candidate: Commit): Option<BaseRefusal> {
    if predecessor == maximum then None else
    match ResultOf(l, predecessor)
    case None => Some(PredecessorResultAbsent)
    case Some(result) =>
      match ClassifyAncestry(git, result, candidate)
      case Indeterminate => Some(BaseObjectUnreadable)
      case NotAncestor => Some(BaseMissingRequiredPredecessor)
      case IsAncestor => None
  }

  function FirstUncontained(l: Ledger, git: Git, required: seq<string>, maximum: string, candidate: Commit): (r: Option<BaseRefusal>)
    ensures r.None? <==> forall p | p in required :: Containment(l, git, p, maximum, candidate).None?
  {
    if required == [] then None
    else
      var first := Containment(l, git, required[0], maximum, candidate);
      if first.Some? then first else FirstUncontained(l, git, required[1..], maximum, candidate)
  }

  /** The bases recorded for the members that wait for nobody. A root that has not started has none. */
  function Anchors(l: Ledger): set<Commit> {
    set row | row in l.frozenDependencies && row.dependsOn == [] && BaseOf(l, row.taskId).Some?
      :: BaseOf(l, row.taskId).value
  }

  /** The object, its reachability, and the line the block was frozen on. */
  function ProbeCandidate(git: Git, candidate: Commit, blockBase: Commit): Option<BaseRefusal> {
    var present := Probe(git.present, candidate);
    if present.None? then Some(BaseObjectUnreadable) else
    if !present.value then Some(BaseObjectAbsent) else
    var referenced := Probe(git.referenced, candidate);
    if referenced.None? then Some(BaseObjectUnreadable) else
    if !referenced.value then Some(BaseNotReferenced) else
    match ClassifyAncestry(git, blockBase, candidate)
    case Indeterminate => Some(BaseObjectUnreadable)
    case NotAncestor => Some(BaseNotDescendedFromBlockBase)
    case IsAncestor => None
  }

  function ProveChainBase(l: Ledger, taskId: string, maximum: string, blockBase: Commit, git: Git): Result<Commit, BaseRefusal> {
    var required := RequiredOf(l, taskId);
    if exists p | p in required :: !IsSettled(l, p) then Err(PredecessorNotSettled) else
    if ResultOf(l, maximum).None? then Err(PredecessorResultAbsent) else
    var candidate := ResultOf(l, maximum).value;
    if exists p | p in required :: DeliveredNothing(l, p) then Err(PredecessorDeliveredNothing) else
    var probed := ProbeCandidate(git, candidate, blockBase);
    if probed.Some? then Err(probed.value) else
    var uncontained := FirstUncontained(l, git, required, maximum, candidate);
    if uncontained.Some? then Err(uncontained.value) else
    if |Anchors(l)| > 1 then Err(ChainAnchorAmbiguous) else
    if blockBase !in Anchors(l) then Err(ChainAnchorMissing) else
    Ok(candidate)
  }

  // ----------------------------------------------------------- the commit graph

  datatype Repository = Repository(parents: map<Commit, set<Commit>>, refs: set<Commit>)

  predicate IsParent(repo: Repository, a: Commit, b: Commit) {
    a in repo.parents && b in repo.parents && a in repo.parents[b]
  }

  /** A line of commits, each the parent of the next. */
  ghost predicate Lineage(repo: Repository, p: seq<Commit>) {
    && p != [] && p[0] in repo.parents
    && forall i | 0 <= i < |p| - 1 :: IsParent(repo, p[i], p[i + 1])
  }

  /** `b`'s history contains `a`; every commit's history contains itself. */
  ghost predicate Contains(repo: Repository, a: Commit, b: Commit) {
    exists p :: Lineage(repo, p) && p[0] == a && p[|p| - 1] == b
  }

  ghost predicate Referenced(repo: Repository, c: Commit) {
    exists r :: r in repo.refs && Contains(repo, c, r)
  }

  /** Git may fail to answer, but what it answers is true of the repository. */
  ghost predicate Truthful(git: Git, repo: Repository) {
    && (forall c | c in git.present :: git.present[c] <==> c in repo.parents)
    && (forall c | c in git.referenced :: git.referenced[c] <==> Referenced(repo, c))
    && (forall a, b | (a, b) in git.ancestry :: git.ancestry[(a, b)] <==> Contains(repo, a, b))
  }

  /** A predecessor the base may rest on: settled, with a result of its own making, inside the base. */
  ghost predicate SoundPredecessor(l: Ledger, repo: Repository, p: string, base: Commit) {
    && IsSettled(l, p)
    && ResultOf(l, p).Some?
    && ResultOf(l, p) != BaseOf(l, p)
    && Contains(repo, ResultOf(l, p).value, base)
  }

  /** A member that waits for nobody is recorded as started on this commit. */
  ghost predicate AnchoredAt(l: Ledger, c: Commit) {
    exists row | row in l.frozenDependencies && |row.dependsOn| == 0 ::
      EntryFor(l, row.taskId).Some? && EntryFor(l, row.taskId).value.baseCommit == Some(c)
  }

  lemma AnchorsMean(l: Ledger)
    ensures forall c :: c in Anchors(l) <==> AnchoredAt(l, c)
  {
  }

  lemma TwoAnchors(anchors: set<Commit>)
    ensures |anchors| > 1 <==> exists c, d | c in anchors && d in anchors :: c != d
  {
    if |anchors| > 1 {
      var c :| c in anchors;
      assert |anchors - {c}| > 0;
      var d :| d in anchors - {c};
    }
    if c, d :| c in anchors && d in anchors && c != d {
      assert {c, d} <= anchors && |{c, d}| == 2;
      SubsetIsSmaller({c, d}, anchors);
    }
  }

  lemma SubsetIsSmaller(a: set<Commit>, b: set<Commit>)
    requires a <= b
    ensures |a| <= |b|
  {
    assert b == a + (b - a);
  }

  /** What a base must be for a chained member to be built on it. */
  ghost predicate FitBase(l: Ledger, repo: Repository, taskId: string, blockBase: Commit, base: Commit) {
    && base in repo.parents && Referenced(repo, base)
    && Contains(repo, blockBase, base)
    && (forall p | p in RequiredOf(l, taskId) :: SoundPredecessor(l, repo, p, base))
    && AnchoredAt(l, blockBase) && forall c | AnchoredAt(l, c) :: c == blockBase
  }

  lemma SingletonAnchors(anchors: set<Commit>, c: Commit)
    ensures |anchors| <= 1 && c in anchors <==> anchors == {c}
  {
    if |anchors| <= 1 && c in anchors {
      assert |anchors - {c}| == 0;
      assert anchors == {c} + (anchors - {c});
    }
  }

  lemma OneAnchor(l: Ledger, c: Commit)
    ensures |Anchors(l)| <= 1 && c in Anchors(l) <==> AnchoredAt(l, c) && forall d | AnchoredAt(l, d) :: d == c
  {
    hide AnchoredAt, Anchors;
    AnchorsMean(l);
    SingletonAnchors(Anchors(l), c);
    assert (forall d | AnchoredAt(l, d) :: d == c) <==> forall d | d in Anchors(l) :: d == c;
  }

  lemma CommitContainsItself(repo: Repository, c: Commit)
    requires c in repo.parents
    ensures Contains(repo, c, c)
  {
    assert Lineage(repo, [c]);
  }

  /**
   * A base that is handed out is fit: whatever the ledger and whatever Git could answer,
   * every required predecessor settled, delivered, and is contained in it.
   */
  lemma ProvenBaseIsFit(
    l: Ledger, taskId: string, maximum: string, blockBase: Commit, git: Git, repo: Repository)
    requires Truthful(git, repo)
    requires maximum in RequiredOf(l, taskId)
    requires ProveChainBase(l, taskId, maximum, blockBase, git).Ok?
    ensures FitBase(l, repo, taskId, blockBase, ProveChainBase(l, taskId, maximum, blockBase, git).value)
    ensures ResultOf(l, maximum) == Some(ProveChainBase(l, taskId, maximum, blockBase, git).value)
  {
    var base := ProveChainBase(l, taskId, maximum, blockBase, git).value;
    var required := RequiredOf(l, taskId);
    assert base in git.present && base in git.referenced;
    CommitContainsItself(repo, base);
    forall p | p in required ensures SoundPredecessor(l, repo, p, base) {
      assert !DeliveredNothing(l, p) && IsSettled(l, p);
      assert Containment(l, git, p, maximum, base).None?;
    }
    OneAnchor(l, blockBase);
  }

  /** The questions the gate asks about `base` were all answered. */
  ghost predicate Answered(l: Ledger, taskId: string, git: Git, blockBase: Commit, base: Commit) {
    && base in git.present && base in git.referenced && (blockBase, base) in git.ancestry
    && forall p | p in RequiredOf(l, taskId) && ResultOf(l, p).Some? :: (ResultOf(l, p).value, base) in git.ancestry
  }

  /**
   * Where Git answers, the gate refuses nothing it should not: it hands out the maximum's
   * result exactly when that commit is fit.
   */
  lemma BaseIsProvenIffFit(
    l: Ledger, taskId: string, maximum: string, blockBase: Commit, git: Git, repo: Repository, base: Commit)
    requires Truthful(git, repo) && Answered(l, taskId, git, blockBase, base)
    requires maximum in RequiredOf(l, taskId) && ResultOf(l, maximum) == Some(base)
    ensures ProveChainBase(l, taskId, maximum, blockBase, git) == Ok(base)
      <==> FitBase(l, repo, taskId, blockBase, base)
  {
    hide RequiredOf, ResultOf, FitBase, ProveChainBase, Truthful, Answered;
    if ProveChainBase(l, taskId, maximum, blockBase, git) == Ok(base) {
      ProvenBaseIsFit(l, taskId, maximum, blockBase, git, repo);
    }
    if FitBase(l, repo, taskId, blockBase, base) { FitBaseIsProven(l, taskId, maximum, blockBase, git, repo, base); }
  }

  lemma FitBaseIsProven(
    l: Ledger, taskId: string, maximum: string, blockBase: Commit, git: Git, repo: Repository, base: Commit)
    requires Truthful(git, repo) && Answered(l, taskId, git, blockBase, base)
    requires maximum in RequiredOf(l, taskId) && ResultOf(l, maximum) == Some(base)
    requires FitBase(l, repo, taskId, blockBase, base)
    ensures ProveChainBase(l, taskId, maximum, blockBase, git) == Ok(base)
  {
    hide RequiredOf, ResultOf, BaseOf, AnchoredAt, Anchors;
    OneAnchor(l, blockBase);
    forall p | p in RequiredOf(l, taskId) ensures Containment(l, git, p, maximum, base).None? {
      assert SoundPredecessor(l, repo, p, base);
    }
    assert ProbeCandidate(git, base, blockBase).None?;
    hide Containment, ProbeCandidate;
  }

  /** A required predecessor other than the maximum whose result Git could not, or would not, place in the candidate. */
  ghost predicate Uncontained(l: Ledger, git: Git, p: string, maximum: string, candidate: Commit, why: BaseRefusal) {
    && p != maximum
    && match ResultOf(l, p)
       case None => why == PredecessorResultAbsent
       case Some(result) =>
         if (result, candidate) !in git.ancestry then why == BaseObjectUnreadable
         else !git.ancestry[(result, candidate)] && why == BaseMissingRequiredPredecessor
  }

  /** Git has the commit, some reference reaches it, and it is on the block's line. */
  ghost predicate CandidateStands(git: Git, c: Commit, blockBase: Commit) {
    && c in git.present && git.present[c] && c in git.referenced && git.referenced[c]
    && (blockBase, c) in git.ancestry && git.ancestry[(blockBase, c)]
  }

  /** The first of the three that fails, or that Git could not answer. */
  ghost predicate CandidateIsAtFault(git: Git, c: Commit, blockBase: Commit, why: BaseRefusal) {
    if c !in git.present then why == BaseObjectUnreadable
    else if !git.present[c] then why == BaseObjectAbsent
    else if c !in git.referenced then why == BaseObjectUnreadable
    else if !git.referenced[c] then why == BaseNotReferenced
    else if (blockBase, c) !in git.ancestry then why == BaseObjectUnreadable
    else !git.ancestry[(blockBase, c)] && why == BaseNotDescendedFromBlockBase
  }

  lemma ProbesMean(git: Git, c: Commit, blockBase: Commit)
    ensures ProbeCandidate(git, c, blockBase).None? <==> CandidateStands(git, c, blockBase)
    ensures ProbeCandidate(git, c, blockBase).Some? ==>
      CandidateIsAtFault(git, c, blockBase, ProbeCandidate(git, c, blockBase).value)
  {
  }

  /**
   * Why the gate refuses, whatever Git could answer: each code has its cause, and the maximum
   * itself is never asked about again.
   */
  ghost predicate RefusalHasCause(
    why: BaseRefusal, l: Ledger, taskId: string, maximum: string, blockBase: Commit, git: Git)
  {
    var required, result := RequiredOf(l, taskId), ResultOf(l, maximum);
    if exists p | p in required :: EntryFor(l, p).None? || EntryFor(l, p).value.disposition != Settled then
      why == PredecessorNotSettled
    else if result.None? then why == PredecessorResultAbsent
    else if exists p | p in required :: ResultOf(l, p).Some? && ResultOf(l, p) == BaseOf(l, p) then
      why == PredecessorDeliveredNothing
    else if !CandidateStands(git, result.value, blockBase) then CandidateIsAtFault(git, result.value, blockBase, why)
    else if exists p, w | p in required :: Uncontained(l, git, p, maximum, result.value, w) then
      exists p | p in required :: Uncontained(l, git, p, maximum, result.value, why)
    else AnchorIsAtFault(l, blockBase, why)
  }

  /** Two started roots disagree, or none of them started on the block's base. */
  ghost predicate AnchorIsAtFault(l: Ledger, blockBase: Commit, why: BaseRefusal) {
    if exists c, d :: c != d && AnchoredAt(l, c) && AnchoredAt(l, d) then why == ChainAnchorAmbiguous
    else !AnchoredAt(l, blockBase) && why == ChainAnchorMissing
  }

  lemma AnchorFaultsMean(l: Ledger, blockBase: Commit)
    ensures |Anchors(l)| > 1 ==> AnchorIsAtFault(l, blockBase, ChainAnchorAmbiguous)
    ensures |Anchors(l)| <= 1 && blockBase !in Anchors(l) ==> AnchorIsAtFault(l, blockBase, ChainAnchorMissing)
  {
    hide AnchoredAt, Anchors;
    AnchorsMean(l);
    TwoAnchors(Anchors(l));
  }

  lemma {:induction false} FirstUncontainedIs(l: Ledger, git: Git, required: seq<string>, maximum: string, candidate: Commit)
    ensures
      match FirstUncontained(l, git, required, maximum, candidate)
      case None => forall p, w | p in required :: !Uncontained(l, git, p, maximum, candidate, w)
      case Some(why) => exists p | p in required :: Uncontained(l, git, p, maximum, candidate, why)
  {
    if required != [] {
      FirstUncontainedIs(l, git, required[1..], maximum, candidate);
      assert required[0] in required;
      var first := Containment(l, git, required[0], maximum, candidate);
      assert first.Some? ==> Uncontained(l, git, required[0], maximum, candidate, first.value);
      assert first.None? ==> forall w :: !Uncontained(l, git, required[0], maximum, candidate, w);
      assert forall p :: p in required <==> p == required[0] || p in required[1..];
    }
  }

  lemma RefusalsHaveCauses(l: Ledger, taskId: string, maximum: string, blockBase: Commit, git: Git)
    requires ProveChainBase(l, taskId, maximum, blockBase, git).Err?
    ensures RefusalHasCause(ProveChainBase(l, taskId, maximum, blockBase, git).error, l, taskId, maximum, blockBase, git)
  {
    if ResultOf(l, maximum).Some? {
      ProbesMean(git, ResultOf(l, maximum).value, blockBase);
      FirstUncontainedIs(l, git, RequiredOf(l, taskId), maximum, ResultOf(l, maximum).value);
    }
    AnchorFaultsMean(l, blockBase);
    hide FirstUncontained, Uncontained, Containment, Anchors, AnchorIsAtFault, EntryFor, RequiredOf, ResultOf, BaseOf,
      ProbeCandidate, CandidateStands, CandidateIsAtFault;
  }
}
