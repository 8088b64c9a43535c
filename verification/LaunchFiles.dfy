/**
 * The helper's runs and the file they leave, composed: every line of every list a run can
 * reach can be printed, so what the protocol proves of status lists holds of the text at
 * the status path.
 */
module LaunchFiles {
  import opened Base
  import opened ExitCodes
  import opened WireLines
  import opened LaunchBoundary
  import opened LaunchProtocol
  import opened LaunchEndings
  import opened LaunchRuns
  import opened BoundaryReport

  /** Process ids, counts and error numbers are machine integers, and names are texts. */
  predicate InBounds(a: Action) {
    match a
    case Place(Creates(pid)) => IsSafe(pid)
    case Run(Puts(number)) => IsSafe(number)
    case Side(StdinEnds(forward)) => IsText(forward)
    case _ => true
  }

  ghost predicate ReachableInBounds(s: State) {
    exists start, actions: seq<Action> ::
      && Init(start) && IsText(start.nonce) && IsSafe(start.helperPid)
      && (forall i | 0 <= i < |actions| :: InBounds(actions[i]))
      && RunFrom(start, actions) == Some(s)
  }

  ghost predicate AllPrintable(lines: seq<Line>) {
    forall i | 0 <= i < |lines| :: Printable(lines[i])
  }

  /** Everything that is written, about to be written or still to be put can be printed. */
  ghost predicate PrintHolds(s: State) {
    && IsText(s.nonce) && IsSafe(s.helperPid)
    && (!s.kernel.target.NoTarget? ==> IsSafe(s.kernel.target.pid))
    && AllPrintable(s.status)
    && (s.publishing.Writes? && s.publishing.snapshot.Some? ==> AllPrintable(s.publishing.snapshot.value))
    && (s.file.Published? ==> AllPrintable(s.file.lines))
  }

  lemma OneMorePrints(lines: seq<Line>, line: Line)
    requires AllPrintable(lines) && Printable(line)
    ensures AllPrintable(lines + [line])
  {
  }

  lemma EarlyFailureNamesAreTexts(why: RefusalReason)
    requires why.RequestInvalid? || why.JobCreate? || why.JobHandle? || why.JobConfigure?
    ensures IsText(FailureName(why))
  {
  }

  lemma CreationFailureNamesAreTexts(why: RefusalReason)
    requires why.OwnerGone? || why.PipesFailed? || why.AttributeList? || why.HandleList?
    ensures IsText(FailureName(why))
  {
  }

  lemma LateFailureNamesAreTexts(why: RefusalReason)
    requires why.JobList? || why.CreateFailed? || why.AssignFailed?
    ensures IsText(FailureName(why))
  {
  }

  lemma LastFailureNamesAreTexts(why: RefusalReason)
    requires why.VerifyFailed? || why.ResumeFailed? || why.InternalError?
    ensures IsText(FailureName(why))
  {
  }

  lemma FailureNamesAreTexts(why: RefusalReason)
    ensures IsText(FailureName(why))
  {
    hide FailureName, IsText;
    if why.RequestInvalid? || why.JobCreate? || why.JobHandle? || why.JobConfigure? {
      EarlyFailureNamesAreTexts(why);
    } else if why.OwnerGone? || why.PipesFailed? || why.AttributeList? || why.HandleList? {
      CreationFailureNamesAreTexts(why);
    } else if why.JobList? || why.CreateFailed? || why.AssignFailed? {
      LateFailureNamesAreTexts(why);
    } else {
      LastFailureNamesAreTexts(why);
    }
  }

  lemma PutsPrint(s: State, number: int, n: State)
    requires PrintHolds(s) && IsSafe(number) && RunNext(s, Puts(number)) == Some(n)
    ensures PrintHolds(n)
  {
    hide FailureName, AllPrintable, IsText;
    if s.main.PutFailure? { FailureNamesAreTexts(s.main.why); }
    OneMorePrints(s.status, MainPut(s, number).value.0);
  }

  /** The same lines and texts, and a target whose number can be printed. */
  lemma SameLinesPrint(s: State, n: State)
    requires PrintHolds(s) && n.nonce == s.nonce && n.helperPid == s.helperPid
    requires n.status == s.status && n.publishing == s.publishing && n.file == s.file
    requires n.kernel.target.NoTarget? || IsSafe(n.kernel.target.pid)
      || (!s.kernel.target.NoTarget? && n.kernel.target.pid == s.kernel.target.pid)
    ensures PrintHolds(n)
  {
    hide IsText, AllPrintable;
  }

  /** Another list, of lines that can be printed, and everything else as it was. */
  lemma OtherLinesPrint(s: State, n: State)
    requires PrintHolds(s) && AllPrintable(n.status) && n.nonce == s.nonce && n.helperPid == s.helperPid
    requires n.publishing == s.publishing && n.file == s.file
    requires n.kernel.target == s.kernel.target
    ensures PrintHolds(n)
  {
    hide IsText, AllPrintable;
  }

  lemma WhatIsListedPrints(s: State)
    requires PrintHolds(s)
    ensures AllPrintable(s.status) && IsText(s.nonce) && IsSafe(s.helperPid)
  {
  }

  lemma EnvironmentPrints(s: State, step: EnvironmentStep, n: State)
    requires PrintHolds(s) && EnvironmentNext(s, step) == Some(n)
    ensures PrintHolds(n)
  {
    hide PrintHolds;
    SameLinesPrint(s, n);
  }

  lemma FirstLinesPrint(s: State)
    requires PrintHolds(s)
    ensures AllPrintable([NonceLine(s.nonce)]) && AllPrintable([])
    ensures AllPrintable([NonceLine(s.nonce), HelperPidLine(s.helperPid), ModeLine(s.mode)])
    ensures AllPrintable(s.status + [JobHandleInheritableLine(false)])
  {
    hide IsText;
  }

  lemma PreparePrints(s: State, step: PrepareStep, n: State)
    requires PrintHolds(s) && PrepareNext(s, step) == Some(n)
    ensures PrintHolds(n)
  {
    hide PrintHolds, AllPrintable;
    FirstLinesPrint(s);
    if step.ReadsRequest? || step.MakesJob? {
      OtherLinesPrint(s, n);
    } else {
      SameLinesPrint(s, n);
    }
  }

  lemma PlacePrints(s: State, step: PlaceStep, n: State)
    requires PrintHolds(s) && InBounds(Place(step)) && PlaceNext(s, step) == Some(n)
    ensures PrintHolds(n)
  {
    hide PrintHolds;
    SameLinesPrint(s, n);
  }

  lemma RunPrints(s: State, step: RunStep, n: State)
    requires PrintHolds(s) && InBounds(Run(step)) && RunNext(s, step) == Some(n)
    ensures PrintHolds(n)
  {
    hide PrintHolds, MainPut;
    if step.Puts? {
      PutsPrint(s, step.number, n);
    } else {
      SameLinesPrint(s, n);
    }
  }

  lemma FailurePrints(s: State, step: FailureStep, n: State)
    requires PrintHolds(s) && FailureNext(s, step) == Some(n)
    ensures PrintHolds(n)
  {
    hide PrintHolds, AllPrintable;
    FirstLinesPrint(s);
    if step.RefusesRequest? {
      OtherLinesPrint(s, n);
    } else {
      SameLinesPrint(s, n);
    }
  }

  lemma SidePrints(s: State, step: SideStep, n: State)
    requires PrintHolds(s) && InBounds(Side(step)) && SideNext(s, step) == Some(n)
    ensures PrintHolds(n)
  {
    hide PrintHolds, AllPrintable, IsText;
    WhatIsListedPrints(s);
    if step.WatcherPutsLoss? {
      OneMorePrints(s.status, TerminatedByOwnerLossLine(true));
      OtherLinesPrint(s, n);
    } else if step.StdinEnds? {
      OneMorePrints(s.status, StdinForwardLine(step.forward));
      OtherLinesPrint(s, n);
    } else {
      SameLinesPrint(s, n);
    }
  }

  lemma WriterPrints(s: State, step: WriterStep, n: State)
    requires PrintHolds(s) && WriterNext(s, step) == Some(n)
    ensures PrintHolds(n)
  {
    hide IsText, AllPrintable;
  }

  lemma StepPrints(s: State, a: Action, n: State)
    requires PrintHolds(s) && InBounds(a) && Next(s, a) == Some(n)
    ensures PrintHolds(n)
  {
    hide FailureName, IsText, MainPut, RunNext, FailureNext, SideNext, PlaceNext, PrepareNext, EnvironmentNext, WriterNext, PrintHolds;
    match a
    case Environment(step) => EnvironmentPrints(s, step, n);
    case Prepare(step) => PreparePrints(s, step, n);
    case Place(step) => PlacePrints(s, step, n);
    case Run(step) => RunPrints(s, step, n);
    case Failure(step) => FailurePrints(s, step, n);
    case Side(step) => SidePrints(s, step, n);
    case Writer(step) => WriterPrints(s, step, n);
  }

  lemma {:induction false} RunsPrint(s: State, actions: seq<Action>)
    requires PrintHolds(s) && RunFrom(s, actions).Some? && forall i | 0 <= i < |actions| :: InBounds(actions[i])
    ensures PrintHolds(RunFrom(s, actions).value)
    decreases |actions|
  {
    hide PrintHolds, Next, InBounds;
    if actions != [] {
      RunsPrint(s, actions[..|actions| - 1]);
      StepPrints(RunFrom(s, actions[..|actions| - 1]).value, actions[|actions| - 1], RunFrom(s, actions).value);
    }
  }

  /** A bounded run is a run, and no line of its lists is one the helper could not print. */
  lemma ReachablePrints(s: State)
    requires ReachableInBounds(s)
    ensures Reachable(s) && PrintHolds(s)
  {
    hide RunFrom;
    var start, actions: seq<Action> :|
      && Init(start) && IsText(start.nonce) && IsSafe(start.helperPid)
      && (forall i | 0 <= i < |actions| :: InBounds(actions[i]))
      && RunFrom(start, actions) == Some(s);
    RunsPrint(start, actions);
  }

  /** A file whose known lines are the published ones, with lines of other keys anywhere between. */
  ghost predicate Renders(fs: seq<FileLine>, lines: seq<Line>) {
    KnownLines(fs) == lines && forall i | 0 <= i < |fs| && fs[i].Other? :: Writable(fs[i])
  }

  lemma {:induction false} KnownLinesAreKept(fs: seq<FileLine>, i: nat)
    requires i < |fs| && fs[i].Known?
    ensures fs[i].line in KnownLines(fs)
    decreases |fs|
  {
    if i < |fs| - 1 { KnownLinesAreKept(fs[..|fs| - 1], i); }
  }

  lemma RenderedLinesAreWritable(fs: seq<FileLine>, lines: seq<Line>)
    requires Renders(fs, lines) && AllPrintable(lines)
    ensures forall i | 0 <= i < |fs| :: Writable(fs[i])
  {
    forall i | 0 <= i < |fs| ensures Writable(fs[i]) {
      if fs[i].Known? { KnownLinesAreKept(fs, i); }
    }
  }

  /** The text at the status path reads as the list the helper published. */
  lemma PublishedFilesReadBack(s: State, fs: seq<FileLine>)
    requires ReachableInBounds(s) && s.file.Published? && Renders(fs, s.file.lines)
    ensures forall i | 0 <= i < |fs| :: Writable(fs[i])
    ensures StatusIn(Written(LineTexts(fs))) == Some(Decode(s.file.lines))
  {
    hide Writable, Reachable, ReachableInBounds, StatusOf, SplitLines, RawOf, Written, LineTexts;
    ReachablePrints(s);
    RenderedLinesAreWritable(fs, s.file.lines);
    StatusesCrossTheWire(fs);
  }

  /** What may be found at the status path: nothing, what a previous run left, or this helper's file. */
  ghost predicate Found(s: State, leftBehind: Option<string>, text: Option<string>) {
    || text.None?
    || (s.file.LeftBehind? && text == leftBehind)
    || (s.file.Published? && exists fs | Renders(fs, s.file.lines) && (forall i | 0 <= i < |fs| :: Writable(fs[i])) ::
          text == Some(Written(LineTexts(fs))))
  }

  function Read(text: Option<string>): Option<BoundaryStatus> {
    match text
    case None => None
    case Some(t) => StatusIn(t)
  }

  /**
   * From the helper's threads to the reader of the text: whatever is found at the status
   * path, a completion is answered only for a target that ended on its own, with its own
   * exit code.
   */
  lemma NoKilledRunReadsAsFinished(s: State, leftBehind: Option<string>, text: Option<string>, o: Observation)
    requires ReachableInBounds(s) && FreshNonce(s.nonce, Read(leftBehind)) && Found(s, leftBehind, text)
    requires o.status == Read(text) && o.expected.Some? && o.expected.value.nonce == s.nonce
    requires ClassifyBoundaryEnding(o).ChildExited?
    ensures EndedBy(s.kernel.target, OnItsOwn)
    ensures UnsignedExitCode(ClassifyBoundaryEnding(o).childExitCode) == Some(s.kernel.target.code)
  {
    hide Reachable, ReachableInBounds, StatusIn, Decode, Written, LineTexts, Renders, Writable, ClassifyBoundaryEnding;
    ReachablePrints(s);
    if s.file.Published? && text.Some? {
      var fs :| Renders(fs, s.file.lines) && (forall i | 0 <= i < |fs| :: Writable(fs[i])) && text == Some(Written(LineTexts(fs)));
      PublishedFilesReadBack(s, fs);
    }
    NoKilledRunLooksFinished(s, Read(leftBehind), o);
  }
}
