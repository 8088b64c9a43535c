/** From the helper's threads to the caller's result: what a completed command proves. */
module OwnedRuns {
  import opened Base
  import opened ExitCodes
  import opened LaunchBoundary
  import opened LaunchProtocol
  import opened LaunchEndings
  import opened LaunchRuns
  import opened LaunchFiles
  import opened LaunchCompletions
  import opened BoundedSink
  import opened OwnedCommand

  /**
   * Over every run of the helper and every order of output, abort, establishment and
   * deadline on the caller's side: a command reported as completed ended on its own, with
   * the exit code reported, and no policy had asked for it to end.
   */
  lemma CompletedCommandsFinishedOnTheirOwn(
    s: State, leftBehind: Option<BoundaryStatus>, o: Observation,
    outLimit: Limit, errLimit: Limit, terminateOnLimit: bool, events: seq<Event>)
    requires Reachable(s) && FreshNonce(s.nonce, leftBehind) && Reads(s, leftBehind, o.status)
    requires o.expected.Some? && o.expected.value.nonce == s.nonce && IsEstablished(events)
    requires
      var p := PolicyAfter(Fresh(outLimit, errLimit, terminateOnLimit), events);
      ClassifySettled(Ended(ClassifyBoundaryEnding(o)), p.termination).outcome == Completed
    ensures
      var p := PolicyAfter(Fresh(outLimit, errLimit, terminateOnLimit), events);
      && EndedBy(s.kernel.target, OnItsOwn)
      && ClassifySettled(Ended(ClassifyBoundaryEnding(o)), p.termination).exitCode == Some(s.kernel.target.code)
      && !Triggered(outLimit, errLimit, terminateOnLimit, events)
  {
    hide Reachable, ClassifyBoundaryEnding, Triggered, PolicyAfter, Reads, FreshNonce, IsEstablished, Decode;
    var p := PolicyAfter(Fresh(outLimit, errLimit, terminateOnLimit), events);
    var ending := ClassifyBoundaryEnding(o);
    CompletedIff(OwnedObservation(Arrived(ending), p.termination, Some(true), None, None));
    NoKilledRunLooksFinished(s, leftBehind, o);
    CompletedMeansUntouched(outLimit, errLimit, terminateOnLimit, events, Arrived(ending));
  }

  /**
   * The whole chain: helper threads, the text at the status path, the reader, the caller's
   * policies and the answer of the run. Whatever is found at the path, a completed command
   * ended on its own with the code reported, and nothing had asked for it to end.
   */
  lemma CompletedAnswersAreTrue(
    s: State, leftBehind: Option<string>, text: Option<string>, o: Observation, p: Policy, events: seq<Event>)
    requires ReachableInBounds(s) && FreshNonce(s.nonce, Read(leftBehind)) && Found(s, leftBehind, text)
    requires o.status == Read(text) && o.expected.Some? && o.expected.value.nonce == s.nonce
    requires CameFrom(p, events) && p.established
    requires AnswerOf(Waited(Ended(ClassifyBoundaryEnding(o)), p.termination)).outcome == Completed
    ensures EndedBy(s.kernel.target, OnItsOwn)
    ensures AnswerOf(Waited(Ended(ClassifyBoundaryEnding(o)), p.termination)).exitCode == Some(s.kernel.target.code)
    ensures !Triggered(p.outLimit, p.errLimit, p.terminateOnLimit, events)
  {
    hide ReachableInBounds, ClassifyBoundaryEnding, Triggered, PolicyAfter, Found, FreshNonce, Read, CameFrom;
    var ending := ClassifyBoundaryEnding(o);
    CompletedIff(OwnedObservation(Arrived(ending), p.termination, Some(true), None, None));
    NoKilledRunReadsAsFinished(s, leftBehind, text, o);
    AnswersTellTheEvents(p, events, Ended(ending));
  }

  /**
   * And the other way: whatever order things happened in on both sides, a command whose
   * helper returned from an answered wait and delivered its report, and whose end nothing
   * asked for, is completed with its target's own exit code.
   */
  lemma FinishedCommandsAreCompleted(start: State, actions: seq<Action>, p: Policy, events: seq<Event>)
    requires Init(start) && RunFrom(start, actions).Some? && WaitsAreAnswered(actions)
    requires RunFrom(start, actions).value.helper == MainReturned(EXIT_CHILD_OBSERVED)
    requires RunFrom(start, actions).value.delivered
    requires CameFrom(p, events) && p.established && !Triggered(p.outLimit, p.errLimit, p.terminateOnLimit, events)
    ensures
      var s := RunFrom(start, actions).value;
      var answer := AnswerOf(Waited(Ended(ClassifyBoundaryEnding(Finished(s))), p.termination));
      && EndedBy(s.kernel.target, OnItsOwn)
      && answer.outcome == Completed && answer.exitCode == Some(s.kernel.target.code)
  {
    hide RunFrom, ClassifyBoundaryEnding, Finished, Triggered, PolicyAfter, CameFrom;
    FinishesAreCompletions(start, actions);
    var s := RunFrom(start, actions).value;
    UnsignedUndoesSigned(s.kernel.target.code);
    AnswersTellTheEvents(p, events, Ended(ClassifyBoundaryEnding(Finished(s))));
    CompletedIff(OwnedObservation(Arrived(ClassifyBoundaryEnding(Finished(s))), p.termination, Some(true), None, None));
    CodeIsReported(ClassifyBoundaryEnding(Finished(s)), p.termination);
  }

  lemma CodeIsReported(ending: Ending, termination: Termination)
    requires AnswerOf(Waited(Ended(ending), termination)).outcome == Completed && ending.ChildExited?
    ensures AnswerOf(Waited(Ended(ending), termination)).exitCode == UnsignedExitCode(ending.childExitCode)
  {
  }
}
