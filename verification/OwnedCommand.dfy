/**
 * The run loop around a launch: two bounded streams, an abort, a deadline and the moment
 * ownership is established, in any order; why the run was ended, at most once; and how a
 * run that ended is reported.
 */
module OwnedCommand {
  import opened Base
  import opened ExitCodes
  import opened LaunchBoundary
  import opened BoundedSink

  datatype Termination = NoTermination | Timeout | LimitStdout | LimitStderr | Caller | Undeclared

  // ------------------------------------------------------------ classification

  /** What arrives as the boundary's ending, from a caller that may not be type checked. */
  datatype Arrived = Absent | Unknown | Arrived(ending: Ending)

  datatype OwnedObservation = OwnedObservation(
    ending: Arrived,
    termination: Termination,
    ownershipEstablished: Option<bool>,
    cancelledBeforeOwnership: Option<bool>,
    deadlineExpired: Option<bool>)

  datatype Outcome =
    | Completed | TimedOut | OutputLimitExceeded | EndedByCaller | LaunchRefused | BoundaryLost

  datatype FailureCode =
    | TimeoutFailure | OutputLimitStdout | OutputLimitStderr | TerminatedByCallerFailure | BoundaryLostFailure
    | LaunchRefusedFailure | TerminationUnconfirmed | EndingInconsistent | StreamsUnavailableFailure

  datatype Classification = Classification(
    outcome: Outcome,
    failureCode: Option<FailureCode>,
    exitCode: Option<ExitCode>,
    boundaryFailureCode: Option<string>,
    boundaryLostReason: Option<LostReason>,
    targetStarted: Started,
    sideEffectsPossible: bool)

  const Inconsistent :=
    Classification(BoundaryLost, Some(EndingInconsistent), None, None, None, StartedUnknown, true)

  function StatusIn(ending: Ending): Option<BoundaryStatus> {
    match ending
    case ChildExited(_, status) => Some(status)
    case TerminatedByCaller(status) => Some(status)
    case Lost(_, status) => status
    case Refused(_, _, _, status) => status
  }

  function ReportedExitCode(ending: Ending): Option<ExitCode> {
    if ending.ChildExited? then UnsignedExitCode(ending.childExitCode)
    else if StatusIn(ending).None? || StatusIn(ending).value.childExitCode.None? then None
    else UnsignedExitCode(StatusIn(ending).value.childExitCode.value)
  }

  function TerminationOutcome(t: Termination): (Outcome, FailureCode)
    requires t != NoTermination && t != Undeclared
  {
    match t
    case Timeout => (TimedOut, TimeoutFailure)
    case LimitStdout => (OutputLimitExceeded, OutputLimitStdout)
    case LimitStderr => (OutputLimitExceeded, OutputLimitStderr)
    case Caller => (EndedByCaller, TerminatedByCallerFailure)
  }

  function ClassifyRefusal(o: OwnedObservation): Classification
    requires o.ending.Arrived? && o.ending.ending.Refused?
  {
    var e := o.ending.ending;
    var refused := Classification(
      LaunchRefused, Some(LaunchRefusedFailure), None, Some(e.failureCode), None, e.targetStarted, e.targetStarted != StartedNo);
    if o.termination != NoTermination then Inconsistent
    else if o.cancelledBeforeOwnership == Some(true) then
      refused.(outcome := EndedByCaller, failureCode := Some(TerminatedByCallerFailure))
    else if o.deadlineExpired == Some(true) && e.failureCode == "BOUNDARY_NOT_ESTABLISHED_IN_TIME" then
      refused.(outcome := TimedOut, failureCode := Some(TimeoutFailure))
    else refused
  }

  function ClassifyOwnedCommand(o: OwnedObservation): Classification {
    if !o.ending.Arrived? then Inconsistent
    else
      var e := o.ending.ending;
      var provesOwnership := e.ChildExited? || e.TerminatedByCaller?;
      var deniesOwnership := o.ownershipEstablished == Some(false) || o.cancelledBeforeOwnership == Some(true);
      if provesOwnership && deniesOwnership then Inconsistent
      else if e.Refused? && o.ownershipEstablished == Some(true) then Inconsistent
      else if e.Lost? then
        Classification(BoundaryLost, Some(BoundaryLostFailure), ReportedExitCode(e), None, Some(e.reason), StartedUnknown, true)
      else if e.Refused? then ClassifyRefusal(o)
      else if o.termination == Undeclared then Inconsistent
      else if o.termination != NoTermination then
        var (outcome, failure) := TerminationOutcome(o.termination);
        Classification(outcome, Some(failure), ReportedExitCode(e), None, None, StartedYes, true)
      else if e.ChildExited? && UnsignedExitCode(e.childExitCode).Some? then
        Classification(Completed, None, UnsignedExitCode(e.childExitCode), None, None, StartedYes, true)
      else Inconsistent
  }

  /**
   * The one claim acted on as success has exactly one shape behind it, is the only answer
   * without a failure, and always carries the code a process exited with.
   */
  lemma CompletedIff(o: OwnedObservation)
    ensures ClassifyOwnedCommand(o).outcome == Completed <==>
      && o.ending.Arrived? && o.ending.ending.ChildExited? && o.termination == NoTermination
      && o.ownershipEstablished != Some(false) && o.cancelledBeforeOwnership != Some(true)
      && -TWO_TO_31 <= o.ending.ending.childExitCode < TWO_TO_32
    ensures ClassifyOwnedCommand(o).outcome == Completed <==> ClassifyOwnedCommand(o).failureCode.None?
    ensures ClassifyOwnedCommand(o).outcome == Completed ==> ClassifyOwnedCommand(o).exitCode.Some?
  {
  }

  /** "No side effects" is only ever the boundary's own claim that nothing ran. */
  lemma NoSideEffectsIff(o: OwnedObservation)
    ensures !ClassifyOwnedCommand(o).sideEffectsPossible <==>
      && o.ending.Arrived? && o.ending.ending.Refused? && o.ending.ending.targetStarted == StartedNo
      && o.termination == NoTermination && o.ownershipEstablished != Some(true)
  {
  }

  /**
   * What the caller knows renames a refusal and nothing more: the boundary's own code, and
   * whether anything may have run, survive every name, and each name has one cause.
   */
  lemma RefusalsAreOnlyRenamed(o: OwnedObservation)
    requires o.ending.Arrived? && o.ending.ending.Refused?
    requires o.termination == NoTermination && o.ownershipEstablished != Some(true)
    ensures
      var (c, e) := (ClassifyOwnedCommand(o), o.ending.ending);
      && c.boundaryFailureCode == Some(e.failureCode) && c.targetStarted == e.targetStarted && c.exitCode.None?
      && (if o.cancelledBeforeOwnership == Some(true)
          then c.outcome == EndedByCaller && c.failureCode == Some(TerminatedByCallerFailure)
          else if o.deadlineExpired == Some(true) && e.failureCode == "BOUNDARY_NOT_ESTABLISHED_IN_TIME"
          then c.outcome == TimedOut && c.failureCode == Some(TimeoutFailure)
          else c.outcome == LaunchRefused && c.failureCode == Some(LaunchRefusedFailure))
      && (c.sideEffectsPossible <==> e.targetStarted != StartedNo)
  {
  }

  // ------------------------------------------------------------ stdin delivery

  datatype LocalWrite = Pending | WriteCompleted | WriteFailed | NotHandedOver

  datatype Delivery = NotRequested | Delivered | DeliveryFailed | Unconfirmed

  function ClassifyStdinDelivery(
    requested: Option<bool>, established: bool, localWrite: LocalWrite, forwarded: Option<string>): Delivery
  {
    if requested == Some(false) then NotRequested
    else if requested != Some(true) then Unconfirmed
    else if !established then DeliveryFailed
    else if forwarded == Some("BROKEN_PIPE") then DeliveryFailed
    else if forwarded == Some("SOURCE_READ_FAILED") then DeliveryFailed
    else if localWrite == NotHandedOver then DeliveryFailed
    else if forwarded == Some("EOF_FORWARDED") && localWrite == WriteCompleted then Delivered
    else Unconfirmed
  }

  /** A delivery needs both halves; a broken write on this side alone proves nothing either way. */
  lemma DeliveredNeedsBothHalves(requested: Option<bool>, established: bool, w: LocalWrite, f: Option<string>)
    ensures ClassifyStdinDelivery(requested, established, w, f) == Delivered <==>
      requested == Some(true) && established && w == WriteCompleted && f == Some("EOF_FORWARDED")
    ensures requested == Some(true) && established && w == WriteFailed ==>
      ClassifyStdinDelivery(requested, established, w, f) == ClassifyStdinDelivery(requested, established, Pending, f)
  {
    assert "EOF_FORWARDED" != "BROKEN_PIPE" && "EOF_FORWARDED"[0] != "SOURCE_READ_FAILED"[0];
  }

  // ------------------------------------------------------- termination policy

  /** One thing that happens to a run. */
  datatype Event =
    | OutChunk(chunk: seq<Byte>)
    | ErrChunk(chunk: seq<Byte>)
    | Abort
    | Establish(expired: bool)
    | Deadline

  datatype Policy = Policy(
    outLimit: Limit, errLimit: Limit, terminateOnLimit: bool,
    out: seq<Byte>, err: seq<Byte>,
    established: bool, timerArmed: bool, abortRequested: bool,
    pending: Option<Termination>, termination: Termination, kills: nat)

  function Fresh(outLimit: Limit, errLimit: Limit, terminateOnLimit: bool): Policy {
    Policy(outLimit, errLimit, terminateOnLimit, [], [], false, false, false, None, NoTermination, 0)
  }

  /** The first reason wins; the boundary is asked to end once. */
  function Terminate(p: Policy, reason: Termination): Policy {
    if p.termination != NoTermination then p else p.(termination := reason, kills := p.kills + 1)
  }

  function LimitReached(p: Policy, reason: Termination): Policy {
    if !p.terminateOnLimit then p
    else if p.established then Terminate(p, reason)
    else if p.pending.None? then p.(pending := Some(reason)) else p
  }

  function NextPolicy(p: Policy, e: Event): Policy {
    match e
    case OutChunk(chunk) =>
      var q := p.(out := p.out + chunk);
      if !Over(p.outLimit, p.out) && Over(p.outLimit, q.out) then LimitReached(q, LimitStdout) else q
    case ErrChunk(chunk) =>
      var q := p.(err := p.err + chunk);
      if !Over(p.errLimit, p.err) && Over(p.errLimit, q.err) then LimitReached(q, LimitStderr) else q
    case Abort =>
      var q := p.(abortRequested := true);
      if p.established then Terminate(q, Caller) else q
    case Establish(expired) =>
      if p.established then p
      else
        var q := p.(established := true, timerArmed := !expired);
        var limited := if p.pending.Some? then Terminate(q, p.pending.value) else q;
        var called := if p.abortRequested then Terminate(limited, Caller) else limited;
        if expired then Terminate(called, Timeout) else called
    case Deadline => if p.timerArmed then Terminate(p, Timeout) else p
  }

  function PolicyAfter(p: Policy, events: seq<Event>): Policy {
    if events == [] then p else NextPolicy(PolicyAfter(p, events[..|events| - 1]), events[|events| - 1])
  }

  class OwnedRun {
    const stdout: Sink
    const stderr: Sink
    const terminateOnLimit: bool
    var established: bool
    var timerArmed: bool
    var abortRequested: bool
    var pendingLimit: Option<Termination>
    var termination: Termination
    var kills: nat
    var localWrite: LocalWrite

    ghost predicate Valid()
      reads this, stdout, stderr
    {
      stdout != stderr && stdout.Valid() && stderr.Valid()
    }

    ghost function State(): Policy
      reads this, stdout, stderr
    {
      Policy(stdout.limit, stderr.limit, terminateOnLimit, stdout.all, stderr.all,
             established, timerArmed, abortRequested, pendingLimit, termination, kills)
    }

    constructor (outLimit: Limit, errLimit: Limit, terminateOnLimit: bool)
      ensures Valid() && fresh(stdout) && fresh(stderr)
      ensures State() == Fresh(outLimit, errLimit, terminateOnLimit) && localWrite == Pending
    {
      stdout := new Sink(outLimit);
      stderr := new Sink(errLimit);
      this.terminateOnLimit := terminateOnLimit;
      established, timerArmed, abortRequested, pendingLimit, termination, kills := false, false, false, None, NoTermination, 0;
      localWrite := Pending;
    }

    method EndRun(reason: Termination)
      requires Valid()
      modifies this`termination, this`kills
      ensures Valid() && State() == Terminate(old(State()), reason)
    {
      if termination != NoTermination { return; }
      termination := reason;
      kills := kills + 1;
    }

    method ReachLimit(reason: Termination)
      requires Valid()
      modifies this`termination, this`kills, this`pendingLimit
      ensures Valid() && State() == LimitReached(old(State()), reason)
    {
      if !terminateOnLimit { return; }
      if established {
        EndRun(reason);
      } else if pendingLimit.None? {
        pendingLimit := Some(reason);
      }
    }

    method OnStdout(chunk: seq<Byte>)
      requires Valid()
      modifies this, stdout
      ensures Valid() && State() == NextPolicy(old(State()), OutChunk(chunk)) && localWrite == old(localWrite)
    {
      var overflowed := stdout.Append(chunk);
      if overflowed { ReachLimit(LimitStdout); }
    }

    method OnStderr(chunk: seq<Byte>)
      requires Valid()
      modifies this, stderr
      ensures Valid() && State() == NextPolicy(old(State()), ErrChunk(chunk)) && localWrite == old(localWrite)
    {
      var overflowed := stderr.Append(chunk);
      if overflowed { ReachLimit(LimitStderr); }
    }

    method OnAbort()
      requires Valid()
      modifies this
      ensures Valid() && State() == NextPolicy(old(State()), Abort) && localWrite == old(localWrite)
    {
      abortRequested := true;
      if established { EndRun(Caller); }
    }

    /** Ownership is there: what was raised before is acted on now, in this order. */
    method OnEstablished(expired: bool)
      requires Valid() && !established
      modifies this
      ensures Valid() && State() == NextPolicy(old(State()), Establish(expired)) && localWrite == old(localWrite)
    {
      established := true;
      timerArmed := !expired;
      if pendingLimit.Some? { EndRun(pendingLimit.value); }
      if abortRequested { EndRun(Caller); }
      if expired { EndRun(Timeout); }
    }

    method OnDeadline()
      requires Valid()
      modifies this
      ensures Valid() && State() == NextPolicy(old(State()), Deadline) && localWrite == old(localWrite)
    {
      if timerArmed { EndRun(Timeout); }
    }

    /** The payload, if any, and the end of the stream: handed over once, where there is a stream to hand it to. */
    method HandOver(hasInput: bool, threw: bool)
      requires localWrite == Pending
      modifies this`localWrite
      ensures localWrite == WriteAfter(hasInput, if threw then [true] else [])
    {
      if !hasInput {
        localWrite := NotHandedOver;
      } else if threw {
        localWrite := WriteFailed;
      }
    }

    /** What the stream reports about it later. A failure, once seen, is never revised. */
    method OnInput(failed: bool)
      requires localWrite != NotHandedOver
      modifies this`localWrite
      ensures forall reports: seq<bool> | old(localWrite) == WriteAfter(true, reports) ::
        localWrite == WriteAfter(true, reports + [failed])
    {
      WriteAfterOneMore(localWrite, failed);
      if localWrite == WriteFailed { return; }
      localWrite := if failed then WriteFailed else WriteCompleted;
    }

    /** The launch ended without ownership: what this call knows of itself goes into the answer. */
    method AnswerUnestablished(ending: Ending, expired: bool, requested: bool)
      returns (end: RunEnd, answer: Classification, delivery: Delivery)
      requires Valid() && !established
      ensures end == NotEstablished(ending, abortRequested, expired)
      ensures answer == AnswerOf(end) && delivery == DeliveryOf(end, requested, localWrite)
      ensures forall events | CameFrom(State(), events) && ending.Refused? ::
        answer.outcome == EndedByCaller <==> HasAbort(events)
    {
      hide PolicyAfter, HasAbort;
      end := NotEstablished(ending, abortRequested, expired);
      answer := ClassifyOwnedCommand(
        OwnedObservation(Arrived(ending), NoTermination, Some(false), Some(abortRequested), Some(expired)));
      delivery := ClassifyStdinDelivery(Some(requested), false, Pending, None);
      forall events | CameFrom(State(), events) && ending.Refused?
        ensures answer.outcome == EndedByCaller <==> HasAbort(events)
      {
        RecordedFromEvents(stdout.limit, stderr.limit, terminateOnLimit, events);
      }
    }

    /** The wait of an owned run is over: the answer is given under the first reason it was ended for. */
    method AnswerSettled(settled: Settled, requested: bool)
      returns (end: RunEnd, answer: Classification, delivery: Delivery)
      requires Valid() && established
      ensures end == Waited(settled, termination)
      ensures answer == AnswerOf(end) && delivery == DeliveryOf(end, requested, localWrite)
      ensures forall events | CameFrom(State(), events) :: TellsTheEvents(State(), events, settled, answer)
    {
      hide PolicyAfter, TellsTheEvents, ClassifyOwnedCommand, ClassifyStdinDelivery, StatusIn;
      end := Waited(settled, termination);
      match settled {
        case Ended(ending) =>
          answer := ClassifyOwnedCommand(OwnedObservation(Arrived(ending), termination, Some(true), None, None));
          delivery := ClassifyStdinDelivery(
            Some(requested), true, localWrite, if StatusIn(ending).Some? then StatusIn(ending).value.stdinForward else None);
        case GraceExpired =>
          answer := Classification(BoundaryLost, Some(TerminationUnconfirmed), None, None, None, StartedYes, true);
          delivery := ClassifyStdinDelivery(Some(requested), true, localWrite, None);
        case Rejected =>
          answer := Classification(BoundaryLost, Some(EndingInconsistent), None, None, None, StartedYes, true);
          delivery := ClassifyStdinDelivery(Some(requested), true, localWrite, None);
      }
      forall events | CameFrom(State(), events) ensures TellsTheEvents(State(), events, settled, answer) {
        AnswersTellTheEvents(State(), events, settled);
      }
    }
  }

  /** How far the handover has come after these reports, each of them a failure or not. */
  function WriteAfter(hasInput: bool, reports: seq<bool>): LocalWrite {
    if !hasInput then NotHandedOver
    else if reports == [] then Pending
    else if true in reports then WriteFailed else WriteCompleted
  }

  lemma WriteAfterOneMore(w: LocalWrite, failed: bool)
    ensures forall reports: seq<bool> | w == WriteAfter(true, reports) ::
      WriteAfter(true, reports + [failed]) == if w == WriteFailed || failed then WriteFailed else WriteCompleted
  {
  }

  // ------------------------------------------------- every order of every event

  predicate HasAbort(events: seq<Event>) { Abort in events }

  predicate IsEstablished(events: seq<Event>) { exists i | 0 <= i < |events| :: events[i].Establish? }

  /** The wall clock has run out: found so at establishment, or by the timer armed there. */
  ghost predicate ClockRanOut(events: seq<Event>) {
    events != [] &&
    var init, last := events[..|events| - 1], events[|events| - 1];
    || ClockRanOut(init)
    || (last == Establish(true) && !IsEstablished(init))
    || (last == Deadline && IsEstablished(init))
  }

  function OutBytes(events: seq<Event>): seq<Byte> {
    if events == [] then []
    else
      var init, last := OutBytes(events[..|events| - 1]), events[|events| - 1];
      if last.OutChunk? then init + last.chunk else init
  }

  function ErrBytes(events: seq<Event>): seq<Byte> {
    if events == [] then []
    else
      var init, last := ErrBytes(events[..|events| - 1]), events[|events| - 1];
      if last.ErrChunk? then init + last.chunk else init
  }

  /** Some policy has asked for this run to end. */
  ghost predicate Triggered(outLimit: Limit, errLimit: Limit, terminateOnLimit: bool, events: seq<Event>) {
    || (terminateOnLimit && (Over(outLimit, OutBytes(events)) || Over(errLimit, ErrBytes(events))))
    || HasAbort(events) || ClockRanOut(events)
  }

  /** The stream that passed its limit first. */
  ghost function FirstOverflow(outLimit: Limit, errLimit: Limit, events: seq<Event>): Option<Termination> {
    if events == [] then None
    else
      var earlier := FirstOverflow(outLimit, errLimit, events[..|events| - 1]);
      if earlier.Some? then earlier
      else if Over(outLimit, OutBytes(events)) then Some(LimitStdout)
      else if Over(errLimit, ErrBytes(events)) then Some(LimitStderr) else None
  }

  lemma {:induction false} OverflowRemembered(outLimit: Limit, errLimit: Limit, events: seq<Event>)
    ensures FirstOverflow(outLimit, errLimit, events).Some?
      <==> Over(outLimit, OutBytes(events)) || Over(errLimit, ErrBytes(events))
    decreases |events|
  {
    if events != [] { OverflowRemembered(outLimit, errLimit, events[..|events| - 1]); }
  }

  ghost predicate SameRecord(p: Policy, q: Policy) {
    && p.outLimit == q.outLimit && p.errLimit == q.errLimit && p.terminateOnLimit == q.terminateOnLimit
    && p.out == q.out && p.err == q.err && p.established == q.established && p.timerArmed == q.timerArmed
    && p.abortRequested == q.abortRequested
  }

  lemma TerminateRecords(p: Policy, reason: Termination)
    ensures SameRecord(Terminate(p, reason), p) && SameRecord(LimitReached(p, reason), p)
    ensures Terminate(p, reason).pending == p.pending
  {
  }

  lemma ChunksAreRecorded(p: Policy, e: Event)
    requires e.OutChunk? || e.ErrChunk?
    ensures SameRecord(NextPolicy(p, e), p.(
      out := if e.OutChunk? then p.out + e.chunk else p.out, err := if e.ErrChunk? then p.err + e.chunk else p.err))
  {
    hide Over, Terminate, LimitReached;
    var q := if e.OutChunk? then p.(out := p.out + e.chunk) else p.(err := p.err + e.chunk);
    TerminateRecords(q, if e.OutChunk? then LimitStdout else LimitStderr);
  }

  lemma EstablishmentIsRecorded(p: Policy, expired: bool)
    requires !p.established
    ensures SameRecord(NextPolicy(p, Establish(expired)), p.(established := true, timerArmed := !expired))
  {
  }

  /** An event is recorded whatever it does to the termination. */
  lemma EventsAreRecorded(p: Policy, e: Event)
    ensures
      var first := e.Establish? && !p.established;
      SameRecord(NextPolicy(p, e), p.(
        out := if e.OutChunk? then p.out + e.chunk else p.out,
        err := if e.ErrChunk? then p.err + e.chunk else p.err,
        established := p.established || e.Establish?,
        timerArmed := if first then !e.expired else p.timerArmed,
        abortRequested := p.abortRequested || e.Abort?))
  {
    if e.OutChunk? || e.ErrChunk? {
      hide NextPolicy;
      ChunksAreRecorded(p, e);
    } else if e.Establish? && !p.established {
      hide NextPolicy;
      EstablishmentIsRecorded(p, e.expired);
    }
  }

  lemma OneMoreEvent(init: seq<Event>, last: Event)
    ensures HasAbort(init + [last]) <==> HasAbort(init) || last.Abort?
    ensures IsEstablished(init + [last]) <==> IsEstablished(init) || last.Establish?
  {
    var events := init + [last];
    assert forall i | 0 <= i < |init| :: events[i] == init[i];
    assert events[|init|] == last;
    assert last.Abort? ==> last == Abort;
  }

  lemma {:induction false} RecordedFromEvents(outLimit: Limit, errLimit: Limit, terminateOnLimit: bool, events: seq<Event>)
    ensures
      var p := PolicyAfter(Fresh(outLimit, errLimit, terminateOnLimit), events);
      && p.outLimit == outLimit && p.errLimit == errLimit && p.terminateOnLimit == terminateOnLimit
      && p.out == OutBytes(events) && p.err == ErrBytes(events)
      && p.established == IsEstablished(events) && p.abortRequested == HasAbort(events)
      && (p.timerArmed ==> p.established) && (p.established ==> p.timerArmed || ClockRanOut(events))
      && (ClockRanOut(events) ==> p.established)
    decreases |events|
  {
    if events != [] {
      var init, last := events[..|events| - 1], events[|events| - 1];
      RecordedFromEvents(outLimit, errLimit, terminateOnLimit, init);
      OneMoreEvent(init, last);
      EventsAreRecorded(PolicyAfter(Fresh(outLimit, errLimit, terminateOnLimit), init), last);
      assert events == init + [last];
      hide IsEstablished, HasAbort, NextPolicy;
    }
  }

  /** What was raised before establishment waits; after it, exactly the triggered runs have a reason. */
  ghost predicate Fits(p: Policy, outLimit: Limit, errLimit: Limit, terminateOnLimit: bool, events: seq<Event>) {
    && (!p.established ==>
          && p.termination == NoTermination
          && p.pending == (if terminateOnLimit then FirstOverflow(outLimit, errLimit, events) else None))
    && (p.established ==>
          (p.termination == NoTermination <==> !Triggered(outLimit, errLimit, terminateOnLimit, events)))
    && p.kills == (if p.termination == NoTermination then 0 else 1)
    && p.pending != Some(NoTermination)
  }

  lemma FitsAfterChunk(
    p: Policy, outLimit: Limit, errLimit: Limit, terminateOnLimit: bool, init: seq<Event>, last: Event)
    requires p == PolicyAfter(Fresh(outLimit, errLimit, terminateOnLimit), init)
    requires Fits(p, outLimit, errLimit, terminateOnLimit, init) && (last.OutChunk? || last.ErrChunk?)
    ensures Fits(NextPolicy(p, last), outLimit, errLimit, terminateOnLimit, init + [last])
  {
    var events := init + [last];
    assert events[..|init|] == init;
    RecordedFromEvents(outLimit, errLimit, terminateOnLimit, init);
    OverflowRemembered(outLimit, errLimit, init);
    OneMoreEvent(init, last);
    hide IsEstablished, HasAbort, Over, PolicyAfter;
  }

  lemma FitsAfterOther(
    p: Policy, outLimit: Limit, errLimit: Limit, terminateOnLimit: bool, init: seq<Event>, last: Event)
    requires p == PolicyAfter(Fresh(outLimit, errLimit, terminateOnLimit), init)
    requires Fits(p, outLimit, errLimit, terminateOnLimit, init) && !last.OutChunk? && !last.ErrChunk?
    ensures Fits(NextPolicy(p, last), outLimit, errLimit, terminateOnLimit, init + [last])
  {
    var events := init + [last];
    assert events[..|init|] == init;
    RecordedFromEvents(outLimit, errLimit, terminateOnLimit, init);
    OverflowRemembered(outLimit, errLimit, init);
    OneMoreEvent(init, last);
    hide IsEstablished, HasAbort, Over, PolicyAfter;
  }

  lemma {:induction false} StateFromEvents(outLimit: Limit, errLimit: Limit, terminateOnLimit: bool, events: seq<Event>)
    ensures Fits(
      PolicyAfter(Fresh(outLimit, errLimit, terminateOnLimit), events), outLimit, errLimit, terminateOnLimit, events)
    decreases |events|
  {
    if events != [] {
      var init, last := events[..|events| - 1], events[|events| - 1];
      var p := PolicyAfter(Fresh(outLimit, errLimit, terminateOnLimit), init);
      StateFromEvents(outLimit, errLimit, terminateOnLimit, init);
      assert events == init + [last];
      hide Fits, NextPolicy, Fresh;
      if last.OutChunk? || last.ErrChunk? {
        FitsAfterChunk(p, outLimit, errLimit, terminateOnLimit, init, last);
      } else {
        FitsAfterOther(p, outLimit, errLimit, terminateOnLimit, init, last);
      }
    }
  }

  /** A reason, once accepted, is the reason, and the boundary is never asked twice. */
  lemma {:induction false} FirstReasonStays(p: Policy, events: seq<Event>)
    requires p.termination != NoTermination
    ensures PolicyAfter(p, events).termination == p.termination && PolicyAfter(p, events).kills == p.kills
    decreases |events|
  {
    hide NextPolicy;
    if events != [] {
      FirstReasonStays(p, events[..|events| - 1]);
      ReasonStays(PolicyAfter(p, events[..|events| - 1]), events[|events| - 1]);
    }
  }

  lemma ReasonStays(p: Policy, e: Event)
    requires p.termination != NoTermination
    ensures NextPolicy(p, e).termination == p.termination && NextPolicy(p, e).kills == p.kills
  {
    hide Over;
  }

  /** Nothing raised before establishment is lost: limits first, then the abort, then the clock. */
  lemma EarlyTriggersAreKept(outLimit: Limit, errLimit: Limit, events: seq<Event>, expired: bool)
    requires !IsEstablished(events)
    ensures
      var p := PolicyAfter(Fresh(outLimit, errLimit, true), events + [Establish(expired)]);
      p.termination ==
        if FirstOverflow(outLimit, errLimit, events).Some? then FirstOverflow(outLimit, errLimit, events).value
        else if HasAbort(events) then Caller
        else if expired then Timeout else NoTermination
  {
    StateFromEvents(outLimit, errLimit, true, events);
    RecordedFromEvents(outLimit, errLimit, true, events);
    assert (events + [Establish(expired)])[..|events|] == events;
  }

  /** A run reported as completed is one that nothing ever asked to end. */
  lemma CompletedMeansUntouched(
    outLimit: Limit, errLimit: Limit, terminateOnLimit: bool, events: seq<Event>, ending: Arrived)
    requires IsEstablished(events)
    requires
      var p := PolicyAfter(Fresh(outLimit, errLimit, terminateOnLimit), events);
      ClassifyOwnedCommand(OwnedObservation(ending, p.termination, Some(true), None, None)).outcome == Completed
    ensures !Triggered(outLimit, errLimit, terminateOnLimit, events)
  {
    hide ClassifyOwnedCommand, Triggered;
    StateFromEvents(outLimit, errLimit, terminateOnLimit, events);
    RecordedFromEvents(outLimit, errLimit, terminateOnLimit, events);
    var p := PolicyAfter(Fresh(outLimit, errLimit, terminateOnLimit), events);
    CompletedIff(OwnedObservation(ending, p.termination, Some(true), None, None));
  }

  /** Something really happened that this reason names. */
  ghost predicate Happened(outLimit: Limit, errLimit: Limit, terminateOnLimit: bool, events: seq<Event>, reason: Termination) {
    match reason
    case Timeout => ClockRanOut(events)
    case LimitStdout => terminateOnLimit && Over(outLimit, OutBytes(events))
    case LimitStderr => terminateOnLimit && Over(errLimit, ErrBytes(events))
    case Caller => HasAbort(events)
    case _ => false
  }

  lemma HappenedStays(
    outLimit: Limit, errLimit: Limit, terminateOnLimit: bool, init: seq<Event>, last: Event, reason: Termination)
    requires Happened(outLimit, errLimit, terminateOnLimit, init, reason)
    ensures Happened(outLimit, errLimit, terminateOnLimit, init + [last], reason)
  {
    assert (init + [last])[..|init|] == init;
    OneMoreEvent(init, last);
  }

  lemma {:induction false} ReasonsHappened(outLimit: Limit, errLimit: Limit, terminateOnLimit: bool, events: seq<Event>)
    ensures
      var p := PolicyAfter(Fresh(outLimit, errLimit, terminateOnLimit), events);
      && (p.termination != NoTermination ==> Happened(outLimit, errLimit, terminateOnLimit, events, p.termination))
      && (p.pending.Some? ==> Happened(outLimit, errLimit, terminateOnLimit, events, p.pending.value))
    decreases |events|
  {
    if events != [] {
      var init, last := events[..|events| - 1], events[|events| - 1];
      ReasonsHappened(outLimit, errLimit, terminateOnLimit, init);
      RecordedFromEvents(outLimit, errLimit, terminateOnLimit, init);
      RecordedFromEvents(outLimit, errLimit, terminateOnLimit, events);
      assert events == init + [last];
      forall r | Happened(outLimit, errLimit, terminateOnLimit, init, r)
        ensures Happened(outLimit, errLimit, terminateOnLimit, events, r)
      {
        HappenedStays(outLimit, errLimit, terminateOnLimit, init, last, r);
      }
      NewReasonHappened(outLimit, errLimit, terminateOnLimit, init, last);
    }
  }

  /** This event raises this reason where it finds the run like this. */
  ghost predicate RaisedBy(p: Policy, e: Event, reason: Termination) {
    match reason
    case Timeout => (e == Establish(true) && !p.established) || (e.Deadline? && p.timerArmed)
    case LimitStdout => e.OutChunk? && p.terminateOnLimit && Over(p.outLimit, p.out + e.chunk)
    case LimitStderr => e.ErrChunk? && p.terminateOnLimit && Over(p.errLimit, p.err + e.chunk)
    case Caller => e.Abort? || (e.Establish? && p.abortRequested)
    case _ => false
  }

  lemma ChunkRaises(p: Policy, e: Event)
    requires e.OutChunk? || e.ErrChunk?
    ensures
      var q := NextPolicy(p, e);
      && (q.termination == p.termination || RaisedBy(p, e, q.termination))
      && (q.pending == p.pending || (q.pending.Some? && RaisedBy(p, e, q.pending.value)))
  {
    hide Over;
  }

  lemma EstablishmentRaises(p: Policy, e: Event)
    requires e.Establish?
    ensures
      var q := NextPolicy(p, e);
      && (q.termination == p.termination || p.pending == Some(q.termination) || RaisedBy(p, e, q.termination))
      && q.pending == p.pending
  {
    hide Over;
  }

  /** A reason accepted or noted by this event is this event's own, or was noted before. */
  lemma EventRaises(p: Policy, e: Event)
    ensures
      var q := NextPolicy(p, e);
      && (q.termination == p.termination || p.pending == Some(q.termination) || RaisedBy(p, e, q.termination))
      && (q.pending == p.pending || (q.pending.Some? && RaisedBy(p, e, q.pending.value)))
  {
    if e.OutChunk? || e.ErrChunk? {
      hide NextPolicy, RaisedBy;
      ChunkRaises(p, e);
    } else if e.Establish? {
      hide NextPolicy, RaisedBy;
      EstablishmentRaises(p, e);
    }
  }

  lemma RaisedMeansHappened(
    outLimit: Limit, errLimit: Limit, terminateOnLimit: bool, init: seq<Event>, last: Event, reason: Termination)
    requires RaisedBy(PolicyAfter(Fresh(outLimit, errLimit, terminateOnLimit), init), last, reason)
    ensures Happened(outLimit, errLimit, terminateOnLimit, init + [last], reason)
  {
    var events := init + [last];
    assert events[..|init|] == init;
    RecordedFromEvents(outLimit, errLimit, terminateOnLimit, init);
    OneMoreEvent(init, last);
    hide IsEstablished, HasAbort, Over, PolicyAfter;
  }

  lemma NewReasonHappened(outLimit: Limit, errLimit: Limit, terminateOnLimit: bool, init: seq<Event>, last: Event)
    ensures
      var p := PolicyAfter(Fresh(outLimit, errLimit, terminateOnLimit), init);
      var q := NextPolicy(p, last);
      && (q.termination == p.termination || p.pending == Some(q.termination)
          || Happened(outLimit, errLimit, terminateOnLimit, init + [last], q.termination))
      && (q.pending == p.pending
          || (q.pending.Some? && Happened(outLimit, errLimit, terminateOnLimit, init + [last], q.pending.value)))
  {
    hide PolicyAfter, NextPolicy, RaisedBy, Happened;
    var p := PolicyAfter(Fresh(outLimit, errLimit, terminateOnLimit), init);
    EventRaises(p, last);
    forall r | RaisedBy(p, last, r) ensures Happened(outLimit, errLimit, terminateOnLimit, init + [last], r) {
      RaisedMeansHappened(outLimit, errLimit, terminateOnLimit, init, last, r);
    }
  }

  /** A run reported under a policy is one on which that very policy triggered. */
  lemma ReportedReasonsHappened(
    outLimit: Limit, errLimit: Limit, terminateOnLimit: bool, events: seq<Event>, ending: Ending)
    requires IsEstablished(events) && !ending.Lost? && !ending.Refused?
    ensures
      var p := PolicyAfter(Fresh(outLimit, errLimit, terminateOnLimit), events);
      var c := ClassifyOwnedCommand(OwnedObservation(Arrived(ending), p.termination, Some(true), None, None));
      && (c.outcome == TimedOut ==> ClockRanOut(events))
      && (c.outcome == EndedByCaller ==> HasAbort(events))
      && (c.outcome == OutputLimitExceeded ==> terminateOnLimit)
      && (c.failureCode == Some(OutputLimitStdout) ==> Over(outLimit, OutBytes(events)))
      && (c.failureCode == Some(OutputLimitStderr) ==> Over(errLimit, ErrBytes(events)))
  {
    hide PolicyAfter, ClockRanOut, HasAbort, IsEstablished, OutBytes, ErrBytes, Over;
    ReasonsHappened(outLimit, errLimit, terminateOnLimit, events);
  }

  // --------------------------------------------------------------- what a run answers

  /** How an established run's wait ends. */
  datatype Settled = Ended(ending: Ending) | GraceExpired | Rejected

  function ClassifySettled(settled: Settled, termination: Termination): Classification {
    match settled
    case Ended(ending) =>
      ClassifyOwnedCommand(OwnedObservation(Arrived(ending), termination, Some(true), None, None))
    case GraceExpired =>
      Classification(BoundaryLost, Some(TerminationUnconfirmed), None, None, None, StartedYes, true)
    case Rejected =>
      Classification(BoundaryLost, Some(EndingInconsistent), None, None, None, StartedYes, true)
  }

  /** A grace that ran out is never reported under the policy that asked for the termination. */
  lemma OnlyEndingsNameAnOutcome(settled: Settled, termination: Termination)
    ensures ClassifySettled(settled, termination).outcome != BoundaryLost ==> settled.Ended?
    ensures ClassifySettled(settled, termination).outcome != LaunchRefused
  {
  }

  /** Every way a call comes to an answer, whether or not it got as far as a launch. */
  datatype RunEnd =
    | OptionsRefused
    | AbortedBeforeLaunch
    | StartThrew
    | NotEstablished(ending: Ending, cancelled: bool, deadlineExpired: bool)
    | StreamsUnavailable
    | Waited(settled: Settled, termination: Termination)

  function NothingRan(outcome: Outcome, failure: FailureCode, started: Started): Classification {
    Classification(outcome, Some(failure), None, None, None, started, started != StartedNo)
  }

  function AnswerOf(end: RunEnd): Classification {
    match end
    case OptionsRefused => NothingRan(LaunchRefused, LaunchRefusedFailure, StartedNo)
    case AbortedBeforeLaunch => NothingRan(EndedByCaller, TerminatedByCallerFailure, StartedNo)
    case StartThrew => NothingRan(LaunchRefused, LaunchRefusedFailure, StartedUnknown)
    case NotEstablished(ending, cancelled, expired) =>
      ClassifyOwnedCommand(OwnedObservation(Arrived(ending), NoTermination, Some(false), Some(cancelled), Some(expired)))
    case StreamsUnavailable => Classification(BoundaryLost, Some(StreamsUnavailableFailure), None, None, None, StartedYes, true)
    case Waited(settled, termination) => ClassifySettled(settled, termination)
  }

  /** What the answer says about the payload; `w` is how far the handover came where there was one. */
  function DeliveryOf(end: RunEnd, requested: bool, w: LocalWrite): Delivery {
    match end
    case NotEstablished(_, _, _) => ClassifyStdinDelivery(Some(requested), false, Pending, None)
    case StreamsUnavailable => ClassifyStdinDelivery(Some(requested), true, NotHandedOver, None)
    case Waited(Ended(ending), _) =>
      ClassifyStdinDelivery(Some(requested), true, w, if StatusIn(ending).Some? then StatusIn(ending).value.stdinForward else None)
    case Waited(_, _) => ClassifyStdinDelivery(Some(requested), true, w, None)
    case _ => ClassifyStdinDelivery(Some(requested), false, NotHandedOver, None)
  }

  /**
   * Over every way to an answer: success is only the boundary's own exit of a run nothing
   * ended; "no side effects" is claimed exactly of the calls that never reached the
   * boundary, and of refusals in which the boundary itself says that nothing ran.
   */
  lemma AnswersMean(end: RunEnd)
    ensures AnswerOf(end).outcome == Completed <==>
      && end.Waited? && end.settled.Ended? && end.termination == NoTermination && end.settled.ending.ChildExited?
      && -TWO_TO_31 <= end.settled.ending.childExitCode < TWO_TO_32
    ensures !AnswerOf(end).sideEffectsPossible <==>
      || end.OptionsRefused? || end.AbortedBeforeLaunch?
      || (end.NotEstablished? && end.ending.Refused? && end.ending.targetStarted == StartedNo)
    ensures AnswerOf(end).failureCode == Some(StreamsUnavailableFailure) <==> end.StreamsUnavailable?
    ensures AnswerOf(end).outcome == LaunchRefused <==>
      || end.OptionsRefused? || end.StartThrew?
      || (end.NotEstablished? && end.ending.Refused? && !end.cancelled
          && !(end.deadlineExpired && end.ending.failureCode == "BOUNDARY_NOT_ESTABLISHED_IN_TIME"))
    ensures end.AbortedBeforeLaunch? ==> AnswerOf(end).outcome == EndedByCaller
  {
  }

  /**
   * A payload is delivered exactly when both halves say so, and has failed exactly where
   * there was no run or no stream to hand it to, or where the boundary reports a broken pipe
   * or a source it could not read. Anything else is unconfirmed.
   */
  lemma DeliveriesMean(end: RunEnd, requested: bool, hasInput: bool, reports: seq<bool>)
    ensures
      var d := DeliveryOf(end, requested, WriteAfter(hasInput, reports));
      && (d == NotRequested <==> !requested)
      && (d == Delivered <==>
            && requested && end.Waited? && end.settled.Ended?
            && StatusIn(end.settled.ending).Some?
            && StatusIn(end.settled.ending).value.stdinForward == Some("EOF_FORWARDED")
            && hasInput && reports != [] && true !in reports)
      && (d == DeliveryFailed <==>
            && requested
            && (!end.Waited? || !hasInput
                || (end.settled.Ended? && StatusIn(end.settled.ending).Some?
                    && StatusIn(end.settled.ending).value.stdinForward in {Some("BROKEN_PIPE"), Some("SOURCE_READ_FAILED")})))
  {
    hide ClassifyStdinDelivery, StatusIn;
    StdinDeliveryMeans(requested, true, WriteAfter(hasInput, reports));
    StdinDeliveryMeans(requested, true, NotHandedOver);
    StdinDeliveryMeans(requested, false, NotHandedOver);
    StdinDeliveryMeans(requested, false, Pending);
  }

  lemma StdinDeliveryMeans(requested: bool, established: bool, w: LocalWrite)
    ensures forall f ::
      var d := ClassifyStdinDelivery(Some(requested), established, w, f);
      && (d == NotRequested <==> !requested)
      && (d == Delivered <==> requested && established && w == WriteCompleted && f == Some("EOF_FORWARDED"))
      && (d == DeliveryFailed <==>
            && requested
            && (!established || w == NotHandedOver || f == Some("BROKEN_PIPE") || f == Some("SOURCE_READ_FAILED")))
  {
    forall f ensures
      var d := ClassifyStdinDelivery(Some(requested), established, w, f);
      && (d == NotRequested <==> !requested)
      && (d == Delivered <==> requested && established && w == WriteCompleted && f == Some("EOF_FORWARDED"))
      && (d == DeliveryFailed <==>
            && requested
            && (!established || w == NotHandedOver || f == Some("BROKEN_PIPE") || f == Some("SOURCE_READ_FAILED")))
    {
      DeliveredNeedsBothHalves(Some(requested), established, w, f);
    }
  }

  // ------------------------------------------------- the first trigger, on the events

  /** The trigger that ownership finds waiting: a limit passed before, then an abort, then the clock. */
  ghost function WaitingAt(
    outLimit: Limit, errLimit: Limit, terminateOnLimit: bool, before: seq<Event>, expired: bool): Option<Termination>
  {
    var overflow := FirstOverflow(outLimit, errLimit, before);
    if terminateOnLimit && overflow.Some? then overflow
    else if Abort in before then Some(Caller)
    else if expired then Some(Timeout) else None
  }

  /** The trigger this event is for a run that is owned already. */
  ghost function TriggeredBy(
    outLimit: Limit, errLimit: Limit, terminateOnLimit: bool, before: seq<Event>, e: Event): Option<Termination>
  {
    match e
    case OutChunk(chunk) =>
      if terminateOnLimit && !Over(outLimit, OutBytes(before)) && Over(outLimit, OutBytes(before) + chunk)
      then Some(LimitStdout) else None
    case ErrChunk(chunk) =>
      if terminateOnLimit && !Over(errLimit, ErrBytes(before)) && Over(errLimit, ErrBytes(before) + chunk)
      then Some(LimitStderr) else None
    case Abort => Some(Caller)
    case Deadline => Some(Timeout)
    case Establish(_) => None
  }

  /** The first trigger that finds an owned run, in the order things happened. */
  ghost function FirstTrigger(outLimit: Limit, errLimit: Limit, terminateOnLimit: bool, events: seq<Event>): Option<Termination> {
    if events == [] then None
    else
      var before, last := events[..|events| - 1], events[|events| - 1];
      var earlier := FirstTrigger(outLimit, errLimit, terminateOnLimit, before);
      if earlier.Some? then earlier
      else if IsEstablished(before) then TriggeredBy(outLimit, errLimit, terminateOnLimit, before, last)
      else if last.Establish? then WaitingAt(outLimit, errLimit, terminateOnLimit, before, last.expired)
      else None
  }

  ghost function ReasonOf(trigger: Option<Termination>): Termination {
    if trigger.Some? then trigger.value else NoTermination
  }

  lemma WaitingIsAccepted(
    p: Policy, outLimit: Limit, errLimit: Limit, terminateOnLimit: bool, before: seq<Event>, expired: bool)
    requires p == PolicyAfter(Fresh(outLimit, errLimit, terminateOnLimit), before) && !p.established
    ensures NextPolicy(p, Establish(expired)).termination
      == ReasonOf(WaitingAt(outLimit, errLimit, terminateOnLimit, before, expired))
    ensures WaitingAt(outLimit, errLimit, terminateOnLimit, before, expired) != Some(NoTermination)
  {
    hide PolicyAfter, FirstOverflow;
    StateFromEvents(outLimit, errLimit, terminateOnLimit, before);
    RecordedFromEvents(outLimit, errLimit, terminateOnLimit, before);
    OverflowsAreReasons(outLimit, errLimit, before);
  }

  lemma {:induction false} OverflowsAreReasons(outLimit: Limit, errLimit: Limit, events: seq<Event>)
    ensures FirstOverflow(outLimit, errLimit, events) != Some(NoTermination)
    decreases |events|
  {
    if events != [] { OverflowsAreReasons(outLimit, errLimit, events[..|events| - 1]); }
  }

  lemma TriggersAreAccepted(
    p: Policy, outLimit: Limit, errLimit: Limit, terminateOnLimit: bool, before: seq<Event>, e: Event)
    requires p == PolicyAfter(Fresh(outLimit, errLimit, terminateOnLimit), before)
    requires p.established && p.termination == NoTermination
    ensures NextPolicy(p, e).termination == ReasonOf(TriggeredBy(outLimit, errLimit, terminateOnLimit, before, e))
    ensures TriggeredBy(outLimit, errLimit, terminateOnLimit, before, e) != Some(NoTermination)
  {
    hide PolicyAfter, Over;
    StateFromEvents(outLimit, errLimit, terminateOnLimit, before);
    RecordedFromEvents(outLimit, errLimit, terminateOnLimit, before);
  }

  /** The reason a run is ended for is the first trigger, whatever came after. */
  lemma {:induction false} FirstTriggerIsTheReason(
    outLimit: Limit, errLimit: Limit, terminateOnLimit: bool, events: seq<Event>)
    ensures PolicyAfter(Fresh(outLimit, errLimit, terminateOnLimit), events).termination
      == ReasonOf(FirstTrigger(outLimit, errLimit, terminateOnLimit, events))
    ensures FirstTrigger(outLimit, errLimit, terminateOnLimit, events) != Some(NoTermination)
    decreases |events|
  {
    if events != [] {
      var before, last := events[..|events| - 1], events[|events| - 1];
      var p := PolicyAfter(Fresh(outLimit, errLimit, terminateOnLimit), before);
      FirstTriggerIsTheReason(outLimit, errLimit, terminateOnLimit, before);
      RecordedFromEvents(outLimit, errLimit, terminateOnLimit, before);
      StateFromEvents(outLimit, errLimit, terminateOnLimit, before);
      hide NextPolicy, WaitingAt, TriggeredBy, IsEstablished, HasAbort, Over, Triggered, FirstOverflow;
      if p.termination != NoTermination {
        ReasonStays(p, last);
      } else if p.established {
        TriggersAreAccepted(p, outLimit, errLimit, terminateOnLimit, before, last);
      } else if last.Establish? {
        WaitingIsAccepted(p, outLimit, errLimit, terminateOnLimit, before, last.expired);
      } else {
        UnownedRunsGoOn(p, last);
      }
    }
  }

  lemma UnownedRunsGoOn(p: Policy, e: Event)
    requires !p.established && p.termination == NoTermination && !p.timerArmed && !e.Establish?
    ensures NextPolicy(p, e).termination == NoTermination
  {
    hide Over;
  }

  // ------------------------------------------------- answers against what happened

  /** These events lead a fresh run here. */
  ghost predicate CameFrom(p: Policy, events: seq<Event>) {
    p == PolicyAfter(Fresh(p.outLimit, p.errLimit, p.terminateOnLimit), events)
  }

  /**
   * A completion is answered exactly for an exit of a run that no policy asked to end, and
   * an answer that names a policy names one that triggered.
   */
  ghost predicate TellsTheEvents(p: Policy, events: seq<Event>, settled: Settled, answer: Classification) {
    && NamesTheFirstTrigger(FirstTrigger(p.outLimit, p.errLimit, p.terminateOnLimit, events), settled, answer)
    && (answer.outcome == Completed <==>
          && settled.Ended? && settled.ending.ChildExited?
          && -TWO_TO_31 <= settled.ending.childExitCode < TWO_TO_32
          && !Triggered(p.outLimit, p.errLimit, p.terminateOnLimit, events))
    && (answer.outcome == TimedOut ==> ClockRanOut(events))
    && (answer.outcome == EndedByCaller ==> HasAbort(events))
    && (answer.failureCode == Some(OutputLimitStdout) ==> p.terminateOnLimit && Over(p.outLimit, OutBytes(events)))
    && (answer.failureCode == Some(OutputLimitStderr) ==> p.terminateOnLimit && Over(p.errLimit, ErrBytes(events)))
  }

  /** The exit code an ending that proves ownership reports, as 32 unsigned bits. */
  ghost function CodeReported(ending: Ending): Option<ExitCode> {
    match ending
    case ChildExited(code, _) => UnsignedExitCode(code)
    case TerminatedByCaller(status) => if status.childExitCode.Some? then UnsignedExitCode(status.childExitCode.value) else None
    case _ => None
  }

  /**
   * Where the wait ended in an exit or a termination the boundary reports, the answer is
   * that of the first trigger, with the code reported; without a trigger an exit is a
   * completion, and a termination nobody asked for contradicts itself. A boundary that was
   * lost is answered as lost, whatever had triggered.
   */
  ghost predicate NamesTheFirstTrigger(trigger: Option<Termination>, settled: Settled, answer: Classification) {
    match settled
    case Ended(ending) =>
      if ending.Refused? then
        answer == Classification(BoundaryLost, Some(EndingInconsistent), None, None, None, StartedUnknown, true)
      else if ending.Lost? then
        && answer.outcome == BoundaryLost && answer.failureCode == Some(BoundaryLostFailure)
        && answer.boundaryLostReason == Some(ending.reason) && answer.targetStarted == StartedUnknown && answer.sideEffectsPossible
      else if trigger.Some? then
        && answer.exitCode == CodeReported(ending) && answer.targetStarted == StartedYes && answer.sideEffectsPossible
        && (trigger.value == Timeout ==> answer.outcome == TimedOut && answer.failureCode == Some(TimeoutFailure))
        && (trigger.value == LimitStdout ==> answer.outcome == OutputLimitExceeded && answer.failureCode == Some(OutputLimitStdout))
        && (trigger.value == LimitStderr ==> answer.outcome == OutputLimitExceeded && answer.failureCode == Some(OutputLimitStderr))
        && (trigger.value == Caller ==> answer.outcome == EndedByCaller && answer.failureCode == Some(TerminatedByCallerFailure))
      else if ending.ChildExited? && UnsignedExitCode(ending.childExitCode).Some? then
        answer == Classification(Completed, None, UnsignedExitCode(ending.childExitCode), None, None, StartedYes, true)
      else answer == Classification(BoundaryLost, Some(EndingInconsistent), None, None, None, StartedUnknown, true)
    case GraceExpired => answer == Classification(BoundaryLost, Some(TerminationUnconfirmed), None, None, None, StartedYes, true)
    case Rejected => answer == Classification(BoundaryLost, Some(EndingInconsistent), None, None, None, StartedYes, true)
  }

  lemma AnswersNameTheReason(trigger: Option<Termination>, settled: Settled)
    requires trigger.None? || trigger.value in {Timeout, LimitStdout, LimitStderr, Caller}
    ensures NamesTheFirstTrigger(trigger, settled, ClassifySettled(settled, ReasonOf(trigger)))
  {
  }

  lemma {:induction false} TriggersAreDeclared(outLimit: Limit, errLimit: Limit, terminateOnLimit: bool, events: seq<Event>)
    ensures
      var trigger := FirstTrigger(outLimit, errLimit, terminateOnLimit, events);
      trigger.None? || trigger.value in {Timeout, LimitStdout, LimitStderr, Caller}
    decreases |events|
  {
    if events != [] {
      TriggersAreDeclared(outLimit, errLimit, terminateOnLimit, events[..|events| - 1]);
      OverflowsAreDeclared(outLimit, errLimit, events[..|events| - 1]);
    }
  }

  lemma {:induction false} OverflowsAreDeclared(outLimit: Limit, errLimit: Limit, events: seq<Event>)
    ensures
      var overflow := FirstOverflow(outLimit, errLimit, events);
      overflow.None? || overflow.value in {LimitStdout, LimitStderr}
    decreases |events|
  {
    if events != [] { OverflowsAreDeclared(outLimit, errLimit, events[..|events| - 1]); }
  }

  lemma AnswersTellTheEvents(p: Policy, events: seq<Event>, settled: Settled)
    requires CameFrom(p, events) && p.established
    ensures TellsTheEvents(p, events, settled, ClassifySettled(settled, p.termination))
  {
    hide PolicyAfter, Triggered, ClockRanOut, HasAbort, IsEstablished, OutBytes, ErrBytes, Over, ClassifyOwnedCommand,
      FirstTrigger, NamesTheFirstTrigger;
    FirstTriggerIsTheReason(p.outLimit, p.errLimit, p.terminateOnLimit, events);
    TriggersAreDeclared(p.outLimit, p.errLimit, p.terminateOnLimit, events);
    AnswersNameTheReason(FirstTrigger(p.outLimit, p.errLimit, p.terminateOnLimit, events), settled);
    StateFromEvents(p.outLimit, p.errLimit, p.terminateOnLimit, events);
    RecordedFromEvents(p.outLimit, p.errLimit, p.terminateOnLimit, events);
    if settled.Ended? {
      CompletedIff(OwnedObservation(Arrived(settled.ending), p.termination, Some(true), None, None));
      if settled.ending.Lost? || settled.ending.Refused? { LostRunsNameNoPolicy(settled.ending, p.termination); }
      if !settled.ending.Lost? && !settled.ending.Refused? {
        ReportedReasonsHappened(p.outLimit, p.errLimit, p.terminateOnLimit, events, settled.ending);
        LimitsNameOverflows(settled.ending, p.termination);
      }
    }
  }

  lemma LostRunsNameNoPolicy(ending: Ending, termination: Termination)
    requires ending.Lost? || ending.Refused?
    ensures
      var c := ClassifyOwnedCommand(OwnedObservation(Arrived(ending), termination, Some(true), None, None));
      c.outcome == BoundaryLost && c.failureCode != Some(OutputLimitStdout) && c.failureCode != Some(OutputLimitStderr)
  {
  }

  lemma LimitsNameOverflows(ending: Ending, termination: Termination)
    ensures
      var c := ClassifyOwnedCommand(OwnedObservation(Arrived(ending), termination, Some(true), None, None));
      c.failureCode == Some(OutputLimitStdout) || c.failureCode == Some(OutputLimitStderr) ==> c.outcome == OutputLimitExceeded
  {
  }
}
