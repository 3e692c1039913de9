/**
 * A budgeted judge journey: one admission, one memoised settlement, and a run, aborts and closes that
 * interleave between awaits.
 */
module JourneyBudget {
  import opened Records

  datatype Verdict = AsCompleted | AsFailed

  /** The memoised promise: not asked for, asked, fulfilled with a status, or rejected. */
  datatype Settlement = Unasked | Asked | Fulfilled(settled: bool) | Rejected

  datatype Preparation = Preparing | Prepared | FailureClosing | FailureSettling | PreparationFailed

  datatype RunStage =
    | NotRun | Running | Settling(completed: bool) | Recovering | Returned(completed: bool, settled: bool) | Threw

  datatype Closing = NotClosing | ClosingRuntime | ClosingSettlement | CloseDone

  datatype Journey = Journey(
    preparation: Preparation, run: RunStage, closing: Closing,
    started: bool, closed: bool, aborted: bool, settlement: Settlement, calls: seq<Verdict>)

  const ADMITTED := Journey(Preparing, NotRun, NotClosing, false, false, false, Unasked, [])

  datatype Event =
    | PrepareFails | FailedRuntimeCloses | FailureContinues
    | PrepareSucceeds
    | Abort
    | RunStarts | RunResult(completed: bool) | RunThrows | RunContinues(parsed: bool) | RecoveryContinues
    | CloseCalled | RuntimeCloses | CloseContinues
    | SettlementArrives(accepted: bool, settled: bool)

  /** settle(outcome): only the first call reaches the budget. */
  function AskSettlement(j: Journey, verdict: Verdict): Journey {
    if j.settlement.Unasked? then j.(settlement := Asked, calls := j.calls + [verdict]) else j
  }

  /** The budget was called once, with this outcome. */
  predicate CalledAs(j: Journey, verdict: Verdict) { |j.calls| == 1 && j.calls[0] == verdict }

  predicate Resolved(j: Journey) { j.settlement.Fulfilled? || j.settlement.Rejected? }

  /** The answer of the budget: one that contradicts a completed outcome is rejected. */
  function Arrive(j: Journey, accepted: bool, settled: bool): Journey {
    if !j.settlement.Asked? then j
    else if !accepted || (CalledAs(j, AsCompleted) && !settled) then j.(settlement := Rejected)
    else j.(settlement := Fulfilled(settled))
  }

  /** After the settlement of a run: a rejection, a cancellation or an unparsable result enters the catch block. */
  function ContinueRun(j: Journey, parsed: bool): Journey
    requires j.run.Settling? && Resolved(j)
  {
    if j.settlement.Rejected? || j.aborted || j.closed || !parsed then AskSettlement(j.(run := Recovering), AsFailed)
    else j.(run := Returned(j.run.completed, j.settlement.settled))
  }

  function Next(j: Journey, e: Event): Journey {
    match e
    case PrepareFails => if j.preparation.Preparing? then j.(preparation := FailureClosing) else j
    case FailedRuntimeCloses =>
      if j.preparation.FailureClosing? then AskSettlement(j.(preparation := FailureSettling), AsFailed) else j
    case FailureContinues =>
      if j.preparation.FailureSettling? && Resolved(j) then j.(preparation := PreparationFailed) else j
    case PrepareSucceeds => if j.preparation.Preparing? then j.(preparation := Prepared) else j
    case Abort => j.(aborted := true)
    case RunStarts =>
      if j.preparation.Prepared? && !j.closed && !j.started && !j.aborted then j.(run := Running, started := true) else j
    case RunResult(completed) =>
      if j.run.Running?
      then AskSettlement(j.(run := Settling(completed)), if completed && !j.aborted then AsCompleted else AsFailed) else j
    case RunThrows => if j.run.Running? then AskSettlement(j.(run := Recovering), AsFailed) else j
    case RunContinues(parsed) => if j.run.Settling? && Resolved(j) then ContinueRun(j, parsed) else j
    case RecoveryContinues => if j.run.Recovering? && Resolved(j) then j.(run := RunStage.Threw) else j
    case CloseCalled =>
      if !j.preparation.Prepared? then j
      else j.(closed := true, closing := if j.closing.NotClosing? then ClosingRuntime else j.closing)
    case RuntimeCloses =>
      if j.closing.ClosingRuntime? then AskSettlement(j.(closing := ClosingSettlement), AsFailed) else j
    case CloseContinues => if j.closing.ClosingSettlement? && Resolved(j) then j.(closing := CloseDone) else j
    case SettlementArrives(accepted, settled) => Arrive(j, accepted, settled)
  }

  function Play(events: seq<Event>): Journey {
    if |events| == 0 then ADMITTED else Next(Play(events[..|events| - 1]), events[|events| - 1])
  }

  /** The memo and the call log agree, and every stage past a settlement has one behind it. */
  predicate Coherent(j: Journey) {
    && (j.settlement.Unasked? <==> j.calls == []) && |j.calls| <= 1
    && (j.preparation.FailureSettling? ==> j.calls != [])
    && (j.preparation.PreparationFailed? ==> Resolved(j))
    && (j.run.Settling? || j.run.Recovering? ==> j.calls != [])
    && (j.run.Returned? || j.run.Threw? ==> Resolved(j))
    && (j.closing.ClosingSettlement? ==> j.calls != [])
    && (j.closing.CloseDone? ==> Resolved(j))
    && (!j.closing.NotClosing? ==> j.closed)
    && (!j.run.NotRun? || j.closed ==> j.preparation.Prepared?)
    && (!j.run.NotRun? ==> j.started)
  }

  /** A settlement as completed is asked for only by a completed run, and is never fulfilled unsettled. */
  predicate Honest(j: Journey) {
    && (j.calls == [] || CalledAs(j, AsCompleted) || CalledAs(j, AsFailed))
    && (j.settlement == Fulfilled(false) ==> CalledAs(j, AsFailed))
    && (CalledAs(j, AsCompleted) ==> j.run.Settling? || j.run.Recovering? || j.run.Returned? || j.run.Threw?)
    && (j.run == Settling(true) && !j.aborted && !j.closed ==> CalledAs(j, AsCompleted))
    && (j.run.Returned? ==> j.settlement == Fulfilled(j.run.settled))
    && (j.run.Returned? && j.run.completed ==> CalledAs(j, AsCompleted))
    && ((j.preparation.Preparing? || j.preparation.FailureClosing?) ==> j.calls == [])
    && ((j.run.NotRun? || j.run.Running?) && j.preparation.Prepared? && !j.closed ==> j.calls == [])
  }

  lemma StepCoherent(j: Journey, e: Event)
    requires Coherent(j)
    ensures Coherent(Next(j, e))
  {
  }

  lemma StepHonest(j: Journey, e: Event)
    requires Coherent(j) && Honest(j)
    ensures Honest(Next(j, e))
  {
  }

  /** What has been called, and what the first call was, never changes again. */
  lemma StepKeepsCall(j: Journey, e: Event)
    requires Coherent(j)
    ensures j.calls != [] ==> Next(j, e).calls == j.calls
    ensures j.run.Returned? || j.run.Threw? ==> Next(j, e).run == j.run
  {
  }

  /** A run is admitted once, for a prepared session that is neither closed nor cancelled. */
  predicate Admits(j: Journey) { j.preparation == Prepared && !j.started && !j.closed && !j.aborted }

  /** A settled run is returned unless its settlement was refused, or its result is late or unreadable. */
  predicate Returns(j: Journey, e: Event) {
    j.run.Settling? && j.settlement.Fulfilled? && !j.aborted && !j.closed && e == RunContinues(true)
  }

  /** What an event asks the budget to settle as, if this is the first to ask. */
  function Demand(j: Journey, e: Event): Option<Verdict> {
    if j.run == Running && e == RunResult(true) && !j.aborted then Some(AsCompleted)
    else if || (j.run == Running && (e.RunResult? || e == RunThrows))
            || (j.run.Settling? && Resolved(j) && e.RunContinues? && !Returns(j, e))
            || (j.closing == ClosingRuntime && e == RuntimeCloses)
            || (j.preparation == FailureClosing && e == FailedRuntimeCloses)
    then Some(AsFailed) else None
  }

  /** The budget hears the first demand only, and its answer stands: a completed journey has to be settled. */
  lemma DemandHeard(j: Journey, e: Event)
    requires Coherent(j)
    ensures var next, demand := Next(j, e), Demand(j, e);
            && next.calls == (if j.calls == [] && demand.Some? then [demand.value] else j.calls)
            && (j.settlement == Unasked ==> next.settlement == if demand.Some? then Asked else Unasked)
            && (j.settlement == Asked && !e.SettlementArrives? ==> next.settlement == Asked)
            && (j.settlement == Asked && e.SettlementArrives? ==>
                  next.settlement == if e.accepted && (e.settled || j.calls[0] == AsFailed)
                                     then Fulfilled(e.settled) else Rejected)
            && (Resolved(j) ==> next.settlement == j.settlement)
  {
  }

  /** How the flags and the three activities of a journey go on, each by the events that concern it alone. */
  lemma EachGoesOn(j: Journey, e: Event)
    requires Coherent(j)
    ensures var next := Next(j, e);
            && (next.aborted <==> j.aborted || e == Abort)
            && (next.started <==> j.started || (e == RunStarts && Admits(j)))
            && (next.closed <==> j.closed || (e == Event.CloseCalled && j.preparation == Prepared))
            && (e == RunStarts && Admits(j) ==> next.run == Running)
            && (j.run == Running && e.RunResult? ==> next.run == Settling(e.completed))
            && (j.run == Running && e == RunThrows ==> next.run == Recovering)
            && (j.run.Settling? && Resolved(j) && e.RunContinues? ==>
                  next.run == if Returns(j, e) then Returned(j.run.completed, j.settlement.settled) else Recovering)
            && (j.run == Recovering && Resolved(j) && e == RecoveryContinues ==> next.run == RunStage.Threw)
            && (next.run != j.run ==>
                  || (e == RunStarts && Admits(j)) || (j.run == Running && (e.RunResult? || e == RunThrows))
                  || (j.run.Settling? && Resolved(j) && e.RunContinues?)
                  || (j.run == Recovering && Resolved(j) && e == RecoveryContinues))
  {
  }

  lemma EachEnds(j: Journey, e: Event)
    requires Coherent(j)
    ensures var next := Next(j, e);
            && next.closing ==
                 (if j.closing == NotClosing && e == Event.CloseCalled && j.preparation == Prepared then ClosingRuntime
                  else if j.closing == ClosingRuntime && e == RuntimeCloses then ClosingSettlement
                  else if j.closing == ClosingSettlement && e == CloseContinues && Resolved(j) then CloseDone
                  else j.closing)
            && next.preparation ==
                 (if j.preparation == Preparing && e == PrepareSucceeds then Prepared
                  else if j.preparation == Preparing && e == PrepareFails then FailureClosing
                  else if j.preparation == FailureClosing && e == FailedRuntimeCloses then FailureSettling
                  else if j.preparation == FailureSettling && e == FailureContinues && Resolved(j) then PreparationFailed
                  else j.preparation)
  {
  }

  /** A prepared, undisturbed journey whose run completes and is settled returns it as settled. */
  lemma UndisturbedReturns(j: Journey)
    requires Coherent(j) && Honest(j) && Admits(j)
    ensures var events := [RunStarts, RunResult(true), SettlementArrives(true, true), RunContinues(true)];
            var after := Next(Next(Next(Next(j, events[0]), events[1]), events[2]), events[3]);
            after.run == Returned(true, true) && after.calls == [AsCompleted]
  {
  }

  /**
   * In every interleaving the budget is settled at most once; it has been settled exactly once when a
   * preparation has failed, a close has finished, or a run has returned or thrown; and a run that returns
   * a completed result was settled as completed with status settled.
   */
  lemma {:induction false} SettledExactlyOnce(events: seq<Event>)
    ensures var j := Play(events);
            && Coherent(j) && Honest(j) && |j.calls| <= 1
            && (j.preparation.PreparationFailed? || j.closing.CloseDone? || j.run.Returned? || j.run.Threw? ==> |j.calls| == 1)
            && (j.run.Returned? && j.run.completed ==>
                  CalledAs(j, AsCompleted) && j.settlement == Fulfilled(true) && j.run.settled)
            && (CalledAs(j, AsFailed) ==> !(j.run.Returned? && j.run.completed))
  {
    hide Next;
    if |events| > 0 {
      SettledExactlyOnce(events[..|events| - 1]);
      StepCoherent(Play(events[..|events| - 1]), events[|events| - 1]);
      StepHonest(Play(events[..|events| - 1]), events[|events| - 1]);
    }
  }

  // ---- the closure

  datatype Answer = Proceed | SessionUnavailable

  /** The variables the returned closure updates, and ghost stages for what is awaited. */
  class Session {
    var settlement: Settlement
    var closed: bool
    var started: bool
    var closing: Closing
    ghost var preparation: Preparation
    ghost var run: RunStage
    ghost var aborted: bool
    ghost var calls: seq<Verdict>

    ghost function Now(): Journey
      reads this
    {
      Journey(preparation, run, closing, started, closed, aborted, settlement, calls)
    }

    constructor ()
      ensures Now() == ADMITTED
    {
      settlement, closed, started, closing := Unasked, false, false, NotClosing;
      preparation, run, aborted, calls := Preparing, NotRun, false, [];
    }

    method Settle(verdict: Verdict)
      modifies `settlement, `calls
      ensures Now() == AskSettlement(old(Now()), verdict)
    {
      if settlement.Unasked? {
        settlement := Asked;
        calls := calls + [verdict];
      }
    }

    /** confirmAndRun, up to the await of the runtime. */
    method Begin(signalAborted: bool) returns (answer: Answer)
      requires signalAborted == aborted && preparation.Prepared?
      modifies `started, `run
      ensures Now() == Next(old(Now()), RunStarts)
      ensures answer == if old(closed) || old(started) || signalAborted then SessionUnavailable else Proceed
    {
      if closed || started || signalAborted { return SessionUnavailable; }
      started := true;
      run := Running;
      return Proceed;
    }

    /** confirmAndRun, from the result of the runtime to the await of the settlement. */
    method Receive(completed: bool, signalAborted: bool)
      requires signalAborted == aborted && run.Running?
      modifies `run, `settlement, `calls
      ensures Now() == Next(old(Now()), RunResult(completed))
    {
      run := Settling(completed);
      Settle(if completed && !signalAborted then AsCompleted else AsFailed);
    }

    /** confirmAndRun, from the settlement to its return or to the catch block. */
    method Conclude(signalAborted: bool, parsed: bool) returns (answer: Answer)
      requires signalAborted == aborted && run.Settling? && Resolved(Now())
      modifies `run, `settlement, `calls
      ensures Now() == Next(old(Now()), RunContinues(parsed))
      ensures answer == if old(settlement).Rejected? || signalAborted || closed || !parsed then SessionUnavailable else Proceed
    {
      if settlement.Rejected? || signalAborted || closed || !parsed {
        run := Recovering;
        Settle(AsFailed);
        return SessionUnavailable;
      }
      run := Returned(run.completed, settlement.settled);
      return Proceed;
    }

    /** close, up to its first await. */
    method Close()
      requires preparation.Prepared?
      modifies `closed, `closing
      ensures Now() == Next(old(Now()), CloseCalled)
    {
      closed := true;
      if closing.NotClosing? { closing := ClosingRuntime; }
    }

    /** The finally block of close. */
    method FinishClose()
      requires closing.ClosingRuntime?
      modifies `closing, `settlement, `calls
      ensures Now() == Next(old(Now()), RuntimeCloses)
    {
      closing := ClosingSettlement;
      Settle(AsFailed);
    }
  }
}
