/** The worker turn loop: it ends within its bound, and the tool history it sends is a short recent run. */
module WorkerTurns {
  import opened Records

  datatype ToolName = SessionStatus | Research | LocalCommand | PullRequestRead | PullRequestMerge

  datatype Remaining = Remaining(toolCalls: nat, researchRequests: nat, localCommands: nat, privilegedActions: nat)

  datatype Verdict = Delivered | Refused(revoked: bool)

  /** A tool result: what it answers, its serialized length, and the budget it leaves. */
  datatype ToolResult = ToolResult(sourceTurn: nat, tool: ToolName, bytes: nat, verdict: Verdict, budget: Remaining)

  /** What the worker answers to a turn. */
  datatype Reply = Final | Request(tool: ToolName) | ReplyFails

  /** What the dispatcher answers to a tool request. */
  datatype Outcome = Answered(result: ToolResult) | DispatchFails

  /** maxTurns is set with a continuation; attached says whether there is a tool executor at all. */
  datatype Profile = Profile(maxTurns: Option<nat>, tools: set<ToolName>, budget: Remaining, attached: bool)

  /** What the loop sends the worker in one turn; a history only goes with a continuation. */
  datatype Turn = Turn(
    number: nat, previous: Option<ToolResult>, history: Option<seq<ToolResult>>, offered: set<ToolName>, budget: Remaining)

  datatype LoopFailure =
    | BudgetUnavailable | ReplyMissing | RequestRefused | CompletionRefused | DispatchFailed | ResultUnbound | TurnInvalid

  /** closed says whether the authority recorded the completion. */
  datatype Ending = EndsCompleted(closed: bool) | EndsRevoked | EndsFailed(failure: LoopFailure)

  const MAX_HISTORY: nat := 3
  const MAX_BYTES: nat := 40_000

  function TotalBytes(history: seq<ToolResult>): nat {
    if |history| == 0 then 0 else TotalBytes(history[..|history| - 1]) + history[|history| - 1].bytes
  }

  /** Length of {"history":[…],"toolResult":…}: the names and brackets, the entries and their commas. */
  function HistoryBytes(history: seq<ToolResult>, current: ToolResult): nat {
    28 + TotalBytes(history) + (if |history| == 0 then 0 else |history| - 1) + current.bytes
  }

  predicate Fits(history: seq<ToolResult>, current: ToolResult) {
    |history| <= MAX_HISTORY && (history == [] || HistoryBytes(history, current) <= MAX_BYTES)
  }

  /** The history is the run of results directly before the current one. */
  predicate Recent(history: seq<ToolResult>, results: seq<ToolResult>) {
    |results| > 0 && |history| <= |results| - 1
    && history == results[|results| - 1 - |history|..|results| - 1]
  }

  function Newest(results: seq<ToolResult>, k: nat): seq<ToolResult>
    requires k <= |results|
  {
    results[|results| - k..]
  }

  /** The inner loop: shift until the list is short enough in number and in bytes. */
  method Trim(before: seq<ToolResult>, current: ToolResult) returns (history: seq<ToolResult>)
    ensures |history| <= |before| && history == Newest(before, |history|)
    ensures Fits(history, current)
    ensures forall k :: |history| < k <= |before| ==> !Fits(Newest(before, k), current)
  {
    history := before;
    assert before[0..] == before;
    while |history| > 3 || (|history| > 0 && HistoryBytes(history, current) > 40_000)
      invariant |history| <= |before| && history == Newest(before, |history|)
      invariant forall k :: |history| < k <= |before| ==> !Fits(Newest(before, k), current)
      decreases |history|
    {
      assert !Fits(Newest(before, |history|), current);
      history := history[1..];
      assert history == Newest(before, |history|);
    }
  }

  function Limit(profile: Profile): nat {
    match profile.maxTurns case None => 2 case Some(maxTurns) => maxTurns
  }

  /** The checks on a worker's tool request, which the loop makes itself. */
  predicate Admitted(profile: Profile, turn: Turn, tool: ToolName) {
    && !(turn.previous.Some? && profile.maxTurns.None?)
    && !(profile.maxTurns.Some? && turn.number >= profile.maxTurns.value)
    && !(tool !in turn.offered && (profile.maxTurns.None? || turn.offered == {}))
    && turn.budget.toolCalls >= 1
    && (tool == Research ==> turn.budget.researchRequests >= 1)
    && (tool == LocalCommand ==> turn.budget.localCommands >= 1)
    && (tool == PullRequestMerge && profile.maxTurns.None? ==> turn.budget.privilegedActions >= 1)
  }

  /** No tools after a refused search, without a continuation, or in the last turn it allows. */
  function Offered(profile: Profile, result: ToolResult, number: nat): set<ToolName> {
    if || (result.verdict.Refused? && result.tool == Research) || profile.maxTurns.None?
       || number >= profile.maxTurns.value
    then {}
    else profile.tools
  }

  /** A request is refused exactly for one of these seven complaints. */
  lemma RefusedRequests(profile: Profile, turn: Turn, tool: ToolName)
    ensures !Admitted(profile, turn, tool) <==>
              || (profile.maxTurns == None && turn.previous != None)
              || (exists bound :: profile.maxTurns == Some(bound) && bound <= turn.number)
              || (tool !in turn.offered && (turn.offered == {} || profile.maxTurns == None))
              || turn.budget.toolCalls == 0
              || (tool == Research && turn.budget.researchRequests == 0)
              || (tool == LocalCommand && turn.budget.localCommands == 0)
              || (tool == PullRequestMerge && turn.budget.privilegedActions == 0 && profile.maxTurns == None)
  {
    if profile.maxTurns.Some? { assert profile.maxTurns == Some(profile.maxTurns.value); }
  }

  /** The whole catalogue is offered in every turn but the last, unless a search has just been refused. */
  lemma WholeCatalogue(profile: Profile, result: ToolResult, number: nat)
    ensures var open := (exists bound :: profile.maxTurns == Some(bound) && number < bound)
                        && !(result.tool == Research && result.verdict != Delivered);
            Offered(profile, result, number) == if open then profile.tools else {}
  {
    if profile.maxTurns.Some? { assert profile.maxTurns == Some(profile.maxTurns.value); }
  }

  /** The fixed part of the measured text is what surrounds the history and the result. */
  lemma HistoryText(history: seq<ToolResult>, current: ToolResult)
    ensures HistoryBytes([], current) == |"{\"history\":[],\"toolResult\":}"| + current.bytes
    ensures |history| > 0 ==>
              HistoryBytes(history, current) + (if |history| == 1 then 1 else 0)
                == HistoryBytes(history[..|history| - 1], current) + history[|history| - 1].bytes + 1
  {
  }

  /** The bindings the turn's own schema checks between a turn, its history and the result it follows. */
  predicate WellBound(profile: Profile, turn: Turn) {
    && (profile.maxTurns.Some? ==> turn.number <= profile.maxTurns.value)
    && (turn.previous.Some? <==> turn.number > 1)
    && (turn.previous.Some? ==> turn.previous.value.sourceTurn + 1 == turn.number)
    && (turn.history.Some? ==>
          && profile.maxTurns.Some? && |turn.history.value| <= 3
          && (forall k :: 0 <= k < |turn.history.value| ==> turn.history.value[k].sourceTurn < turn.number - 1)
          && (forall k :: 0 < k < |turn.history.value| ==>
                turn.history.value[k - 1].sourceTurn < turn.history.value[k].sourceTurn))
  }

  predicate FirstTurn(profile: Profile, turn: Turn) {
    turn == Turn(1, None, None, profile.tools, profile.budget)
  }

  /** A later turn carries the latest result, what budget it left, and the history directly before it. */
  predicate LaterTurn(profile: Profile, turn: Turn, results: seq<ToolResult>)
    requires |results| > 0
  {
    var latest := results[|results| - 1];
    && turn.number == |results| + 1 && turn.previous == Some(latest) && turn.budget == latest.budget
    && turn.offered == Offered(profile, latest, turn.number)
    && (turn.history.Some? <==> profile.maxTurns.Some?)
    && (turn.history.Some? ==> Recent(turn.history.value, results) && Fits(turn.history.value, latest))
  }

  predicate TurnSound(profile: Profile, turns: seq<Turn>, results: seq<ToolResult>, k: nat)
    requires k < |turns| && |results| >= k
  {
    if k == 0 then FirstTurn(profile, turns[k]) else LaterTurn(profile, turns[k], results[..k])
  }

  /** The result of a turn answers the admitted request the worker made in it. */
  predicate ResultSound(
    profile: Profile, worker: nat -> Reply, dispatch: nat -> Outcome, turns: seq<Turn>, results: seq<ToolResult>, k: nat)
    requires k < |results| <= |turns|
  {
    && worker(k + 1).Request? && Admitted(profile, turns[k], worker(k + 1).tool)
    && dispatch(k + 1) == Answered(results[k])
    && results[k].sourceTurn == k + 1 && results[k].tool == worker(k + 1).tool
    && !(results[k].verdict.Refused? && results[k].verdict.revoked)
  }

  predicate AllTurns(profile: Profile, turns: seq<Turn>, results: seq<ToolResult>)
    requires |turns| <= |results| + 1
  {
    forall k :: 0 <= k < |turns| ==> TurnSound(profile, turns, results, k) && WellBound(profile, turns[k])
  }

  predicate AllResults(
    profile: Profile, worker: nat -> Reply, dispatch: nat -> Outcome, turns: seq<Turn>, results: seq<ToolResult>)
    requires |results| <= |turns|
  {
    forall k :: 0 <= k < |results| ==> ResultSound(profile, worker, dispatch, turns, results, k)
  }

  /** Every result comes from the turn before the next one, so the schema's bindings hold. */
  lemma LaterTurnBound(
    profile: Profile, worker: nat -> Reply, dispatch: nat -> Outcome,
    turns: seq<Turn>, turn: Turn, results: seq<ToolResult>)
    requires |results| > 0 && LaterTurn(profile, turn, results) && |results| < Limit(profile)
    requires |results| <= |turns| && AllResults(profile, worker, dispatch, turns, results)
    ensures WellBound(profile, turn)
  {
    forall k | 0 <= k < |results| ensures results[k].sourceTurn == k + 1 {
      assert ResultSound(profile, worker, dispatch, turns, results, k);
    }
    if turn.history.Some? {
      var history, first := turn.history.value, |results| - 1 - |turn.history.value|;
      forall k | 0 <= k < |history| ensures history[k] == results[first + k] {}
    }
  }

  /** How the loop ends in a turn it has sent: each ending exactly when its own answers call for it. */
  predicate EndedInTurn(
    profile: Profile, turn: Turn, worker: nat -> Reply, dispatch: nat -> Outcome, complete: nat -> bool, ending: Ending)
  {
    var n, reply, outcome := turn.number, worker(turn.number), dispatch(turn.number);
    var final := reply == Final;
    var admitted := reply.Request? && Admitted(profile, turn, reply.tool);
    var executed := admitted && profile.attached;
    var bound := outcome.Answered? && outcome.result.sourceTurn == n && reply.Request? && outcome.result.tool == reply.tool;
    && (ending == EndsCompleted(true) <==> final && profile.maxTurns.Some? && complete(n))
    && (ending == EndsCompleted(false) <==> (final && profile.maxTurns.None?) || (admitted && !profile.attached))
    && (ending == EndsRevoked <==> executed && bound && outcome.result.verdict == Refused(true))
    && (ending == EndsFailed(CompletionRefused) <==> final && profile.maxTurns.Some? && !complete(n))
    && (ending == EndsFailed(ReplyMissing) <==> reply == ReplyFails)
    && (ending == EndsFailed(RequestRefused) <==> reply.Request? && !admitted)
    && (ending == EndsFailed(DispatchFailed) <==> executed && outcome.DispatchFails?)
    && (ending == EndsFailed(ResultUnbound) <==> executed && outcome.Answered? && !bound)
  }

  /** A turn is sent with a live budget, and a later one only when its envelope could be made. */
  predicate MayBegin(profile: Profile, turn: Turn, alive: nat -> bool, enveloped: nat -> bool) {
    (profile.maxTurns.Some? ==> alive(turn.number)) && (turn.number > 1 ==> enveloped(turn.number))
  }

  /** How it ends before it sends the next turn. */
  predicate EndedBetween(profile: Profile, next: nat, alive: nat -> bool, enveloped: nat -> bool, ending: Ending) {
    && (ending == EndsFailed(TurnInvalid) || ending == EndsFailed(BudgetUnavailable))
    && (ending == EndsFailed(TurnInvalid) <==> next > 1 && !enveloped(next))
    && (ending == EndsFailed(BudgetUnavailable) ==> profile.maxTurns.Some? && !alive(next))
  }

  /** One turn, from the worker's reply to the tool result: it ends the loop, or yields an answer to the request. */
  method Exchange(profile: Profile, turn: Turn, worker: nat -> Reply, dispatch: nat -> Outcome, complete: nat -> bool)
    returns (ended: Option<Ending>, toolResult: ToolResult)
    ensures ended.Some? ==> EndedInTurn(profile, turn, worker, dispatch, complete, ended.value)
    ensures ended.None? ==>
              && worker(turn.number).Request? && Admitted(profile, turn, worker(turn.number).tool) && profile.attached
              && dispatch(turn.number) == Answered(toolResult)
              && toolResult.sourceTurn == turn.number && toolResult.tool == worker(turn.number).tool
              && toolResult.verdict != Refused(true)
  {
    hide Admitted;
    toolResult := ToolResult(turn.number, SessionStatus, 0, Delivered, turn.budget);
    var reply := worker(turn.number);
    if reply == ReplyFails { return Some(EndsFailed(ReplyMissing)), toolResult; }
    if reply.Request? && !Admitted(profile, turn, reply.tool) { return Some(EndsFailed(RequestRefused)), toolResult; }
    if reply == Final || !profile.attached {
      var closing := reply == Final && profile.maxTurns.Some?;
      if closing && !complete(turn.number) { return Some(EndsFailed(CompletionRefused)), toolResult; }
      return Some(EndsCompleted(closing)), toolResult;
    }
    var outcome := dispatch(turn.number);
    if outcome.DispatchFails? { return Some(EndsFailed(DispatchFailed)), toolResult; }
    toolResult := outcome.result;
    if toolResult.sourceTurn != turn.number || toolResult.tool != reply.tool {
      return Some(EndsFailed(ResultUnbound)), toolResult;
    }
    if toolResult.verdict == Refused(true) { return Some(EndsRevoked), toolResult; }
    return None, toolResult;
  }

  /**
   * confirmAndLaunch's loop, for any worker, any dispatcher and any failures. It sends at most limit turns,
   * numbered from one, and dispatches fewer requests than that, each of them admitted; every turn carries the
   * latest result and a history that is recent and fits, and passes the bindings of its own schema.
   */
  method RunTurns(
    profile: Profile, worker: nat -> Reply, dispatch: nat -> Outcome, alive: nat -> bool, enveloped: nat -> bool,
    complete: nat -> bool)
    returns (turns: seq<Turn>, ghost results: seq<ToolResult>, ending: Ending)
    requires profile.maxTurns.Some? ==> 2 <= profile.maxTurns.value <= 20
    ensures |turns| <= Limit(profile) && |results| < Limit(profile) && |results| <= |turns| <= |results| + 1
    ensures AllTurns(profile, turns, results) && AllResults(profile, worker, dispatch, turns, results)
    ensures forall k :: 0 <= k < |turns| ==> MayBegin(profile, turns[k], alive, enveloped)
    ensures |turns| == |results| + 1 ==> EndedInTurn(profile, turns[|results|], worker, dispatch, complete, ending)
    ensures |turns| == |results| ==> EndedBetween(profile, |turns| + 1, alive, enveloped, ending)
  {
    hide Recent, Fits, AllTurns, AllResults, TurnSound, EndedInTurn, Offered, Admitted, FirstTurn, LaterTurn, WellBound;
    hide MayBegin, EndedBetween;
    var turn := Turn(1, None, None, profile.tools, profile.budget);
    NothingSent(profile, worker, dispatch);
    FirstTurnMade(profile, turn);
    var previous: Option<ToolResult> := None;
    var history: seq<ToolResult> := [];
    turns, results, ending := [], [], EndsFailed(BudgetUnavailable);
    while true
      invariant turn.number == |turns| + 1 == |results| + 1 <= Limit(profile)
      invariant AllTurns(profile, turns, results) && AllResults(profile, worker, dispatch, turns, results)
      invariant if results == [] then FirstTurn(profile, turn) else LaterTurn(profile, turn, results)
      invariant WellBound(profile, turn)
      invariant turn.number > 1 ==> enveloped(turn.number)
      invariant forall k :: 0 <= k < |turns| ==> MayBegin(profile, turns[k], alive, enveloped)
      invariant if results == [] then previous.None? && history == []
                else previous == Some(results[|results| - 1]) && Recent(history, results)
      decreases Limit(profile) - turn.number
    {
      StepsBetween(profile, turn, alive, enveloped);
      if profile.maxTurns.Some? && !alive(turn.number) { ending := EndsFailed(BudgetUnavailable); return; }
      TurnsAppend(profile, worker, dispatch, turns, turn, results);
      turns := turns + [turn];
      var ended, toolResult := Exchange(profile, turn, worker, dispatch, complete);
      if ended.Some? { ending := ended.value; return; }
      AdmittedBelow(profile, turn, toolResult.tool);
      history := NextHistory(history, previous, toolResult, results);
      ResultsAppend(profile, worker, dispatch, turns, results, toolResult);
      results := results + [toolResult];
      previous := Some(toolResult);
      turn := Turn(
        turn.number + 1, previous, if profile.maxTurns.Some? then Some(history) else None,
        Offered(profile, toolResult, turn.number + 1), toolResult.budget);
      LaterTurnMade(profile, turn, history, results);
      LaterTurnBound(profile, worker, dispatch, turns, turn, results);
      StepsBetween(profile, turn, alive, enveloped);
      if !enveloped(turn.number) { ending := EndsFailed(TurnInvalid); return; }
    }
  }

  /** What stands between two turns: the envelope of the next one, and a live budget. */
  lemma StepsBetween(profile: Profile, turn: Turn, alive: nat -> bool, enveloped: nat -> bool)
    ensures turn.number > 1 && !enveloped(turn.number) ==>
              EndedBetween(profile, turn.number, alive, enveloped, EndsFailed(TurnInvalid))
    ensures (turn.number > 1 ==> enveloped(turn.number)) && profile.maxTurns.Some? && !alive(turn.number) ==>
              EndedBetween(profile, turn.number, alive, enveloped, EndsFailed(BudgetUnavailable))
    ensures (turn.number > 1 ==> enveloped(turn.number)) && (profile.maxTurns.Some? ==> alive(turn.number)) ==>
              MayBegin(profile, turn, alive, enveloped)
  {
  }

  /** A request is only admitted before the last turn there can be. */
  lemma AdmittedBelow(profile: Profile, turn: Turn, tool: ToolName)
    requires WellBound(profile, turn) && Admitted(profile, turn, tool) && turn.number >= 1
    ensures turn.number < Limit(profile)
  {
  }

  lemma FirstTurnMade(profile: Profile, turn: Turn)
    requires turn == Turn(1, None, None, profile.tools, profile.budget)
    requires profile.maxTurns.Some? ==> 2 <= profile.maxTurns.value
    ensures FirstTurn(profile, turn) && WellBound(profile, turn)
  {
  }

  lemma LaterTurnMade(profile: Profile, turn: Turn, history: seq<ToolResult>, results: seq<ToolResult>)
    requires |results| > 0
    requires var latest := results[|results| - 1];
             && Recent(history, results) && Fits(history, latest)
             && turn == Turn(|results| + 1, Some(latest), if profile.maxTurns.Some? then Some(history) else None,
                             Offered(profile, latest, |results| + 1), latest.budget)
    ensures LaterTurn(profile, turn, results)
  {
    hide Recent, Fits, Offered;
  }

  lemma NothingSent(profile: Profile, worker: nat -> Reply, dispatch: nat -> Outcome)
    ensures AllTurns(profile, [], []) && AllResults(profile, worker, dispatch, [], [])
  {
  }

  /** Push the previous result, then trim against the current one. */
  method NextHistory(
    sent: seq<ToolResult>, previous: Option<ToolResult>, toolResult: ToolResult, ghost results: seq<ToolResult>)
    returns (history: seq<ToolResult>)
    requires if results == [] then previous.None? && sent == []
             else previous == Some(results[|results| - 1]) && Recent(sent, results)
    ensures Recent(history, results + [toolResult]) && Fits(history, toolResult)
  {
    var pushed := if previous.Some? then sent + [previous.value] else sent;
    history := Trim(pushed, toolResult);
    HistoryStaysRecent(results, toolResult, sent, pushed, history);
  }

  /** Pushing the previous result and dropping from the front leaves a run directly before the current result. */
  lemma HistoryStaysRecent(
    before: seq<ToolResult>, current: ToolResult, sent: seq<ToolResult>, pushed: seq<ToolResult>, history: seq<ToolResult>)
    requires if before == [] then pushed == [] && sent == []
             else Recent(sent, before) && pushed == sent + [before[|before| - 1]]
    requires |history| <= |pushed| && history == pushed[|pushed| - |history|..]
    ensures Recent(history, before + [current])
  {
    var results := before + [current];
    if before != [] {
      assert pushed == before[|before| - 1 - |sent|..] by {
        assert before == before[..|before| - 1] + [before[|before| - 1]];
      }
      assert history == before[|before| - |history|..];
      assert results[|results| - 1 - |history|..|results| - 1] == before[|before| - |history|..];
    }
  }

  lemma TurnsAppend(
    profile: Profile, worker: nat -> Reply, dispatch: nat -> Outcome,
    turns: seq<Turn>, turn: Turn, results: seq<ToolResult>)
    requires |results| == |turns| && WellBound(profile, turn)
    requires AllTurns(profile, turns, results) && AllResults(profile, worker, dispatch, turns, results)
    requires if results == [] then FirstTurn(profile, turn) else LaterTurn(profile, turn, results)
    ensures AllTurns(profile, turns + [turn], results) && AllResults(profile, worker, dispatch, turns + [turn], results)
  {
    hide WellBound, LaterTurn, Admitted;
    var more := turns + [turn];
    assert results[..|results|] == results;
    forall k | 0 <= k < |turns| ensures TurnSound(profile, more, results, k) && WellBound(profile, more[k]) {
      assert TurnSound(profile, turns, results, k);
    }
    forall k | 0 <= k < |results| ensures ResultSound(profile, worker, dispatch, more, results, k) {
      assert ResultSound(profile, worker, dispatch, turns, results, k);
    }
  }

  lemma ResultsAppend(
    profile: Profile, worker: nat -> Reply, dispatch: nat -> Outcome,
    turns: seq<Turn>, results: seq<ToolResult>, toolResult: ToolResult)
    requires |turns| == |results| + 1
    requires AllTurns(profile, turns, results) && AllResults(profile, worker, dispatch, turns, results)
    requires ResultSound(profile, worker, dispatch, turns, results + [toolResult], |results|)
    ensures AllTurns(profile, turns, results + [toolResult])
    ensures AllResults(profile, worker, dispatch, turns, results + [toolResult])
  {
    hide WellBound, LaterTurn, Admitted;
    var more := results + [toolResult];
    forall k | 0 <= k < |turns| ensures TurnSound(profile, turns, more, k) && WellBound(profile, turns[k]) {
      assert TurnSound(profile, turns, results, k);
      assert more[..k] == results[..k];
    }
    forall k | 0 <= k < |results| ensures ResultSound(profile, worker, dispatch, turns, more, k) {
      assert ResultSound(profile, worker, dispatch, turns, results, k);
    }
  }
}
