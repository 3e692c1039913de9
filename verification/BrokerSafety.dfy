/** Safety of every interleaving of broker runs with each other and with any other client of the store. */
module BrokerSafety {
  import opened Records
  import opened Rows
  import opened Broker
  import opened BrokerRuns
  import R = Runs
  import Store
  import Plans

  function OfRun(i: nat): Event -> bool { (e: Event) => e.run == i }

  /** What one run did, in order. */
  function Trace(log: seq<Event>, i: nat): seq<Event> { Where(log, OfRun(i)) }

  ghost predicate RunsKept(w: World) {
    && (forall i :: 0 <= i < |w.runs| ==> Kept(w.runs[i], Trace(w.log, i)))
    && (forall k :: 0 <= k < |w.log| ==> w.log[k].run < |w.runs|)
  }

  lemma {:induction false} NoTrace(log: seq<Event>, i: nat)
    requires forall k :: 0 <= k < |log| ==> log[k].run != i
    ensures Trace(log, i) == []
  {
    if |log| > 0 { NoTrace(log[..|log| - 1], i); }
  }

  lemma TraceAppend(log: seq<Event>, event: Option<Event>, i: nat)
    ensures Trace(Extend(log, event), i)
         == if event.Some? && event.value.run == i then Trace(log, i) + [event.value] else Trace(log, i)
  {
    if event.Some? { WhereAppend(log, event.value, OfRun(i)); }
  }

  lemma EmitsOwn(run: Run, i: nat, db: Db, c: Choice)
    ensures Emits(run, i, db, c).Some? ==> Emits(run, i, db, c).value.run == i
  {
    hide Ask;
  }

  lemma RunsStep(w: World, move: Move)
    requires RunsKept(w)
    ensures RunsKept(Act(w, move))
  {
    hide Kept, Trace, Advance, Emits, R.Apply, Begin;
    match move
    case Elsewhere(_) =>
    case Start(input) =>
      NoTrace(w.log, |w.runs|);
      KeptAtStart(input);
    case Proceed(i, c) =>
      if i < |w.runs| {
        var event := Emits(w.runs[i], i, w.db, c);
        EmitsOwn(w.runs[i], i, w.db, c);
        KeptStep(w.runs[i], Trace(w.log, i), i, w.db, c);
        forall j | 0 <= j < |w.runs| ensures Kept(Act(w, move).runs[j], Trace(Extend(w.log, event), j)) {
          TraceAppend(w.log, event, j);
        }
      }
  }

  lemma {:induction false} RunsReachable(moves: seq<Move>)
    ensures RunsKept(Play(moves))
  {
    hide RunsKept, Act;
    if |moves| > 0 {
      RunsReachable(moves[..|moves| - 1]);
      RunsStep(Play(moves[..|moves| - 1]), moves[|moves| - 1]);
    } else {
      assert RunsKept(World(EmptyDb, [], [])) by { NothingKept(); }
    }
  }

  lemma NothingKept()
    ensures RunsKept(World(EmptyDb, [], []))
  {
  }

  // ---- from a run's trace to the whole log

  /** Where an event of the log stands in the trace of its run. */
  lemma {:induction false} TraceAt(log: seq<Event>, k: nat) returns (p: nat)
    requires k < |log|
    ensures p < |Trace(log, log[k].run)| && Trace(log, log[k].run)[p] == log[k]
    ensures p == |Trace(log[..k], log[k].run)| && Trace(log, log[k].run)[..p] == Trace(log[..k], log[k].run)
  {
    var i, last := log[k].run, |log| - 1;
    assert log == log[..last] + [log[last]];
    WhereAppend(log[..last], log[last], OfRun(i));
    if k == last {
      p := |Trace(log[..last], i)|;
    } else {
      p := TraceAt(log[..last], k);
      assert log[..last][..k] == log[..k];
    }
  }

  lemma TraceInLog(log: seq<Event>, k: nat, i: nat, request: Request)
    requires k <= |log|
    ensures HasTool(Trace(log[..k], i), request) ==>
              exists a :: 0 <= a < k && log[a].run == i && TookTool(log[a], request)
    ensures HasAuthority(Trace(log[..k], i), request) ==>
              exists b :: 0 <= b < k && log[b].run == i && TookAuthority(log[b], request)
  {
    hide Where, TookTool, TookAuthority;
    var trace := Trace(log[..k], i);
    if HasTool(trace, request) {
      var t :| 0 <= t < |trace| && TookTool(trace[t], request);
      assert trace[t] in log[..k];
    }
    if HasAuthority(trace, request) {
      var t :| 0 <= t < |trace| && TookAuthority(trace[t], request);
      assert trace[t] in log[..k];
    }
  }

  /**
   * Every merge request, in every interleaving, is the operation of its own run's request and comes
   * after that run's own committed tool call and its own committed approval or plan consumption.
   */
  lemma MergeJustified(moves: seq<Move>, k: nat)
    requires k < |Play(moves).log| && Play(moves).log[k].MergeSent?
    ensures var w := Play(moves);
            var i := w.log[k].run;
            && i < |w.runs| && w.log[k].operation == w.runs[i].Request().operation
            && (exists a :: 0 <= a < k && w.log[a].run == i && TookTool(w.log[a], w.runs[i].Request()))
            && (exists b :: 0 <= b < k && w.log[b].run == i && TookAuthority(w.log[b], w.runs[i].Request()))
  {
    hide Play, Trace, Staged, Backed, DecisionsSound, TookTool, TookAuthority, HasTool, HasAuthority;
    var w := Play(moves);
    RunsReachable(moves);
    var i := w.log[k].run;
    var p := TraceAt(w.log, k);
    assert Justified(Trace(w.log, i), p, w.runs[i].Request());
    TraceInLog(w.log, k, i, w.runs[i].Request());
  }

  /** A tool call or an authority is only ever taken from an active session inside its lifetime. */
  lemma TakenWhileActive(e: Event, request: Request)
    requires TookTool(e, request) || TookAuthority(e, request)
    ensures Store.Open(e.before, request.sessionId, e.op.now)
         || (TookPlan(e, request) && request.sessionId in e.before.sessions
             && e.before.sessions[request.sessionId].status == Active
             && e.op.now < e.before.sessions[request.sessionId].expiresAt)
  {
    hide Plans.Covers, Plans.Matches, Plans.Replays, Plans.Enqueue, Plans.ConsumePlan, Store.BoundConnection;
  }

  lemma MergesOnce(moves: seq<Move>, k: nat, l: nat)
    requires k < |Play(moves).log| && l < |Play(moves).log|
    requires Play(moves).log[k].MergeSent? && Play(moves).log[l].MergeSent? && Play(moves).log[k].run == Play(moves).log[l].run
    ensures k == l
  {
    hide Play, Trace, Staged, Backed, DecisionsSound, Justified;
    var log := Play(moves).log;
    RunsReachable(moves);
    if k != l {
      var low, high := if k < l then k else l, if k < l then l else k;
      assert log[..high][..low] == log[..low];
      var r := TraceAt(log[..high], low);
      var p := TraceAt(log, low);
      var q := TraceAt(log, high);
    }
  }

  // ---- one use across runs

  ghost predicate UsedApproval(e: Event): (used: bool)
    ensures used ==> e.Stored? && e.op.ConsumeApproval?
  {
    && e.Stored? && e.op.ConsumeApproval?
    && Store.JudgeConsumption(e.before, e.op.consumption, e.op.now) == Store.ApprovalConsumed
  }

  ghost predicate UsedPlan(e: Event): (used: bool)
    ensures used ==> e.Stored? && e.op.CheckPlan?
  {
    && e.Stored? && e.op.CheckPlan? && e.op.check.phase == Plans.Consume
    && Plans.CheckPlan(e.before, e.op.check, e.op.now).value.Allowed?
  }

  /** The mutation a merge request stands for: one head commit of one pull request over one connection. */
  function KeyFor(request: Request): Option<MutationKey> {
    if request.operation.Merge? && request.connectionId.Some? && request.resource.Some? && request.resource.value.PullRequest?
    then Some(MutationKey(request.connectionId.value, request.resource.value.owner, request.resource.value.repository,
                          request.resource.value.pullRequest, request.resource.value.headCommit))
    else None
  }

  predicate SpentRow(row: PlanExecution, request: Request) {
    row.sessionId == request.sessionId && row.requestId == request.requestId
    && (request.operation.Merge? ==> row.mutationKey == KeyFor(request) && row.mutationKey.Some?)
  }

  ghost predicate ExecutionKept(rows: seq<PlanExecution>, request: Request) {
    exists i :: 0 <= i < |rows| && SpentRow(rows[i], request)
  }

  /** The store remembers every use the log has seen. */
  ghost predicate Remembered(db: Db, log: seq<Event>) {
    && (forall k :: 0 <= k < |log| && UsedApproval(log[k]) ==>
          var id := log[k].op.consumption.approvalId;
          id in db.approvals && db.approvals[id].consumedAt.Some?)
    && (forall k :: 0 <= k < |log| && UsedPlan(log[k]) ==> ExecutionKept(db.planExecutions, log[k].op.check.request))
  }

  predicate SameUse(one: Request, two: Request) {
    one.sessionId == two.sessionId
    && (one.requestId == two.requestId
        || (one.operation.Merge? && two.operation.Merge? && KeyFor(one) == KeyFor(two)))
  }

  /** No approval is used twice, and no request or mutation of a session is used twice under its plans. */
  ghost predicate UsedOnce(log: seq<Event>) {
    && (forall k, l :: 0 <= k < l < |log| && UsedApproval(log[k]) && UsedApproval(log[l]) ==>
          log[k].op.consumption.approvalId != log[l].op.consumption.approvalId)
    && (forall k, l :: 0 <= k < l < |log| && UsedPlan(log[k]) && UsedPlan(log[l]) ==>
          !SameUse(log[k].op.check.request, log[l].op.check.request))
  }

  /** A consumed approval stays consumed, and a plan execution stays. */
  ghost predicate UsesRemain(db: Db, after: Db) {
    && (forall id :: id in db.approvals && db.approvals[id].consumedAt.Some? ==>
          id in after.approvals && after.approvals[id].consumedAt.Some?)
    && db.planExecutions <= after.planExecutions
  }

  lemma SameUses(db: Db, after: Db)
    requires after.approvals == db.approvals && after.planExecutions == db.planExecutions
    ensures UsesRemain(db, after)
  {
  }

  lemma UseStays(db: Db, op: R.Op)
    ensures UsesRemain(db, R.Apply(db, op))
  {
    hide UsesRemain, R.Apply, R.Lifecycle, R.Worker, R.Audit, R.Budgeting, R.Planning, R.Approving, R.Context;
    R.Leaves(db, op);
    if R.IsPlan(op) { R.InPlanning(db, op); ExecutionsStay(db, op); }
    else if R.IsApproval(op) { R.InApproving(db, op); ApprovalsStay(db, op); }
    else { SameUses(db, R.Apply(db, op)); }
  }

  lemma ApprovalsStay(db: Db, op: R.Op)
    requires R.IsApproval(op)
    ensures UsesRemain(db, R.Approving(db, op))
  {
    hide Store.BoundConnection;
  }

  lemma ExecutionsStay(db: Db, op: R.Op)
    requires R.IsPlan(op)
    ensures UsesRemain(db, R.Planning(db, op))
  {
    hide Plans.Decide, Plans.Storable, Plans.Enqueue, Plans.Dequeue;
  }

  lemma KeptByPrefix(rows: seq<PlanExecution>, more: seq<PlanExecution>, request: Request)
    requires rows <= more && ExecutionKept(rows, request)
    ensures ExecutionKept(more, request)
  {
    var i :| 0 <= i < |rows| && SpentRow(rows[i], request);
    assert more[i] == rows[i];
  }

  /** Any other transaction leaves what the log has seen remembered. */
  lemma RememberedStays(db: Db, after: Db, log: seq<Event>)
    requires Remembered(db, log) && UsesRemain(db, after)
    ensures Remembered(after, log)
  {
    hide UsedApproval, UsedPlan, ExecutionKept;
    forall k | 0 <= k < |log| && UsedPlan(log[k]) ensures ExecutionKept(after.planExecutions, log[k].op.check.request) {
      KeptByPrefix(db.planExecutions, after.planExecutions, log[k].op.check.request);
    }
  }

  lemma ApprovalUse(e: Event)
    requires UsedApproval(e)
    ensures var id := e.op.consumption.approvalId;
            var after := R.Apply(e.before, e.op);
            && id in e.before.approvals && e.before.approvals[id].consumedAt.None?
            && id in after.approvals && after.approvals[id].consumedAt.Some?
  {
    hide R.Apply, Store.BoundConnection;
    R.InApproving(e.before, e.op);
  }

  lemma PlanUse(e: Event)
    requires UsedPlan(e)
    ensures ExecutionKept(R.Apply(e.before, e.op).planExecutions, e.op.check.request)
    ensures forall i :: 0 <= i < |e.before.planExecutions| ==>
              var row := e.before.planExecutions[i];
              row.sessionId == e.op.check.request.sessionId ==>
                && row.requestId != e.op.check.request.requestId
                && (e.op.check.request.operation.Merge? ==> row.mutationKey != KeyFor(e.op.check.request))
  {
    hide R.Apply, Plans.Covers, Plans.Enqueue, Plans.Dequeue;
    R.InPlanning(e.before, e.op);
    var db, check := e.before, e.op.check;
    var request := check.request;
    var verdict := Plans.Decide(db, check, e.op.now);
    assert Plans.KeyOf(verdict.target) == (if request.operation.Merge? then KeyFor(request) else None);
    assert R.Apply(db, e.op).planExecutions
        == Plans.ConsumePlan(db, check, verdict.index, verdict.target, e.op.now).planExecutions;
    assert SpentRow(R.Apply(db, e.op).planExecutions[|db.planExecutions|], request);
    forall i | 0 <= i < |db.planExecutions|
      ensures !Plans.Replays(db.planExecutions[i], request.sessionId, request.requestId, Plans.KeyOf(verdict.target))
    {
    }
  }

  lemma ApprovalFresh(db: Db, log: seq<Event>, e: Event, k: nat)
    requires Remembered(db, log) && e.Stored? && e.before == db && k < |log|
    requires UsedApproval(e) && UsedApproval(log[k])
    ensures log[k].op.consumption.approvalId != e.op.consumption.approvalId
  {
    hide UsedApproval, R.Apply;
    ApprovalUse(e);
  }

  lemma PlanFresh(db: Db, log: seq<Event>, e: Event, k: nat)
    requires Remembered(db, log) && e.Stored? && e.before == db && k < |log|
    requires UsedPlan(e) && UsedPlan(log[k])
    ensures !SameUse(log[k].op.check.request, e.op.check.request)
  {
    hide UsedPlan, R.Apply, KeyFor;
    PlanUse(e);
    var request := log[k].op.check.request;
    var i :| 0 <= i < |db.planExecutions| && SpentRow(db.planExecutions[i], request);
  }

  lemma OnceStep(db: Db, log: seq<Event>, e: Event)
    requires Remembered(db, log) && UsedOnce(log) && (e.Stored? ==> e.before == db)
    ensures UsedOnce(log + [e])
    ensures Remembered(if e.Stored? then R.Apply(db, e.op) else db, log + [e])
  {
    hide UsedApproval, UsedPlan, R.Apply, SameUse, ExecutionKept;
    var after := if e.Stored? then R.Apply(db, e.op) else db;
    if e.Stored? {
      UseStays(db, e.op);
      RememberedStays(db, after, log);
      if UsedApproval(e) { ApprovalUse(e); }
      if UsedPlan(e) { PlanUse(e); }
      forall k | 0 <= k < |log| && UsedApproval(log[k]) && UsedApproval(e)
        ensures log[k].op.consumption.approvalId != e.op.consumption.approvalId
      {
        ApprovalFresh(db, log, e, k);
      }
      forall k | 0 <= k < |log| && UsedPlan(log[k]) && UsedPlan(e)
        ensures !SameUse(log[k].op.check.request, e.op.check.request)
      {
        PlanFresh(db, log, e, k);
      }
    }
  }

  lemma WorldStep(w: World, move: Move)
    requires Remembered(w.db, w.log) && UsedOnce(w.log)
    ensures Remembered(Act(w, move).db, Act(w, move).log) && UsedOnce(Act(w, move).log)
  {
    hide Remembered, UsedOnce, Advance, R.Apply, Begin, Ask;
    match move
    case Elsewhere(op) =>
      UseStays(w.db, op);
      RememberedStays(w.db, R.Apply(w.db, op), w.log);
    case Start(_) =>
    case Proceed(i, c) =>
      if i < |w.runs| {
        var event := Emits(w.runs[i], i, w.db, c);
        if event.Some? { OnceStep(w.db, w.log, event.value); }
      }
  }

  lemma {:induction false} OnceReachable(moves: seq<Move>)
    ensures Remembered(Play(moves).db, Play(moves).log) && UsedOnce(Play(moves).log)
  {
    hide Remembered, UsedOnce, Act;
    if |moves| > 0 {
      OnceReachable(moves[..|moves| - 1]);
      WorldStep(Play(moves[..|moves| - 1]), moves[|moves| - 1]);
    } else {
      NothingUsed();
    }
  }

  lemma NothingUsed()
    ensures Remembered(EmptyDb, []) && UsedOnce([])
  {
  }

  /** In every interleaving an approval yields at most one merge request. */
  lemma OneMergePerApproval(moves: seq<Move>, k: nat, l: nat, a: nat, b: nat)
    requires var log := Play(moves).log;
             && k < |log| && l < |log| && a < |log| && b < |log|
             && log[k].MergeSent? && log[l].MergeSent?
             && UsedApproval(log[a]) && log[a].run == log[k].run
             && UsedApproval(log[b]) && log[b].run == log[l].run
             && log[a].op.consumption.approvalId == log[b].op.consumption.approvalId
    ensures k == l
  {
    hide Play, UsedApproval, Remembered;
    OnceReachable(moves);
    assert a == b;
    MergesOnce(moves, k, l);
  }

  /** In every interleaving one head commit is merged at most once under the plans of a session. */
  lemma OnePlannedMergePerHead(moves: seq<Move>, k: nat, l: nat, a: nat, b: nat)
    requires var w := Play(moves);
             var log := w.log;
             && k < |log| && l < |log| && a < |log| && b < |log|
             && log[k].MergeSent? && log[l].MergeSent? && log[a].run == log[k].run && log[b].run == log[l].run
             && log[k].run < |w.runs| && log[l].run < |w.runs|
             && var one, two := w.runs[log[k].run].Request(), w.runs[log[l].run].Request();
                TookPlan(log[a], one) && TookPlan(log[b], two)
                && one.sessionId == two.sessionId && KeyFor(one) == KeyFor(two)
    ensures k == l
  {
    hide Play, UsedApproval, Plans.CheckPlan, Remembered, KeyFor, Trace;
    OnceReachable(moves);
    MergeJustified(moves, k);
    MergeJustified(moves, l);
    RunsReachable(moves);
    var w := Play(moves);
    PlannedMergesMerge(w, k);
    PlannedMergesMerge(w, l);
    assert a == b;
    MergesOnce(moves, k, l);
  }

  lemma PlannedMergesMerge(w: World, k: nat)
    requires RunsKept(w) && k < |w.log| && w.log[k].MergeSent?
    ensures w.log[k].run < |w.runs| && w.runs[w.log[k].run].Request().operation.Merge?
  {
    hide Trace, Staged, Backed, DecisionsSound, HasTool, HasAuthority;
    var p := TraceAt(w.log, k);
    assert Justified(Trace(w.log, w.log[k].run), p, w.runs[w.log[k].run].Request());
  }

  /**
   * In every interleaving a run stores at most one decision, for its own attempt, which the store had
   * committed before it. A run that performed has an "allowed" decision; a run that answered anything else
   * but "audit unavailable" has the decision it answered with, or had not attempted anything and says one of
   * three early refusals. No stored decision claims a consumption that did not happen or denies a request
   * that was sent.
   */
  lemma DecisionRecords(moves: seq<Move>, i: nat)
    requires i < |Play(moves).runs|
    ensures var run := Play(moves).runs[i];
            var trace := Trace(Play(moves).log, i);
            && (forall k, l :: 0 <= k < l < |trace| ==> !(Decided(trace[k]) && Decided(trace[l])))
            && (forall k :: 0 <= k < |trace| && Decided(trace[k]) ==>
                  && Truthful(trace[k].op.decision, trace, run.Request())
                  && trace[k].op.decision.attemptId == run.input.attemptId
                  && trace[k].op.decision.sessionId == run.Request().sessionId
                  && HasAttempt(trace[..k], run.input.attemptId))
            && (run.pc == Done(Performed) ==>
                  exists k :: 0 <= k < |trace| && Decided(trace[k]) && trace[k].op.decision.control == ControlAllowed)
            && (run.pc.Done? && run.pc.result != Refused(AuditUnavailable) ==>
                  (NoAttempt(trace) && NoDecision(trace) && Early(run.pc.result)) || Answered(trace, run.pc.result))
  {
    hide Play, Trace, Staged, Backed, MergesSound, Truthful;
    RunsReachable(moves);
    var run, trace := Play(moves).runs[i], Trace(Play(moves).log, i);
    forall k | 0 <= k < |trace| && Decided(trace[k])
      ensures trace[k].op.decision.attemptId == run.input.attemptId
      ensures trace[k].op.decision.sessionId == run.Request().sessionId
      ensures HasAttempt(trace[..k], run.input.attemptId) && !NoAttempt(trace)
    {
      assert OwnRecord(trace, k, run);
      var j :| 0 <= j < k && OpenedAttempt(trace[..k][j], run.input.attemptId);
      assert Attempted(trace[j]);
    }
  }

  /** In every interleaving a run past the guardian's answer has a floor that lets its operation pass. */
  lemma FloorsPermit(moves: seq<Move>, i: nat)
    requires i < |Play(moves).runs| && PastGuardian(Play(moves).runs[i].pc)
    ensures var run := Play(moves).runs[i];
            run.floor == LevelAllow || (run.input.request.operation.Merge? && run.floor == LevelConfirm)
  {
    hide Play, Trace, Backed, MergesSound, DecisionsSound;
    RunsReachable(moves);
  }
}
