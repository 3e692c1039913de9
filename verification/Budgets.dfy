/** Budget conservation: every unit a session was granted is still there or accounted for by a row. */
module Budgets {
  import opened Records
  import opened Rows
  import opened Runs
  import Store
  import Plans

  predicate KnownApprovals(rows: map<Id, ApprovalRow>, known: set<Id>) {
    forall id :: id in rows ==> rows[id].approval.approvalId == id && rows[id].approval.sessionId in known
  }
  predicate KnownReservations(rows: seq<Reservation>, known: set<Id>) {
    forall i :: 0 <= i < |rows| ==> rows[i].sessionId in known
  }
  predicate KnownExecutions(rows: seq<Execution>, known: set<Id>) {
    forall i :: 0 <= i < |rows| ==> rows[i].sessionId in known
  }
  predicate KnownEvents(rows: seq<BoundaryEvent>, known: set<Id>) {
    forall i :: 0 <= i < |rows| ==> rows[i].sessionId in known
  }
  predicate KnownAudit(rows: seq<AuditRow>, known: set<Id>) {
    forall i :: 0 <= i < |rows| ==> rows[i].sessionId in known
  }
  predicate KnownPlans(rows: seq<PlanRow>, known: set<Id>) {
    forall i :: 0 <= i < |rows| ==> rows[i].grant.plan.sessionId in known
  }
  predicate KnownPlanExecutions(rows: seq<PlanExecution>, known: set<Id>) {
    forall i :: 0 <= i < |rows| ==> rows[i].sessionId in known
  }
  predicate KnownPending(rows: seq<PendingRow>, known: set<Id>) {
    forall r :: r in rows ==> r.sessionId in known
  }

  /** Referential integrity: one budget per session, and no row without its session. */
  predicate Linked(db: Db) {
    var known := db.sessions.Keys;
    && db.budgets.Keys == known
    && KnownApprovals(db.approvals, known) && KnownReservations(db.reservations, known)
    && KnownExecutions(db.executions, known) && KnownEvents(db.events, known) && KnownAudit(db.audit, known)
    && KnownPlans(db.plans, known) && KnownPlanExecutions(db.planExecutions, known)
    && KnownPending(db.pending, known)
  }

  lemma LinkedLifecycle(db: Db, op: Op)
    requires Linked(db) && IsLifecycle(op)
    ensures Linked(Lifecycle(db, op)) && db.sessions.Keys <= Lifecycle(db, op).sessions.Keys
  {
  }

  lemma LinkedDeny(
    db: Db, sid: Id, boundaryId: Id, digest: Digest, code: ViolationCode, eventId: Id, now: Time)
    requires Linked(db)
    ensures var after := Store.Deny(db, sid, boundaryId, digest, code, eventId, now).After(db);
            Linked(after) && after.sessions.Keys == db.sessions.Keys
  {
    hide Store.Revokes, Store.EventRecorded;
  }

  lemma LinkedConsume(
    db: Db, sid: Id, executionId: Id, digest: Digest, tool: Tool, eventId: Id, now: Time)
    requires Linked(db)
    ensures var after := Store.ConsumeExecution(db, sid, executionId, digest, tool, eventId, now).After(db);
            Linked(after) && after.sessions.Keys == db.sessions.Keys
  {
    hide Store.Deny, Store.Replayed;
    var replay := Store.Replayed(db.executions, sid, executionId, digest);
    LinkedDeny(db, sid, executionId, digest, if replay then ExecutionReplay else VolumeExhausted, eventId, now);
  }

  lemma LinkedWorker(db: Db, op: Op)
    requires Linked(db) && IsWorker(op)
    ensures Linked(Worker(db, op)) && Worker(db, op).sessions.Keys == db.sessions.Keys
  {
    hide Store.Deny, Store.ConsumeExecution, Store.EventRecorded, Store.ClockReached;
    match op
    case ConsumeExecution(sid, id, digest, tool, eventId, now) => LinkedConsume(db, sid, id, digest, tool, eventId, now);
    case RecordViolation(sid, id, digest, code, eventId, now) => LinkedDeny(db, sid, id, digest, code, eventId, now);
    case InterruptWorkerSession(_, _, _, _, _, _) =>
  }

  lemma LinkedAudit(db: Db, op: Op)
    requires Linked(db) && IsAudit(op)
    ensures Linked(Audit(db, op)) && Audit(db, op).sessions.Keys == db.sessions.Keys
  {
    hide Store.ClockReached, Store.CanAppend, Store.CanClose, Store.NextSequence;
  }

  lemma LinkedBudgeting(db: Db, op: Op)
    requires Linked(db) && IsBudget(op)
    ensures Linked(Budgeting(db, op))
  {
  }

  lemma LinkedPlanning(db: Db, op: Op)
    requires Linked(db) && IsPlan(op)
    ensures Linked(Planning(db, op))
  {
    hide Plans.Covers, Plans.Decide;
  }

  lemma LinkedApproving(db: Db, op: Op)
    requires Linked(db) && IsApproval(op)
    ensures Linked(Approving(db, op))
  {
  }

  lemma LinkedContext(db: Db, op: Op)
    requires Linked(db)
    ensures Linked(Context(db, op))
  {
    hide Store.AppendExposures, Store.AppendAttempt, Store.AppendDecision;
  }

  lemma LinkedStep(db: Db, op: Op)
    requires Linked(db)
    ensures Linked(Apply(db, op))
    ensures db.sessions.Keys <= Apply(db, op).sessions.Keys
  {
    hide Linked, Apply, Lifecycle, Worker, Audit, Budgeting, Planning, Approving, Context;
    Leaves(db, op);
    if IsLifecycle(op) { InLifecycle(db, op); LinkedLifecycle(db, op); }
    else if IsWorker(op) { InWorker(db, op); LinkedWorker(db, op); }
    else if IsAudit(op) { InAudit(db, op); LinkedAudit(db, op); }
    else if IsBudget(op) { InBudgeting(db, op); LinkedBudgeting(db, op); }
    else if IsPlan(op) { InPlanning(db, op); LinkedPlanning(db, op); }
    else if IsApproval(op) { InApproving(db, op); LinkedApproving(db, op); }
    else { InContext(db, op); LinkedContext(db, op); }
  }

  /** The CHECK constraints of the schema, and "settled" meaning "accepted count recorded". */
  predicate Sound(db: Db) {
    && (forall sid :: sid in db.budgets ==>
          db.budgets[sid].toolCalls >= 0 && db.budgets[sid].localCommands >= 0
          && db.budgets[sid].researchRequests >= 0 && db.budgets[sid].researchResults >= 0)
    && (forall i :: 0 <= i < |db.reservations| ==> SoundReservation(db.reservations[i]))
  }

  predicate SoundReservation(row: Reservation) {
    && row.reserved > 0 && (row.accepted.Some? <==> row.settledAt.Some?)
    && (row.accepted.Some? ==> 0 <= row.accepted.value <= row.reserved)
  }

  lemma SoundWorker(db: Db, op: Op)
    requires Sound(db) && IsWorker(op)
    ensures Sound(Worker(db, op))
  {
    hide Store.Deny, Store.RecordViolation, Store.InterruptWorkerSession, Store.Replayed;
  }

  lemma SoundBudgeting(db: Db, op: Op)
    requires Sound(db) && IsBudget(op)
    ensures Sound(Budgeting(db, op))
  {
    hide Store.Open, Store.ReservationRecorded;
  }

  lemma SoundLifecycle(db: Db, op: Op)
    requires Sound(db) && IsLifecycle(op)
    ensures Sound(Lifecycle(db, op))
  {
  }

  lemma SameSound(db: Db, after: Db)
    requires Sound(db) && after.budgets == db.budgets && after.reservations == db.reservations
    ensures Sound(after)
  {
  }

  lemma SoundStep(db: Db, op: Op)
    requires Sound(db)
    ensures Sound(Apply(db, op))
  {
    hide Sound, Apply, Lifecycle, Worker, Audit, Budgeting, Planning, Approving, Context;
    Leaves(db, op);
    if IsLifecycle(op) { InLifecycle(db, op); SoundLifecycle(db, op); }
    else if IsWorker(op) { InWorker(db, op); SoundWorker(db, op); }
    else if IsBudget(op) { InBudgeting(db, op); SoundBudgeting(db, op); }
    else { SameSound(db, Apply(db, op)); }
  }

  // ---- what each row accounts for

  /** Results a reservation keeps: all it reserved while open, what was accepted once settled. */
  function ResultsHeld(sid: Id): Reservation -> int {
    (r: Reservation) => if r.sessionId != sid then 0 else if r.accepted.Some? then r.accepted.value else r.reserved
  }

  function RequestsHeld(sid: Id): Reservation -> int {
    (r: Reservation) => if r.sessionId == sid then 1 else 0
  }

  function CommandsRun(sid: Id): Execution -> int {
    (e: Execution) => if e.sessionId == sid && e.tool == LocalCommandTool then 1 else 0
  }

  function CallsMade(sid: Id): Execution -> int {
    (e: Execution) => if e.sessionId == sid && e.tool != ExternalTool then 1 else 0
  }

  /** Remaining units plus everything the rows of the session account for. */
  function Accounted(db: Db, sid: Id): Budget
    requires sid in db.budgets
  {
    var left := db.budgets[sid];
    Budget(
      left.toolCalls + Sum(db.executions, CallsMade(sid)) + Sum(db.reservations, RequestsHeld(sid)),
      left.localCommands + Sum(db.executions, CommandsRun(sid)),
      left.researchRequests + Sum(db.reservations, RequestsHeld(sid)),
      left.researchResults + Sum(db.reservations, ResultsHeld(sid)))
  }

  /** A broker tool call leaves no row; it is known only from the transaction that took it. */
  predicate TakesToolCall(db: Db, op: Op, sid: Id) {
    op.ConsumeToolCall? && op.sid == sid && Store.ConsumeToolCall(db, sid, op.now).value.Some?
  }

  function Taken(db: Db, ops: seq<Op>, sid: Id): nat {
    if |ops| == 0 then 0
    else
      var before := ops[..|ops| - 1];
      Taken(db, before, sid) + if TakesToolCall(Run(db, before), ops[|ops| - 1], sid) then 1 else 0
  }

  lemma ConservedByConsume(
    db: Db, sid: Id, executionId: Id, digest: Digest, tool: Tool, eventId: Id, now: Time, other: Id)
    requires other in db.budgets
    ensures var after := Store.ConsumeExecution(db, sid, executionId, digest, tool, eventId, now).After(db);
            other in after.budgets && Accounted(after, other) == Accounted(db, other)
  {
    hide Store.Deny, Store.Replayed, Store.Unavailable, Store.Noticed;
    var row := Execution(executionId, sid, digest, tool, now);
    SumAppend(db.executions, row, CallsMade(other));
    SumAppend(db.executions, row, CommandsRun(other));
  }

  lemma ConservedByWorker(db: Db, op: Op, sid: Id)
    requires IsWorker(op) && sid in db.budgets
    ensures sid in Worker(db, op).budgets && Accounted(Worker(db, op), sid) == Accounted(db, sid)
  {
    hide Store.ConsumeExecution, Store.RecordViolation, Store.InterruptWorkerSession;
    if op.ConsumeExecution? {
      ConservedByConsume(db, op.sid, op.executionId, op.digest, op.tool, op.eventId, op.now, sid);
    }
  }

  lemma ConservedByReserve(db: Db, sid: Id, requested: int, reservationId: Id, now: Time, other: Id)
    requires other in db.budgets
    ensures var after := Store.ReserveResearch(db, sid, requested, reservationId, now).After(db);
            other in after.budgets && Accounted(after, other) == Accounted(db, other)
  {
    var row := Reservation(reservationId, sid, requested, None, None);
    SumAppend(db.reservations, row, RequestsHeld(other));
    SumAppend(db.reservations, row, ResultsHeld(other));
  }

  lemma ConservedBySettle(db: Db, reservationId: Id, sid: Id, accepted: int, now: Time, other: Id)
    requires Sound(db) && other in db.budgets
    ensures var after := Store.SettleResearch(db, reservationId, sid, accepted, now).After(db);
            other in after.budgets && Accounted(after, other) == Accounted(db, other)
  {
    var rows := db.reservations;
    var at := Store.FindReservation(rows, reservationId, sid);
    if at >= 0 {
      var row := rows[at].(accepted := Some(accepted), settledAt := Some(now));
      SumUpdate(rows, at, row, RequestsHeld(other));
      SumUpdate(rows, at, row, ResultsHeld(other));
    }
  }

  lemma ConservedByBudgeting(db: Db, op: Op, sid: Id)
    requires Sound(db) && IsBudget(op) && sid in db.budgets
    ensures sid in Budgeting(db, op).budgets
    ensures Accounted(Budgeting(db, op), sid)
         == Accounted(db, sid).(toolCalls := Accounted(db, sid).toolCalls - if TakesToolCall(db, op, sid) then 1 else 0)
  {
    hide Store.ReserveResearch, Store.SettleResearch;
    match op
    case ConsumeToolCall(_, _) =>
    case ReserveResearch(s, requested, id, now) => ConservedByReserve(db, s, requested, id, now, sid);
    case SettleResearch(id, s, accepted, now) => ConservedBySettle(db, id, s, accepted, now, sid);
  }

  lemma ConservedByLifecycle(db: Db, op: Op, sid: Id)
    requires Linked(db) && IsLifecycle(op) && sid in db.sessions
    ensures sid in Lifecycle(db, op).budgets && Accounted(Lifecycle(db, op), sid) == Accounted(db, sid)
  {
  }

  /** No transaction creates or destroys budget: only a broker tool call leaves the accounted total. */
  lemma ConservedByStep(db: Db, op: Op, sid: Id)
    requires Linked(db) && Sound(db) && sid in db.sessions
    ensures sid in Apply(db, op).budgets
    ensures Accounted(Apply(db, op), sid)
         == Accounted(db, sid).(toolCalls := Accounted(db, sid).toolCalls - if TakesToolCall(db, op, sid) then 1 else 0)
  {
    hide Sound, Accounted, TakesToolCall, Apply, Lifecycle, Worker, Audit, Budgeting, Planning, Approving, Context;
    OnlyBudgetsTake(db, op, sid);
    Leaves(db, op);
    if IsLifecycle(op) { InLifecycle(db, op); ConservedByLifecycle(db, op, sid); }
    else if IsWorker(op) { InWorker(db, op); ConservedByWorker(db, op, sid); }
    else if IsBudget(op) { InBudgeting(db, op); ConservedByBudgeting(db, op, sid); }
    else { SameAccounted(db, Apply(db, op), sid); }
  }

  lemma OnlyBudgetsTake(db: Db, op: Op, sid: Id)
    ensures TakesToolCall(db, op, sid) ==> IsBudget(op)
  {
  }

  lemma SameAccounted(db: Db, after: Db, sid: Id)
    requires sid in db.budgets && after.budgets == db.budgets
    requires after.executions == db.executions && after.reservations == db.reservations
    ensures Accounted(after, sid) == Accounted(db, sid)
  {
  }

  lemma LifecycleAdds(db: Db, op: Op, sid: Id)
    requires IsLifecycle(op) && sid !in db.sessions && sid in Lifecycle(db, op).sessions
    ensures op.CreateSession? && op.sid == sid && Store.ValidBudget(op.budget)
    ensures sid in Lifecycle(db, op).budgets && Lifecycle(db, op).budgets[sid] == op.budget
  {
  }

  lemma OnlyCreationAdds(db: Db, op: Op, sid: Id)
    requires Linked(db) && sid !in db.sessions && sid in Apply(db, op).sessions
    ensures op.CreateSession? && op.sid == sid && Store.ValidBudget(op.budget)
    ensures Apply(db, op).executions == db.executions && Apply(db, op).reservations == db.reservations
    ensures sid in Apply(db, op).budgets && Apply(db, op).budgets[sid] == op.budget
  {
    hide Linked, Apply, Lifecycle, Worker, Audit, Budgeting, Planning, Approving, Context;
    Leaves(db, op);
    if IsLifecycle(op) { InLifecycle(db, op); LifecycleAdds(db, op, sid); }
    else if IsWorker(op) { InWorker(db, op); LinkedWorker(db, op); }
    else if IsAudit(op) { InAudit(db, op); LinkedAudit(db, op); }
  }

  /** A session enters with exactly the budget it was granted: no row mentions it yet. */
  lemma GrantedOnCreation(db: Db, op: Op, sid: Id)
    requires Linked(db) && sid !in db.sessions && sid in Apply(db, op).sessions
    ensures op.CreateSession? && op.sid == sid && Store.ValidBudget(op.budget)
    ensures sid in Apply(db, op).budgets && Accounted(Apply(db, op), sid) == op.budget
  {
    hide Apply;
    OnlyCreationAdds(db, op, sid);
    SumZero(db.executions, CallsMade(sid));
    SumZero(db.executions, CommandsRun(sid));
    SumZero(db.reservations, RequestsHeld(sid));
    SumZero(db.reservations, ResultsHeld(sid));
  }

  /** The budget of the transaction that created the session. */
  function Granted(ops: seq<Op>, sid: Id): Option<Budget> {
    if |ops| == 0 then None
    else
      var before := ops[..|ops| - 1];
      if sid in Run(EmptyDb, before).sessions then Granted(before, sid)
      else if ops[|ops| - 1].CreateSession? then Some(ops[|ops| - 1].budget) else None
  }

  lemma {:induction false} ReachableSound(ops: seq<Op>)
    ensures Linked(Run(EmptyDb, ops)) && Sound(Run(EmptyDb, ops))
  {
    hide Apply;
    if |ops| > 0 {
      ReachableSound(ops[..|ops| - 1]);
      LinkedStep(Run(EmptyDb, ops[..|ops| - 1]), ops[|ops| - 1]);
      SoundStep(Run(EmptyDb, ops[..|ops| - 1]), ops[|ops| - 1]);
    }
  }

  /** In every reachable state the four counters and the rows add up to the grant, and none is negative. */
  lemma {:induction false} BudgetConserved(ops: seq<Op>, sid: Id)
    requires sid in Run(EmptyDb, ops).sessions
    ensures var db := Run(EmptyDb, ops);
            && sid in db.budgets && Granted(ops, sid).Some? && Store.ValidBudget(Granted(ops, sid).value)
            && var granted := Granted(ops, sid).value;
               var left := db.budgets[sid];
               && granted.toolCalls == left.toolCalls + Taken(EmptyDb, ops, sid)
                    + Sum(db.executions, CallsMade(sid)) + Sum(db.reservations, RequestsHeld(sid))
               && granted.localCommands == left.localCommands + Sum(db.executions, CommandsRun(sid))
               && granted.researchRequests == left.researchRequests + Sum(db.reservations, RequestsHeld(sid))
               && granted.researchResults == left.researchResults + Sum(db.reservations, ResultsHeld(sid))
               && left.toolCalls >= 0 && left.localCommands >= 0
               && left.researchRequests >= 0 && left.researchResults >= 0
  {
    hide Apply;
    var before, op := ops[..|ops| - 1], ops[|ops| - 1];
    var db := Run(EmptyDb, before);
    ReachableSound(before);
    ReachableSound(ops);
    if sid in db.sessions {
      BudgetConserved(before, sid);
      ConservedByStep(db, op, sid);
    } else {
      GrantedOnCreation(db, op, sid);
      NothingTakenBefore(before, sid);
    }
  }

  lemma {:induction false} NothingTakenBefore(ops: seq<Op>, sid: Id)
    requires sid !in Run(EmptyDb, ops).sessions
    ensures Taken(EmptyDb, ops, sid) == 0
  {
    hide Apply;
    if |ops| > 0 {
      var before := ops[..|ops| - 1];
      ReachableSound(before);
      LinkedStep(Run(EmptyDb, before), ops[|ops| - 1]);
      NothingTakenBefore(before, sid);
    }
  }
}
