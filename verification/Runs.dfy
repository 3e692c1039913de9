/** Unbounded runs: any sequence of transactions from any clients, in commit order. */
module Runs {
  import opened Records
  import Store
  import Plans

  datatype Op =
    | CreateConnection(connectionId: Id, connection: Connection)
    | RevokeConnection(connectionId: Id)
    | CreateSession(sid: Id, session: Session, budget: Budget, connectionIds: seq<Id>)
    | InterruptActiveSessions(now: Time)
    | ConsumeToolCall(sid: Id, now: Time)
    | ConsumeExecution(sid: Id, executionId: Id, digest: Digest, tool: Tool, eventId: Id, now: Time)
    | RecordViolation(sid: Id, boundaryId: Id, digest: Digest, code: ViolationCode, eventId: Id, now: Time)
    | InterruptWorkerSession(sid: Id, boundaryId: Id, digest: Digest, failure: FailureCode, eventId: Id, now: Time)
    | RecordAudit(sid: Id, boundaryId: Id, digest: Digest, detail: nat, eventId: Id, now: Time)
    | CompleteWorkerSession(
        sid: Id, boundaryId: Id, digest: Digest, resultDigest: Digest, firstId: Id, secondId: Id, now: Time)
    | AppendAuditEvent(row: AuditRow)
    | ReserveResearch(sid: Id, requested: int, reservationId: Id, now: Time)
    | SettleResearch(reservationId: Id, sid: Id, accepted: int, now: Time)
    | StorePlan(grant: Grant, now: Time)
    | RevokePlan(sid: Id, grantId: Id, now: Time)
    | CheckPlan(check: Plans.PlanCheck, now: Time)
    | StoreApproval(approval: Approval)
    | ConsumeApproval(consumption: Store.Consumption, now: Time)
    | AppendExposures(batch: seq<Store.NewExposure>)
    | AppendAttempt(attempt: Attempt)
    | AppendDecision(decision: Decision)

  // The transactions by the tables they write. Each group leaves every other table alone.

  predicate IsLifecycle(op: Op) {
    op.CreateConnection? || op.RevokeConnection? || op.CreateSession? || op.InterruptActiveSessions?
  }
  predicate IsWorker(op: Op) { op.ConsumeExecution? || op.RecordViolation? || op.InterruptWorkerSession? }
  predicate IsAudit(op: Op) { op.RecordAudit? || op.CompleteWorkerSession? || op.AppendAuditEvent? }
  predicate IsBudget(op: Op) { op.ConsumeToolCall? || op.ReserveResearch? || op.SettleResearch? }
  predicate IsPlan(op: Op) { op.StorePlan? || op.RevokePlan? || op.CheckPlan? }
  predicate IsApproval(op: Op) { op.StoreApproval? || op.ConsumeApproval? }
  predicate IsContext(op: Op) { op.AppendExposures? || op.AppendAttempt? || op.AppendDecision? }

  function Lifecycle(db: Db, op: Op): (after: Db)
    requires IsLifecycle(op)
    ensures after == db.(sessions := after.sessions, budgets := after.budgets,
                         connections := after.connections, bindings := after.bindings)
  {
    match op
    case CreateConnection(id, connection) => Store.CreateConnection(db, id, connection).After(db)
    case RevokeConnection(id) => Store.RevokeConnection(db, id).After(db)
    case CreateSession(sid, session, budget, ids) => Store.CreateSession(db, sid, session, budget, ids).After(db)
    case InterruptActiveSessions(now) => Store.InterruptActiveSessions(db, now).After(db)
  }

  function Worker(db: Db, op: Op): (after: Db)
    requires IsWorker(op)
    ensures after == db.(sessions := after.sessions, budgets := after.budgets,
                         executions := after.executions, events := after.events)
  {
    match op
    case ConsumeExecution(sid, id, digest, tool, eventId, now) =>
      Store.ConsumeExecution(db, sid, id, digest, tool, eventId, now).After(db)
    case RecordViolation(sid, id, digest, code, eventId, now) =>
      Store.RecordViolation(db, sid, id, digest, code, eventId, now).After(db)
    case InterruptWorkerSession(sid, id, digest, failure, eventId, now) =>
      Store.InterruptWorkerSession(db, sid, id, digest, failure, eventId, now).After(db)
  }

  function Audit(db: Db, op: Op): (after: Db)
    requires IsAudit(op)
    ensures after == db.(sessions := after.sessions, audit := after.audit)
  {
    match op
    case RecordAudit(sid, id, digest, detail, eventId, now) =>
      Store.RecordAudit(db, sid, id, digest, detail, eventId, now).After(db)
    case CompleteWorkerSession(sid, id, digest, result, first, second, now) =>
      Store.CompleteWorkerSession(db, sid, id, digest, result, first, second, now).After(db)
    case AppendAuditEvent(row) => Store.AppendAuditEvent(db, row).After(db)
  }

  function Budgeting(db: Db, op: Op): (after: Db)
    requires IsBudget(op)
    ensures after == db.(budgets := after.budgets, reservations := after.reservations)
  {
    match op
    case ConsumeToolCall(sid, now) => Store.ConsumeToolCall(db, sid, now).After(db)
    case ReserveResearch(sid, requested, id, now) => Store.ReserveResearch(db, sid, requested, id, now).After(db)
    case SettleResearch(id, sid, accepted, now) => Store.SettleResearch(db, id, sid, accepted, now).After(db)
  }

  function Planning(db: Db, op: Op): (after: Db)
    requires IsPlan(op)
    ensures after == db.(plans := after.plans, planExecutions := after.planExecutions, pending := after.pending)
  {
    match op
    case StorePlan(grant, now) => Plans.StorePlan(db, grant, now).After(db)
    case RevokePlan(sid, grantId, now) => Plans.RevokePlan(db, sid, grantId, now).After(db)
    case CheckPlan(check, now) => Plans.CheckPlan(db, check, now).After(db)
  }

  function Approving(db: Db, op: Op): (after: Db)
    requires IsApproval(op)
    ensures after == db.(approvals := after.approvals)
  {
    match op
    case StoreApproval(approval) => Store.StoreApproval(db, approval).After(db)
    case ConsumeApproval(consumption, now) => Store.ConsumeApproval(db, consumption, now).After(db)
  }

  function Context(db: Db, op: Op): (after: Db)
    ensures after == db.(exposures := after.exposures, attempts := after.attempts, decisions := after.decisions)
  {
    match op
    case AppendExposures(batch) => Store.AppendExposures(db, batch).After(db)
    case AppendAttempt(attempt) => Store.AppendAttempt(db, attempt).After(db)
    case AppendDecision(decision) => Store.AppendDecision(db, decision).After(db)
    case _ => db
  }

  function Apply(db: Db, op: Op): Db {
    if IsLifecycle(op) then Lifecycle(db, op)
    else if IsWorker(op) then Worker(db, op)
    else if IsAudit(op) then Audit(db, op)
    else if IsBudget(op) then Budgeting(db, op)
    else if IsPlan(op) then Planning(db, op)
    else if IsApproval(op) then Approving(db, op)
    else Context(db, op)
  }

  /** Which tables a transaction leaves exactly as they were. */
  predicate Untouched(op: Op, db: Db, after: Db) {
    && (!IsLifecycle(op) ==> after.connections == db.connections && after.bindings == db.bindings)
    && (!IsLifecycle(op) && !IsWorker(op) && !IsAudit(op) ==> after.sessions == db.sessions)
    && (!IsLifecycle(op) && !IsWorker(op) && !IsBudget(op) ==> after.budgets == db.budgets)
    && (!IsWorker(op) ==> after.executions == db.executions && after.events == db.events)
    && (!IsAudit(op) ==> after.audit == db.audit)
    && (!IsBudget(op) ==> after.reservations == db.reservations)
    && (!IsPlan(op) ==> after.plans == db.plans && after.planExecutions == db.planExecutions && after.pending == db.pending)
    && (!IsApproval(op) ==> after.approvals == db.approvals)
    && (!IsContext(op) ==>
          after.exposures == db.exposures && after.attempts == db.attempts && after.decisions == db.decisions)
  }

  lemma InLifecycle(db: Db, op: Op)
    requires IsLifecycle(op)
    ensures Apply(db, op) == Lifecycle(db, op) && Untouched(op, db, Apply(db, op))
  {
    hide Lifecycle, Worker, Audit, Budgeting, Planning, Approving, Context;
  }

  lemma InWorker(db: Db, op: Op)
    requires IsWorker(op)
    ensures Apply(db, op) == Worker(db, op) && Untouched(op, db, Apply(db, op))
  {
    hide Lifecycle, Worker, Audit, Budgeting, Planning, Approving, Context;
  }

  lemma InAudit(db: Db, op: Op)
    requires IsAudit(op)
    ensures Apply(db, op) == Audit(db, op) && Untouched(op, db, Apply(db, op))
  {
    hide Lifecycle, Worker, Audit, Budgeting, Planning, Approving, Context;
  }

  lemma InBudgeting(db: Db, op: Op)
    requires IsBudget(op)
    ensures Apply(db, op) == Budgeting(db, op) && Untouched(op, db, Apply(db, op))
  {
    hide Lifecycle, Worker, Audit, Budgeting, Planning, Approving, Context;
  }

  lemma InPlanning(db: Db, op: Op)
    requires IsPlan(op)
    ensures Apply(db, op) == Planning(db, op) && Untouched(op, db, Apply(db, op))
  {
    hide Lifecycle, Worker, Audit, Budgeting, Planning, Approving, Context;
  }

  lemma InApproving(db: Db, op: Op)
    requires IsApproval(op)
    ensures Apply(db, op) == Approving(db, op) && Untouched(op, db, Apply(db, op))
  {
    hide Lifecycle, Worker, Audit, Budgeting, Planning, Approving, Context;
  }

  lemma InContext(db: Db, op: Op)
    requires IsContext(op)
    ensures Apply(db, op) == Context(db, op) && Untouched(op, db, Apply(db, op))
  {
    hide Lifecycle, Worker, Audit, Budgeting, Planning, Approving, Context;
  }

  /** Every transaction leaves the tables of the other groups alone. */
  lemma Leaves(db: Db, op: Op)
    ensures Untouched(op, db, Apply(db, op))
  {
    hide Apply, Untouched;
    if IsLifecycle(op) { InLifecycle(db, op); }
    else if IsWorker(op) { InWorker(db, op); }
    else if IsAudit(op) { InAudit(db, op); }
    else if IsBudget(op) { InBudgeting(db, op); }
    else if IsPlan(op) { InPlanning(db, op); }
    else if IsApproval(op) { InApproving(db, op); }
    else { InContext(db, op); }
  }

  function Run(db: Db, ops: seq<Op>): Db {
    if |ops| == 0 then db else Apply(Run(db, ops[..|ops| - 1]), ops[|ops| - 1])
  }
}
