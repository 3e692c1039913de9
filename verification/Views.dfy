/** The rows keyed by one session, and which transactions can change them. */
module Views {
  import opened Records
  import opened Rows
  import opened Runs
  import Store
  import Plans

  /** Every row keyed by one session. */
  datatype View = View(
    session: Option<Session>, budget: Option<Budget>, connectionIds: set<Id>, approvals: map<Id, ApprovalRow>,
    reservations: seq<Reservation>, executions: seq<Execution>, events: seq<BoundaryEvent>, audit: seq<AuditRow>,
    plans: seq<PlanRow>, planExecutions: seq<PlanExecution>, pending: seq<PendingRow>,
    exposures: map<Id, Exposure>, attempts: map<Id, Attempt>, decisions: seq<Decision>)

  function Lookup<V>(table: map<Id, V>, id: Id): Option<V> { if id in table then Some(table[id]) else None }

  function OfReservation(sid: Id): Reservation -> bool { (r: Reservation) => r.sessionId == sid }
  function OfExecution(sid: Id): Execution -> bool { (e: Execution) => e.sessionId == sid }
  function OfEvent(sid: Id): BoundaryEvent -> bool { (e: BoundaryEvent) => e.sessionId == sid }
  function OfAudit(sid: Id): AuditRow -> bool { (a: AuditRow) => a.sessionId == sid }
  function OfPlan(sid: Id): PlanRow -> bool { (p: PlanRow) => p.grant.plan.sessionId == sid }
  function OfPlanExecution(sid: Id): PlanExecution -> bool { (e: PlanExecution) => e.sessionId == sid }
  function OfPending(sid: Id): PendingRow -> bool { (p: PendingRow) => p.sessionId == sid }
  function OfDecision(sid: Id): Decision -> bool { (d: Decision) => d.sessionId == sid }

  function ApprovalsOf(rows: map<Id, ApprovalRow>, sid: Id): map<Id, ApprovalRow> {
    map id | id in rows && rows[id].approval.sessionId == sid :: rows[id]
  }

  function ViewOf(db: Db, sid: Id): View {
    View(
      Lookup(db.sessions, sid), Lookup(db.budgets, sid),
      set b | b in db.bindings && b.0 == sid :: b.1,
      ApprovalsOf(db.approvals, sid),
      Where(db.reservations, OfReservation(sid)),
      Where(db.executions, OfExecution(sid)),
      Where(db.events, OfEvent(sid)),
      Where(db.audit, OfAudit(sid)),
      Where(db.plans, OfPlan(sid)),
      Where(db.planExecutions, OfPlanExecution(sid)),
      Where(db.pending, OfPending(sid)),
      map id | id in db.exposures && db.exposures[id].sessionId == sid :: db.exposures[id],
      map id | id in db.attempts && db.attempts[id].sessionId == sid :: db.attempts[id],
      Where(db.decisions, OfDecision(sid)))
  }

  /** The rows of interest are the same, wherever other rows were added or rewritten. */
  ghost predicate Fixed<T(!new)>(before: seq<T>, after: seq<T>, mine: T -> bool) {
    && |before| <= |after|
    && (forall i :: 0 <= i < |before| ==> after[i] == before[i] || (!mine(before[i]) && !mine(after[i])))
    && (forall i :: |before| <= i < |after| ==> !mine(after[i]))
  }

  lemma {:induction false} FixedSelects<T(!new)>(before: seq<T>, after: seq<T>, mine: T -> bool)
    requires Fixed(before, after, mine)
    ensures Where(after, mine) == Where(before, mine)
  {
    if |after| > 0 {
      var last := |after| - 1;
      assert after == after[..last] + [after[last]];
      WhereAppend(after[..last], after[last], mine);
      if |after| == |before| {
        assert before == before[..last] + [before[last]];
        WhereAppend(before[..last], before[last], mine);
        FixedSelects(before[..last], after[..last], mine);
      } else {
        FixedSelects(before, after[..last], mine);
      }
    }
  }

  /** Whether a transaction names the session. */
  predicate Concerns(op: Op, sid: Id) {
    match op
    case CreateConnection(_, _) => false
    case RevokeConnection(_) => false
    case InterruptActiveSessions(_) => true
    case AppendAuditEvent(row) => row.sessionId == sid
    case StorePlan(grant, _) => grant.plan.sessionId == sid
    case CheckPlan(check, _) => check.request.sessionId == sid
    case StoreApproval(approval) => approval.sessionId == sid
    case ConsumeApproval(consumption, _) => consumption.sessionId == sid
    case AppendExposures(batch) => exists i :: 0 <= i < |batch| && batch[i].exposure.sessionId == sid
    case AppendAttempt(attempt) => attempt.sessionId == sid
    case AppendDecision(decision) => decision.sessionId == sid
    case _ => op.sid == sid
  }

  lemma LifecycleLocal(db: Db, op: Op, sid: Id)
    requires IsLifecycle(op) && !Concerns(op, sid)
    ensures ViewOf(Lifecycle(db, op), sid) == ViewOf(db, sid)
  {
    hide Where;
    var after := Lifecycle(db, op);
    assert (set b | b in after.bindings && b.0 == sid :: b.1) == (set b | b in db.bindings && b.0 == sid :: b.1);
  }

  /** The four tables a worker transaction writes, as one session sees them. */
  ghost predicate WorkerFixed(db: Db, after: Db, sid: Id) {
    && Lookup(after.sessions, sid) == Lookup(db.sessions, sid)
    && Lookup(after.budgets, sid) == Lookup(db.budgets, sid)
    && Fixed(db.executions, after.executions, OfExecution(sid))
    && Fixed(db.events, after.events, OfEvent(sid))
  }

  lemma DenyFixed(
    db: Db, s: Id, boundaryId: Id, digest: Digest, code: ViolationCode, eventId: Id, now: Time, sid: Id)
    requires s != sid
    ensures WorkerFixed(db, Store.Deny(db, s, boundaryId, digest, code, eventId, now).After(db), sid)
  {
    hide Store.Revokes, Store.EventRecorded;
  }

  lemma ConsumeFixed(
    db: Db, s: Id, executionId: Id, digest: Digest, tool: Tool, eventId: Id, now: Time, sid: Id)
    requires s != sid
    ensures WorkerFixed(db, Store.ConsumeExecution(db, s, executionId, digest, tool, eventId, now).After(db), sid)
  {
    hide Store.Deny, Store.Replayed, Store.Affordable;
    var replay := Store.Replayed(db.executions, s, executionId, digest);
    DenyFixed(db, s, executionId, digest, if replay then ExecutionReplay else VolumeExhausted, eventId, now, sid);
  }

  lemma WorkerTablesFixed(db: Db, op: Op, sid: Id)
    requires IsWorker(op) && !Concerns(op, sid)
    ensures WorkerFixed(db, Worker(db, op), sid)
  {
    hide Store.Deny, Store.ConsumeExecution, Store.EventRecorded, Store.ClockReached;
    match op
    case ConsumeExecution(s, id, digest, tool, eventId, now) => ConsumeFixed(db, s, id, digest, tool, eventId, now, sid);
    case RecordViolation(s, id, digest, code, eventId, now) => DenyFixed(db, s, id, digest, code, eventId, now, sid);
    case InterruptWorkerSession(_, _, _, _, _, _) =>
  }

  lemma WorkerLocal(db: Db, op: Op, sid: Id)
    requires IsWorker(op) && !Concerns(op, sid)
    ensures ViewOf(Worker(db, op), sid) == ViewOf(db, sid)
  {
    hide Where, Worker, Fixed, Lookup;
    var after := Worker(db, op);
    WorkerTablesFixed(db, op, sid);
    FixedSelects(db.executions, after.executions, OfExecution(sid));
    FixedSelects(db.events, after.events, OfEvent(sid));
  }

  lemma AuditFixed(db: Db, op: Op, sid: Id)
    requires IsAudit(op) && !Concerns(op, sid)
    ensures Lookup(Audit(db, op).sessions, sid) == Lookup(db.sessions, sid)
    ensures Fixed(db.audit, Audit(db, op).audit, OfAudit(sid))
  {
    hide Store.ClockReached, Store.CanAppend, Store.CanClose, Store.NextSequence, Store.AuditRecorded, Store.Bound;
    hide Plans.CurrentRevoked;
  }

  lemma AuditLocal(db: Db, op: Op, sid: Id)
    requires IsAudit(op) && !Concerns(op, sid)
    ensures ViewOf(Audit(db, op), sid) == ViewOf(db, sid)
  {
    hide Where, Fixed, Lookup, Audit;
    AuditFixed(db, op, sid);
    FixedSelects(db.audit, Audit(db, op).audit, OfAudit(sid));
  }

  lemma BudgetingLocal(db: Db, op: Op, sid: Id)
    requires IsBudget(op) && !Concerns(op, sid)
    ensures ViewOf(Budgeting(db, op), sid) == ViewOf(db, sid)
  {
    hide Where, Store.Open, Store.ReservationRecorded;
    FixedSelects(db.reservations, Budgeting(db, op).reservations, OfReservation(sid));
  }

  lemma {:induction false} OtherPendingStays(pending: seq<PendingRow>, keep: PendingRow -> bool, sid: Id)
    requires forall row :: row in pending && row.sessionId == sid ==> keep(row)
    ensures Where(Where(pending, keep), OfPending(sid)) == Where(pending, OfPending(sid))
  {
    if |pending| > 0 {
      var before, last := pending[..|pending| - 1], pending[|pending| - 1];
      assert pending == before + [last];
      OtherPendingStays(before, keep, sid);
      WhereAppend(before, last, keep);
      WhereAppend(before, last, OfPending(sid));
      WhereAppend(Where(before, keep), last, OfPending(sid));
    }
  }

  lemma CheckLocal(db: Db, check: Plans.PlanCheck, now: Time, sid: Id)
    requires check.request.sessionId != sid
    ensures var after := Plans.CheckPlan(db, check, now).After(db);
            && Fixed(db.plans, after.plans, OfPlan(sid))
            && Fixed(db.planExecutions, after.planExecutions, OfPlanExecution(sid))
            && Where(after.pending, OfPending(sid)) == Where(db.pending, OfPending(sid))
  {
    hide Where, Plans.Decide, Plans.Queue, Plans.Queued;
    var request := check.request;
    match Plans.Decide(db, check, now)
    case NoPlan =>
    case Deny(reason) => FixedSelects(db.pending, Plans.Enqueue(db.pending, check, reason, now), OfPending(sid));
    case Cover(_, _) =>
      OtherPendingStays(db.pending, (row: PendingRow) => Plans.Kept(row, request.sessionId, request.requestId), sid);
  }

  lemma PlanningLocal(db: Db, op: Op, sid: Id)
    requires IsPlan(op) && !Concerns(op, sid)
    ensures ViewOf(Planning(db, op), sid) == ViewOf(db, sid)
  {
    hide Where, Plans.CheckPlan, Plans.Storable;
    if op.CheckPlan? { CheckLocal(db, op.check, op.now, sid); }
    FixedSelects(db.plans, Planning(db, op).plans, OfPlan(sid));
    FixedSelects(db.planExecutions, Planning(db, op).planExecutions, OfPlanExecution(sid));
  }

  lemma ApprovalsFixed(db: Db, op: Op, sid: Id)
    requires IsApproval(op) && !Concerns(op, sid)
    requires forall id :: id in db.approvals ==> db.approvals[id].approval.approvalId == id
    ensures ApprovalsOf(Approving(db, op).approvals, sid) == ApprovalsOf(db.approvals, sid)
  {
    hide Store.BoundConnection;
  }

  lemma ApprovingLocal(db: Db, op: Op, sid: Id)
    requires IsApproval(op) && !Concerns(op, sid)
    requires forall id :: id in db.approvals ==> db.approvals[id].approval.approvalId == id
    ensures ViewOf(Approving(db, op), sid) == ViewOf(db, sid)
  {
    hide Where, Approving, ApprovalsOf;
    ApprovalsFixed(db, op, sid);
  }

  lemma {:induction false} AddedExposures(exposures: map<Id, Exposure>, batch: seq<Store.NewExposure>, id: Id)
    ensures id in Store.AddExposures(exposures, batch) <==>
              id in exposures || exists i :: 0 <= i < |batch| && batch[i].exposureId == id
    ensures id in Store.AddExposures(exposures, batch) ==>
              (id in exposures && Store.AddExposures(exposures, batch)[id] == exposures[id])
              || exists i :: 0 <= i < |batch| && batch[i].exposureId == id
                             && Store.AddExposures(exposures, batch)[id] == batch[i].exposure
  {
    if |batch| > 0 { AddedExposures(exposures, batch[..|batch| - 1], id); }
  }

  lemma ContextLocal(db: Db, op: Op, sid: Id)
    requires !IsLifecycle(op) && !IsWorker(op) && !IsAudit(op) && !IsBudget(op) && !IsPlan(op) && !IsApproval(op)
    requires !Concerns(op, sid)
    ensures ViewOf(Context(db, op), sid) == ViewOf(db, sid)
  {
    hide Where, Store.EvidenceAvailable, Store.ExposureFits;
    var after := Context(db, op);
    FixedSelects(db.decisions, after.decisions, OfDecision(sid));
    if op.AppendExposures? && after != db {
      forall id | id in after.exposures && after.exposures[id].sessionId == sid
        ensures id in db.exposures && after.exposures[id] == db.exposures[id]
      {
        AddedExposures(db.exposures, op.batch, id);
      }
      forall id | id in db.exposures ensures id in after.exposures && after.exposures[id] == db.exposures[id] {
        AddedExposures(db.exposures, op.batch, id);
      }
    }
  }

  /** A transaction changes no row keyed by a session it does not name. */
  lemma StepLocal(db: Db, op: Op, sid: Id)
    requires !Concerns(op, sid)
    requires forall id :: id in db.approvals ==> db.approvals[id].approval.approvalId == id
    ensures ViewOf(Apply(db, op), sid) == ViewOf(db, sid)
  {
    hide ViewOf, Apply, Lifecycle, Worker, Audit, Budgeting, Planning, Approving, Context;
    if IsLifecycle(op) { InLifecycle(db, op); LifecycleLocal(db, op, sid); }
    else if IsWorker(op) { InWorker(db, op); WorkerLocal(db, op, sid); }
    else if IsAudit(op) { InAudit(db, op); AuditLocal(db, op, sid); }
    else if IsBudget(op) { InBudgeting(db, op); BudgetingLocal(db, op, sid); }
    else if IsPlan(op) { InPlanning(db, op); PlanningLocal(db, op, sid); }
    else if IsApproval(op) { InApproving(db, op); ApprovingLocal(db, op, sid); }
    else { InContext(db, op); ContextLocal(db, op, sid); }
  }
}
