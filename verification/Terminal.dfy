/** What is left of a session once it has ended: its rows are final, except that reservations still settle. */
module Terminal {
  import opened Records
  import opened Rows
  import opened Runs
  import opened Views
  import Store
  import Plans
  import Budgets

  predicate Ended(db: Db, sid: Id) { sid in db.sessions && db.sessions[sid].status != Active }

  predicate SettledOnly(before: Reservation, after: Reservation) {
    || after == before
    || (before.settledAt.None? && after.settledAt.Some?
        && after == before.(accepted := after.accepted, settledAt := after.settledAt))
  }

  predicate RevokedOnly(before: PlanRow, after: PlanRow) { after == before.(revokedAt := after.revokedAt) }

  ghost predicate Pointwise<T(!new)>(before: seq<T>, after: seq<T>, same: (T, T) -> bool) {
    |after| == |before| && forall i :: 0 <= i < |before| ==> same(before[i], after[i])
  }

  predicate NothingSpent(before: Option<Budget>, after: Option<Budget>) {
    if before.Some? then
      after.Some? && after.value == before.value.(researchResults := after.value.researchResults)
      && after.value.researchResults >= before.value.researchResults
    else after.None?
  }

  /** The rows of a session that grant, claim or record authority are as they were. */
  ghost predicate Final(before: View, after: View) {
    && after.session == before.session && after.connectionIds == before.connectionIds
    && after.approvals == before.approvals
    && after.executions == before.executions && after.events == before.events
    && after.planExecutions == before.planExecutions
    && NothingSpent(before.budget, after.budget)
    && Pointwise(before.reservations, after.reservations, SettledOnly)
    && Pointwise(before.plans, after.plans, RevokedOnly)
  }

  /** A selection follows a row-by-row change that keeps the selected rows selected. */
  lemma {:induction false} WherePointwise<T(!new)>(
    before: seq<T>, after: seq<T>, mine: T -> bool, same: (T, T) -> bool)
    requires |after| == |before|
    requires forall i :: 0 <= i < |before| ==>
               mine(after[i]) == mine(before[i]) && (mine(before[i]) ==> same(before[i], after[i]))
    ensures Pointwise(Where(before, mine), Where(after, mine), same)
  {
    if |before| > 0 {
      var last := |before| - 1;
      assert before == before[..last] + [before[last]] && after == after[..last] + [after[last]];
      WherePointwise(before[..last], after[..last], mine, same);
      WhereAppend(before[..last], before[last], mine);
      WhereAppend(after[..last], after[last], mine);
    }
  }

  lemma UnchangedIsFinal(view: View)
    ensures Final(view, view)
  {
  }

  /** Tables other than budgets, reservations, plans and those outside Final are the same objects. */
  predicate SameAuthority(db: Db, after: Db, sid: Id) {
    && Lookup(after.sessions, sid) == Lookup(db.sessions, sid)
    && after.bindings == db.bindings && after.approvals == db.approvals
    && after.executions == db.executions && after.events == db.events
    && after.planExecutions == db.planExecutions
  }

  lemma SameIsFinal(db: Db, after: Db, sid: Id)
    requires SameAuthority(db, after, sid)
    requires NothingSpent(Lookup(db.budgets, sid), Lookup(after.budgets, sid))
    requires Pointwise(Where(db.reservations, OfReservation(sid)), Where(after.reservations, OfReservation(sid)), SettledOnly)
    requires Pointwise(Where(db.plans, OfPlan(sid)), Where(after.plans, OfPlan(sid)), RevokedOnly)
    ensures Final(ViewOf(db, sid), ViewOf(after, sid))
  {
    hide Where, Pointwise, Lookup, NothingSpent;
  }

  lemma LifecycleEnded(db: Db, op: Op, sid: Id)
    requires Ended(db, sid) && sid in db.budgets && IsLifecycle(op)
    ensures Final(ViewOf(db, sid), ViewOf(Lifecycle(db, op), sid))
  {
    hide ViewOf, Where;
    var after := Lifecycle(db, op);
    if op.InterruptActiveSessions? { SameIsFinal(db, after, sid); }
    else if op.CreateSession? && op.sid == sid { UnchangedIsFinal(ViewOf(db, sid)); }
    else { LifecycleLocal(db, op, sid); UnchangedIsFinal(ViewOf(db, sid)); }
  }

  lemma WorkerEnded(db: Db, op: Op, sid: Id)
    requires Ended(db, sid) && IsWorker(op) && op.sid == sid
    ensures Worker(db, op) == db
  {
    hide Store.Deny, Store.Replayed, Store.ClockReached, Store.EventRecorded;
    assert Store.Unavailable(db.sessions[sid], op.now).Some?;
    assert db.(sessions := db.sessions) == db;
  }

  lemma AuditEnded(db: Db, op: Op, sid: Id)
    requires Ended(db, sid) && IsAudit(op) && !op.AppendAuditEvent? && op.sid == sid
    ensures Audit(db, op) == db
  {
    hide Store.ClockReached, Store.CanAppend, Store.CanClose, Store.Bound, Plans.CurrentRevoked;
    assert db.(sessions := db.sessions) == db;
  }

  lemma SettleEnded(db: Db, op: Op, sid: Id)
    requires Ended(db, sid) && IsBudget(op) && op.sid == sid
    ensures NothingSpent(Lookup(db.budgets, sid), Lookup(Budgeting(db, op).budgets, sid))
    ensures Pointwise(Where(db.reservations, OfReservation(sid)),
                      Where(Budgeting(db, op).reservations, OfReservation(sid)), SettledOnly)
  {
    hide Where;
    WherePointwise(db.reservations, Budgeting(db, op).reservations, OfReservation(sid), SettledOnly);
  }

  lemma PlanningEnded(db: Db, op: Op, sid: Id)
    requires Ended(db, sid) && IsPlan(op)
    requires if op.StorePlan? then op.grant.plan.sessionId == sid
             else if op.RevokePlan? then op.sid == sid else op.check.request.sessionId == sid
    ensures Planning(db, op).planExecutions == db.planExecutions
    ensures Pointwise(Where(db.plans, OfPlan(sid)), Where(Planning(db, op).plans, OfPlan(sid)), RevokedOnly)
  {
    hide Where, Plans.Decide, Plans.Enqueue, Plans.Covers;
    WherePointwise(db.plans, Planning(db, op).plans, OfPlan(sid), RevokedOnly);
  }

  lemma ApprovingEnded(db: Db, op: Op, sid: Id)
    requires Ended(db, sid) && IsApproval(op)
    requires if op.StoreApproval? then op.approval.sessionId == sid else op.consumption.sessionId == sid
    ensures Approving(db, op) == db
  {
    hide Store.BoundConnection;
  }

  lemma ReservationsKept(db: Db, after: Db, sid: Id)
    requires SameAuthority(db, after, sid) && after.reservations == db.reservations && after.budgets == db.budgets
    requires Pointwise(Where(db.plans, OfPlan(sid)), Where(after.plans, OfPlan(sid)), RevokedOnly)
    ensures Final(ViewOf(db, sid), ViewOf(after, sid))
  {
    SameIsFinal(db, after, sid);
  }

  lemma NamedEnded(db: Db, op: Op, sid: Id)
    requires Ended(db, sid) && !IsLifecycle(op) && Concerns(op, sid)
    ensures Final(ViewOf(db, sid), ViewOf(Apply(db, op), sid))
  {
    hide Final, ViewOf, Where, Pointwise, SameAuthority, Ended;
    hide Apply, Lifecycle, Worker, Audit, Budgeting, Planning, Approving, Context;
    var after := Apply(db, op);
    UnchangedIsFinal(ViewOf(db, sid));
    Leaves(db, op);
    if IsWorker(op) { InWorker(db, op); WorkerEnded(db, op, sid); }
    else if IsPlan(op) {
      InPlanning(db, op);
      PlanningEnded(db, op, sid);
      SessionKept(db, after, sid);
      ReservationsKept(db, after, sid);
    }
    else if IsApproval(op) { InApproving(db, op); ApprovingEnded(db, op, sid); }
    else if IsBudget(op) {
      InBudgeting(db, op);
      SettleEnded(db, op, sid);
      SessionKept(db, after, sid);
      PlansKept(db, after, sid);
    }
    else { OtherEnded(db, op, sid); }
  }

  lemma SessionKept(db: Db, after: Db, sid: Id)
    requires after.sessions == db.sessions && after.bindings == db.bindings && after.approvals == db.approvals
    requires after.executions == db.executions && after.events == db.events && after.planExecutions == db.planExecutions
    ensures SameAuthority(db, after, sid)
  {
  }

  lemma PlansKept(db: Db, after: Db, sid: Id)
    requires SameAuthority(db, after, sid) && after.plans == db.plans
    requires NothingSpent(Lookup(db.budgets, sid), Lookup(after.budgets, sid))
    requires Pointwise(Where(db.reservations, OfReservation(sid)), Where(after.reservations, OfReservation(sid)), SettledOnly)
    ensures Final(ViewOf(db, sid), ViewOf(after, sid))
  {
    hide Where;
    SameIsFinal(db, after, sid);
  }

  lemma OtherEnded(db: Db, op: Op, sid: Id)
    requires Ended(db, sid) && Concerns(op, sid)
    requires !IsLifecycle(op) && !IsWorker(op) && !IsPlan(op) && !IsApproval(op) && !IsBudget(op)
    ensures Final(ViewOf(db, sid), ViewOf(Apply(db, op), sid))
  {
    hide Apply, Where, ViewOf, Final, Store.RecordAudit, Store.CompleteWorkerSession;
    Leaves(db, op);
    if IsAudit(op) { InAudit(db, op); }
    if IsAudit(op) && !op.AppendAuditEvent? { AuditEnded(db, op, sid); }
    SameIsFinal(db, Apply(db, op), sid);
  }

  /** One transaction leaves an ended session's authority final, whichever session it names. */
  lemma EndedStep(db: Db, op: Op, sid: Id)
    requires Ended(db, sid) && Budgets.Linked(db)
    ensures Final(ViewOf(db, sid), ViewOf(Apply(db, op), sid))
  {
    hide Final, ViewOf, Apply, Lifecycle;
    if IsLifecycle(op) { InLifecycle(db, op); LifecycleEnded(db, op, sid); }
    else if Concerns(op, sid) { NamedEnded(db, op, sid); }
    else { StepLocal(db, op, sid); UnchangedIsFinal(ViewOf(db, sid)); }
  }

  lemma FinalTrans(first: View, second: View, third: View)
    requires Final(first, second) && Final(second, third)
    ensures Final(first, third)
  {
  }

  /**
   * A session leaves the active state at most once and never returns; from then on nothing is claimed,
   * reserved, approved, consumed or bound for it, whatever runs next.
   */
  lemma {:induction false} EndedForever(db: Db, ops: seq<Op>, sid: Id)
    requires Ended(db, sid) && Budgets.Linked(db)
    ensures Ended(Run(db, ops), sid) && Budgets.Linked(Run(db, ops))
    ensures Final(ViewOf(db, sid), ViewOf(Run(db, ops), sid))
  {
    hide Final, Apply, Budgets.Linked;
    UnchangedIsFinal(ViewOf(db, sid));
    if |ops| > 0 {
      var before, op := Run(db, ops[..|ops| - 1]), ops[|ops| - 1];
      EndedForever(db, ops[..|ops| - 1], sid);
      EndedStep(before, op, sid);
      Budgets.LinkedStep(before, op);
      FinalTrans(ViewOf(db, sid), ViewOf(before, sid), ViewOf(Run(db, ops), sid));
      SessionFinal(before, Run(db, ops), sid);
    }
  }

  lemma SessionFinal(before: Db, after: Db, sid: Id)
    requires Ended(before, sid) && Final(ViewOf(before, sid), ViewOf(after, sid))
    ensures Ended(after, sid)
  {
    hide Where, Pointwise;
  }

  /** What every kind of request is told once the session has ended. */
  lemma EndedRefuses(db: Db, sid: Id, now: Time)
    requires Ended(db, sid) && Budgets.Linked(db)
    ensures Store.ConsumeToolCall(db, sid, now) == Committed(db, None)
    ensures forall id, digest, tool, eventId ::
              var o := Store.ConsumeExecution(db, sid, id, digest, tool, eventId, now);
              o.Committed? && o.value.ExecutionUnavailable? && o.db.executions == db.executions
    ensures forall requested, id :: 1 <= requested <= 3 ==>
              Store.ReserveResearch(db, sid, requested, id, now) == Committed(db, None)
    ensures forall request: Store.Consumption :: request.sessionId == sid ==>
              Store.JudgeConsumption(db, request, now) != Store.ApprovalConsumed
    ensures forall check: Plans.PlanCheck :: check.request.sessionId == sid ==>
              !Plans.Decide(db, check, now).Cover?
    ensures forall grant: Grant :: grant.plan.sessionId == sid ==> Plans.StorePlan(db, grant, now).Threw?
    ensures forall approval: Approval :: approval.sessionId == sid ==> Store.StoreApproval(db, approval).Threw?
  {
    hide Store.Deny, Store.Replayed, Plans.Covers, Store.BoundConnection, Plans.Replays;
  }
}
