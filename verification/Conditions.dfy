/**
 * Exactly when the store says yes, told field by field: every answer of an approval, a plan and its check, a
 * reservation, a settlement and the evidence records, without the helper predicates the transactions use.
 */
module Conditions {
  import opened Records
  import Plans
  import Store

  predicate Live(db: Db, sid: Id, now: Time) {
    && sid in db.sessions && db.sessions[sid].status == Active
    && db.sessions[sid].startsAt <= now && now < db.sessions[sid].expiresAt
  }

  lemma OpenIsLive(db: Db, sid: Id, now: Time)
    ensures Store.Open(db, sid, now) <==> Live(db, sid, now)
    ensures sid in db.sessions ==> (Store.Unavailable(db.sessions[sid], now).None? <==> Live(db, sid, now))
  {
  }

  /** The first complaint that applies, if any does. */
  function FirstOf<T>(complaints: seq<(bool, T)>): Option<T> {
    if |complaints| == 0 then None
    else if complaints[0].0 then Some(complaints[0].1)
    else FirstOf(complaints[1..])
  }

  function Nth<T>(complaints: seq<(bool, T)>, k: nat, otherwise: Option<T>): Option<T> {
    if k < |complaints| && complaints[k].0 then Some(complaints[k].1) else otherwise
  }

  lemma Skip<T>(complaints: seq<(bool, T)>, k: nat)
    requires k <= |complaints|
    ensures FirstOf(complaints[k..]) == Nth(complaints, k, if k < |complaints| then FirstOf(complaints[k + 1..]) else None)
  {
    if k < |complaints| { assert complaints[k..][1..] == complaints[k + 1..]; }
  }

  /** The first complaint from the k-th on, three at a time. */
  lemma Three<T>(c: seq<(bool, T)>, k: nat)
    ensures var later := if k + 3 <= |c| then FirstOf(c[k + 3..]) else None;
            k <= |c| ==> FirstOf(c[k..]) == Nth(c, k, Nth(c, k + 1, Nth(c, k + 2, later)))
  {
    hide FirstOf;
    if k <= |c| { Skip(c, k); }
    if k + 1 <= |c| { Skip(c, k + 1); }
    if k + 2 <= |c| { Skip(c, k + 2); }
  }

  /** Up to twelve complaints, one after the other. */
  lemma InOrder<T>(c: seq<(bool, T)>)
    requires |c| <= 12
    ensures FirstOf(c) == Nth(c, 0, Nth(c, 1, Nth(c, 2, Nth(c, 3, Nth(c, 4, Nth(c, 5, Nth(c, 6, Nth(c, 7,
                            Nth(c, 8, Nth(c, 9, Nth(c, 10, Nth(c, 11, None))))))))))))
  {
    hide FirstOf;
    assert c[0..] == c;
    Three(c, 0);
    Three(c, 3);
    Three(c, 6);
    Three(c, 9);
    if |c| == 12 { Skip(c, 12); }
  }

  // ---- approvals

  predicate ActiveBinding(db: Db, sid: Id, connectionId: Id) {
    (sid, connectionId) in db.bindings && connectionId in db.connections && db.connections[connectionId].active
  }

  /** An approval is stored exactly for its own active session and bound connection, with a fresh id and nonce. */
  lemma ApprovalStored(db: Db, approval: Approval)
    ensures var o := Store.StoreApproval(db, approval);
            && (o.Committed? <==>
                  && approval.approvedAt < approval.expiresAt
                  && approval.sessionId in db.sessions && db.sessions[approval.sessionId].status == Active
                  && db.sessions[approval.sessionId].scope == approval.scope
                  && ActiveBinding(db, approval.sessionId, approval.connectionId)
                  && (forall id :: id in db.approvals ==>
                        id != approval.approvalId && db.approvals[id].approval.nonce != approval.nonce))
            && (o.Committed? ==> o.db == db.(approvals := db.approvals[approval.approvalId := ApprovalRow(approval, None)]))
  {
  }

  /** The row of this id, held by this session. */
  predicate Known(db: Db, use: Store.Consumption) {
    && use.approvalId in db.approvals && db.approvals[use.approvalId].approval.sessionId == use.sessionId
    && use.sessionId in db.sessions
  }

  /** The approval was given for exactly this request, caller, connection and policy, under this nonce. */
  predicate GivenFor(approval: Approval, use: Store.Consumption) {
    && approval.requestDigest == use.requestDigest && approval.nonce == use.nonce
    && approval.scope.callerId == use.callerId && approval.connectionId == use.connectionId
    && approval.scope.policyVersion == use.policyVersion
  }

  function UseComplaints(db: Db, use: Store.Consumption, now: Time): seq<(bool, Store.ConsumptionResult)>
    requires Known(db, use)
  {
    var row, session := db.approvals[use.approvalId], db.sessions[use.sessionId];
    [ (!GivenFor(row.approval, use) || !ActiveBinding(db, use.sessionId, use.connectionId), Store.ApprovalMismatch),
      (row.consumedAt.Some?, Store.ApprovalReplayed),
      (session.status != Active || now < row.approval.approvedAt || now < session.startsAt, Store.ApprovalNotActive),
      (row.approval.expiresAt <= now || session.expiresAt <= now, Store.ApprovalExpired) ]
  }

  /** The six answers to the use of an approval: the first complaint that applies, and consumption when none does. */
  lemma ApprovalUsed(db: Db, use: Store.Consumption, now: Time)
    ensures var o := Store.ConsumeApproval(db, use, now);
            && o.Committed?
            && (if !Known(db, use) then o.value == Store.ApprovalNotFound
                else
                  var complaint := FirstOf(UseComplaints(db, use, now));
                  o.value == if complaint.Some? then complaint.value else Store.ApprovalConsumed)
            && (o.value != Store.ApprovalConsumed ==> o.db == db)
            && (o.value == Store.ApprovalConsumed ==>
                  var row := db.approvals[use.approvalId];
                  o.db == db.(approvals := db.approvals[use.approvalId := row.(consumedAt := Some(now))]))
  {
    if Known(db, use) { InOrder(UseComplaints(db, use, now)); }
  }

  /** The use of an approval succeeds exactly when all of this holds of the stored row. */
  lemma ApprovalConsumedIff(db: Db, use: Store.Consumption, now: Time)
    ensures Store.JudgeConsumption(db, use, now) == Store.ApprovalConsumed <==>
              && Known(db, use)
              && GivenFor(db.approvals[use.approvalId].approval, use)
              && ActiveBinding(db, use.sessionId, use.connectionId)
              && db.approvals[use.approvalId].consumedAt.None?
              && Live(db, use.sessionId, now)
              && db.approvals[use.approvalId].approval.approvedAt <= now
              && now < db.approvals[use.approvalId].approval.expiresAt
  {
  }

  // ---- plans

  /** An active connection bound to the session, for the target's repository, that permits its operation. */
  predicate Reaches(db: Db, sid: Id, target: Target) {
    && ActiveBinding(db, sid, target.connectionId)
    && db.connections[target.connectionId].owner == target.owner
    && db.connections[target.connectionId].repository == target.repository
    && (target.merge ==> MergePermission in db.connections[target.connectionId].permissions)
    && (!target.merge ==> ReadPermission in db.connections[target.connectionId].permissions)
  }

  lemma CoversIsReaches(db: Db, sid: Id, target: Target)
    ensures Plans.Covers(db, sid, target) <==> Reaches(db, sid, target)
  {
  }

  predicate SchemaAllows(plan: Plan) {
    && 1 <= plan.version && 1 <= plan.expiresAt - plan.startsAt <= 86_400_000
    && 1 <= plan.maxActions <= 10_000 && 0 <= plan.maxMutations <= 100 && plan.maxMutations <= plan.maxActions
    && 1 <= |plan.targets| <= 16
    && (forall i, j :: 0 <= i < j < |plan.targets| ==> plan.targets[i] != plan.targets[j])
    && (forall t :: t in plan.targets && t.merge ==> plan.maxMutations >= 1)
  }

  /** A plan is stored exactly as the next version for its own live session, freshly confirmed, within reach. */
  lemma PlanStored(db: Db, grant: Grant, now: Time)
    ensures var o := Plans.StorePlan(db, grant, now);
            var plan, sid := grant.plan, grant.plan.sessionId;
            && (o.Committed? <==>
                  && SchemaAllows(plan)
                  && sid in db.sessions && db.sessions[sid].status == Active && db.sessions[sid].scope == plan.scope
                  && db.sessions[sid].startsAt <= plan.startsAt && plan.expiresAt <= db.sessions[sid].expiresAt
                  && plan.startsAt <= now < plan.expiresAt && grant.confirmedAt <= now
                  && (grant.development ==> now <= grant.confirmedAt + 30_000)
                  && plan.version == 1 + (if Plans.Current(db.plans, sid) < 0 then 0
                                          else db.plans[Plans.Current(db.plans, sid)].grant.plan.version)
                  && (forall t :: t in plan.targets ==> Reaches(db, sid, t))
                  && (forall row :: row in db.plans ==> row.grant.grantId != grant.grantId))
            && (o.Committed? ==> o.db == db.(plans := db.plans + [PlanRow(grant, None, 0, 0)]))
  {
    hide Plans.Current, Plans.Covers, Reaches;
    var plan, sid := grant.plan, grant.plan.sessionId;
    forall i | 0 <= i < |plan.targets| ensures Plans.Covers(db, sid, plan.targets[i]) <==> Reaches(db, sid, plan.targets[i]) {
      CoversIsReaches(db, sid, plan.targets[i]);
    }
    assert forall i :: 0 <= i < |plan.targets| ==> plan.targets[i] in plan.targets;
    assert forall i :: 0 <= i < |db.plans| ==> db.plans[i] in db.plans;
  }

  /** The same operation on the same pull request at the same head commit, over the same connection. */
  predicate AimsAt(target: Target, request: Request) {
    && request.operation.GitHub() && (target.merge <==> request.operation.Merge?)
    && request.connectionId == Some(target.connectionId)
    && request.resource == Some(PullRequest(target.owner, target.repository, target.pullRequest, target.headCommit))
  }

  lemma MatchesIsAimsAt(target: Target, request: Request)
    ensures Plans.Matches(target, request) <==> AimsAt(target, request)
  {
  }

  /** The target a check is about is the first of the plan that the request aims at. */
  lemma {:induction false} FirstTarget(targets: seq<Target>, request: Request) returns (k: nat)
    ensures k <= |targets| && forall i :: 0 <= i < k ==> !AimsAt(targets[i], request)
    ensures k < |targets| ==> AimsAt(targets[k], request)
    ensures Plans.FindTarget(targets, request) == if k < |targets| then Some(targets[k]) else None
  {
    k := 0;
    if |targets| > 0 {
      MatchesIsAimsAt(targets[0], request);
      if !AimsAt(targets[0], request) {
        k := FirstTarget(targets[1..], request);
        k := k + 1;
      }
    }
  }

  /** The session is active and the request, the session and the plan agree on every binding. */
  predicate Agreed(db: Db, input: Plans.PlanCheck, row: PlanRow) {
    var request := input.request;
    && request.sessionId in db.sessions && db.sessions[request.sessionId].status == Active
    && request.scope == row.grant.plan.scope && db.sessions[request.sessionId].scope == row.grant.plan.scope
    && (input.expectedGrantId.Some? ==> input.expectedGrantId.value == row.grant.grantId)
  }

  predicate Ended(db: Db, sid: Id, plan: Plan, now: Time) {
    now < plan.startsAt || plan.expiresAt <= now || (sid in db.sessions && db.sessions[sid].expiresAt <= now)
  }

  predicate Repeats(row: PlanExecution, request: Request, target: Target) {
    && row.sessionId == request.sessionId
    && (row.requestId == request.requestId
        || (target.merge
            && row.mutationKey == Some(MutationKey(
                 target.connectionId, target.owner, target.repository, target.pullRequest, target.headCommit))))
  }

  lemma RepeatsIsReplays(row: PlanExecution, request: Request, target: Target)
    ensures Repeats(row, request, target)
       <==> Plans.Replays(row, request.sessionId, request.requestId, Plans.KeyOf(target))
  {
  }

  /** The request was executed before, or the merge it asks for was, under any plan of the session. */
  predicate Executed(db: Db, request: Request, target: Target) {
    exists i :: 0 <= i < |db.planExecutions| && Repeats(db.planExecutions[i], request, target)
  }

  predicate Spent(row: PlanRow, target: Target) {
    row.grant.plan.maxActions <= row.usedActions || (target.merge && row.grant.plan.maxMutations <= row.usedMutations)
  }

  /** The complaints about a check in the order they are raised; target is the first one aimed at, if any. */
  function Complaints(db: Db, input: Plans.PlanCheck, row: PlanRow, target: Option<Target>, now: Time)
    : seq<(bool, BlockReason)>
  {
    var request := input.request;
    [ (input.phase == Plans.Defer, if input.blockReason.Some? then input.blockReason.value else BindingMismatch),
      (input.blockReason.Some?, BindingMismatch),
      (!Agreed(db, input, row), BindingMismatch),
      (row.revokedAt.Some?, PlanRevoked),
      (Ended(db, request.sessionId, row.grant.plan, now), PlanExpired),
      (target.None?, OutOfPlan),
      (target.Some? && !Reaches(db, request.sessionId, target.value), BindingMismatch),
      (target.Some? && input.observedBaseBranch.Some? && input.observedBaseBranch.value != target.value.baseBranch,
        ResourceChanged),
      (input.phase == Plans.Consume && input.expectedGrantId.None?, BindingMismatch),
      (input.phase == Plans.Consume && target.Some? && target.value.merge && input.observedBaseBranch.None?, BindingMismatch),
      (target.Some? && Executed(db, request, target.value), PlanReplayed),
      (target.Some? && Spent(row, target.value), PlanExhausted) ]
  }

  /**
   * A check answers with the first complaint that applies, and allows the request exactly when none does: then
   * with the grant and the base branch of the first target the request aims at.
   */
  lemma CheckAnswered(db: Db, input: Plans.PlanCheck, now: Time)
    ensures var o := Plans.CheckPlan(db, input, now);
            var at := Plans.Current(db.plans, input.request.sessionId);
            && o.Committed?
            && (at < 0 <==> o.value == Plans.Absent)
            && (at >= 0 ==>
                  var row := db.plans[at];
                  var target := Plans.FindTarget(row.grant.plan.targets, input.request);
                  var complaint := FirstOf(Complaints(db, input, row, target, now));
                  && (target.Some? ==> target.value in row.grant.plan.targets && AimsAt(target.value, input.request))
                  && (target.None? ==> forall t :: t in row.grant.plan.targets ==> !AimsAt(t, input.request))
                  && (complaint.Some? ==> o.value == Plans.Blocked(complaint.value))
                  && (complaint.None? ==>
                        target.Some? &&
                        o.value == Plans.Allowed(row.grant.grantId, row.grant.planDigest, target.value.baseBranch)))
  {
    hide Plans.Current, Plans.FindTarget, Plans.Covers, Plans.Matches, Plans.Enqueue, Plans.ConsumePlan, Plans.Replays;
    hide Reaches, AimsAt, Repeats, Plans.KeyOf, FirstOf;
    var at := Plans.Current(db.plans, input.request.sessionId);
    if at >= 0 {
      var row := db.plans[at];
      var target := Plans.FindTarget(row.grant.plan.targets, input.request);
      forall t | t in row.grant.plan.targets ensures Plans.Matches(t, input.request) <==> AimsAt(t, input.request) {
        MatchesIsAimsAt(t, input.request);
      }
      if target.Some? {
        CoversIsReaches(db, input.request.sessionId, target.value);
        forall i | 0 <= i < |db.planExecutions|
          ensures Repeats(db.planExecutions[i], input.request, target.value)
             <==> Plans.Replays(db.planExecutions[i], input.request.sessionId, input.request.requestId, Plans.KeyOf(target.value))
        {
          RepeatsIsReplays(db.planExecutions[i], input.request, target.value);
        }
      }
      InOrder(Complaints(db, input, row, target, now));
    }
  }

  /** What a queue of blocked proposals holds of a session, by place. */
  function EntriesIn(pending: seq<PendingRow>, sid: Id): set<int> {
    set i | 0 <= i < |pending| && pending[i].sessionId == sid
  }

  lemma {:induction false} QueueCounted(pending: seq<PendingRow>, sid: Id)
    ensures |Plans.Queue(pending, sid)| == |EntriesIn(pending, sid)|
  {
    if |pending| == 0 {
      assert EntriesIn(pending, sid) == {};
    } else {
      var last := |pending| - 1;
      QueueCounted(pending[..last], sid);
      assert pending == pending[..last] + [pending[last]];
      assert EntriesIn(pending, sid)
          == EntriesIn(pending[..last], sid) + if pending[last].sessionId == sid then {last} else {};
    }
  }

  /** A blocked proposal is kept exactly when it is new to a queue with a free place and the bytes for it. */
  lemma BlockedProposalKept(db: Db, input: Plans.PlanCheck, now: Time)
    ensures var o := Plans.CheckPlan(db, input, now);
            var request, sid := input.request, input.request.sessionId;
            o.value.Blocked? ==>
              var entry := PendingRow(sid, request.requestId, request, input.requestDigest, o.value.reason, now);
              var kept := && (forall row :: row in db.pending ==> row.sessionId != sid || row.requestId != request.requestId)
                          && |EntriesIn(db.pending, sid)| < 32
                          && Plans.ArrayBytes(Plans.Queue(db.pending, sid)) + Plans.RowBytes(entry) < 49_152;
              o.db == db.(pending := if kept then db.pending + [entry] else db.pending)
  {
    hide Plans.Decide, Plans.ArrayBytes, Plans.EntryBytes, Plans.Queue;
    QueueCounted(db.pending, input.request.sessionId);
    assert forall i :: 0 <= i < |db.pending| ==> db.pending[i] in db.pending;
  }

  /**
   * An allowed consumption records the execution, charges the current grant once and drops the proposal from
   * the queue; any other answer but a block writes nothing.
   */
  lemma ConsumptionRecorded(db: Db, input: Plans.PlanCheck, now: Time)
    ensures var o := Plans.CheckPlan(db, input, now);
            var request, at := input.request, Plans.Current(db.plans, input.request.sessionId);
            && (!o.value.Blocked? && !(o.value.Allowed? && input.phase == Plans.Consume) ==> o.db == db)
            && (o.value.Allowed? && input.phase == Plans.Consume ==>
                  && at >= 0
                  && var row, target := db.plans[at], Plans.FindTarget(db.plans[at].grant.plan.targets, request);
                     && target.Some?
                     && var t := target.value;
                        && o.db.planExecutions == db.planExecutions
                             + [PlanExecution(
                                  request.sessionId, request.requestId, input.requestDigest, row.grant.grantId,
                                  if t.merge
                                  then Some(MutationKey(t.connectionId, t.owner, t.repository, t.pullRequest, t.headCommit))
                                  else None,
                                  now)]
                        && o.db.plans == db.plans[at := row.(
                             usedActions := row.usedActions + 1,
                             usedMutations := if t.merge then row.usedMutations + 1 else row.usedMutations)]
                        && (forall p :: p in o.db.pending <==>
                              p in db.pending && !(p.sessionId == request.sessionId && p.requestId == request.requestId))
                        && o.db == db.(planExecutions := o.db.planExecutions, plans := o.db.plans, pending := o.db.pending))
  {
    hide Plans.Covers, Plans.Coverage, Plans.Matches, Plans.Replays, Plans.Enqueue, Plans.Current, Plans.FindTarget;
    CheckAnswered(db, input, now);
    ConsumptionTarget(db, input, now);
  }

  lemma ConsumptionTarget(db: Db, input: Plans.PlanCheck, now: Time)
    ensures var verdict, at := Plans.Decide(db, input, now), Plans.Current(db.plans, input.request.sessionId);
            verdict.Cover? ==>
              && verdict.index == at >= 0
              && Plans.FindTarget(db.plans[at].grant.plan.targets, input.request) == Some(verdict.target)
  {
    hide Plans.Covers, Plans.Matches, Plans.Replays, Plans.Current, Plans.FindTarget, Plans.Coverage;
  }

  /** Revoking a grant stamps its row, once, and touches no other; the answer says whether there was one to stamp. */
  lemma GrantRevoked(db: Db, sid: Id, grantId: Id, now: Time)
    ensures var o := Plans.RevokePlan(db, sid, grantId, now);
            && o.Committed?
            && (o.value <==> exists row :: row in db.plans && row.grant.grantId == grantId
                                           && row.grant.plan.sessionId == sid && row.revokedAt == None)
            && |o.db.plans| == |db.plans| && o.db == db.(plans := o.db.plans)
            && (forall k :: 0 <= k < |db.plans| ==>
                  o.db.plans[k] ==
                    if db.plans[k].grant.grantId == grantId && db.plans[k].grant.plan.sessionId == sid
                       && db.plans[k].revokedAt == None
                    then db.plans[k].(revokedAt := Some(now)) else db.plans[k])
  {
    hide Plans.RevokeRows;
    var o := Plans.RevokePlan(db, sid, grantId, now);
    forall row | row in db.plans && row.grant.grantId == grantId && row.grant.plan.sessionId == sid && row.revokedAt == None
      ensures o.value
    {
      var i :| 0 <= i < |db.plans| && db.plans[i] == row;
      assert Plans.Revocable(db.plans[i], sid, grantId);
    }
  }

  // ---- sessions and connections

  /** A session enters active, with its budget and one binding for each connection, or not at all. */
  lemma SessionCreated(db: Db, sid: Id, session: Session, budget: Budget, ids: seq<Id>)
    ensures var o := Store.CreateSession(db, sid, session, budget, ids);
            && (o.Committed? <==>
                  && session.status == Active && session.startsAt < session.expiresAt && session.createdAt <= session.updatedAt
                  && 0 <= budget.toolCalls <= 10_000 && 0 <= budget.localCommands <= 10_000
                  && 0 <= budget.researchRequests <= 10_000 && 0 <= budget.researchResults <= 10_000
                  && (forall i, j :: 0 <= i < j < |ids| ==> ids[i] != ids[j])
                  && sid !in db.sessions && (forall id :: id in ids ==> id in db.connections))
            && (o.Committed? ==>
                  && o.db == db.(sessions := db.sessions[sid := session], budgets := db.budgets[sid := budget],
                                 bindings := o.db.bindings)
                  && forall s, c :: (s, c) in o.db.bindings <==> (s, c) in db.bindings || (s == sid && c in ids))
  {
    assert forall i :: 0 <= i < |ids| ==> ids[i] in ids;
  }

  /** A connection enters active under a fresh id; revoking it changes nothing but its being active. */
  lemma ConnectionsManaged(db: Db, id: Id, connection: Connection)
    ensures var created, revoked := Store.CreateConnection(db, id, connection), Store.RevokeConnection(db, id);
            && (created.Committed? <==> connection.active && id !in db.connections)
            && (created.Committed? ==> created.db == db.(connections := db.connections[id := connection]))
            && revoked.Committed? && (revoked.value <==> id in db.connections && db.connections[id].active)
            && (revoked.value ==>
                  revoked.db == db.(connections := db.connections[id := db.connections[id].(active := false)]))
            && (!revoked.value ==> revoked.db == db)
  {
  }

  // ---- research

  /** A reservation takes one call, one request and the results it asks for, all of them or nothing. */
  lemma ReservationMade(db: Db, sid: Id, requested: int, id: Id, now: Time)
    ensures var o := Store.ReserveResearch(db, sid, requested, id, now);
            var able := && Live(db, sid, now) && sid in db.budgets && db.budgets[sid].toolCalls > 0
                        && db.budgets[sid].researchRequests > 0 && requested <= db.budgets[sid].researchResults;
            var unused := forall row :: row in db.reservations ==> row.reservationId != id;
            && (o.Threw? <==> !(1 <= requested <= 3) || (able && !unused))
            && (o.Committed? ==> (o.value.Some? <==> able) && (o.value.None? ==> o.db == db))
            && (o.Committed? && o.value.Some? ==>
                  && o.db.reservations == db.reservations + [Reservation(id, sid, requested, None, None)]
                  && o.db == db.(budgets := db.budgets[sid := o.value.value], reservations := o.db.reservations)
                  && o.value.value.localCommands == db.budgets[sid].localCommands
                  && o.value.value.toolCalls + 1 == db.budgets[sid].toolCalls
                  && o.value.value.researchRequests + 1 == db.budgets[sid].researchRequests
                  && o.value.value.researchResults + requested == db.budgets[sid].researchResults)
  {
    assert forall i :: 0 <= i < |db.reservations| ==> db.reservations[i] in db.reservations;
  }

  /** A settlement closes an open reservation of the session with at most what it held, and gives the rest back. */
  lemma ReservationSettled(db: Db, id: Id, sid: Id, accepted: int, now: Time)
    ensures var o := Store.SettleResearch(db, id, sid, accepted, now);
            var at := Store.FindReservation(db.reservations, id, sid);
            && (o.Committed? <==>
                  at >= 0 && db.reservations[at].settledAt.None? && sid in db.budgets
                  && 0 <= accepted <= 3 && accepted <= db.reservations[at].reserved)
            && (o.Committed? ==>
                  && o.value == db.budgets[sid].(researchResults := o.value.researchResults)
                  && o.value.researchResults + accepted == db.budgets[sid].researchResults + db.reservations[at].reserved
                  && o.db == db.(budgets := db.budgets[sid := o.value], reservations := o.db.reservations)
                  && |o.db.reservations| == |db.reservations|
                  && (forall k :: 0 <= k < |db.reservations| ==>
                        o.db.reservations[k] == if k != at then db.reservations[k]
                                                else db.reservations[at].(accepted := Some(accepted), settledAt := Some(now))))
  {
    hide Store.FindReservation;
  }

  // ---- evidence, attempts and decisions

  predicate WithinSession(db: Db, sid: Id, at: Time) {
    sid in db.sessions && db.sessions[sid].startsAt <= at && at < db.sessions[sid].expiresAt
  }

  /** An attempt is recorded exactly for its session's caller, in its lifetime, on evidence of its own. */
  lemma AttemptRecorded(db: Db, attempt: Attempt)
    ensures var o, ids := Store.AppendAttempt(db, attempt), attempt.exposureIds;
            && (o.Committed? <==>
                  && WithinSession(db, attempt.sessionId, attempt.attemptedAt)
                  && db.sessions[attempt.sessionId].scope.callerId == attempt.callerId
                  && |ids| <= 16 && (forall i, j :: 0 <= i < j < |ids| ==> ids[i] != ids[j])
                  && (forall id :: id in ids ==>
                        && id in db.exposures && db.exposures[id].sessionId == attempt.sessionId
                        && db.exposures[id].retrievedAt <= attempt.attemptedAt)
                  && attempt.attemptId !in db.attempts)
            && (o.Committed? ==> o.db == db.(attempts := db.attempts[attempt.attemptId := attempt]))
  {
    assert forall i :: 0 <= i < |attempt.exposureIds| ==> attempt.exposureIds[i] in attempt.exposureIds;
  }

  /** A decision is recorded exactly for an attempt of its session, not before it, and once. */
  lemma DecisionRecorded(db: Db, decision: Decision)
    ensures var o := Store.AppendDecision(db, decision);
            && (o.Committed? <==>
                  && decision.attemptId in db.attempts
                  && db.attempts[decision.attemptId].sessionId == decision.sessionId
                  && db.attempts[decision.attemptId].attemptedAt <= decision.decidedAt
                  && (forall d :: d in db.decisions ==>
                        d.attemptId != decision.attemptId && d.decisionId != decision.decisionId))
            && (o.Committed? ==> o.db == db.(decisions := db.decisions + [decision]))
  {
    assert forall i :: 0 <= i < |db.decisions| ==> db.decisions[i] in db.decisions;
  }

  /** One to three fresh exposures inside the lifetime of their sessions are added, or none is. */
  lemma ExposuresRecorded(db: Db, batch: seq<Store.NewExposure>)
    ensures var o := Store.AppendExposures(db, batch);
            && (o.Committed? <==>
                  && 1 <= |batch| <= 3
                  && (forall i, j :: 0 <= i < j < |batch| ==> batch[i].exposureId != batch[j].exposureId)
                  && (forall e :: e in batch ==>
                        e.exposureId !in db.exposures && WithinSession(db, e.exposure.sessionId, e.exposure.retrievedAt)))
            && (o.Committed? ==>
                  && o.db == db.(exposures := o.db.exposures)
                  && (forall e :: e in batch ==> e.exposureId in o.db.exposures && o.db.exposures[e.exposureId] == e.exposure)
                  && (forall id :: id in o.db.exposures ==>
                        (exists e :: e in batch && e.exposureId == id)
                        || (id in db.exposures && o.db.exposures[id] == db.exposures[id]))
                  && (forall id :: id in db.exposures ==> id in o.db.exposures))
  {
    var o := Store.AppendExposures(db, batch);
    assert forall i :: 0 <= i < |batch| ==> batch[i] in batch;
    if o.Committed? { ExposuresAdded(db.exposures, batch); }
  }

  lemma {:induction false} ExposuresAdded(exposures: map<Id, Exposure>, batch: seq<Store.NewExposure>)
    requires forall i, j :: 0 <= i < j < |batch| ==> batch[i].exposureId != batch[j].exposureId
    ensures var after := Store.AddExposures(exposures, batch);
            && (forall e :: e in batch ==> e.exposureId in after && after[e.exposureId] == e.exposure)
            && (forall id :: id in after ==>
                  (exists e :: e in batch && e.exposureId == id) || (id in exposures && after[id] == exposures[id]))
            && (forall id :: id in exposures ==> id in after)
  {
    if |batch| > 0 {
      var before, last := batch[..|batch| - 1], batch[|batch| - 1];
      ExposuresAdded(exposures, before);
      assert last in batch && forall e :: e in before ==> e in batch;
      assert forall e :: e in batch ==> e in before || e == last;
    }
  }
}
