/** The store as the program writes it: statements against mutable tables, inside BEGIN IMMEDIATE and ROLLBACK. */
module AuthorityStores {
  import opened Records
  import opened Rows
  import Store
  import Plans
  import Views

  /** How a call ends: with a value, or with an exception. */
  datatype Result<+T> = Returned(value: T) | Raised

  /** What a caller sees of a transaction. */
  function Seen<T>(outcome: Outcome<T>): Result<T> {
    match outcome case Committed(_, value) => Returned(value) case Threw => Raised
  }

  /** UPDATE worker_boundary_events SET disposition = 'revoked' WHERE event_id = ?. */
  function MarkRevoked(events: seq<BoundaryEvent>, eventId: Id): (after: seq<BoundaryEvent>)
    ensures |after| == |events|
    ensures forall i :: 0 <= i < |events| ==>
              after[i] == if events[i].eventId == eventId then events[i].(disposition := RevokeSession) else events[i]
  {
    if |events| == 0 then []
    else
      var last := |events| - 1;
      MarkRevoked(events[..last], eventId)
      + [if events[last].eventId == eventId then events[last].(disposition := RevokeSession) else events[last]]
  }

  /** The update reaches the event just inserted, and no other. */
  lemma MarksLast(events: seq<BoundaryEvent>, event: BoundaryEvent)
    requires !Store.EventRecorded(events, event.eventId)
    ensures MarkRevoked(events + [event], event.eventId) == events + [event.(disposition := RevokeSession)]
  {
    assert forall i :: 0 <= i < |events| ==> events[i].eventId != event.eventId;
  }

  class Database {
    var sessions: map<Id, Session>
    var budgets: map<Id, Budget>
    var connections: map<Id, Connection>
    var bindings: set<(Id, Id)>
    var approvals: map<Id, ApprovalRow>
    var reservations: seq<Reservation>
    var executions: seq<Execution>
    var events: seq<BoundaryEvent>
    var audit: seq<AuditRow>
    var plans: seq<PlanRow>
    var planExecutions: seq<PlanExecution>
    var pending: seq<PendingRow>
    var exposures: map<Id, Exposure>
    var attempts: map<Id, Attempt>
    var decisions: seq<Decision>

    function Contents(): Db
      reads this
    {
      Db(sessions, budgets, connections, bindings, approvals, reservations, executions, events, audit,
         plans, planExecutions, pending, exposures, attempts, decisions)
    }

    constructor ()
      ensures Contents() == EmptyDb
    {
      sessions, budgets, connections, bindings, approvals := map[], map[], map[], {}, map[];
      reservations, executions, events, audit := [], [], [], [];
      plans, planExecutions, pending := [], [], [];
      exposures, attempts, decisions := map[], map[], [];
    }

    /** ROLLBACK. */
    method Restore(saved: Db)
      modifies this
      ensures Contents() == saved
    {
      RestoreSessions(saved);
      RestoreWork(saved);
      RestorePlans(saved);
      RestoreContext(saved);
    }

    method RestoreSessions(saved: Db)
      modifies `sessions, `budgets, `connections, `bindings
      ensures sessions == saved.sessions && budgets == saved.budgets
      ensures connections == saved.connections && bindings == saved.bindings
    {
      sessions, budgets, connections, bindings := saved.sessions, saved.budgets, saved.connections, saved.bindings;
    }

    method RestoreWork(saved: Db)
      modifies `approvals, `reservations, `executions, `events
      ensures approvals == saved.approvals && reservations == saved.reservations
      ensures executions == saved.executions && events == saved.events
    {
      approvals, reservations, executions, events := saved.approvals, saved.reservations, saved.executions, saved.events;
    }

    method RestorePlans(saved: Db)
      modifies `audit, `plans, `planExecutions, `pending
      ensures audit == saved.audit && plans == saved.plans
      ensures planExecutions == saved.planExecutions && pending == saved.pending
    {
      audit, plans, planExecutions, pending := saved.audit, saved.plans, saved.planExecutions, saved.pending;
    }

    method RestoreContext(saved: Db)
      modifies `exposures, `attempts, `decisions
      ensures exposures == saved.exposures && attempts == saved.attempts && decisions == saved.decisions
    {
      exposures, attempts, decisions := saved.exposures, saved.attempts, saved.decisions;
    }

    /** UPDATE sessions SET status = ?, updated_at = ? WHERE session_id = ? AND status = 'active'. */
    method EndActive(sid: Id, status: Status, now: Time) returns (changes: nat)
      modifies `sessions
      ensures changes == if sid in old(sessions) && old(sessions[sid].status) == Active then 1 else 0
      ensures sessions == if changes == 1 then Store.WithStatus(old(sessions), sid, status, now) else old(sessions)
    {
      if sid in sessions && sessions[sid].status == Active {
        sessions := sessions[sid := sessions[sid].(status := status, updatedAt := now)];
        return 1;
      }
      return 0;
    }
  }

  class SessionPlans {
    const db: Database

    constructor (db: Database)
      ensures this.db == db
    {
      this.db := db;
    }

    method Save(grant: Grant, now: Time) returns (result: Result<()>)
      modifies db`plans
      ensures result == Seen(Plans.StorePlan(old(db.Contents()), grant, now))
      ensures db.Contents() == Plans.StorePlan(old(db.Contents()), grant, now).After(old(db.Contents()))
    {
      var plan := grant.plan;
      if !plan.Valid() || plan.sessionId !in db.sessions { return Raised; }
      var session := db.sessions[plan.sessionId];
      if || session.status != Active || session.scope != plan.scope
         || plan.startsAt < session.startsAt || plan.expiresAt > session.expiresAt
         || now < plan.startsAt || now >= plan.expiresAt || now < grant.confirmedAt
         || (grant.development && now - grant.confirmedAt > 30_000)
      {
        return Raised;
      }
      var at := Plans.Current(db.plans, plan.sessionId);
      if plan.version != (if at < 0 then 0 else db.plans[at].grant.plan.version) + 1 { return Raised; }
      if exists i :: 0 <= i < |plan.targets| && !Plans.Covers(db.Contents(), plan.sessionId, plan.targets[i]) {
        return Raised;
      }
      if exists i :: 0 <= i < |db.plans| && db.plans[i].grant.grantId == grant.grantId { return Raised; }
      db.plans := db.plans + [PlanRow(grant, None, 0, 0)];
      return Returned(());
    }

    method Revoke(sid: Id, grantId: Id, now: Time) returns (changed: bool)
      modifies db`plans
      ensures Returned(changed) == Seen(Plans.RevokePlan(old(db.Contents()), sid, grantId, now))
      ensures db.Contents() == Plans.RevokePlan(old(db.Contents()), sid, grantId, now).After(old(db.Contents()))
    {
      changed := exists i :: 0 <= i < |db.plans| && Plans.Revocable(db.plans[i], sid, grantId);
      db.plans := Plans.RevokeRows(db.plans, sid, grantId, now);
    }

    /** The block closure: keep the first proposal of a request while the queue has room. */
    method Block(input: Plans.PlanCheck, reason: BlockReason, now: Time) returns (result: Plans.CheckResult)
      modifies db`pending
      ensures result == Plans.Blocked(reason)
      ensures db.Contents() == old(db.Contents()).(pending := Plans.Enqueue(old(db.pending), input, reason, now))
    {
      var request := input.request;
      var existing := Plans.Queue(db.pending, request.sessionId);
      var pendingBytes := Plans.EntryBytes(request, reason);
      if |existing| < 32 && Plans.ArrayBytes(existing) + pendingBytes < 48 * 1024 {
        var row := PendingRow(request.sessionId, request.requestId, request, input.requestDigest, reason, now);
        if !Plans.Queued(db.pending, request.sessionId, request.requestId) {
          db.pending := db.pending + [row];
        }
      }
      return Plans.Blocked(reason);
    }

    /** The three statements of a consumption. */
    method Execute(input: Plans.PlanCheck, at: nat, target: Target, now: Time)
      requires at < |db.plans|
      modifies db`plans, db`planExecutions, db`pending
      ensures db.Contents() == Plans.ConsumePlan(old(db.Contents()), input, at, target, now)
    {
      hide Plans.Dequeue;
      var request, state := input.request, db.plans[at];
      db.planExecutions := db.planExecutions
        + [PlanExecution(request.sessionId, request.requestId, input.requestDigest, state.grant.grantId,
                         Plans.KeyOf(target), now)];
      db.plans := db.plans[at :=
        state.(usedActions := state.usedActions + 1, usedMutations := state.usedMutations + if target.merge then 1 else 0)];
      db.pending := Plans.Dequeue(db.pending, request.sessionId, request.requestId);
    }

    method Check(input: Plans.PlanCheck, now: Time) returns (result: Plans.CheckResult)
      modifies db`plans, db`planExecutions, db`pending
      ensures Returned(result) == Seen(Plans.CheckPlan(old(db.Contents()), input, now))
      ensures db.Contents() == Plans.CheckPlan(old(db.Contents()), input, now).After(old(db.Contents()))
    {
      hide Plans.Enqueue, Plans.ConsumePlan, Plans.Coverage, Plans.Covers, Plans.Current, Plans.FindTarget, Plans.DecideTarget;
      var request := input.request;
      var at := Plans.Current(db.plans, request.sessionId);
      if at < 0 { return Plans.Absent; }
      if input.phase == Plans.Defer {
        result := Block(input, if input.blockReason.Some? then input.blockReason.value else BindingMismatch, now);
        return;
      }
      if input.blockReason.Some? { result := Block(input, BindingMismatch, now); return; }
      var state := db.plans[at];
      var grant, plan := state.grant, state.grant.plan;
      if || request.sessionId !in db.sessions || db.sessions[request.sessionId].status != Active
         || request.scope != plan.scope || db.sessions[request.sessionId].scope != plan.scope
         || (input.expectedGrantId.Some? && input.expectedGrantId.value != grant.grantId)
      {
        result := Block(input, BindingMismatch, now);
        return;
      }
      var session := db.sessions[request.sessionId];
      if state.revokedAt.Some? { result := Block(input, PlanRevoked, now); return; }
      if now < plan.startsAt || now >= plan.expiresAt || now >= session.expiresAt {
        result := Block(input, PlanExpired, now);
        return;
      }
      var found := Plans.FindTarget(plan.targets, request);
      if found.None? { result := Block(input, OutOfPlan, now); return; }
      var target := found.value;
      if !Plans.Covers(db.Contents(), request.sessionId, target) {
        result := Block(input, BindingMismatch, now);
        return;
      }
      result := CheckTarget(input, at, target, now);
    }

    /** The rest of the check, for a request that matches a covered target of a live plan. */
    method CheckTarget(input: Plans.PlanCheck, at: nat, target: Target, now: Time) returns (result: Plans.CheckResult)
      requires at < |db.plans|
      requires Plans.Decide(db.Contents(), input, now) == Plans.DecideTarget(db.Contents(), input, at, target)
      modifies db`plans, db`planExecutions, db`pending
      ensures Returned(result) == Seen(Plans.CheckPlan(old(db.Contents()), input, now))
      ensures db.Contents() == Plans.CheckPlan(old(db.Contents()), input, now).After(old(db.Contents()))
    {
      hide Plans.Decide, Plans.CheckPlan, Plans.Enqueue, Plans.ConsumePlan, Plans.Replays, Plans.Coverage, Plans.KeyOf;
      Plans.TargetDecides(db.Contents(), input, at, target, now);
      hide Database.Contents;
      var request, state, grant := input.request, db.plans[at], db.plans[at].grant;
      var plan := grant.plan;
      var mutation := target.merge;
      if input.observedBaseBranch.Some? && input.observedBaseBranch.value != target.baseBranch {
        result := Block(input, ResourceChanged, now);
        return;
      }
      if && input.phase == Plans.Consume
         && (input.expectedGrantId.None? || (mutation && input.observedBaseBranch.None?))
      {
        result := Block(input, BindingMismatch, now);
        return;
      }
      var mutationKey := Plans.KeyOf(target);
      if exists i :: 0 <= i < |db.planExecutions|
                     && Plans.Replays(db.planExecutions[i], request.sessionId, request.requestId, mutationKey)
      {
        result := Block(input, PlanReplayed, now);
        return;
      }
      if state.usedActions >= plan.maxActions || (mutation && state.usedMutations >= plan.maxMutations) {
        result := Block(input, PlanExhausted, now);
        return;
      }
      if input.phase == Plans.Consume { Execute(input, at, target, now); }
      return Plans.Allowed(grant.grantId, grant.planDigest, target.baseBranch);
    }
  }

  class AuthorityStore {
    const db: Database

    constructor ()
      ensures fresh(db) && db.Contents() == EmptyDb
    {
      db := new Database();
    }

    // ---- sessions and connections

    method InsertSession(sid: Id, session: Session, budget: Budget, connectionIds: seq<Id>) returns (result: Result<()>)
      requires session.status == Active && Store.Distinct(connectionIds)
      modifies db`sessions, db`budgets, db`bindings
      ensures result == if || sid in old(db.sessions)
                           || exists i :: 0 <= i < |connectionIds| && connectionIds[i] !in db.connections
                        then Raised else Returned(())
      ensures result.Returned? ==> db.sessions == old(db.sessions)[sid := session]
      ensures result.Returned? ==> db.budgets == old(db.budgets)[sid := budget]
      ensures result.Returned? ==> db.bindings == old(db.bindings) + set c | c in connectionIds :: (sid, c)
    {
      if sid in db.sessions { return Raised; }
      db.sessions := db.sessions[sid := session];
      db.budgets := db.budgets[sid := budget];
      for i := 0 to |connectionIds|
        invariant forall j :: 0 <= j < i ==> connectionIds[j] in db.connections
        invariant db.sessions == old(db.sessions)[sid := session] && db.budgets == old(db.budgets)[sid := budget]
        invariant db.bindings == old(db.bindings) + set c | c in connectionIds[..i] :: (sid, c)
      {
        if connectionIds[i] !in db.connections { return Raised; }
        db.bindings := db.bindings + {(sid, connectionIds[i])};
        assert connectionIds[..i + 1] == connectionIds[..i] + [connectionIds[i]];
      }
      assert connectionIds[..|connectionIds|] == connectionIds;
      return Returned(());
    }

    method CreateSession(sid: Id, session: Session, budget: Budget, connectionIds: seq<Id>) returns (result: Result<()>)
      modifies db
      ensures result == Seen(Store.CreateSession(old(db.Contents()), sid, session, budget, connectionIds))
      ensures db.Contents()
           == Store.CreateSession(old(db.Contents()), sid, session, budget, connectionIds).After(old(db.Contents()))
    {
      if || session.expiresAt <= session.startsAt || session.updatedAt < session.createdAt || !Store.ValidBudget(budget)
         || session.status != Active || !Store.Distinct(connectionIds)
      {
        return Raised;
      }
      var saved := db.Contents();
      result := InsertSession(sid, session, budget, connectionIds);
      if result.Raised? { db.Restore(saved); }
    }

    method CreateConnection(id: Id, connection: Connection) returns (result: Result<()>)
      modifies db`connections
      ensures result == Seen(Store.CreateConnection(old(db.Contents()), id, connection))
      ensures db.Contents() == Store.CreateConnection(old(db.Contents()), id, connection).After(old(db.Contents()))
    {
      if !connection.active || id in db.connections { return Raised; }
      db.connections := db.connections[id := connection];
      return Returned(());
    }

    method RevokeConnection(id: Id) returns (changed: bool)
      modifies db`connections
      ensures Returned(changed) == Seen(Store.RevokeConnection(old(db.Contents()), id))
      ensures db.Contents() == Store.RevokeConnection(old(db.Contents()), id).After(old(db.Contents()))
    {
      if id !in db.connections || !db.connections[id].active { return false; }
      db.connections := db.connections[id := db.connections[id].(active := false)];
      return true;
    }

    method InterruptActiveSessions(now: Time) returns (result: Result<nat>)
      modifies db`sessions
      ensures result == Seen(Store.InterruptActiveSessions(old(db.Contents()), now))
      ensures db.Contents() == Store.InterruptActiveSessions(old(db.Contents()), now).After(old(db.Contents()))
    {
      if exists sid :: sid in db.sessions && Store.StartsInFuture(db.sessions[sid], now) { return Raised; }
      var interrupted := set sid | sid in db.sessions && db.sessions[sid].status == Active;
      db.sessions := map sid | sid in db.sessions :: Store.Interrupt(db.sessions[sid], now);
      return Returned(|interrupted|);
    }

    method ConsumeToolCall(sid: Id, now: Time) returns (left: Option<Budget>)
      modifies db`budgets
      ensures Returned(left) == Seen(Store.ConsumeToolCall(old(db.Contents()), sid, now))
      ensures db.Contents() == Store.ConsumeToolCall(old(db.Contents()), sid, now).After(old(db.Contents()))
    {
      if sid in db.budgets && db.budgets[sid].toolCalls >= 1 && Store.Open(db.Contents(), sid, now) {
        db.budgets := db.budgets[sid := db.budgets[sid].(toolCalls := db.budgets[sid].toolCalls - 1)];
        return Some(db.budgets[sid]);
      }
      return None;
    }

    // ---- worker boundary

    method WorkerSessionUnavailable(sid: Id, now: Time) returns (result: Result<Option<Store.Reason>>)
      modifies db`sessions
      ensures result.Raised? <==> sid !in old(db.sessions) || sid !in db.budgets
      ensures result.Raised? ==> db.sessions == old(db.sessions)
      ensures result.Returned? ==> result.value == Store.Unavailable(old(db.sessions[sid]), now)
      ensures result.Returned? ==> db.sessions == if result.value.None? then old(db.sessions)
                                                  else Store.Noticed(old(db.sessions), sid, result.value.value, now)
    {
      if sid !in db.sessions || sid !in db.budgets { return Raised; }
      var session := db.sessions[sid];
      var reason: Option<Store.Reason> := None;
      if session.status == Revoked {
        reason := Some(Store.SessionRevoked);
      } else if session.status != Active || now < session.startsAt {
        reason := Some(Store.NotActive);
      } else if now >= session.expiresAt {
        var _ := db.EndActive(sid, Expired, now);
        reason := Some(Store.SessionExpired);
      }
      return Returned(reason);
    }

    /** Insert the denial, count the window, then revoke and rewrite the disposition when the count says so. */
    method RecordViolationInTransaction(
      sid: Id, boundaryId: Id, digest: Digest, code: ViolationCode, eventId: Id, now: Time)
      returns (result: Result<Store.Authorization>)
      modifies db`sessions, db`events
      ensures result == Seen(Store.Deny(old(db.Contents()), sid, boundaryId, digest, code, eventId, now))
      ensures result.Returned? ==>
                db.Contents() == Store.Deny(old(db.Contents()), sid, boundaryId, digest, code, eventId, now).db
    {
      hide Store.OrdinaryCount, Store.EventRecorded, MarkRevoked;
      var severity := Store.SeverityOf(code);
      if Store.EventRecorded(db.events, eventId) || sid !in db.sessions { return Raised; }
      db.events := db.events
        + [BoundaryEvent(eventId, sid, boundaryId, digest, Violation(code), severity, ContinueSession, now)];
      var ordinary := Store.OrdinaryCount(db.events, sid, now - Store.WINDOW, now);
      var revoke := severity == Critical || ordinary >= Store.THRESHOLD;
      if revoke {
        var changes := db.EndActive(sid, Revoked, now);
        if changes != 1 { return Raised; }
        MarksLast(old(db.events), db.events[|db.events| - 1]);
        db.events := MarkRevoked(db.events, eventId);
      }
      if sid !in db.budgets { return Raised; }
      assert db.events == old(db.events)
        + [Store.Denial(sid, boundaryId, digest, code, eventId, now, if revoke then RevokeSession else ContinueSession)];
      return Returned(Store.ExecutionDenied(revoke, db.budgets[sid]));
    }

    /** The budget update and the row of an execution that is granted. */
    method Grant(sid: Id, executionId: Id, digest: Digest, tool: Tool, now: Time) returns (left: Budget)
      requires sid in db.budgets
      modifies db`budgets, db`executions
      ensures left == Store.Spend(old(db.budgets)[sid], tool) && db.budgets == old(db.budgets)[sid := left]
      ensures db.executions == old(db.executions) + [Execution(executionId, sid, digest, tool, now)]
    {
      var budget := db.budgets[sid];
      left := budget.(
        toolCalls := budget.toolCalls - (if tool == ExternalTool then 0 else 1),
        localCommands := budget.localCommands - (if tool == LocalCommandTool then 1 else 0));
      db.budgets := db.budgets[sid := left];
      db.executions := db.executions + [Execution(executionId, sid, digest, tool, now)];
    }

    method ConsumeInTransaction(sid: Id, executionId: Id, digest: Digest, tool: Tool, eventId: Id, now: Time)
      returns (result: Result<Store.Authorization>)
      modifies db`sessions, db`budgets, db`executions, db`events
      ensures result == Seen(Store.ConsumeExecution(old(db.Contents()), sid, executionId, digest, tool, eventId, now))
      ensures result.Returned? ==>
                db.Contents() == Store.ConsumeExecution(old(db.Contents()), sid, executionId, digest, tool, eventId, now).db
    {
      hide Store.Deny, Store.Noticed, Store.Replayed, Store.Spend;
      var unavailable := WorkerSessionUnavailable(sid, now);
      if unavailable.Raised? { return Raised; }
      if unavailable.value.Some? {
        return Returned(Store.ExecutionUnavailable(unavailable.value.value, db.budgets[sid]));
      }
      if Store.Replayed(db.executions, sid, executionId, digest) {
        result := RecordViolationInTransaction(sid, executionId, digest, ExecutionReplay, eventId, now);
        return;
      }
      var budget := db.budgets[sid];
      var commands := if tool == LocalCommandTool then 1 else 0;
      if !(budget.toolCalls >= 1 && budget.localCommands >= commands && Store.Open(db.Contents(), sid, now)) {
        result := RecordViolationInTransaction(sid, executionId, digest, VolumeExhausted, eventId, now);
        return;
      }
      var left := Grant(sid, executionId, digest, tool, now);
      return Returned(Store.ExecutionAllowed(left));
    }

    method ConsumeWorkerExecution(sid: Id, executionId: Id, digest: Digest, tool: Tool, eventId: Id, now: Time)
      returns (result: Result<Store.Authorization>)
      modifies db
      ensures result == Seen(Store.ConsumeExecution(old(db.Contents()), sid, executionId, digest, tool, eventId, now))
      ensures db.Contents()
           == Store.ConsumeExecution(old(db.Contents()), sid, executionId, digest, tool, eventId, now).After(old(db.Contents()))
    {
      hide Store.ConsumeExecution;
      var saved := db.Contents();
      result := ConsumeInTransaction(sid, executionId, digest, tool, eventId, now);
      if result.Raised? { db.Restore(saved); }
    }

    method RecordWorkerViolation(
      sid: Id, boundaryId: Id, digest: Digest, code: ViolationCode, eventId: Id, now: Time)
      returns (result: Result<Store.Authorization>)
      modifies db
      ensures result == Seen(Store.RecordViolation(old(db.Contents()), sid, boundaryId, digest, code, eventId, now))
      ensures db.Contents()
           == Store.RecordViolation(old(db.Contents()), sid, boundaryId, digest, code, eventId, now).After(old(db.Contents()))
    {
      hide Store.Deny, Store.Noticed;
      var saved := db.Contents();
      if !Store.ClockReached(db.events, sid, now) { return Raised; }
      var unavailable := WorkerSessionUnavailable(sid, now);
      if unavailable.Raised? { return Raised; }
      if unavailable.value.Some? {
        return Returned(Store.ExecutionUnavailable(unavailable.value.value, db.budgets[sid]));
      }
      result := RecordViolationInTransaction(sid, boundaryId, digest, code, eventId, now);
      if result.Raised? { db.Restore(saved); }
    }

    /** Whether an interruption or completion finds the session active and inside its lifetime. */
    method LapseIfExpired(sid: Id, now: Time)
      modifies db`sessions
      ensures db.sessions == Store.Lapse(old(db.sessions), sid, now)
    {
      if sid in db.sessions && db.sessions[sid].status == Active && now >= db.sessions[sid].expiresAt {
        var _ := db.EndActive(sid, Expired, now);
      }
    }

    method InterruptWorkerSession(
      sid: Id, boundaryId: Id, digest: Digest, failure: FailureCode, eventId: Id, now: Time)
      returns (result: Result<bool>)
      modifies db
      ensures result == Seen(Store.InterruptWorkerSession(old(db.Contents()), sid, boundaryId, digest, failure, eventId, now))
      ensures db.Contents()
           == Store.InterruptWorkerSession(old(db.Contents()), sid, boundaryId, digest, failure, eventId, now)
                .After(old(db.Contents()))
    {
      hide Store.Lapse;
      if !Store.ClockReached(db.events, sid, now) { return Raised; }
      if || sid !in db.sessions || db.sessions[sid].status != Active
         || now < db.sessions[sid].startsAt || now >= db.sessions[sid].expiresAt
      {
        LapseIfExpired(sid, now);
        return Returned(false);
      }
      if Store.EventRecorded(db.events, eventId) { return Raised; }
      db.events := db.events
        + [BoundaryEvent(eventId, sid, boundaryId, digest, Interruption(failure), FailureSeverity, InterruptSession, now)];
      var changes := db.EndActive(sid, Interrupted, now);
      assert changes == 1;
      return Returned(true);
    }

    // ---- audit log

    method AppendNextAuditEvent(sid: Id, eventId: Id, now: Time, body: AuditBody) returns (result: Result<int>)
      modifies db`audit
      ensures result.Returned? <==> Store.CanAppend(old(db.audit), sid, eventId, now)
      ensures result.Returned? ==> db.audit == Store.AppendNext(old(db.audit), sid, eventId, now, body)
      ensures result.Returned? ==> result.value == Store.NextSequence(old(db.audit), sid)
    {
      var latest := Store.Latest(db.audit, sid);
      if latest >= 0 && db.audit[latest].occurredAt > now { return Raised; }
      if Store.AuditRecorded(db.audit, eventId) { return Raised; }
      var sequence := (if latest < 0 then 0 else db.audit[latest].sequence) + 1;
      db.audit := db.audit + [AuditRow(eventId, sid, sequence, now, body)];
      return Returned(sequence);
    }

    method RecordWorkerAuditEvent(sid: Id, boundaryId: Id, digest: Digest, detail: nat, eventId: Id, now: Time)
      returns (result: Result<int>)
      modifies db
      ensures result == Seen(Store.RecordAudit(old(db.Contents()), sid, boundaryId, digest, detail, eventId, now))
      ensures db.Contents()
           == Store.RecordAudit(old(db.Contents()), sid, boundaryId, digest, detail, eventId, now).After(old(db.Contents()))
    {
      hide Store.CanAppend, Store.NextSequence;
      var saved := db.Contents();
      if !Store.ClockReached(db.events, sid, now) { return Raised; }
      if || sid !in db.sessions || db.sessions[sid].status != Active
         || now < db.sessions[sid].startsAt || now >= db.sessions[sid].expiresAt
         || Plans.CurrentRevoked(db.Contents(), sid)
      {
        return Raised;
      }
      if !Store.Bound(db.Contents(), sid, boundaryId, digest) { return Raised; }
      result := AppendNextAuditEvent(sid, eventId, now, WorkerEvent(boundaryId, digest, detail));
      if result.Raised? { db.Restore(saved); }
    }

    /** The two closing events around the status change. */
    method CloseInTransaction(
      sid: Id, boundaryId: Id, digest: Digest, resultDigest: Digest, firstId: Id, secondId: Id, now: Time)
      returns (result: Result<bool>)
      requires Store.Open(db.Contents(), sid, now)
      modifies db`sessions, db`audit
      ensures result == if Store.CanClose(old(db.audit), sid, boundaryId, digest, resultDigest, firstId, secondId, now)
                        then Returned(true) else Raised
      ensures result.Returned? ==> db.sessions == Store.WithStatus(old(db.sessions), sid, Completed, now)
      ensures result.Returned? ==>
                db.audit == Store.Close(old(db.audit), sid, boundaryId, digest, resultDigest, firstId, secondId, now)
    {
      hide Store.CanAppend, Store.AppendNext, Store.NextSequence;
      var first := AppendNextAuditEvent(sid, firstId, now, CompletionReturned(boundaryId, digest, resultDigest));
      if first.Raised? { return Raised; }
      var changes := db.EndActive(sid, Completed, now);
      assert changes == 1;
      var second := AppendNextAuditEvent(sid, secondId, now, SessionTerminal(boundaryId, digest));
      return if second.Raised? then Raised else Returned(true);
    }

    method CompleteWorkerSession(
      sid: Id, boundaryId: Id, digest: Digest, resultDigest: Digest, firstId: Id, secondId: Id, now: Time)
      returns (result: Result<bool>)
      modifies db
      ensures result == Seen(Store.CompleteWorkerSession(
                               old(db.Contents()), sid, boundaryId, digest, resultDigest, firstId, secondId, now))
      ensures db.Contents()
           == Store.CompleteWorkerSession(old(db.Contents()), sid, boundaryId, digest, resultDigest, firstId, secondId, now)
                .After(old(db.Contents()))
    {
      hide Store.Lapse, Store.CanClose, Store.Close, Store.WithStatus;
      var saved := db.Contents();
      if !Store.ClockReached(db.events, sid, now) { return Raised; }
      if || sid !in db.sessions || db.sessions[sid].status != Active
         || now < db.sessions[sid].startsAt || now >= db.sessions[sid].expiresAt
         || Plans.CurrentRevoked(db.Contents(), sid)
      {
        LapseIfExpired(sid, now);
        return Returned(false);
      }
      result := CloseInTransaction(sid, boundaryId, digest, resultDigest, firstId, secondId, now);
      if result.Raised? { db.Restore(saved); }
    }

    method AppendAuditEvent(row: AuditRow) returns (result: Result<()>)
      modifies db`audit
      ensures result == Seen(Store.AppendAuditEvent(old(db.Contents()), row))
      ensures db.Contents() == Store.AppendAuditEvent(old(db.Contents()), row).After(old(db.Contents()))
    {
      if Store.NextSequence(db.audit, row.sessionId) != row.sequence { return Raised; }
      if row.sessionId !in db.sessions || Store.AuditRecorded(db.audit, row.eventId) { return Raised; }
      db.audit := db.audit + [row];
      return Returned(());
    }

    // ---- research reservations

    method ReserveResearch(sid: Id, requested: int, reservationId: Id, now: Time) returns (result: Result<Option<Budget>>)
      modifies db
      ensures result == Seen(Store.ReserveResearch(old(db.Contents()), sid, requested, reservationId, now))
      ensures db.Contents()
           == Store.ReserveResearch(old(db.Contents()), sid, requested, reservationId, now).After(old(db.Contents()))
    {
      if requested < 1 || requested > 3 { return Raised; }
      var saved := db.Contents();
      if || sid !in db.budgets || db.budgets[sid].toolCalls < 1 || db.budgets[sid].researchRequests < 1
         || db.budgets[sid].researchResults < requested || !Store.Open(db.Contents(), sid, now)
      {
        return Returned(None);
      }
      db.budgets := db.budgets[sid := db.budgets[sid].(
        toolCalls := db.budgets[sid].toolCalls - 1,
        researchRequests := db.budgets[sid].researchRequests - 1,
        researchResults := db.budgets[sid].researchResults - requested)];
      if Store.ReservationRecorded(db.reservations, reservationId) {
        db.Restore(saved);
        return Raised;
      }
      db.reservations := db.reservations + [Reservation(reservationId, sid, requested, None, None)];
      return Returned(Some(db.budgets[sid]));
    }

    method SettleResearchResults(reservationId: Id, sid: Id, accepted: int, now: Time) returns (result: Result<Budget>)
      modifies db`budgets, db`reservations
      ensures result == Seen(Store.SettleResearch(old(db.Contents()), reservationId, sid, accepted, now))
      ensures db.Contents()
           == Store.SettleResearch(old(db.Contents()), reservationId, sid, accepted, now).After(old(db.Contents()))
    {
      if accepted < 0 || accepted > 3 { return Raised; }
      var at := Store.FindReservation(db.reservations, reservationId, sid);
      if at < 0 || db.reservations[at].settledAt.Some? || accepted > db.reservations[at].reserved { return Raised; }
      var reserved := db.reservations[at].reserved;
      if sid !in db.budgets { return Raised; }
      db.budgets := db.budgets[sid := db.budgets[sid].(
        researchResults := db.budgets[sid].researchResults + (reserved - accepted))];
      db.reservations := db.reservations[at :=
        db.reservations[at].(accepted := Some(accepted), settledAt := Some(now))];
      return Returned(db.budgets[sid]);
    }

    // ---- plans

    method StoreSessionPlan(grant: Grant, now: Time) returns (result: Result<()>)
      modifies db`plans
      ensures result == Seen(Plans.StorePlan(old(db.Contents()), grant, now))
      ensures db.Contents() == Plans.StorePlan(old(db.Contents()), grant, now).After(old(db.Contents()))
    {
      hide Plans.StorePlan;
      var plans := new SessionPlans(db);
      result := plans.Save(grant, now);
    }

    method RevokeSessionPlan(sid: Id, grantId: Id, now: Time) returns (changed: bool)
      modifies db`plans
      ensures Returned(changed) == Seen(Plans.RevokePlan(old(db.Contents()), sid, grantId, now))
      ensures db.Contents() == Plans.RevokePlan(old(db.Contents()), sid, grantId, now).After(old(db.Contents()))
    {
      hide Plans.RevokePlan;
      var plans := new SessionPlans(db);
      changed := plans.Revoke(sid, grantId, now);
    }

    method CheckSessionPlan(input: Plans.PlanCheck, now: Time) returns (result: Plans.CheckResult)
      modifies db`plans, db`planExecutions, db`pending
      ensures Returned(result) == Seen(Plans.CheckPlan(old(db.Contents()), input, now))
      ensures db.Contents() == Plans.CheckPlan(old(db.Contents()), input, now).After(old(db.Contents()))
    {
      hide Plans.CheckPlan;
      var plans := new SessionPlans(db);
      result := plans.Check(input, now);
    }

    // ---- approvals

    method StoreApproval(approval: Approval) returns (result: Result<()>)
      modifies db`approvals
      ensures result == Seen(Store.StoreApproval(old(db.Contents()), approval))
      ensures db.Contents() == Store.StoreApproval(old(db.Contents()), approval).After(old(db.Contents()))
    {
      if approval.expiresAt <= approval.approvedAt { return Raised; }
      if || approval.sessionId !in db.sessions || db.sessions[approval.sessionId].status != Active
         || db.sessions[approval.sessionId].scope != approval.scope
      {
        return Raised;
      }
      if !Store.BoundConnection(db.Contents(), approval.sessionId, approval.connectionId) { return Raised; }
      if || approval.approvalId in db.approvals
         || exists id :: id in db.approvals && db.approvals[id].approval.nonce == approval.nonce
      {
        return Raised;
      }
      db.approvals := db.approvals[approval.approvalId := ApprovalRow(approval, None)];
      return Returned(());
    }

    method ConsumeApproval(request: Store.Consumption, now: Time) returns (result: Store.ConsumptionResult)
      modifies db`approvals
      ensures Returned(result) == Seen(Store.ConsumeApproval(old(db.Contents()), request, now))
      ensures db.Contents() == Store.ConsumeApproval(old(db.Contents()), request, now).After(old(db.Contents()))
    {
      if || request.approvalId !in db.approvals
         || db.approvals[request.approvalId].approval.sessionId != request.sessionId
         || request.sessionId !in db.sessions
      {
        return Store.ApprovalNotFound;
      }
      var row := db.approvals[request.approvalId];
      var approval, session := row.approval, db.sessions[request.sessionId];
      if || approval.scope.callerId != request.callerId || approval.connectionId != request.connectionId
         || approval.scope.policyVersion != request.policyVersion || approval.requestDigest != request.requestDigest
         || approval.nonce != request.nonce
         || !Store.BoundConnection(db.Contents(), request.sessionId, approval.connectionId)
      {
        return Store.ApprovalMismatch;
      }
      if row.consumedAt.Some? { return Store.ApprovalReplayed; }
      if session.status != Active || now < approval.approvedAt || now < session.startsAt {
        return Store.ApprovalNotActive;
      }
      if now >= approval.expiresAt || now >= session.expiresAt { return Store.ApprovalExpired; }
      db.approvals := db.approvals[request.approvalId := row.(consumedAt := Some(now))];
      return Store.ApprovalConsumed;
    }

    // ---- evidence, attempts and decisions

    method InsertExposures(batch: seq<Store.NewExposure>) returns (result: Result<()>)
      requires forall i, j :: 0 <= i < j < |batch| ==> batch[i].exposureId != batch[j].exposureId
      modifies db`exposures
      ensures result == if exists i :: 0 <= i < |batch|
                             && (batch[i].exposureId in old(db.exposures)
                                 || !Store.ExposureFits(old(db.Contents()), batch[i].exposure))
                        then Raised else Returned(())
      ensures result.Returned? ==> db.exposures == Store.AddExposures(old(db.exposures), batch)
    {
      for i := 0 to |batch|
        invariant db.exposures == Store.AddExposures(old(db.exposures), batch[..i])
        invariant forall j :: 0 <= j < i ==> batch[j].exposureId !in old(db.exposures)
                                             && Store.ExposureFits(old(db.Contents()), batch[j].exposure)
      {
        Views.AddedExposures(old(db.exposures), batch[..i], batch[i].exposureId);
        if !Store.ExposureFits(db.Contents(), batch[i].exposure) { return Raised; }
        if batch[i].exposureId in db.exposures { return Raised; }
        db.exposures := db.exposures[batch[i].exposureId := batch[i].exposure];
        assert batch[..i + 1][..i] == batch[..i];
      }
      assert batch[..|batch|] == batch;
      return Returned(());
    }

    method AppendEvidenceExposures(batch: seq<Store.NewExposure>) returns (result: Result<()>)
      modifies db
      ensures result == Seen(Store.AppendExposures(old(db.Contents()), batch))
      ensures db.Contents() == Store.AppendExposures(old(db.Contents()), batch).After(old(db.Contents()))
    {
      hide Store.ExposureFits, Store.AddExposures;
      if |batch| < 1 || |batch| > 3 { return Raised; }
      if exists i, j :: 0 <= i < j < |batch| && batch[i].exposureId == batch[j].exposureId { return Raised; }
      var saved := db.Contents();
      result := InsertExposures(batch);
      if result.Raised? { db.Restore(saved); }
    }

    method AppendAuthorityAttempt(attempt: Attempt) returns (result: Result<()>)
      modifies db`attempts
      ensures result == Seen(Store.AppendAttempt(old(db.Contents()), attempt))
      ensures db.Contents() == Store.AppendAttempt(old(db.Contents()), attempt).After(old(db.Contents()))
    {
      if !Store.Distinct(attempt.exposureIds) || |attempt.exposureIds| > 16 { return Raised; }
      if || attempt.sessionId !in db.sessions
         || db.sessions[attempt.sessionId].scope.callerId != attempt.callerId
         || attempt.attemptedAt < db.sessions[attempt.sessionId].startsAt
         || attempt.attemptedAt >= db.sessions[attempt.sessionId].expiresAt
      {
        return Raised;
      }
      for i := 0 to |attempt.exposureIds|
        invariant forall j :: 0 <= j < i ==> Store.EvidenceAvailable(db.Contents(), attempt, attempt.exposureIds[j])
      {
        if !Store.EvidenceAvailable(db.Contents(), attempt, attempt.exposureIds[i]) { return Raised; }
      }
      if attempt.attemptId in db.attempts { return Raised; }
      db.attempts := db.attempts[attempt.attemptId := attempt];
      return Returned(());
    }

    method AppendAuthorityDecision(decision: Decision) returns (result: Result<()>)
      modifies db`decisions
      ensures result == Seen(Store.AppendDecision(old(db.Contents()), decision))
      ensures db.Contents() == Store.AppendDecision(old(db.Contents()), decision).After(old(db.Contents()))
    {
      if || decision.attemptId !in db.attempts || db.attempts[decision.attemptId].sessionId != decision.sessionId
         || decision.decidedAt < db.attempts[decision.attemptId].attemptedAt
      {
        return Raised;
      }
      if exists i :: 0 <= i < |db.decisions|
                     && (db.decisions[i].attemptId == decision.attemptId || db.decisions[i].decisionId == decision.decisionId)
      {
        return Raised;
      }
      db.decisions := db.decisions + [decision];
      return Returned(());
    }
  }
}
