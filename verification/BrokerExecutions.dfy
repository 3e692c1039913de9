/** execute() as an object: the variables it updates, and one method for each stretch between two awaits. */
module BrokerExecutions {
  import opened Records
  import opened Broker
  import Store
  import Plans

  /** pc is where the execution waits; every other field is a variable of execute(). */
  class Execution {
    const input: Input
    var pc: Pc
    var scopeDigest: Option<Digest>
    var planGrant: Option<PlanGrant>
    var mergeApproval: Option<Approval>
    var authorizationFloor: Level
    var guardianOutcome: GuardianOutcome
    var adapterCrossed: bool
    var toolConsumed: bool
    var approvalConsumed: bool
    var providerCrossed: bool

    function Now(): Run
      reads this
    {
      Run(input, pc, scopeDigest, planGrant, mergeApproval, authorizationFloor, guardianOutcome,
          adapterCrossed, toolConsumed, approvalConsumed, providerCrossed)
    }

    constructor (input: Input)
      ensures Now() == Begin(input)
    {
      this.input := input;
      scopeDigest, planGrant, mergeApproval := None, None, None;
      authorizationFloor := if input.request.operation.Merge? then LevelConfirm else LevelAllow;
      guardianOutcome := NotAssessed;
      adapterCrossed, toolConsumed, approvalConsumed, providerCrossed := false, false, false, false;
      if !input.request.Valid() {
        pc := Done(Refused(Malformed));
      } else if !input.request.operation.GitHub() {
        pc := Done(Refused(ScopeMismatch));
      } else {
        pc := AskSession;
      }
    }

    /** The deny closure, up to its first await. */
    method Deny(code: Denial)
      modifies `pc
      ensures Now() == Refuse(old(Now()), code)
    {
      var planIsPresent := planGrant.Some?;
      if planIsPresent && code in {StepUpRequired, RiskDenied, RiskUnavailable, ConfirmationRequired, HeadChanged} {
        pc := Deferring(code);
      } else {
        pc := DecideDeny(code);
      }
    }

    method OnSession(db: Db, c: Choice)
      requires pc.AskSession?
      modifies `pc
      ensures Now() == AfterSession(old(Now()), db, c)
    {
      var request, evaluatedAt := input.request, input.evaluatedAt;
      if c.delivery != Delivered { pc := Done(Refused(AuditUnavailable)); return; }
      if || request.sessionId !in db.sessions || db.sessions[request.sessionId].status != Active
         || db.sessions[request.sessionId].scope != request.scope
         || evaluatedAt < db.sessions[request.sessionId].startsAt
         || evaluatedAt >= db.sessions[request.sessionId].expiresAt
      {
        pc := Done(Refused(Denial.NotActive));
        return;
      }
      if input.exposures.None? { pc := Done(Refused(Malformed)); return; }
      if |input.exposures.value| > 16 || !Store.Distinct(input.exposures.value) {
        pc := Done(Refused(Malformed));
        return;
      }
      pc := StoreAttempt;
    }

    method OnAttempt(db: Db, c: Choice)
      requires pc.StoreAttempt?
      modifies `pc
      ensures Now() == AfterAttempt(old(Now()), db, c)
    {
      hide Store.AppendAttempt;
      if c.delivery != Delivered || Store.AppendAttempt(db, AttemptRecord(Now())).Threw? {
        pc := Done(Refused(AuditUnavailable));
        return;
      }
      pc := AskConnections;
    }

    method OnConnections(db: Db, c: Choice)
      requires pc.AskConnections?
      modifies `pc, `scopeDigest
      ensures Now() == AfterConnections(old(Now()), db, c)
    {
      var request := input.request;
      if c.delivery != Delivered { Deny(AuditUnavailable); return; }
      if || request.connectionId.None? || !request.operation.GitHub()
         || !Store.BoundConnection(db, request.sessionId, request.connectionId.value)
      {
        Deny(ConnectionUnavailable);
        return;
      }
      var connection := db.connections[request.connectionId.value];
      var requiredPermission := if request.operation.Merge? then MergePermission else ReadPermission;
      if || connection.owner != request.operation.owner || connection.repository != request.operation.repository
         || requiredPermission !in connection.permissions
      {
        Deny(ScopeMismatch);
        return;
      }
      scopeDigest := Some(ScopeDigest(
        request.connectionId.value, connection.owner, connection.repository, connection.permissions));
      pc := InspectPlan;
    }

    method OnInspection(db: Db, c: Choice)
      requires pc.InspectPlan?
      modifies `pc, `planGrant
      ensures Now() == AfterInspection(old(Now()), db, c)
    {
      hide Plans.Decide, Plans.Enqueue, Plans.ConsumePlan, PlanDenial;
      if c.delivery != Delivered { Deny(AuditUnavailable); return; }
      var check := Plans.PlanCheck(input.request, RequestDigest(input.request), Plans.Inspect, None, None, None);
      var planCheck := Plans.CheckPlan(db, check, c.storeNow).value;
      if planCheck.Blocked? { Deny(PlanDenial(planCheck.reason)); return; }
      if planCheck.Allowed? {
        planGrant := Some(PlanGrant(planCheck.grantId, planCheck.planDigest, planCheck.baseBranch));
      }
      pc := AskGuardian;
    }

    method OnGuardian(c: Choice)
      requires pc.AskGuardian?
      modifies `pc, `providerCrossed, `guardianOutcome, `authorizationFloor
      ensures Now() == AfterGuardian(old(Now()), c)
    {
      var deterministicFloor := authorizationFloor;
      if c.guardian.GuardianFails? {
        providerCrossed := c.guardian.crossed;
        guardianOutcome := GuardianGone;
        authorizationFloor := LevelDeny;
        Deny(RiskUnavailable);
        return;
      }
      providerCrossed := true;
      authorizationFloor := ApplyRecommendation(deterministicFloor, c.guardian);
      guardianOutcome :=
        if !c.guardian.certain then Uncertain
        else if authorizationFloor == deterministicFloor then Preserved else Escalated;
      var merging := input.request.operation.Merge?;
      if authorizationFloor == LevelDeny { Deny(RiskDenied); return; }
      if authorizationFloor == LevelStepUp { Deny(StepUpRequired); return; }
      if authorizationFloor == LevelConfirm && !merging { Deny(ConfirmationRequired); return; }
      if merging && planGrant.None? {
        if input.approval.None? { Deny(ApprovalMismatch); return; }
        pc := ReadApproval(None, None);
        return;
      }
      pc := TakeTool;
    }

    /** Both reads of the approval have been answered. */
    method OnApproval(found: Option<Approval>, consumed: Option<bool>)
      modifies `pc, `mergeApproval
      ensures Now() == JudgeApproval(old(Now()), found, consumed)
    {
      hide ValidateApproval;
      if consumed == Some(true) { Deny(ApprovalReplayed); return; }
      if consumed.None? || found.None? || found != input.approval { Deny(ApprovalMismatch); return; }
      var validation := ValidateApproval(Now(), found.value);
      if validation.Some? { Deny(validation.value); return; }
      mergeApproval := found;
      pc := TakeTool;
    }

    method OnTool(db: Db, c: Choice)
      requires pc.TakeTool?
      modifies `pc, `toolConsumed
      ensures Now() == AfterTool(old(Now()), db, c)
    {
      if c.delivery != Delivered { Deny(AuditUnavailable); return; }
      if Store.ConsumeToolCall(db, input.request.sessionId, c.storeNow).value.None? { Deny(VolumeSpent); return; }
      toolConsumed := true;
      pc := ResolveForRead;
    }

    method OnReadCredential(c: Choice)
      requires pc.ResolveForRead?
      modifies `pc, `adapterCrossed
      ensures forall db: Db :: Now() == AdvanceActing(old(Now()), db, c)
    {
      adapterCrossed := true;
      if !c.resolved { Deny(ConnectionUnavailable); return; }
      pc := CheckBeforeRead;
    }

    /** validateExecutionAuthority, from the answer of the plan check: None when it returns. */
    method Validate(base: Option<Token>, consume: bool, db: Db, c: Choice) returns (blocked: Option<Denial>)
      modifies `approvalConsumed
      ensures blocked == ValidationFailure(old(Now()), db, Validation(old(Now()), base, consume), c)
      ensures approvalConsumed == (old(approvalConsumed)
                || (blocked.None? && consume && planGrant.Some? && input.request.operation.Merge?))
    {
      hide Plans.Decide, Plans.Enqueue, Plans.ConsumePlan, PlanDenial;
      if c.delivery != Delivered { return Some(AuditUnavailable); }
      var current := Plans.CheckPlan(db, Validation(Now(), base, consume), c.storeNow).value;
      if current.Blocked? { return Some(PlanDenial(current.reason)); }
      if planGrant.None? {
        if !current.Absent? { return Some(ApprovalMismatch); }
      } else if || !current.Allowed? || current.grantId != planGrant.value.grantId
                || current.planDigest != planGrant.value.planDigest {
        return Some(ApprovalMismatch);
      }
      if consume && planGrant.Some? && input.request.operation.Merge? { approvalConsumed := true; }
      return None;
    }

    method OnReadCheck(db: Db, c: Choice)
      requires pc.CheckBeforeRead?
      modifies `pc, `approvalConsumed
      ensures Now() == AfterReadCheck(old(Now()), db, c)
    {
      hide ValidationFailure;
      var blocked := Validate(None, !input.request.operation.Merge?, db, c);
      if blocked.Some? { Deny(blocked.value); return; }
      pc := SendRead;
    }

    method OnRead(c: Choice)
      requires pc.SendRead?
      modifies `pc
      ensures Now() == AfterRead(old(Now()), c)
    {
      if !c.github.Read? { Deny(AdapterDenial(c.github)); return; }
      var snapshot, resource := c.github.snapshot, input.request.resource;
      if resource.None? || !resource.value.PullRequest? || snapshot.headCommit != resource.value.headCommit {
        Deny(HeadChanged);
        return;
      }
      if planGrant.Some? && snapshot.baseBranch != planGrant.value.baseBranch { Deny(HeadChanged); return; }
      if !input.request.operation.Merge? { pc := DecideAllow; return; }
      if !snapshot.mergeable { Deny(NotMergeable); return; }
      if planGrant.None? {
        if mergeApproval.None? || mergeApproval.value.requestDigest != RequestDigest(input.request) {
          Deny(ApprovalMismatch);
          return;
        }
        pc := TakeApproval(snapshot, mergeApproval.value);
        return;
      }
      pc := ResolveForMerge(snapshot);
    }

    method OnConsumption(db: Db, c: Choice)
      requires pc.TakeApproval?
      modifies `pc, `approvalConsumed
      ensures Now() == AfterApproval(old(Now()), db, c)
    {
      hide Store.JudgeConsumption;
      if c.delivery != Delivered { Deny(AuditUnavailable); return; }
      var consumption := Store.JudgeConsumption(db, ApprovalUseOf(Now(), pc.approval), c.storeNow);
      if consumption != Store.ApprovalConsumed {
        if consumption == Store.ApprovalReplayed { Deny(ApprovalReplayed); return; }
        if consumption == Store.ApprovalExpired { Deny(ApprovalExpired); return; }
        if consumption == Store.ApprovalNotActive { Deny(Denial.NotActive); return; }
        Deny(ApprovalMismatch);
        return;
      }
      approvalConsumed := true;
      pc := ResolveForMerge(pc.snapshot);
    }

    method OnMergeCredential(c: Choice)
      requires pc.ResolveForMerge?
      modifies `pc
      ensures Now() == AfterMergeResolution(old(Now()), c)
    {
      if !c.resolved { Deny(ConnectionUnavailable); return; }
      pc := if planGrant.Some? then CheckBeforeRefresh(pc.snapshot) else CheckBeforeMerge(pc.snapshot);
    }

    method OnRefreshCheck(db: Db, c: Choice)
      requires pc.CheckBeforeRefresh?
      modifies `pc, `approvalConsumed
      ensures Now() == AfterRefreshCheck(old(Now()), db, c)
    {
      hide ValidationFailure;
      var blocked := Validate(Some(pc.snapshot.baseBranch), false, db, c);
      if blocked.Some? { Deny(blocked.value); return; }
      pc := SendRefresh(pc.snapshot);
    }

    method OnRefresh(c: Choice)
      requires pc.SendRefresh?
      modifies `pc
      ensures Now() == AfterRefresh(old(Now()), c)
    {
      if !c.github.Read? { Deny(AdapterDenial(c.github)); return; }
      var snapshot, refreshed := pc.snapshot, c.github.snapshot;
      if refreshed.headCommit != snapshot.headCommit || refreshed.baseBranch != snapshot.baseBranch {
        Deny(HeadChanged);
        return;
      }
      if !refreshed.mergeable { Deny(NotMergeable); return; }
      pc := CheckBeforeMerge(snapshot);
    }

    method OnMergeCheck(db: Db, c: Choice)
      requires pc.CheckBeforeMerge? && input.request.operation.Merge?
      modifies `pc, `approvalConsumed
      ensures Now() == AfterMergeCheck(old(Now()), db, c)
    {
      hide ValidationFailure;
      var blocked := Validate(Some(pc.snapshot.baseBranch), true, db, c);
      if blocked.Some? { Deny(blocked.value); return; }
      pc := SendMerge;
    }

    method OnMerge(c: Choice)
      requires pc.SendMerge?
      modifies `pc
      ensures forall db: Db :: Now() == AdvanceActing(old(Now()), db, c)
    {
      if c.github.Merged? { pc := DecideAllow; return; }
      Deny(AdapterDenial(c.github));
    }

    /** The deny and allow closures, from the answer to the decision record. */
    method OnDecision(db: Db, c: Choice)
      requires pc.DecideDeny? || pc.DecideAllow?
      modifies `pc
      ensures Now() == AdvanceClosing(old(Now()), db, c)
    {
      hide Store.AppendDecision, DenyRecord, AllowRecord;
      var record := if pc.DecideAllow? then AllowRecord(Now(), c) else DenyRecord(Now(), pc.code, c);
      if c.delivery != Delivered || Store.AppendDecision(db, record).Threw? {
        pc := Done(Refused(AuditUnavailable));
        return;
      }
      pc := if pc.DecideAllow? then Done(Performed) else Done(Refused(pc.code));
    }
  }
}
