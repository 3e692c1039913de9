/**
 * What a broker run has been told by the time it merges or answers: a run is a fold over the states and answers
 * it met, and it goes on exactly while each answer says what this module spells out.
 */
module BrokerConduct {
  import opened Records
  import opened Broker
  import BrokerRuns
  import Conditions
  import R = Runs
  import Store
  import Plans
  import Transactions

  /** The store and the answers one step of a run met. */
  datatype Met = Met(db: Db, choice: Choice)

  function Follow(input: Input, steps: seq<Met>): Run {
    if |steps| == 0 then Begin(input)
    else
      var last := steps[|steps| - 1];
      Advance(Follow(input, steps[..|steps| - 1]), last.db, last.choice)
  }

  // ---- what an answer has to say

  datatype Fact =
    | SessionFits | AttemptStored | ConnectionFits | PlanSeen(plan: Option<PlanGrant>) | GuardianAgrees
    | ApprovalFound(approval: Approval) | ApprovalUnused(approval: Approval)
    | ToolTaken | CredentialResolved | StillAllowed(plan: Option<PlanGrant>, consume: bool, base: Option<Token>)
    | HeadRead(snapshot: Snapshot) | ApprovalTaken(approval: Approval) | HeadUnmoved(snapshot: Snapshot) | MergeDone
    | DecisionStored

  predicate Arrived(m: Met) { m.choice.delivery == Delivered }

  /** The session is active, bound to the request in every field, and in its lifetime when the run evaluates it. */
  predicate SaysSession(input: Input, m: Met) {
    var sid := input.request.sessionId;
    && Arrived(m) && sid in m.db.sessions && m.db.sessions[sid].status == Active
    && m.db.sessions[sid].scope == input.request.scope
    && m.db.sessions[sid].startsAt <= input.evaluatedAt && input.evaluatedAt < m.db.sessions[sid].expiresAt
    && input.exposures.Some? && |input.exposures.value| <= 16
    && (forall i, j :: 0 <= i < j < |input.exposures.value| ==> input.exposures.value[i] != input.exposures.value[j])
  }

  predicate SaysAttempt(input: Input, m: Met) {
    && Arrived(m) && input.exposures.Some?
    && Store.AppendAttempt(m.db, Attempt(
         input.attemptId, input.request.sessionId, input.request.scope.callerId, input.request.connectionId,
         RequestDigest(input.request), input.exposures.value, input.evaluatedAt)).Committed?
  }

  /** The connection is bound to the session, active, for the operation's repository, and permits the operation. */
  predicate SaysConnection(input: Input, m: Met) {
    var request := input.request;
    && Arrived(m) && request.operation.GitHub() && request.connectionId.Some?
    && (request.sessionId, request.connectionId.value) in m.db.bindings
    && request.connectionId.value in m.db.connections
    && var connection := m.db.connections[request.connectionId.value];
       && connection.active && connection.owner == request.operation.owner
       && connection.repository == request.operation.repository
       && (request.operation.Merge? ==> MergePermission in connection.permissions)
       && (request.operation.Read? ==> ReadPermission in connection.permissions)
  }

  predicate SaysPlan(input: Input, m: Met, plan: Option<PlanGrant>) {
    && Arrived(m)
    && var check := Plans.PlanCheck(input.request, RequestDigest(input.request), Plans.Inspect, None, None, None);
       var answer := Plans.CheckPlan(m.db, check, m.choice.storeNow).value;
       match plan
       case None => answer == Plans.Absent
       case Some(grant) => answer == Plans.Allowed(grant.grantId, grant.planDigest, grant.baseBranch)
  }

  /** A certain recommendation: to allow, or for a merge at most to confirm. */
  predicate SaysGuardian(input: Input, m: Met) {
    && m.choice.guardian.Recommends? && m.choice.guardian.certain
    && (m.choice.guardian.level == LevelAllow || (m.choice.guardian.level == LevelConfirm && input.request.operation.Merge?))
  }

  predicate SaysApproval(input: Input, m: Met, approval: Approval) {
    && Arrived(m) && approval.approvalId in m.db.approvals && m.db.approvals[approval.approvalId].approval == approval
    && approval.sessionId == input.request.sessionId
  }

  predicate SaysUnused(input: Input, m: Met, approval: Approval) {
    && Arrived(m) && approval.approvalId in m.db.approvals
    && m.db.approvals[approval.approvalId].approval.sessionId == input.request.sessionId
    && m.db.approvals[approval.approvalId].consumedAt.None?
  }

  predicate SaysTool(input: Input, m: Met) {
    && Arrived(m) && Conditions.Live(m.db, input.request.sessionId, m.choice.storeNow)
    && input.request.sessionId in m.db.budgets && m.db.budgets[input.request.sessionId].toolCalls > 0
  }

  /** The plan check of a validation: still the same grant, or still none. */
  predicate SaysStill(input: Input, m: Met, plan: Option<PlanGrant>, consume: bool, base: Option<Token>) {
    && Arrived(m)
    && var check := Plans.PlanCheck(
         input.request, RequestDigest(input.request), if plan.Some? && consume then Plans.Consume else Plans.Inspect, None,
         if plan.Some? then Some(plan.value.grantId) else None, base);
       var answer := Plans.CheckPlan(m.db, check, m.choice.storeNow).value;
       match plan
       case None => answer == Plans.Absent
       case Some(grant) => answer.Allowed? && answer.grantId == grant.grantId && answer.planDigest == grant.planDigest
  }

  predicate SaysHead(input: Input, m: Met, snapshot: Snapshot) { m.choice.github == GitHubReply.Read(snapshot) }

  predicate SaysTaken(input: Input, m: Met, approval: Approval) {
    Arrived(m) && Store.JudgeConsumption(m.db, Store.Consumption(
      approval.approvalId, approval.nonce, RequestDigest(input.request), input.request.sessionId,
      input.request.scope.callerId, if input.request.connectionId.Some? then input.request.connectionId.value else 0,
      input.request.scope.policyVersion), m.choice.storeNow) == Store.ApprovalConsumed
  }

  /** The second read finds the head and the base branch where the first did, and still mergeable. */
  predicate SaysUnmoved(m: Met, snapshot: Snapshot) {
    && m.choice.github.Read? && m.choice.github.snapshot.mergeable
    && m.choice.github.snapshot.headCommit == snapshot.headCommit
    && m.choice.github.snapshot.baseBranch == snapshot.baseBranch
  }

  predicate Says(input: Input, m: Met, fact: Fact) {
    match fact
    case SessionFits => SaysSession(input, m)
    case AttemptStored => SaysAttempt(input, m)
    case ConnectionFits => SaysConnection(input, m)
    case PlanSeen(plan) => SaysPlan(input, m, plan)
    case GuardianAgrees => SaysGuardian(input, m)
    case ApprovalFound(approval) => SaysApproval(input, m, approval)
    case ApprovalUnused(approval) => SaysUnused(input, m, approval)
    case ToolTaken => SaysTool(input, m)
    case CredentialResolved => m.choice.resolved
    case StillAllowed(plan, consume, base) => SaysStill(input, m, plan, consume, base)
    case HeadRead(snapshot) => SaysHead(input, m, snapshot)
    case ApprovalTaken(approval) => SaysTaken(input, m, approval)
    case HeadUnmoved(snapshot) => SaysUnmoved(m, snapshot)
    case MergeDone => m.choice.github.Merged?
    case DecisionStored => Arrived(m)
  }

  predicate Told(input: Input, steps: seq<Met>, fact: Fact) {
    exists k :: 0 <= k < |steps| && Says(input, steps[k], fact)
  }

  lemma ToldStays(input: Input, steps: seq<Met>, m: Met, fact: Fact)
    ensures Told(input, steps, fact) ==> Told(input, steps + [m], fact)
    ensures Says(input, m, fact) ==> Told(input, steps + [m], fact)
  {
    hide Says;
    var after := steps + [m];
    if Told(input, steps, fact) {
      var k :| 0 <= k < |steps| && Says(input, steps[k], fact);
      assert Says(input, after[k], fact);
    }
    assert after[|steps|] == m;
  }

  // ---- each step, exactly

  /** A refusal inside the deny closure: five codes are first put to the plan, when there is one. */
  predicate Refuses(next: Run, code: Denial) {
    next.pc == if next.plan.Some? && code in {StepUpRequired, RiskDenied, RiskUnavailable, ConfirmationRequired, HeadChanged}
               then Deferring(code) else DecideDeny(code)
  }

  /** The step refuses with the first complaint that applies, and only goes on when none does. */
  predicate Answers(next: Run, complaints: seq<(bool, Denial)>, on: Pc) {
    match Conditions.FirstOf(complaints)
    case Some(code) => Refuses(next, code)
    case None => next.pc == on
  }

  function PlanCode(reason: BlockReason): Denial {
    if reason == PlanExpired then ApprovalExpired else if reason == PlanRevoked then NotActive
    else if reason == PlanExhausted then VolumeSpent else if reason == PlanReplayed then ApprovalReplayed
    else if reason == ResourceChanged then HeadChanged else ScopeMismatch
  }

  lemma PlanCodes(reason: BlockReason)
    ensures PlanDenial(reason) == PlanCode(reason)
  {
  }

  /** Only an adapter's own errors are told apart; anything else is an unavailable connection. */
  function AdapterCode(reply: GitHubReply): Denial {
    if reply == AdapterFailed(ResourceMoved) then HeadChanged
    else if reply == AdapterFailed(MergeRefused) then NotMergeable
    else if reply == AdapterFailed(OtherError) then ProviderFailed
    else ConnectionUnavailable
  }

  lemma AdapterCodes(reply: GitHubReply)
    ensures AdapterDenial(reply) == AdapterCode(reply)
  {
  }

  /** How a refusal is recorded: failed for what is out of reach, step-up for what a human could settle. */
  lemma ControlCodes(code: Denial)
    ensures Control(code) == ControlFailed <==> code in {ProviderFailed, RiskUnavailable}
    ensures Control(code) == ControlStepUp <==> code in {ConfirmationRequired, StepUpRequired}
    ensures Control(code) != ControlAllowed
  {
  }

  /** The five refusals that are first put to the plan, as the plan calls them. */
  function DeferredAs(code: Denial): Option<BlockReason> {
    if code == StepUpRequired then Some(GuardianStepUp)
    else if code == RiskDenied then Some(GuardianDenied)
    else if code == RiskUnavailable then Some(GuardianUnavailable)
    else if code == ConfirmationRequired then Some(GuardianConfirmationRequired)
    else if code == HeadChanged then Some(ResourceChanged)
    else None
  }

  lemma DeferralsNamed(code: Denial)
    ensures Deferred(code) <==> DeferredAs(code).Some?
    ensures Deferred(code) ==> DeferReason(code) == DeferredAs(code).value
  {
  }

  /** What is written down of a run: its own attempt, what it knows to be taken, and how it ended. */
  function RecordOf(run: Run, c: Choice, allowed: bool, control: ControlOutcome): Decision {
    Decision(
      c.freshId, run.input.attemptId, run.input.request.sessionId, run.floor, run.guardian, run.providerCrossed,
      allowed || run.adapterCrossed, allowed || run.toolConsumed,
      if !run.input.request.operation.Merge? then NotApplicable
      else if allowed || run.approvalConsumed then Consumed else NotConsumed,
      control, c.brokerNow)
  }

  lemma DecisionsSay(run: Run, code: Denial, c: Choice)
    ensures AllowRecord(run, c) == RecordOf(run, c, true, ControlAllowed)
    ensures DenyRecord(run, code, c) ==
              RecordOf(run, c, false,
                       if code in {ProviderFailed, RiskUnavailable} then ControlFailed
                       else if code in {ConfirmationRequired, StepUpRequired} then ControlStepUp else ControlDenied)
  {
  }

  /** What a run asks of the store at each step: always of its own request, its own attempt and its own approval. */
  lemma AskedOpening(run: Run, c: Choice)
    requires !Closing(run.pc)
    ensures var request, input := run.input.request, run.input;
            Ask(run, c) ==
              if run.pc == StoreAttempt then
                Some(R.AppendAttempt(Attempt(
                  input.attemptId, request.sessionId, request.scope.callerId, request.connectionId, RequestDigest(request),
                  if input.exposures.Some? then input.exposures.value else [], input.evaluatedAt)))
              else if run.pc == InspectPlan then
                Some(R.CheckPlan(
                  Plans.PlanCheck(request, RequestDigest(request), Plans.Inspect, None, None, None), c.storeNow))
              else if run.pc == TakeTool then Some(R.ConsumeToolCall(request.sessionId, c.storeNow))
              else if Checking(run.pc) then Some(R.CheckPlan(CheckOf(run), c.storeNow))
              else if run.pc.TakeApproval? then
                Some(R.ConsumeApproval(
                  Store.Consumption(
                    run.pc.approval.approvalId, run.pc.approval.nonce, RequestDigest(request), request.sessionId,
                    request.scope.callerId, if request.connectionId.Some? then request.connectionId.value else 0,
                    request.scope.policyVersion),
                  c.storeNow))
              else None
  {
  }

  lemma AskedClosing(run: Run, c: Choice)
    requires Closing(run.pc)
    ensures var request := run.input.request;
            && (run.pc == DecideAllow ==> Ask(run, c) == Some(R.AppendDecision(AllowRecord(run, c))))
            && (run.pc.DecideDeny? ==> Ask(run, c) == Some(R.AppendDecision(DenyRecord(run, run.pc.code, c))))
            && (run.pc.Deferring? && DeferredAs(run.pc.code).Some? ==>
                  Ask(run, c) == Some(R.CheckPlan(
                    Plans.PlanCheck(request, RequestDigest(request), Plans.Defer, DeferredAs(run.pc.code), None, None),
                    c.storeNow)))
            && (run.pc.Done? ==> Ask(run, c) == None)
  {
    hide AllowRecord, DenyRecord, Deferred;
    if run.pc.Deferring? { DeferralsNamed(run.pc.code); }
  }

  /** A denial is answered with its code exactly when it is on record, after it was put to the plan if it has to be. */
  lemma DenialCloses(run: Run, m: Met)
    requires run.pc.Deferring? || run.pc.DecideDeny?
    ensures Advance(run, m.db, m.choice) == run.(pc :=
              if !Arrived(m) then Done(Refused(AuditUnavailable))
              else if run.pc.Deferring? then DecideDeny(run.pc.code)
              else if Store.AppendDecision(m.db, DenyRecord(run, run.pc.code, m.choice)).Committed?
              then Done(Refused(run.pc.code)) else Done(Refused(AuditUnavailable)))
  {
    hide Store.AppendDecision, DenyRecord;
  }

  /**
   * The world sees a read or a merge request of the run's own operation, or a transaction that was not lost
   * before; and nobody else is restricted in any way.
   */
  lemma MoveSeen(w: World, i: nat, c: Choice)
    requires i < |w.runs|
    ensures var after, run := Act(w, Proceed(i, c)), w.runs[i];
            var asked := Ask(run, c);
            var commits := asked.Some? && c.delivery != Delivery.LostBefore;
            && after.runs == w.runs[i := Advance(run, w.db, c)]
            && after.db == (if commits then R.Apply(w.db, asked.value) else w.db)
            && after.log ==
                 if run.pc == SendRead || run.pc.SendRefresh? then w.log + [ReadSent(i)]
                 else if run.pc == SendMerge then w.log + [MergeSent(i, run.input.request.operation)]
                 else if commits then w.log + [Stored(i, asked.value, w.db)] else w.log
    ensures forall op :: Act(w, Elsewhere(op)) == w.(db := R.Apply(w.db, op))
    ensures forall input :: Act(w, Start(input)) == w.(runs := w.runs + [Begin(input)])
  {
    hide R.Apply, Advance, AllowRecord, DenyRecord, DeferReason, Validation, Begin;
  }

  /** A malformed request and any other operation are refused at once; a merge starts from the floor "confirm". */
  lemma BegunWith(input: Input)
    ensures Begin(input) == Run(
              input,
              if !input.request.Valid() then Done(Refused(Malformed))
              else if input.request.operation.OtherOperation? then Done(Refused(ScopeMismatch)) else AskSession,
              None, None, None, if input.request.operation.Merge? then LevelConfirm else LevelAllow, NotAssessed,
              false, false, false, false)
  {
  }

  /** Which stretch of the program each step runs. */
  lemma Turn(run: Run, m: Met)
    ensures var next := Advance(run, m.db, m.choice);
            && (run.pc.AskSession? ==> next == AfterSession(run, m.db, m.choice))
            && (run.pc.StoreAttempt? ==> next == AfterAttempt(run, m.db, m.choice))
            && (run.pc.AskConnections? ==> next == AfterConnections(run, m.db, m.choice))
            && (run.pc.InspectPlan? ==> next == AfterInspection(run, m.db, m.choice))
            && (run.pc.AskGuardian? ==> next == AfterGuardian(run, m.choice))
            && (run.pc.ReadApproval? ==> next == AfterApprovalRead(run, m.db, m.choice))
            && (run.pc.TakeTool? ==> next == AfterTool(run, m.db, m.choice))
            && (run.pc.CheckBeforeRead? ==> next == AfterReadCheck(run, m.db, m.choice))
            && (run.pc.SendRead? ==> next == AfterRead(run, m.choice))
            && (run.pc.TakeApproval? ==> next == AfterApproval(run, m.db, m.choice))
            && (run.pc.ResolveForMerge? ==> next == AfterMergeResolution(run, m.choice))
            && (run.pc.CheckBeforeRefresh? ==> next == AfterRefreshCheck(run, m.db, m.choice))
            && (run.pc.SendRefresh? ==> next == AfterRefresh(run, m.choice))
            && (run.pc.CheckBeforeMerge? ==> next == AfterMergeCheck(run, m.db, m.choice))
  {
    hide AfterSession, AfterAttempt, AfterConnections, AfterInspection, AfterGuardian, AfterApprovalRead, AfterTool;
    hide AfterReadCheck, AfterRead, AfterApproval, AfterMergeResolution, AfterRefreshCheck, AfterRefresh, AfterMergeCheck;
  }

  lemma RefuseIsRefusal(run: Run, code: Denial)
    ensures Refuses(Refuse(run, code), code) && Refuse(run, code) == run.(pc := Refuse(run, code).pc)
  {
  }

  lemma SessionStep(run: Run, m: Met)
    requires run.pc.AskSession?
    ensures var next := Advance(run, m.db, m.choice);
            var sid := run.input.request.sessionId;
            && next == run.(pc := next.pc)
            && (next.pc == StoreAttempt <==> SaysSession(run.input, m))
            && (next.pc != StoreAttempt ==>
                  next.pc == Done(Refused(
                    if !Arrived(m) then AuditUnavailable
                    else if sid in m.db.sessions && m.db.sessions[sid].status == Active
                            && m.db.sessions[sid].scope == run.input.request.scope
                            && m.db.sessions[sid].startsAt <= run.input.evaluatedAt < m.db.sessions[sid].expiresAt
                    then Malformed else NotActive)))
  {
    hide Advance;
    Turn(run, m);
  }

  lemma AttemptStep(run: Run, m: Met)
    requires run.pc.StoreAttempt? && run.input.exposures.Some?
    ensures var next := Advance(run, m.db, m.choice);
            && next == run.(pc := next.pc)
            && (next.pc == AskConnections <==> SaysAttempt(run.input, m))
            && (next.pc != AskConnections ==> next.pc == Done(Refused(AuditUnavailable)))
  {
    hide Advance;
    Turn(run, m);
    hide Store.AppendAttempt;
  }

  predicate Bound(db: Db, request: Request) {
    && request.operation.GitHub() && request.connectionId.Some?
    && Conditions.ActiveBinding(db, request.sessionId, request.connectionId.value)
  }

  lemma ConnectionStep(run: Run, m: Met)
    requires run.pc.AskConnections?
    ensures var next := Advance(run, m.db, m.choice);
            && next == run.(pc := next.pc, scopeDigest := next.scopeDigest)
            && (next.pc == InspectPlan <==> SaysConnection(run.input, m))
            && (next.pc != InspectPlan ==>
                  Refuses(next, if !Arrived(m) then AuditUnavailable
                                else if !Bound(m.db, run.input.request) then ConnectionUnavailable else ScopeMismatch))
            && (next.pc == InspectPlan ==>
                  var id := run.input.request.connectionId.value;
                  next.scopeDigest == Some(ScopeDigest(
                    id, m.db.connections[id].owner, m.db.connections[id].repository, m.db.connections[id].permissions)))
  {
    hide Advance;
    Turn(run, m);
  }

  lemma PlanStep(run: Run, m: Met)
    requires run.pc.InspectPlan? && run.plan.None?
    ensures var next := Advance(run, m.db, m.choice);
            && next == run.(pc := next.pc, plan := next.plan)
            && (next.pc == AskGuardian ==> SaysPlan(run.input, m, next.plan))
            && (forall plan :: SaysPlan(run.input, m, plan) ==> next.pc == AskGuardian && next.plan == plan)
            && (next.pc != AskGuardian ==>
                  next.plan == run.plan
                  && if !Arrived(m) then Refuses(next, AuditUnavailable)
                     else exists reason :: BlockedBy(run.input, m, reason) && Refuses(next, PlanCode(reason)))
  {
    hide Advance;
    Turn(run, m);
    hide Plans.Decide, Plans.Enqueue, Plans.ConsumePlan, PlanDenial, PlanCode;
    forall reason ensures PlanDenial(reason) == PlanCode(reason) { PlanCodes(reason); }
    var check := Plans.PlanCheck(run.input.request, RequestDigest(run.input.request), Plans.Inspect, None, None, None);
    var answer := Plans.CheckPlan(m.db, check, m.choice.storeNow).value;
    if answer.Blocked? { assert BlockedBy(run.input, m, answer.reason); }
  }

  predicate BlockedBy(input: Input, m: Met, reason: BlockReason) {
    var check := Plans.PlanCheck(input.request, RequestDigest(input.request), Plans.Inspect, None, None, None);
    Plans.CheckPlan(m.db, check, m.choice.storeNow).value == Plans.Blocked(reason)
  }

  function GuardianComplaints(run: Run, reply: GuardianReply): seq<(bool, Denial)> {
    var merging := run.input.request.operation.Merge?;
    [ (reply.GuardianFails?, RiskUnavailable),
      (reply.Recommends? && reply.certain && reply.level == LevelDeny, RiskDenied),
      (reply.Recommends? && (!reply.certain || reply.level == LevelStepUp), StepUpRequired),
      (reply.Recommends? && reply.level == LevelConfirm && !merging, ConfirmationRequired),
      (merging && run.plan.None? && run.input.approval.None?, ApprovalMismatch) ]
  }

  function FloorOf(run: Run): Level { if run.input.request.operation.Merge? then LevelConfirm else LevelAllow }

  /** Of two levels the stricter one is taken: deny before step-up before confirm before allow. */
  lemma StricterTaken(floor: Level, recommended: Level)
    ensures var levels := {floor, recommended};
            Stricter(floor, recommended) ==
              if LevelDeny in levels then LevelDeny
              else if LevelStepUp in levels then LevelStepUp
              else if LevelConfirm in levels then LevelConfirm else LevelAllow
  {
  }

  lemma FloorRaised(run: Run, reply: GuardianReply)
    requires run.floor == FloorOf(run) && reply.Recommends?
    ensures ApplyRecommendation(run.floor, reply) ==
              if !reply.certain then LevelStepUp else if reply.level == LevelAllow then run.floor else reply.level
  {
  }

  /** What is recorded of the guardian: it can only raise the floor, and an uncertain answer never counts as allowed. */
  lemma GuardianRecorded(run: Run, m: Met)
    requires run.pc.AskGuardian? && run.floor == FloorOf(run)
    ensures var next, reply := Advance(run, m.db, m.choice), m.choice.guardian;
            && next == run.(pc := next.pc, providerCrossed := next.providerCrossed, floor := next.floor,
                            guardian := next.guardian)
            && next.floor ==
                 (if reply.GuardianFails? then LevelDeny
                  else if !reply.certain then LevelStepUp
                  else if reply.level == LevelAllow then run.floor else reply.level)
            && next.providerCrossed == (if reply.GuardianFails? then reply.crossed else true)
            && (next.guardian == GuardianGone <==> reply.GuardianFails?)
            && (next.guardian == Uncertain <==> reply.Recommends? && !reply.certain)
            && (next.guardian == Preserved <==> reply.Recommends? && reply.certain && next.floor == run.floor)
  {
    hide Advance, ApplyRecommendation;
    Turn(run, m);
    if m.choice.guardian.Recommends? { FloorRaised(run, m.choice.guardian); }
  }

  /** A run goes on exactly when the guardian agrees, and an unplanned merge has an approval to show. */
  lemma GuardianStep(run: Run, m: Met)
    requires run.pc.AskGuardian? && run.floor == FloorOf(run)
    ensures var next, reply := Advance(run, m.db, m.choice), m.choice.guardian;
            var merging := run.input.request.operation.Merge?;
            && next == run.(pc := next.pc, providerCrossed := next.providerCrossed, floor := next.floor,
                            guardian := next.guardian)
            && Answers(next, GuardianComplaints(run, reply),
                       if merging && run.plan.None? then ReadApproval(None, None) else TakeTool)
            && (!Refusing(next.pc) <==>
                  SaysGuardian(run.input, m) && !(merging && run.plan.None? && run.input.approval.None?))
            && (SaysGuardian(run.input, m) ==> next.floor == run.floor && next.guardian == Preserved)
  {
    GuardianRecorded(run, m);
    hide Advance, ApplyRecommendation;
    Turn(run, m);
    if m.choice.guardian.Recommends? { FloorRaised(run, m.choice.guardian); }
    Conditions.InOrder(GuardianComplaints(run, m.choice.guardian));
  }

  /** The approval speaks of exactly this request and connection, and covers the moment of evaluation. */
  predicate Fits(run: Run, approval: Approval) {
    var request := run.input.request;
    && approval.requestId == request.requestId && approval.requestDigest == RequestDigest(request)
    && approval.sessionId == request.sessionId && request.connectionId == Some(approval.connectionId)
    && approval.scope == request.scope && run.scopeDigest == Some(approval.scopeDigest)
    && request.resource == Some(approval.resource)
  }

  function ApprovalComplaints(run: Run, found: Option<Approval>, consumed: Option<bool>): seq<(bool, Denial)> {
    [ (consumed == Some(true), ApprovalReplayed),
      (consumed.None? || found.None? || found != run.input.approval, ApprovalMismatch),
      (found.Some? && !Fits(run, found.value), ApprovalMismatch),
      (found.Some? && found.value.expiresAt <= run.input.evaluatedAt, ApprovalExpired),
      (found.Some? && run.input.evaluatedAt < found.value.approvedAt, NotActive) ]
  }

  lemma ApprovalJudged(run: Run, found: Option<Approval>, consumed: Option<bool>)
    ensures var next := JudgeApproval(run, found, consumed);
            && Answers(next, ApprovalComplaints(run, found, consumed), TakeTool)
            && next == run.(pc := next.pc, mergeApproval := if next.pc == TakeTool then found else run.mergeApproval)
  {
    Conditions.InOrder(ApprovalComplaints(run, found, consumed));
  }

  /** What the store has under the supplied approval's id for this session. */
  function Held(run: Run, db: Db): Option<ApprovalRow>
    requires run.input.approval.Some?
  {
    var id := run.input.approval.value.approvalId;
    if id in db.approvals && db.approvals[id].approval.sessionId == run.input.request.sessionId
    then Some(db.approvals[id]) else None
  }

  function RowApproval(row: Option<ApprovalRow>): Option<Approval> {
    match row case None => None case Some(r) => Some(r.approval)
  }

  function RowUsed(row: Option<ApprovalRow>): Option<bool> {
    match row case None => None case Some(r) => Some(r.consumedAt.Some?)
  }

  /** Each read of the approval says what the store holds; the second of the two is judged with the first. */
  lemma ApprovalReadStep(run: Run, m: Met)
    requires run.pc.ReadApproval? && run.input.approval.Some? && !(run.pc.found.Some? && run.pc.consumed.Some?)
    ensures var next, row := Advance(run, m.db, m.choice), Held(run, m.db);
            var found, consumed := RowApproval(row), RowUsed(row);
            var foundFirst := run.pc.found.None? && (run.pc.consumed.Some? || !m.choice.stateFirst);
            if !Arrived(m) then next == Refuse(run, AuditUnavailable) && Refuses(next, AuditUnavailable)
            else if foundFirst && run.pc.consumed.None? then next == run.(pc := ReadApproval(Some(found), None))
            else if foundFirst then next == JudgeApproval(run, found, run.pc.consumed.value)
            else if run.pc.found.None? then next == run.(pc := ReadApproval(None, Some(consumed)))
            else next == JudgeApproval(run, run.pc.found.value, consumed)
  {
    hide Advance;
    Turn(run, m);
    hide JudgeApproval;
  }

  lemma ToolStep(run: Run, m: Met)
    requires run.pc.TakeTool?
    ensures var next := Advance(run, m.db, m.choice);
            && next == run.(pc := next.pc, toolConsumed := next.pc == ResolveForRead || run.toolConsumed)
            && (next.pc == ResolveForRead <==> SaysTool(run.input, m))
            && (next.pc != ResolveForRead ==> Refuses(next, if !Arrived(m) then AuditUnavailable else VolumeSpent))
  {
    hide Advance, Store.ConsumeToolCall, Refuse;
    Turn(run, m);
    Transactions.ToolCallTaken(m.db, run.input.request.sessionId, m.choice.storeNow);
    RefuseIsRefusal(run, AuditUnavailable);
    RefuseIsRefusal(run, VolumeSpent);
  }

  lemma CredentialStep(run: Run, m: Met)
    requires run.pc.ResolveForRead? || run.pc.ResolveForMerge?
    ensures var next := Advance(run, m.db, m.choice);
            var on := if run.pc.ResolveForRead? then CheckBeforeRead
                      else if run.plan.Some? then CheckBeforeRefresh(run.pc.snapshot) else CheckBeforeMerge(run.pc.snapshot);
            && next == run.(pc := next.pc, adapterCrossed := run.pc.ResolveForRead? || run.adapterCrossed)
            && (next.pc == on <==> m.choice.resolved)
            && (next.pc != on ==> Refuses(next, ConnectionUnavailable))
  {
  }

  predicate Checking(pc: Pc) { pc.CheckBeforeRead? || pc.CheckBeforeRefresh? || pc.CheckBeforeMerge? }

  /** Only the check before a read, and the last one before a merge, consume a plan. */
  function Consumes(run: Run): bool { if run.pc.CheckBeforeRead? then !run.Merging() else run.pc.CheckBeforeMerge? }

  function BaseOf(pc: Pc): Option<Token>
    requires Checking(pc)
  {
    if pc.CheckBeforeRead? then None else Some(pc.snapshot.baseBranch)
  }

  function CheckOf(run: Run): Plans.PlanCheck
    requires Checking(run.pc)
  {
    Plans.PlanCheck(
      run.input.request, RequestDigest(run.input.request),
      if run.plan.Some? && Consumes(run) then Plans.Consume else Plans.Inspect, None,
      if run.plan.Some? then Some(run.plan.value.grantId) else None, BaseOf(run.pc))
  }

  predicate StoppedBy(run: Run, m: Met, reason: BlockReason)
    requires Checking(run.pc)
  {
    Plans.CheckPlan(m.db, CheckOf(run), m.choice.storeNow).value == Plans.Blocked(reason)
  }

  /** A validation fails with the plan's own code when it is blocked, and for a changed grant otherwise. */
  lemma ValidationSays(run: Run, m: Met)
    requires Checking(run.pc)
    ensures var failure := ValidationFailure(run, m.db, CheckOf(run), m.choice);
            && (failure.None? <==> SaysStill(run.input, m, run.plan, Consumes(run), BaseOf(run.pc)))
            && (!Arrived(m) ==> failure == Some(AuditUnavailable))
            && (Arrived(m) && failure.Some? ==>
                  failure == Some(ApprovalMismatch)
                  || exists reason :: StoppedBy(run, m, reason) && failure == Some(PlanCode(reason)))
            && (Arrived(m) ==> forall reason :: StoppedBy(run, m, reason) ==> failure == Some(PlanCode(reason)))
  {
    hide Plans.Decide, Plans.Enqueue, Plans.ConsumePlan, PlanDenial, PlanCode;
    forall reason ensures PlanDenial(reason) == PlanCode(reason) { PlanCodes(reason); }
    var answer := Plans.CheckPlan(m.db, CheckOf(run), m.choice.storeNow).value;
    if answer.Blocked? { assert StoppedBy(run, m, answer.reason); }
  }

  lemma CheckStep(run: Run, m: Met)
    requires Checking(run.pc)
    ensures var next := Advance(run, m.db, m.choice);
            var on := if run.pc.CheckBeforeRead? then SendRead
                      else if run.pc.CheckBeforeRefresh? then SendRefresh(run.pc.snapshot) else SendMerge;
            && next == run.(pc := next.pc,
                            approvalConsumed := run.approvalConsumed || (next.pc == SendMerge && run.plan.Some?))
            && (next.pc == on <==> SaysStill(run.input, m, run.plan, Consumes(run), BaseOf(run.pc)))
            && (next.pc != on ==>
                  if !Arrived(m) then Refuses(next, AuditUnavailable)
                  else Refuses(next, ApprovalMismatch)
                       || exists reason :: StoppedBy(run, m, reason) && Refuses(next, PlanCode(reason)))
            && (Arrived(m) ==> forall reason :: StoppedBy(run, m, reason) ==> Refuses(next, PlanCode(reason)))
  {
    hide Advance, ValidationFailure, SaysStill, StoppedBy, PlanCode, Refuse;
    Turn(run, m);
    ValidationSays(run, m);
    var failure := ValidationFailure(run, m.db, CheckOf(run), m.choice);
    assert CheckOf(run) == Validation(run, BaseOf(run.pc), Consumes(run));
    if failure.Some? { RefuseIsRefusal(run, failure.value); }
  }

  predicate HeadMoved(run: Run, snapshot: Snapshot) {
    || run.input.request.resource.None? || !run.input.request.resource.value.PullRequest?
    || snapshot.headCommit != run.input.request.resource.value.headCommit
    || (run.plan.Some? && snapshot.baseBranch != run.plan.value.baseBranch)
  }

  function ReadComplaints(run: Run, reply: GitHubReply): seq<(bool, Denial)> {
    var merging := run.input.request.operation.Merge?;
    [ (!reply.Read?, AdapterCode(reply)),
      (reply.Read? && HeadMoved(run, reply.snapshot), HeadChanged),
      (reply.Read? && merging && !reply.snapshot.mergeable, NotMergeable),
      (merging && run.plan.None?
       && (run.mergeApproval.None? || run.mergeApproval.value.requestDigest != RequestDigest(run.input.request)),
        ApprovalMismatch) ]
  }

  lemma ReadStep(run: Run, m: Met)
    requires run.pc.SendRead?
    ensures var next, reply := Advance(run, m.db, m.choice), m.choice.github;
            && next == run.(pc := next.pc)
            && match Conditions.FirstOf(ReadComplaints(run, reply))
               case Some(code) => Refuses(next, code)
               case None =>
                 if !run.input.request.operation.Merge? then next.pc == DecideAllow
                 else if run.plan.Some? then next.pc == ResolveForMerge(reply.snapshot)
                 else run.mergeApproval.Some? && next.pc == TakeApproval(reply.snapshot, run.mergeApproval.value)
  {
    hide Advance;
    Turn(run, m);
    hide AdapterDenial, AdapterCode;
    AdapterCodes(m.choice.github);
    Conditions.InOrder(ReadComplaints(run, m.choice.github));
  }

  lemma TakeStep(run: Run, m: Met)
    requires run.pc.TakeApproval?
    ensures var next := Advance(run, m.db, m.choice);
            var on := ResolveForMerge(run.pc.snapshot);
            && next == run.(pc := next.pc, approvalConsumed := next.pc == on || run.approvalConsumed)
            && (next.pc == on <==> SaysTaken(run.input, m, run.pc.approval))
            && (next.pc != on ==>
                  Refuses(next,
                    if !Arrived(m) then AuditUnavailable
                    else match Store.JudgeConsumption(m.db, ApprovalUseOf(run, run.pc.approval), m.choice.storeNow)
                      case ApprovalReplayed => ApprovalReplayed
                      case ApprovalExpired => ApprovalExpired
                      case ApprovalNotActive => NotActive
                      case _ => ApprovalMismatch))
  {
    hide Advance;
    Turn(run, m);
    hide Store.JudgeConsumption;
  }

  function RefreshComplaints(snapshot: Snapshot, reply: GitHubReply): seq<(bool, Denial)> {
    [ (!reply.Read?, AdapterCode(reply)),
      (reply.Read? && (reply.snapshot.headCommit != snapshot.headCommit || reply.snapshot.baseBranch != snapshot.baseBranch),
        HeadChanged),
      (reply.Read? && !reply.snapshot.mergeable, NotMergeable) ]
  }

  lemma RefreshStep(run: Run, m: Met)
    requires run.pc.SendRefresh?
    ensures var next := Advance(run, m.db, m.choice);
            && next == run.(pc := next.pc)
            && Answers(next, RefreshComplaints(run.pc.snapshot, m.choice.github), CheckBeforeMerge(run.pc.snapshot))
            && (next.pc == CheckBeforeMerge(run.pc.snapshot) <==> SaysUnmoved(m, run.pc.snapshot))
  {
    hide Advance;
    Turn(run, m);
    hide AdapterDenial, AdapterCode;
    AdapterCodes(m.choice.github);
    Conditions.InOrder(RefreshComplaints(run.pc.snapshot, m.choice.github));
  }

  lemma MergeStep(run: Run, m: Met)
    requires run.pc.SendMerge?
    ensures var next := Advance(run, m.db, m.choice);
            && next == run.(pc := next.pc)
            && (next.pc == DecideAllow <==> m.choice.github.Merged?)
            && (next.pc != DecideAllow ==> Refuses(next, AdapterCode(m.choice.github)))
  {
    hide AdapterDenial, AdapterCode;
    AdapterCodes(m.choice.github);
  }

  // ---- whole runs

  /** How far a run that has not been refused has come. */
  function Stage(pc: Pc): nat {
    match pc
    case AskSession => 0
    case StoreAttempt => 1
    case AskConnections => 2
    case InspectPlan => 3
    case AskGuardian => 4
    case ReadApproval(_, _) => 5
    case TakeTool => 6
    case ResolveForRead => 7
    case CheckBeforeRead => 8
    case SendRead => 9
    case TakeApproval(_, _) => 10
    case ResolveForMerge(_) => 11
    case CheckBeforeRefresh(_) => 12
    case SendRefresh(_) => 13
    case CheckBeforeMerge(_) => 14
    case SendMerge => 15
    case DecideAllow => 16
    case Done(result) => if result == Performed then 17 else 0
    case _ => 0
  }

  /** What every run past its opening questions has been told. */
  ghost predicate Opened(run: Run, steps: seq<Met>) {
    && (run.pc.AskSession? || run.pc.StoreAttempt? || run.pc.AskConnections? || run.pc.InspectPlan? ==> run.plan.None?)
    && (run.pc.AskSession? || (1 <= Stage(run.pc) <= 4) ==> run.floor == FloorOf(run))
    && (Stage(run.pc) >= 1 ==> run.input.exposures.Some? && Told(run.input, steps, SessionFits))
    && (Stage(run.pc) >= 2 ==> Told(run.input, steps, AttemptStored))
    && (Stage(run.pc) >= 3 ==> Told(run.input, steps, ConnectionFits))
    && (Stage(run.pc) >= 4 ==> Told(run.input, steps, PlanSeen(run.plan)))
    && (Stage(run.pc) >= 5 ==> Told(run.input, steps, GuardianAgrees))
  }

  /** The stored approval is the supplied one, unused, and fits the request at the time it was evaluated. */
  ghost predicate Approved(run: Run, steps: seq<Met>) {
    && run.input.approval.Some? && run.mergeApproval == run.input.approval
    && var approval := run.input.approval.value;
       && Told(run.input, steps, ApprovalFound(approval)) && Told(run.input, steps, ApprovalUnused(approval))
       && Fits(run, approval) && approval.approvedAt <= run.input.evaluatedAt < approval.expiresAt
  }

  predicate Unplanned(run: Run) { run.input.request.operation.Merge? && run.plan.None? }
  predicate Planned(run: Run) { run.input.request.operation.Merge? && run.plan.Some? }

  ghost predicate ApprovalVetted(run: Run, steps: seq<Met>) {
    && (run.pc.ReadApproval? ==>
          && run.input.approval.Some? && Unplanned(run) && !(run.pc.found.Some? && run.pc.consumed.Some?)
          && (run.pc.found == Some(run.input.approval) ==>
                Told(run.input, steps, ApprovalFound(run.input.approval.value)))
          && (run.pc.consumed == Some(Some(false)) ==>
                Told(run.input, steps, ApprovalUnused(run.input.approval.value))))
    && (Stage(run.pc) >= 6 && Unplanned(run) ==> Approved(run, steps))
    && (run.pc.TakeApproval? ==> Unplanned(run) && run.mergeApproval == Some(run.pc.approval))
    && (Stage(run.pc) >= 11 && Unplanned(run) ==> Told(run.input, steps, ApprovalTaken(run.input.approval.value)))
  }

  /** The pull request was where the request and the plan say, and could be merged if that is what was asked. */
  predicate InPlace(run: Run, snapshot: Snapshot) {
    !HeadMoved(run, snapshot) && (run.input.request.operation.Merge? ==> snapshot.mergeable)
  }

  ghost predicate HeadSeen(run: Run, steps: seq<Met>) {
    exists snapshot :: Told(run.input, steps, HeadRead(snapshot)) && InPlace(run, snapshot)
  }

  ghost predicate HeadSeenAgain(run: Run, steps: seq<Met>) {
    exists snapshot :: Told(run.input, steps, HeadUnmoved(snapshot)) && InPlace(run, snapshot)
  }

  ghost predicate CheckedLast(run: Run, steps: seq<Met>) {
    exists snapshot: Snapshot ::
      Told(run.input, steps, StillAllowed(run.plan, true, Some(snapshot.baseBranch))) && InPlace(run, snapshot)
  }

  ghost predicate CheckedAgain(run: Run, steps: seq<Met>) {
    exists snapshot: Snapshot ::
      Told(run.input, steps, StillAllowed(run.plan, false, Some(snapshot.baseBranch))) && InPlace(run, snapshot)
  }

  predicate Carrying(pc: Pc) {
    pc.TakeApproval? || pc.ResolveForMerge? || pc.CheckBeforeRefresh? || pc.SendRefresh? || pc.CheckBeforeMerge?
  }

  ghost predicate ActVetted(run: Run, steps: seq<Met>) {
    && (Stage(run.pc) >= 7 ==> Told(run.input, steps, ToolTaken))
    && (Stage(run.pc) >= 8 ==> Told(run.input, steps, CredentialResolved))
    && (Stage(run.pc) >= 9 ==>
          Told(run.input, steps, StillAllowed(run.plan, !run.input.request.operation.Merge?, None)))
    && (Stage(run.pc) >= 10 ==> HeadSeen(run, steps))
    && (10 <= Stage(run.pc) <= 15 ==> run.input.request.operation.Merge?)
    && (Carrying(run.pc) ==> Told(run.input, steps, HeadRead(run.pc.snapshot)) && InPlace(run, run.pc.snapshot))
    && (run.pc.CheckBeforeRefresh? || run.pc.SendRefresh? ==> run.plan.Some?)
    && (Stage(run.pc) >= 13 && Planned(run) ==> CheckedAgain(run, steps))
    && (Stage(run.pc) >= 14 && Planned(run) ==> HeadSeenAgain(run, steps))
    && (Stage(run.pc) >= 15 && run.input.request.operation.Merge? ==> CheckedLast(run, steps))
    && (Stage(run.pc) >= 16 && run.input.request.operation.Merge? ==> Told(run.input, steps, MergeDone))
    && (Stage(run.pc) >= 17 ==> Told(run.input, steps, DecisionStored))
  }

  ghost predicate Vetted(run: Run, steps: seq<Met>) {
    Opened(run, steps) && ApprovalVetted(run, steps) && ActVetted(run, steps)
  }

  lemma AllStay(input: Input, steps: seq<Met>, m: Met)
    ensures forall fact :: Told(input, steps, fact) ==> Told(input, steps + [m], fact)
    ensures forall fact :: Says(input, m, fact) ==> Told(input, steps + [m], fact)
  {
    hide Told, Says;
    forall fact ensures Told(input, steps, fact) ==> Told(input, steps + [m], fact)
                ensures Says(input, m, fact) ==> Told(input, steps + [m], fact)
    {
      ToldStays(input, steps, m, fact);
    }
  }

  /** A refused run has nothing to show. */
  lemma RefusedVetted(run: Run, steps: seq<Met>)
    requires Stage(run.pc) == 0 && !run.pc.AskSession?
    ensures Vetted(run, steps)
  {
  }

  lemma SessionVetted(run: Run, steps: seq<Met>, m: Met)
    requires Vetted(run, steps) && run.pc.AskSession?
    ensures Vetted(Advance(run, m.db, m.choice), steps + [m])
  {
    hide Advance, Told, SaysSession;
    AllStay(run.input, steps, m);
    var next := Advance(run, m.db, m.choice);
    SessionStep(run, m);
    assert next.pc == StoreAttempt ==> run.input.exposures.Some? by { SessionExposures(run.input, m); }
    assert next.pc == StoreAttempt ==> Says(run.input, m, SessionFits);
  }

  lemma AttemptVetted(run: Run, steps: seq<Met>, m: Met)
    requires Vetted(run, steps) && run.pc.StoreAttempt?
    ensures Vetted(Advance(run, m.db, m.choice), steps + [m])
  {
    hide Advance, Told, SaysAttempt;
    AllStay(run.input, steps, m);
    var next := Advance(run, m.db, m.choice);
    AttemptStep(run, m);
    assert next.pc == AskConnections ==> Says(run.input, m, AttemptStored);
  }

  lemma ConnectionVetted(run: Run, steps: seq<Met>, m: Met)
    requires Vetted(run, steps) && run.pc.AskConnections?
    ensures Vetted(Advance(run, m.db, m.choice), steps + [m])
  {
    hide Advance, Told, SaysConnection;
    AllStay(run.input, steps, m);
    var next := Advance(run, m.db, m.choice);
    ConnectionStep(run, m);
    assert next.pc == InspectPlan ==> Says(run.input, m, ConnectionFits);
  }

  lemma PlanPasses(run: Run, m: Met)
    requires run.pc.InspectPlan? && run.plan.None?
    ensures var next := Advance(run, m.db, m.choice);
            && next == run.(pc := next.pc, plan := next.plan)
            && (Stage(next.pc) != 0 ==> next.pc == AskGuardian && Says(run.input, m, PlanSeen(next.plan)))
            && !next.pc.AskSession?
  {
    hide Advance, SaysPlan, BlockedBy, PlanCode;
    PlanStep(run, m);
  }

  lemma PlanVetted(run: Run, steps: seq<Met>, m: Met)
    requires Vetted(run, steps) && run.pc.InspectPlan?
    ensures Vetted(Advance(run, m.db, m.choice), steps + [m])
  {
    hide Advance, Told, Says;
    AllStay(run.input, steps, m);
    var next := Advance(run, m.db, m.choice);
    PlanPasses(run, m);
    if Stage(next.pc) == 0 { RefusedVetted(next, steps + [m]); }
  }

  lemma GuardianVetted(run: Run, steps: seq<Met>, m: Met)
    requires Vetted(run, steps) && run.pc.AskGuardian?
    ensures Vetted(Advance(run, m.db, m.choice), steps + [m])
  {
    hide Advance, Told, SaysGuardian;
    AllStay(run.input, steps, m);
    var next := Advance(run, m.db, m.choice);
    GuardianStep(run, m);
    assert !Refusing(next.pc) ==> Says(run.input, m, GuardianAgrees);
  }

  lemma SessionExposures(input: Input, m: Met)
    ensures SaysSession(input, m) ==> input.exposures.Some?
  {
  }

  /** A judged approval that passes is the supplied one, and fits. */
  lemma ApprovalPasses(run: Run, found: Option<Approval>, consumed: Option<bool>)
    requires run.input.approval.Some?
    ensures var next := JudgeApproval(run, found, consumed);
            && (next.pc == TakeTool ==>
                  && found == run.input.approval && consumed == Some(false) && Fits(run, found.value)
                  && found.value.approvedAt <= run.input.evaluatedAt < found.value.expiresAt
                  && next == run.(pc := TakeTool, mergeApproval := found))
            && (next.pc != TakeTool ==> Stage(next.pc) == 0 && !next.pc.AskSession?)
  {
    hide JudgeApproval;
    ApprovalJudged(run, found, consumed);
    Conditions.InOrder(ApprovalComplaints(run, found, consumed));
    if consumed.Some? {
      if consumed.value { assert consumed == Some(true); } else { assert consumed == Some(false); }
    }
  }

  lemma ApprovedSupplied(run: Run, steps: seq<Met>)
    requires Approved(run, steps)
    ensures run.input.approval.Some? && run.mergeApproval == run.input.approval
  {
  }

  lemma SameApproved(run: Run, next: Run, steps: seq<Met>, m: Met)
    requires next.input == run.input && next.mergeApproval == run.mergeApproval && next.scopeDigest == run.scopeDigest
    ensures Approved(run, steps) ==> Approved(next, steps + [m])
  {
    hide Told;
    AllStay(run.input, steps, m);
  }

  /** What the store holds under the approval's id is what the two reads say. */
  lemma HeldSays(run: Run, m: Met)
    requires run.input.approval.Some? && Arrived(m)
    ensures RowApproval(Held(run, m.db)) == run.input.approval ==> SaysApproval(run.input, m, run.input.approval.value)
    ensures RowUsed(Held(run, m.db)) == Some(false) ==> SaysUnused(run.input, m, run.input.approval.value)
  {
  }

  lemma FirstReadVetted(run: Run, steps: seq<Met>, m: Met)
    requires Vetted(run, steps) && run.pc == ReadApproval(None, None)
    ensures Vetted(Advance(run, m.db, m.choice), steps + [m])
  {
    hide Advance, Told, JudgeApproval, SaysApproval, SaysUnused, Refuse, Held, RowApproval, RowUsed, Fits;
    AllStay(run.input, steps, m);
    ApprovalReadStep(run, m);
    RefuseIsRefusal(run, AuditUnavailable);
    var next := Advance(run, m.db, m.choice);
    if Arrived(m) {
      HeldSays(run, m);
      assert RowApproval(Held(run, m.db)) == run.input.approval ==>
               Says(run.input, m, ApprovalFound(run.input.approval.value));
      assert RowUsed(Held(run, m.db)) == Some(false) ==> Says(run.input, m, ApprovalUnused(run.input.approval.value));
    }
    if Stage(next.pc) == 0 { RefusedVetted(next, steps + [m]); }
  }

  lemma SecondReadVetted(run: Run, steps: seq<Met>, m: Met)
    requires Vetted(run, steps) && run.pc.ReadApproval? && (run.pc.found.Some? || run.pc.consumed.Some?)
    ensures Vetted(Advance(run, m.db, m.choice), steps + [m])
  {
    hide Advance, Told, JudgeApproval, SaysApproval, SaysUnused, Refuse, Held, RowApproval, RowUsed;
    AllStay(run.input, steps, m);
    ApprovalReadStep(run, m);
    RefuseIsRefusal(run, AuditUnavailable);
    var found, consumed := RowApproval(Held(run, m.db)), RowUsed(Held(run, m.db));
    var next := Advance(run, m.db, m.choice);
    if Arrived(m) {
      HeldSays(run, m);
      if run.pc.consumed.Some? {
        assert found == run.input.approval ==> Says(run.input, m, ApprovalFound(run.input.approval.value));
        ApprovalPasses(run, found, run.pc.consumed.value);
      } else {
        assert consumed == Some(false) ==> Says(run.input, m, ApprovalUnused(run.input.approval.value));
        ApprovalPasses(run, run.pc.found.value, consumed);
      }
    }
    if Stage(next.pc) == 0 { RefusedVetted(next, steps + [m]); }
  }

  lemma ToolVetted(run: Run, steps: seq<Met>, m: Met)
    requires Vetted(run, steps) && run.pc.TakeTool?
    ensures Vetted(Advance(run, m.db, m.choice), steps + [m])
  {
    hide Advance, Told, SaysTool, Approved;
    AllStay(run.input, steps, m);
    var next := Advance(run, m.db, m.choice);
    ToolStep(run, m);
    assert next.pc == ResolveForRead ==> Says(run.input, m, ToolTaken);
    SameApproved(run, next, steps, m);
    if Stage(next.pc) == 0 { RefusedVetted(next, steps + [m]); }
  }

  lemma CredentialVetted(run: Run, steps: seq<Met>, m: Met)
    requires Vetted(run, steps) && run.pc.ResolveForRead?
    ensures Vetted(Advance(run, m.db, m.choice), steps + [m])
  {
    hide Advance, Told, Approved;
    AllStay(run.input, steps, m);
    var next := Advance(run, m.db, m.choice);
    CredentialStep(run, m);
    assert next.pc == CheckBeforeRead ==> Says(run.input, m, CredentialResolved);
    SameApproved(run, next, steps, m);
    if Stage(next.pc) == 0 { RefusedVetted(next, steps + [m]); }
  }

  /** A check lets the run go on with what it has said, or ends it. */
  lemma CheckPasses(run: Run, m: Met)
    requires Checking(run.pc)
    ensures var next := Advance(run, m.db, m.choice);
            var on := if run.pc.CheckBeforeRead? then SendRead
                      else if run.pc.CheckBeforeRefresh? then SendRefresh(run.pc.snapshot) else SendMerge;
            && next == run.(pc := next.pc, approvalConsumed := next.approvalConsumed)
            && (Stage(next.pc) != 0 ==>
                  next.pc == on && Says(run.input, m, StillAllowed(run.plan, Consumes(run), BaseOf(run.pc))))
            && !next.pc.AskSession?
  {
    hide Advance, SaysStill, StoppedBy, PlanCode;
    CheckStep(run, m);
  }

  lemma ReadCheckVetted(run: Run, steps: seq<Met>, m: Met)
    requires Vetted(run, steps) && run.pc.CheckBeforeRead?
    ensures Vetted(Advance(run, m.db, m.choice), steps + [m])
  {
    hide Advance, Told, Says, Approved;
    AllStay(run.input, steps, m);
    var next := Advance(run, m.db, m.choice);
    CheckPasses(run, m);
    SameApproved(run, next, steps, m);
    if Stage(next.pc) == 0 { RefusedVetted(next, steps + [m]); }
  }

  lemma ReadPasses(run: Run, m: Met)
    requires run.pc.SendRead?
    ensures var next := Advance(run, m.db, m.choice);
            && next == run.(pc := next.pc)
            && (Stage(next.pc) == 0 ==> !next.pc.AskSession?)
            && (Stage(next.pc) != 0 ==>
                  && m.choice.github.Read? && InPlace(run, m.choice.github.snapshot)
                  && (next.pc == DecideAllow <==> !run.input.request.operation.Merge?)
                  && (Planned(run) <==> next.pc == ResolveForMerge(m.choice.github.snapshot))
                  && (Unplanned(run) <==> next.pc.TakeApproval?)
                  && (next.pc.TakeApproval? ==>
                        run.mergeApproval == Some(next.pc.approval) && next.pc.snapshot == m.choice.github.snapshot))
  {
    hide Advance, HeadMoved, AdapterCode;
    ReadStep(run, m);
    Conditions.InOrder(ReadComplaints(run, m.choice.github));
  }

  lemma ReadVetted(run: Run, steps: seq<Met>, m: Met)
    requires Vetted(run, steps) && run.pc.SendRead?
    ensures Vetted(Advance(run, m.db, m.choice), steps + [m])
  {
    hide Advance, Told, InPlace, Approved;
    AllStay(run.input, steps, m);
    ReadPasses(run, m);
    var next := Advance(run, m.db, m.choice);
    SameApproved(run, next, steps, m);
    if Stage(next.pc) == 0 {
      RefusedVetted(next, steps + [m]);
    } else {
      assert Says(run.input, m, HeadRead(m.choice.github.snapshot));
      SameInPlace(run, next, m.choice.github.snapshot);
    }
  }

  /** Where the head should be does not depend on how far the run has come. */
  lemma SameInPlace(run: Run, next: Run, snapshot: Snapshot)
    requires next.input == run.input && next.plan == run.plan
    ensures InPlace(next, snapshot) == InPlace(run, snapshot)
  {
  }

  /** The witnesses of the checks made so far carry over. */
  lemma SeenStays(run: Run, next: Run, steps: seq<Met>, m: Met)
    requires next.input == run.input && next.plan == run.plan
    ensures HeadSeen(run, steps) ==> HeadSeen(next, steps + [m])
    ensures HeadSeenAgain(run, steps) ==> HeadSeenAgain(next, steps + [m])
    ensures CheckedLast(run, steps) ==> CheckedLast(next, steps + [m])
    ensures CheckedAgain(run, steps) ==> CheckedAgain(next, steps + [m])
  {
    hide Told, InPlace;
    AllStay(run.input, steps, m);
    forall snapshot ensures InPlace(next, snapshot) == InPlace(run, snapshot) { SameInPlace(run, next, snapshot); }
  }

  /** A snapshot in place is a witness for what was checked against it. */
  lemma SnapshotSeen(run: Run, steps: seq<Met>, snapshot: Snapshot)
    requires InPlace(run, snapshot)
    ensures Told(run.input, steps, HeadRead(snapshot)) ==> HeadSeen(run, steps)
    ensures Told(run.input, steps, HeadUnmoved(snapshot)) ==> HeadSeenAgain(run, steps)
    ensures Told(run.input, steps, StillAllowed(run.plan, true, Some(snapshot.baseBranch))) ==> CheckedLast(run, steps)
    ensures Told(run.input, steps, StillAllowed(run.plan, false, Some(snapshot.baseBranch))) ==> CheckedAgain(run, steps)
  {
    hide Told, InPlace;
  }

  /** The carried snapshot, and all that was seen before, are still there after a step of the merge. */
  lemma CarriedOn(run: Run, next: Run, steps: seq<Met>, m: Met)
    requires Vetted(run, steps) && (Carrying(run.pc) || run.pc.SendMerge?)
    requires next.input == run.input && next.plan == run.plan && next.mergeApproval == run.mergeApproval
    requires next.scopeDigest == run.scopeDigest
    ensures Approved(run, steps) ==> Approved(next, steps + [m])
    ensures Unplanned(run) ==> run.input.approval.Some? && run.mergeApproval == run.input.approval
    ensures HeadSeen(next, steps + [m])
    ensures HeadSeenAgain(run, steps) ==> HeadSeenAgain(next, steps + [m])
    ensures CheckedLast(run, steps) ==> CheckedLast(next, steps + [m])
    ensures CheckedAgain(run, steps) ==> CheckedAgain(next, steps + [m])
    ensures Carrying(run.pc) ==>
              && Told(run.input, steps + [m], HeadRead(run.pc.snapshot)) && InPlace(next, run.pc.snapshot)
  {
    hide Told, InPlace, Approved, HeadSeen, HeadSeenAgain, CheckedLast, CheckedAgain;
    AllStay(run.input, steps, m);
    SeenStays(run, next, steps, m);
    SameApproved(run, next, steps, m);
    if Unplanned(run) { ApprovedSupplied(run, steps); }
    if Carrying(run.pc) { SameInPlace(run, next, run.pc.snapshot); }
  }

  lemma TakingVetted(run: Run, steps: seq<Met>, m: Met)
    requires Vetted(run, steps) && (run.pc.TakeApproval? || run.pc.ResolveForMerge?)
    ensures Vetted(Advance(run, m.db, m.choice), steps + [m])
  {
    hide Advance, Told, InPlace, Approved, HeadSeen, HeadSeenAgain, CheckedLast, CheckedAgain, SaysTaken;
    AllStay(run.input, steps, m);
    var next := Advance(run, m.db, m.choice);
    if run.pc.TakeApproval? {
      TakeStep(run, m);
      ApprovedSupplied(run, steps);
      assert next.pc == ResolveForMerge(run.pc.snapshot) ==> Says(run.input, m, ApprovalTaken(run.pc.approval));
    } else {
      CredentialStep(run, m);
    }
    CarriedOn(run, next, steps, m);
    if Stage(next.pc) == 0 { RefusedVetted(next, steps + [m]); }
  }

  lemma RefreshCheckVetted(run: Run, steps: seq<Met>, m: Met)
    requires Vetted(run, steps) && run.pc.CheckBeforeRefresh?
    ensures Vetted(Advance(run, m.db, m.choice), steps + [m])
  {
    hide Advance, Told, Says, InPlace, Approved, HeadSeen, HeadSeenAgain, CheckedLast, CheckedAgain;
    AllStay(run.input, steps, m);
    var next := Advance(run, m.db, m.choice);
    CheckPasses(run, m);
    CarriedOn(run, next, steps, m);
    SnapshotSeen(next, steps + [m], run.pc.snapshot);
    if Stage(next.pc) == 0 { RefusedVetted(next, steps + [m]); }
  }

  lemma RefreshVetted(run: Run, steps: seq<Met>, m: Met)
    requires Vetted(run, steps) && run.pc.SendRefresh?
    ensures Vetted(Advance(run, m.db, m.choice), steps + [m])
  {
    hide Advance, Told, InPlace, Approved, HeadSeen, HeadSeenAgain, CheckedLast, CheckedAgain, SaysUnmoved;
    AllStay(run.input, steps, m);
    var next, snapshot := Advance(run, m.db, m.choice), run.pc.snapshot;
    RefreshStep(run, m);
    assert next.pc == CheckBeforeMerge(snapshot) ==> Says(run.input, m, HeadUnmoved(snapshot));
    CarriedOn(run, next, steps, m);
    SnapshotSeen(next, steps + [m], snapshot);
    if Stage(next.pc) == 0 { RefusedVetted(next, steps + [m]); }
  }

  lemma MergeCheckVetted(run: Run, steps: seq<Met>, m: Met)
    requires Vetted(run, steps) && run.pc.CheckBeforeMerge?
    ensures Vetted(Advance(run, m.db, m.choice), steps + [m])
  {
    hide Advance, Told, Says, InPlace, Approved, HeadSeen, HeadSeenAgain, CheckedLast, CheckedAgain;
    AllStay(run.input, steps, m);
    var next := Advance(run, m.db, m.choice);
    CheckPasses(run, m);
    CarriedOn(run, next, steps, m);
    SnapshotSeen(next, steps + [m], run.pc.snapshot);
    if Stage(next.pc) == 0 { RefusedVetted(next, steps + [m]); }
  }

  lemma MergeVetted(run: Run, steps: seq<Met>, m: Met)
    requires Vetted(run, steps) && run.pc.SendMerge?
    ensures Vetted(Advance(run, m.db, m.choice), steps + [m])
  {
    hide Advance, Told, InPlace, Approved, HeadSeen, HeadSeenAgain, CheckedLast, CheckedAgain;
    AllStay(run.input, steps, m);
    var next := Advance(run, m.db, m.choice);
    MergeStep(run, m);
    CarriedOn(run, next, steps, m);
    assert next.pc == DecideAllow ==> Says(run.input, m, MergeDone);
    if Stage(next.pc) == 0 { RefusedVetted(next, steps + [m]); }
  }

  /** A run is performed only when its "allowed" decision has been stored and the answer has arrived. */
  lemma ClosingStep(run: Run, m: Met)
    requires Closing(run.pc)
    ensures var next := Advance(run, m.db, m.choice);
            && next == run.(pc := next.pc) && !next.pc.AskSession?
            && (Stage(next.pc) != 0 ==>
                  next.pc == Done(Performed)
                  && (next == run || (run.pc == DecideAllow && Arrived(m)
                                      && Store.AppendDecision(m.db, AllowRecord(run, m.choice)).Committed?)))
            && (run.pc == DecideAllow && Arrived(m) && Store.AppendDecision(m.db, AllowRecord(run, m.choice)).Committed? ==>
                  next.pc == Done(Performed))
  {
    hide Store.AppendDecision, AllowRecord, DenyRecord;
  }

  lemma ClosingVetted(run: Run, steps: seq<Met>, m: Met)
    requires Vetted(run, steps) && Closing(run.pc)
    ensures Vetted(Advance(run, m.db, m.choice), steps + [m])
  {
    hide Advance, Told, InPlace, Approved, HeadSeen, HeadSeenAgain, CheckedLast, CheckedAgain, Store.AppendDecision;
    hide AllowRecord;
    AllStay(run.input, steps, m);
    ClosingStep(run, m);
    var next := Advance(run, m.db, m.choice);
    if Stage(next.pc) == 0 {
      RefusedVetted(next, steps + [m]);
    } else {
      SeenStays(run, next, steps, m);
      SameApproved(run, next, steps, m);
      if Unplanned(run) { ApprovedSupplied(run, steps); }
      assert Arrived(m) ==> Says(run.input, m, DecisionStored);
    }
  }

  lemma VettedStep(run: Run, steps: seq<Met>, m: Met)
    requires Vetted(run, steps)
    ensures Vetted(Advance(run, m.db, m.choice), steps + [m])
  {
    hide Advance, Vetted;
    match run.pc
    case ReadApproval(found, consumed) =>
      if found.None? && consumed.None? { FirstReadVetted(run, steps, m); } else { SecondReadVetted(run, steps, m); }
    case AskSession => SessionVetted(run, steps, m);
    case StoreAttempt => AttemptVetted(run, steps, m);
    case AskConnections => ConnectionVetted(run, steps, m);
    case InspectPlan => PlanVetted(run, steps, m);
    case AskGuardian => GuardianVetted(run, steps, m);
    case TakeTool => ToolVetted(run, steps, m);
    case ResolveForRead => CredentialVetted(run, steps, m);
    case CheckBeforeRead => ReadCheckVetted(run, steps, m);
    case SendRead => ReadVetted(run, steps, m);
    case TakeApproval(_, _) => TakingVetted(run, steps, m);
    case ResolveForMerge(_) => TakingVetted(run, steps, m);
    case CheckBeforeRefresh(_) => RefreshCheckVetted(run, steps, m);
    case SendRefresh(_) => RefreshVetted(run, steps, m);
    case CheckBeforeMerge(_) => MergeCheckVetted(run, steps, m);
    case SendMerge => MergeVetted(run, steps, m);
    case _ => ClosingVetted(run, steps, m);
  }

  lemma {:induction false} Conduct(input: Input, steps: seq<Met>)
    ensures Follow(input, steps).input == input && Vetted(Follow(input, steps), steps)
  {
    hide Advance, Vetted;
    if |steps| == 0 {
      NothingVetted(input);
    } else {
      var last := |steps| - 1;
      Conduct(input, steps[..last]);
      VettedStep(Follow(input, steps[..last]), steps[..last], steps[last]);
      SameInput(Follow(input, steps[..last]), steps[last]);
      assert steps[..last] + [steps[last]] == steps;
    }
  }

  lemma SameInput(run: Run, m: Met)
    ensures Advance(run, m.db, m.choice).input == run.input
  {
    hide AfterSession, AfterAttempt, AfterConnections, AfterInspection, AfterGuardian, AfterApprovalRead, AfterTool;
    hide AfterReadCheck, AfterRead, AfterApproval, AfterMergeResolution, AfterRefreshCheck, AfterRefresh, AfterMergeCheck;
    hide Refuse, AfterDecision, AdapterDenial, DenyRecord, AllowRecord;
  }

  lemma NothingVetted(input: Input)
    ensures Vetted(Begin(input), [])
  {
  }

  /**
   * Everything a merge rests on. The session, the attempt, the connection, the plan, the guardian, the tool call
   * and the credential have answered for this request; the head was read where it belongs; and either the
   * supplied approval was found stored, unused and fitting, and taken, or the plan was asked again, the head was
   * read again, and the plan was consumed for the base branch it names.
   */
  ghost predicate MergeEarned(run: Run, steps: seq<Met>) {
    var input := run.input;
    && input.request.operation.Merge?
    && Told(input, steps, SessionFits) && Told(input, steps, AttemptStored) && Told(input, steps, ConnectionFits)
    && Told(input, steps, PlanSeen(run.plan)) && Told(input, steps, GuardianAgrees) && Told(input, steps, ToolTaken)
    && Told(input, steps, CredentialResolved) && Told(input, steps, StillAllowed(run.plan, false, None))
    && HeadSeen(run, steps) && CheckedLast(run, steps)
    && (run.plan.None? ==> Approved(run, steps) && Told(input, steps, ApprovalTaken(input.approval.value)))
    && (run.plan.Some? ==> CheckedAgain(run, steps) && HeadSeenAgain(run, steps))
  }

  ghost predicate ReadEarned(run: Run, steps: seq<Met>) {
    var input := run.input;
    && Told(input, steps, SessionFits) && Told(input, steps, AttemptStored) && Told(input, steps, ConnectionFits)
    && Told(input, steps, PlanSeen(run.plan)) && Told(input, steps, GuardianAgrees) && Told(input, steps, ToolTaken)
    && Told(input, steps, CredentialResolved) && Told(input, steps, StillAllowed(run.plan, true, None))
    && HeadSeen(run, steps)
  }

  /** Whatever a run meets: it sends a merge, or answers that it performed, only when it has earned it. */
  lemma OnlyEarned(input: Input, steps: seq<Met>)
    ensures var run := Follow(input, steps);
            && (run.pc == SendMerge ==> MergeEarned(run, steps))
            && (run.pc == Done(Performed) ==>
                  && Told(input, steps, DecisionStored)
                  && (input.request.operation.Merge? ==> MergeEarned(run, steps) && Told(input, steps, MergeDone))
                  && (!input.request.operation.Merge? ==> ReadEarned(run, steps)))
  {
    hide Follow, Told, InPlace, Approved, HeadSeen, HeadSeenAgain, CheckedLast, CheckedAgain;
    Conduct(input, steps);
    var run := Follow(input, steps);
    if Stage(run.pc) >= 6 && Unplanned(run) { ApprovedSupplied(run, steps); }
  }

  // ---- and whenever it has

  /** The attempt is there, of this session and not later, and neither it nor the new decision is decided. */
  predicate Decidable(run: Run, m: Met) {
    && Arrived(m) && run.input.attemptId in m.db.attempts
    && m.db.attempts[run.input.attemptId].sessionId == run.input.request.sessionId
    && m.db.attempts[run.input.attemptId].attemptedAt <= m.choice.brokerNow
    && (forall d :: d in m.db.decisions ==> d.attemptId != run.input.attemptId && d.decisionId != m.choice.freshId)
  }

  /** The store holds the supplied approval, unused, and it fits. */
  predicate SuppliedHeld(run: Run, m: Met) {
    && run.input.approval.Some? && SaysApproval(run.input, m, run.input.approval.value)
    && SaysUnused(run.input, m, run.input.approval.value) && Fits(run, run.input.approval.value)
    && run.input.approval.value.approvedAt <= run.input.evaluatedAt < run.input.approval.value.expiresAt
  }

  /** The answer a run is waiting for, in its favour. */
  ghost predicate Favours(run: Run, m: Met) {
    var input := run.input;
    match run.pc
    case AskSession => SaysSession(input, m)
    case StoreAttempt => SaysAttempt(input, m)
    case AskConnections => SaysConnection(input, m)
    case InspectPlan => exists plan :: SaysPlan(input, m, plan)
    case AskGuardian => SaysGuardian(input, m) && (Unplanned(run) ==> input.approval.Some?)
    case ReadApproval(_, _) => SuppliedHeld(run, m)
    case TakeTool => SaysTool(input, m)
    case ResolveForRead => m.choice.resolved
    case CheckBeforeRead => SaysStill(input, m, run.plan, !input.request.operation.Merge?, None)
    case SendRead => m.choice.github.Read? && InPlace(run, m.choice.github.snapshot)
    case TakeApproval(_, approval) => SaysTaken(input, m, approval)
    case ResolveForMerge(_) => m.choice.resolved
    case CheckBeforeRefresh(snapshot) => SaysStill(input, m, run.plan, false, Some(snapshot.baseBranch))
    case SendRefresh(snapshot) => SaysUnmoved(m, snapshot)
    case CheckBeforeMerge(snapshot) => SaysStill(input, m, run.plan, true, Some(snapshot.baseBranch))
    case SendMerge => m.choice.github.Merged?
    case DecideAllow => Decidable(run, m)
    case _ => true
  }

  predicate Going(pc: Pc) { pc.AskSession? || Stage(pc) != 0 }

  /** What a waiting run has read of its approval so far was in its favour. */
  predicate ReadWell(run: Run) {
    run.pc.ReadApproval? ==>
      && run.input.approval.Some? && !(run.pc.found.Some? && run.pc.consumed.Some?)
      && (run.pc.found.Some? ==> run.pc.found.value == run.input.approval)
      && (run.pc.consumed.Some? ==> run.pc.consumed.value == Some(false))
  }

  lemma HeldWell(run: Run, m: Met)
    requires SuppliedHeld(run, m)
    ensures Arrived(m) && RowApproval(Held(run, m.db)) == run.input.approval && RowUsed(Held(run, m.db)) == Some(false)
    ensures JudgeApproval(run, run.input.approval, Some(false)).pc == TakeTool
  {
    hide JudgeApproval;
    ApprovalJudged(run, run.input.approval, Some(false));
    Conditions.InOrder(ApprovalComplaints(run, run.input.approval, Some(false)));
  }

  lemma FavouredApproval(run: Run, m: Met)
    requires run.pc.ReadApproval? && ReadWell(run) && Favours(run, m)
    ensures var next := Advance(run, m.db, m.choice); Going(next.pc) && ReadWell(next)
  {
    hide Advance, JudgeApproval, SuppliedHeld, Held, RowApproval, RowUsed;
    HeldWell(run, m) by { assert SuppliedHeld(run, m); }
    ApprovalReadStep(run, m);
    if run.pc.found.Some? { assert run.pc.found.value == run.input.approval; }
    if run.pc.consumed.Some? { assert run.pc.consumed.value == Some(false); }
  }

  lemma FavouredOpening(run: Run, steps: seq<Met>, m: Met)
    requires Vetted(run, steps) && Favours(run, m)
    requires run.pc.AskSession? || run.pc.StoreAttempt? || run.pc.AskConnections? || run.pc.InspectPlan? || run.pc.AskGuardian?
    ensures var next := Advance(run, m.db, m.choice); Going(next.pc) && ReadWell(next)
  {
    hide Advance, Told, SaysSession, SaysAttempt, SaysConnection, SaysPlan, SaysGuardian;
    match run.pc
    case AskSession => SessionStep(run, m);
    case StoreAttempt => AttemptStep(run, m);
    case AskConnections => ConnectionStep(run, m);
    case InspectPlan => PlanStep(run, m);
    case AskGuardian => GuardianGoes(run, m);
  }

  lemma GuardianGoes(run: Run, m: Met)
    requires run.pc.AskGuardian? && run.floor == FloorOf(run) && SaysGuardian(run.input, m)
    requires Unplanned(run) ==> run.input.approval.Some?
    ensures var next := Advance(run, m.db, m.choice); Going(next.pc) && ReadWell(next)
  {
    hide Advance;
    GuardianStep(run, m);
    Conditions.InOrder(GuardianComplaints(run, m.choice.guardian));
  }

  lemma FavouredRead(run: Run, steps: seq<Met>, m: Met)
    requires Vetted(run, steps) && run.pc.SendRead? && Favours(run, m)
    ensures Going(Advance(run, m.db, m.choice).pc)
  {
    hide Advance, AdapterCode, Told;
    ReadStep(run, m);
    Conditions.InOrder(ReadComplaints(run, m.choice.github));
  }

  lemma FavouredActing(run: Run, steps: seq<Met>, m: Met)
    requires Vetted(run, steps) && Favours(run, m) && !Opening(run.pc) && !Closing(run.pc)
    ensures Going(Advance(run, m.db, m.choice).pc)
  {
    hide Advance, Told, SaysTool, SaysStill, SaysTaken, SaysUnmoved, InPlace, Approved, ApprovalVetted, Opened;
    match run.pc
    case TakeTool => ToolStep(run, m);
    case ResolveForRead => CredentialStep(run, m);
    case CheckBeforeRead => CheckStep(run, m);
    case SendRead => FavouredRead(run, steps, m);
    case TakeApproval(_, _) => TakeStep(run, m);
    case ResolveForMerge(_) => CredentialStep(run, m);
    case CheckBeforeRefresh(_) => CheckStep(run, m);
    case SendRefresh(_) => RefreshStep(run, m);
    case CheckBeforeMerge(_) => CheckStep(run, m);
    case SendMerge => MergeStep(run, m);
  }

  lemma FavouredClosing(run: Run, m: Met)
    requires Favours(run, m) && (run.pc == DecideAllow || run.pc == Done(Performed))
    ensures Going(Advance(run, m.db, m.choice).pc)
  {
    hide Store.AppendDecision;
    ClosingStep(run, m);
    if run.pc == DecideAllow { Conditions.DecisionRecorded(m.db, AllowRecord(run, m.choice)); }
  }

  lemma FavouredStep(run: Run, steps: seq<Met>, m: Met)
    requires Vetted(run, steps) && Going(run.pc) && ReadWell(run) && Favours(run, m)
    ensures var next := Advance(run, m.db, m.choice); Going(next.pc) && ReadWell(next)
  {
    hide Advance, Vetted, Favours;
    if run.pc.ReadApproval? { FavouredApproval(run, m); }
    else if Opening(run.pc) { FavouredOpening(run, steps, m); }
    else if Closing(run.pc) { FavouredClosing(run, m); LaterPcs(run, m); }
    else { FavouredActing(run, steps, m); LaterPcs(run, m); }
  }

  lemma LaterPcs(run: Run, m: Met)
    requires !Opening(run.pc)
    ensures !Advance(run, m.db, m.choice).pc.ReadApproval?
  {
    hide AfterTool, AfterReadCheck, AfterRead, AfterApproval, AfterMergeResolution, AfterRefreshCheck, AfterRefresh;
    hide AfterMergeCheck, Refuse, AfterDecision, AdapterDenial, DenyRecord, AllowRecord;
  }

  ghost predicate Favoured(input: Input, steps: seq<Met>) {
    forall k :: 0 <= k < |steps| ==> Favours(Follow(input, steps[..k]), steps[k])
  }

  lemma {:induction false} FavouredRun(input: Input, steps: seq<Met>)
    requires input.request.Valid() && input.request.operation.GitHub() && Favoured(input, steps)
    ensures var run := Follow(input, steps);
            && Going(run.pc) && ReadWell(run)
            && (run.pc == Done(Performed) || BrokerRuns.Distance(run.pc) + |steps| <= 20)
  {
    hide Advance, Favours, Vetted;
    if |steps| > 0 {
      var last := |steps| - 1;
      var before := steps[..last];
      assert forall k :: 0 <= k < last ==> before[..k] == steps[..k];
      FavouredRun(input, before);
      Conduct(input, before);
      FavouredStep(Follow(input, before), before, steps[last]);
      if Follow(input, before).pc == Done(Performed) {
        ClosingStep(Follow(input, before), steps[last]);
      } else {
        BrokerRuns.Progress(Follow(input, before), steps[last].db, steps[last].choice);
      }
    }
  }

  /** A valid request that is told what it waits for at every step is performed, in at most twenty of them. */
  lemma FavouredPerforms(input: Input, steps: seq<Met>)
    requires input.request.Valid() && input.request.operation.GitHub() && Favoured(input, steps) && |steps| >= 20
    ensures Follow(input, steps).pc == Done(Performed)
  {
    hide Follow, Favoured;
    FavouredRun(input, steps);
  }

  // ---- every interleaving

  /** The steps one run takes in an interleaving, with the store and the answers each of them met. */
  function StepsOf(moves: seq<Move>, i: nat): seq<Met> {
    if |moves| == 0 then []
    else
      var before, move := moves[..|moves| - 1], moves[|moves| - 1];
      StepsOf(before, i)
      + if move.Proceed? && move.i == i && i < |Play(before).runs| then [Met(Play(before).db, move.choice)] else []
  }

  lemma {:induction false} NotStarted(moves: seq<Move>, i: nat)
    requires |Play(moves).runs| <= i
    ensures StepsOf(moves, i) == []
  {
    hide Act;
    if |moves| > 0 {
      OnlyStarts(Play(moves[..|moves| - 1]), moves[|moves| - 1]);
      NotStarted(moves[..|moves| - 1], i);
    }
  }

  lemma OnlyStarts(w: World, move: Move)
    ensures |w.runs| <= |Act(w, move).runs| <= |w.runs| + 1
    ensures |Act(w, move).runs| == |w.runs| + 1 ==> move.Start? && Act(w, move).runs == w.runs + [Begin(move.input)]
    ensures |Act(w, move).runs| == |w.runs| ==>
              forall i :: 0 <= i < |w.runs| ==>
                Act(w, move).runs[i] ==
                  if move.Proceed? && move.i == i then Advance(w.runs[i], w.db, move.choice) else w.runs[i]
  {
    hide Advance, Emits, R.Apply, Begin;
  }

  /** A run in an interleaving is exactly what its own steps make of its input. */
  lemma {:induction false} RunsFollow(moves: seq<Move>, i: nat)
    requires i < |Play(moves).runs|
    ensures Play(moves).runs[i] == Follow(Play(moves).runs[i].input, StepsOf(moves, i))
  {
    hide Act, Advance, Begin;
    var before, move := moves[..|moves| - 1], moves[|moves| - 1];
    var w := Play(before);
    OnlyStarts(w, move);
    if i < |w.runs| {
      RunsFollow(before, i);
      if move.Proceed? && move.i == i {
        var steps := StepsOf(moves, i);
        assert steps == StepsOf(before, i) + [Met(w.db, move.choice)];
        assert steps[..|steps| - 1] == StepsOf(before, i);
        SameInput(w.runs[i], Met(w.db, move.choice));
      } else {
        assert StepsOf(moves, i) == StepsOf(before, i);
        assert Play(moves).runs[i] == w.runs[i];
      }
    } else {
      NotStarted(before, i);
      BeginInput(move.input);
    }
  }

  lemma BeginInput(input: Input)
    ensures Begin(input).input == input
  {
  }

  /** In every interleaving a run merges, or answers that it performed, only when it has earned it. */
  lemma EveryRunEarns(moves: seq<Move>, i: nat)
    requires i < |Play(moves).runs|
    ensures var run, steps := Play(moves).runs[i], StepsOf(moves, i);
            && (run.pc == SendMerge ==> MergeEarned(run, steps))
            && (run.pc == Done(Performed) ==>
                  && Told(run.input, steps, DecisionStored)
                  && (run.input.request.operation.Merge? ==> MergeEarned(run, steps) && Told(run.input, steps, MergeDone))
                  && (!run.input.request.operation.Merge? ==> ReadEarned(run, steps)))
  {
    hide Play, Follow, Told, MergeEarned, ReadEarned;
    RunsFollow(moves, i);
    OnlyEarned(Play(moves).runs[i].input, StepsOf(moves, i));
  }

  lemma PlayStep(moves: seq<Move>)
    requires |moves| > 0
    ensures Play(moves) == Act(Play(moves[..|moves| - 1]), moves[|moves| - 1])
  {
  }

  /** A merge request is sent by a run that stands before its merge. */
  lemma MergeSender(w: World, move: Move)
    requires |Act(w, move).log| > |w.log| && Act(w, move).log[|w.log|].MergeSent?
    ensures move.Proceed? && move.i < |w.runs| && w.runs[move.i].pc == SendMerge && Act(w, move).log[|w.log|].run == move.i
  {
    hide Advance, R.Apply, Ask;
  }

  lemma LogGrows(w: World, move: Move)
    ensures w.log <= Act(w, move).log && |Act(w, move).log| <= |w.log| + 1
  {
    hide Advance, R.Apply, Emits;
  }

  /** In every interleaving each merge request is sent by a run that has earned it by then. */
  lemma {:induction false} MergesEarned(moves: seq<Move>, k: nat) returns (j: nat)
    requires k < |Play(moves).log| && Play(moves).log[k].MergeSent?
    ensures j < |moves| && |Play(moves[..j]).log| == k
    ensures var i, w := Play(moves).log[k].run, Play(moves[..j]);
            i < |w.runs| && moves[j].Proceed? && moves[j].i == i && MergeEarned(w.runs[i], StepsOf(moves[..j], i))
  {
    hide Act, MergeEarned;
    PlayNothing();
    var before, move := moves[..|moves| - 1], moves[|moves| - 1];
    LogGrows(Play(before), move);
    if k < |Play(before).log| {
      j := MergesEarned(before, k);
      assert moves[..j] == before[..j];
    } else {
      j := |moves| - 1;
      MergeSender(Play(before), move);
      EveryRunEarns(before, move.i);
    }
  }

  lemma PlayNothing()
    ensures Play([]).log == []
  {
  }
}
