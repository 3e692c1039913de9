/** What one broker run keeps true of its own trace, whatever the store, GitHub and the guardian answer. */
module BrokerRuns {
  import opened Records
  import opened Broker
  import Conditions
  import Store
  import Plans

  // ---- what a committed step took

  ghost predicate TookTool(e: Event, request: Request) {
    && e.Stored? && e.op.ConsumeToolCall? && e.op.sid == request.sessionId
    && Store.ConsumeToolCall(e.before, e.op.sid, e.op.now).value.Some?
  }

  /** The store has an unused approval given for exactly this request of this session, and marks it used. */
  ghost predicate TookApproval(e: Event, request: Request) {
    && e.Stored? && e.op.ConsumeApproval?
    && e.op.consumption.requestDigest == RequestDigest(request) && e.op.consumption.sessionId == request.sessionId
    && Store.JudgeConsumption(e.before, e.op.consumption, e.op.now) == Store.ApprovalConsumed
    && ApprovalOf(e.before, e.op.consumption.approvalId, request)
  }

  predicate ApprovalOf(db: Db, id: Id, request: Request) {
    && id in db.approvals && db.approvals[id].consumedAt.None?
    && db.approvals[id].approval.requestDigest == RequestDigest(request)
    && db.approvals[id].approval.sessionId == request.sessionId
    && db.approvals[id].approval.scope.callerId == request.scope.callerId
    && db.approvals[id].approval.scope.policyVersion == request.scope.policyVersion
  }

  ghost predicate TookPlan(e: Event, request: Request) {
    && e.Stored? && e.op.CheckPlan? && e.op.check.phase == Plans.Consume
    && e.op.check.request == request && e.op.check.requestDigest == RequestDigest(request)
    && Plans.CheckPlan(e.before, e.op.check, e.op.now).value.Allowed?
  }

  ghost predicate TookAuthority(e: Event, request: Request) { TookApproval(e, request) || TookPlan(e, request) }

  ghost predicate Decided(e: Event) {
    e.Stored? && e.op.AppendDecision? && Store.AppendDecision(e.before, e.op.decision).Committed?
  }

  predicate Attempted(e: Event) { e.Stored? && e.op.AppendAttempt? }

  /** An attempt under this id that the store has committed. */
  ghost predicate OpenedAttempt(e: Event, attemptId: Id) {
    && e.Stored? && e.op.AppendAttempt? && e.op.attempt.attemptId == attemptId
    && Store.AppendAttempt(e.before, e.op.attempt).Committed?
  }

  ghost predicate HasAttempt(trace: seq<Event>, attemptId: Id) {
    exists k :: 0 <= k < |trace| && OpenedAttempt(trace[k], attemptId)
  }

  predicate SentRequest(e: Event) { e.ReadSent? || e.MergeSent? }

  ghost predicate HasTool(trace: seq<Event>, request: Request) {
    exists k :: 0 <= k < |trace| && TookTool(trace[k], request)
  }

  ghost predicate HasAuthority(trace: seq<Event>, request: Request) {
    exists k :: 0 <= k < |trace| && TookAuthority(trace[k], request)
  }

  predicate Silent(trace: seq<Event>) { forall k :: 0 <= k < |trace| ==> !SentRequest(trace[k]) }
  predicate NoMerge(trace: seq<Event>) { forall k :: 0 <= k < |trace| ==> !trace[k].MergeSent? }
  ghost predicate NoDecision(trace: seq<Event>) { forall k :: 0 <= k < |trace| ==> !Decided(trace[k]) }
  predicate NoAttempt(trace: seq<Event>) { forall k :: 0 <= k < |trace| ==> !Attempted(trace[k]) }

  function Extend(trace: seq<Event>, event: Option<Event>): seq<Event> {
    if event.Some? then trace + [event.value] else trace
  }

  lemma HasKept(trace: seq<Event>, event: Option<Event>, request: Request)
    ensures HasTool(trace, request) ==> HasTool(Extend(trace, event), request)
    ensures HasAuthority(trace, request) ==> HasAuthority(Extend(trace, event), request)
    ensures event.Some? && TookTool(event.value, request) ==> HasTool(Extend(trace, event), request)
    ensures event.Some? && TookAuthority(event.value, request) ==> HasAuthority(Extend(trace, event), request)
  {
    hide TookTool, TookAuthority;
    var after := Extend(trace, event);
    if HasTool(trace, request) {
      var k :| 0 <= k < |trace| && TookTool(trace[k], request);
      assert TookTool(after[k], request);
    }
    if HasAuthority(trace, request) {
      var k :| 0 <= k < |trace| && TookAuthority(trace[k], request);
      assert TookAuthority(after[k], request);
    }
    if event.Some? { assert after[|trace|] == event.value; }
  }

  // ---- the flags of a run

  /** Steps that only a merge takes. */
  predicate MergeStep(pc: Pc) {
    pc.TakeApproval? || pc.ResolveForMerge? || pc.CheckBeforeRefresh? || pc.SendRefresh? || pc.CheckBeforeMerge? || pc.SendMerge?
  }

  /** Steps after the tool call was taken. */
  predicate Equipped(pc: Pc) {
    pc.ResolveForRead? || pc.CheckBeforeRead? || pc.SendRead? || MergeStep(pc) || pc.DecideAllow?
  }

  /** What the program counter implies about the flags. */
  predicate Staged(run: Run) {
    && (Equipped(run.pc) ==> run.toolConsumed)
    && (Equipped(run.pc) && !run.pc.ResolveForRead? ==> run.adapterCrossed)
    && (MergeStep(run.pc) ==> run.Merging())
    && ((run.pc.ResolveForMerge? || run.pc.CheckBeforeMerge?) && run.plan.None? ==> run.approvalConsumed)
    && (run.pc.CheckBeforeRefresh? || run.pc.SendRefresh? ==> run.plan.Some?)
    && (run.pc.SendMerge? ==> run.approvalConsumed)
    && (run.pc.DecideAllow? && run.Merging() ==> run.approvalConsumed)
    && (PastGuardian(run.pc) ==> Permissive(run))
  }

  /** Past the guardian's answer and still going. */
  predicate PastGuardian(pc: Pc) { pc.ReadApproval? || pc.TakeTool? || Equipped(pc) }

  /** The floor the guardian's answer has led to lets a read pass, or a merge that is confirmed otherwise. */
  predicate Permissive(run: Run) { run.floor == LevelAllow || (run.Merging() && run.floor == LevelConfirm) }

  /** A raised flag is backed by a committed consumption; a lowered one by silence. */
  ghost predicate Backed(run: Run, trace: seq<Event>) {
    && (run.toolConsumed ==> HasTool(trace, run.Request()))
    && (run.approvalConsumed ==> HasAuthority(trace, run.Request()))
    && (!run.adapterCrossed ==> Silent(trace))
  }

  lemma GuardianPermissive(run: Run, c: Choice)
    ensures PastGuardian(AfterGuardian(run, c).pc) ==> Permissive(AfterGuardian(run, c))
  {
    hide ApplyRecommendation;
  }

  lemma StagedOpening(run: Run, db: Db, c: Choice)
    requires Staged(run) && Opening(run.pc)
    ensures Staged(AdvanceOpening(run, db, c))
    ensures var after := AdvanceOpening(run, db, c); after.input == run.input && SameFlags(run, after)
  {
    hide AfterSession, AfterAttempt, AfterConnections, AfterInspection, AfterGuardian, AfterApprovalRead;
    hide Refuse;
    GuardianPermissive(run, c);
  }

  lemma StagedActing(run: Run, db: Db, c: Choice)
    requires Staged(run) && !Opening(run.pc) && !Closing(run.pc)
    ensures Staged(AdvanceActing(run, db, c)) && AdvanceActing(run, db, c).input == run.input
  {
    hide AfterTool, AfterReadCheck, AfterRead, AfterApproval, AfterMergeResolution, AfterRefreshCheck, AfterRefresh;
    hide AfterMergeCheck, Refuse, AdapterDenial;
  }

  lemma StagedClosing(run: Run, db: Db, c: Choice)
    requires Closing(run.pc)
    ensures Staged(AdvanceClosing(run, db, c))
    ensures var after := AdvanceClosing(run, db, c); after.input == run.input && SameFlags(run, after)
  {
    hide AfterDecision, DenyRecord, AllowRecord;
  }

  predicate SameFlags(run: Run, after: Run) {
    after.toolConsumed == run.toolConsumed && after.approvalConsumed == run.approvalConsumed
    && after.adapterCrossed == run.adapterCrossed
  }

  lemma StagedStep(run: Run, db: Db, c: Choice)
    requires Staged(run)
    ensures Staged(Advance(run, db, c)) && Advance(run, db, c).input == run.input
  {
    hide Staged, AdvanceOpening, AdvanceActing, AdvanceClosing;
    if Opening(run.pc) { StagedOpening(run, db, c); }
    else if Closing(run.pc) { StagedClosing(run, db, c); }
    else { StagedActing(run, db, c); }
  }

  lemma ToolRaised(run: Run, i: nat, db: Db, c: Choice)
    requires run.pc.TakeTool?
    ensures var after, event := AdvanceActing(run, db, c), Emits(run, i, db, c);
            after.toolConsumed && !run.toolConsumed ==> event.Some? && TookTool(event.value, run.Request())
  {
    hide Refuse;
  }

  lemma ApprovalRaised(run: Run, i: nat, db: Db, c: Choice)
    requires run.pc.TakeApproval?
    ensures var after, event := AdvanceActing(run, db, c), Emits(run, i, db, c);
            after.approvalConsumed && !run.approvalConsumed ==> event.Some? && TookApproval(event.value, run.Request())
  {
    hide Store.JudgeConsumption, Refuse;
    Conditions.ApprovalConsumedIff(db, ApprovalUseOf(run, run.pc.approval), c.storeNow);
  }

  lemma PlanRaised(run: Run, i: nat, db: Db, c: Choice)
    requires run.pc.CheckBeforeMerge?
    ensures var after, event := AdvanceActing(run, db, c), Emits(run, i, db, c);
            after.approvalConsumed && !run.approvalConsumed ==> event.Some? && TookPlan(event.value, run.Request())
  {
    hide Plans.CheckPlan, Refuse, PlanDenial;
  }

  lemma RaisedActing(run: Run, i: nat, db: Db, c: Choice)
    requires !Opening(run.pc) && !Closing(run.pc)
    ensures var after, event := AdvanceActing(run, db, c), Emits(run, i, db, c);
            && (after.toolConsumed && !run.toolConsumed ==> event.Some? && TookTool(event.value, run.Request()))
            && (after.approvalConsumed && !run.approvalConsumed ==> event.Some? && TookAuthority(event.value, run.Request()))
            && (run.toolConsumed ==> after.toolConsumed) && (run.approvalConsumed ==> after.approvalConsumed)
            && (run.adapterCrossed ==> after.adapterCrossed)
  {
    hide TookTool, TookApproval, TookPlan, Emits;
    hide AfterTool, AfterReadCheck, AfterRead, AfterApproval, AfterMergeResolution, AfterRefreshCheck, AfterRefresh;
    hide AfterMergeCheck, Refuse, AdapterDenial;
    if run.pc.TakeTool? { ToolRaised(run, i, db, c); }
    else if run.pc.TakeApproval? { ApprovalRaised(run, i, db, c); }
    else if run.pc.CheckBeforeMerge? { PlanRaised(run, i, db, c); }
  }

  lemma SentAfterCrossing(run: Run, i: nat, db: Db, c: Choice)
    requires Staged(run) && Emits(run, i, db, c).Some? && SentRequest(Emits(run, i, db, c).value)
    ensures run.adapterCrossed
  {
    hide Ask;
  }

  /** The steps that raise a flag, and the event each leaves. */
  lemma FlagsRaised(run: Run, i: nat, db: Db, c: Choice)
    requires Staged(run)
    ensures var after, event := Advance(run, db, c), Emits(run, i, db, c);
            && (after.toolConsumed && !run.toolConsumed ==> event.Some? && TookTool(event.value, run.Request()))
            && (after.approvalConsumed && !run.approvalConsumed ==> event.Some? && TookAuthority(event.value, run.Request()))
            && (run.toolConsumed ==> after.toolConsumed) && (run.approvalConsumed ==> after.approvalConsumed)
            && (run.adapterCrossed ==> after.adapterCrossed)
            && (event.Some? && SentRequest(event.value) ==> run.adapterCrossed)
  {
    hide TookTool, TookAuthority, Staged, Emits, AdvanceOpening, AdvanceActing, AdvanceClosing, SentRequest;
    if Emits(run, i, db, c).Some? && SentRequest(Emits(run, i, db, c).value) { SentAfterCrossing(run, i, db, c); }
    if Opening(run.pc) { StagedOpening(run, db, c); }
    else if Closing(run.pc) { StagedClosing(run, db, c); }
    else { RaisedActing(run, i, db, c); }
  }

  lemma BackedStep(run: Run, trace: seq<Event>, i: nat, db: Db, c: Choice)
    requires Staged(run) && Backed(run, trace)
    ensures Backed(Advance(run, db, c), Extend(trace, Emits(run, i, db, c)))
  {
    hide Advance, Emits, HasTool, HasAuthority, TookTool, TookAuthority, Staged;
    HasKept(trace, Emits(run, i, db, c), run.Request());
    FlagsRaised(run, i, db, c);
    StagedStep(run, db, c);
  }

  // ---- merges

  /** A merge request is this run's operation, and comes after its tool call and its authority. */
  ghost predicate Justified(trace: seq<Event>, k: int, request: Request)
    requires 0 <= k < |trace|
  {
    trace[k].MergeSent? ==>
      && request.operation.Merge? && trace[k].operation == request.operation
      && HasTool(trace[..k], request) && HasAuthority(trace[..k], request)
  }

  ghost predicate MergesSound(run: Run, trace: seq<Event>) {
    && (forall k :: 0 <= k < |trace| ==> Justified(trace, k, run.Request()))
    && (forall k, l :: 0 <= k < l < |trace| ==> !(trace[k].MergeSent? && trace[l].MergeSent?))
    && (!Closing(run.pc) ==> NoMerge(trace))
  }

  lemma EndingStep(run: Run, i: nat, db: Db, c: Choice)
    ensures Closing(run.pc) ==> Closing(Advance(run, db, c).pc)
    ensures var event := Emits(run, i, db, c);
            event.Some? && event.value.MergeSent? ==>
              run.pc.SendMerge? && Closing(Advance(run, db, c).pc) && event.value.operation == run.Request().operation
  {
    hide AdvanceOpening, AfterDecision, DenyRecord, AllowRecord, Ask, AdapterDenial, Deferred;
    hide AfterTool, AfterReadCheck, AfterRead, AfterApproval, AfterMergeResolution, AfterRefreshCheck, AfterRefresh;
    hide AfterMergeCheck;
  }

  lemma MergesStep(run: Run, trace: seq<Event>, i: nat, db: Db, c: Choice)
    requires Staged(run) && Backed(run, trace) && MergesSound(run, trace)
    ensures MergesSound(Advance(run, db, c), Extend(trace, Emits(run, i, db, c)))
  {
    hide Advance, Emits, HasTool, HasAuthority;
    EndingStep(run, i, db, c);
    StagedStep(run, db, c);
    var event := Emits(run, i, db, c);
    var after := Extend(trace, event);
    forall k | 0 <= k < |after| ensures Justified(after, k, run.Request()) {
      if k < |trace| {
        assert Justified(trace, k, run.Request());
        assert after[..k] == trace[..k];
      } else {
        assert after[..k] == trace;
      }
    }
    assert forall k :: 0 <= k < |trace| ==> after[k] == trace[k];
    assert forall k, l :: 0 <= k < l < |after| ==> !(after[k].MergeSent? && after[l].MergeSent?);
    assert !Closing(Advance(run, db, c).pc) ==> NoMerge(after);
    assert Advance(run, db, c).Request() == run.Request();
  }

  // ---- decisions

  /** A stored decision claims a consumption only if it happened, and a silent adapter only if nothing was sent. */
  ghost predicate Truthful(decision: Decision, trace: seq<Event>, request: Request) {
    && (decision.toolConsumed ==> HasTool(trace, request))
    && (decision.approval == Consumed ==> HasAuthority(trace, request))
    && (!decision.adapterCrossed ==> Silent(trace))
    && (decision.control == ControlAllowed ==> decision.toolConsumed && decision.adapterCrossed)
    && (decision.control == ControlAllowed && request.operation.Merge? ==> decision.approval == Consumed)
    && (decision.control == ControlAllowed ==>
          decision.floor == LevelAllow || (request.operation.Merge? && decision.floor == LevelConfirm))
  }

  function ControlOf(result: Result): ControlOutcome {
    if result == Performed then ControlAllowed else Control(result.code)
  }

  /** A decision is recorded for the run's own attempt, which was committed before it. */
  ghost predicate OwnRecord(trace: seq<Event>, k: int, run: Run)
    requires 0 <= k < |trace|
  {
    Decided(trace[k]) ==>
      && trace[k].op.decision.attemptId == run.input.attemptId
      && trace[k].op.decision.sessionId == run.Request().sessionId
      && HasAttempt(trace[..k], run.input.attemptId)
  }

  /** What a run may answer before it has attempted anything. */
  predicate Early(result: Result) {
    result == Refused(Malformed) || result == Refused(ScopeMismatch) || result == Refused(NotActive)
  }

  ghost predicate Answered(trace: seq<Event>, result: Result) {
    exists k :: 0 <= k < |trace| && Decided(trace[k]) && trace[k].op.decision.control == ControlOf(result)
  }

  /** Past its attempt, and not yet at an answer. */
  predicate Attempting(pc: Pc) { !pc.AskSession? && !pc.StoreAttempt? && !pc.Done? }

  ghost predicate DecisionsSound(run: Run, trace: seq<Event>) {
    && (forall k :: 0 <= k < |trace| && Decided(trace[k]) ==> Truthful(trace[k].op.decision, trace, run.Request()))
    && (forall k :: 0 <= k < |trace| ==> OwnRecord(trace, k, run))
    && (Attempting(run.pc) ==> HasAttempt(trace, run.input.attemptId))
    && (forall k, l :: 0 <= k < l < |trace| ==> !(Decided(trace[k]) && Decided(trace[l])))
    && (!run.pc.Done? ==> NoDecision(trace))
    && (run.pc.AskSession? || run.pc.StoreAttempt? ==> NoAttempt(trace))
    && (run.pc.Done? && run.pc.result != Refused(AuditUnavailable) ==>
          (NoAttempt(trace) && Early(run.pc.result)) || Answered(trace, run.pc.result))
  }

  /** Only the deciding steps store a decision, which ends the run. */
  lemma DecidingStep(run: Run, i: nat, db: Db, c: Choice)
    requires Emits(run, i, db, c).Some? && Decided(Emits(run, i, db, c).value)
    ensures run.pc.DecideAllow? || run.pc.DecideDeny?
    ensures Advance(run, db, c).pc.Done?
    ensures Emits(run, i, db, c).value.op.decision
         == if run.pc.DecideAllow? then AllowRecord(run, c) else DenyRecord(run, run.pc.code, c)
  {
    hide Store.AppendDecision, DenyRecord, AllowRecord, AttemptRecord, Validation, ApprovalUseOf;
    hide AdvanceOpening, AdvanceActing;
  }

  /** A decision that was delivered and stored is the one the run answers with. */
  lemma ClosingResult(run: Run, i: nat, db: Db, c: Choice)
    requires Closing(run.pc) && !run.pc.Done? && AdvanceClosing(run, db, c).pc.Done?
    requires AdvanceClosing(run, db, c).pc.result != Refused(AuditUnavailable)
    ensures Emits(run, i, db, c).Some? && Decided(Emits(run, i, db, c).value)
    ensures Emits(run, i, db, c).value.op.decision.control == ControlOf(AdvanceClosing(run, db, c).pc.result)
  {
    hide Store.AppendDecision;
  }

  lemma OpeningResult(run: Run, db: Db, c: Choice)
    requires Opening(run.pc)
    ensures AdvanceOpening(run, db, c).pc.Done? ==>
              (run.pc.AskSession? && Early(AdvanceOpening(run, db, c).pc.result))
              || AdvanceOpening(run, db, c).pc.result == Refused(AuditUnavailable)
    ensures !AdvanceOpening(run, db, c).pc.AskSession?
    ensures AdvanceOpening(run, db, c).pc.StoreAttempt? ==> run.pc.AskSession?
    ensures run.pc.AskSession? ==> !Attempting(AdvanceOpening(run, db, c).pc)
  {
    hide AfterSession, AfterAttempt, AfterConnections, AfterInspection, AfterGuardian, AfterApprovalRead;
    hide Refuse;
    SessionResult(run, db, c);
  }

  lemma SessionResult(run: Run, db: Db, c: Choice)
    ensures var pc := AfterSession(run, db, c).pc;
            pc.Done? && pc.result != Refused(AuditUnavailable) ==> Early(pc.result)
  {
  }

  /** Only a committed attempt, delivered, lets a run go on. */
  lemma AttemptOpened(run: Run, i: nat, db: Db, c: Choice)
    requires run.pc.StoreAttempt? && !Advance(run, db, c).pc.Done?
    ensures Emits(run, i, db, c).Some? && OpenedAttempt(Emits(run, i, db, c).value, run.input.attemptId)
  {
    hide Store.AppendAttempt;
  }

  lemma AttemptKept(trace: seq<Event>, event: Option<Event>, attemptId: Id)
    ensures HasAttempt(trace, attemptId) ==> HasAttempt(Extend(trace, event), attemptId)
    ensures event.Some? && OpenedAttempt(event.value, attemptId) ==> HasAttempt(Extend(trace, event), attemptId)
  {
    hide OpenedAttempt;
    var after := Extend(trace, event);
    if HasAttempt(trace, attemptId) {
      var k :| 0 <= k < |trace| && OpenedAttempt(trace[k], attemptId);
      assert OpenedAttempt(after[k], attemptId);
    }
    if event.Some? { assert after[|trace|] == event.value; }
  }

  lemma ActingResult(run: Run, db: Db, c: Choice)
    requires !Opening(run.pc) && !Closing(run.pc)
    ensures var pc := AdvanceActing(run, db, c).pc; !pc.Done? && !pc.AskSession? && !pc.StoreAttempt?
  {
    hide AfterTool, AfterReadCheck, AfterRead, AfterApproval, AfterMergeResolution, AfterRefreshCheck, AfterRefresh;
    hide AfterMergeCheck, Refuse, AdapterDenial;
  }

  /** A run ends without a stored decision only before its attempt or when the audit was unavailable. */
  lemma ResultStep(run: Run, i: nat, db: Db, c: Choice)
    requires !run.pc.Done? && Advance(run, db, c).pc.Done?
    requires Advance(run, db, c).pc.result != Refused(AuditUnavailable)
    ensures (run.pc.AskSession? && Early(Advance(run, db, c).pc.result))
         || (Emits(run, i, db, c).Some? && Decided(Emits(run, i, db, c).value)
             && Emits(run, i, db, c).value.op.decision.control == ControlOf(Advance(run, db, c).pc.result))
  {
    hide Emits, Decided, AdvanceOpening, AdvanceActing, AdvanceClosing, ControlOf, Early;
    if Opening(run.pc) { OpeningResult(run, db, c); }
    else if Closing(run.pc) { ClosingResult(run, i, db, c); }
    else { ActingResult(run, db, c); }
  }

  lemma AttemptEvent(run: Run, i: nat, db: Db, c: Choice)
    ensures var event := Emits(run, i, db, c);
            && (event.Some? && Attempted(event.value) ==> run.pc.StoreAttempt?)
            && (run.pc.AskSession? || run.pc.Done? ==> event.None?)
  {
    hide DenyRecord, AllowRecord, AttemptRecord, Validation, ApprovalUseOf;
  }

  lemma AttemptStep(run: Run, i: nat, db: Db, c: Choice)
    ensures var after, event := Advance(run, db, c), Emits(run, i, db, c);
            && (event.Some? && Attempted(event.value) ==> run.pc.StoreAttempt?)
            && (after.pc.StoreAttempt? ==> run.pc.AskSession?)
            && !after.pc.AskSession?
            && (run.pc.AskSession? ==> !Attempting(after.pc))
            && (run.pc.AskSession? ==> event.None?)
            && (run.pc.Done? ==> event.None? && after == run)
  {
    hide Emits, Attempted, AdvanceOpening, AdvanceActing, DenyRecord, AllowRecord, AfterDecision;
    AttemptEvent(run, i, db, c);
    if Opening(run.pc) { OpeningResult(run, db, c); }
    else if !Closing(run.pc) { ActingResult(run, db, c); }
  }

  /** The record about to be stored says no more than the flags, and the flags are backed. */
  lemma RecordTruthful(run: Run, trace: seq<Event>, event: Event, c: Choice)
    requires Staged(run) && Backed(run, trace) && !SentRequest(event)
    ensures run.pc.DecideAllow? ==> Truthful(AllowRecord(run, c), trace + [event], run.Request())
    ensures run.pc.DecideDeny? ==> Truthful(DenyRecord(run, run.pc.code, c), trace + [event], run.Request())
  {
    hide HasTool, HasAuthority;
    HasKept(trace, Some(event), run.Request());
  }

  /** The attempt stays in the trace, and a decision is recorded for it. */
  lemma RecordsStep(run: Run, trace: seq<Event>, i: nat, db: Db, c: Choice)
    requires Staged(run) && DecisionsSound(run, trace)
    ensures var after, next := Extend(trace, Emits(run, i, db, c)), Advance(run, db, c);
            && (forall k :: 0 <= k < |after| ==> OwnRecord(after, k, next))
            && (Attempting(next.pc) ==> HasAttempt(after, next.input.attemptId))
  {
    hide Advance, Emits, Staged, Truthful, Decided, HasAttempt, Answered;
    AttemptStep(run, i, db, c);
    StagedStep(run, db, c);
    var event, next := Emits(run, i, db, c), Advance(run, db, c);
    var after := Extend(trace, event);
    AttemptKept(trace, event, run.input.attemptId);
    if run.pc.StoreAttempt? && !next.pc.Done? { AttemptOpened(run, i, db, c); }
    forall k | 0 <= k < |after| ensures OwnRecord(after, k, next) {
      if k < |trace| {
        assert OwnRecord(trace, k, run);
        assert after[..k] == trace[..k] && after[k] == trace[k];
      } else {
        assert after[..k] == trace && after[k] == event.value;
        if Decided(event.value) { DecidingStep(run, i, db, c); }
      }
    }
  }

  lemma DecisionsStep(run: Run, trace: seq<Event>, i: nat, db: Db, c: Choice)
    requires Staged(run) && Backed(run, trace) && DecisionsSound(run, trace)
    ensures DecisionsSound(Advance(run, db, c), Extend(trace, Emits(run, i, db, c)))
  {
    hide Advance, Emits, Staged, Backed, Truthful, Decided, OwnRecord, HasAttempt, Early;
    AttemptStep(run, i, db, c);
    StagedStep(run, db, c);
    RecordsStep(run, trace, i, db, c);
    var event, next := Emits(run, i, db, c), Advance(run, db, c);
    var after := Extend(trace, event);
    assert forall k :: 0 <= k < |trace| ==> after[k] == trace[k];
    if !run.pc.Done? {
      if event.Some? && Decided(event.value) {
        DecidingStep(run, i, db, c);
        assert !SentRequest(event.value) by { NoRequestDecides(event.value); }
        RecordTruthful(run, trace, event.value, c);
      }
      if next.pc.Done? && next.pc.result != Refused(AuditUnavailable) {
        ResultStep(run, i, db, c);
        if event.Some? { assert after[|trace|] == event.value; }
      }
    }
  }

  lemma NoRequestDecides(event: Event)
    requires Decided(event)
    ensures !SentRequest(event)
  {
  }

  // ---- all of it

  ghost predicate Kept(run: Run, trace: seq<Event>) {
    Staged(run) && Backed(run, trace) && MergesSound(run, trace) && DecisionsSound(run, trace)
  }

  lemma KeptAtStart(input: Input)
    ensures Kept(Begin(input), [])
  {
  }

  /** One step of a run keeps all of it, whatever is answered. */
  lemma KeptStep(run: Run, trace: seq<Event>, i: nat, db: Db, c: Choice)
    requires Kept(run, trace)
    ensures Kept(Advance(run, db, c), Extend(trace, Emits(run, i, db, c)))
  {
    hide Advance, Emits, Staged, Backed, MergesSound, DecisionsSound, Extend;
    StagedStep(run, db, c);
    BackedStep(run, trace, i, db, c);
    MergesStep(run, trace, i, db, c);
    DecisionsStep(run, trace, i, db, c);
  }

  // ---- progress

  function Distance(pc: Pc): nat {
    match pc
    case AskSession => 20
    case StoreAttempt => 19
    case AskConnections => 18
    case InspectPlan => 17
    case AskGuardian => 16
    case ReadApproval(found, consumed) => 13 + (if found.None? then 1 else 0) + (if consumed.None? then 1 else 0)
    case TakeTool => 12
    case ResolveForRead => 11
    case CheckBeforeRead => 10
    case SendRead => 9
    case TakeApproval(_, _) => 8
    case ResolveForMerge(_) => 7
    case CheckBeforeRefresh(_) => 6
    case SendRefresh(_) => 5
    case CheckBeforeMerge(_) => 4
    case SendMerge => 3
    case Deferring(_) => 2
    case DecideDeny(_) => 1
    case DecideAllow => 1
    case Done(_) => 0
  }

  lemma ApprovalProgress(run: Run, db: Db, c: Choice)
    requires run.pc.ReadApproval?
    ensures Distance(AfterApprovalRead(run, db, c).pc) < Distance(run.pc)
  {
    hide JudgeApproval, Refuse;
  }

  lemma OpeningProgress(run: Run, db: Db, c: Choice)
    requires Opening(run.pc)
    ensures Distance(AdvanceOpening(run, db, c).pc) < Distance(run.pc)
  {
    hide AfterSession, AfterAttempt, AfterConnections, AfterInspection, AfterGuardian, AfterApprovalRead;
    if run.pc.ReadApproval? { ApprovalProgress(run, db, c); }
    else if run.pc.AskGuardian? { GuardianProgress(run, c); }
  }

  lemma GuardianProgress(run: Run, c: Choice)
    ensures Distance(AfterGuardian(run, c).pc) < Distance(AskGuardian)
  {
    hide Refuse, ApplyRecommendation;
  }

  lemma ActingProgress(run: Run, db: Db, c: Choice)
    requires !Opening(run.pc) && !Closing(run.pc)
    ensures Distance(AdvanceActing(run, db, c).pc) < Distance(run.pc)
  {
    hide AfterTool, AfterReadCheck, AfterRead, AfterApproval, AfterMergeResolution, AfterRefreshCheck, AfterRefresh;
    hide AfterMergeCheck, Refuse, AdapterDenial;
  }

  lemma ClosingProgress(run: Run, db: Db, c: Choice)
    requires Closing(run.pc) && !run.pc.Done?
    ensures Distance(AdvanceClosing(run, db, c).pc) < Distance(run.pc)
  {
    hide AfterDecision, DenyRecord, AllowRecord;
  }

  /** Every step that is not the end moves a run closer to it, so no run takes more than twenty. */
  lemma Progress(run: Run, db: Db, c: Choice)
    requires !run.pc.Done?
    ensures Distance(Advance(run, db, c).pc) < Distance(run.pc) <= 20
  {
    hide AdvanceOpening, AdvanceActing, AdvanceClosing;
    if Opening(run.pc) { OpeningProgress(run, db, c); }
    else if Closing(run.pc) { ClosingProgress(run, db, c); }
    else { ActingProgress(run, db, c); }
  }
}
