/** The GitHub broker as a state machine: one awaited call a step, any number of runs interleaved over one store. */
module Broker {
  import opened Records
  import R = Runs
  import Store
  import Plans

  // ---- the guardian's recommendation

  function Rank(level: Level): nat {
    match level case LevelAllow => 0 case LevelConfirm => 1 case LevelStepUp => 2 case LevelDeny => 3
  }

  function Stricter(floor: Level, recommended: Level): Level {
    if Rank(recommended) > Rank(floor) then recommended else floor
  }

  datatype GuardianReply = GuardianFails(crossed: bool) | Recommends(level: Level, certain: bool)

  function ApplyRecommendation(floor: Level, reply: GuardianReply): Level
    requires reply.Recommends?
  {
    if reply.certain then Stricter(floor, reply.level) else Stricter(floor, LevelStepUp)
  }

  // ---- requests, replies and results

  datatype Denial =
    | Malformed | NotActive | ConnectionUnavailable | ScopeMismatch | VolumeSpent | HeadChanged
    | ApprovalMismatch | ApprovalExpired | ApprovalReplayed | ConfirmationRequired | StepUpRequired | RiskDenied
    | RiskUnavailable | NotMergeable | AuditUnavailable | ProviderFailed

  datatype Result = Performed | Refused(code: Denial)

  /** The parsed input; exposures is None when the supplied identifiers are not a valid list. */
  datatype Input = Input(
    request: Request, approval: Option<Approval>, exposures: Option<seq<Id>>, attemptId: Id, evaluatedAt: Time)

  datatype Snapshot = Snapshot(headCommit: Token, baseBranch: Token, mergeable: bool)

  datatype AdapterError = ResourceMoved | MergeRefused | NotFound | Forbidden | OtherError

  datatype GitHubReply =
    | Read(snapshot: Snapshot) | Merged | AdapterFailed(error: AdapterError) | OtherwiseFailed

  datatype PlanGrant = PlanGrant(grantId: Id, planDigest: Digest, baseBranch: Token)

  datatype Pc =
    | AskSession | StoreAttempt | AskConnections | InspectPlan | AskGuardian
    | ReadApproval(found: Option<Option<Approval>>, consumed: Option<Option<bool>>)
    | TakeTool | ResolveForRead | CheckBeforeRead | SendRead
    | TakeApproval(snapshot: Snapshot, approval: Approval)
    | ResolveForMerge(snapshot: Snapshot) | CheckBeforeRefresh(snapshot: Snapshot) | SendRefresh(snapshot: Snapshot)
    | CheckBeforeMerge(snapshot: Snapshot) | SendMerge
    | Deferring(code: Denial) | DecideDeny(code: Denial) | DecideAllow
    | Done(result: Result)

  datatype Run = Run(
    input: Input, pc: Pc, scopeDigest: Option<Digest>, plan: Option<PlanGrant>, mergeApproval: Option<Approval>,
    floor: Level, guardian: GuardianOutcome,
    adapterCrossed: bool, toolConsumed: bool, approvalConsumed: bool, providerCrossed: bool)
  {
    function Request(): Request { input.request }
    predicate Merging() { input.request.operation.Merge? }
    function Digest(): Digest { RequestDigest(input.request) }
  }

  /** An authority call arrives and answers, never arrives, or commits and loses its answer. */
  datatype Delivery = Delivered | LostBefore | LostAfter

  /** Everything a step does not decide itself. */
  datatype Choice = Choice(
    delivery: Delivery, storeNow: Time, brokerNow: Time, freshId: Id,
    guardian: GuardianReply, resolved: bool, github: GitHubReply, stateFirst: bool)

  function Begin(input: Input): Run {
    var merging := input.request.operation.Merge?;
    var first :=
      if !input.request.Valid() then Done(Refused(Malformed))
      else if !input.request.operation.GitHub() then Done(Refused(ScopeMismatch))
      else AskSession;
    Run(input, first, None, None, None, if merging then LevelConfirm else LevelAllow, NotAssessed,
        false, false, false, false)
  }

  // ---- denials

  predicate Deferred(code: Denial) {
    code in {StepUpRequired, RiskDenied, RiskUnavailable, ConfirmationRequired, HeadChanged}
  }

  function DeferReason(code: Denial): BlockReason {
    match code
    case StepUpRequired => GuardianStepUp
    case RiskDenied => GuardianDenied
    case RiskUnavailable => GuardianUnavailable
    case ConfirmationRequired => GuardianConfirmationRequired
    case HeadChanged => ResourceChanged
    case _ => BindingMismatch
  }

  predicate Refusing(pc: Pc) { pc.Deferring? || pc.DecideDeny? }

  /** Enter the deny closure. */
  function Refuse(run: Run, code: Denial): (next: Run)
    ensures next == run.(pc := next.pc) && Refusing(next.pc)
  {
    run.(pc := if run.plan.Some? && Deferred(code) then Deferring(code) else DecideDeny(code))
  }

  function PlanDenial(reason: BlockReason): Denial {
    match reason
    case PlanExpired => ApprovalExpired
    case PlanRevoked => NotActive
    case PlanExhausted => VolumeSpent
    case PlanReplayed => ApprovalReplayed
    case ResourceChanged => HeadChanged
    case _ => ScopeMismatch
  }

  function AdapterDenial(reply: GitHubReply): Denial {
    match reply
    case AdapterFailed(ResourceMoved) => HeadChanged
    case AdapterFailed(MergeRefused) => NotMergeable
    case AdapterFailed(NotFound) => ConnectionUnavailable
    case AdapterFailed(Forbidden) => ConnectionUnavailable
    case AdapterFailed(OtherError) => ProviderFailed
    case _ => ConnectionUnavailable
  }

  // ---- what a step asks of the store

  function Validation(run: Run, base: Option<Token>, consume: bool): Plans.PlanCheck {
    Plans.PlanCheck(
      run.Request(), run.Digest(), if run.plan.None? || !consume then Plans.Inspect else Plans.Consume, None,
      if run.plan.None? then None else Some(run.plan.value.grantId), base)
  }

  function Control(code: Denial): ControlOutcome {
    match code
    case ProviderFailed => ControlFailed
    case RiskUnavailable => ControlFailed
    case ConfirmationRequired => ControlStepUp
    case StepUpRequired => ControlStepUp
    case _ => ControlDenied
  }

  function DenyRecord(run: Run, code: Denial, c: Choice): Decision {
    Decision(
      c.freshId, run.input.attemptId, run.Request().sessionId, run.floor, run.guardian,
      run.providerCrossed, run.adapterCrossed, run.toolConsumed,
      if !run.Merging() then NotApplicable else if run.approvalConsumed then Consumed else NotConsumed,
      Control(code), c.brokerNow)
  }

  function AllowRecord(run: Run, c: Choice): Decision {
    Decision(
      c.freshId, run.input.attemptId, run.Request().sessionId, run.floor, run.guardian,
      run.providerCrossed, true, true, if run.Merging() then Consumed else NotApplicable,
      ControlAllowed, c.brokerNow)
  }

  function AttemptRecord(run: Run): Attempt {
    var request := run.Request();
    Attempt(run.input.attemptId, request.sessionId, request.scope.callerId, request.connectionId, run.Digest(),
            if run.input.exposures.Some? then run.input.exposures.value else [], run.input.evaluatedAt)
  }

  function ApprovalUseOf(run: Run, approval: Approval): Store.Consumption {
    var request := run.Request();
    Store.Consumption(
      approval.approvalId, approval.nonce, run.Digest(), request.sessionId, request.scope.callerId,
      if request.connectionId.Some? then request.connectionId.value else 0, request.scope.policyVersion)
  }

  /** The store transaction of a step, when it has one. */
  function Ask(run: Run, c: Choice): Option<R.Op> {
    match run.pc
    case StoreAttempt => Some(R.AppendAttempt(AttemptRecord(run)))
    case InspectPlan =>
      Some(R.CheckPlan(Plans.PlanCheck(run.Request(), run.Digest(), Plans.Inspect, None, None, None), c.storeNow))
    case TakeTool => Some(R.ConsumeToolCall(run.Request().sessionId, c.storeNow))
    case CheckBeforeRead => Some(R.CheckPlan(Validation(run, None, !run.Merging()), c.storeNow))
    case TakeApproval(_, approval) => Some(R.ConsumeApproval(ApprovalUseOf(run, approval), c.storeNow))
    case CheckBeforeRefresh(snapshot) =>
      Some(R.CheckPlan(Validation(run, Some(snapshot.baseBranch), false), c.storeNow))
    case CheckBeforeMerge(snapshot) =>
      Some(R.CheckPlan(Validation(run, Some(snapshot.baseBranch), true), c.storeNow))
    case Deferring(code) =>
      Some(R.CheckPlan(
        Plans.PlanCheck(run.Request(), run.Digest(), Plans.Defer, Some(DeferReason(code)), None, None), c.storeNow))
    case DecideDeny(code) => Some(R.AppendDecision(DenyRecord(run, code, c)))
    case DecideAllow => Some(R.AppendDecision(AllowRecord(run, c)))
    case _ => None
  }

  // ---- what a step does with the answer

  function AfterSession(run: Run, db: Db, c: Choice): (next: Run)
    ensures next == run.(pc := next.pc)
    ensures next.pc.StoreAttempt? || (next.pc.Done? && next.pc.result.Refused?)
  {
    var request, at := run.Request(), run.input.evaluatedAt;
    if c.delivery != Delivered then run.(pc := Done(Refused(AuditUnavailable)))
    else if request.sessionId !in db.sessions then run.(pc := Done(Refused(NotActive)))
    else
      var session := db.sessions[request.sessionId];
      if session.status != Active || session.scope != request.scope || at < session.startsAt || at >= session.expiresAt
      then run.(pc := Done(Refused(NotActive)))
      else if || run.input.exposures.None? || |run.input.exposures.value| > 16
              || !Store.Distinct(run.input.exposures.value)
      then run.(pc := Done(Refused(Malformed)))
      else run.(pc := StoreAttempt)
  }

  function AfterAttempt(run: Run, db: Db, c: Choice): (next: Run)
    ensures next == run.(pc := next.pc)
    ensures next.pc.AskConnections? || next.pc == Done(Refused(AuditUnavailable))
  {
    if c.delivery == Delivered && Store.AppendAttempt(db, AttemptRecord(run)).Committed?
    then run.(pc := AskConnections) else run.(pc := Done(Refused(AuditUnavailable)))
  }

  function AfterConnections(run: Run, db: Db, c: Choice): (next: Run)
    ensures next == run.(pc := next.pc, scopeDigest := next.scopeDigest)
    ensures Refusing(next.pc) || next.pc.InspectPlan?
  {
    var request := run.Request();
    if c.delivery != Delivered then Refuse(run, AuditUnavailable)
    else if || request.connectionId.None? || !request.operation.GitHub()
            || !Store.BoundConnection(db, request.sessionId, request.connectionId.value)
    then Refuse(run, ConnectionUnavailable)
    else
      var id := request.connectionId.value;
      var connection := db.connections[id];
      if || connection.owner != request.operation.owner || connection.repository != request.operation.repository
         || (if run.Merging() then MergePermission else ReadPermission) !in connection.permissions
      then Refuse(run, ScopeMismatch)
      else run.(
        pc := InspectPlan,
        scopeDigest := Some(ScopeDigest(id, connection.owner, connection.repository, connection.permissions)))
  }

  function AfterInspection(run: Run, db: Db, c: Choice): (next: Run)
    ensures next == run.(pc := next.pc, plan := next.plan)
    ensures Refusing(next.pc) || next.pc.AskGuardian?
  {
    if c.delivery != Delivered then Refuse(run, AuditUnavailable)
    else
      var check := Plans.PlanCheck(run.Request(), run.Digest(), Plans.Inspect, None, None, None);
      match Plans.CheckPlan(db, check, c.storeNow).value
      case Blocked(reason) => Refuse(run, PlanDenial(reason))
      case Absent => run.(pc := AskGuardian)
      case Allowed(grantId, digest, base) => run.(pc := AskGuardian, plan := Some(PlanGrant(grantId, digest, base)))
  }

  function AfterGuardian(run: Run, c: Choice): (next: Run)
    ensures next == run.(pc := next.pc, providerCrossed := next.providerCrossed, floor := next.floor, guardian := next.guardian)
    ensures Refusing(next.pc) || next.pc.TakeTool? || next.pc.ReadApproval?
  {
    match c.guardian
    case GuardianFails(crossed) =>
      Refuse(run.(providerCrossed := crossed, guardian := GuardianGone, floor := LevelDeny), RiskUnavailable)
    case Recommends(_, certain) =>
      var level := ApplyRecommendation(run.floor, c.guardian);
      var next := run.(
        providerCrossed := true, floor := level,
        guardian := if !certain then Uncertain else if level == run.floor then Preserved else Escalated);
      if level == LevelDeny then Refuse(next, RiskDenied)
      else if level == LevelStepUp then Refuse(next, StepUpRequired)
      else if level == LevelConfirm && !run.Merging() then Refuse(next, ConfirmationRequired)
      else if !run.Merging() || run.plan.Some? then next.(pc := TakeTool)
      else if run.input.approval.None? then Refuse(next, ApprovalMismatch)
      else next.(pc := ReadApproval(None, None))
  }

  /** The checks on an approval that has been read back from the store. */
  function ValidateApproval(run: Run, approval: Approval): Option<Denial> {
    var request, at := run.Request(), run.input.evaluatedAt;
    if || approval.requestId != request.requestId || approval.requestDigest != run.Digest()
       || approval.sessionId != request.sessionId || Some(approval.connectionId) != request.connectionId
       || approval.scope != request.scope || Some(approval.scopeDigest) != run.scopeDigest
       || Some(approval.resource) != request.resource
    then Some(ApprovalMismatch)
    else if at >= approval.expiresAt then Some(ApprovalExpired)
    else if at < approval.approvedAt then Some(NotActive)
    else None
  }

  function JudgeApproval(run: Run, found: Option<Approval>, consumed: Option<bool>): (next: Run)
    ensures next == run.(pc := next.pc, mergeApproval := next.mergeApproval)
    ensures Refusing(next.pc) || next.pc.TakeTool?
  {
    if consumed == Some(true) then Refuse(run, ApprovalReplayed)
    else if consumed.None? || found.None? || found != run.input.approval then Refuse(run, ApprovalMismatch)
    else
      match ValidateApproval(run, found.value)
      case Some(code) => Refuse(run, code)
      case None => run.(pc := TakeTool, mergeApproval := found)
  }

  /** The two reads of an approval run side by side; either may reach the store first. */
  function AfterApprovalRead(run: Run, db: Db, c: Choice): (next: Run)
    requires run.pc.ReadApproval?
    ensures next == run.(pc := next.pc, mergeApproval := next.mergeApproval)
    ensures Refusing(next.pc) || next.pc.TakeTool? || next.pc.ReadApproval?
  {
    if c.delivery != Delivered || run.input.approval.None? then Refuse(run, AuditUnavailable)
    else
      var id := run.input.approval.value.approvalId;
      var mine := id in db.approvals && db.approvals[id].approval.sessionId == run.Request().sessionId;
      var found, consumed := run.pc.found, run.pc.consumed;
      if found.None? && (consumed.Some? || !c.stateFirst) then
        var found := if mine then Some(db.approvals[id].approval) else None;
        if consumed.Some? then JudgeApproval(run, found, consumed.value) else run.(pc := ReadApproval(Some(found), consumed))
      else
        var consumed := if mine then Some(db.approvals[id].consumedAt.Some?) else None;
        if found.Some? then JudgeApproval(run, found.value, consumed) else run.(pc := ReadApproval(found, Some(consumed)))
  }

  function AfterTool(run: Run, db: Db, c: Choice): (next: Run)
    ensures next == run.(pc := next.pc, toolConsumed := next.toolConsumed)
    ensures if next.pc.ResolveForRead? then next.toolConsumed else Refusing(next.pc) && next.toolConsumed == run.toolConsumed
  {
    if c.delivery != Delivered then Refuse(run, AuditUnavailable)
    else if Store.ConsumeToolCall(db, run.Request().sessionId, c.storeNow).value.None? then Refuse(run, VolumeSpent)
    else run.(pc := ResolveForRead, toolConsumed := true)
  }

  /** What a validation that did not pass throws; None when it passes. */
  function ValidationFailure(run: Run, db: Db, check: Plans.PlanCheck, c: Choice): Option<Denial> {
    if c.delivery != Delivered then Some(AuditUnavailable)
    else
      match Plans.CheckPlan(db, check, c.storeNow).value
      case Blocked(reason) => Some(PlanDenial(reason))
      case Absent => if run.plan.None? then None else Some(ApprovalMismatch)
      case Allowed(grantId, digest, _) =>
        if run.plan.Some? && grantId == run.plan.value.grantId && digest == run.plan.value.planDigest
        then None else Some(ApprovalMismatch)
  }

  function AfterReadCheck(run: Run, db: Db, c: Choice): (next: Run)
    ensures next == run.(pc := next.pc)
    ensures Refusing(next.pc) || next.pc.SendRead?
  {
    match ValidationFailure(run, db, Validation(run, None, !run.Merging()), c)
    case Some(code) => Refuse(run, code)
    case None => run.(pc := SendRead)
  }

  function AfterRead(run: Run, c: Choice): (next: Run)
    ensures next == run.(pc := next.pc)
    ensures || Refusing(next.pc) || (next.pc.DecideAllow? && !run.Merging())
         || (run.Merging() && if run.plan.Some? then next.pc.ResolveForMerge? else next.pc.TakeApproval?)
  {
    if !c.github.Read? then Refuse(run, AdapterDenial(c.github))
    else
      var snapshot := c.github.snapshot;
      var resource := run.Request().resource;
      if resource.None? || !resource.value.PullRequest? || snapshot.headCommit != resource.value.headCommit
      then Refuse(run, HeadChanged)
      else if run.plan.Some? && snapshot.baseBranch != run.plan.value.baseBranch then Refuse(run, HeadChanged)
      else if !run.Merging() then run.(pc := DecideAllow)
      else if !snapshot.mergeable then Refuse(run, NotMergeable)
      else if run.plan.Some? then run.(pc := ResolveForMerge(snapshot))
      else if run.mergeApproval.None? || run.mergeApproval.value.requestDigest != run.Digest()
      then Refuse(run, ApprovalMismatch)
      else run.(pc := TakeApproval(snapshot, run.mergeApproval.value))
  }

  function AfterApproval(run: Run, db: Db, c: Choice): (next: Run)
    requires run.pc.TakeApproval?
    ensures next == run.(pc := next.pc, approvalConsumed := next.approvalConsumed)
    ensures if next.pc.ResolveForMerge? then next.approvalConsumed
            else Refusing(next.pc) && next.approvalConsumed == run.approvalConsumed
  {
    if c.delivery != Delivered then Refuse(run, AuditUnavailable)
    else
      match Store.JudgeConsumption(db, ApprovalUseOf(run, run.pc.approval), c.storeNow)
      case ApprovalConsumed => run.(pc := ResolveForMerge(run.pc.snapshot), approvalConsumed := true)
      case ApprovalReplayed => Refuse(run, ApprovalReplayed)
      case ApprovalExpired => Refuse(run, ApprovalExpired)
      case ApprovalNotActive => Refuse(run, NotActive)
      case _ => Refuse(run, ApprovalMismatch)
  }

  function AfterMergeResolution(run: Run, c: Choice): (next: Run)
    requires run.pc.ResolveForMerge?
    ensures next == run.(pc := next.pc)
    ensures || Refusing(next.pc)
         || if run.plan.Some? then next.pc.CheckBeforeRefresh? else next.pc.CheckBeforeMerge?
  {
    if !c.resolved then Refuse(run, ConnectionUnavailable)
    else if run.plan.Some? then run.(pc := CheckBeforeRefresh(run.pc.snapshot))
    else run.(pc := CheckBeforeMerge(run.pc.snapshot))
  }

  function AfterRefreshCheck(run: Run, db: Db, c: Choice): (next: Run)
    requires run.pc.CheckBeforeRefresh?
    ensures next == run.(pc := next.pc)
    ensures Refusing(next.pc) || next.pc.SendRefresh?
  {
    match ValidationFailure(run, db, Validation(run, Some(run.pc.snapshot.baseBranch), false), c)
    case Some(code) => Refuse(run, code)
    case None => run.(pc := SendRefresh(run.pc.snapshot))
  }

  function AfterRefresh(run: Run, c: Choice): (next: Run)
    requires run.pc.SendRefresh?
    ensures next == run.(pc := next.pc)
    ensures Refusing(next.pc) || next.pc.CheckBeforeMerge?
  {
    var snapshot := run.pc.snapshot;
    if !c.github.Read? then Refuse(run, AdapterDenial(c.github))
    else if c.github.snapshot.headCommit != snapshot.headCommit || c.github.snapshot.baseBranch != snapshot.baseBranch
    then Refuse(run, HeadChanged)
    else if !c.github.snapshot.mergeable then Refuse(run, NotMergeable)
    else run.(pc := CheckBeforeMerge(snapshot))
  }

  function AfterMergeCheck(run: Run, db: Db, c: Choice): (next: Run)
    requires run.pc.CheckBeforeMerge?
    ensures next == run.(pc := next.pc, approvalConsumed := next.approvalConsumed)
    ensures if next.pc.SendMerge? then next.approvalConsumed == (run.approvalConsumed || run.plan.Some?)
            else Refusing(next.pc) && next.approvalConsumed == run.approvalConsumed
  {
    match ValidationFailure(run, db, Validation(run, Some(run.pc.snapshot.baseBranch), true), c)
    case Some(code) => Refuse(run, code)
    case None => run.(pc := SendMerge, approvalConsumed := run.approvalConsumed || run.plan.Some?)
  }

  function AfterDecision(run: Run, db: Db, decision: Decision, result: Result, c: Choice): (next: Run)
    ensures next == run.(pc := next.pc)
    ensures next.pc == Done(result) || next.pc == Done(Refused(AuditUnavailable))
  {
    if c.delivery == Delivered && Store.AppendDecision(db, decision).Committed?
    then run.(pc := Done(result)) else run.(pc := Done(Refused(AuditUnavailable)))
  }

  /** The steps before the tool call is taken. */
  predicate Opening(pc: Pc) {
    pc.AskSession? || pc.StoreAttempt? || pc.AskConnections? || pc.InspectPlan? || pc.AskGuardian? || pc.ReadApproval?
  }

  predicate Closing(pc: Pc) { pc.Deferring? || pc.DecideDeny? || pc.DecideAllow? || pc.Done? }

  function AdvanceOpening(run: Run, db: Db, c: Choice): Run
    requires Opening(run.pc)
  {
    match run.pc
    case AskSession => AfterSession(run, db, c)
    case StoreAttempt => AfterAttempt(run, db, c)
    case AskConnections => AfterConnections(run, db, c)
    case InspectPlan => AfterInspection(run, db, c)
    case AskGuardian => AfterGuardian(run, c)
    case ReadApproval(_, _) => AfterApprovalRead(run, db, c)
  }

  function AdvanceActing(run: Run, db: Db, c: Choice): Run
    requires !Opening(run.pc) && !Closing(run.pc)
  {
    match run.pc
    case TakeTool => AfterTool(run, db, c)
    case ResolveForRead =>
      if c.resolved then run.(pc := CheckBeforeRead, adapterCrossed := true)
      else Refuse(run.(adapterCrossed := true), ConnectionUnavailable)
    case CheckBeforeRead => AfterReadCheck(run, db, c)
    case SendRead => AfterRead(run, c)
    case TakeApproval(_, _) => AfterApproval(run, db, c)
    case ResolveForMerge(_) => AfterMergeResolution(run, c)
    case CheckBeforeRefresh(_) => AfterRefreshCheck(run, db, c)
    case SendRefresh(_) => AfterRefresh(run, c)
    case CheckBeforeMerge(_) => AfterMergeCheck(run, db, c)
    case SendMerge => if c.github.Merged? then run.(pc := DecideAllow) else Refuse(run, AdapterDenial(c.github))
  }

  function AdvanceClosing(run: Run, db: Db, c: Choice): Run
    requires Closing(run.pc)
  {
    match run.pc
    case Deferring(code) =>
      if c.delivery == Delivered then run.(pc := DecideDeny(code)) else run.(pc := Done(Refused(AuditUnavailable)))
    case DecideDeny(code) => AfterDecision(run, db, DenyRecord(run, code, c), Refused(code), c)
    case DecideAllow => AfterDecision(run, db, AllowRecord(run, c), Performed, c)
    case Done(_) => run
  }

  function Advance(run: Run, db: Db, c: Choice): Run {
    if Opening(run.pc) then AdvanceOpening(run, db, c)
    else if Closing(run.pc) then AdvanceClosing(run, db, c)
    else AdvanceActing(run, db, c)
  }

  // ---- interleavings

  /** What the outside world saw of a run: a transaction on the state it met, or a request to GitHub. */
  datatype Event =
    | Stored(run: nat, op: R.Op, before: Db)
    | ReadSent(run: nat)
    | MergeSent(run: nat, operation: Operation)

  function Emits(run: Run, i: nat, db: Db, c: Choice): Option<Event> {
    if run.pc.SendRead? || run.pc.SendRefresh? then Some(ReadSent(i))
    else if run.pc.SendMerge? then Some(MergeSent(i, run.Request().operation))
    else if Ask(run, c).Some? && c.delivery != LostBefore then Some(Stored(i, Ask(run, c).value, db))
    else None
  }

  datatype World = World(db: Db, runs: seq<Run>, log: seq<Event>)

  /** Any other client's transaction, a new run, or the next step of a run. */
  datatype Move = Elsewhere(op: R.Op) | Start(input: Input) | Proceed(i: nat, choice: Choice)

  function Act(w: World, move: Move): World {
    match move
    case Elsewhere(op) => w.(db := R.Apply(w.db, op))
    case Start(input) => w.(runs := w.runs + [Begin(input)])
    case Proceed(i, c) =>
      if i >= |w.runs| then w
      else
        var run := w.runs[i];
        var event := Emits(run, i, w.db, c);
        World(
          if event.Some? && event.value.Stored? then R.Apply(w.db, event.value.op) else w.db,
          w.runs[i := Advance(run, w.db, c)],
          if event.Some? then w.log + [event.value] else w.log)
  }

  function Play(moves: seq<Move>): World {
    if |moves| == 0 then World(EmptyDb, [], []) else Act(Play(moves[..|moves| - 1]), moves[|moves| - 1])
  }
}
