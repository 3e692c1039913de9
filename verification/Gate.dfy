/** The capability gate in front of the store: who may ask for what, for which session, and when. */
module Gate {
  import opened Records
  import opened Rows
  import opened Views
  import R = Runs
  import Store
  import Plans
  import Budgets
  import Conditions

  datatype Role = Launcher | ResearchService | AuthorizationService | BrokerService | WorkerDispatcher

  datatype Name =
    | ConnectionCreate | SessionCreate | ApprovalStore | PlanStore | PlanGet | PlanRevoke | PlanCheck | PlanPending
    | ResearchReserve | ResearchSettle | ContextExposures | SessionGet | ConnectionList | ApprovalGet | ApprovalState
    | BudgetTool | BudgetWorkerTool | WorkerExternal | WorkerBudget | BudgetLocalCommand | WorkerViolation | WorkerAudit
    | WorkerComplete | WorkerInterrupt | ApprovalConsume | ContextAttempt | ContextDecision

  function RoleOperations(role: Role): set<Name> {
    match role
    case Launcher => {ConnectionCreate, SessionCreate}
    case ResearchService => {ResearchReserve, ResearchSettle, ContextExposures}
    case AuthorizationService => {ApprovalStore, PlanStore, PlanGet, PlanRevoke, PlanPending}
    case BrokerService =>
      {SessionGet, ConnectionList, ApprovalGet, PlanCheck, ApprovalState, BudgetTool, ApprovalConsume,
       ContextAttempt, ContextDecision}
    case WorkerDispatcher =>
      {BudgetWorkerTool, WorkerExternal, WorkerBudget, BudgetLocalCommand, WorkerViolation, WorkerAudit,
       WorkerComplete, WorkerInterrupt}
  }

  datatype Payload =
    | CreateConnection(connectionId: Id, connection: Connection)
    | CreateSession(sid: Id, session: Session, budgetSid: Id, budget: Budget, connectionIds: seq<Id>)
    | StoreApproval(approval: Approval)
    | StorePlan(grant: Grant)
    | GetPlan
    | RevokePlan(grantId: Id)
    | CheckPlan(check: Plans.PlanCheck)
    | GetPending
    | Reserve(requested: int)
    | Settle(reservationId: Id, accepted: int)
    | AppendExposures(batch: seq<Store.NewExposure>)
    | GetSession
    | ListConnections
    | GetApproval(approvalId: Id)
    | GetApprovalState(approvalId: Id)
    | ConsumeTool
    | ConsumeWorkerTool(executionId: Id, digest: Digest)
    | ClaimExternal(executionId: Id, digest: Digest)
    | GetWorkerBudget
    | ConsumeLocalCommand(executionId: Id, digest: Digest)
    | RecordViolation(boundaryId: Id, digest: Digest, code: ViolationCode)
    | RecordAudit(boundaryId: Id, digest: Digest, detail: nat)
    | Complete(boundaryId: Id, digest: Digest, resultDigest: Digest)
    | Interrupt(boundaryId: Id, digest: Digest, failure: FailureCode)
    | ConsumeApproval(consumption: Store.Consumption)
    | AppendAttempt(attempt: Attempt)
    | AppendDecision(decision: Decision)
  {
    function Operation(): Name {
      match this
      case CreateConnection(_, _) => ConnectionCreate
      case CreateSession(_, _, _, _, _) => SessionCreate
      case StoreApproval(_) => ApprovalStore
      case StorePlan(_) => PlanStore
      case GetPlan => PlanGet
      case RevokePlan(_) => PlanRevoke
      case CheckPlan(_) => PlanCheck
      case GetPending => PlanPending
      case Reserve(_) => ResearchReserve
      case Settle(_, _) => ResearchSettle
      case AppendExposures(_) => ContextExposures
      case GetSession => SessionGet
      case ListConnections => ConnectionList
      case GetApproval(_) => ApprovalGet
      case GetApprovalState(_) => ApprovalState
      case ConsumeTool => BudgetTool
      case ConsumeWorkerTool(_, _) => BudgetWorkerTool
      case ClaimExternal(_, _) => WorkerExternal
      case GetWorkerBudget => WorkerBudget
      case ConsumeLocalCommand(_, _) => BudgetLocalCommand
      case RecordViolation(_, _, _) => WorkerViolation
      case RecordAudit(_, _, _) => WorkerAudit
      case Complete(_, _, _) => WorkerComplete
      case Interrupt(_, _, _) => WorkerInterrupt
      case ConsumeApproval(_) => ApprovalConsume
      case AppendAttempt(_) => ContextAttempt
      case AppendDecision(_) => ContextDecision
    }
  }

  datatype Call = Call(capability: Id, role: Role, callerId: Id, sessionId: Id, payload: Payload)

  datatype Binding = Binding(
    capability: Id, role: Role, callerId: Id, sessionId: Id, allowed: set<Name>, issuedAt: Time, expiresAt: Time)

  /** What one call draws from outside: the store's own clock reading and fresh identifiers. */
  datatype Draw = Draw(now: Time, first: Id, second: Id)

  /** The first configured capability that matches. */
  function BindingFor(bindings: seq<Binding>, capability: Id): (found: Option<Binding>)
    ensures found.Some? ==> found.value in bindings && found.value.capability == capability
    ensures found.None? ==> forall b :: b in bindings ==> b.capability != capability
  {
    if |bindings| == 0 then None
    else if bindings[0].capability == capability then Some(bindings[0])
    else BindingFor(bindings[1..], capability)
  }

  /** The checks on the payload that precede the store call of some operations. */
  predicate PayloadBound(call: Call) {
    match call.payload
    case CreateSession(sid, session, budgetSid, _, _) =>
      sid == call.sessionId && session.scope.callerId == call.callerId && budgetSid == call.sessionId
    case StorePlan(grant) => grant.plan.sessionId == call.sessionId && grant.plan.scope.callerId == call.callerId
    case CheckPlan(check) => check.request.sessionId == call.sessionId && check.request.scope.callerId == call.callerId
    case StoreApproval(approval) => approval.sessionId == call.sessionId && approval.scope.callerId == call.callerId
    case AppendExposures(batch) => forall i :: 0 <= i < |batch| ==> batch[i].exposure.sessionId == call.sessionId
    case ConsumeApproval(consumption) =>
      consumption.sessionId == call.sessionId && consumption.callerId == call.callerId
    case AppendAttempt(attempt) => attempt.sessionId == call.sessionId && attempt.callerId == call.callerId
    case AppendDecision(decision) => decision.sessionId == call.sessionId
    case _ => true
  }

  /** The store transaction of a call; a read has none. */
  function Transaction(call: Call, draw: Draw): Option<R.Op> {
    var sid, now := call.sessionId, draw.now;
    match call.payload
    case CreateConnection(id, connection) => Some(R.CreateConnection(id, connection))
    case CreateSession(s, session, _, budget, ids) => Some(R.CreateSession(s, session, budget, ids))
    case StoreApproval(approval) => Some(R.StoreApproval(approval))
    case StorePlan(grant) => Some(R.StorePlan(grant, now))
    case RevokePlan(grantId) => Some(R.RevokePlan(sid, grantId, now))
    case CheckPlan(check) => Some(R.CheckPlan(check, now))
    case Reserve(requested) => Some(R.ReserveResearch(sid, requested, draw.first, now))
    case Settle(id, accepted) => Some(R.SettleResearch(id, sid, accepted, now))
    case AppendExposures(batch) => Some(R.AppendExposures(batch))
    case ConsumeTool => Some(R.ConsumeToolCall(sid, now))
    case ConsumeWorkerTool(id, digest) => Some(R.ConsumeExecution(sid, id, digest, SessionStatusTool, draw.first, now))
    case ClaimExternal(id, digest) => Some(R.ConsumeExecution(sid, id, digest, ExternalTool, draw.first, now))
    case ConsumeLocalCommand(id, digest) => Some(R.ConsumeExecution(sid, id, digest, LocalCommandTool, draw.first, now))
    case RecordViolation(id, digest, code) => Some(R.RecordViolation(sid, id, digest, code, draw.first, now))
    case RecordAudit(id, digest, detail) => Some(R.RecordAudit(sid, id, digest, detail, draw.first, now))
    case Complete(id, digest, result) =>
      Some(R.CompleteWorkerSession(sid, id, digest, result, draw.first, draw.second, now))
    case Interrupt(id, digest, failure) => Some(R.InterruptWorkerSession(sid, id, digest, failure, draw.first, now))
    case ConsumeApproval(consumption) => Some(R.ConsumeApproval(consumption, now))
    case AppendAttempt(attempt) => Some(R.AppendAttempt(attempt))
    case AppendDecision(decision) => Some(R.AppendDecision(decision))
    case _ => None
  }

  datatype Rejection = Unauthorized | BindingMismatch | StaleCapability | OperationNotAllowed

  /** Why a call does not reach the store; None when it does. */
  function Judge(bindings: seq<Binding>, call: Call, at: Time): Option<Rejection> {
    match BindingFor(bindings, call.capability)
    case None => Some(Unauthorized)
    case Some(binding) =>
      if binding.role != call.role || binding.callerId != call.callerId || binding.sessionId != call.sessionId
      then Some(Rejection.BindingMismatch)
      else if at < binding.issuedAt || at >= binding.expiresAt then Some(StaleCapability)
      else if || call.payload.Operation() !in binding.allowed
              || call.payload.Operation() !in RoleOperations(binding.role)
      then Some(OperationNotAllowed)
      else if !PayloadBound(call) then Some(Rejection.BindingMismatch)
      else None
  }

  /** The state after a call: a rejected call, a read and a transaction that throws leave it alone. */
  function Serve(bindings: seq<Binding>, db: Db, call: Call, at: Time, draw: Draw): Db {
    if Judge(bindings, call, at).Some? then db
    else
      match Transaction(call, draw)
      case None => db
      case Some(op) => R.Apply(db, op)
  }

  /** The capability a dispatched call was admitted under. */
  predicate Admitted(binding: Binding, call: Call, at: Time) {
    && binding.capability == call.capability && binding.role == call.role
    && binding.callerId == call.callerId && binding.sessionId == call.sessionId
    && binding.issuedAt <= at < binding.expiresAt
    && call.payload.Operation() in binding.allowed && call.payload.Operation() in RoleOperations(call.role)
    && PayloadBound(call)
  }

  /** A call reaches the store exactly when the capability it presents admits it; otherwise nothing changes. */
  lemma DispatchedIffAdmitted(bindings: seq<Binding>, db: Db, call: Call, at: Time, draw: Draw)
    ensures Judge(bindings, call, at).None? <==>
              var found := BindingFor(bindings, call.capability);
              found.Some? && Admitted(found.value, call, at)
    ensures Judge(bindings, call, at).Some? ==> Serve(bindings, db, call, at, draw) == db
  {
    hide R.Apply;
  }

  /** The one role an operation is open to. */
  function RoleOf(name: Name): Role {
    match name
    case ConnectionCreate => Launcher case SessionCreate => Launcher
    case ResearchReserve => ResearchService case ResearchSettle => ResearchService case ContextExposures => ResearchService
    case ApprovalStore => AuthorizationService case PlanStore => AuthorizationService case PlanGet => AuthorizationService
    case PlanRevoke => AuthorizationService case PlanPending => AuthorizationService
    case BudgetWorkerTool => WorkerDispatcher case WorkerExternal => WorkerDispatcher case WorkerBudget => WorkerDispatcher
    case BudgetLocalCommand => WorkerDispatcher case WorkerViolation => WorkerDispatcher
    case WorkerAudit => WorkerDispatcher case WorkerComplete => WorkerDispatcher case WorkerInterrupt => WorkerDispatcher
    case SessionGet => BrokerService case ConnectionList => BrokerService case ApprovalGet => BrokerService
    case PlanCheck => BrokerService case ApprovalState => BrokerService case BudgetTool => BrokerService
    case ApprovalConsume => BrokerService case ContextAttempt => BrokerService case ContextDecision => BrokerService
  }

  lemma OpenToIts(name: Name)
    ensures name in RoleOperations(RoleOf(name))
  {
  }

  lemma OpenToBroker(name: Name)
    requires name in RoleOperations(BrokerService)
    ensures RoleOf(name) == BrokerService
  {
  }

  lemma OpenToWorker(name: Name)
    requires name in RoleOperations(WorkerDispatcher)
    ensures RoleOf(name) == WorkerDispatcher
  {
  }

  lemma OpenToOther(role: Role, name: Name)
    requires role != BrokerService && role != WorkerDispatcher && name in RoleOperations(role)
    ensures RoleOf(name) == role
  {
  }

  /** No operation is open to two roles, and none to nobody. */
  lemma OneRoleEach(role: Role, name: Name)
    ensures name in RoleOperations(role) <==> RoleOf(name) == role
  {
    hide RoleOperations, RoleOf;
    if RoleOf(name) == role { OpenToIts(name); }
    if name in RoleOperations(role) {
      match role
      case BrokerService => OpenToBroker(name);
      case WorkerDispatcher => OpenToWorker(name);
      case _ => OpenToOther(role, name);
    }
  }

  /** Every session that a payload names for itself. */
  function SessionsNamed(payload: Payload): set<Id> {
    match payload
    case CreateSession(sid, _, budgetSid, _, _) => {sid, budgetSid}
    case StorePlan(grant) => {grant.plan.sessionId}
    case CheckPlan(check) => {check.request.sessionId}
    case StoreApproval(approval) => {approval.sessionId}
    case AppendExposures(batch) => set e | e in batch :: e.exposure.sessionId
    case ConsumeApproval(consumption) => {consumption.sessionId}
    case AppendAttempt(attempt) => {attempt.sessionId}
    case AppendDecision(decision) => {decision.sessionId}
    case _ => {}
  }

  /** Every caller that a payload names for itself. */
  function CallersNamed(payload: Payload): set<Id> {
    match payload
    case CreateSession(_, session, _, _, _) => {session.scope.callerId}
    case StorePlan(grant) => {grant.plan.scope.callerId}
    case CheckPlan(check) => {check.request.scope.callerId}
    case StoreApproval(approval) => {approval.scope.callerId}
    case ConsumeApproval(consumption) => {consumption.callerId}
    case AppendAttempt(attempt) => {attempt.callerId}
    case _ => {}
  }

  /** A payload is bound exactly when it names no session and no caller but those of its call. */
  lemma PayloadNames(call: Call)
    ensures PayloadBound(call)
       <==> SessionsNamed(call.payload) <= {call.sessionId} && CallersNamed(call.payload) <= {call.callerId}
  {
    if call.payload.AppendExposures? {
      var batch := call.payload.batch;
      if PayloadBound(call) {
      } else {
        var i :| 0 <= i < |batch| && batch[i].exposure.sessionId != call.sessionId;
        assert batch[i] in batch && batch[i].exposure.sessionId in SessionsNamed(call.payload);
      }
    }
  }

  /** The payload a transaction came with; a claim of an execution tells by its tool which. */
  function PayloadOf(op: R.Op): Option<Payload> {
    match op
    case CreateConnection(id, connection) => Some(CreateConnection(id, connection))
    case CreateSession(sid, session, budget, ids) => Some(CreateSession(sid, session, sid, budget, ids))
    case StoreApproval(approval) => Some(StoreApproval(approval))
    case StorePlan(grant, _) => Some(StorePlan(grant))
    case RevokePlan(_, grantId, _) => Some(RevokePlan(grantId))
    case CheckPlan(check, _) => Some(CheckPlan(check))
    case ReserveResearch(_, requested, _, _) => Some(Reserve(requested))
    case SettleResearch(id, _, accepted, _) => Some(Settle(id, accepted))
    case AppendExposures(batch) => Some(AppendExposures(batch))
    case ConsumeToolCall(_, _) => Some(ConsumeTool)
    case ConsumeExecution(_, id, digest, tool, _, _) =>
      Some(match tool
           case SessionStatusTool => ConsumeWorkerTool(id, digest)
           case LocalCommandTool => ConsumeLocalCommand(id, digest)
           case ExternalTool => ClaimExternal(id, digest))
    case RecordViolation(_, id, digest, code, _, _) => Some(RecordViolation(id, digest, code))
    case RecordAudit(_, id, digest, detail, _, _) => Some(RecordAudit(id, digest, detail))
    case CompleteWorkerSession(_, id, digest, result, _, _, _) => Some(Complete(id, digest, result))
    case InterruptWorkerSession(_, id, digest, failure, _, _) => Some(Interrupt(id, digest, failure))
    case ConsumeApproval(consumption, _) => Some(ConsumeApproval(consumption))
    case AppendAttempt(attempt) => Some(AppendAttempt(attempt))
    case AppendDecision(decision) => Some(AppendDecision(decision))
    case _ => None
  }

  predicate Reads(payload: Payload) {
    || payload.GetPlan? || payload.GetPending? || payload.GetSession? || payload.ListConnections?
    || payload.GetApproval? || payload.GetApprovalState? || payload.GetWorkerBudget?
  }

  /** The clock and the session a transaction is charged to, where it has them. */
  function Charged(op: R.Op): (Option<Id>, Option<Time>) {
    match op
    case RevokePlan(sid, _, now) => (Some(sid), Some(now))
    case StorePlan(_, now) => (None, Some(now))
    case CheckPlan(_, now) => (None, Some(now))
    case ReserveResearch(sid, _, _, now) => (Some(sid), Some(now))
    case SettleResearch(_, sid, _, now) => (Some(sid), Some(now))
    case ConsumeToolCall(sid, now) => (Some(sid), Some(now))
    case ConsumeExecution(sid, _, _, _, _, now) => (Some(sid), Some(now))
    case RecordViolation(sid, _, _, _, _, now) => (Some(sid), Some(now))
    case RecordAudit(sid, _, _, _, _, now) => (Some(sid), Some(now))
    case CompleteWorkerSession(sid, _, _, _, _, _, now) => (Some(sid), Some(now))
    case InterruptWorkerSession(sid, _, _, _, _, now) => (Some(sid), Some(now))
    case ConsumeApproval(_, now) => (None, Some(now))
    case _ => (None, None)
  }

  /** An admitted call that is no read becomes a transaction that says all its payload said, for its session, now. */
  lemma TransactionFaithful(call: Call, draw: Draw)
    requires PayloadBound(call)
    ensures Transaction(call, draw).None? <==> Reads(call.payload)
    ensures Transaction(call, draw).Some? ==>
              var op := Transaction(call, draw).value;
              && PayloadOf(op) == Some(call.payload)
              && (Charged(op).0.Some? ==> Charged(op).0 == Some(call.sessionId))
              && (Charged(op).1.Some? ==> Charged(op).1 == Some(draw.now))
  {
  }

  /** The transaction of an admitted call names no session but the capability's. */
  lemma NamesItsSession(call: Call, draw: Draw, sid: Id)
    requires PayloadBound(call) && sid != call.sessionId && Transaction(call, draw).Some?
    ensures !Concerns(Transaction(call, draw).value, sid)
    ensures !Transaction(call, draw).value.AppendAuditEvent?
  {
  }

  /** Whatever a capability of one session is used for, the rows of every other session stay as they are. */
  lemma WriteIsolation(bindings: seq<Binding>, db: Db, call: Call, at: Time, draw: Draw, sid: Id)
    requires Budgets.Linked(db) && sid != call.sessionId
    ensures ViewOf(Serve(bindings, db, call, at, draw), sid) == ViewOf(db, sid)
  {
    hide ViewOf, R.Apply, Concerns, Transaction;
    if Judge(bindings, call, at).None? && Transaction(call, draw).Some? {
      NamesItsSession(call, draw, sid);
      StepLocal(db, Transaction(call, draw).value, sid);
    }
  }

  // ---- any number of calls

  datatype Served = Served(call: Call, at: Time, draw: Draw)

  function ServeAll(bindings: seq<Binding>, db: Db, calls: seq<Served>): Db {
    if |calls| == 0 then db
    else
      var last := calls[|calls| - 1];
      Serve(bindings, ServeAll(bindings, db, calls[..|calls| - 1]), last.call, last.at, last.draw)
  }

  lemma LinkedServe(bindings: seq<Binding>, db: Db, call: Call, at: Time, draw: Draw)
    requires Budgets.Linked(db)
    ensures Budgets.Linked(Serve(bindings, db, call, at, draw))
  {
    hide R.Apply, Budgets.Linked, Transaction;
    if Judge(bindings, call, at).None? && Transaction(call, draw).Some? {
      Budgets.LinkedStep(db, Transaction(call, draw).value);
    }
  }

  /** No sequence of calls under capabilities of other sessions, accepted or not, touches a session. */
  lemma {:induction false} IsolatedForever(bindings: seq<Binding>, db: Db, calls: seq<Served>, sid: Id)
    requires Budgets.Linked(db)
    requires forall k :: 0 <= k < |calls| ==> calls[k].call.sessionId != sid
    ensures Budgets.Linked(ServeAll(bindings, db, calls))
    ensures ViewOf(ServeAll(bindings, db, calls), sid) == ViewOf(db, sid)
  {
    hide ViewOf, Serve, Budgets.Linked;
    if |calls| > 0 {
      var last := calls[|calls| - 1];
      var before := ServeAll(bindings, db, calls[..|calls| - 1]);
      IsolatedForever(bindings, db, calls[..|calls| - 1], sid);
      LinkedServe(bindings, before, last.call, last.at, last.draw);
      WriteIsolation(bindings, before, last.call, last.at, last.draw, sid);
    }
  }

  // ---- separation of duties

  /** The rows that grant authority: a stored approval, a plan version, a session, a budget, a binding. */
  predicate GrantsNothing(db: Db, after: Db) {
    && after.approvals.Keys == db.approvals.Keys && |after.plans| == |db.plans|
    && after.sessions.Keys == db.sessions.Keys && after.bindings == db.bindings
  }

  /** The rows that use authority: a consumed approval, a plan execution. */
  predicate UsesNothing(db: Db, after: Db) {
    && after.planExecutions == db.planExecutions
    && (forall id :: id in db.approvals ==> id in after.approvals && after.approvals[id] == db.approvals[id])
  }

  lemma WorkerGrantsNothing(db: Db, op: R.Op)
    requires R.IsWorker(op) && Budgets.Linked(db)
    ensures GrantsNothing(db, R.Worker(db, op)) && UsesNothing(db, R.Worker(db, op))
  {
    hide R.Worker, Budgets.Linked;
    Budgets.LinkedWorker(db, op);
  }

  lemma AuditGrantsNothing(db: Db, op: R.Op)
    requires R.IsAudit(op) && Budgets.Linked(db)
    ensures GrantsNothing(db, R.Audit(db, op)) && UsesNothing(db, R.Audit(db, op))
  {
    hide R.Audit, Budgets.Linked;
    Budgets.LinkedAudit(db, op);
  }

  lemma ApprovingDuty(db: Db, op: R.Op)
    requires R.IsApproval(op)
    ensures op.StoreApproval? ==> UsesNothing(db, R.Approving(db, op))
    ensures op.ConsumeApproval? ==> GrantsNothing(db, R.Approving(db, op))
  {
    hide Store.BoundConnection;
  }

  lemma PlanningDuty(db: Db, op: R.Op)
    requires R.IsPlan(op)
    ensures !op.CheckPlan? ==> UsesNothing(db, R.Planning(db, op))
    ensures !op.StorePlan? ==> GrantsNothing(db, R.Planning(db, op))
  {
    hide Plans.Decide, Plans.Storable, Plans.Enqueue, Plans.Dequeue;
  }

  lemma LifecycleDuty(db: Db, op: R.Op)
    requires R.IsLifecycle(op)
    ensures UsesNothing(db, R.Lifecycle(db, op))
  {
    hide R.Lifecycle;
  }

  predicate GrantingRole(role: Role) { role == Launcher || role == AuthorizationService }

  lemma DutyStep(db: Db, op: R.Op)
    requires Budgets.Linked(db)
    ensures !(op.StoreApproval? || op.StorePlan? || R.IsLifecycle(op)) ==> GrantsNothing(db, R.Apply(db, op))
    ensures !(op.ConsumeApproval? || op.CheckPlan?) ==> UsesNothing(db, R.Apply(db, op))
  {
    hide Budgets.Linked, R.Apply, R.Lifecycle, R.Worker, R.Audit, R.Planning, R.Approving;
    R.Leaves(db, op);
    if R.IsLifecycle(op) { R.InLifecycle(db, op); LifecycleDuty(db, op); }
    else if R.IsWorker(op) { R.InWorker(db, op); WorkerGrantsNothing(db, op); }
    else if R.IsAudit(op) { R.InAudit(db, op); AuditGrantsNothing(db, op); }
    else if R.IsPlan(op) { R.InPlanning(db, op); PlanningDuty(db, op); }
    else if R.IsApproval(op) { R.InApproving(db, op); ApprovingDuty(db, op); }
  }

  lemma DutyOfRole(call: Call, draw: Draw)
    requires call.payload.Operation() in RoleOperations(call.role) && Transaction(call, draw).Some?
    ensures var op := Transaction(call, draw).value;
            && (op.StoreApproval? || op.StorePlan? || R.IsLifecycle(op) ==> GrantingRole(call.role))
            && (op.ConsumeApproval? || op.CheckPlan? ==> call.role == BrokerService)
  {
  }

  /** Only a launcher or the authorization service can grant, only the broker can use what was granted. */
  lemma SeparationOfDuties(bindings: seq<Binding>, db: Db, call: Call, at: Time, draw: Draw)
    requires Budgets.Linked(db)
    ensures var after := Serve(bindings, db, call, at, draw);
            && (!GrantsNothing(db, after) ==> GrantingRole(call.role))
            && (!UsesNothing(db, after) ==> call.role == BrokerService)
  {
    hide GrantsNothing, UsesNothing, R.Apply, Transaction, Budgets.Linked;
    UnchangedGrantsNothing(db);
    if Judge(bindings, call, at).None? && Transaction(call, draw).Some? {
      DutyOfRole(call, draw);
      DutyStep(db, Transaction(call, draw).value);
    }
  }

  lemma UnchangedGrantsNothing(db: Db)
    ensures GrantsNothing(db, db) && UsesNothing(db, db)
  {
  }

  // ---- reads

  datatype Answer =
    | NoAnswer
    | SessionAnswer(session: Option<Session>)
    | ConnectionsAnswer(connections: map<Id, Connection>)
    | PlanAnswer(plan: Option<PlanRow>)
    | PendingAnswer(pending: seq<PendingRow>)
    | ApprovalAnswer(approval: Option<Approval>)
    | StateAnswer(consumed: Option<bool>)
    | BudgetAnswer(budget: Option<Budget>)

  function CurrentRow(plans: seq<PlanRow>, sid: Id): Option<PlanRow> {
    var at := Plans.Current(plans, sid);
    if at < 0 then None else Some(plans[at])
  }

  function ApprovalOf(db: Db, sid: Id, approvalId: Id): Option<ApprovalRow> {
    if approvalId in db.approvals && db.approvals[approvalId].approval.sessionId == sid
    then Some(db.approvals[approvalId]) else None
  }

  /** The answer to an admitted read of a session. */
  function Read(db: Db, sid: Id, payload: Payload, now: Time): Answer {
    match payload
    case GetSession => SessionAnswer(Lookup(db.sessions, sid))
    case ListConnections =>
      ConnectionsAnswer(map id | id in db.connections && (sid, id) in db.bindings :: db.connections[id])
    case GetPlan => PlanAnswer(CurrentRow(db.plans, sid))
    case GetPending => PendingAnswer(Where(db.pending, OfPending(sid)))
    case GetApproval(id) =>
      ApprovalAnswer(match ApprovalOf(db, sid, id) case None => None case Some(row) => Some(row.approval))
    case GetApprovalState(id) =>
      StateAnswer(match ApprovalOf(db, sid, id) case None => None case Some(row) => Some(row.consumedAt.Some?))
    case GetWorkerBudget =>
      var plan := CurrentRow(db.plans, sid);
      BudgetAnswer(
        if Store.Open(db, sid, now) && !(plan.Some? && plan.value.revokedAt.Some?) then Lookup(db.budgets, sid) else None)
    case _ => NoAnswer
  }

  /** What each read tells: a worker sees its budget only while its session is live and its plan is not revoked. */
  lemma ReadTells(db: Db, sid: Id, payload: Payload, now: Time)
    ensures var answer := Read(db, sid, payload, now);
            && (payload.GetWorkerBudget? ==>
                  answer == BudgetAnswer(
                    if && Conditions.Live(db, sid, now) && sid in db.budgets
                       && !(Plans.Current(db.plans, sid) >= 0 && db.plans[Plans.Current(db.plans, sid)].revokedAt.Some?)
                    then Some(db.budgets[sid]) else None))
            && (payload.GetSession? ==> answer == SessionAnswer(if sid in db.sessions then Some(db.sessions[sid]) else None))
            && (payload.ListConnections? ==>
                  && answer.ConnectionsAnswer?
                  && (forall id :: id in answer.connections <==> id in db.connections && (sid, id) in db.bindings)
                  && (forall id :: id in answer.connections ==> answer.connections[id] == db.connections[id]))
            && (payload.GetPlan? ==>
                  var at := Plans.Current(db.plans, sid);
                  answer == PlanAnswer(if at >= 0 then Some(db.plans[at]) else None))
            && (payload.GetPending? ==>
                  answer.PendingAnswer? && forall p :: p in answer.pending <==> p in db.pending && p.sessionId == sid)
  {
    hide Plans.Current, Where;
  }

  /** An approval is told to its own session only, and so is whether it was used. */
  lemma ApprovalTold(db: Db, sid: Id, id: Id, now: Time)
    ensures var told := id in db.approvals && db.approvals[id].approval.sessionId == sid;
            && Read(db, sid, GetApproval(id), now)
               == ApprovalAnswer(if told then Some(db.approvals[id].approval) else None)
            && Read(db, sid, GetApprovalState(id), now)
               == StateAnswer(if told then Some(db.approvals[id].consumedAt != None) else None)
  {
  }

  /** The current plan of a session is found among its own rows. */
  /** Adding a row changes the current one of its own session only. */
  lemma CurrentAppend(plans: seq<PlanRow>, row: PlanRow, sid: Id)
    ensures CurrentRow(plans + [row], sid) ==
              var before := CurrentRow(plans, sid);
              if row.grant.plan.sessionId == sid
                 && (before.None? || before.value.grant.plan.version < row.grant.plan.version)
              then Some(row) else before
  {
    assert (plans + [row])[..|plans|] == plans;
  }

  lemma {:induction false} CurrentIsLocal(plans: seq<PlanRow>, sid: Id)
    ensures CurrentRow(plans, sid) == CurrentRow(Where(plans, OfPlan(sid)), sid)
  {
    hide CurrentRow;
    if |plans| > 0 {
      var before, last := plans[..|plans| - 1], plans[|plans| - 1];
      CurrentIsLocal(before, sid);
      assert plans == before + [last];
      WhereAppend(before, last, OfPlan(sid));
      CurrentAppend(before, last, sid);
      CurrentAppend(Where(before, OfPlan(sid)), last, sid);
    }
  }

  lemma ApprovalIsLocal(one: Db, two: Db, sid: Id, id: Id)
    requires ViewOf(one, sid) == ViewOf(two, sid)
    ensures ApprovalOf(one, sid, id) == ApprovalOf(two, sid, id)
  {
    hide Where;
    assert ApprovalOf(one, sid, id) == Lookup(ViewOf(one, sid).approvals, id);
    assert ApprovalOf(two, sid, id) == Lookup(ViewOf(two, sid).approvals, id);
  }

  lemma ConnectionsAreLocal(one: Db, two: Db, sid: Id, now: Time)
    requires ViewOf(one, sid) == ViewOf(two, sid) && one.connections == two.connections
    ensures Read(one, sid, ListConnections, now) == Read(two, sid, ListConnections, now)
  {
    hide Where;
    forall id ensures (sid, id) in one.bindings <==> (sid, id) in two.bindings {
      assert (sid, id) in one.bindings <==> id in ViewOf(one, sid).connectionIds;
      assert (sid, id) in two.bindings <==> id in ViewOf(two, sid).connectionIds;
    }
  }

  /** What a read can see of a session, besides its approvals and connections. */
  lemma RowsAreLocal(one: Db, two: Db, sid: Id)
    requires ViewOf(one, sid) == ViewOf(two, sid)
    ensures Lookup(one.sessions, sid) == Lookup(two.sessions, sid) && Lookup(one.budgets, sid) == Lookup(two.budgets, sid)
    ensures Where(one.pending, OfPending(sid)) == Where(two.pending, OfPending(sid))
    ensures CurrentRow(one.plans, sid) == CurrentRow(two.plans, sid)
  {
    hide Where, CurrentRow, Lookup;
    assert ViewOf(one, sid).plans == ViewOf(two, sid).plans;
    CurrentIsLocal(one.plans, sid);
    CurrentIsLocal(two.plans, sid);
  }

  lemma BudgetIsLocal(one: Db, two: Db, sid: Id, now: Time)
    requires Lookup(one.sessions, sid) == Lookup(two.sessions, sid) && Lookup(one.budgets, sid) == Lookup(two.budgets, sid)
    requires CurrentRow(one.plans, sid) == CurrentRow(two.plans, sid)
    ensures Read(one, sid, GetWorkerBudget, now) == Read(two, sid, GetWorkerBudget, now)
  {
    hide CurrentRow, Where;
  }

  lemma OtherReadsAreLocal(one: Db, two: Db, sid: Id, payload: Payload, now: Time)
    requires ViewOf(one, sid) == ViewOf(two, sid) && !payload.ListConnections? && !payload.GetWorkerBudget?
    ensures Read(one, sid, payload, now) == Read(two, sid, payload, now)
  {
    hide Where, ViewOf, CurrentRow, ApprovalOf, Lookup, Store.Open;
    match payload
    case GetApproval(id) => ApprovalIsLocal(one, two, sid, id);
    case GetApprovalState(id) => ApprovalIsLocal(one, two, sid, id);
    case _ => RowsAreLocal(one, two, sid);
  }

  /** A read tells a session only about itself: the answer is a function of its own rows and the connections. */
  lemma ReadIsolation(one: Db, two: Db, sid: Id, payload: Payload, now: Time)
    requires ViewOf(one, sid) == ViewOf(two, sid) && one.connections == two.connections
    ensures Read(one, sid, payload, now) == Read(two, sid, payload, now)
  {
    hide Read, ViewOf, CurrentRow, Lookup;
    match payload
    case ListConnections => ConnectionsAreLocal(one, two, sid, now);
    case GetWorkerBudget =>
      RowsAreLocal(one, two, sid);
      BudgetIsLocal(one, two, sid, now);
    case _ => OtherReadsAreLocal(one, two, sid, payload, now);
  }
}
