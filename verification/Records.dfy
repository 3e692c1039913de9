/** The durable records of the authority store and the tables that hold them. */
module Records {

  /** A UUID; the program only ever compares two of them for equality. */
  type Id = nat
  /** A GitHub name, branch or commit; compared for equality only. */
  type Token = nat
  /** Milliseconds since 1970. Module Timestamps shows that the stored text orders the same way. */
  type Time = int

  datatype Option<+T> = None | Some(value: T)

  /** The six fields that bind a session, a request, a plan and an approval to one another. */
  datatype Scope = Scope(
    callerId: Id, missionId: Id, missionVersion: nat,
    profileId: Id, profileVersion: nat, policyVersion: nat)

  datatype Status = Active | Completed | Interrupted | Revoked | Expired

  datatype Session = Session(
    scope: Scope, startsAt: Time, expiresAt: Time, status: Status, createdAt: Time, updatedAt: Time)

  datatype Budget = Budget(toolCalls: int, localCommands: int, researchRequests: int, researchResults: int)

  datatype Permission = ReadPermission | MergePermission

  datatype Connection = Connection(owner: Token, repository: Token, permissions: set<Permission>, active: bool)

  datatype Operation =
    | Read(owner: Token, repository: Token, pullRequest: nat, review: bool)
    | Merge(owner: Token, repository: Token, pullRequest: nat, expectedHead: Token)
    | OtherOperation(tag: nat)
  {
    predicate GitHub() { Read? || Merge? }
  }

  datatype Resource =
    | PullRequest(owner: Token, repository: Token, pullRequest: nat, headCommit: Token)
    | OtherResource(tag: nat)

  /** wireBytes is the length of the request's JSON text, which is not modelled otherwise. */
  datatype Request = Request(
    requestId: Id, sessionId: Id, scope: Scope, connectionId: Option<Id>,
    operation: Operation, resource: Option<Resource>, wireBytes: nat)
  {
    /** The cross-field rules of the request schema. */
    predicate Valid() {
      && (operation.GitHub() <==> connectionId.Some?)
      && (operation.GitHub() ==>
            && resource.Some? && resource.value.PullRequest?
            && resource.value.owner == operation.owner
            && resource.value.repository == operation.repository
            && resource.value.pullRequest == operation.pullRequest)
      && (operation.Merge? ==> resource.value.headCommit == operation.expectedHead)
    }
  }

  /** SHA-256 is taken to be collision free: a digest is known by what was hashed. */
  datatype Digest =
    | RequestDigest(request: Request)
    | ScopeDigest(connectionId: Id, owner: Token, repository: Token, permissions: set<Permission>)
    | OtherDigest(tag: nat)

  datatype Approval = Approval(
    approvalId: Id, requestId: Id, requestDigest: Digest, sessionId: Id, connectionId: Id, scope: Scope,
    resource: Resource, scopeDigest: Digest, nonce: Id, approvedAt: Time, expiresAt: Time)

  datatype ApprovalRow = ApprovalRow(approval: Approval, consumedAt: Option<Time>)

  datatype Reservation = Reservation(
    reservationId: Id, sessionId: Id, reserved: int, accepted: Option<int>, settledAt: Option<Time>)

  datatype Tool = SessionStatusTool | LocalCommandTool | ExternalTool

  datatype Execution = Execution(executionId: Id, sessionId: Id, digest: Digest, tool: Tool, consumedAt: Time)

  datatype ViolationCode =
    | ToolNotAllowed | FilesystemNotAllowed | TimeoutExceedsSession | VolumeExhausted
    | ExecutionReplay | ExecutionBindingMismatch | WorkspaceBindingMismatch | WorkerOutputMalformed

  datatype FailureCode = AuthorityUnavailable | ProviderUnavailable | ToolUnavailable | ResultInvalid

  datatype EventKind = Violation(code: ViolationCode) | Interruption(failure: FailureCode)

  datatype Severity = Ordinary | Critical | FailureSeverity

  datatype Disposition = ContinueSession | RevokeSession | InterruptSession

  datatype BoundaryEvent = BoundaryEvent(
    eventId: Id, sessionId: Id, boundaryId: Id, boundaryDigest: Digest,
    kind: EventKind, severity: Severity, disposition: Disposition, occurredAt: Time)

  datatype AuditBody =
    | WorkerEvent(boundaryId: Id, boundaryDigest: Digest, detail: nat)
    | CompletionReturned(boundaryId: Id, boundaryDigest: Digest, resultDigest: Digest)
    | SessionTerminal(boundaryId: Id, boundaryDigest: Digest)
    | OtherAudit(detail: nat)

  datatype AuditRow = AuditRow(eventId: Id, sessionId: Id, sequence: int, occurredAt: Time, body: AuditBody)

  datatype Target = Target(
    merge: bool, connectionId: Id, owner: Token, repository: Token,
    pullRequest: nat, headCommit: Token, baseBranch: Token)

  datatype Plan = Plan(
    sessionId: Id, scope: Scope, version: int, startsAt: Time, expiresAt: Time,
    maxActions: int, maxMutations: int, targets: seq<Target>)
  {
    /** The rules of the plan schema. */
    predicate Valid() {
      && version >= 1
      && 0 < expiresAt - startsAt <= 86_400_000
      && 1 <= maxActions <= 10_000 && 0 <= maxMutations <= 100 && maxMutations <= maxActions
      && 1 <= |targets| <= 16
      && (forall i, j :: 0 <= i < j < |targets| ==> targets[i] != targets[j])
      && (forall i :: 0 <= i < |targets| && targets[i].merge ==> maxMutations > 0)
    }
  }

  datatype Grant = Grant(grantId: Id, plan: Plan, planDigest: Digest, confirmedAt: Time, development: bool)

  datatype PlanRow = PlanRow(grant: Grant, revokedAt: Option<Time>, usedActions: int, usedMutations: int)

  /** The JSON array a mutation is keyed by: one merge of one head commit. */
  datatype MutationKey = MutationKey(
    connectionId: Id, owner: Token, repository: Token, pullRequest: nat, headCommit: Token)

  datatype PlanExecution = PlanExecution(
    sessionId: Id, requestId: Id, requestDigest: Digest, grantId: Id,
    mutationKey: Option<MutationKey>, consumedAt: Time)

  datatype BlockReason =
    | OutOfPlan | PlanExpired | PlanRevoked | PlanExhausted | PlanReplayed | BindingMismatch | ResourceChanged
    | GuardianStepUp | GuardianDenied | GuardianUnavailable | GuardianConfirmationRequired

  datatype PendingRow = PendingRow(
    sessionId: Id, requestId: Id, request: Request, requestDigest: Digest, reason: BlockReason, firstSeenAt: Time)

  datatype Exposure = Exposure(sessionId: Id, retrievedAt: Time)

  datatype Attempt = Attempt(
    attemptId: Id, sessionId: Id, callerId: Id, connectionId: Option<Id>,
    requestDigest: Digest, exposureIds: seq<Id>, attemptedAt: Time)

  datatype Level = LevelAllow | LevelConfirm | LevelStepUp | LevelDeny

  datatype GuardianOutcome = NotAssessed | Preserved | Escalated | Uncertain | GuardianGone

  datatype ApprovalUse = NotApplicable | NotConsumed | Consumed

  datatype ControlOutcome = ControlAllowed | ControlDenied | ControlStepUp | ControlFailed

  datatype Decision = Decision(
    decisionId: Id, attemptId: Id, sessionId: Id, floor: Level, guardian: GuardianOutcome,
    providerCrossed: bool, adapterCrossed: bool, toolConsumed: bool, approval: ApprovalUse,
    control: ControlOutcome, decidedAt: Time)

  /** Every table of the store. */
  datatype Db = Db(
    sessions: map<Id, Session>,
    budgets: map<Id, Budget>,
    connections: map<Id, Connection>,
    bindings: set<(Id, Id)>,
    approvals: map<Id, ApprovalRow>,
    reservations: seq<Reservation>,
    executions: seq<Execution>,
    events: seq<BoundaryEvent>,
    audit: seq<AuditRow>,
    plans: seq<PlanRow>,
    planExecutions: seq<PlanExecution>,
    pending: seq<PendingRow>,
    exposures: map<Id, Exposure>,
    attempts: map<Id, Attempt>,
    decisions: seq<Decision>)

  const EmptyDb := Db(map[], map[], map[], {}, map[], [], [], [], [], [], [], [], map[], map[], [])

  /** What a transaction leaves: a committed state and a result, or a rollback and an exception. */
  datatype Outcome<+T> = Committed(db: Db, value: T) | Threw
  {
    /** The state after the transaction, given the one before it. */
    function After(before: Db): Db { if Committed? then db else before }
  }
}
