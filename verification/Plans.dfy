/** Session plans: the current grant, the coverage decision and the pending queue. */
module Plans {
  import opened Records
  import opened Rows

  datatype Phase = Inspect | Consume | Defer

  datatype PlanCheck = PlanCheck(
    request: Request, requestDigest: Digest, phase: Phase, blockReason: Option<BlockReason>,
    expectedGrantId: Option<Id>, observedBaseBranch: Option<Token>)

  datatype CheckResult =
    | Absent
    | Allowed(grantId: Id, planDigest: Digest, baseBranch: Token)
    | Blocked(reason: BlockReason)

  /** The row with the highest version of a session, -1 when it has no plan. */
  function Current(plans: seq<PlanRow>, sid: Id): (index: int)
    ensures -1 <= index < |plans|
    ensures index == -1 <==> forall i :: 0 <= i < |plans| ==> plans[i].grant.plan.sessionId != sid
    ensures index >= 0 ==> plans[index].grant.plan.sessionId == sid
    ensures index >= 0 ==> forall i :: 0 <= i < |plans| && plans[i].grant.plan.sessionId == sid
                             ==> plans[i].grant.plan.version <= plans[index].grant.plan.version
  {
    if plans == [] then -1
    else
      var last := |plans| - 1;
      var best := Current(plans[..last], sid);
      if plans[last].grant.plan.sessionId == sid
         && (best < 0 || plans[best].grant.plan.version < plans[last].grant.plan.version)
      then last else best
  }

  predicate CurrentRevoked(db: Db, sid: Id) {
    var at := Current(db.plans, sid);
    at >= 0 && db.plans[at].revokedAt.Some?
  }

  /** A connection of the session that is active, matches the target and permits its operation. */
  predicate Covers(db: Db, sid: Id, target: Target) {
    && (sid, target.connectionId) in db.bindings
    && target.connectionId in db.connections
    && var c := db.connections[target.connectionId];
       c.active && c.owner == target.owner && c.repository == target.repository
       && (if target.merge then MergePermission else ReadPermission) in c.permissions
  }

  function NextVersion(plans: seq<PlanRow>, sid: Id): int {
    var at := Current(plans, sid);
    (if at < 0 then 0 else plans[at].grant.plan.version) + 1
  }

  const CONFIRMATION_LIFETIME: int := 30_000

  predicate Storable(db: Db, grant: Grant, now: Time) {
    var plan := grant.plan;
    && plan.Valid()
    && plan.sessionId in db.sessions
    && var session := db.sessions[plan.sessionId];
       && session.status == Active
       && session.scope == plan.scope
       && session.startsAt <= plan.startsAt <= now < plan.expiresAt <= session.expiresAt
       && grant.confirmedAt <= now
       && (grant.development ==> now - grant.confirmedAt <= CONFIRMATION_LIFETIME)
       && plan.version == NextVersion(db.plans, plan.sessionId)
       && (forall i :: 0 <= i < |plan.targets| ==> Covers(db, plan.sessionId, plan.targets[i]))
       && (forall i :: 0 <= i < |db.plans| ==> db.plans[i].grant.grantId != grant.grantId)
  }

  function StorePlan(db: Db, grant: Grant, now: Time): (o: Outcome<()>)
    ensures o.After(db) == db.(plans := o.After(db).plans)
  {
    if Storable(db, grant, now)
    then Committed(db.(plans := db.plans + [PlanRow(grant, None, 0, 0)]), ())
    else Threw
  }

  predicate Revocable(row: PlanRow, sid: Id, grantId: Id) {
    row.grant.plan.sessionId == sid && row.grant.grantId == grantId && row.revokedAt.None?
  }

  /** The plan table after the conditional UPDATE of revoked_at. */
  function RevokeRows(plans: seq<PlanRow>, sid: Id, grantId: Id, now: Time): (after: seq<PlanRow>)
    ensures |after| == |plans|
    ensures forall i :: 0 <= i < |plans| ==>
                          after[i] == if Revocable(plans[i], sid, grantId)
                                      then plans[i].(revokedAt := Some(now)) else plans[i]
  {
    if |plans| == 0 then []
    else
      var last := |plans| - 1;
      RevokeRows(plans[..last], sid, grantId, now)
      + [if Revocable(plans[last], sid, grantId) then plans[last].(revokedAt := Some(now)) else plans[last]]
  }

  /** Grant ids are unique, so "one row changed" is "some row was revocable". */
  function RevokePlan(db: Db, sid: Id, grantId: Id, now: Time): (o: Outcome<bool>)
    ensures o.After(db) == db.(plans := o.After(db).plans)
  {
    Committed(
      db.(plans := RevokeRows(db.plans, sid, grantId, now)),
      exists i :: 0 <= i < |db.plans| && Revocable(db.plans[i], sid, grantId))
  }

  // ---- the pending queue

  const MAX_PENDING: nat := 32
  const MAX_PENDING_BYTES: nat := 48 * 1024

  function ReasonBytes(reason: BlockReason): nat {
    match reason
    case OutOfPlan => 11
    case PlanExpired => 7
    case PlanRevoked => 7
    case PlanExhausted => 9
    case PlanReplayed => 8
    case BindingMismatch => 16
    case ResourceChanged => 16
    case GuardianStepUp => 16
    case GuardianDenied => 15
    case GuardianUnavailable => 20
    case GuardianConfirmationRequired => 30
  }

  /** Punctuation, field names, the 64-digit digest and the 24-character timestamp of one entry. */
  const ENTRY_OVERHEAD: nat := 148

  function EntryBytes(request: Request, reason: BlockReason): nat {
    ENTRY_OVERHEAD + request.wireBytes + ReasonBytes(reason)
  }

  function RowBytes(row: PendingRow): int { EntryBytes(row.request, row.reason) }

  predicate InSession(row: PendingRow, sid: Id) { row.sessionId == sid }

  function Queue(pending: seq<PendingRow>, sid: Id): seq<PendingRow> {
    Where(pending, (row: PendingRow) => InSession(row, sid))
  }

  /** Length of the JSON array of the entries: brackets, entries, and a comma between neighbours. */
  function ArrayBytes(rows: seq<PendingRow>): int {
    2 + Sum(rows, RowBytes) + (if |rows| == 0 then 0 else |rows| - 1)
  }

  predicate Queued(pending: seq<PendingRow>, sid: Id, requestId: Id) {
    exists i :: 0 <= i < |pending| && pending[i].sessionId == sid && pending[i].requestId == requestId
  }

  /** INSERT OR IGNORE behind the two capacity guards. */
  function Enqueue(pending: seq<PendingRow>, input: PlanCheck, reason: BlockReason, now: Time): seq<PendingRow> {
    var request := input.request;
    var existing := Queue(pending, request.sessionId);
    if |existing| < MAX_PENDING
       && ArrayBytes(existing) + EntryBytes(request, reason) < MAX_PENDING_BYTES
       && !Queued(pending, request.sessionId, request.requestId)
    then pending + [PendingRow(request.sessionId, request.requestId, request, input.requestDigest, reason, now)]
    else pending
  }

  predicate Kept(row: PendingRow, sid: Id, requestId: Id) { row.sessionId != sid || row.requestId != requestId }

  function Dequeue(pending: seq<PendingRow>, sid: Id, requestId: Id): seq<PendingRow> {
    Where(pending, (row: PendingRow) => Kept(row, sid, requestId))
  }

  // ---- the coverage decision

  predicate Matches(target: Target, request: Request) {
    && request.resource.Some? && request.resource.value.PullRequest?
    && request.operation.GitHub() && target.merge == request.operation.Merge?
    && request.connectionId == Some(target.connectionId)
    && request.resource.value.owner == target.owner
    && request.resource.value.repository == target.repository
    && request.resource.value.pullRequest == target.pullRequest
    && request.resource.value.headCommit == target.headCommit
  }

  /** The first matching target. */
  function FindTarget(targets: seq<Target>, request: Request): (found: Option<Target>)
    ensures found.Some? ==> found.value in targets && Matches(found.value, request)
    ensures found.None? ==> forall t :: t in targets ==> !Matches(t, request)
  {
    if |targets| == 0 then None
    else if Matches(targets[0], request) then Some(targets[0])
    else FindTarget(targets[1..], request)
  }

  function KeyOf(target: Target): Option<MutationKey> {
    if target.merge
    then Some(MutationKey(target.connectionId, target.owner, target.repository, target.pullRequest, target.headCommit))
    else None
  }

  predicate Replays(row: PlanExecution, sid: Id, requestId: Id, key: Option<MutationKey>) {
    row.sessionId == sid && (row.requestId == requestId || (key.Some? && row.mutationKey == key))
  }

  datatype Verdict = NoPlan | Deny(reason: BlockReason) | Cover(index: nat, target: Target)

  /** What a covered request is known to satisfy. */
  predicate Coverage(db: Db, input: PlanCheck, index: int, target: Target, now: Time) {
    var request := input.request;
    && 0 <= index < |db.plans|
    && request.sessionId in db.sessions
    && var session := db.sessions[request.sessionId];
       var row := db.plans[index];
       var plan := row.grant.plan;
       && session.status == Active && session.scope == request.scope == plan.scope
       && row.revokedAt.None? && plan.startsAt <= now < plan.expiresAt && now < session.expiresAt
       && target in plan.targets && Matches(target, request) && Covers(db, request.sessionId, target)
       && row.usedActions < plan.maxActions && (target.merge ==> row.usedMutations < plan.maxMutations)
       && (forall i :: 0 <= i < |db.planExecutions| ==>
             !Replays(db.planExecutions[i], request.sessionId, request.requestId, KeyOf(target)))
  }

  /** What a check decides about a request that matches a covered target of a live plan. */
  function DecideTarget(db: Db, input: PlanCheck, at: nat, target: Target): (verdict: Verdict)
    requires at < |db.plans|
    ensures !verdict.NoPlan?
    ensures verdict.Cover? ==>
              && verdict.index == at && verdict.target == target
              && db.plans[at].usedActions < db.plans[at].grant.plan.maxActions
              && (target.merge ==> db.plans[at].usedMutations < db.plans[at].grant.plan.maxMutations)
              && (forall i :: 0 <= i < |db.planExecutions| ==>
                    !Replays(db.planExecutions[i], input.request.sessionId, input.request.requestId, KeyOf(target)))
  {
    var request, state := input.request, db.plans[at];
    var plan := state.grant.plan;
    if input.observedBaseBranch.Some? && input.observedBaseBranch.value != target.baseBranch then Deny(ResourceChanged)
    else if && input.phase == Consume
            && (input.expectedGrantId.None? || (target.merge && input.observedBaseBranch.None?))
    then Deny(BindingMismatch)
    else if exists i :: 0 <= i < |db.planExecutions|
                        && Replays(db.planExecutions[i], request.sessionId, request.requestId, KeyOf(target))
    then Deny(PlanReplayed)
    else if state.usedActions >= plan.maxActions || (target.merge && state.usedMutations >= plan.maxMutations)
    then Deny(PlanExhausted)
    else Cover(at, target)
  }

  /** What a check decides, before it writes anything. */
  function Decide(db: Db, input: PlanCheck, now: Time): (verdict: Verdict)
    ensures verdict.NoPlan? <==> Current(db.plans, input.request.sessionId) < 0
    ensures verdict.Cover? ==> verdict.index == Current(db.plans, input.request.sessionId)
    ensures verdict.Cover? ==> Coverage(db, input, verdict.index, verdict.target, now)
  {
    var request := input.request;
    var at := Current(db.plans, request.sessionId);
    if at < 0 then NoPlan
    else if input.phase == Defer then
      Deny(if input.blockReason.Some? then input.blockReason.value else BindingMismatch)
    else if input.blockReason.Some? then Deny(BindingMismatch)
    else
      var state := db.plans[at];
      var plan := state.grant.plan;
      if || request.sessionId !in db.sessions
         || db.sessions[request.sessionId].status != Active
         || request.scope != plan.scope
         || db.sessions[request.sessionId].scope != plan.scope
         || (input.expectedGrantId.Some? && input.expectedGrantId.value != state.grant.grantId)
      then Deny(BindingMismatch)
      else if state.revokedAt.Some? then Deny(PlanRevoked)
      else if now < plan.startsAt || now >= plan.expiresAt || now >= db.sessions[request.sessionId].expiresAt
      then Deny(PlanExpired)
      else
        var found := FindTarget(plan.targets, request);
        if found.None? then Deny(OutOfPlan)
        else
          if !Covers(db, request.sessionId, found.value) then Deny(BindingMismatch)
          else DecideTarget(db, input, at, found.value)
  }

  function Charge(row: PlanRow, mutation: bool): PlanRow {
    row.(usedActions := row.usedActions + 1, usedMutations := row.usedMutations + if mutation then 1 else 0)
  }

  /** The tables after a covered request is consumed. */
  function ConsumePlan(db: Db, input: PlanCheck, index: nat, target: Target, now: Time): Db
    requires index < |db.plans|
  {
    var request := input.request;
    db.(planExecutions := db.planExecutions
          + [PlanExecution(request.sessionId, request.requestId, input.requestDigest,
                           db.plans[index].grant.grantId, KeyOf(target), now)],
        plans := db.plans[index := Charge(db.plans[index], target.merge)],
        pending := Dequeue(db.pending, request.sessionId, request.requestId))
  }

  function CheckPlan(db: Db, input: PlanCheck, now: Time): (o: Outcome<CheckResult>)
    ensures o.After(db) == db.(plans := o.After(db).plans, planExecutions := o.After(db).planExecutions,
                               pending := o.After(db).pending)
  {
    match Decide(db, input, now)
    case NoPlan => Committed(db, Absent)
    case Deny(reason) => Committed(db.(pending := Enqueue(db.pending, input, reason, now)), Blocked(reason))
    case Cover(index, target) =>
      var grant := db.plans[index].grant;
      Committed(
        if input.phase == Consume then ConsumePlan(db, input, index, target, now) else db,
        Allowed(grant.grantId, grant.planDigest, target.baseBranch))
  }

  /** What a check amounts to, once the decision about its target is known. */
  lemma TargetDecides(db: Db, input: PlanCheck, at: nat, target: Target, now: Time)
    requires at < |db.plans| && Decide(db, input, now) == DecideTarget(db, input, at, target)
    ensures var grant := db.plans[at].grant;
            CheckPlan(db, input, now) ==
              match DecideTarget(db, input, at, target)
              case Deny(reason) => Committed(db.(pending := Enqueue(db.pending, input, reason, now)), Blocked(reason))
              case Cover(_, _) => Committed(
                if input.phase == Consume then ConsumePlan(db, input, at, target, now) else db,
                Allowed(grant.grantId, grant.planDigest, target.baseBranch))
  {
    hide Decide, DecideTarget, Enqueue, ConsumePlan;
  }
}
