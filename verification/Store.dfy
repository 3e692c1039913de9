/** Every transaction of the authority store as a function of the tables and the clock. */
module Store {
  import opened Records
  import opened Rows
  import Plans

  // ---- sessions and connections

  predicate ValidBudget(budget: Budget) {
    && 0 <= budget.toolCalls <= 10_000 && 0 <= budget.localCommands <= 10_000
    && 0 <= budget.researchRequests <= 10_000 && 0 <= budget.researchResults <= 10_000
  }

  predicate Distinct(ids: seq<Id>) { forall i, j :: 0 <= i < j < |ids| ==> ids[i] != ids[j] }

  function CreateConnection(db: Db, id: Id, connection: Connection): (o: Outcome<()>)
    ensures o.After(db) == db.(connections := o.After(db).connections)
  {
    if !connection.active || id in db.connections then Threw
    else Committed(db.(connections := db.connections[id := connection]), ())
  }

  function RevokeConnection(db: Db, id: Id): (o: Outcome<bool>)
    ensures o.After(db) == db.(connections := o.After(db).connections)
  {
    if id !in db.connections || !db.connections[id].active then Committed(db, false)
    else Committed(db.(connections := db.connections[id := db.connections[id].(active := false)]), true)
  }

  function CreateSession(db: Db, sid: Id, session: Session, budget: Budget, connectionIds: seq<Id>): (o: Outcome<()>)
    ensures o.After(db) == db.(sessions := o.After(db).sessions, budgets := o.After(db).budgets,
                               bindings := o.After(db).bindings)
  {
    if || session.status != Active || session.expiresAt <= session.startsAt
       || session.updatedAt < session.createdAt || !ValidBudget(budget) || !Distinct(connectionIds)
       || sid in db.sessions
       || exists i :: 0 <= i < |connectionIds| && connectionIds[i] !in db.connections
    then Threw
    else Committed(
      db.(sessions := db.sessions[sid := session],
          budgets := db.budgets[sid := budget],
          bindings := db.bindings + (set c | c in connectionIds :: (sid, c))),
      ())
  }

  predicate StartsInFuture(session: Session, now: Time) { session.status == Active && session.createdAt > now }

  function Interrupt(session: Session, now: Time): Session {
    if session.status == Active then session.(status := Interrupted, updatedAt := now) else session
  }

  /** Run once when the service starts: every active session is interrupted. */
  function InterruptActiveSessions(db: Db, now: Time): (o: Outcome<nat>)
    ensures o.After(db) == db.(sessions := o.After(db).sessions)
  {
    if exists sid :: sid in db.sessions && StartsInFuture(db.sessions[sid], now) then Threw
    else Committed(
      db.(sessions := map sid | sid in db.sessions :: Interrupt(db.sessions[sid], now)),
      |set sid | sid in db.sessions && db.sessions[sid].status == Active|)
  }

  /** UPDATE sessions SET status = ?, updated_at = ? WHERE session_id = ?. */
  function WithStatus(sessions: map<Id, Session>, sid: Id, status: Status, now: Time): (after: map<Id, Session>)
    requires sid in sessions
    ensures after.Keys == sessions.Keys
  {
    sessions[sid := sessions[sid].(status := status, updatedAt := now)]
  }

  /** The EXISTS clause of every budget update. */
  predicate Open(db: Db, sid: Id, now: Time) {
    && sid in db.sessions && db.sessions[sid].status == Active
    && db.sessions[sid].startsAt <= now < db.sessions[sid].expiresAt
  }

  function ConsumeToolCall(db: Db, sid: Id, now: Time): (o: Outcome<Option<Budget>>)
    ensures o.After(db) == db.(budgets := o.After(db).budgets)
  {
    if sid in db.budgets && db.budgets[sid].toolCalls >= 1 && Open(db, sid, now) then
      var left := db.budgets[sid].(toolCalls := db.budgets[sid].toolCalls - 1);
      Committed(db.(budgets := db.budgets[sid := left]), Some(left))
    else Committed(db, None)
  }

  // ---- worker boundary

  const WINDOW: int := 300_000
  const THRESHOLD: int := 3

  function SeverityOf(code: ViolationCode): Severity {
    match code
    case ToolNotAllowed => Ordinary
    case FilesystemNotAllowed => Ordinary
    case TimeoutExceedsSession => Ordinary
    case VolumeExhausted => Ordinary
    case _ => Critical
  }

  datatype Reason = NotActive | SessionExpired | SessionRevoked

  datatype Authorization =
    | ExecutionAllowed(budget: Budget)
    | ExecutionDenied(revoked: bool, budget: Budget)
    | ExecutionUnavailable(reason: Reason, budget: Budget)

  /** Why a session cannot execute now; None when it can. */
  function Unavailable(session: Session, now: Time): Option<Reason> {
    if session.status == Revoked then Some(SessionRevoked)
    else if session.status != Active || now < session.startsAt then Some(NotActive)
    else if now >= session.expiresAt then Some(SessionExpired)
    else None
  }

  predicate InWindow(event: BoundaryEvent, sid: Id, from: Time, to: Time) {
    event.sessionId == sid && event.kind.Violation? && event.severity == Ordinary && from <= event.occurredAt <= to
  }

  function WindowWeight(sid: Id, from: Time, to: Time): BoundaryEvent -> int {
    (e: BoundaryEvent) => if InWindow(e, sid, from, to) then 1 else 0
  }

  /** SELECT COUNT(*) of the ordinary violations of a session in a closed window. */
  function OrdinaryCount(events: seq<BoundaryEvent>, sid: Id, from: Time, to: Time): int {
    Sum(events, WindowWeight(sid, from, to))
  }

  /** Whether a violation just inserted as the last event ends the session. */
  predicate Revokes(events: seq<BoundaryEvent>, sid: Id, code: ViolationCode, now: Time) {
    SeverityOf(code) == Critical || OrdinaryCount(events, sid, now - WINDOW, now) >= THRESHOLD
  }

  function Denial(
    sid: Id, boundaryId: Id, digest: Digest, code: ViolationCode, eventId: Id, now: Time, disposition: Disposition)
    : BoundaryEvent
  {
    BoundaryEvent(eventId, sid, boundaryId, digest, Violation(code), SeverityOf(code), disposition, now)
  }

  predicate EventRecorded(events: seq<BoundaryEvent>, eventId: Id) {
    exists i :: 0 <= i < |events| && events[i].eventId == eventId
  }

  /** The denial of one boundary, inside a transaction that found the session open. */
  function Deny(
    db: Db, sid: Id, boundaryId: Id, digest: Digest, code: ViolationCode, eventId: Id, now: Time)
   : (o: Outcome<Authorization>)
    ensures o.After(db) == db.(sessions := o.After(db).sessions, events := o.After(db).events)
  {
    var revoke :=
      Revokes(db.events + [Denial(sid, boundaryId, digest, code, eventId, now, ContinueSession)], sid, code, now);
    if || EventRecorded(db.events, eventId) || sid !in db.budgets || sid !in db.sessions
       || (revoke && db.sessions[sid].status != Active)
    then Threw
    else Committed(
      db.(sessions := if revoke then WithStatus(db.sessions, sid, Revoked, now) else db.sessions,
          events := db.events + [Denial(sid, boundaryId, digest, code, eventId, now,
                                        if revoke then RevokeSession else ContinueSession)]),
      ExecutionDenied(revoke, db.budgets[sid]))
  }

  predicate Claimed(row: Execution, sid: Id, executionId: Id, digest: Digest) {
    row.executionId == executionId || (row.sessionId == sid && row.digest == digest)
  }

  predicate Replayed(executions: seq<Execution>, sid: Id, executionId: Id, digest: Digest) {
    exists i :: 0 <= i < |executions| && Claimed(executions[i], sid, executionId, digest)
  }

  function ToolCost(tool: Tool): int { if tool == ExternalTool then 0 else 1 }
  function CommandCost(tool: Tool): int { if tool == LocalCommandTool then 1 else 0 }

  predicate Affordable(budget: Budget, tool: Tool) {
    budget.toolCalls >= 1 && budget.localCommands >= CommandCost(tool)
  }

  function Spend(budget: Budget, tool: Tool): Budget {
    budget.(toolCalls := budget.toolCalls - ToolCost(tool), localCommands := budget.localCommands - CommandCost(tool))
  }

  /** The sessions after a session is found unavailable: a lapsed one is marked expired. */
  function Noticed(sessions: map<Id, Session>, sid: Id, reason: Reason, now: Time): (after: map<Id, Session>)
    requires sid in sessions
    ensures after.Keys == sessions.Keys
  {
    if reason == SessionExpired then WithStatus(sessions, sid, Expired, now) else sessions
  }

  function ConsumeExecution(
    db: Db, sid: Id, executionId: Id, digest: Digest, tool: Tool, eventId: Id, now: Time): (o: Outcome<Authorization>)
    ensures o.After(db) == db.(sessions := o.After(db).sessions, budgets := o.After(db).budgets,
                               executions := o.After(db).executions, events := o.After(db).events)
  {
    if sid !in db.sessions || sid !in db.budgets then Threw
    else
      var unavailable := Unavailable(db.sessions[sid], now);
      var replay := Replayed(db.executions, sid, executionId, digest);
      if unavailable.Some? then
        Committed(
          db.(sessions := Noticed(db.sessions, sid, unavailable.value, now)),
          ExecutionUnavailable(unavailable.value, db.budgets[sid]))
      else if !replay && Affordable(db.budgets[sid], tool) then
        Committed(
          db.(budgets := db.budgets[sid := Spend(db.budgets[sid], tool)],
              executions := db.executions + [Execution(executionId, sid, digest, tool, now)]),
          ExecutionAllowed(Spend(db.budgets[sid], tool)))
      else
        Deny(db, sid, executionId, digest, if replay then ExecutionReplay else VolumeExhausted, eventId, now)
  }

  /** The clock guard: no boundary event of the session is later than now. */
  predicate ClockReached(events: seq<BoundaryEvent>, sid: Id, now: Time) {
    forall i :: 0 <= i < |events| && events[i].sessionId == sid ==> events[i].occurredAt <= now
  }

  function RecordViolation(
    db: Db, sid: Id, boundaryId: Id, digest: Digest, code: ViolationCode, eventId: Id, now: Time)
   : (o: Outcome<Authorization>)
    ensures o.After(db) == db.(sessions := o.After(db).sessions, events := o.After(db).events)
  {
    if !ClockReached(db.events, sid, now) || sid !in db.sessions || sid !in db.budgets then Threw
    else
      var unavailable := Unavailable(db.sessions[sid], now);
      if unavailable.Some? then
        Committed(
          db.(sessions := Noticed(db.sessions, sid, unavailable.value, now)),
          ExecutionUnavailable(unavailable.value, db.budgets[sid]))
      else Deny(db, sid, boundaryId, digest, code, eventId, now)
  }

  /** An active session past its expiry is marked expired; any other is left alone. */
  function Lapse(sessions: map<Id, Session>, sid: Id, now: Time): (after: map<Id, Session>)
    ensures after.Keys == sessions.Keys
  {
    if sid in sessions && sessions[sid].status == Active && now >= sessions[sid].expiresAt
    then WithStatus(sessions, sid, Expired, now) else sessions
  }

  function Failing(sid: Id, boundaryId: Id, digest: Digest, failure: FailureCode, eventId: Id, now: Time): BoundaryEvent {
    BoundaryEvent(eventId, sid, boundaryId, digest, Interruption(failure), FailureSeverity, InterruptSession, now)
  }

  function InterruptWorkerSession(
    db: Db, sid: Id, boundaryId: Id, digest: Digest, failure: FailureCode, eventId: Id, now: Time): (o: Outcome<bool>)
    ensures o.After(db) == db.(sessions := o.After(db).sessions, events := o.After(db).events)
  {
    if !ClockReached(db.events, sid, now) then Threw
    else if !Open(db, sid, now) then Committed(db.(sessions := Lapse(db.sessions, sid, now)), false)
    else if EventRecorded(db.events, eventId) then Threw
    else Committed(
      db.(sessions := WithStatus(db.sessions, sid, Interrupted, now),
          events := db.events + [Failing(sid, boundaryId, digest, failure, eventId, now)]),
      true)
  }

  // ---- audit log

  /** The row of a session with the highest sequence number, -1 when there is none. */
  function Latest(audit: seq<AuditRow>, sid: Id): (index: int)
    ensures -1 <= index < |audit|
    ensures index == -1 <==> forall i :: 0 <= i < |audit| ==> audit[i].sessionId != sid
    ensures index >= 0 ==> audit[index].sessionId == sid
    ensures index >= 0 ==> forall i :: 0 <= i < |audit| && audit[i].sessionId == sid
                             ==> audit[i].sequence <= audit[index].sequence
  {
    if |audit| == 0 then -1
    else
      var last := |audit| - 1;
      var best := Latest(audit[..last], sid);
      if audit[last].sessionId == sid && (best < 0 || audit[best].sequence < audit[last].sequence) then last else best
  }

  function NextSequence(audit: seq<AuditRow>, sid: Id): int {
    var at := Latest(audit, sid);
    (if at < 0 then 0 else audit[at].sequence) + 1
  }

  predicate Bound(db: Db, sid: Id, boundaryId: Id, digest: Digest) {
    || (exists i :: 0 <= i < |db.executions| && db.executions[i].sessionId == sid
                    && db.executions[i].executionId == boundaryId && db.executions[i].digest == digest)
    || (exists i :: 0 <= i < |db.events| && db.events[i].sessionId == sid
                    && db.events[i].boundaryId == boundaryId && db.events[i].boundaryDigest == digest)
  }

  /** Whether the next event of a session may be appended at this time under this id. */
  predicate CanAppend(audit: seq<AuditRow>, sid: Id, eventId: Id, now: Time) {
    && (var at := Latest(audit, sid); at >= 0 ==> audit[at].occurredAt <= now)
    && !AuditRecorded(audit, eventId)
  }

  predicate AuditRecorded(audit: seq<AuditRow>, eventId: Id) {
    exists i :: 0 <= i < |audit| && audit[i].eventId == eventId
  }

  function AppendNext(audit: seq<AuditRow>, sid: Id, eventId: Id, now: Time, body: AuditBody): seq<AuditRow> {
    audit + [AuditRow(eventId, sid, NextSequence(audit, sid), now, body)]
  }

  function RecordAudit(
    db: Db, sid: Id, boundaryId: Id, digest: Digest, detail: nat, eventId: Id, now: Time): (o: Outcome<int>)
    ensures o.After(db) == db.(audit := o.After(db).audit)
  {
    if || !ClockReached(db.events, sid, now) || !Open(db, sid, now) || Plans.CurrentRevoked(db, sid)
       || !Bound(db, sid, boundaryId, digest) || !CanAppend(db.audit, sid, eventId, now)
    then Threw
    else Committed(
      db.(audit := AppendNext(db.audit, sid, eventId, now, WorkerEvent(boundaryId, digest, detail))),
      NextSequence(db.audit, sid))
  }

  /** The log after both closing events of a completed session. */
  function Close(
    audit: seq<AuditRow>, sid: Id, boundaryId: Id, digest: Digest, resultDigest: Digest, firstId: Id, secondId: Id, now: Time)
    : seq<AuditRow>
  {
    AppendNext(
      AppendNext(audit, sid, firstId, now, CompletionReturned(boundaryId, digest, resultDigest)),
      sid, secondId, now, SessionTerminal(boundaryId, digest))
  }

  predicate CanClose(
    audit: seq<AuditRow>, sid: Id, boundaryId: Id, digest: Digest, resultDigest: Digest, firstId: Id, secondId: Id, now: Time)
  {
    && CanAppend(audit, sid, firstId, now)
    && CanAppend(
      AppendNext(audit, sid, firstId, now, CompletionReturned(boundaryId, digest, resultDigest)), sid, secondId, now)
  }

  function CompleteWorkerSession(
    db: Db, sid: Id, boundaryId: Id, digest: Digest, resultDigest: Digest, firstId: Id, secondId: Id, now: Time)
   : (o: Outcome<bool>)
    ensures o.After(db) == db.(sessions := o.After(db).sessions, audit := o.After(db).audit)
  {
    if !ClockReached(db.events, sid, now) then Threw
    else if !Open(db, sid, now) || Plans.CurrentRevoked(db, sid) then
      Committed(db.(sessions := Lapse(db.sessions, sid, now)), false)
    else if !CanClose(db.audit, sid, boundaryId, digest, resultDigest, firstId, secondId, now) then Threw
    else Committed(
      db.(sessions := WithStatus(db.sessions, sid, Completed, now),
          audit := Close(db.audit, sid, boundaryId, digest, resultDigest, firstId, secondId, now)),
      true)
  }

  /** The direct entry point, which the IPC surface does not offer. */
  function AppendAuditEvent(db: Db, row: AuditRow): (o: Outcome<()>)
    ensures o.After(db) == db.(audit := o.After(db).audit)
  {
    if || row.sessionId !in db.sessions || row.sequence != NextSequence(db.audit, row.sessionId)
       || AuditRecorded(db.audit, row.eventId)
    then Threw
    else Committed(db.(audit := db.audit + [row]), ())
  }

  // ---- research reservations

  predicate Reservable(db: Db, sid: Id, requested: int, now: Time) {
    && sid in db.budgets && db.budgets[sid].toolCalls >= 1 && db.budgets[sid].researchRequests >= 1
    && db.budgets[sid].researchResults >= requested && Open(db, sid, now)
  }

  function Reserve(budget: Budget, requested: int): Budget {
    budget.(toolCalls := budget.toolCalls - 1, researchRequests := budget.researchRequests - 1,
            researchResults := budget.researchResults - requested)
  }

  predicate ReservationRecorded(rows: seq<Reservation>, reservationId: Id) {
    exists i :: 0 <= i < |rows| && rows[i].reservationId == reservationId
  }

  function ReserveResearch(db: Db, sid: Id, requested: int, reservationId: Id, now: Time): (o: Outcome<Option<Budget>>)
    ensures o.After(db) == db.(budgets := o.After(db).budgets, reservations := o.After(db).reservations)
  {
    if requested < 1 || requested > 3 then Threw
    else if !Reservable(db, sid, requested, now) then Committed(db, None)
    else if ReservationRecorded(db.reservations, reservationId) then Threw
    else Committed(
      db.(budgets := db.budgets[sid := Reserve(db.budgets[sid], requested)],
          reservations := db.reservations + [Reservation(reservationId, sid, requested, None, None)]),
      Some(Reserve(db.budgets[sid], requested)))
  }

  /** The row of a reservation held by a session, -1 when there is none. */
  function FindReservation(rows: seq<Reservation>, reservationId: Id, sid: Id): (index: int)
    ensures -1 <= index < |rows|
    ensures index >= 0 ==> rows[index].reservationId == reservationId && rows[index].sessionId == sid
    ensures index == -1 ==> forall i :: 0 <= i < |rows| ==>
                              rows[i].reservationId != reservationId || rows[i].sessionId != sid
  {
    if |rows| == 0 then -1
    else
      var last := |rows| - 1;
      if rows[last].reservationId == reservationId && rows[last].sessionId == sid then last
      else FindReservation(rows[..last], reservationId, sid)
  }

  function SettleResearch(db: Db, reservationId: Id, sid: Id, accepted: int, now: Time): (o: Outcome<Budget>)
    ensures o.After(db) == db.(budgets := o.After(db).budgets, reservations := o.After(db).reservations)
  {
    var at := FindReservation(db.reservations, reservationId, sid);
    if || accepted < 0 || accepted > 3 || at < 0 || db.reservations[at].settledAt.Some?
       || accepted > db.reservations[at].reserved || sid !in db.budgets
    then Threw
    else
      var row := db.reservations[at];
      var budget := db.budgets[sid];
      var left := budget.(researchResults := budget.researchResults + row.reserved - accepted);
      Committed(
        db.(budgets := db.budgets[sid := left],
            reservations := db.reservations[at := row.(accepted := Some(accepted), settledAt := Some(now))]),
        left)
  }

  // ---- approvals

  predicate BoundConnection(db: Db, sid: Id, connectionId: Id) {
    (sid, connectionId) in db.bindings && connectionId in db.connections && db.connections[connectionId].active
  }

  function StoreApproval(db: Db, approval: Approval): (o: Outcome<()>)
    ensures o.After(db) == db.(approvals := o.After(db).approvals)
  {
    if && approval.approvedAt < approval.expiresAt
       && approval.sessionId in db.sessions && db.sessions[approval.sessionId].status == Active
       && db.sessions[approval.sessionId].scope == approval.scope
       && BoundConnection(db, approval.sessionId, approval.connectionId)
       && approval.approvalId !in db.approvals
       && (forall id :: id in db.approvals ==> db.approvals[id].approval.nonce != approval.nonce)
    then Committed(db.(approvals := db.approvals[approval.approvalId := ApprovalRow(approval, None)]), ())
    else Threw
  }

  datatype Consumption = Consumption(
    approvalId: Id, nonce: Id, requestDigest: Digest, sessionId: Id, callerId: Id, connectionId: Id, policyVersion: nat)

  datatype ConsumptionResult =
    | ApprovalConsumed | ApprovalReplayed | ApprovalNotFound | ApprovalMismatch | ApprovalNotActive | ApprovalExpired

  function JudgeConsumption(db: Db, request: Consumption, now: Time): ConsumptionResult {
    if || request.approvalId !in db.approvals
       || db.approvals[request.approvalId].approval.sessionId != request.sessionId
       || request.sessionId !in db.sessions
    then ApprovalNotFound
    else
      var row := db.approvals[request.approvalId];
      var approval := row.approval;
      var session := db.sessions[request.sessionId];
      if || approval.scope.callerId != request.callerId || approval.connectionId != request.connectionId
         || approval.scope.policyVersion != request.policyVersion || approval.requestDigest != request.requestDigest
         || approval.nonce != request.nonce || !BoundConnection(db, request.sessionId, approval.connectionId)
      then ApprovalMismatch
      else if row.consumedAt.Some? then ApprovalReplayed
      else if session.status != Active || now < approval.approvedAt || now < session.startsAt then ApprovalNotActive
      else if now >= approval.expiresAt || now >= session.expiresAt then ApprovalExpired
      else ApprovalConsumed
  }

  function ConsumeApproval(db: Db, request: Consumption, now: Time): (o: Outcome<ConsumptionResult>)
    ensures o.After(db) == db.(approvals := o.After(db).approvals)
  {
    var result := JudgeConsumption(db, request, now);
    if result == ApprovalConsumed then
      Committed(
        db.(approvals := db.approvals[request.approvalId :=
              db.approvals[request.approvalId].(consumedAt := Some(now))]),
        result)
    else Committed(db, result)
  }

  // ---- evidence, attempts and decisions

  datatype NewExposure = NewExposure(exposureId: Id, exposure: Exposure)

  predicate ExposureFits(db: Db, exposure: Exposure) {
    && exposure.sessionId in db.sessions
    && db.sessions[exposure.sessionId].startsAt <= exposure.retrievedAt < db.sessions[exposure.sessionId].expiresAt
  }

  function AddExposures(exposures: map<Id, Exposure>, batch: seq<NewExposure>): map<Id, Exposure> {
    if |batch| == 0 then exposures
    else AddExposures(exposures, batch[..|batch| - 1])[batch[|batch| - 1].exposureId := batch[|batch| - 1].exposure]
  }

  function AppendExposures(db: Db, batch: seq<NewExposure>): (o: Outcome<()>)
    ensures o.After(db) == db.(exposures := o.After(db).exposures)
  {
    if || |batch| < 1 || |batch| > 3
       || (exists i, j :: 0 <= i < j < |batch| && batch[i].exposureId == batch[j].exposureId)
       || (exists i :: 0 <= i < |batch|
                       && (batch[i].exposureId in db.exposures || !ExposureFits(db, batch[i].exposure)))
    then Threw
    else Committed(db.(exposures := AddExposures(db.exposures, batch)), ())
  }

  predicate EvidenceAvailable(db: Db, attempt: Attempt, exposureId: Id) {
    && exposureId in db.exposures && db.exposures[exposureId].sessionId == attempt.sessionId
    && db.exposures[exposureId].retrievedAt <= attempt.attemptedAt
  }

  function AppendAttempt(db: Db, attempt: Attempt): (o: Outcome<()>)
    ensures o.After(db) == db.(attempts := o.After(db).attempts)
  {
    if && attempt.sessionId in db.sessions
       && db.sessions[attempt.sessionId].scope.callerId == attempt.callerId
       && db.sessions[attempt.sessionId].startsAt <= attempt.attemptedAt < db.sessions[attempt.sessionId].expiresAt
       && Distinct(attempt.exposureIds) && |attempt.exposureIds| <= 16
       && (forall i :: 0 <= i < |attempt.exposureIds| ==> EvidenceAvailable(db, attempt, attempt.exposureIds[i]))
       && attempt.attemptId !in db.attempts
    then Committed(db.(attempts := db.attempts[attempt.attemptId := attempt]), ())
    else Threw
  }

  function AppendDecision(db: Db, decision: Decision): (o: Outcome<()>)
    ensures o.After(db) == db.(decisions := o.After(db).decisions)
  {
    if && decision.attemptId in db.attempts
       && db.attempts[decision.attemptId].sessionId == decision.sessionId
       && db.attempts[decision.attemptId].attemptedAt <= decision.decidedAt
       && (forall i :: 0 <= i < |db.decisions| ==>
             db.decisions[i].attemptId != decision.attemptId && db.decisions[i].decisionId != decision.decisionId)
    then Committed(db.(decisions := db.decisions + [decision]), ())
    else Threw
  }
}
