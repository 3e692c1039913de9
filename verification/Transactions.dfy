/** What each transaction on sessions and the worker boundary amounts to, told without its statements. */
module Transactions {
  import opened Records
  import opened Rows
  import opened Conditions
  import Plans
  import Store

  function Changed(before: map<Id, Session>, after: map<Id, Session>): set<Id> {
    set sid | sid in before && sid in after && after[sid] != before[sid]
  }

  /** The start-up interruption throws on a session of the future; otherwise it changes the active ones and counts them. */
  lemma AllInterrupted(db: Db, now: Time)
    ensures var o := Store.InterruptActiveSessions(db, now);
            && (o.Threw? <==>
                  exists sid :: sid in db.sessions && db.sessions[sid].status == Active && now < db.sessions[sid].createdAt)
            && (o.Committed? ==>
                  var after := o.db.sessions;
                  && after.Keys == db.sessions.Keys
                  && (forall sid :: sid in after ==> after[sid].status != Active)
                  && (forall sid :: sid in after ==>
                        after[sid] == if db.sessions[sid].status != Active then db.sessions[sid]
                                      else db.sessions[sid].(status := Interrupted, updatedAt := now))
                  && o.db == db.(sessions := after)
                  && o.value == |Changed(db.sessions, after)|)
  {
    var o := Store.InterruptActiveSessions(db, now);
    if sid :| sid in db.sessions && db.sessions[sid].status == Active && now < db.sessions[sid].createdAt {
      assert Store.StartsInFuture(db.sessions[sid], now);
    }
    if o.Committed? {
      var after := o.db.sessions;
      assert Changed(db.sessions, after) == (set sid | sid in db.sessions && db.sessions[sid].status == Active);
    }
  }

  /** One call is taken exactly from an open session with a call left, and from no other budget. */
  lemma ToolCallTaken(db: Db, sid: Id, now: Time)
    ensures var o := Store.ConsumeToolCall(db, sid, now);
            && o.Committed?
            && (o.value.Some? <==> Live(db, sid, now) && sid in db.budgets && db.budgets[sid].toolCalls > 0)
            && (o.value.None? <==> o.db == db)
            && (o.value.Some? ==>
                  && o.db == db.(budgets := o.db.budgets) && o.db.budgets[sid] == o.value.value
                  && o.value.value.toolCalls + 1 == db.budgets[sid].toolCalls
                  && o.value.value == db.budgets[sid].(toolCalls := o.value.value.toolCalls)
                  && o.db.budgets - {sid} == db.budgets - {sid})
  {
    var o := Store.ConsumeToolCall(db, sid, now);
    if o.value.Some? { assert o.db.budgets[sid] != db.budgets[sid]; }
  }

  /** The ordinary violations of a session in a closed window, by their place in the table. */
  function OrdinaryIn(events: seq<BoundaryEvent>, sid: Id, from: Time, to: Time): set<int> {
    set i | 0 <= i < |events| && events[i].sessionId == sid && events[i].kind.Violation?
            && events[i].severity == Ordinary && from <= events[i].occurredAt && events[i].occurredAt <= to
  }

  /** The count of the window is the number of those rows, both ends included. */
  lemma {:induction false} WindowCounted(events: seq<BoundaryEvent>, sid: Id, from: Time, to: Time)
    ensures Store.OrdinaryCount(events, sid, from, to) == |OrdinaryIn(events, sid, from, to)|
  {
    if |events| == 0 {
      assert OrdinaryIn(events, sid, from, to) == {};
    } else {
      var last := |events| - 1;
      WindowCounted(events[..last], sid, from, to);
      var before := OrdinaryIn(events[..last], sid, from, to);
      if Store.InWindow(events[last], sid, from, to) {
        assert OrdinaryIn(events, sid, from, to) == before + {last};
      } else {
        assert OrdinaryIn(events, sid, from, to) == before;
      }
    }
  }

  /** Four kinds of violation are tolerated at first; every other ends the session at once. */
  predicate Tolerable(code: ViolationCode) {
    code in {ToolNotAllowed, FilesystemNotAllowed, TimeoutExceedsSession, VolumeExhausted}
  }

  /** Known before the denial is recorded: its code is critical, or two ordinary ones lie in the five minutes before. */
  predicate Third(db: Db, sid: Id, code: ViolationCode, now: Time) {
    !Tolerable(code) || |OrdinaryIn(db.events, sid, now - 300_000, now)| >= 2
  }

  /** Event identifiers are unique over the whole table. */
  predicate Taken(events: seq<BoundaryEvent>, eventId: Id) {
    exists i :: 0 <= i < |events| && events[i].eventId == eventId
  }

  /** A denial of an open session records one event, last, and revokes the session exactly when it is the third. */
  lemma DenialJudged(db: Db, sid: Id, boundaryId: Id, digest: Digest, code: ViolationCode, eventId: Id, now: Time)
    requires Live(db, sid, now) && sid in db.budgets
    ensures Store.Deny(db, sid, boundaryId, digest, code, eventId, now).Threw? <==> Taken(db.events, eventId)
    ensures !Taken(db.events, eventId) ==>
            var o := Store.Deny(db, sid, boundaryId, digest, code, eventId, now);
            && o.value == Store.ExecutionDenied(Third(db, sid, code, now), db.budgets[sid])
            && |o.db.events| == |db.events| + 1 && db.events <= o.db.events
            && var event := o.db.events[|db.events|];
               && event == BoundaryEvent(
                    eventId, sid, boundaryId, digest, Violation(code), if Tolerable(code) then Ordinary else Critical,
                    if Third(db, sid, code, now) then RevokeSession else ContinueSession, now)
               && o.db == db.(sessions := o.db.sessions, events := o.db.events)
               && (!Third(db, sid, code, now) ==> o.db.sessions == db.sessions)
               && (Third(db, sid, code, now) ==>
                     && o.db.sessions.Keys == db.sessions.Keys && o.db.sessions - {sid} == db.sessions - {sid}
                     && o.db.sessions[sid] == db.sessions[sid].(status := Revoked, updatedAt := now))
  {
    hide Store.OrdinaryCount;
    var event := Store.Denial(sid, boundaryId, digest, code, eventId, now, ContinueSession);
    SumAppend(db.events, event, Store.WindowWeight(sid, now - Store.WINDOW, now));
    CountIs(db.events, sid, now);
    CountIs(db.events + [event], sid, now);
    WindowCounted(db.events, sid, now - Store.WINDOW, now);
  }

  lemma CountIs(events: seq<BoundaryEvent>, sid: Id, now: Time)
    ensures Store.OrdinaryCount(events, sid, now - Store.WINDOW, now)
         == Sum(events, Store.WindowWeight(sid, now - Store.WINDOW, now))
  {
  }

  predicate Clashes(row: Execution, sid: Id, executionId: Id, digest: Digest) {
    row.executionId == executionId || (row.sessionId == sid && row.digest == digest)
  }

  /** The execution id was claimed before, by anyone, or the digest by this session. */
  predicate Repeated(executions: seq<Execution>, sid: Id, executionId: Id, digest: Digest) {
    exists i :: 0 <= i < |executions| && Clashes(executions[i], sid, executionId, digest)
  }

  lemma RepeatedIsReplayed(executions: seq<Execution>, sid: Id, executionId: Id, digest: Digest)
    ensures Store.Replayed(executions, sid, executionId, digest) <==> Repeated(executions, sid, executionId, digest)
  {
    if i :| 0 <= i < |executions| && Store.Claimed(executions[i], sid, executionId, digest) {
      assert Clashes(executions[i], sid, executionId, digest);
    }
    if i :| 0 <= i < |executions| && Clashes(executions[i], sid, executionId, digest) {
      assert Store.Claimed(executions[i], sid, executionId, digest);
    }
  }

  /** New, with a call left, and a local command left if it is one. */
  predicate Payable(db: Db, sid: Id, executionId: Id, digest: Digest, tool: Tool)
    requires sid in db.budgets
  {
    && !Repeated(db.executions, sid, executionId, digest) && db.budgets[sid].toolCalls >= 1
    && db.budgets[sid].localCommands >= (if tool == LocalCommandTool then 1 else 0)
  }

  lemma ClaimSplits(db: Db, sid: Id, executionId: Id, digest: Digest, tool: Tool, eventId: Id, now: Time)
    requires sid in db.sessions && sid in db.budgets
    ensures var o := Store.ConsumeExecution(db, sid, executionId, digest, tool, eventId, now);
            && (!Live(db, sid, now) ==>
                  o.Committed? && o.value.ExecutionUnavailable? && o.db == db.(sessions := o.db.sessions))
            && (Live(db, sid, now) && Payable(db, sid, executionId, digest, tool) ==>
                  var left := Store.Spend(db.budgets[sid], tool);
                  o == Committed(
                         db.(budgets := db.budgets[sid := left],
                             executions := db.executions + [Execution(executionId, sid, digest, tool, now)]),
                         Store.ExecutionAllowed(left)))
            && (Live(db, sid, now) && !Payable(db, sid, executionId, digest, tool) ==>
                  o == Store.Deny(
                         db, sid, executionId, digest,
                         if Repeated(db.executions, sid, executionId, digest) then ExecutionReplay else VolumeExhausted,
                         eventId, now))
  {
    hide Store.Deny, Store.Replayed, Repeated, Store.Spend;
    OpenIsLive(db, sid, now);
    RepeatedIsReplayed(db.executions, sid, executionId, digest);
  }

  /** What a claim of a known session leads to: a refusal, a grant that pays for itself, or a denial. */
  lemma ExecutionJudged(db: Db, sid: Id, executionId: Id, digest: Digest, tool: Tool, eventId: Id, now: Time)
    requires sid in db.sessions && sid in db.budgets
    ensures var o := Store.ConsumeExecution(db, sid, executionId, digest, tool, eventId, now);
            var replay := Repeated(db.executions, sid, executionId, digest);
            var granted := Live(db, sid, now) && Payable(db, sid, executionId, digest, tool);
            && (o.Threw? <==> Live(db, sid, now) && !granted && Taken(db.events, eventId))
            && (o.Committed? ==>
                  && (o.value.ExecutionUnavailable? <==> !Live(db, sid, now)) && (o.value.ExecutionAllowed? <==> granted))
            && (o.Committed? && o.value.ExecutionAllowed? ==>
                  && |o.db.executions| == |db.executions| + 1 && db.executions <= o.db.executions
                  && o.db.executions[|db.executions|] == Execution(executionId, sid, digest, tool, now)
                  && o.db.budgets == db.budgets[sid := o.value.budget]
                  && o.value.budget.toolCalls == db.budgets[sid].toolCalls - (if tool == ExternalTool then 0 else 1)
                  && o.value.budget.localCommands
                     == db.budgets[sid].localCommands - (if tool == LocalCommandTool then 1 else 0)
                  && o.value.budget.researchRequests == db.budgets[sid].researchRequests
                  && o.value.budget.researchResults == db.budgets[sid].researchResults
                  && o.db == db.(budgets := o.db.budgets, executions := o.db.executions))
            && (o.Committed? && o.value.ExecutionDenied? ==>
                  && o == Store.Deny(
                       db, sid, executionId, digest, if replay then ExecutionReplay else VolumeExhausted, eventId, now)
                  && o.value.revoked == (replay || Third(db, sid, VolumeExhausted, now)))
            && (o.Committed? && o.value.ExecutionUnavailable? ==> o.db == db.(sessions := o.db.sessions))
  {
    hide Store.ConsumeExecution, Store.Deny, Third, Taken, Live, Payable, Repeated;
    ClaimSplits(db, sid, executionId, digest, tool, eventId, now);
    if Live(db, sid, now) {
      DenialJudged(db, sid, executionId, digest, ExecutionReplay, eventId, now);
      DenialJudged(db, sid, executionId, digest, VolumeExhausted, eventId, now);
      CriticalIsThird(db, sid, ExecutionReplay, now);
    }
  }

  lemma CriticalIsThird(db: Db, sid: Id, code: ViolationCode, now: Time)
    requires !Tolerable(code)
    ensures Third(db, sid, code, now)
  {
  }

  /** No boundary event of the session lies after now. */
  predicate Reached(events: seq<BoundaryEvent>, sid: Id, now: Time) {
    forall i :: 0 <= i < |events| && events[i].sessionId == sid ==> events[i].occurredAt <= now
  }

  /** A reported violation is denied exactly when the clock has not stepped back and the session is open. */
  lemma ViolationJudged(db: Db, sid: Id, boundaryId: Id, digest: Digest, code: ViolationCode, eventId: Id, now: Time)
    requires sid in db.sessions && sid in db.budgets
    ensures var o := Store.RecordViolation(db, sid, boundaryId, digest, code, eventId, now);
            && (o.Threw? <==> !Reached(db.events, sid, now) || (Live(db, sid, now) && Taken(db.events, eventId)))
            && (o.Committed? ==>
                  && (o.value.ExecutionDenied? <==> Live(db, sid, now))
                  && (o.value.ExecutionUnavailable? <==> !Live(db, sid, now))
                  && (o.value.ExecutionDenied? ==>
                        o.value.revoked == Third(db, sid, code, now)
                        && o == Store.Deny(db, sid, boundaryId, digest, code, eventId, now))
                  && (o.value.ExecutionUnavailable? ==>
                        && o.db.events == db.events
                        && (o.db.sessions != db.sessions ==>
                              db.sessions[sid].status == Active && now >= db.sessions[sid].expiresAt)))
  {
    hide Store.Deny, Third, Taken, Live;
    OpenIsLive(db, sid, now);
    if Live(db, sid, now) { DenialJudged(db, sid, boundaryId, digest, code, eventId, now); }
  }

  /** An open session is interrupted with one failure event; a lapsed one expires; any other is left alone. */
  lemma InterruptionJudged(
    db: Db, sid: Id, boundaryId: Id, digest: Digest, failure: FailureCode, eventId: Id, now: Time)
    ensures var o := Store.InterruptWorkerSession(db, sid, boundaryId, digest, failure, eventId, now);
            && (o.Threw? <==> !Reached(db.events, sid, now) || (Live(db, sid, now) && Taken(db.events, eventId)))
            && (o.Committed? ==>
                  && (o.value <==> Live(db, sid, now))
                  && o.db == db.(sessions := o.db.sessions, events := o.db.events)
                  && o.db.sessions.Keys == db.sessions.Keys && o.db.sessions - {sid} == db.sessions - {sid}
                  && (o.value ==>
                        && o.db.sessions[sid] == db.sessions[sid].(status := Interrupted, updatedAt := now)
                        && |o.db.events| == |db.events| + 1 && db.events <= o.db.events
                        && o.db.events[|db.events|] == BoundaryEvent(
                             eventId, sid, boundaryId, digest, Interruption(failure), FailureSeverity, InterruptSession, now))
                  && (!o.value ==> o.db == db.(sessions := Store.Lapse(db.sessions, sid, now)))
                  && (!o.value && sid in db.sessions ==>
                        o.db.sessions[sid].status ==
                          if db.sessions[sid].status == Active && now >= db.sessions[sid].expiresAt then Expired
                          else db.sessions[sid].status))
  {
  }

  /** Why a session cannot be used: revoked; not active, or not yet; or past its expiry, in this order. */
  predicate RefusedFor(session: Session, now: Time, reason: Store.Reason) {
    match reason
    case SessionRevoked => session.status == Revoked
    case NotActive => session.status != Revoked && (session.status != Active || now < session.startsAt)
    case SessionExpired => session.status == Active && session.startsAt <= now && session.expiresAt <= now
  }

  /** The one reason of a refusal is given, and only an expiry is written on the way. */
  lemma RefusalExplained(
    db: Db, sid: Id, boundaryId: Id, digest: Digest, tool: Tool, code: ViolationCode, eventId: Id, now: Time)
    requires sid in db.sessions && sid in db.budgets && !Live(db, sid, now)
    ensures var claim := Store.ConsumeExecution(db, sid, boundaryId, digest, tool, eventId, now);
            var report := Store.RecordViolation(db, sid, boundaryId, digest, code, eventId, now);
            && claim.Committed? && claim.value.ExecutionUnavailable? && claim.value.budget == db.budgets[sid]
            && RefusedFor(db.sessions[sid], now, claim.value.reason)
            && claim.db == (if claim.value.reason == Store.SessionExpired
                            then db.(sessions := db.sessions[
                                   sid := db.sessions[sid].(status := Expired, updatedAt := now)])
                            else db)
            && (report.Committed? ==> report == claim)
  {
    hide Store.ClockReached;
  }

  /** A session past its expiry that is asked to interrupt or to complete is marked so, and any other is left alone. */
  lemma LapseWritten(sessions: map<Id, Session>, sid: Id, now: Time)
    ensures Store.Lapse(sessions, sid, now) ==
              if sid in sessions && sessions[sid].status == Active && sessions[sid].expiresAt <= now
              then sessions[sid := sessions[sid].(status := Expired, updatedAt := now)] else sessions
  {
  }

  /** The row appended next becomes the latest of its session. */
  lemma AppendedIsLatest(audit: seq<AuditRow>, sid: Id, eventId: Id, now: Time, body: AuditBody)
    ensures var after := Store.AppendNext(audit, sid, eventId, now, body);
            && Store.Latest(after, sid) == |audit|
            && Store.NextSequence(after, sid) == Store.NextSequence(audit, sid) + 1
            && (forall k :: 0 <= k < |audit| && audit[k].sessionId == sid ==> audit[k].sequence < after[|audit|].sequence)
  {
    var after := Store.AppendNext(audit, sid, eventId, now, body);
    assert after[..|after| - 1] == audit;
  }

  predicate PlanRevoked(db: Db, sid: Id) {
    Plans.Current(db.plans, sid) >= 0 && db.plans[Plans.Current(db.plans, sid)].revokedAt.Some?
  }

  /** The boundary is a granted execution of the session, or one of its boundary events. */
  predicate Bounded(db: Db, sid: Id, boundaryId: Id, digest: Digest) {
    || (exists i :: 0 <= i < |db.executions| && db.executions[i].sessionId == sid
                    && db.executions[i].executionId == boundaryId && db.executions[i].digest == digest)
    || (exists i :: 0 <= i < |db.events| && db.events[i].sessionId == sid
                    && db.events[i].boundaryId == boundaryId && db.events[i].boundaryDigest == digest)
  }

  /** The id is new, and the latest event of the session does not lie after now. */
  predicate Appendable(audit: seq<AuditRow>, sid: Id, eventId: Id, now: Time) {
    && (forall i :: 0 <= i < |audit| ==> audit[i].eventId != eventId)
    && (Store.Latest(audit, sid) >= 0 ==> audit[Store.Latest(audit, sid)].occurredAt <= now)
  }

  lemma AppendableIsCanAppend(audit: seq<AuditRow>, sid: Id, eventId: Id, now: Time)
    ensures Store.CanAppend(audit, sid, eventId, now) <==> Appendable(audit, sid, eventId, now)
  {
    hide Store.Latest;
  }

  /** An audit event is appended, as the highest of its session, exactly when nothing stands in its way. */
  lemma AuditJudged(db: Db, sid: Id, boundaryId: Id, digest: Digest, detail: nat, eventId: Id, now: Time)
    ensures var o := Store.RecordAudit(db, sid, boundaryId, digest, detail, eventId, now);
            && (o.Committed? <==>
                  && Live(db, sid, now) && Reached(db.events, sid, now)
                  && !PlanRevoked(db, sid) && Bounded(db, sid, boundaryId, digest)
                  && Appendable(db.audit, sid, eventId, now))
            && (o.Committed? ==>
                  && o.db == db.(audit := o.db.audit) && |o.db.audit| == |db.audit| + 1 && db.audit <= o.db.audit
                  && o.db.audit[|db.audit|] == AuditRow(eventId, sid, o.value, now, WorkerEvent(boundaryId, digest, detail))
                  && Store.Latest(o.db.audit, sid) == |db.audit|
                  && (forall k :: 0 <= k < |db.audit| && db.audit[k].sessionId == sid ==> db.audit[k].sequence < o.value))
  {
    hide Plans.Current, Store.Latest, Live;
    OpenIsLive(db, sid, now);
    AppendableIsCanAppend(db.audit, sid, eventId, now);
    AppendedIsLatest(db.audit, sid, eventId, now, WorkerEvent(boundaryId, digest, detail));
  }

  /** The direct entry point takes exactly the next event of a known session, under a new id. */
  lemma EventAppended(db: Db, row: AuditRow)
    ensures var o, at := Store.AppendAuditEvent(db, row), Store.Latest(db.audit, row.sessionId);
            && (o.Committed? <==>
                  && row.sessionId in db.sessions && row.sequence == 1 + (if at < 0 then 0 else db.audit[at].sequence)
                  && (forall i :: 0 <= i < |db.audit| ==> db.audit[i].eventId != row.eventId))
            && (o.Committed? ==> o.db == db.(audit := db.audit + [row]))
  {
    hide Store.Latest;
  }

  /** Two events can be appended in turn exactly when each can and their ids differ. */
  lemma ClosableInTurn(audit: seq<AuditRow>, sid: Id, firstId: Id, secondId: Id, now: Time, body: AuditBody)
    ensures Store.CanAppend(audit, sid, firstId, now)
            && Store.CanAppend(Store.AppendNext(audit, sid, firstId, now, body), sid, secondId, now)
       <==> firstId != secondId && Appendable(audit, sid, firstId, now) && Appendable(audit, sid, secondId, now)
  {
    hide Store.Latest;
    AppendedIsLatest(audit, sid, firstId, now, body);
    AppendableIsCanAppend(audit, sid, firstId, now);
    var after := Store.AppendNext(audit, sid, firstId, now, body);
    AppendableIsCanAppend(after, sid, secondId, now);
    assert after[|audit|].eventId == firstId;
    assert forall i :: 0 <= i < |audit| ==> after[i] == audit[i];
  }

  /** A completion is both closing events in a row and the status, exactly for an open session under a live plan. */
  lemma CompletionJudged(
    db: Db, sid: Id, boundaryId: Id, digest: Digest, resultDigest: Digest, firstId: Id, secondId: Id, now: Time)
    ensures var o := Store.CompleteWorkerSession(db, sid, boundaryId, digest, resultDigest, firstId, secondId, now);
            && (o.Committed? && o.value ==>
                  && Live(db, sid, now) && Reached(db.events, sid, now) && !PlanRevoked(db, sid)
                  && o.db == db.(sessions := o.db.sessions, audit := o.db.audit)
                  && o.db.sessions[sid] == db.sessions[sid].(status := Completed, updatedAt := now)
                  && o.db.sessions - {sid} == db.sessions - {sid}
                  && |o.db.audit| == |db.audit| + 2 && db.audit <= o.db.audit
                  && var first, second := o.db.audit[|db.audit|], o.db.audit[|db.audit| + 1];
                     && first.body == CompletionReturned(boundaryId, digest, resultDigest)
                     && second.body == SessionTerminal(boundaryId, digest)
                     && first.sessionId == second.sessionId == sid && first.occurredAt == second.occurredAt == now
                     && second.sequence == first.sequence + 1
                     && Store.Latest(o.db.audit, sid) == |db.audit| + 1)
            && (o.Committed? && !o.value ==>
                  && (!Live(db, sid, now) || PlanRevoked(db, sid))
                  && o.db == db.(sessions := Store.Lapse(db.sessions, sid, now)))
            && (o.Threw? <==>
                  || !Reached(db.events, sid, now)
                  || (Live(db, sid, now) && !PlanRevoked(db, sid)
                      && !(firstId != secondId && Appendable(db.audit, sid, firstId, now)
                           && Appendable(db.audit, sid, secondId, now))))
  {
    hide Plans.Current, Store.Lapse, Store.Latest, Live;
    var body := CompletionReturned(boundaryId, digest, resultDigest);
    OpenIsLive(db, sid, now);
    ClosableInTurn(db.audit, sid, firstId, secondId, now, body);
    AppendedIsLatest(db.audit, sid, firstId, now, body);
    AppendedIsLatest(
      Store.AppendNext(db.audit, sid, firstId, now, body), sid, secondId, now, SessionTerminal(boundaryId, digest));
  }
}
