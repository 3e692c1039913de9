/** The audit log of a session: numbering, order, what its events bind, and how it closes. */
module AuditLog {
  import opened Records
  import opened Rows
  import opened Runs
  import opened Views
  import Store
  import Plans
  import Budgets
  import Terminal

  /** The log of one session, in insertion order. */
  function LogOf(audit: seq<AuditRow>, sid: Id): seq<AuditRow> { Where(audit, OfAudit(sid)) }

  predicate Numbered(log: seq<AuditRow>) { forall k :: 0 <= k < |log| ==> log[k].sequence == k + 1 }

  ghost predicate AllNumbered(audit: seq<AuditRow>) { forall sid :: Numbered(LogOf(audit, sid)) }

  predicate Ordered(log: seq<AuditRow>) {
    forall j, k :: 0 <= j < k < |log| ==> log[j].occurredAt <= log[k].occurredAt
  }

  /** Every worker event names an execution of its session that was claimed or denied. */
  predicate Binds(db: Db, sid: Id, log: seq<AuditRow>) {
    forall k :: 0 <= k < |log| && log[k].body.WorkerEvent?
      ==> Store.Bound(db, sid, log[k].body.boundaryId, log[k].body.boundaryDigest)
  }

  predicate Running(log: seq<AuditRow>) { forall k :: 0 <= k < |log| ==> log[k].body.WorkerEvent? }

  /** Worker events, then the returned completion, then the terminal event of the same boundary. */
  predicate Closed(log: seq<AuditRow>) {
    var n := |log|;
    && n >= 2 && Running(log[..n - 2])
    && log[n - 2].body.CompletionReturned? && log[n - 1].body.SessionTerminal?
    && log[n - 2].body.boundaryId == log[n - 1].body.boundaryId
    && log[n - 2].body.boundaryDigest == log[n - 1].body.boundaryDigest
    && log[n - 2].occurredAt == log[n - 1].occurredAt
  }

  predicate Finished(db: Db, sid: Id) { sid in db.sessions && db.sessions[sid].status == Completed }

  /** What the log of a session is like when only the services wrote to it. */
  predicate Faithful(db: Db, sid: Id) {
    var log := LogOf(db.audit, sid);
    Ordered(log) && Binds(db, sid, log) && if Finished(db, sid) then Closed(log) else Running(log)
  }

  /** The row the store takes for the latest is the last one of the numbered log. */
  lemma LatestIsLast(audit: seq<AuditRow>, sid: Id)
    requires Numbered(LogOf(audit, sid))
    ensures var log := LogOf(audit, sid);
            var at := Store.Latest(audit, sid);
            && (at < 0 <==> log == [])
            && (at >= 0 ==> audit[at] == log[|log| - 1])
            && Store.NextSequence(audit, sid) == |log| + 1
  {
    hide Where;
    var log := LogOf(audit, sid);
    var at := Store.Latest(audit, sid);
    if log != [] {
      assert log[|log| - 1] in audit;
    }
    if at >= 0 {
      assert audit[at] in log;
    }
  }

  lemma AppendLog(audit: seq<AuditRow>, row: AuditRow, sid: Id)
    ensures LogOf(audit + [row], sid) == if row.sessionId == sid then LogOf(audit, sid) + [row] else LogOf(audit, sid)
  {
    WhereAppend(audit, row, OfAudit(sid));
  }

  /** Appending the next event keeps the log numbered, and in order when the clock has been checked. */
  lemma AppendNextLog(audit: seq<AuditRow>, sid: Id, eventId: Id, now: Time, body: AuditBody, other: Id)
    requires Numbered(LogOf(audit, sid)) && Numbered(LogOf(audit, other))
    ensures var after := Store.AppendNext(audit, sid, eventId, now, body);
            var row := AuditRow(eventId, sid, |LogOf(audit, sid)| + 1, now, body);
            && Numbered(LogOf(after, other))
            && LogOf(after, other) == (if other == sid then LogOf(audit, sid) + [row] else LogOf(audit, other))
            && (Store.CanAppend(audit, sid, eventId, now) && Ordered(LogOf(audit, other)) ==> Ordered(LogOf(after, other)))
  {
    hide LogOf, Store.AuditRecorded;
    LatestIsLast(audit, sid);
    AppendLog(audit, AuditRow(eventId, sid, Store.NextSequence(audit, sid), now, body), other);
  }

  lemma NumberedAudit(db: Db, op: Op, sid: Id)
    requires IsAudit(op) && AllNumbered(db.audit)
    ensures Numbered(LogOf(Audit(db, op).audit, sid))
  {
    hide LogOf, Numbered, Store.ClockReached, Store.CanAppend, Store.Bound, Store.AuditRecorded, Plans.CurrentRevoked;
    match op
    case RecordAudit(s, id, digest, detail, eventId, now) =>
      AppendNextLog(db.audit, s, eventId, now, WorkerEvent(id, digest, detail), sid);
    case CompleteWorkerSession(s, id, digest, result, firstId, secondId, now) =>
      CloseLog(db.audit, s, id, digest, result, firstId, secondId, now, sid);
    case AppendAuditEvent(row) =>
      assert Audit(db, op).audit == db.audit + [row] || Audit(db, op).audit == db.audit;
      if Audit(db, op).audit != db.audit { DirectLog(db.audit, row, sid); }
  }

  lemma DirectLog(audit: seq<AuditRow>, row: AuditRow, sid: Id)
    requires AllNumbered(audit)
    requires row.sequence == Store.NextSequence(audit, row.sessionId)
    ensures Numbered(LogOf(audit + [row], sid))
  {
    hide LogOf;
    AppendLog(audit, row, sid);
    LatestIsLast(audit, row.sessionId);
  }

  lemma CloseLog(
    audit: seq<AuditRow>, sid: Id, boundaryId: Id, digest: Digest, resultDigest: Digest,
    firstId: Id, secondId: Id, now: Time, other: Id)
    requires Numbered(LogOf(audit, sid)) && Numbered(LogOf(audit, other))
    ensures var after := Store.Close(audit, sid, boundaryId, digest, resultDigest, firstId, secondId, now);
            var n := |LogOf(audit, sid)|;
            && Numbered(LogOf(after, other))
            && LogOf(after, other)
               == (if other == sid
                   then LogOf(audit, sid)
                        + [AuditRow(firstId, sid, n + 1, now, CompletionReturned(boundaryId, digest, resultDigest)),
                           AuditRow(secondId, sid, n + 2, now, SessionTerminal(boundaryId, digest))]
                   else LogOf(audit, other))
            && (Ordered(LogOf(audit, other)) ==>
                  Store.CanClose(audit, sid, boundaryId, digest, resultDigest, firstId, secondId, now) ==>
                    Ordered(LogOf(after, other)))
  {
    hide LogOf, Numbered, Ordered, Store.CanAppend, Store.AppendNext;
    var body := CompletionReturned(boundaryId, digest, resultDigest);
    var middle := Store.AppendNext(audit, sid, firstId, now, body);
    AppendNextLog(audit, sid, firstId, now, body, sid);
    AppendNextLog(audit, sid, firstId, now, body, other);
    AppendNextLog(middle, sid, secondId, now, SessionTerminal(boundaryId, digest), other);
  }

  /** In every reachable state, whoever wrote them, a session's events are numbered 1, 2, … without a gap. */
  lemma {:induction false} SequencesExact(ops: seq<Op>)
    ensures AllNumbered(Run(EmptyDb, ops).audit)
  {
    hide Apply, AllNumbered;
    if |ops| > 0 {
      SequencesExact(ops[..|ops| - 1]);
      NumberedStep(Run(EmptyDb, ops[..|ops| - 1]), ops[|ops| - 1]);
    } else {
      EmptyNumbered();
    }
  }

  lemma NumberedStep(db: Db, op: Op)
    requires AllNumbered(db.audit)
    ensures AllNumbered(Apply(db, op).audit)
  {
    hide LogOf, Numbered, Apply, Audit;
    Leaves(db, op);
    if IsAudit(op) {
      InAudit(db, op);
      forall sid ensures Numbered(LogOf(Audit(db, op).audit, sid)) { NumberedAudit(db, op, sid); }
    }
  }

  lemma EmptyNumbered()
    ensures AllNumbered([])
  {
  }

  // ---- runs over the service interface, which offers no direct append

  predicate Served(ops: seq<Op>) { forall k :: 0 <= k < |ops| ==> !ops[k].AppendAuditEvent? }

  /** Rows that bind boundaries are only ever added, and no session becomes or stops being completed. */
  ghost predicate KeepsFinish(db: Db, after: Db) {
    && db.executions <= after.executions && db.events <= after.events
    && (forall sid :: Finished(after, sid) <==> Finished(db, sid))
  }

  lemma BoundKept(db: Db, after: Db, sid: Id, boundaryId: Id, digest: Digest)
    requires db.executions <= after.executions && db.events <= after.events
    requires Store.Bound(db, sid, boundaryId, digest)
    ensures Store.Bound(after, sid, boundaryId, digest)
  {
    if i :| 0 <= i < |db.executions| && db.executions[i].sessionId == sid
            && db.executions[i].executionId == boundaryId && db.executions[i].digest == digest {
      assert after.executions[i] == db.executions[i];
    } else {
      var i :| 0 <= i < |db.events| && db.events[i].sessionId == sid
               && db.events[i].boundaryId == boundaryId && db.events[i].boundaryDigest == digest;
      assert after.events[i] == db.events[i];
    }
  }

  lemma FinishKept(db: Db, after: Db, sid: Id)
    requires KeepsFinish(db, after) && after.audit == db.audit && Faithful(db, sid)
    ensures Faithful(after, sid)
  {
    hide LogOf, Store.Bound, Closed, Running, Ordered, Finished;
    var log := LogOf(db.audit, sid);
    forall k | 0 <= k < |log| && log[k].body.WorkerEvent?
      ensures Store.Bound(after, sid, log[k].body.boundaryId, log[k].body.boundaryDigest)
    {
      BoundKept(db, after, sid, log[k].body.boundaryId, log[k].body.boundaryDigest);
    }
  }

  lemma LifecycleFinish(db: Db, op: Op)
    requires IsLifecycle(op)
    ensures KeepsFinish(db, Lifecycle(db, op))
  {
  }

  lemma DenyFinish(db: Db, sid: Id, boundaryId: Id, digest: Digest, code: ViolationCode, eventId: Id, now: Time)
    requires !Finished(db, sid)
    ensures KeepsFinish(db, Store.Deny(db, sid, boundaryId, digest, code, eventId, now).After(db))
  {
    hide Store.Revokes, Store.EventRecorded;
  }

  lemma ConsumeFinish(db: Db, sid: Id, executionId: Id, digest: Digest, tool: Tool, eventId: Id, now: Time)
    ensures KeepsFinish(db, Store.ConsumeExecution(db, sid, executionId, digest, tool, eventId, now).After(db))
  {
    hide Store.Deny, Store.Replayed, Store.Affordable;
    if sid in db.sessions && sid in db.budgets && Store.Unavailable(db.sessions[sid], now).None? {
      var replay := Store.Replayed(db.executions, sid, executionId, digest);
      DenyFinish(db, sid, executionId, digest, if replay then ExecutionReplay else VolumeExhausted, eventId, now);
    }
  }

  lemma WorkerFinish(db: Db, op: Op)
    requires IsWorker(op)
    ensures KeepsFinish(db, Worker(db, op))
  {
    hide Store.Deny, Store.ConsumeExecution, Store.EventRecorded, Store.ClockReached;
    match op
    case ConsumeExecution(sid, id, digest, tool, eventId, now) => ConsumeFinish(db, sid, id, digest, tool, eventId, now);
    case RecordViolation(sid, id, digest, code, eventId, now) =>
      if !Finished(db, sid) { DenyFinish(db, sid, id, digest, code, eventId, now); }
    case InterruptWorkerSession(_, _, _, _, _, _) =>
  }

  lemma RecordFaithful(db: Db, op: Op, sid: Id)
    requires op.RecordAudit? && Faithful(db, sid) && Numbered(LogOf(db.audit, sid)) && Numbered(LogOf(db.audit, op.sid))
    ensures Faithful(Audit(db, op), sid)
  {
    hide LogOf, Numbered, Store.ClockReached, Store.CanAppend, Store.AppendNext, Plans.CurrentRevoked;
    var body := WorkerEvent(op.boundaryId, op.digest, op.detail);
    AppendNextLog(db.audit, op.sid, op.eventId, op.now, body, sid);
  }

  lemma CompleteFaithful(db: Db, op: Op, sid: Id)
    requires op.CompleteWorkerSession?
    requires Faithful(db, sid) && Numbered(LogOf(db.audit, sid)) && Numbered(LogOf(db.audit, op.sid))
    ensures Faithful(Audit(db, op), sid)
  {
    hide LogOf, Numbered, Ordered, Store.ClockReached, Store.CanClose, Store.Close, Plans.CurrentRevoked;
    CloseLog(db.audit, op.sid, op.boundaryId, op.digest, op.resultDigest, op.firstId, op.secondId, op.now, sid);
    var log, after := LogOf(db.audit, sid), LogOf(Audit(db, op).audit, sid);
    if after != log {
      assert after[..|after| - 2] == log;
    }
  }

  lemma AllOfThem(audit: seq<AuditRow>, sid: Id)
    requires AllNumbered(audit)
    ensures Numbered(LogOf(audit, sid))
  {
  }

  lemma SameFaithful(db: Db, after: Db, sid: Id)
    requires after.sessions == db.sessions && after.executions == db.executions && after.events == db.events
    requires after.audit == db.audit && Faithful(db, sid)
    ensures Faithful(after, sid)
  {
    hide Faithful;
    FinishKept(db, after, sid);
  }

  lemma AuditFaithful(db: Db, op: Op, sid: Id)
    requires IsAudit(op) && !op.AppendAuditEvent? && Faithful(db, sid) && AllNumbered(db.audit)
    ensures Faithful(Audit(db, op), sid)
  {
    hide Faithful, Audit, AllNumbered;
    AllOfThem(db.audit, sid);
    AllOfThem(db.audit, op.sid);
    if op.RecordAudit? { RecordFaithful(db, op, sid); } else { CompleteFaithful(db, op, sid); }
  }

  lemma FaithfulStep(db: Db, op: Op, sid: Id)
    requires !op.AppendAuditEvent? && Faithful(db, sid)
    requires AllNumbered(db.audit)
    ensures Faithful(Apply(db, op), sid)
  {
    hide Apply, Faithful, AllNumbered, KeepsFinish, Lifecycle, Worker, Audit, Budgeting, Planning, Approving, Context;
    Leaves(db, op);
    if IsAudit(op) { InAudit(db, op); AuditFaithful(db, op, sid); }
    else if IsLifecycle(op) { InLifecycle(db, op); LifecycleFinish(db, op); FinishKept(db, Apply(db, op), sid); }
    else if IsWorker(op) { InWorker(db, op); WorkerFinish(db, op); FinishKept(db, Apply(db, op), sid); }
    else { SameFaithful(db, Apply(db, op), sid); }
  }

  /**
   * Over the service interface a session's events are in time order, its worker events bind claimed or
   * denied executions, and it is completed exactly when its log has been closed.
   */
  lemma {:induction false} ServedLogFaithful(ops: seq<Op>, sid: Id)
    requires Served(ops)
    ensures Faithful(Run(EmptyDb, ops), sid)
    ensures var db := Run(EmptyDb, ops); Finished(db, sid) <==> Closed(LogOf(db.audit, sid))
  {
    hide Apply, Faithful, AllNumbered;
    if |ops| > 0 {
      ServedLogFaithful(ops[..|ops| - 1], sid);
      SequencesExact(ops[..|ops| - 1]);
      FaithfulStep(Run(EmptyDb, ops[..|ops| - 1]), ops[|ops| - 1], sid);
    } else {
      EmptyFaithful(sid);
    }
    ClosedIffFinished(Run(EmptyDb, ops), sid);
  }

  lemma EmptyFaithful(sid: Id)
    ensures Faithful(EmptyDb, sid)
  {
  }

  lemma ClosedIffFinished(db: Db, sid: Id)
    requires Faithful(db, sid)
    ensures Finished(db, sid) <==> Closed(LogOf(db.audit, sid))
  {
    hide LogOf;
  }

  lemma EndedLogStep(db: Db, op: Op, sid: Id)
    requires Terminal.Ended(db, sid) && !op.AppendAuditEvent?
    ensures LogOf(Apply(db, op).audit, sid) == LogOf(db.audit, sid)
  {
    hide Where, ViewOf, Apply, Audit;
    Leaves(db, op);
    if IsAudit(op) {
      InAudit(db, op);
      if op.sid == sid { Terminal.AuditEnded(db, op, sid); } else { OtherLogKept(db, op, sid); }
    }
  }

  lemma OtherLogKept(db: Db, op: Op, sid: Id)
    requires IsAudit(op) && !Concerns(op, sid)
    ensures LogOf(Audit(db, op).audit, sid) == LogOf(db.audit, sid)
  {
    hide Audit, Where;
    AuditLocal(db, op, sid);
  }

  /** A completed session's log ends with the returned completion and the terminal event for ever. */
  lemma {:induction false} ClosedForever(db: Db, more: seq<Op>, sid: Id)
    requires Budgets.Linked(db) && Served(more)
    requires Finished(db, sid) && Closed(LogOf(db.audit, sid))
    ensures Finished(Run(db, more), sid) && LogOf(Run(db, more).audit, sid) == LogOf(db.audit, sid)
  {
    hide Apply, Budgets.Linked, LogOf, Closed;
    if |more| > 0 {
      ClosedForever(db, more[..|more| - 1], sid);
      EndedLogStep(Run(db, more[..|more| - 1]), more[|more| - 1], sid);
      Terminal.EndedForever(db, more, sid);
      SameSession(db, Run(db, more), sid);
    }
  }

  lemma SameSession(db: Db, after: Db, sid: Id)
    requires sid in db.sessions && Terminal.Final(ViewOf(db, sid), ViewOf(after, sid))
    ensures sid in after.sessions && after.sessions[sid] == db.sessions[sid]
  {
    hide Where, Terminal.Pointwise;
  }
}
