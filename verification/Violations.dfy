/** The sliding violation window and the events that end a session. */
module Violations {
  import opened Records
  import opened Rows
  import opened Runs
  import Store
  import Plans
  import Budgets

  // ---- how the status of a session moves

  /** One row of the session table may change only by leaving the active state, keeping its bindings. */
  predicate Moves(before: Session, after: Session) {
    after == before
    || (before.status == Active && after.status != Active
        && after == before.(status := after.status, updatedAt := after.updatedAt))
  }

  predicate SessionsMove(before: map<Id, Session>, after: map<Id, Session>) {
    forall sid :: sid in before ==> sid in after && Moves(before[sid], after[sid])
  }

  // ---- events and dispositions

  predicate EndsItsSession(event: BoundaryEvent, sessions: map<Id, Session>) {
    && event.sessionId in sessions
    && (event.disposition == RevokeSession ==> sessions[event.sessionId].status == Revoked)
    && (event.disposition == InterruptSession ==> sessions[event.sessionId].status == Interrupted)
  }

  predicate RevokedBy(events: seq<BoundaryEvent>, sid: Id, i: int) {
    0 <= i < |events| && events[i].sessionId == sid && events[i].disposition == RevokeSession
  }

  predicate Explained(events: seq<BoundaryEvent>, sessions: map<Id, Session>) {
    forall sid :: sid in sessions && sessions[sid].status == Revoked ==>
      exists i :: 0 <= i < |events| && RevokedBy(events, sid, i)
  }

  /** Only the last event of a session can end it. */
  predicate LastWord(events: seq<BoundaryEvent>) {
    forall i, j :: 0 <= i < j < |events| && events[i].sessionId == events[j].sessionId
      ==> events[i].disposition == ContinueSession
  }

  predicate Dispositions(db: Db) {
    && (forall i :: 0 <= i < |db.events| ==> EndsItsSession(db.events[i], db.sessions))
    && Explained(db.events, db.sessions)
    && LastWord(db.events)
  }

  /** The last event was recorded without ending its session: ordinary, and below the threshold. */
  predicate Tolerated(events: seq<BoundaryEvent>) {
    && |events| > 0
    && var event := events[|events| - 1];
       && event.severity == Ordinary
       && Store.OrdinaryCount(events, event.sessionId, event.occurredAt - Store.WINDOW, event.occurredAt)
          < Store.THRESHOLD
  }

  /** The table after a transaction that moved sessions and added at most one event of an open session. */
  predicate Extends(db: Db, after: Db) {
    && SessionsMove(db.sessions, after.sessions)
    && (|| (after.events == db.events
            && (forall sid :: sid in after.sessions && after.sessions[sid].status == Revoked
                  ==> sid in db.sessions && db.sessions[sid].status == Revoked))
        || (&& |after.events| == |db.events| + 1 && after.events[..|db.events|] == db.events
            && var event := after.events[|db.events|];
               && event.sessionId in db.sessions && db.sessions[event.sessionId].status == Active
               && after.sessions.Keys == db.sessions.Keys
               && (forall sid :: sid in db.sessions && sid != event.sessionId ==> after.sessions[sid] == db.sessions[sid])
               && var status := after.sessions[event.sessionId].status;
                  && (event.disposition == ContinueSession <==> status == Active)
                  && (event.disposition == ContinueSession ==> Tolerated(after.events))
                  && (event.severity == Ordinary ==> event.kind.Violation?)
                  && (event.disposition == RevokeSession <==> status == Revoked)
                  && (event.disposition == InterruptSession <==> status == Interrupted)))
  }

  lemma SameExtends(db: Db, after: Db)
    requires after.events == db.events && after.sessions == db.sessions
    ensures Extends(db, after)
  {
  }

  lemma EndExtends(db: Db, after: Db, sid: Id, status: Status, now: Time)
    requires sid in db.sessions && db.sessions[sid].status == Active && status != Active && status != Revoked
    requires after.events == db.events && after.sessions == Store.WithStatus(db.sessions, sid, status, now)
    ensures Extends(db, after)
  {
  }

  lemma DenyExtends(
    db: Db, sid: Id, boundaryId: Id, digest: Digest, code: ViolationCode, eventId: Id, now: Time)
    requires sid in db.sessions ==> db.sessions[sid].status == Active
    ensures Extends(db, Store.Deny(db, sid, boundaryId, digest, code, eventId, now).After(db))
  {
    hide Store.OrdinaryCount, Store.EventRecorded;
  }

  /** The refusal of an unavailable session, shared by both denial paths. */
  lemma RefusalExtends(db: Db, after: Db, sid: Id, now: Time)
    requires sid in db.sessions && Store.Unavailable(db.sessions[sid], now).Some?
    requires after == db.(sessions :=
               Store.Noticed(db.sessions, sid, Store.Unavailable(db.sessions[sid], now).value, now))
    ensures Extends(db, after)
  {
    hide Extends;
    if Store.Unavailable(db.sessions[sid], now).value == Store.SessionExpired {
      EndExtends(db, after, sid, Expired, now);
    } else {
      SameExtends(db, after);
    }
  }

  lemma ConsumeExtends(db: Db, sid: Id, executionId: Id, digest: Digest, tool: Tool, eventId: Id, now: Time)
    ensures Extends(db, Store.ConsumeExecution(db, sid, executionId, digest, tool, eventId, now).After(db))
  {
    hide Extends, Store.Deny, Store.Replayed, Store.Affordable, Store.Noticed;
    var after := Store.ConsumeExecution(db, sid, executionId, digest, tool, eventId, now).After(db);
    var replay := Store.Replayed(db.executions, sid, executionId, digest);
    if sid !in db.sessions || sid !in db.budgets {
      SameExtends(db, after);
    } else if Store.Unavailable(db.sessions[sid], now).Some? {
      RefusalExtends(db, after, sid, now);
    } else if !replay && Store.Affordable(db.budgets[sid], tool) {
      SameExtends(db, after);
    } else {
      DenyExtends(db, sid, executionId, digest, if replay then ExecutionReplay else VolumeExhausted, eventId, now);
    }
  }

  lemma RecordExtends(
    db: Db, sid: Id, boundaryId: Id, digest: Digest, code: ViolationCode, eventId: Id, now: Time)
    ensures Extends(db, Store.RecordViolation(db, sid, boundaryId, digest, code, eventId, now).After(db))
  {
    hide Extends, Store.Deny, Store.ClockReached, Store.Noticed;
    var after := Store.RecordViolation(db, sid, boundaryId, digest, code, eventId, now).After(db);
    if !Store.ClockReached(db.events, sid, now) || sid !in db.sessions || sid !in db.budgets {
      SameExtends(db, after);
    } else if Store.Unavailable(db.sessions[sid], now).Some? {
      RefusalExtends(db, after, sid, now);
    } else {
      DenyExtends(db, sid, boundaryId, digest, code, eventId, now);
    }
  }

  lemma LapseExtends(db: Db, after: Db, sid: Id, now: Time)
    requires after == db.(sessions := Store.Lapse(db.sessions, sid, now))
    ensures Extends(db, after)
  {
    hide Extends;
    if after.sessions == db.sessions { SameExtends(db, after); } else { EndExtends(db, after, sid, Expired, now); }
  }

  lemma InterruptExtends(
    db: Db, sid: Id, boundaryId: Id, digest: Digest, failure: FailureCode, eventId: Id, now: Time)
    ensures Extends(db, Store.InterruptWorkerSession(db, sid, boundaryId, digest, failure, eventId, now).After(db))
  {
    hide Store.ClockReached, Store.EventRecorded, Store.Lapse;
    var after := Store.InterruptWorkerSession(db, sid, boundaryId, digest, failure, eventId, now).After(db);
    if Store.ClockReached(db.events, sid, now) && !Store.Open(db, sid, now) { LapseExtends(db, after, sid, now); }
  }

  lemma WorkerExtends(db: Db, op: Op)
    requires IsWorker(op)
    ensures Extends(db, Worker(db, op))
  {
    hide Extends, Store.ConsumeExecution, Store.RecordViolation, Store.InterruptWorkerSession;
    match op
    case ConsumeExecution(sid, id, digest, tool, eventId, now) => ConsumeExtends(db, sid, id, digest, tool, eventId, now);
    case RecordViolation(sid, id, digest, code, eventId, now) => RecordExtends(db, sid, id, digest, code, eventId, now);
    case InterruptWorkerSession(sid, id, digest, failure, eventId, now) =>
      InterruptExtends(db, sid, id, digest, failure, eventId, now);
  }

  lemma LifecycleExtends(db: Db, op: Op)
    requires IsLifecycle(op)
    ensures Extends(db, Lifecycle(db, op))
  {
  }

  lemma AuditExtends(db: Db, op: Op)
    requires IsAudit(op)
    ensures Extends(db, Audit(db, op))
  {
    hide Extends, Store.ClockReached, Store.CanAppend, Store.CanClose, Store.Close, Store.NextSequence, Store.Lapse;
    var after := Audit(db, op);
    if after.sessions == db.sessions { SameExtends(db, after); }
    else if Store.Open(db, op.sid, op.now) && !Plans.CurrentRevoked(db, op.sid) {
      EndExtends(db, after, op.sid, Completed, op.now);
    }
    else { LapseExtends(db, after, op.sid, op.now); }
  }

  lemma StepExtends(db: Db, op: Op)
    ensures Extends(db, Apply(db, op))
  {
    hide Extends, Apply, Lifecycle, Worker, Audit;
    Leaves(db, op);
    if IsLifecycle(op) { InLifecycle(db, op); LifecycleExtends(db, op); }
    else if IsWorker(op) { InWorker(db, op); WorkerExtends(db, op); }
    else if IsAudit(op) { InAudit(db, op); AuditExtends(db, op); }
    else { SameExtends(db, Apply(db, op)); }
  }

  lemma DispositionsKept(db: Db, after: Db)
    requires Dispositions(db) && Extends(db, after)
    ensures Dispositions(after)
  {
    if after.events != db.events {
      var n := |db.events|;
      forall i | 0 <= i < n ensures after.events[i] == db.events[i] {
        assert after.events[..n][i] == db.events[i];
      }
      forall sid | sid in after.sessions && after.sessions[sid].status == Revoked
        ensures exists i :: RevokedBy(after.events, sid, i)
      {
        if sid == after.events[n].sessionId {
          assert RevokedBy(after.events, sid, n);
        } else {
          assert sid in db.sessions && db.sessions[sid].status == Revoked;
          var i :| 0 <= i < n && RevokedBy(db.events, sid, i);
          assert after.events[i] == db.events[i];
          assert RevokedBy(after.events, sid, i);
        }
      }
    }
  }

  lemma {:induction false} ReachableDispositions(ops: seq<Op>)
    ensures Dispositions(Run(EmptyDb, ops))
  {
    hide Apply;
    if |ops| > 0 {
      var before := ops[..|ops| - 1];
      ReachableDispositions(before);
      StepExtends(Run(EmptyDb, before), ops[|ops| - 1]);
      DispositionsKept(Run(EmptyDb, before), Run(EmptyDb, ops));
    }
  }

  /** A session is revoked exactly when one event says so; that event is the only one and the last one. */
  lemma RevocationExplained(ops: seq<Op>, sid: Id)
    requires sid in Run(EmptyDb, ops).sessions
    ensures var db := Run(EmptyDb, ops);
            && (db.sessions[sid].status == Revoked <==> exists i :: RevokedBy(db.events, sid, i))
            && (forall i, j :: RevokedBy(db.events, sid, i) && 0 <= j < |db.events| && db.events[j].sessionId == sid
                  ==> j <= i && (RevokedBy(db.events, sid, j) ==> j == i))
  {
    hide Apply;
    ReachableDispositions(ops);
  }

  // ---- the window

  /** Events of one session are stored in time order. */
  predicate Chronological(events: seq<BoundaryEvent>) {
    forall i, j :: 0 <= i < j < |events| && events[i].sessionId == events[j].sessionId
      ==> events[i].occurredAt <= events[j].occurredAt
  }

  predicate ToleratedSessions(db: Db) {
    forall i :: 0 <= i < |db.events| && db.events[i].sessionId in db.sessions
                && db.sessions[db.events[i].sessionId].status == Active
      ==> Tolerated(db.events[..i + 1])
  }

  /** The execution is not granted to an open session, so the consume path records a violation for it. */
  predicate DeniesExecution(db: Db, op: Op) {
    && op.ConsumeExecution? && op.sid in db.sessions && op.sid in db.budgets
    && Store.Unavailable(db.sessions[op.sid], op.now).None?
    && (Store.Replayed(db.executions, op.sid, op.executionId, op.digest)
        || !Store.Affordable(db.budgets[op.sid], op.tool))
    && !Store.EventRecorded(db.events, op.eventId)
  }

  /**
   * The consume path is the only one that does not check the clock guard before it records a
   * violation. A transaction is paced when the guard would have let it through.
   */
  predicate Paced(db: Db, op: Op) {
    DeniesExecution(db, op) ==> Store.ClockReached(db.events, op.sid, op.now)
  }

  predicate AllPaced(ops: seq<Op>) {
    forall k :: 0 <= k < |ops| ==> Paced(Run(EmptyDb, ops[..k]), ops[k])
  }

  predicate AddsInTime(before: seq<BoundaryEvent>, after: seq<BoundaryEvent>) {
    || after == before
    || (&& |after| == |before| + 1 && after[..|before|] == before
        && Store.ClockReached(before, after[|before|].sessionId, after[|before|].occurredAt))
  }

  lemma ConsumeEvents(db: Db, op: Op)
    requires op.ConsumeExecution?
    ensures var after := Worker(db, op).events;
            if DeniesExecution(db, op)
            then |after| == |db.events| + 1 && after[..|db.events|] == db.events
                 && after[|db.events|].sessionId == op.sid && after[|db.events|].occurredAt == op.now
            else after == db.events
  {
    hide Store.Revokes, Store.EventRecorded, Store.Replayed, Store.Affordable, Store.Noticed;
  }

  lemma RecordInTime(
    db: Db, sid: Id, boundaryId: Id, digest: Digest, code: ViolationCode, eventId: Id, now: Time)
    ensures AddsInTime(db.events, Store.RecordViolation(db, sid, boundaryId, digest, code, eventId, now).After(db).events)
  {
    hide Store.Revokes, Store.EventRecorded, Store.ClockReached, Store.Noticed;
  }

  lemma WorkerInTime(db: Db, op: Op)
    requires IsWorker(op)
    ensures Paced(db, op) ==> AddsInTime(db.events, Worker(db, op).events)
    ensures Chronological(Worker(db, op).events) ==> Paced(db, op)
  {
    hide Store.ConsumeExecution, Store.RecordViolation, Store.EventRecorded, Store.Replayed;
    match op
    case ConsumeExecution(sid, _, _, _, _, now) =>
      ConsumeEvents(db, op);
      var after := Worker(db, op).events;
      if DeniesExecution(db, op) {
        forall i | 0 <= i < |db.events| ensures after[i] == db.events[i] { assert after[..|db.events|][i] == db.events[i]; }
      }
    case RecordViolation(sid, id, digest, code, eventId, now) => RecordInTime(db, sid, id, digest, code, eventId, now);
    case InterruptWorkerSession(_, _, _, _, _, _) =>
  }

  lemma OtherInTime(db: Db, after: Db, op: Op)
    requires !IsWorker(op) && after.events == db.events
    ensures Paced(db, op) && AddsInTime(db.events, after.events)
  {
  }

  lemma ExtendsPrefix(db: Db, after: Db)
    requires Extends(db, after)
    ensures db.events <= after.events
  {
  }

  lemma StepInTime(db: Db, op: Op)
    ensures Paced(db, op) ==> AddsInTime(db.events, Apply(db, op).events)
    ensures Chronological(Apply(db, op).events) ==> Paced(db, op)
    ensures db.events <= Apply(db, op).events
  {
    hide Paced, AddsInTime, Extends, Chronological, Apply, Worker;
    Leaves(db, op);
    if IsWorker(op) {
      InWorker(db, op);
      WorkerInTime(db, op);
      WorkerExtends(db, op);
      ExtendsPrefix(db, Apply(db, op));
    } else {
      OtherInTime(db, Apply(db, op), op);
    }
  }

  lemma ChronologyKept(before: seq<BoundaryEvent>, after: seq<BoundaryEvent>)
    requires Chronological(before) && AddsInTime(before, after)
    ensures Chronological(after)
  {
    forall i | 0 <= i < |before| && |after| > |before| ensures after[i] == before[i] {
      assert after[..|before|][i] == before[i];
    }
  }

  lemma ToleranceKept(db: Db, after: Db)
    requires ToleratedSessions(db) && Dispositions(db) && Extends(db, after)
    ensures ToleratedSessions(after)
  {
    hide Tolerated;
    var n := |db.events|;
    forall i | 0 <= i < |after.events| && after.events[i].sessionId in after.sessions
               && after.sessions[after.events[i].sessionId].status == Active
      ensures Tolerated(after.events[..i + 1])
    {
      if i < n {
        if after.events != db.events { assert after.events[i] == after.events[..n][i]; }
        assert after.events[i] == db.events[i];
        assert after.events[..i + 1] == db.events[..i + 1];
        assert db.events[i].sessionId in db.sessions;
      } else {
        assert after.events[..i + 1] == after.events;
      }
    }
  }

  /** However the clock moves: the last event recorded for an active session was tolerated when it was. */
  lemma {:induction false} ReachableTolerance(ops: seq<Op>)
    ensures ToleratedSessions(Run(EmptyDb, ops))
  {
    hide Apply;
    if |ops| > 0 {
      var before := ops[..|ops| - 1];
      ReachableTolerance(before);
      ReachableDispositions(before);
      StepExtends(Run(EmptyDb, before), ops[|ops| - 1]);
      ToleranceKept(Run(EmptyDb, before), Run(EmptyDb, ops));
    }
  }

  /** An active session has no critical violation, however the clock moves. */
  lemma NoCriticalWhileActive(ops: seq<Op>, sid: Id)
    requires sid in Run(EmptyDb, ops).sessions && Run(EmptyDb, ops).sessions[sid].status == Active
    ensures var events := Run(EmptyDb, ops).events;
            forall i :: 0 <= i < |events| && events[i].sessionId == sid ==>
              Tolerated(events[..i + 1]) && events[i].severity == Ordinary
  {
    hide Run, Store.OrdinaryCount;
    ReachableTolerance(ops);
    var events := Run(EmptyDb, ops).events;
    forall i | 0 <= i < |events| && events[i].sessionId == sid
      ensures Tolerated(events[..i + 1]) && events[i].severity == Ordinary
    {
      assert events[..i + 1][i] == events[i];
    }
  }

  /** With events in time order, a window holds no more than the window that ends at its last event. */
  lemma {:induction false} WindowBound(events: seq<BoundaryEvent>, sid: Id, to: Time)
    requires Chronological(events)
    requires forall i :: 0 <= i < |events| && events[i].sessionId == sid ==> Tolerated(events[..i + 1])
    ensures Store.OrdinaryCount(events, sid, to - Store.WINDOW, to) < Store.THRESHOLD
  {
    var from := to - Store.WINDOW;
    if |events| > 0 {
      var last := |events| - 1;
      var event := events[last];
      if Store.InWindow(event, sid, from, to) {
        assert events[..last + 1] == events;
        var low := Store.WindowWeight(sid, from, to);
        var high := Store.WindowWeight(sid, event.occurredAt - Store.WINDOW, event.occurredAt);
        SumMonotone(events, low, high);
      } else {
        forall i | 0 <= i < last && events[i].sessionId == sid ensures Tolerated(events[..last][..i + 1]) {
          assert events[..last][..i + 1] == events[..i + 1];
        }
        WindowBound(events[..last], sid, to);
      }
    }
  }

  /**
   * In a paced run, while a session is active it has no critical violation and, in every closed window of
   * the policy length, fewer ordinary violations than the threshold. Module Windows has the exact condition.
   */
  lemma ActiveSessionsTolerated(ops: seq<Op>, sid: Id, to: Time)
    requires AllPaced(ops)
    requires sid in Run(EmptyDb, ops).sessions && Run(EmptyDb, ops).sessions[sid].status == Active
    ensures var events := Run(EmptyDb, ops).events;
            && (forall i :: 0 <= i < |events| && events[i].sessionId == sid ==> events[i].severity == Ordinary)
            && Store.OrdinaryCount(events, sid, to - Store.WINDOW, to) < Store.THRESHOLD
  {
    hide Run, AllPaced, Store.OrdinaryCount;
    NoCriticalWhileActive(ops, sid);
    ChronologyIffPaced(ops);
    WindowBound(Run(EmptyDb, ops).events, sid, to);
  }

  /** The log of every session is in time order exactly when every recorded consume denial is paced. */
  lemma {:induction false} ChronologyIffPaced(ops: seq<Op>)
    ensures Chronological(Run(EmptyDb, ops).events) <==> AllPaced(ops)
  {
    hide Apply, Paced;
    if |ops| > 0 {
      var before, op := ops[..|ops| - 1], ops[|ops| - 1];
      assert forall k :: 0 <= k < |before| ==> before[..k] == ops[..k];
      ChronologyIffPaced(before);
      StepInTime(Run(EmptyDb, before), op);
      if AllPaced(ops) { ChronologyKept(Run(EmptyDb, before).events, Run(EmptyDb, ops).events); }
    }
  }

  /** The "not atomic" exceptions are unreachable: a denial of an open session always commits. */
  lemma DenialCommits(
    db: Db, sid: Id, boundaryId: Id, digest: Digest, code: ViolationCode, eventId: Id, now: Time)
    requires Budgets.Linked(db) && Store.Open(db, sid, now) && !Store.EventRecorded(db.events, eventId)
    ensures Store.Deny(db, sid, boundaryId, digest, code, eventId, now).Committed?
    ensures Store.ClockReached(db.events, sid, now)
        ==> Store.RecordViolation(db, sid, boundaryId, digest, code, eventId, now).Committed?
    ensures forall tool :: Store.ConsumeExecution(db, sid, boundaryId, digest, tool, eventId, now).Committed?
  {
    hide Store.Revokes, Store.ClockReached, Store.Replayed, Store.Affordable;
  }

  // ---- without the guard

  const QuietSession := Session(Scope(0, 0, 1, 0, 1, 1), 0, 1_000_000, Active, 0, 0)

  function Late(id: Id, code: ViolationCode, at: Time): BoundaryEvent {
    Store.Denial(1, id, OtherDigest(id), code, id, at, ContinueSession)
  }

  /** One violation on time, then two exhausted executions after the clock has stepped back. */
  const BackwardsRun: seq<Op> := [
    CreateSession(1, QuietSession, Budget(0, 0, 0, 0), []),
    RecordViolation(1, 10, OtherDigest(10), ToolNotAllowed, 10, 400_000),
    ConsumeExecution(1, 11, OtherDigest(11), SessionStatusTool, 11, 200_000),
    ConsumeExecution(1, 12, OtherDigest(12), SessionStatusTool, 12, 250_000)]

  function Backwards(events: seq<BoundaryEvent>): Db {
    EmptyDb.(sessions := map[1 := QuietSession], budgets := map[1 := Budget(0, 0, 0, 0)], events := events)
  }

  lemma CountAppend(events: seq<BoundaryEvent>, event: BoundaryEvent, from: Time, to: Time)
    ensures Store.OrdinaryCount(events + [event], 1, from, to)
         == Store.OrdinaryCount(events, 1, from, to) + if Store.InWindow(event, 1, from, to) then 1 else 0
  {
    SumAppend(events, event, Store.WindowWeight(1, from, to));
  }

  lemma CountLate(from: Time, to: Time)
    ensures var first, second, third := Late(10, ToolNotAllowed, 400_000), Late(11, VolumeExhausted, 200_000),
                                        Late(12, VolumeExhausted, 250_000);
            var one := if from <= 400_000 <= to then 1 else 0;
            var two := one + if from <= 200_000 <= to then 1 else 0;
            && Store.OrdinaryCount([first], 1, from, to) == one
            && Store.OrdinaryCount([first, second], 1, from, to) == two
            && Store.OrdinaryCount([first, second, third], 1, from, to) == two + if from <= 250_000 <= to then 1 else 0
  {
    var first, second, third := Late(10, ToolNotAllowed, 400_000), Late(11, VolumeExhausted, 200_000),
                                Late(12, VolumeExhausted, 250_000);
    CountAppend([], first, from, to);
    CountAppend([first], second, from, to);
    CountAppend([first, second], third, from, to);
    assert [] + [first] == [first] && [first] + [second] == [first, second]
           && [first, second] + [third] == [first, second, third];
  }

  /** A tolerated denial just adds its event. */
  lemma BackwardsStep(events: seq<BoundaryEvent>, op: Op, code: ViolationCode)
    requires (op.RecordViolation? && code == op.code && Store.ClockReached(events, 1, op.now))
          || (op.ConsumeExecution? && code == VolumeExhausted)
    requires op.sid == 1 && 0 <= op.now < 1_000_000 && op.digest == OtherDigest(op.eventId)
    requires op.eventId == if op.RecordViolation? then op.boundaryId else op.executionId
    requires !Store.EventRecorded(events, op.eventId)
    requires !Store.Revokes(events + [Late(op.eventId, code, op.now)], 1, code, op.now)
    ensures Apply(Backwards(events), op) == Backwards(events + [Late(op.eventId, code, op.now)])
  {
    hide Store.Revokes, Store.ClockReached, Store.EventRecorded;
    hide Lifecycle, Audit, Budgeting, Planning, Approving, Context;
  }

  lemma BackwardsSteps()
    ensures Run(EmptyDb, BackwardsRun[..1]) == Backwards([])
    ensures Run(EmptyDb, BackwardsRun[..2]) == Backwards([Late(10, ToolNotAllowed, 400_000)])
    ensures Run(EmptyDb, BackwardsRun[..3])
         == Backwards([Late(10, ToolNotAllowed, 400_000), Late(11, VolumeExhausted, 200_000)])
  {
    hide Store.OrdinaryCount;
    hide Worker, Audit, Budgeting, Planning, Approving, Context;
    var ops := BackwardsRun;
    var first, second := Late(10, ToolNotAllowed, 400_000), Late(11, VolumeExhausted, 200_000);
    assert ops[..1][..0] == [] && ops[..2][..1] == ops[..1] && ops[..3][..2] == ops[..2];
    assert (set c | c in ops[0].connectionIds :: (1, c)) == {};
    assert Run(EmptyDb, ops[..1]) == Backwards([]);
    assert [] + [first] == [first] && [first] + [second] == [first, second];
    CountLate(100_000, 400_000);
    CountLate(-100_000, 200_000);
    BackwardsStep([], ops[1], ToolNotAllowed);
    BackwardsStep([first], ops[2], VolumeExhausted);
  }

  /** A clock that steps back past the unguarded path leaves three violations in one window unnoticed. */
  lemma BackwardsClockEscapes()
    ensures var db := Run(EmptyDb, BackwardsRun);
            && !AllPaced(BackwardsRun)
            && 1 in db.sessions && db.sessions[1].status == Active
            && Store.OrdinaryCount(db.events, 1, 400_000 - Store.WINDOW, 400_000) == Store.THRESHOLD
  {
    hide Store.OrdinaryCount;
    hide Lifecycle, Worker, Audit, Budgeting, Planning, Approving, Context;
    var ops := BackwardsRun;
    var events := [Late(10, ToolNotAllowed, 400_000), Late(11, VolumeExhausted, 200_000)];
    var third := Late(12, VolumeExhausted, 250_000);
    BackwardsSteps();
    CountLate(-50_000, 250_000);
    CountLate(100_000, 400_000);
    assert ops[..4] == ops && ops[..|ops| - 1] == ops[..3];
    assert events + [third] == [Late(10, ToolNotAllowed, 400_000), Late(11, VolumeExhausted, 200_000), third];
    BackwardsStep(events, ops[3], VolumeExhausted);
    assert !Paced(Backwards(events), ops[3]) by {
      assert events[0].occurredAt > ops[3].now;
    }
  }
}
