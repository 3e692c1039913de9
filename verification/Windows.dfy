/** When the violation window holds: the exact condition under every clock. */
module Windows {
  import opened Records
  import opened Rows
  import opened Runs
  import opened Violations
  import Store

  /** No active session has reached the threshold in any closed window of the policy length. */
  ghost predicate WindowsHold(db: Db) {
    forall sid, to :: sid in db.sessions && db.sessions[sid].status == Active ==> Below(db.events, sid, to)
  }

  predicate Below(events: seq<BoundaryEvent>, sid: Id, to: Time) {
    Store.OrdinaryCount(events, sid, to - Store.WINDOW, to) < Store.THRESHOLD
  }

  /** A later ordinary violation, at most one window ahead, whose own window is one short of the threshold. */
  predicate Crowded(events: seq<BoundaryEvent>, sid: Id, now: Time, i: int) {
    && 0 <= i < |events| && Store.InWindow(events[i], sid, now + 1, now + Store.WINDOW)
    && Store.OrdinaryCount(events, sid, events[i].occurredAt - Store.WINDOW, events[i].occurredAt) >= Store.THRESHOLD - 1
  }

  /**
   * The consume path records an exhausted execution, the count up to its own time stays below the threshold,
   * and the violations already recorded after that time, which it never looks at, fill a window with it.
   */
  predicate Overlooked(db: Db, op: Op) {
    && DeniesExecution(db, op) && !Store.Replayed(db.executions, op.sid, op.executionId, op.digest)
    && Store.OrdinaryCount(db.events, op.sid, op.now - Store.WINDOW, op.now) < Store.THRESHOLD - 1
    && exists i :: 0 <= i < |db.events| && Crowded(db.events, op.sid, op.now, i)
  }

  predicate NoneOverlooked(ops: seq<Op>) {
    forall k :: 0 <= k < |ops| ==> !Overlooked(Run(EmptyDb, ops[..k]), ops[k])
  }

  // ---- counting

  lemma CountNarrow(events: seq<BoundaryEvent>, sid: Id, from: Time, to: Time, wideFrom: Time, wideTo: Time)
    requires forall i :: 0 <= i < |events| && Store.InWindow(events[i], sid, from, to) ==>
               Store.InWindow(events[i], sid, wideFrom, wideTo)
    ensures Store.OrdinaryCount(events, sid, from, to) <= Store.OrdinaryCount(events, sid, wideFrom, wideTo)
  {
    SumMonotone(events, Store.WindowWeight(sid, from, to), Store.WindowWeight(sid, wideFrom, wideTo));
  }

  lemma CountAdded(events: seq<BoundaryEvent>, event: BoundaryEvent, sid: Id, from: Time, to: Time)
    ensures Store.OrdinaryCount(events + [event], sid, from, to)
         == Store.OrdinaryCount(events, sid, from, to) + if Store.InWindow(event, sid, from, to) then 1 else 0
  {
    SumAppend(events, event, Store.WindowWeight(sid, from, to));
  }

  lemma CountNone(events: seq<BoundaryEvent>, sid: Id, from: Time, to: Time)
    requires forall i :: 0 <= i < |events| ==> events[i].sessionId != sid
    ensures Store.OrdinaryCount(events, sid, from, to) == 0
  {
    SumZero(events, Store.WindowWeight(sid, from, to));
  }

  predicate LatestIn(events: seq<BoundaryEvent>, sid: Id, from: Time, to: Time, i: int) {
    && 0 <= i < |events| && Store.InWindow(events[i], sid, from, to)
    && forall j :: 0 <= j < |events| && Store.InWindow(events[j], sid, from, to) ==>
         events[j].occurredAt <= events[i].occurredAt
  }

  lemma {:induction false} LatestExists(events: seq<BoundaryEvent>, sid: Id, from: Time, to: Time) returns (i: int)
    ensures i < 0 ==> forall j :: 0 <= j < |events| ==> !Store.InWindow(events[j], sid, from, to)
    ensures i >= 0 ==> LatestIn(events, sid, from, to, i)
  {
    if |events| == 0 { return -1; }
    var last := |events| - 1;
    i := LatestExists(events[..last], sid, from, to);
    if Store.InWindow(events[last], sid, from, to)
       && (i < 0 || events[i].occurredAt <= events[last].occurredAt)
    {
      i := last;
    }
  }

  /** A window that reaches past now and is nearly full has its last violation past now, and nearly full too. */
  lemma CrowdedIfNearlyFull(events: seq<BoundaryEvent>, sid: Id, now: Time, to: Time)
    requires now < to <= now + Store.WINDOW
    requires Store.OrdinaryCount(events, sid, now - Store.WINDOW, now) < Store.THRESHOLD - 1
    requires Store.OrdinaryCount(events, sid, to - Store.WINDOW, to) >= Store.THRESHOLD - 1
    ensures exists i :: 0 <= i < |events| && Crowded(events, sid, now, i)
  {
    hide Store.OrdinaryCount;
    var i := LatestExists(events, sid, now + 1, to);
    if i < 0 {
      forall j | 0 <= j < |events| && Store.InWindow(events[j], sid, to - Store.WINDOW, to)
        ensures Store.InWindow(events[j], sid, now - Store.WINDOW, now)
      {
        assert !Store.InWindow(events[j], sid, now + 1, to);
      }
      CountNarrow(events, sid, to - Store.WINDOW, to, now - Store.WINDOW, now);
    } else {
      var at := events[i].occurredAt;
      forall j | 0 <= j < |events| && Store.InWindow(events[j], sid, to - Store.WINDOW, to)
        ensures Store.InWindow(events[j], sid, at - Store.WINDOW, at)
      {
        if events[j].occurredAt > now { assert Store.InWindow(events[j], sid, now + 1, to); }
      }
      CountNarrow(events, sid, to - Store.WINDOW, to, at - Store.WINDOW, at);
      assert Crowded(events, sid, now, i);
    }
  }

  // ---- one transaction

  /** A tolerated event in time order fills no window. */
  lemma InTimeBelow(events: seq<BoundaryEvent>, event: BoundaryEvent, to: Time)
    requires Store.ClockReached(events, event.sessionId, event.occurredAt) && Tolerated(events + [event])
    requires Below(events, event.sessionId, to)
    ensures Below(events + [event], event.sessionId, to)
  {
    hide Store.OrdinaryCount;
    var after, sid, at := events + [event], event.sessionId, event.occurredAt;
    if Store.InWindow(event, sid, to - Store.WINDOW, to) {
      CountNarrow(after, sid, to - Store.WINDOW, to, at - Store.WINDOW, at);
    } else {
      CountAdded(events, event, sid, to - Store.WINDOW, to);
    }
  }

  /** A tolerated event that is not overlooked fills no window. */
  lemma NoticedBelow(events: seq<BoundaryEvent>, event: BoundaryEvent, to: Time)
    requires Tolerated(events + [event]) && event.kind.Violation? && Below(events, event.sessionId, to)
    requires forall i :: 0 <= i < |events| ==> !Crowded(events, event.sessionId, event.occurredAt, i)
    ensures Below(events + [event], event.sessionId, to)
  {
    hide Store.OrdinaryCount, Crowded;
    var sid, at := event.sessionId, event.occurredAt;
    CountAdded(events, event, sid, to - Store.WINDOW, to);
    CountAdded(events, event, sid, at - Store.WINDOW, at);
    if at < to <= at + Store.WINDOW && Store.OrdinaryCount(events, sid, to - Store.WINDOW, to) >= Store.THRESHOLD - 1 {
      CrowdedIfNearlyFull(events, sid, at, to);
    }
  }

  /** The event an exhausted execution records, and what it does to its session. */
  lemma ExhaustionRecorded(db: Db, op: Op)
    requires DeniesExecution(db, op) && !Store.Replayed(db.executions, op.sid, op.executionId, op.digest)
    ensures var after := Worker(db, op);
            var event := after.events[|db.events|];
            && after.events == db.events + [event] && event.sessionId == op.sid && event.occurredAt == op.now
            && event.kind.Violation? && event.severity == Ordinary
            && (Store.OrdinaryCount(db.events, op.sid, op.now - Store.WINDOW, op.now) < Store.THRESHOLD - 1 ==>
                  op.sid in after.sessions && after.sessions[op.sid].status == Active)
  {
    hide Store.OrdinaryCount, Store.EventRecorded, Store.Replayed, Store.Affordable, Store.Noticed;
    var event := Store.Denial(op.sid, op.executionId, op.digest, VolumeExhausted, op.eventId, op.now, ContinueSession);
    CountAdded(db.events, event, op.sid, op.now - Store.WINDOW, op.now);
  }

  lemma OverlookedEscapes(db: Db, op: Op)
    requires Overlooked(db, op)
    ensures !WindowsHold(Apply(db, op))
  {
    hide Apply, Worker, Store.OrdinaryCount, Store.Replayed, DeniesExecution;
    Denies(db, op);
    InWorker(db, op);
    ExhaustionRecorded(db, op);
    var i :| 0 <= i < |db.events| && Crowded(db.events, op.sid, op.now, i);
    var after := Apply(db, op);
    var to := db.events[i].occurredAt;
    CountAdded(db.events, after.events[|db.events|], op.sid, to - Store.WINDOW, to);
    assert !Below(after.events, op.sid, to);
  }

  lemma Denies(db: Db, op: Op)
    requires DeniesExecution(db, op)
    ensures op.ConsumeExecution?
  {
  }

  /** A replay is critical, so the session does not stay active. */
  lemma ReplayRevokes(db: Db, op: Op)
    requires DeniesExecution(db, op) && Store.Replayed(db.executions, op.sid, op.executionId, op.digest)
    ensures op.sid in Worker(db, op).sessions && Worker(db, op).sessions[op.sid].status == Revoked
  {
    hide Store.OrdinaryCount, Store.EventRecorded, Store.Replayed, Store.Affordable, Store.Noticed;
  }

  /** The event a step adds to a session that stays active: in time order, or recorded by the consume path unnoticed. */
  lemma AddedBelow(db: Db, op: Op, to: Time)
    requires Extends(db, Apply(db, op)) && Apply(db, op).events != db.events && !Overlooked(db, op)
    requires var event := Apply(db, op).events[|db.events|];
             && Apply(db, op).sessions[event.sessionId].status == Active && Below(db.events, event.sessionId, to)
    ensures var after := Apply(db, op); Below(after.events, after.events[|db.events|].sessionId, to)
  {
    hide Apply, Worker, Below, Store.OrdinaryCount, Store.Replayed, Crowded, DeniesExecution, Tolerated, Store.ClockReached;
    var after := Apply(db, op);
    var event := after.events[|db.events|];
    assert after.events == db.events + [event];
    if DeniesExecution(db, op) {
      Denies(db, op);
      InWorker(db, op);
      if Store.Replayed(db.executions, op.sid, op.executionId, op.digest) {
        ConsumeEvents(db, op);
        ReplayRevokes(db, op);
      } else {
        ExhaustionRecorded(db, op);
        ExhaustionBelow(db, op, event, to);
      }
    } else {
      StepInTime(db, op);
      InTimeBelow(db.events, event, to);
    }
  }

  lemma ExhaustionBelow(db: Db, op: Op, event: BoundaryEvent, to: Time)
    requires DeniesExecution(db, op) && !Store.Replayed(db.executions, op.sid, op.executionId, op.digest)
    requires !Overlooked(db, op) && Tolerated(db.events + [event]) && event.kind.Violation?
    requires event.sessionId == op.sid && event.occurredAt == op.now && Below(db.events, op.sid, to)
    ensures Below(db.events + [event], op.sid, to)
  {
    hide Store.OrdinaryCount, Store.Replayed, Crowded, Below;
    CountAdded(db.events, event, op.sid, op.now - Store.WINDOW, op.now);
    assert (db.events + [event])[|db.events|] == event;
    NoticedBelow(db.events, event, to);
  }

  /** Every transaction keeps the windows of the active sessions, unless it is overlooked; then one breaks. */
  lemma WindowsStep(db: Db, op: Op)
    requires Dispositions(db) && WindowsHold(db)
    ensures WindowsHold(Apply(db, op)) <==> !Overlooked(db, op)
  {
    hide Apply, Below, Overlooked, Tolerated;
    StepExtends(db, op);
    var after := Apply(db, op);
    if Overlooked(db, op) {
      OverlookedEscapes(db, op);
    } else {
      forall sid, to | sid in after.sessions && after.sessions[sid].status == Active ensures Below(after.events, sid, to) {
        if sid !in db.sessions {
          FreshBelow(db, sid, to);
        } else if after.events != db.events {
          assert after.events == db.events + [after.events[|db.events|]];
          if sid == after.events[|db.events|].sessionId { AddedBelow(db, op, to); }
          else { OthersBelow(db.events, after.events[|db.events|], sid, to); }
        }
      }
    }
  }

  lemma FreshBelow(db: Db, sid: Id, to: Time)
    requires Dispositions(db) && sid !in db.sessions
    ensures Below(db.events, sid, to)
  {
    CountNone(db.events, sid, to - Store.WINDOW, to);
  }

  lemma OthersBelow(events: seq<BoundaryEvent>, event: BoundaryEvent, sid: Id, to: Time)
    requires event.sessionId != sid && Below(events, sid, to)
    ensures Below(events + [event], sid, to)
  {
    CountAdded(events, event, sid, to - Store.WINDOW, to);
  }

  // ---- every run

  /**
   * Whatever the clock does: every state of a run keeps every active session below the threshold in every
   * closed window of the policy length exactly when no transaction of the run is overlooked.
   */
  lemma {:induction false} WindowsHoldIffNoneOverlooked(ops: seq<Op>)
    ensures (forall k :: 0 <= k <= |ops| ==> WindowsHold(Run(EmptyDb, ops[..k]))) <==> NoneOverlooked(ops)
  {
    hide Run, Overlooked, WindowsHold, Dispositions;
    if |ops| == 0 {
      assert ops[..0] == [];
      NothingHolds();
    } else {
      var n := |ops| - 1;
      var before := ops[..n];
      forall k | 0 <= k <= n ensures before[..k] == ops[..k] {}
      assert ops[..|ops|] == ops && before[..n] == before;
      WindowsHoldIffNoneOverlooked(before);
      if WindowsHold(Run(EmptyDb, before)) { LastStep(ops); }
    }
  }

  lemma LastStep(ops: seq<Op>)
    requires |ops| > 0 && WindowsHold(Run(EmptyDb, ops[..|ops| - 1]))
    ensures WindowsHold(Run(EmptyDb, ops)) <==> !Overlooked(Run(EmptyDb, ops[..|ops| - 1]), ops[|ops| - 1])
  {
    hide Apply, Overlooked, WindowsHold, Dispositions;
    ReachableDispositions(ops[..|ops| - 1]);
    WindowsStep(Run(EmptyDb, ops[..|ops| - 1]), ops[|ops| - 1]);
  }

  lemma NothingHolds()
    ensures WindowsHold(Run(EmptyDb, []))
  {
  }

  /** A crowded later event is one the clock guard would have stopped at. */
  lemma PacedIsNoticed(ops: seq<Op>)
    requires AllPaced(ops)
    ensures NoneOverlooked(ops)
  {
    hide Run, DeniesExecution, Store.OrdinaryCount, Store.Replayed;
    forall k | 0 <= k < |ops| ensures !Overlooked(Run(EmptyDb, ops[..k]), ops[k]) {
      assert Paced(Run(EmptyDb, ops[..k]), ops[k]);
    }
  }

  /** Pacing is more than the window needs: a denial may step back and still be noticed. */
  lemma PacingIsNotNeeded()
    ensures !AllPaced(BackwardsRun[..3]) && NoneOverlooked(BackwardsRun[..3])
  {
    hide Run, Store.OrdinaryCount;
    var ops := BackwardsRun[..3];
    var events := [Late(10, ToolNotAllowed, 400_000)];
    BackwardsSteps();
    CountLate(100_000, 400_000);
    assert ops[..2] == BackwardsRun[..2] && Run(EmptyDb, ops[..2]) == Backwards(events);
    assert events[0].occurredAt > ops[2].now;
    assert !Paced(Backwards(events), ops[2]);
    assert !Crowded(events, 1, ops[2].now, 0);
    assert !Overlooked(Backwards(events), ops[2]);
  }

  // ---- a clock that never runs backwards

  function ClockOf(op: Op): Option<Time> {
    match op
    case InterruptActiveSessions(now) => Some(now)
    case ConsumeToolCall(_, now) => Some(now)
    case ConsumeExecution(_, _, _, _, _, now) => Some(now)
    case RecordViolation(_, _, _, _, _, now) => Some(now)
    case InterruptWorkerSession(_, _, _, _, _, now) => Some(now)
    case RecordAudit(_, _, _, _, _, now) => Some(now)
    case CompleteWorkerSession(_, _, _, _, _, _, now) => Some(now)
    case ReserveResearch(_, _, _, now) => Some(now)
    case SettleResearch(_, _, _, now) => Some(now)
    case StorePlan(_, now) => Some(now)
    case RevokePlan(_, _, now) => Some(now)
    case CheckPlan(_, now) => Some(now)
    case ConsumeApproval(_, now) => Some(now)
    case _ => None
  }

  predicate NotAfter(op: Op, time: Time) { ClockOf(op).Some? ==> ClockOf(op).value <= time }

  predicate Steady(ops: seq<Op>) {
    forall i, j :: 0 <= i < j < |ops| && ClockOf(ops[j]).Some? ==> NotAfter(ops[i], ClockOf(ops[j]).value)
  }

  predicate EventsBy(events: seq<BoundaryEvent>, time: Time) {
    forall i :: 0 <= i < |events| ==> events[i].occurredAt <= time
  }

  lemma WorkerStamps(db: Db, op: Op, time: Time)
    requires IsWorker(op) && NotAfter(op, time) && EventsBy(db.events, time)
    ensures EventsBy(Worker(db, op).events, time)
  {
    hide Store.Revokes, Store.EventRecorded, Store.Replayed, Store.Affordable, Store.Noticed, Store.ClockReached, Store.Lapse;
  }

  lemma {:induction false} EventsStamped(ops: seq<Op>, time: Time)
    requires forall k :: 0 <= k < |ops| ==> NotAfter(ops[k], time)
    ensures EventsBy(Run(EmptyDb, ops).events, time)
  {
    hide Apply, Worker, EventsBy, NotAfter;
    if |ops| > 0 {
      var before, op := Run(EmptyDb, ops[..|ops| - 1]), ops[|ops| - 1];
      EventsStamped(ops[..|ops| - 1], time);
      Leaves(before, op);
      if IsWorker(op) { InWorker(before, op); WorkerStamps(before, op, time); }
    } else {
      NoEvents(time);
    }
  }

  lemma NoEvents(time: Time)
    ensures EventsBy([], time)
  {
  }

  /** A clock that never runs backwards paces every run, so it overlooks nothing. */
  lemma SteadyIsPaced(ops: seq<Op>)
    requires Steady(ops)
    ensures AllPaced(ops) && NoneOverlooked(ops)
  {
    hide Run, Store.Replayed, Store.Affordable, Store.EventRecorded, NoneOverlooked;
    forall k | 0 <= k < |ops| ensures Paced(Run(EmptyDb, ops[..k]), ops[k]) {
      if ops[k].ConsumeExecution? { EventsStamped(ops[..k], ops[k].now); }
    }
    PacedIsNoticed(ops);
  }
}
