/** What a plan check promises: inspection agrees with consumption, and the pending queue is bounded. */
module PlanChecks {
  import opened Records
  import opened Rows
  import opened Runs
  import Plans

  function Inspection(request: Request, digest: Digest): Plans.PlanCheck {
    Plans.PlanCheck(request, digest, Plans.Inspect, None, None, None)
  }

  /**
   * A consumption is allowed exactly when a bare inspection at the same state and clock is, the
   * consumer names the inspected grant, and it has observed the inspected base branch (a merge must
   * have observed it). Both then give the same answer.
   */
  lemma ConsumeIffInspected(db: Db, request: Request, digest: Digest, expected: Option<Id>, observed: Option<Token>, now: Time)
    ensures var inspected := Plans.CheckPlan(db, Inspection(request, digest), now).value;
            var consumed :=
              Plans.CheckPlan(db, Plans.PlanCheck(request, digest, Plans.Consume, None, expected, observed), now).value;
            && (consumed.Allowed? <==>
                  && inspected.Allowed? && expected == Some(inspected.grantId)
                  && (observed == Some(inspected.baseBranch) || (observed.None? && !request.operation.Merge?)))
            && (consumed.Allowed? ==> consumed == inspected)
            && (consumed.Absent? <==> inspected.Absent?)
  {
    hide Plans.Covers, Plans.Enqueue, Plans.ConsumePlan, Plans.Replays;
  }

  /** An inspection that is allowed, or finds no plan, writes nothing. */
  lemma InspectionIsReadOnly(db: Db, input: Plans.PlanCheck, now: Time)
    requires input.phase == Plans.Inspect
    ensures var outcome := Plans.CheckPlan(db, input, now);
            && outcome.Committed?
            && (!outcome.value.Blocked? ==> outcome.db == db)
            && (outcome.value.Blocked? ==> outcome.db == db.(pending := outcome.db.pending))
  {
    hide Plans.Decide, Plans.Enqueue;
  }

  // ---- the pending queue

  predicate Bounded(pending: seq<PendingRow>, sid: Id) {
    && |Plans.Queue(pending, sid)| <= Plans.MAX_PENDING
    && Plans.ArrayBytes(Plans.Queue(pending, sid)) <= Plans.MAX_PENDING_BYTES
  }

  predicate Keyed(pending: seq<PendingRow>) {
    forall i, j :: 0 <= i < j < |pending| && pending[i].sessionId == pending[j].sessionId
      ==> pending[i].requestId != pending[j].requestId
  }

  lemma EnqueueBounded(pending: seq<PendingRow>, input: Plans.PlanCheck, reason: BlockReason, now: Time, sid: Id)
    requires Bounded(pending, sid)
    ensures Bounded(Plans.Enqueue(pending, input, reason, now), sid)
  {
    var request := input.request;
    var row := PendingRow(request.sessionId, request.requestId, request, input.requestDigest, reason, now);
    WhereAppend(pending, row, (r: PendingRow) => Plans.InSession(r, sid));
    SumAppend(Plans.Queue(pending, sid), row, Plans.RowBytes);
  }

  /** One more row adds to a selection at least what it adds to the selection after a deletion. */
  lemma DeleteAppend(before: seq<PendingRow>, last: PendingRow, first: PendingRow -> bool, keep: PendingRow -> bool)
    ensures var kept, all := Where(Where(before + [last], first), keep), Where(before + [last], keep);
            var keptBefore, allBefore := Where(Where(before, first), keep), Where(before, keep);
            && |kept| - |keptBefore| <= |all| - |allBefore|
            && Sum(kept, Plans.RowBytes) - Sum(keptBefore, Plans.RowBytes)
               <= Sum(all, Plans.RowBytes) - Sum(allBefore, Plans.RowBytes)
  {
    hide Where, Sum;
    WhereAppend(before, last, first);
    WhereAppend(before, last, keep);
    if keep(last) {
      SumAppend(Where(before, keep), last, Plans.RowBytes);
      if first(last) {
        WhereAppend(Where(before, first), last, keep);
        SumAppend(Where(Where(before, first), keep), last, Plans.RowBytes);
      }
    } else if first(last) {
      WhereAppend(Where(before, first), last, keep);
    }
  }

  lemma DeleteNothing(first: PendingRow -> bool, keep: PendingRow -> bool)
    ensures Where(Where([], first), keep) == Where([], keep) == []
  {
  }

  /** Deleting rows first never lengthens a selection or adds to a sum over it. */
  lemma {:induction false} DeleteShrinks(
    rows: seq<PendingRow>, first: PendingRow -> bool, keep: PendingRow -> bool)
    ensures |Where(Where(rows, first), keep)| <= |Where(rows, keep)|
    ensures Sum(Where(Where(rows, first), keep), Plans.RowBytes) <= Sum(Where(rows, keep), Plans.RowBytes)
  {
    hide Where, Sum;
    if |rows| == 0 {
      DeleteNothing(first, keep);
    } else {
      var before, last := rows[..|rows| - 1], rows[|rows| - 1];
      DeleteShrinks(before, first, keep);
      DeleteAppend(before, last, first, keep);
      assert rows == before + [last];
    }
  }

  lemma DequeueBounded(pending: seq<PendingRow>, sid: Id, requestId: Id, other: Id)
    requires Bounded(pending, other)
    ensures Bounded(Plans.Dequeue(pending, sid, requestId), other)
  {
    DeleteShrinks(pending, (row: PendingRow) => Plans.Kept(row, sid, requestId),
                  (row: PendingRow) => Plans.InSession(row, other));
  }

  lemma {:induction false} DeleteKeepsKeys(pending: seq<PendingRow>, keep: PendingRow -> bool)
    requires Keyed(pending)
    ensures Keyed(Where(pending, keep))
  {
    if |pending| > 0 {
      var before, last := pending[..|pending| - 1], pending[|pending| - 1];
      DeleteKeepsKeys(before, keep);
      assert pending == before + [last];
      WhereAppend(before, last, keep);
      var kept := Where(before, keep);
      forall i | 0 <= i < |kept| && kept[i].sessionId == last.sessionId ensures kept[i].requestId != last.requestId {
        assert kept[i] in before;
      }
    }
  }

  lemma EnqueueKeeps(pending: seq<PendingRow>, input: Plans.PlanCheck, reason: BlockReason, now: Time)
    requires Keyed(pending)
    ensures var after := Plans.Enqueue(pending, input, reason, now);
            Keyed(after) && forall row :: row in pending ==> row in after
  {
    hide Plans.Queue, Plans.ArrayBytes;
  }

  lemma DequeueKeeps(pending: seq<PendingRow>, sid: Id, requestId: Id)
    requires Keyed(pending)
    ensures var after := Plans.Dequeue(pending, sid, requestId);
            Keyed(after)
            && forall row :: row in pending && row !in after ==> row.sessionId == sid && row.requestId == requestId
  {
    DeleteKeepsKeys(pending, (row: PendingRow) => Plans.Kept(row, sid, requestId));
  }

  predicate Consumes(db: Db, op: Op, sid: Id, requestId: Id) {
    && op.CheckPlan? && op.check.phase == Plans.Consume && Plans.CheckPlan(db, op.check, op.now).value.Allowed?
    && op.check.request.sessionId == sid && op.check.request.requestId == requestId
  }

  lemma CheckKeepsQueue(db: Db, input: Plans.PlanCheck, now: Time)
    requires Keyed(db.pending) && forall sid :: Bounded(db.pending, sid)
    ensures var after := Plans.CheckPlan(db, input, now).db.pending;
            && Keyed(after)
            && (forall sid :: Bounded(after, sid))
            && (forall row :: row in db.pending && row !in after ==>
                  Consumes(db, CheckPlan(input, now), row.sessionId, row.requestId))
  {
    hide Plans.Decide, Plans.Enqueue, Plans.Dequeue, Bounded, Keyed;
    var request := input.request;
    var after := Plans.CheckPlan(db, input, now).db.pending;
    match Plans.Decide(db, input, now)
    case NoPlan =>
    case Deny(reason) =>
      EnqueueKeeps(db.pending, input, reason, now);
      forall sid ensures Bounded(after, sid) { EnqueueBounded(db.pending, input, reason, now, sid); }
    case Cover(_, _) =>
      if input.phase == Plans.Consume {
        forall sid ensures Bounded(after, sid) { DequeueBounded(db.pending, request.sessionId, request.requestId, sid); }
        DequeueKeeps(db.pending, request.sessionId, request.requestId);
      }
  }

  lemma QueueStep(db: Db, op: Op)
    requires Keyed(db.pending) && forall sid :: Bounded(db.pending, sid)
    ensures Keyed(Apply(db, op).pending) && forall sid :: Bounded(Apply(db, op).pending, sid)
    ensures forall row :: row in db.pending && row !in Apply(db, op).pending ==>
              Consumes(db, op, row.sessionId, row.requestId)
  {
    hide Keyed, Bounded, Consumes, Apply, Plans.CheckPlan, Plans.StorePlan;
    Leaves(db, op);
    if IsPlan(op) { InPlanning(db, op); }
    if op.CheckPlan? { CheckKeepsQueue(db, op.check, op.now); }
  }

  /** In every reachable state a session has at most 32 pending entries in at most 48 KiB of JSON. */
  lemma {:induction false} QueueReachable(ops: seq<Op>)
    ensures Keyed(Run(EmptyDb, ops).pending)
    ensures forall sid :: Bounded(Run(EmptyDb, ops).pending, sid)
  {
    hide Apply;
    if |ops| > 0 {
      QueueReachable(ops[..|ops| - 1]);
      QueueStep(Run(EmptyDb, ops[..|ops| - 1]), ops[|ops| - 1]);
    }
  }

  /** An entry is never rewritten: it stays as it is until a consumption of its own request removes it. */
  lemma {:induction false} EntryStays(first: seq<Op>, more: seq<Op>, row: PendingRow)
    requires row in Run(EmptyDb, first).pending
    requires forall k :: 0 <= k < |more| ==>
               !Consumes(Run(EmptyDb, first + more[..k]), more[k], row.sessionId, row.requestId)
    ensures row in Run(EmptyDb, first + more).pending
  {
    hide Apply, Consumes;
    if |more| == 0 {
      assert first + more == first;
    } else {
      var before, op := more[..|more| - 1], more[|more| - 1];
      forall k | 0 <= k < |before|
        ensures !Consumes(Run(EmptyDb, first + before[..k]), before[k], row.sessionId, row.requestId)
      {
        assert before[..k] == more[..k];
      }
      EntryStays(first, before, row);
      assert (first + more)[..|first + more| - 1] == first + before;
      QueueReachable(first + before);
      QueueStep(Run(EmptyDb, first + before), op);
    }
  }

  /**
   * The guard leaves out the comma before the new entry. From below the byte limit one proposal takes the
   * queue of its session to the limit exactly when it is new, follows another entry, and leaves that one byte.
   */
  lemma ByteLimitIffOneShort(pending: seq<PendingRow>, input: Plans.PlanCheck, reason: BlockReason, now: Time)
    requires Plans.ArrayBytes(Plans.Queue(pending, input.request.sessionId)) < Plans.MAX_PENDING_BYTES
    ensures var sid := input.request.sessionId;
            var existing := Plans.Queue(pending, sid);
            Plans.ArrayBytes(Plans.Queue(Plans.Enqueue(pending, input, reason, now), sid)) == Plans.MAX_PENDING_BYTES <==>
              && !Plans.Queued(pending, sid, input.request.requestId)
              && 0 < |existing| < Plans.MAX_PENDING
              && Plans.ArrayBytes(existing) + Plans.EntryBytes(input.request, reason) == Plans.MAX_PENDING_BYTES - 1
  {
    var request := input.request;
    var entry := PendingRow(request.sessionId, request.requestId, request, input.requestDigest, reason, now);
    WhereAppend(pending, entry, (row: PendingRow) => Plans.InSession(row, request.sessionId));
    SumAppend(Plans.Queue(pending, request.sessionId), entry, Plans.RowBytes);
  }

  // ---- the JSON text of the queue

  function ReasonText(reason: BlockReason): string {
    match reason
    case OutOfPlan => "out_of_plan"
    case PlanExpired => "expired"
    case PlanRevoked => "revoked"
    case PlanExhausted => "exhausted"
    case PlanReplayed => "replayed"
    case BindingMismatch => "binding_mismatch"
    case ResourceChanged => "resource_changed"
    case GuardianStepUp => "guardian_step_up"
    case GuardianDenied => "guardian_denied"
    case GuardianUnavailable => "guardian_unavailable"
    case GuardianConfirmationRequired => "guardian_confirmation_required"
  }

  /** One entry, around the text of its request, its digest and the time it was first seen. */
  function EntryText(request: string, digest: string, reason: BlockReason, seen: string): string {
    "{\"request\":" + (request + (",\"requestDigest\":\"" + (digest
    + ("\",\"reason\":\"" + (ReasonText(reason) + ("\",\"firstSeenAt\":\"" + (seen + "\"}")))))))
  }

  /** A JSON array of texts. */
  function ArrayText(entries: seq<string>): string { "[" + (Listed(entries) + "]") }

  function Listed(entries: seq<string>): string {
    if |entries| == 0 then ""
    else Listed(entries[..|entries| - 1]) + ((if |entries| == 1 then "" else ",") + entries[|entries| - 1])
  }

  /** The bytes counted for an entry are those of its text: a digest has 64 characters, a timestamp 24. */
  lemma EntryMeasured(row: PendingRow, request: string, digest: string, seen: string)
    requires |request| == row.request.wireBytes && |digest| == 64 && |seen| == 24
    ensures |EntryText(request, digest, row.reason, seen)| == Plans.RowBytes(row)
  {
  }

  lemma {:induction false} ListMeasured(rows: seq<PendingRow>, entries: seq<string>)
    requires |rows| == |entries| && forall i :: 0 <= i < |rows| ==> |entries[i]| == Plans.RowBytes(rows[i])
    ensures |Listed(entries)| == Sum(rows, Plans.RowBytes) + if |rows| == 0 then 0 else |rows| - 1
  {
    hide Plans.RowBytes;
    if |rows| > 0 {
      ListMeasured(rows[..|rows| - 1], entries[..|rows| - 1]);
    }
  }

  /** The bytes counted for a queue are those of the JSON array of its entries. */
  lemma QueueMeasured(rows: seq<PendingRow>, entries: seq<string>)
    requires |rows| == |entries| && forall i :: 0 <= i < |rows| ==> |entries[i]| == Plans.RowBytes(rows[i])
    ensures |ArrayText(entries)| == Plans.ArrayBytes(rows)
  {
    hide Plans.RowBytes;
    ListMeasured(rows, entries);
  }

  // ---- a run that reaches the limit

  const FILLING_SCOPE := Scope(0, 0, 1, 0, 1, 1)
  const FILLING_SESSION := Session(FILLING_SCOPE, 0, 1_000_000, Active, 0, 0)
  const FILLING_CONNECTION := Connection(5, 6, {ReadPermission}, true)
  const FILLING_TARGET := Target(false, 7, 5, 6, 1, 9, 8)
  const FILLING_GRANT :=
    Grant(2, Plan(1, FILLING_SCOPE, 1, 0, 1_000_000, 10, 0, [FILLING_TARGET]), OtherDigest(2), 0, false)

  /** A merge outside the plan: 1376 bytes of JSON, the last one a byte shorter. */
  function Proposal(k: nat): Request {
    Request(k, 1, FILLING_SCOPE, Some(7), Merge(5, 6, 1, 9), Some(PullRequest(5, 6, 1, 9)), if k < 31 then 1376 else 1375)
  }

  function Proposing(k: nat): Op { CheckPlan(Inspection(Proposal(k), RequestDigest(Proposal(k))), 1) }

  function Entry(k: nat): PendingRow { PendingRow(1, k, Proposal(k), RequestDigest(Proposal(k)), OutOfPlan, 1) }

  /** A session with a plan for reading one pull request, and k proposals to merge it. */
  function Filling(k: nat): seq<Op> {
    if k == 0 then
      [CreateConnection(7, FILLING_CONNECTION), CreateSession(1, FILLING_SESSION, Budget(0, 0, 0, 0), [7]),
       StorePlan(FILLING_GRANT, 0)]
    else Filling(k - 1) + [Proposing(k - 1)]
  }

  function Entries(k: nat): (rows: seq<PendingRow>)
    ensures |rows| == k && forall i :: 0 <= i < k ==> rows[i] == Entry(i)
  {
    if k == 0 then [] else Entries(k - 1) + [Entry(k - 1)]
  }

  function Filled(k: nat): Db {
    EmptyDb.(connections := map[7 := FILLING_CONNECTION], sessions := map[1 := FILLING_SESSION],
             budgets := map[1 := Budget(0, 0, 0, 0)], bindings := {(1, 7)},
             plans := [PlanRow(FILLING_GRANT, None, 0, 0)], pending := Entries(k))
  }

  lemma {:induction false} EntriesBytes(k: nat)
    requires k <= 32
    ensures Plans.Queue(Entries(k), 1) == Entries(k)
    ensures Sum(Entries(k), Plans.RowBytes) == 1535 * k - if k == 32 then 1 else 0
  {
    if k > 0 {
      EntriesBytes(k - 1);
      WhereAppend(Entries(k - 1), Entry(k - 1), (row: PendingRow) => Plans.InSession(row, 1));
      SumAppend(Entries(k - 1), Entry(k - 1), Plans.RowBytes);
    }
  }

  lemma ProposalBlocked(k: nat)
    ensures Plans.Decide(Filled(k), Inspection(Proposal(k), RequestDigest(Proposal(k))), 1) == Plans.Deny(OutOfPlan)
  {
    hide Entries;
    assert Plans.FindTarget([FILLING_TARGET], Proposal(k)).None?;
  }

  const CONNECTED := EmptyDb.(connections := map[7 := FILLING_CONNECTION])
  const LAUNCHED := CONNECTED.(
    sessions := map[1 := FILLING_SESSION], budgets := map[1 := Budget(0, 0, 0, 0)], bindings := {(1, 7)})

  lemma FillingConnects()
    ensures Lifecycle(EmptyDb, Filling(0)[0]) == CONNECTED
  {
  }

  lemma FillingLaunches()
    ensures Lifecycle(CONNECTED, Filling(0)[1]) == LAUNCHED
  {
    assert (set c | c in [7] :: (1, c)) == {(1, 7)};
  }

  lemma FillingPlans()
    ensures Planning(LAUNCHED, Filling(0)[2]) == Filled(0)
  {
    assert Plans.Storable(LAUNCHED, FILLING_GRANT, 0);
  }

  lemma FillingStarts()
    ensures Run(EmptyDb, Filling(0)) == Filled(0)
  {
    hide Apply, Lifecycle, Planning;
    var ops := Filling(0);
    FillingConnects();
    FillingLaunches();
    FillingPlans();
    InLifecycle(EmptyDb, ops[0]);
    InLifecycle(CONNECTED, ops[1]);
    InPlanning(LAUNCHED, ops[2]);
    assert ops == [ops[0], ops[1], ops[2]];
    assert ops[..1][..|ops[..1]| - 1] == [];
    assert ops[..2][..|ops[..2]| - 1] == ops[..1];
    assert Run(EmptyDb, ops[..1]) == Apply(EmptyDb, ops[0]) == CONNECTED;
    assert Run(EmptyDb, ops[..2]) == Apply(CONNECTED, ops[1]) == LAUNCHED;
  }

  lemma ProposalFits(k: nat)
    requires k < 32
    ensures Plans.Enqueue(Entries(k), Inspection(Proposal(k), RequestDigest(Proposal(k))), OutOfPlan, 1) == Entries(k + 1)
  {
    hide Plans.Queue, Plans.RowBytes;
    EntriesBytes(k);
  }

  lemma ProposalQueued(k: nat)
    requires k < 32
    ensures Planning(Filled(k), Proposing(k)) == Filled(k + 1)
  {
    hide Plans.Decide, Plans.Enqueue, Entries;
    ProposalFits(k);
    ProposalBlocked(k);
  }

  lemma {:induction false} FillingReaches(k: nat)
    requires k <= 32
    ensures Run(EmptyDb, Filling(k)) == Filled(k)
  {
    hide Apply, Planning, Filled;
    if k == 0 {
      FillingStarts();
    } else {
      FillingReaches(k - 1);
      ProposalQueued(k - 1);
      InPlanning(Filled(k - 1), Proposing(k - 1));
      assert Filling(k)[..|Filling(k)| - 1] == Filling(k - 1);
    }
  }

  /** The limit is reached from the empty store by 32 valid requests of under two kilobytes each. */
  lemma ByteLimitReached()
    ensures Plans.ArrayBytes(Plans.Queue(Run(EmptyDb, Filling(32)).pending, 1)) == Plans.MAX_PENDING_BYTES
    ensures forall op :: op in Filling(32) && op.CheckPlan? ==>
              op.check.request.Valid() && op.check.request.wireBytes <= 1376
  {
    hide Run, Plans.Queue, Plans.RowBytes;
    FillingReaches(32);
    EntriesBytes(32);
    FillingFits(32);
  }

  lemma {:induction false} FillingFits(k: nat)
    ensures forall op :: op in Filling(k) && op.CheckPlan? ==>
              op.check.request.Valid() && op.check.request.wireBytes <= 1376
  {
    if k > 0 { FillingFits(k - 1); }
  }
}
