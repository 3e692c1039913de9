/** The ledger of session plans: versions, usage counters and one-use executions. */
module PlanLedger {
  import opened Records
  import opened Rows
  import opened Runs
  import Plans

  function Owner(row: PlanRow): Id { row.grant.plan.sessionId }
  function Version(row: PlanRow): int { row.grant.plan.version }

  /** Versions of a session grow by one from one, in insertion order. */
  predicate Versioned(plans: seq<PlanRow>) {
    && (forall i :: 0 <= i < |plans| ==> Version(plans[i]) >= 1)
    && (forall i, j :: 0 <= i < j < |plans| && Owner(plans[i]) == Owner(plans[j])
          ==> Version(plans[i]) < Version(plans[j]))
    && (forall i :: 0 <= i < |plans| && Version(plans[i]) > 1 ==> exists j :: 0 <= j < i && Precedes(plans, j, i))
  }

  predicate Precedes(plans: seq<PlanRow>, j: int, i: int)
    requires 0 <= i < |plans| && 0 <= j < |plans|
  {
    Owner(plans[j]) == Owner(plans[i]) && Version(plans[j]) == Version(plans[i]) - 1
  }

  predicate DistinctGrants(plans: seq<PlanRow>) {
    forall i, j :: 0 <= i < j < |plans| ==> plans[i].grant.grantId != plans[j].grant.grantId
  }

  function ActionsOf(grantId: Id): PlanExecution -> int {
    (e: PlanExecution) => if e.grantId == grantId then 1 else 0
  }

  function MutationsOf(grantId: Id): PlanExecution -> int {
    (e: PlanExecution) => if e.grantId == grantId && e.mutationKey.Some? then 1 else 0
  }

  /** The counters of a grant are its execution rows, and stay within the plan. */
  predicate Counted(row: PlanRow, executions: seq<PlanExecution>) {
    && row.usedActions == Sum(executions, ActionsOf(row.grant.grantId))
    && row.usedMutations == Sum(executions, MutationsOf(row.grant.grantId))
    && row.usedActions <= row.grant.plan.maxActions
    && row.usedMutations <= row.grant.plan.maxMutations
  }

  predicate AllCounted(plans: seq<PlanRow>, executions: seq<PlanExecution>) {
    forall i :: 0 <= i < |plans| ==> Counted(plans[i], executions)
  }

  /** Across every version, no request and no mutation of a session is executed twice. */
  predicate OneUse(executions: seq<PlanExecution>) {
    forall i, j :: 0 <= i < j < |executions| && executions[i].sessionId == executions[j].sessionId ==>
      && executions[i].requestId != executions[j].requestId
      && (executions[i].mutationKey.Some? ==> executions[i].mutationKey != executions[j].mutationKey)
  }

  predicate Granted(plans: seq<PlanRow>, execution: PlanExecution) {
    exists i :: 0 <= i < |plans| && plans[i].grant.grantId == execution.grantId
                && Owner(plans[i]) == execution.sessionId
  }

  predicate AllGranted(plans: seq<PlanRow>, executions: seq<PlanExecution>) {
    forall k :: 0 <= k < |executions| ==> Granted(plans, executions[k])
  }

  predicate Ledger(db: Db) {
    && Versioned(db.plans) && DistinctGrants(db.plans)
    && AllCounted(db.plans, db.planExecutions)
    && OneUse(db.planExecutions) && AllGranted(db.plans, db.planExecutions)
  }

  /** Same grants row by row: only counters and revocation marks may differ. */
  predicate SameGrants(plans: seq<PlanRow>, after: seq<PlanRow>) {
    |after| == |plans| && forall i :: 0 <= i < |plans| ==> after[i].grant == plans[i].grant
  }

  lemma SameGrantsKeep(plans: seq<PlanRow>, after: seq<PlanRow>, executions: seq<PlanExecution>)
    requires SameGrants(plans, after) && Versioned(plans) && DistinctGrants(plans) && AllGranted(plans, executions)
    ensures Versioned(after) && DistinctGrants(after) && AllGranted(after, executions)
  {
    forall i | 0 <= i < |after| && Version(after[i]) > 1 ensures exists j :: 0 <= j < i && Precedes(after, j, i) {
      var j :| 0 <= j < i && Precedes(plans, j, i);
      assert Precedes(after, j, i);
    }
    forall k | 0 <= k < |executions| ensures Granted(after, executions[k]) {
      assert Granted(plans, executions[k]);
      var i :| 0 <= i < |plans| && plans[i].grant.grantId == executions[k].grantId
               && Owner(plans[i]) == executions[k].sessionId;
      assert after[i].grant == plans[i].grant;
    }
  }

  /** The next version follows every stored one, and directly follows the current one. */
  lemma NextIsNew(plans: seq<PlanRow>, row: PlanRow)
    requires Versioned(plans) && Version(row) == Plans.NextVersion(plans, Owner(row))
    ensures Version(row) >= 1
    ensures forall i :: 0 <= i < |plans| && Owner(plans[i]) == Owner(row) ==> Version(plans[i]) < Version(row)
    ensures Version(row) > 1 ==>
              exists j :: 0 <= j < |plans| && Owner(plans[j]) == Owner(row) && Version(plans[j]) == Version(row) - 1
  {
    var at := Plans.Current(plans, Owner(row));
    if at >= 0 { assert Owner(plans[at]) == Owner(row) && Version(plans[at]) == Version(row) - 1; }
  }

  lemma PredecessorStays(plans: seq<PlanRow>, row: PlanRow, i: nat)
    requires Versioned(plans) && i < |plans| && Version(plans[i]) > 1
    ensures exists j :: 0 <= j < i && Precedes(plans + [row], j, i)
  {
    var j :| 0 <= j < i && Precedes(plans, j, i);
    assert (plans + [row])[i] == plans[i] && (plans + [row])[j] == plans[j];
    assert Precedes(plans + [row], j, i);
  }

  lemma StoreKeepsVersions(plans: seq<PlanRow>, row: PlanRow)
    requires Versioned(plans) && Version(row) == Plans.NextVersion(plans, Owner(row))
    ensures Versioned(plans + [row])
  {
    hide Plans.NextVersion;
    var after := plans + [row];
    var n := |plans|;
    NextIsNew(plans, row);
    forall i | 0 <= i < |after| && Version(after[i]) > 1 ensures exists j :: 0 <= j < i && Precedes(after, j, i) {
      if i < n {
        PredecessorStays(plans, row, i);
      } else {
        var j :| 0 <= j < n && Owner(plans[j]) == Owner(row) && Version(plans[j]) == Version(row) - 1;
        assert after[j] == plans[j];
        assert Precedes(after, j, n);
      }
    }
  }

  lemma StoreKeepsUse(plans: seq<PlanRow>, executions: seq<PlanExecution>, row: PlanRow)
    requires AllCounted(plans, executions) && AllGranted(plans, executions)
    requires forall i :: 0 <= i < |plans| ==> plans[i].grant.grantId != row.grant.grantId
    requires row.usedActions == 0 <= row.grant.plan.maxActions
    requires row.usedMutations == 0 <= row.grant.plan.maxMutations
    ensures AllCounted(plans + [row], executions) && AllGranted(plans + [row], executions)
  {
    var after := plans + [row];
    forall k | 0 <= k < |executions|
      ensures Granted(after, executions[k]) && executions[k].grantId != row.grant.grantId
    {
      assert Granted(plans, executions[k]);
      var i :| 0 <= i < |plans| && plans[i].grant.grantId == executions[k].grantId
               && Owner(plans[i]) == executions[k].sessionId;
      assert after[i] == plans[i];
    }
    SumZero(executions, ActionsOf(row.grant.grantId));
    SumZero(executions, MutationsOf(row.grant.grantId));
  }

  lemma StoreKeeps(db: Db, grant: Grant, now: Time)
    requires Ledger(db)
    ensures Ledger(Plans.StorePlan(db, grant, now).After(db))
  {
    hide Plans.Covers, Versioned, AllCounted, AllGranted, OneUse;
    if Plans.Storable(db, grant, now) {
      StoreKeepsVersions(db.plans, PlanRow(grant, None, 0, 0));
      StoreKeepsUse(db.plans, db.planExecutions, PlanRow(grant, None, 0, 0));
    }
  }

  lemma RevokeKeeps(db: Db, sid: Id, grantId: Id, now: Time)
    requires Ledger(db)
    ensures Ledger(Plans.RevokePlan(db, sid, grantId, now).After(db))
  {
    SameGrantsKeep(db.plans, Plans.RevokeRows(db.plans, sid, grantId, now), db.planExecutions);
  }

  lemma ChargeCounts(
    plans: seq<PlanRow>, executions: seq<PlanExecution>, index: nat, row: PlanExecution)
    requires index < |plans| && DistinctGrants(plans) && AllCounted(plans, executions)
    requires row.grantId == plans[index].grant.grantId
    requires plans[index].usedActions < plans[index].grant.plan.maxActions
    requires row.mutationKey.Some? ==> plans[index].usedMutations < plans[index].grant.plan.maxMutations
    ensures AllCounted(plans[index := Plans.Charge(plans[index], row.mutationKey.Some?)], executions + [row])
  {
    var after := plans[index := Plans.Charge(plans[index], row.mutationKey.Some?)];
    forall i | 0 <= i < |after| ensures Counted(after[i], executions + [row]) {
      assert Counted(plans[i], executions);
      SumAppend(executions, row, ActionsOf(after[i].grant.grantId));
      SumAppend(executions, row, MutationsOf(after[i].grant.grantId));
    }
  }

  lemma ConsumeIsFresh(executions: seq<PlanExecution>, row: PlanExecution)
    requires OneUse(executions)
    requires forall i :: 0 <= i < |executions| ==>
                           !Plans.Replays(executions[i], row.sessionId, row.requestId, row.mutationKey)
    ensures OneUse(executions + [row])
  {
    forall i | 0 <= i < |executions| ensures !Plans.Replays(executions[i], row.sessionId, row.requestId, row.mutationKey) {
    }
  }

  lemma ConsumeKeeps(db: Db, input: Plans.PlanCheck, index: int, target: Target, now: Time)
    requires Ledger(db) && Plans.Coverage(db, input, index, target, now)
    requires index == Plans.Current(db.plans, input.request.sessionId)
    ensures Ledger(Plans.ConsumePlan(db, input, index, target, now))
  {
    hide Plans.Covers, Plans.Matches, Versioned, OneUse;
    var after := Plans.ConsumePlan(db, input, index, target, now);
    var row := after.planExecutions[|db.planExecutions|];
    ChargeCounts(db.plans, db.planExecutions, index, row);
    SameGrantsKeep(db.plans, after.plans, db.planExecutions);
    ConsumeIsFresh(db.planExecutions, row);
    assert Granted(after.plans, row) by {
      assert after.plans[index].grant == db.plans[index].grant;
    }
  }

  lemma PlanningKeeps(db: Db, op: Op)
    requires Ledger(db) && IsPlan(op)
    ensures Ledger(Planning(db, op))
  {
    hide Ledger, Plans.Decide, Plans.StorePlan, Plans.RevokePlan, Plans.ConsumePlan, Plans.Enqueue;
    match op
    case StorePlan(grant, now) => StoreKeeps(db, grant, now);
    case RevokePlan(sid, grantId, now) => RevokeKeeps(db, sid, grantId, now);
    case CheckPlan(check, now) =>
      var verdict := Plans.Decide(db, check, now);
      if verdict.Cover? && check.phase == Plans.Consume {
        ConsumeKeeps(db, check, verdict.index, verdict.target, now);
      } else {
        SamePlansKeep(db, Planning(db, op));
      }
  }

  lemma SamePlansKeep(db: Db, after: Db)
    requires Ledger(db) && after.plans == db.plans && after.planExecutions == db.planExecutions
    ensures Ledger(after)
  {
  }

  lemma LedgerStep(db: Db, op: Op)
    requires Ledger(db)
    ensures Ledger(Apply(db, op))
  {
    hide Ledger, Apply, Lifecycle, Worker, Audit, Budgeting, Planning, Approving, Context;
    Leaves(db, op);
    if IsPlan(op) { InPlanning(db, op); PlanningKeeps(db, op); } else { SamePlansKeep(db, Apply(db, op)); }
  }

  /** In every reachable state the ledger of every session is sound. */
  lemma {:induction false} LedgerReachable(ops: seq<Op>)
    ensures Ledger(Run(EmptyDb, ops))
  {
    hide Apply;
    if |ops| > 0 {
      LedgerReachable(ops[..|ops| - 1]);
      LedgerStep(Run(EmptyDb, ops[..|ops| - 1]), ops[|ops| - 1]);
    }
  }

  /** Every version below a stored one is stored too, and only once. */
  lemma {:induction false} VersionStored(plans: seq<PlanRow>, i: nat, version: int)
    returns (j: nat)
    requires Versioned(plans) && i < |plans| && 1 <= version <= Version(plans[i])
    ensures j <= i && Owner(plans[j]) == Owner(plans[i]) && Version(plans[j]) == version
    ensures forall k :: 0 <= k < |plans| && Owner(plans[k]) == Owner(plans[i]) && Version(plans[k]) == version ==> k == j
    decreases i
  {
    if version == Version(plans[i]) {
      j := i;
    } else {
      var p: nat :| p < i && Precedes(plans, p, i);
      j := VersionStored(plans, p, version);
    }
  }

  /** The versions of a session are exactly one up to the current one, each stored once. */
  lemma PlanVersions(ops: seq<Op>, sid: Id, version: int)
    ensures var plans := Run(EmptyDb, ops).plans;
            var current := Plans.Current(plans, sid);
            && ((exists i :: 0 <= i < |plans| && Owner(plans[i]) == sid && Version(plans[i]) == version)
                <==> current >= 0 && 1 <= version <= Version(plans[current]))
            && (forall i, j :: 0 <= i < j < |plans| && Owner(plans[i]) == Owner(plans[j]) == sid
                  ==> Version(plans[i]) != Version(plans[j]))
  {
    hide Run;
    LedgerReachable(ops);
    var plans := Run(EmptyDb, ops).plans;
    var current := Plans.Current(plans, sid);
    if current >= 0 && 1 <= version <= Version(plans[current]) {
      var j := VersionStored(plans, current, version);
    }
  }

  // ---- superseded grants

  predicate Superseded(plans: seq<PlanRow>, i: nat) {
    i < |plans| && Version(plans[i]) < Version(plans[Plans.Current(plans, Owner(plans[i]))])
  }

  predicate SameUse(before: PlanRow, after: PlanRow) {
    after == before.(revokedAt := after.revokedAt)
  }

  /** A plan transaction charges the current row of a session, marks rows revoked, or adds a row. */
  ghost predicate Settles(plans: seq<PlanRow>, after: seq<PlanRow>) {
    && |plans| <= |after|
    && (forall k :: 0 <= k < |plans| ==> after[k].grant == plans[k].grant)
    && (forall k :: 0 <= k < |plans| && k != Plans.Current(plans, Owner(plans[k])) ==> SameUse(plans[k], after[k]))
  }

  lemma CheckSettles(db: Db, check: Plans.PlanCheck, now: Time)
    ensures Settles(db.plans, Plans.CheckPlan(db, check, now).After(db).plans)
  {
    hide Plans.Decide, Plans.Enqueue, Plans.Dequeue, Plans.Current, Settles;
    SameSettles(db.plans);
    match Plans.Decide(db, check, now)
    case NoPlan =>
    case Deny(_) =>
    case Cover(index, target) =>
      assert Owner(db.plans[index]) == check.request.sessionId by { CurrentOwned(db.plans, check.request.sessionId); }
      ChargeSettles(db.plans, index, target.merge);
  }

  lemma CurrentOwned(plans: seq<PlanRow>, sid: Id)
    ensures Plans.Current(plans, sid) >= 0 ==> Owner(plans[Plans.Current(plans, sid)]) == sid
  {
  }

  lemma SameSettles(plans: seq<PlanRow>)
    ensures Settles(plans, plans)
  {
  }

  lemma ChargeSettles(plans: seq<PlanRow>, index: nat, mutation: bool)
    requires index < |plans| && index == Plans.Current(plans, Owner(plans[index]))
    ensures Settles(plans, plans[index := Plans.Charge(plans[index], mutation)])
  {
    hide Plans.Current;
  }

  lemma PlanningSettles(db: Db, op: Op)
    requires IsPlan(op)
    ensures Settles(db.plans, Planning(db, op).plans)
  {
    hide Plans.CheckPlan, Plans.Storable, Plans.Current;
    if op.CheckPlan? { CheckSettles(db, op.check, op.now); }
  }

  lemma SettlesFreezes(plans: seq<PlanRow>, after: seq<PlanRow>, i: nat)
    requires Settles(plans, after) && Superseded(plans, i)
    ensures Superseded(after, i) && SameUse(plans[i], after[i])
  {
    var current := Plans.Current(plans, Owner(plans[i]));
    assert Version(after[current]) == Version(plans[current]) && Owner(after[current]) == Owner(plans[i]);
  }

  lemma PlanningFreezes(db: Db, op: Op, i: nat)
    requires IsPlan(op) && Superseded(db.plans, i)
    ensures Superseded(Planning(db, op).plans, i) && SameUse(db.plans[i], Planning(db, op).plans[i])
  {
    hide Planning, Superseded, Settles, Plans.Current;
    PlanningSettles(db, op);
    SettlesFreezes(db.plans, Planning(db, op).plans, i);
  }

  /** Once a later version is stored, a grant's counters never change again. */
  lemma {:induction false} SupersededFrozen(db: Db, ops: seq<Op>, i: nat)
    requires Superseded(db.plans, i)
    ensures Superseded(Run(db, ops).plans, i) && SameUse(db.plans[i], Run(db, ops).plans[i])
  {
    hide Superseded, Apply, Planning;
    if |ops| > 0 {
      var before, op := ops[..|ops| - 1], ops[|ops| - 1];
      SupersededFrozen(db, before, i);
      Leaves(Run(db, before), op);
      if IsPlan(op) { InPlanning(Run(db, before), op); PlanningFreezes(Run(db, before), op, i); }
    }
  }
}
