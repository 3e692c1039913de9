/** Evidence, attempts and decisions: what a recorded decision can be traced back to. */
module Evidence {
  import opened Records
  import opened Runs
  import Store
  import Views

  /** An attempt cites evidence of its own session that had been retrieved by then. */
  predicate AttemptsFounded(exposures: map<Id, Exposure>, attempts: map<Id, Attempt>) {
    forall id :: id in attempts ==> Founded(exposures, attempts[id])
  }

  predicate Founded(exposures: map<Id, Exposure>, attempt: Attempt) {
    forall k :: 0 <= k < |attempt.exposureIds| ==>
      && attempt.exposureIds[k] in exposures
      && exposures[attempt.exposureIds[k]].sessionId == attempt.sessionId
      && exposures[attempt.exposureIds[k]].retrievedAt <= attempt.attemptedAt
  }

  /** A decision follows its own attempt, in the same session. */
  predicate DecisionsFollow(attempts: map<Id, Attempt>, decisions: seq<Decision>) {
    forall k :: 0 <= k < |decisions| ==>
      && decisions[k].attemptId in attempts
      && attempts[decisions[k].attemptId].sessionId == decisions[k].sessionId
      && attempts[decisions[k].attemptId].attemptedAt <= decisions[k].decidedAt
  }

  predicate DecidedOnce(decisions: seq<Decision>) {
    forall k, l :: 0 <= k < l < |decisions| ==>
      decisions[k].attemptId != decisions[l].attemptId && decisions[k].decisionId != decisions[l].decisionId
  }

  predicate Traceable(db: Db) {
    && AttemptsFounded(db.exposures, db.attempts)
    && DecisionsFollow(db.attempts, db.decisions) && DecidedOnce(db.decisions)
  }

  lemma ExposuresGrow(db: Db, batch: seq<Store.NewExposure>)
    ensures var after := Store.AppendExposures(db, batch).After(db).exposures;
            forall id :: id in db.exposures ==> id in after && after[id] == db.exposures[id]
  {
    if Store.AppendExposures(db, batch).Committed? {
      forall id | id in db.exposures
        ensures id in Store.AddExposures(db.exposures, batch) && Store.AddExposures(db.exposures, batch)[id] == db.exposures[id]
      {
        Views.AddedExposures(db.exposures, batch, id);
      }
    }
  }

  lemma ContextTraceable(db: Db, op: Op)
    requires Traceable(db) && IsContext(op)
    ensures Traceable(Context(db, op))
  {
    hide Store.AddExposures, Store.ExposureFits;
    if op.AppendExposures? { ExposuresGrow(db, op.batch); }
  }

  lemma SameTraceable(db: Db, after: Db)
    requires Traceable(db)
    requires after.exposures == db.exposures && after.attempts == db.attempts && after.decisions == db.decisions
    ensures Traceable(after)
  {
  }

  /**
   * In every reachable state each attempt has at most one decision, which follows it, and rests only on
   * evidence of its own session that had been retrieved by then.
   */
  lemma {:induction false} DecisionsTraceable(ops: seq<Op>)
    ensures Traceable(Run(EmptyDb, ops))
  {
    hide Apply, Context, Traceable;
    if |ops| > 0 {
      var before, op := Run(EmptyDb, ops[..|ops| - 1]), ops[|ops| - 1];
      DecisionsTraceable(ops[..|ops| - 1]);
      Leaves(before, op);
      if IsContext(op) { InContext(before, op); ContextTraceable(before, op); }
      else { SameTraceable(before, Run(EmptyDb, ops)); }
    } else {
      NothingTraced();
    }
  }

  lemma NothingTraced()
    ensures Traceable(EmptyDb)
  {
  }
}
