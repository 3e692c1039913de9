/** The durable research services: reserve, search, record, settle; any number interleaved over one store. */
module Research {
  import opened Records
  import R = Runs
  import Store
  import Budgets
  import Conditions

  datatype Pc =
    | Reserving
    | Searching(reservationId: Id)
    | Recording(reservationId: Id, batch: seq<Store.NewExposure>)
    | Settling(reservationId: Id, accepted: nat)
    | Denied
    | Settled(reservationId: Id, accepted: nat, reached: bool)

  /** A search asks for as many results as its request allows; an extraction reserves one. */
  datatype Request = Search(maxResults: nat) | Extract

  datatype Job = Job(sessionId: Id, request: Request, pc: Pc)

  function Wanted(j: Job): nat {
    match j.request case Search(maxResults) => maxResults case Extract => 1
  }

  /**
   * What the ledger makes of a provider's answer: one exposure for each result. It throws when a search was
   * given more results than it asked for; an extraction gives exactly one.
   */
  function Ledger(request: Request, found: Option<seq<Store.NewExposure>>): Option<seq<Store.NewExposure>> {
    if found.None? then None
    else
      match request
      case Search(maxResults) => if |found.value| > maxResults then None else found
      case Extract => if |found.value| != 1 then None else found
  }

  datatype Delivery = Delivered | LostBefore | LostAfter

  /** The provider answers with any number of results, or fails. */
  datatype Choice = Choice(delivery: Delivery, storeNow: Time, freshId: Id, found: Option<seq<Store.NewExposure>>)

  function Ask(j: Job, c: Choice): Option<R.Op> {
    match j.pc
    case Reserving => Some(R.ReserveResearch(j.sessionId, Wanted(j), c.freshId, c.storeNow))
    case Recording(_, batch) => Some(R.AppendExposures(batch))
    case Settling(id, accepted) => Some(R.SettleResearch(id, j.sessionId, accepted, c.storeNow))
    case _ => None
  }

  predicate Reserves(j: Job, db: Db, c: Choice) {
    var o := Store.ReserveResearch(db, j.sessionId, Wanted(j), c.freshId, c.storeNow);
    o.Committed? && o.value.Some?
  }

  predicate RecordsEvidence(j: Job, db: Db, c: Choice) {
    j.pc.Recording? && c.delivery == Delivered && Store.AppendExposures(db, j.pc.batch).Committed?
  }

  /** A lost reservation answer ends the job: it never learns what it reserved. */
  function Advance(j: Job, db: Db, c: Choice): Job {
    match j.pc
    case Reserving =>
      j.(pc := if c.delivery == Delivered && Reserves(j, db, c) then Searching(c.freshId) else Denied)
    case Searching(id) =>
      var evidence := Ledger(j.request, c.found);
      j.(pc := if evidence.Some? then Recording(id, evidence.value) else Settling(id, 0))
    case Recording(id, batch) => j.(pc := Settling(id, if RecordsEvidence(j, db, c) then |batch| else 0))
    case Settling(id, accepted) => j.(pc := Settled(id, accepted, c.delivery != LostBefore))
    case _ => j
  }

  /** The settlements asked for, by job, and the results whose evidence a job knows to be recorded. */
  datatype World = World(db: Db, jobs: seq<Job>, settlements: seq<nat>, recorded: map<nat, nat>)

  datatype Move = Elsewhere(op: R.Op) | Start(sessionId: Id, request: Request) | Proceed(i: nat, choice: Choice)

  function IdOf(j: Job): Option<Id> {
    match j.pc
    case Searching(id) => Some(id)
    case Recording(id, _) => Some(id)
    case Settling(id, _) => Some(id)
    case Settled(id, _, _) => Some(id)
    case _ => None
  }

  /** Reservation identifiers are random: nobody else settles a job's reservation. */
  predicate Foreign(w: World, op: R.Op) {
    op.SettleResearch? ==> forall i :: 0 <= i < |w.jobs| ==> IdOf(w.jobs[i]) != Some(op.reservationId)
  }

  function Act(w: World, move: Move): World {
    match move
    case Elsewhere(op) => if Foreign(w, op) then w.(db := R.Apply(w.db, op)) else w
    case Start(sessionId, request) => w.(jobs := w.jobs + [Job(sessionId, request, Reserving)])
    case Proceed(i, c) =>
      if i >= |w.jobs| then w
      else
        var asked := Ask(w.jobs[i], c);
        World(
          if asked.Some? && c.delivery != LostBefore then R.Apply(w.db, asked.value) else w.db,
          w.jobs[i := Advance(w.jobs[i], w.db, c)],
          if w.jobs[i].pc.Settling? then w.settlements + [i] else w.settlements,
          if RecordsEvidence(w.jobs[i], w.db, c) then w.recorded[i := |w.jobs[i].pc.batch|] else w.recorded)
  }

  const NOTHING := World(EmptyDb, [], [], map[])

  function Play(moves: seq<Move>): World {
    if |moves| == 0 then NOTHING else Act(Play(moves[..|moves| - 1]), moves[|moves| - 1])
  }

  // ---- one step, spelled out

  /** A search reserves what it may return, an extraction one result. */
  predicate Reservable(j: Job, db: Db, freshId: Id, now: Time) {
    var wanted := if j.request == Extract then 1 else j.request.maxResults;
    && 1 <= wanted <= 3 && Conditions.Live(db, j.sessionId, now) && j.sessionId in db.budgets
    && db.budgets[j.sessionId].toolCalls > 0 && db.budgets[j.sessionId].researchRequests > 0
    && wanted <= db.budgets[j.sessionId].researchResults
    && (forall row :: row in db.reservations ==> row.reservationId != freshId)
  }

  /** As many results as a search allows at most, exactly one for an extraction. */
  predicate Usable(request: Request, found: Option<seq<Store.NewExposure>>) {
    found.Some? && if request == Extract then |found.value| == 1 else |found.value| <= request.maxResults
  }

  /** One to three results with fresh identifiers, each retrieved in the lifetime of its session. */
  predicate Recordable(db: Db, batch: seq<Store.NewExposure>) {
    && 1 <= |batch| <= 3
    && (forall i, k :: 0 <= i < k < |batch| ==> batch[i].exposureId != batch[k].exposureId)
    && (forall e :: e in batch ==>
          && e.exposureId !in db.exposures
          && Conditions.WithinSession(db, e.exposure.sessionId, e.exposure.retrievedAt))
  }

  /**
   * A job searches exactly when its reservation was made and it learns so, records exactly a usable answer, and
   * settles for the results it knows to be recorded, or for none.
   */
  lemma StepJudged(j: Job, db: Db, c: Choice)
    ensures var next := Advance(j, db, c);
            && next == j.(pc := next.pc)
            && (j.pc == Reserving ==>
                  next.pc == if c.delivery == Delivered && Reservable(j, db, c.freshId, c.storeNow)
                             then Searching(c.freshId) else Denied)
            && (j.pc.Searching? ==>
                  next.pc == if Usable(j.request, c.found) then Recording(j.pc.reservationId, c.found.value)
                             else Settling(j.pc.reservationId, 0))
            && (j.pc.Recording? ==>
                  next.pc == Settling(j.pc.reservationId,
                                      if c.delivery == Delivered && Recordable(db, j.pc.batch) then |j.pc.batch| else 0))
            && (j.pc.Settling? ==> next.pc == Settled(j.pc.reservationId, j.pc.accepted, c.delivery != LostBefore))
            && (j.pc == Denied || j.pc.Settled? ==> next == j)
  {
    hide Store.ReserveResearch, Store.AppendExposures, Conditions.Live, Conditions.WithinSession;
    Conditions.ReservationMade(db, j.sessionId, Wanted(j), c.freshId, c.storeNow);
    if j.pc.Recording? { Conditions.ExposuresRecorded(db, j.pc.batch); }
  }

  /** What a job asks of the store, and when what it recorded and settled is noted. */
  lemma MoveJudged(w: World, i: nat, c: Choice)
    requires i < |w.jobs|
    ensures var after, j := Act(w, Proceed(i, c)), w.jobs[i];
            var asked := if j.pc == Reserving
                         then Some(R.ReserveResearch(
                                j.sessionId, if j.request == Extract then 1 else j.request.maxResults, c.freshId, c.storeNow))
                         else if j.pc.Recording? then Some(R.AppendExposures(j.pc.batch))
                         else if j.pc.Settling?
                         then Some(R.SettleResearch(j.pc.reservationId, j.sessionId, j.pc.accepted, c.storeNow))
                         else None;
            && after.db == (if asked.Some? && c.delivery != LostBefore then R.Apply(w.db, asked.value) else w.db)
            && after.jobs == w.jobs[i := Advance(j, w.db, c)]
            && after.settlements == (if j.pc.Settling? then w.settlements + [i] else w.settlements)
            && after.recorded == if j.pc.Recording? && c.delivery == Delivered && Recordable(w.db, j.pc.batch)
                                 then w.recorded[i := |j.pc.batch|] else w.recorded
  {
    hide R.Apply, Advance, Store.AppendExposures, Conditions.WithinSession;
    if w.jobs[i].pc.Recording? { Conditions.ExposuresRecorded(w.db, w.jobs[i].pc.batch); }
  }

  /** Any other client may do anything to the store but settle a reservation that a job holds. */
  lemma OthersActFreely(w: World, op: R.Op)
    ensures var held := op.SettleResearch? && exists i :: 0 <= i < |w.jobs| && IdOf(w.jobs[i]) == Some(op.reservationId);
            Act(w, Elsewhere(op)) == if held then w else w.(db := R.Apply(w.db, op))
  {
    hide R.Apply;
  }

  // ---- reservation rows

  predicate DistinctIds(rows: seq<Reservation>) {
    forall a, b :: 0 <= a < b < |rows| ==> rows[a].reservationId != rows[b].reservationId
  }

  predicate IsRow(row: Reservation, id: Id, sid: Id, requested: int) {
    row.reservationId == id && row.sessionId == sid && row.reserved == requested
  }

  /** The reservation is there and open. */
  predicate Open(rows: seq<Reservation>, id: Id, sid: Id, requested: int) {
    exists k :: 0 <= k < |rows| && IsRow(rows[k], id, sid, requested) && rows[k].settledAt.None? && rows[k].accepted.None?
  }

  predicate SettledAs(rows: seq<Reservation>, id: Id, sid: Id, accepted: int) {
    exists k :: 0 <= k < |rows| && rows[k].reservationId == id && rows[k].sessionId == sid
                && rows[k].settledAt.Some? && rows[k].accepted == Some(accepted)
  }

  /** Rows are only added, or settled under their own id. */
  ghost predicate RowsMove(before: seq<Reservation>, after: seq<Reservation>, settling: Option<Id>) {
    && |before| <= |after|
    && (forall k :: 0 <= k < |before| ==>
          after[k] == before[k] || (before[k].settledAt.None? && settling == Some(before[k].reservationId)))
  }

  function SettlingId(op: R.Op): Option<Id> { if op.SettleResearch? then Some(op.reservationId) else None }

  lemma RowsStep(db: Db, op: R.Op)
    requires DistinctIds(db.reservations)
    ensures RowsMove(db.reservations, R.Apply(db, op).reservations, SettlingId(op))
    ensures DistinctIds(R.Apply(db, op).reservations)
  {
    hide R.Apply, R.Budgeting;
    R.Leaves(db, op);
    if R.IsBudget(op) { R.InBudgeting(db, op); BudgetRows(db, op); }
  }

  lemma BudgetRows(db: Db, op: R.Op)
    requires R.IsBudget(op) && DistinctIds(db.reservations)
    ensures RowsMove(db.reservations, R.Budgeting(db, op).reservations, SettlingId(op))
    ensures DistinctIds(R.Budgeting(db, op).reservations)
  {
    hide Store.Open;
  }

  lemma OpenStays(before: seq<Reservation>, after: seq<Reservation>, settling: Option<Id>, id: Id, sid: Id, requested: int)
    requires RowsMove(before, after, settling) && settling != Some(id) && Open(before, id, sid, requested)
    ensures Open(after, id, sid, requested)
  {
    var k :| 0 <= k < |before| && IsRow(before[k], id, sid, requested) && before[k].settledAt.None? && before[k].accepted.None?;
    assert after[k] == before[k];
  }

  lemma SettledStays(before: seq<Reservation>, after: seq<Reservation>, settling: Option<Id>, id: Id, sid: Id, accepted: int)
    requires RowsMove(before, after, settling) && SettledAs(before, id, sid, accepted)
    ensures SettledAs(after, id, sid, accepted)
  {
    var k :| 0 <= k < |before| && before[k].reservationId == id && before[k].sessionId == sid
             && before[k].settledAt.Some? && before[k].accepted == Some(accepted);
    assert after[k] == before[k];
  }

  lemma ReserveOpens(j: Job, db: Db, c: Choice)
    requires j.pc.Reserving? && Reserves(j, db, c)
    ensures Open(R.Apply(db, Ask(j, c).value).reservations, c.freshId, j.sessionId, Wanted(j))
    ensures 1 <= Wanted(j) <= 3
    ensures forall k :: 0 <= k < |db.reservations| ==> db.reservations[k].reservationId != c.freshId
  {
    hide R.Apply, Store.Open;
    R.InBudgeting(db, Ask(j, c).value);
    var rows := R.Apply(db, Ask(j, c).value).reservations;
    assert IsRow(rows[|db.reservations|], c.freshId, j.sessionId, Wanted(j));
  }

  lemma SettleSettles(db: Db, id: Id, sid: Id, requested: int, accepted: nat, now: Time)
    requires Budgets.Linked(db) && DistinctIds(db.reservations) && Open(db.reservations, id, sid, requested)
    requires accepted <= requested <= 3
    ensures SettledAs(R.Apply(db, R.SettleResearch(id, sid, accepted, now)).reservations, id, sid, accepted)
  {
    hide R.Apply;
    R.InBudgeting(db, R.SettleResearch(id, sid, accepted, now));
    var rows := db.reservations;
    var k :| 0 <= k < |rows| && IsRow(rows[k], id, sid, requested) && rows[k].settledAt.None? && rows[k].accepted.None?;
    var at := Store.FindReservation(rows, id, sid);
    assert at == k;
    assert rows[at].sessionId in db.sessions.Keys;
    var after := R.Apply(db, R.SettleResearch(id, sid, accepted, now)).reservations;
    assert after[at].settledAt.Some? && after[at].accepted == Some(accepted);
  }

  // ---- every job

  /** A job never claims more results than it reserved. */
  predicate Within(j: Job) {
    match j.pc
    case Recording(_, batch) => |batch| <= Wanted(j)
    case Settling(_, accepted) => accepted <= Wanted(j)
    case Settled(_, accepted, _) => accepted <= Wanted(j)
    case _ => true
  }

  /** What a job has reserved is open until its settlement reaches the store, and then settled as asked. */
  predicate JobSound(db: Db, j: Job) {
    && Within(j)
    && (IdOf(j).Some? ==>
          && 1 <= Wanted(j) <= 3
          && if SettlementReached(j) then SettledAs(db.reservations, IdOf(j).value, j.sessionId, j.pc.accepted)
             else Open(db.reservations, IdOf(j).value, j.sessionId, Wanted(j)))
  }

  predicate SettlementReached(j: Job) { j.pc.Settled? && j.pc.reached }

  predicate JobsApart(jobs: seq<Job>) {
    forall a, b :: 0 <= a < b < |jobs| && IdOf(jobs[a]).Some? ==> IdOf(jobs[a]) != IdOf(jobs[b])
  }

  /** A settlement is asked for once, by the step that ends the job. */
  predicate AskedOnce(w: World) {
    && (forall k :: 0 <= k < |w.settlements| ==> w.settlements[k] < |w.jobs| && w.jobs[w.settlements[k]].pc.Settled?)
    && (forall k, l :: 0 <= k < l < |w.settlements| ==> w.settlements[k] != w.settlements[l])
    && (forall i :: 0 <= i < |w.jobs| && w.jobs[i].pc.Settled? ==> i in w.settlements)
  }

  /** A job settles as many results as it has recorded evidence for, and none otherwise. */
  predicate SettlesRecorded(w: World, i: nat)
    requires i < |w.jobs|
  {
    match w.jobs[i].pc
    case Settling(_, accepted) => accepted == if i in w.recorded then w.recorded[i] else 0
    case Settled(_, accepted, _) => accepted == if i in w.recorded then w.recorded[i] else 0
    case _ => i !in w.recorded
  }

  predicate AllRecorded(w: World) {
    && (forall i :: 0 <= i < |w.jobs| ==> SettlesRecorded(w, i))
    && (forall i :: i in w.recorded ==> i < |w.jobs|)
  }

  lemma RecordedStep(w: World, i: nat, c: Choice)
    requires AllRecorded(w) && i < |w.jobs|
    ensures AllRecorded(Act(w, Proceed(i, c)))
  {
    hide R.Apply, Reserves, Ask;
    var after := Act(w, Proceed(i, c));
    forall k | 0 <= k < |after.jobs| ensures SettlesRecorded(after, k) {
      assert SettlesRecorded(w, k);
    }
  }

  predicate Sound(w: World) {
    && Budgets.Linked(w.db) && DistinctIds(w.db.reservations)
    && (forall i :: 0 <= i < |w.jobs| ==> JobSound(w.db, w.jobs[i]))
    && JobsApart(w.jobs) && AskedOnce(w) && AllRecorded(w)
  }

  lemma JobStays(db: Db, op: R.Op, j: Job)
    requires DistinctIds(db.reservations) && JobSound(db, j)
    requires IdOf(j).Some? ==> SettlingId(op) != IdOf(j)
    ensures JobSound(R.Apply(db, op), j)
  {
    hide R.Apply, Open, SettledAs, RowsMove;
    RowsStep(db, op);
    var before, after := db.reservations, R.Apply(db, op).reservations;
    if SettlementReached(j) {
      SettledStays(before, after, SettlingId(op), IdOf(j).value, j.sessionId, j.pc.accepted);
    } else if IdOf(j).Some? {
      OpenStays(before, after, SettlingId(op), IdOf(j).value, j.sessionId, Wanted(j));
    }
  }

  lemma OwnSound(db: Db, j: Job, c: Choice)
    requires Budgets.Linked(db) && DistinctIds(db.reservations) && JobSound(db, j)
    ensures var asked := Ask(j, c);
            JobSound(if asked.Some? && c.delivery != LostBefore then R.Apply(db, asked.value) else db, Advance(j, db, c))
  {
    hide R.Apply, Open, SettledAs, Reserves, Budgets.Linked, DistinctIds;
    match j.pc
    case Reserving => if Reserves(j, db, c) { ReserveOpens(j, db, c); }
    case Recording(_, _) => JobStays(db, Ask(j, c).value, j);
    case Settling(id, accepted) =>
      SettleSettles(db, id, j.sessionId, Wanted(j), accepted, c.storeNow);
    case _ =>
  }

  /** A freshly reserved id belongs to no other job. */
  lemma FreshId(w: World, i: nat, c: Choice, other: nat)
    requires Sound(w) && i < |w.jobs| && other < |w.jobs|
    requires w.jobs[i].pc.Reserving? && Reserves(w.jobs[i], w.db, c)
    ensures IdOf(w.jobs[other]) != Some(c.freshId)
  {
    hide Reserves, R.Apply, Budgets.Linked;
    ReserveOpens(w.jobs[i], w.db, c);
  }

  lemma ApartStep(w: World, i: nat, c: Choice)
    requires Sound(w) && i < |w.jobs|
    ensures JobsApart(w.jobs[i := Advance(w.jobs[i], w.db, c)])
  {
    hide Reserves, JobSound, Budgets.Linked;
    if w.jobs[i].pc.Reserving? && Reserves(w.jobs[i], w.db, c) {
      forall other | 0 <= other < |w.jobs| ensures IdOf(w.jobs[other]) != Some(c.freshId) { FreshId(w, i, c, other); }
    }
  }

  lemma AskedStep(w: World, i: nat, c: Choice)
    requires AskedOnce(w) && i < |w.jobs|
    ensures AskedOnce(Act(w, Proceed(i, c)))
  {
    hide R.Apply, Reserves, Ask;
    var after := Act(w, Proceed(i, c));
    forall k | 0 <= k < |after.jobs| && after.jobs[k].pc.Settled? ensures k in after.settlements {
      if k != i || w.jobs[i].pc.Settled? { assert k in w.settlements; } else { assert after.settlements[|w.settlements|] == i; }
    }
  }

  lemma JobsStep(w: World, i: nat, c: Choice)
    requires Sound(w) && i < |w.jobs|
    ensures var after := Act(w, Proceed(i, c)); forall k :: 0 <= k < |after.jobs| ==> JobSound(after.db, after.jobs[k])
  {
    hide R.Apply, JobSound, AskedOnce, Advance, DistinctIds, Budgets.Linked;
    var after := Act(w, Proceed(i, c));
    forall k | 0 <= k < |after.jobs| ensures JobSound(after.db, after.jobs[k]) {
      if k == i {
        OwnSound(w.db, w.jobs[i], c);
      } else if after.db != w.db {
        if IdOf(w.jobs[k]).Some? { assert SettlingId(Ask(w.jobs[i], c).value) != IdOf(w.jobs[k]); }
        JobStays(w.db, Ask(w.jobs[i], c).value, w.jobs[k]);
      }
    }
  }

  lemma StoreStep(w: World, move: Move)
    requires Budgets.Linked(w.db) && DistinctIds(w.db.reservations)
    ensures Budgets.Linked(Act(w, move).db) && DistinctIds(Act(w, move).db.reservations)
  {
    hide R.Apply, Budgets.Linked, DistinctIds, Advance, Foreign;
    if Act(w, move).db != w.db {
      var op := if move.Elsewhere? then move.op else Ask(w.jobs[move.i], move.choice).value;
      Budgets.LinkedStep(w.db, op);
      RowsStep(w.db, op);
    }
  }

  lemma SoundStep(w: World, move: Move)
    requires Sound(w)
    ensures Sound(Act(w, move))
  {
    hide R.Apply, JobSound, Advance, DistinctIds, Budgets.Linked, Ask, AllRecorded;
    StoreStep(w, move);
    match move
    case Elsewhere(op) =>
      if Foreign(w, op) {
        SameRecorded(w, R.Apply(w.db, op));
        forall i | 0 <= i < |w.jobs| ensures JobSound(R.Apply(w.db, op), w.jobs[i]) { JobStays(w.db, op, w.jobs[i]); }
      }
    case Start(sessionId, request) =>
      StartSound(w.db, sessionId, request);
      StartRecorded(w, sessionId, request);
    case Proceed(i, c) =>
      if i < |w.jobs| {
        JobsStep(w, i, c);
        ApartStep(w, i, c);
        AskedStep(w, i, c);
        RecordedStep(w, i, c);
      }
  }

  lemma StartRecorded(w: World, sessionId: Id, request: Request)
    requires AllRecorded(w)
    ensures AllRecorded(w.(jobs := w.jobs + [Job(sessionId, request, Reserving)]))
  {
    var after := w.(jobs := w.jobs + [Job(sessionId, request, Reserving)]);
    forall k | 0 <= k < |after.jobs| ensures SettlesRecorded(after, k) {
      if k < |w.jobs| { assert SettlesRecorded(w, k); }
    }
  }

  lemma SameRecorded(w: World, db: Db)
    requires AllRecorded(w)
    ensures AllRecorded(w.(db := db))
  {
    forall k | 0 <= k < |w.jobs| ensures SettlesRecorded(w.(db := db), k) {
      assert SettlesRecorded(w, k);
    }
  }

  lemma StartSound(db: Db, sessionId: Id, request: Request)
    ensures JobSound(db, Job(sessionId, request, Reserving))
  {
  }

  lemma {:induction false} ResearchReachable(moves: seq<Move>)
    ensures Sound(Play(moves))
  {
    hide Sound, Act;
    if |moves| > 0 {
      ResearchReachable(moves[..|moves| - 1]);
      SoundStep(Play(moves[..|moves| - 1]), moves[|moves| - 1]);
    } else {
      assert Sound(NOTHING) by { NothingSound(); }
    }
  }

  lemma NothingSound()
    ensures Sound(NOTHING)
  {
  }

  /**
   * A job asks for exactly one settlement of the reservation it holds by the time it is done, for as many
   * results as it has recorded and no more than it reserved. The reservation is settled, as asked and for
   * ever, exactly when that call reaches the store.
   */
  lemma SettledExactlyOnce(moves: seq<Move>, i: nat)
    requires i < |Play(moves).jobs|
    ensures var w := Play(moves);
            var j := w.jobs[i];
            && (forall k, l :: 0 <= k < l < |w.settlements| ==> !(w.settlements[k] == i && w.settlements[l] == i))
            && (j.pc.Settled? <==> i in w.settlements)
            && (j.pc.Settled? ==> j.pc.accepted == if i in w.recorded then w.recorded[i] else 0)
            && (IdOf(j).Some? ==>
                  if SettlementReached(j) then SettledAs(w.db.reservations, IdOf(j).value, j.sessionId, j.pc.accepted)
                  else Open(w.db.reservations, IdOf(j).value, j.sessionId, Wanted(j)))
            && (j.pc.Settled? ==> j.pc.accepted <= Wanted(j))
  {
    hide Play, Budgets.Linked, DistinctIds, Open, SettledAs;
    ResearchReachable(moves);
    assert SettlesRecorded(Play(moves), i);
  }
}
