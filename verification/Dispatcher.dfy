/** The worker's tool dispatcher: screen, claim, act. Any number of dispatches interleave over one store. */
module Dispatcher {
  import opened Records
  import opened Rows
  import R = Runs
  import Conditions
  import Store
  import Budgets
  import Transactions

  // ---- what is asked for

  datatype Continuation = Continuation(maxTurns: nat, deadline: Time)

  /** exact says whether both digests recompute from the envelope. */
  datatype Envelope = Envelope(
    executionId: Id, digest: Digest, sessionId: Id, scope: Scope, tool: Tool, sourceTurnNumber: nat,
    continuation: Option<Continuation>, requestedAt: Time, expiresAt: Time, workspace: Token, exact: bool)

  datatype RuntimeState = RuntimeActive | RuntimeExpired | RuntimeEnded

  /** The bound runtime and workspace the dispatcher was built with, as read at one moment. */
  datatype Host = Host(
    state: RuntimeState, sessionId: Id, scope: Scope, expiresAt: Time, workspace: Token, maxTurns: Option<nat>)

  datatype Permission = Permitted | Failing | Forbidden(code: ViolationCode)

  datatype Screening = Proceeds | Fails | Violates(code: ViolationCode) | Unsupported

  predicate TurnOutOfBounds(e: Envelope, host: Host) {
    match e.continuation
    case None => e.sourceTurnNumber != 1
    case Some(c) =>
      host.maxTurns != Some(c.maxTurns) || e.sourceTurnNumber >= c.maxTurns || c.deadline != host.expiresAt
  }

  /** The envelope is exact, within the turn bounds, and bound to this session and workspace. */
  predicate BoundTo(e: Envelope, host: Host) {
    && e.exact && !TurnOutOfBounds(e, host) && e.workspace == host.workspace
    && host.state == RuntimeActive && host.sessionId == e.sessionId && host.scope == e.scope
  }

  /** supported says whether the external tools and their authority calls have been configured. */
  predicate Available(e: Envelope, supported: bool) { e.tool == ExternalTool ==> supported }

  /** The checks before any authority is asked, in order. */
  function Screen(e: Envelope, host: Host, supported: bool, permission: Permission, now: Time): Screening {
    if !e.exact then Violates(ExecutionBindingMismatch)
    else if now < e.requestedAt || now >= e.expiresAt then Fails
    else if TurnOutOfBounds(e, host) then Violates(ExecutionBindingMismatch)
    else if e.workspace != host.workspace then Violates(WorkspaceBindingMismatch)
    else if host.state != RuntimeActive then Fails
    else if host.sessionId != e.sessionId || host.scope != e.scope then Violates(ExecutionBindingMismatch)
    else if !Available(e, supported) then Unsupported
    else
      match permission
      case Permitted => Proceeds
      case Failing => Fails
      case Forbidden(code) => Violates(code)
  }

  /** Whatever the order of the checks: only a bound, timely, available and permitted dispatch proceeds. */
  lemma ProceedsIffBound(e: Envelope, host: Host, supported: bool, permission: Permission, now: Time)
    ensures var screening := Screen(e, host, supported, permission, now);
            && (screening.Proceeds? <==>
                  BoundTo(e, host) && e.requestedAt <= now < e.expiresAt && Available(e, supported) && permission.Permitted?)
            && (screening.Violates? && !BoundTo(e, host) ==> Store.SeverityOf(screening.code) == Critical)
            && (screening.Violates? && BoundTo(e, host) ==> permission == Forbidden(screening.code))
            && (screening.Unsupported? ==> e.tool == ExternalTool)
  {
  }

  // ---- steps

  datatype Pc =
    | Screening | Claiming | Auditing | Acting
    | Recording(code: ViolationCode) | Interrupting(failure: FailureCode) | Done

  datatype Dispatch = Dispatch(envelope: Envelope, host: Host, pc: Pc)

  datatype Delivery = Delivered | LostBefore | LostAfter

  datatype Effect = Succeeds | EffectFails | EffectDenied

  /** supported says whether the optional authority or tool a step needs has been configured. */
  datatype Choice = Choice(
    delivery: Delivery, storeNow: Time, freshId: Id, now: Time, permission: Permission, supported: bool, effect: Effect)

  function Begin(envelope: Envelope, host: Host): Dispatch { Dispatch(envelope, host, Screening) }

  function Ask(d: Dispatch, c: Choice): Option<R.Op> {
    var e := d.envelope;
    match d.pc
    case Claiming => Some(R.ConsumeExecution(e.sessionId, e.executionId, e.digest, e.tool, c.freshId, c.storeNow))
    case Auditing =>
      if c.supported then Some(R.RecordAudit(e.sessionId, e.executionId, e.digest, 0, c.freshId, c.storeNow)) else None
    case Recording(code) =>
      Some(R.RecordViolation(d.host.sessionId, e.executionId, e.digest, code, c.freshId, c.storeNow))
    case Interrupting(failure) =>
      Some(R.InterruptWorkerSession(e.sessionId, e.executionId, e.digest, failure, c.freshId, c.storeNow))
    case _ => None
  }

  predicate Granted(d: Dispatch, db: Db, c: Choice) {
    var e := d.envelope;
    var o := Store.ConsumeExecution(db, e.sessionId, e.executionId, e.digest, e.tool, c.freshId, c.storeNow);
    o.Committed? && o.value.ExecutionAllowed?
  }

  function AfterScreening(d: Dispatch, c: Choice): (next: Dispatch)
    ensures next == d.(pc := next.pc) && (next.pc.Claiming? || next.pc.Recording? || next.pc.Interrupting? || next.pc.Done?)
  {
    match Screen(d.envelope, d.host, c.supported, c.permission, c.now)
    case Fails => d.(pc := Done)
    case Violates(code) => d.(pc := Recording(code))
    case Unsupported => d.(pc := Interrupting(ToolUnavailable))
    case Proceeds => d.(pc := Claiming)
  }

  /** The turn the envelope comes from is the first, or before the bound of a continuation this host agrees on. */
  predicate TurnInBounds(e: Envelope, host: Host) {
    && (e.continuation == None ==> e.sourceTurnNumber == 1)
    && (e.continuation != None ==>
          && host.maxTurns == Some(e.continuation.value.maxTurns)
          && e.sourceTurnNumber < e.continuation.value.maxTurns
          && e.continuation.value.deadline == host.expiresAt)
  }

  lemma TurnJudged(e: Envelope, host: Host)
    ensures TurnOutOfBounds(e, host) <==> !TurnInBounds(e, host)
  {
  }

  /** Where a dispatch goes instead of to its claim, in the order of the checks. */
  function Objections(d: Dispatch, c: Choice): seq<(bool, Pc)> {
    var e, host := d.envelope, d.host;
    [ (!e.exact, Recording(ExecutionBindingMismatch)),
      (c.now < e.requestedAt || e.expiresAt <= c.now, Done),
      (!TurnInBounds(e, host), Recording(ExecutionBindingMismatch)),
      (e.workspace != host.workspace, Recording(WorkspaceBindingMismatch)),
      (host.state == RuntimeExpired || host.state == RuntimeEnded, Done),
      (e.sessionId != host.sessionId || e.scope != host.scope, Recording(ExecutionBindingMismatch)),
      (e.tool == ExternalTool && !c.supported, Interrupting(ToolUnavailable)),
      (c.permission == Failing, Done),
      (c.permission.Forbidden?, if c.permission.Forbidden? then Recording(c.permission.code) else Done) ]
  }

  /** A dispatch claims its execution exactly when nothing is objected to; otherwise the first objection decides. */
  lemma ScreeningJudged(d: Dispatch, c: Choice)
    ensures var objection := Conditions.FirstOf(Objections(d, c));
            AfterScreening(d, c) == d.(pc := if objection.Some? then objection.value else Claiming)
  {
    hide TurnOutOfBounds, TurnInBounds;
    TurnJudged(d.envelope, d.host);
    Conditions.InOrder(Objections(d, c));
  }

  /** Only a delivered, allowed claim goes on to act; an external tool audits its proposal first. */
  function AfterClaim(d: Dispatch, db: Db, c: Choice): (next: Dispatch)
    ensures next == d.(pc := next.pc)
    ensures next.pc.Auditing? || next.pc.Acting? ==> Granted(d, db, c) && c.delivery == Delivered
    ensures next.pc.Auditing? || next.pc.Acting? || next.pc.Interrupting? || next.pc.Done?
    ensures next.pc.Acting? ==> d.envelope.tool == LocalCommandTool
    ensures next.pc.Auditing? ==> d.envelope.tool == ExternalTool
  {
    if c.delivery != Delivered || Store.ConsumeExecution(
         db, d.envelope.sessionId, d.envelope.executionId, d.envelope.digest, d.envelope.tool, c.freshId, c.storeNow).Threw?
    then d.(pc := if d.envelope.tool == ExternalTool then Interrupting(AuthorityUnavailable) else Done)
    else if !Granted(d, db, c) then d.(pc := Done)
    else
      match d.envelope.tool
      case ExternalTool => d.(pc := Auditing)
      case LocalCommandTool => d.(pc := Acting)
      case SessionStatusTool => d.(pc := Done)
  }

  /** A delivered claim goes on to its tool exactly when the execution is new, affordable and its session live. */
  lemma ClaimJudged(d: Dispatch, db: Db, c: Choice)
    requires d.envelope.sessionId in db.sessions && d.envelope.sessionId in db.budgets
    requires c.delivery == Delivered
    ensures var e, budget := d.envelope, db.budgets[d.envelope.sessionId];
            var granted := && Conditions.Live(db, e.sessionId, c.storeNow)
                           && !Transactions.Repeated(db.executions, e.sessionId, e.executionId, e.digest)
                           && budget.toolCalls >= 1
                           && budget.localCommands >= (if e.tool == LocalCommandTool then 1 else 0);
            AfterClaim(d, db, c) == d.(pc :=
              if granted then
                (if e.tool == ExternalTool then Auditing else if e.tool == LocalCommandTool then Acting else Done)
              else if e.tool == ExternalTool && Conditions.Live(db, e.sessionId, c.storeNow)
                      && Transactions.Taken(db.events, c.freshId)
              then Interrupting(AuthorityUnavailable) else Done)
  {
    hide Store.ConsumeExecution, Transactions.Taken, Transactions.Repeated, Conditions.Live;
    var e := d.envelope;
    Transactions.ExecutionJudged(db, e.sessionId, e.executionId, e.digest, e.tool, c.freshId, c.storeNow);
  }

  function AfterAudit(d: Dispatch, db: Db, c: Choice): (next: Dispatch)
    ensures next == d.(pc := next.pc) && (next.pc.Acting? || next.pc.Interrupting?)
  {
    var e := d.envelope;
    if !c.supported then d.(pc := if e.continuation.None? then Acting else Interrupting(AuthorityUnavailable))
    else if && c.delivery == Delivered
       && Store.RecordAudit(db, e.sessionId, e.executionId, e.digest, 0, c.freshId, c.storeNow).Committed?
    then d.(pc := Acting) else d.(pc := Interrupting(AuthorityUnavailable))
  }

  function AfterEffect(d: Dispatch, c: Choice): (next: Dispatch)
    ensures next == d.(pc := next.pc) && (next.pc.Interrupting? || next.pc.Recording? || next.pc.Done?)
  {
    match c.effect
    case Succeeds => d.(pc := Done)
    case EffectFails => d.(pc := Interrupting(ToolUnavailable))
    case EffectDenied =>
      if d.envelope.tool == ExternalTool then d.(pc := Recording(ToolNotAllowed)) else d.(pc := Done)
  }

  function Advance(d: Dispatch, db: Db, c: Choice): (next: Dispatch)
    ensures next == d.(pc := next.pc)
  {
    match d.pc
    case Screening => AfterScreening(d, c)
    case Claiming => AfterClaim(d, db, c)
    case Auditing => AfterAudit(d, db, c)
    case Acting => AfterEffect(d, c)
    case Recording(_) => d.(pc := Done)
    case Interrupting(_) => d.(pc := Done)
    case Done => d
  }

  /** A claim that is not answered ends the dispatch; for an external tool the session is interrupted too. */
  lemma ClaimUnanswered(d: Dispatch, db: Db, c: Choice)
    requires c.delivery != Delivered || d.envelope.sessionId !in db.sessions || d.envelope.sessionId !in db.budgets
    ensures AfterClaim(d, db, c) ==
              d.(pc := if d.envelope.tool == ExternalTool then Interrupting(AuthorityUnavailable) else Done)
  {
  }

  /** An external tool runs after its proposal was audited, or where no audit is configured and no turn continues. */
  lemma AuditingJudged(d: Dispatch, db: Db, c: Choice)
    ensures var e := d.envelope;
            var audited := && c.delivery == Delivered && Conditions.Live(db, e.sessionId, c.storeNow)
                           && Transactions.Reached(db.events, e.sessionId, c.storeNow)
                           && !Transactions.PlanRevoked(db, e.sessionId)
                           && Transactions.Bounded(db, e.sessionId, e.executionId, e.digest)
                           && Transactions.Appendable(db.audit, e.sessionId, c.freshId, c.storeNow);
            AfterAudit(d, db, c) == d.(pc :=
              if (c.supported && audited) || (!c.supported && e.continuation == None) then Acting
              else Interrupting(AuthorityUnavailable))
  {
    hide Store.RecordAudit, Conditions.Live, Transactions.Reached, Transactions.PlanRevoked, Transactions.Bounded;
    hide Transactions.Appendable;
    var e := d.envelope;
    Transactions.AuditJudged(db, e.sessionId, e.executionId, e.digest, 0, c.freshId, c.storeNow);
  }

  /** What a dispatch asks of the store at each of its steps, and what follows an effect or a report. */
  lemma StepJudged(d: Dispatch, db: Db, c: Choice)
    ensures var e, asked, next := d.envelope, Ask(d, c), Advance(d, db, c);
            && next == d.(pc := next.pc)
            && (d.pc == Claiming ==>
                  asked == Some(R.ConsumeExecution(e.sessionId, e.executionId, e.digest, e.tool, c.freshId, c.storeNow))
                  && next == AfterClaim(d, db, c))
            && (d.pc == Auditing ==>
                  && asked == (if c.supported
                               then Some(R.RecordAudit(e.sessionId, e.executionId, e.digest, 0, c.freshId, c.storeNow))
                               else None)
                  && next == AfterAudit(d, db, c))
            && (d.pc.Recording? ==>
                  && next.pc == Done
                  && asked == Some(R.RecordViolation(
                       d.host.sessionId, e.executionId, e.digest, d.pc.code, c.freshId, c.storeNow)))
            && (d.pc.Interrupting? ==>
                  && next.pc == Done
                  && asked == Some(R.InterruptWorkerSession(
                       e.sessionId, e.executionId, e.digest, d.pc.failure, c.freshId, c.storeNow)))
            && (d.pc == Screening || d.pc == Acting || d.pc == Done ==> asked == None)
            && (d.pc == Screening ==> next == AfterScreening(d, c))
            && (d.pc == Acting ==>
                  next.pc == if c.effect == EffectFails then Interrupting(ToolUnavailable)
                             else if c.effect == EffectDenied && e.tool == ExternalTool then Recording(ToolNotAllowed)
                             else Done)
            && (d.pc == Done ==> next == d)
  {
    hide AfterScreening, AfterClaim, AfterAudit;
  }

  /** Claims that the store granted, and effects: a local command or an external tool that was started. */
  datatype Event = Claimed(dispatch: nat, envelope: Envelope) | Acted(dispatch: nat, envelope: Envelope)

  function Emits(d: Dispatch, i: nat, db: Db, c: Choice): Option<Event> {
    if d.pc.Acting? then Some(Acted(i, d.envelope))
    else if d.pc.Claiming? && c.delivery != LostBefore && Granted(d, db, c) then Some(Claimed(i, d.envelope))
    else None
  }

  /** ops is every transaction committed so far, whoever asked for it. */
  datatype World = World(db: Db, dispatches: seq<Dispatch>, log: seq<Event>, ops: seq<R.Op>)

  datatype Move = Elsewhere(op: R.Op) | Start(envelope: Envelope, host: Host) | Proceed(i: nat, choice: Choice)

  function Commit(w: World, op: R.Op): World { w.(db := R.Apply(w.db, op), ops := w.ops + [op]) }

  function Act(w: World, move: Move): World {
    match move
    case Elsewhere(op) => Commit(w, op)
    case Start(envelope, host) => w.(dispatches := w.dispatches + [Begin(envelope, host)])
    case Proceed(i, c) =>
      if i >= |w.dispatches| then w
      else
        var d := w.dispatches[i];
        var asked := Ask(d, c);
        var event := Emits(d, i, w.db, c);
        var after := if asked.Some? && c.delivery != LostBefore then Commit(w, asked.value) else w;
        after.(dispatches := w.dispatches[i := Advance(d, w.db, c)],
               log := if event.Some? then w.log + [event.value] else w.log)
  }

  /**
   * A step commits what it asks unless that is lost before, notes a claim exactly when it commits and the store
   * grants it, and notes an effect whenever the dispatch acts. Nobody else is restricted in any way.
   */
  lemma MoveJudged(w: World, i: nat, c: Choice)
    requires i < |w.dispatches|
    ensures var after, d := Act(w, Proceed(i, c)), w.dispatches[i];
            var asked := Ask(d, c);
            var commits := asked.Some? && c.delivery != LostBefore;
            && after.db == (if commits then R.Apply(w.db, asked.value) else w.db)
            && after.ops == (if commits then w.ops + [asked.value] else w.ops)
            && after.dispatches == w.dispatches[i := Advance(d, w.db, c)]
            && after.log == (if d.pc == Acting then w.log + [Acted(i, d.envelope)]
                             else if d.pc == Claiming && commits && Granted(d, w.db, c)
                             then w.log + [Claimed(i, d.envelope)] else w.log)
    ensures forall op :: Act(w, Elsewhere(op)) == w.(db := R.Apply(w.db, op), ops := w.ops + [op])
    ensures forall envelope, host :: Act(w, Start(envelope, host)) ==
              w.(dispatches := w.dispatches + [Dispatch(envelope, host, Screening)])
  {
    hide R.Apply, Advance, Granted;
  }

  const NOTHING := World(EmptyDb, [], [], [])

  function Play(moves: seq<Move>): World {
    if |moves| == 0 then NOTHING else Act(Play(moves[..|moves| - 1]), moves[|moves| - 1])
  }

  // ---- claims

  predicate RowOf(row: Execution, e: Envelope) {
    row.executionId == e.executionId && row.sessionId == e.sessionId && row.digest == e.digest && row.tool == e.tool
  }

  predicate Stored(rows: seq<Execution>, e: Envelope) { exists k :: 0 <= k < |rows| && RowOf(rows[k], e) }

  /** Same execution id, or same digest in the same session. */
  predicate Same(one: Envelope, two: Envelope) {
    one.executionId == two.executionId || (one.sessionId == two.sessionId && one.digest == two.digest)
  }

  predicate ClaimsStored(db: Db, log: seq<Event>) {
    forall k :: 0 <= k < |log| && log[k].Claimed? ==> Stored(db.executions, log[k].envelope)
  }

  predicate ClaimsDistinct(log: seq<Event>) {
    forall k, l :: 0 <= k < l < |log| && log[k].Claimed? && log[l].Claimed? ==> !Same(log[k].envelope, log[l].envelope)
  }

  lemma ExecutionsGrow(db: Db, op: R.Op)
    ensures db.executions <= R.Apply(db, op).executions
  {
    hide R.Apply, R.Worker;
    R.Leaves(db, op);
    if R.IsWorker(op) { R.InWorker(db, op); WorkerGrows(db, op); }
  }

  lemma WorkerGrows(db: Db, op: R.Op)
    requires R.IsWorker(op)
    ensures db.executions <= R.Worker(db, op).executions
  {
    hide Store.Deny, Store.RecordViolation, Store.InterruptWorkerSession, Store.Replayed;
  }

  lemma StoredStays(rows: seq<Execution>, more: seq<Execution>, e: Envelope)
    requires rows <= more && Stored(rows, e)
    ensures Stored(more, e)
  {
    var k :| 0 <= k < |rows| && RowOf(rows[k], e);
    assert more[k] == rows[k];
  }

  lemma DenialsDeny(db: Db, sid: Id, id: Id, digest: Digest, code: ViolationCode, eventId: Id, now: Time)
    ensures var o := Store.Deny(db, sid, id, digest, code, eventId, now);
            o.Committed? ==> o.value.ExecutionDenied? && (Store.SeverityOf(code) == Critical ==> o.value.revoked)
  {
    hide Store.EventRecorded, Store.OrdinaryCount;
  }

  /** A granted claim adds its own row, and no row claims the same execution already. */
  lemma GrantAddsRow(d: Dispatch, db: Db, c: Choice)
    requires d.pc.Claiming? && Granted(d, db, c)
    ensures var rows := R.Apply(db, Ask(d, c).value).executions;
            |rows| == |db.executions| + 1 && rows[..|db.executions|] == db.executions && RowOf(rows[|db.executions|], d.envelope)
    ensures forall e :: Stored(db.executions, e) ==> !Same(e, d.envelope)
  {
    hide R.Apply, Store.Deny, Store.Unavailable, Store.Noticed;
    R.InWorker(db, Ask(d, c).value);
    var e := d.envelope;
    DenialsDeny(db, e.sessionId, e.executionId, e.digest, ExecutionReplay, c.freshId, c.storeNow);
    DenialsDeny(db, e.sessionId, e.executionId, e.digest, VolumeExhausted, c.freshId, c.storeNow);
    assert !Store.Replayed(db.executions, e.sessionId, e.executionId, e.digest);
    forall other | Stored(db.executions, other) ensures !Same(other, e) {
      var k :| 0 <= k < |db.executions| && RowOf(db.executions[k], other);
      assert !Store.Claimed(db.executions[k], e.sessionId, e.executionId, e.digest);
    }
  }

  lemma ClaimsStep(w: World, move: Move)
    requires ClaimsStored(w.db, w.log) && ClaimsDistinct(w.log)
    ensures ClaimsStored(Act(w, move).db, Act(w, move).log) && ClaimsDistinct(Act(w, move).log)
  {
    hide Stored, R.Apply, Advance, Granted, Same;
    var after := Act(w, move);
    if after.db != w.db {
      var op := if move.Elsewhere? then move.op else Ask(w.dispatches[move.i], move.choice).value;
      ExecutionsGrow(w.db, op);
      forall k | 0 <= k < |w.log| && w.log[k].Claimed? ensures Stored(after.db.executions, w.log[k].envelope) {
        StoredStays(w.db.executions, after.db.executions, w.log[k].envelope);
      }
    }
    if |after.log| > |w.log| && after.log[|w.log|].Claimed? {
      var d, c := w.dispatches[move.i], move.choice;
      GrantAddsRow(d, w.db, c);
      RowIsStored(after.db.executions, d.envelope, |w.db.executions|);
    }
  }

  lemma RowIsStored(rows: seq<Execution>, e: Envelope, k: nat)
    requires k < |rows| && RowOf(rows[k], e)
    ensures Stored(rows, e)
  {
  }

  // ---- what each dispatch keeps

  predicate HasClaim(log: seq<Event>, i: nat, e: Envelope) {
    exists k :: 0 <= k < |log| && log[k] == Claimed(i, e)
  }

  /** Before it acts a dispatch has acted on nothing; when it may act it has claimed its own execution. */
  predicate Kept(d: Dispatch, i: nat, log: seq<Event>) {
    && (forall k :: 0 <= k < |log| && log[k].dispatch == i ==> log[k].envelope == d.envelope)
    && ((d.pc.Auditing? || d.pc.Acting?) ==> HasClaim(log, i, d.envelope))
    && ((d.pc.Screening? || d.pc.Claiming?) ==> forall k :: 0 <= k < |log| ==> log[k].dispatch != i)
    && ((d.pc.Auditing? || d.pc.Acting?) ==> forall k :: 0 <= k < |log| && log[k].Acted? ==> log[k].dispatch != i)
  }

  predicate ActsFollow(log: seq<Event>) {
    && (forall k :: 0 <= k < |log| && log[k].Acted? ==> HasClaim(log[..k], log[k].dispatch, log[k].envelope))
    && (forall k, l :: 0 <= k < l < |log| && log[k].Acted? && log[l].Acted? ==> log[k].dispatch != log[l].dispatch)
  }

  predicate AllKept(w: World) {
    && (forall i :: 0 <= i < |w.dispatches| ==> Kept(w.dispatches[i], i, w.log))
    && (forall k :: 0 <= k < |w.log| ==> w.log[k].dispatch < |w.dispatches|)
    && ActsFollow(w.log)
  }

  lemma ClaimKept(log: seq<Event>, event: Event, i: nat, e: Envelope)
    ensures HasClaim(log, i, e) ==> HasClaim(log + [event], i, e)
    ensures event == Claimed(i, e) ==> HasClaim(log + [event], i, e)
  {
    if HasClaim(log, i, e) {
      var k :| 0 <= k < |log| && log[k] == Claimed(i, e);
      assert (log + [event])[k] == Claimed(i, e);
    }
    assert (log + [event])[|log|] == event;
  }

  lemma OtherKept(d: Dispatch, i: nat, log: seq<Event>, event: Event)
    requires Kept(d, i, log) && event.dispatch != i
    ensures Kept(d, i, log + [event])
  {
    hide HasClaim;
    ClaimKept(log, event, i, d.envelope);
  }

  lemma OwnKept(d: Dispatch, i: nat, log: seq<Event>, db: Db, c: Choice)
    requires Kept(d, i, log)
    ensures var event := Emits(d, i, db, c);
            Kept(Advance(d, db, c), i, if event.Some? then log + [event.value] else log)
  {
    hide HasClaim, Granted, AfterScreening, AfterClaim, AfterAudit, AfterEffect;
    ClaimKept(log, Claimed(i, d.envelope), i, d.envelope);
    ClaimKept(log, Acted(i, d.envelope), i, d.envelope);
  }

  lemma ActsStep(d: Dispatch, i: nat, log: seq<Event>, db: Db, c: Choice)
    requires Kept(d, i, log) && ActsFollow(log) && Emits(d, i, db, c).Some?
    ensures ActsFollow(log + [Emits(d, i, db, c).value])
  {
    hide HasClaim, Granted;
    var event := Emits(d, i, db, c).value;
    var after := log + [event];
    forall k | 0 <= k < |after| && after[k].Acted? ensures HasClaim(after[..k], after[k].dispatch, after[k].envelope) {
      if k < |log| { assert after[..k] == log[..k] && after[k] == log[k]; } else { assert after[..k] == log; }
    }
  }

  lemma KeptStep(w: World, move: Move)
    requires AllKept(w)
    ensures AllKept(Act(w, move))
  {
    hide Kept, ActsFollow, Advance, R.Apply, Ask, Granted;
    match move
    case Elsewhere(_) =>
    case Start(envelope, host) =>
      StartKept(w, envelope, host);
    case Proceed(i, c) =>
      if i < |w.dispatches| {
        var d := w.dispatches[i];
        var event := Emits(d, i, w.db, c);
        OwnKept(d, i, w.log, w.db, c);
        if event.Some? {
          ActsStep(d, i, w.log, w.db, c);
          forall j | 0 <= j < |w.dispatches| && j != i ensures Kept(w.dispatches[j], j, w.log + [event.value]) {
            OtherKept(w.dispatches[j], j, w.log, event.value);
          }
        }
      }
  }

  lemma StartKept(w: World, envelope: Envelope, host: Host)
    requires AllKept(w)
    ensures Kept(Begin(envelope, host), |w.dispatches|, w.log)
  {
    hide ActsFollow;
  }

  lemma {:induction false} DispatchesReachable(moves: seq<Move>)
    ensures var w := Play(moves); AllKept(w) && ClaimsStored(w.db, w.log) && ClaimsDistinct(w.log)
  {
    hide AllKept, ClaimsStored, ClaimsDistinct, Act;
    if |moves| > 0 {
      DispatchesReachable(moves[..|moves| - 1]);
      KeptStep(Play(moves[..|moves| - 1]), moves[|moves| - 1]);
      ClaimsStep(Play(moves[..|moves| - 1]), moves[|moves| - 1]);
    } else {
      NothingKept();
    }
  }

  lemma NothingKept()
    ensures AllKept(NOTHING) && ClaimsStored(EmptyDb, []) && ClaimsDistinct([])
  {
  }

  /** An effect runs only after a granted claim of the same dispatch for the same execution. */
  lemma ActsAfterClaim(moves: seq<Move>, k: nat)
    requires k < |Play(moves).log| && Play(moves).log[k].Acted?
    ensures var log := Play(moves).log; HasClaim(log[..k], log[k].dispatch, log[k].envelope)
  {
    hide Play, HasClaim, Kept;
    DispatchesReachable(moves);
  }

  /** Over every interleaving, replays included, an execution id or session digest is acted on at most once. */
  lemma AtMostOnce(moves: seq<Move>, k: nat, l: nat)
    requires k < |Play(moves).log| && l < |Play(moves).log|
    requires Play(moves).log[k].Acted? && Play(moves).log[l].Acted?
    requires Same(Play(moves).log[k].envelope, Play(moves).log[l].envelope)
    ensures k == l
  {
    hide Play, Kept, ClaimsStored;
    DispatchesReachable(moves);
    var log := Play(moves).log;
    var a :| 0 <= a < k && log[..k][a] == Claimed(log[k].dispatch, log[k].envelope);
    var b :| 0 <= b < l && log[..l][b] == Claimed(log[l].dispatch, log[l].envelope);
    assert log[a] == log[..k][a] && log[b] == log[..l][b];
    assert Same(log[b].envelope, log[a].envelope);
    assert a == b;
  }

  // ---- what may be claimed at all

  /** A dispatch past its screening is bound to its host, and the log speaks of dispatches that were. */
  predicate Screened(w: World) {
    && (forall i :: 0 <= i < |w.dispatches| ==> PastScreening(w.dispatches[i]))
    && (forall k :: 0 <= k < |w.log| ==> Vouched(w, k))
  }

  predicate PastScreening(d: Dispatch) {
    d.pc.Claiming? || d.pc.Auditing? || d.pc.Acting? ==> Bindings(d)
  }

  predicate Bindings(d: Dispatch) { BoundTo(d.envelope, d.host) && d.envelope.requestedAt < d.envelope.expiresAt }

  predicate Vouched(w: World, k: nat)
    requires k < |w.log|
  {
    && w.log[k].dispatch < |w.dispatches|
    && var d := w.dispatches[w.log[k].dispatch]; d.envelope == w.log[k].envelope && Bindings(d)
  }

  lemma AdvanceScreened(d: Dispatch, db: Db, c: Choice)
    requires PastScreening(d)
    ensures PastScreening(Advance(d, db, c))
  {
    hide AfterClaim, AfterAudit, AfterEffect, Screen, BoundTo;
    ProceedsIffBound(d.envelope, d.host, c.supported, c.permission, c.now);
  }

  lemma ScreenedStep(w: World, move: Move)
    requires Screened(w)
    ensures Screened(Act(w, move))
  {
    hide R.Apply, Ask, Granted, Advance, Bindings;
    var after := Act(w, move);
    match move
    case Elsewhere(_) => forall k | 0 <= k < |after.log| ensures Vouched(after, k) { assert Vouched(w, k); }
    case Start(_, _) => forall k | 0 <= k < |after.log| ensures Vouched(after, k) { assert Vouched(w, k); }
    case Proceed(i, c) =>
      if i < |w.dispatches| {
        AdvanceScreened(w.dispatches[i], w.db, c);
        forall k | 0 <= k < |after.log| ensures Vouched(after, k) {
          if k < |w.log| { assert Vouched(w, k); BindingsStay(w.dispatches[i], w.db, c); }
          else { assert PastScreening(w.dispatches[i]); BindingsStay(w.dispatches[i], w.db, c); }
        }
      }
  }

  lemma BindingsStay(d: Dispatch, db: Db, c: Choice)
    ensures Bindings(Advance(d, db, c)) == Bindings(d)
  {
  }

  lemma {:induction false} ScreenedReachable(moves: seq<Move>)
    ensures Screened(Play(moves))
  {
    hide Screened, Act;
    if |moves| > 0 {
      ScreenedReachable(moves[..|moves| - 1]);
      ScreenedStep(Play(moves[..|moves| - 1]), moves[|moves| - 1]);
    } else {
      NothingScreened();
    }
  }

  lemma NothingScreened()
    ensures Screened(NOTHING)
  {
  }

  /**
   * Over every interleaving, whatever is claimed or acted on comes from an exact envelope, within the turn
   * bounds, for the session, scope and workspace of the very host that dispatched it.
   */
  lemma ClaimsBound(moves: seq<Move>, k: nat)
    requires k < |Play(moves).log|
    ensures var w := Play(moves);
            && w.log[k].dispatch < |w.dispatches|
            && var d := w.dispatches[w.log[k].dispatch];
               d.envelope == w.log[k].envelope && BoundTo(d.envelope, d.host) && d.envelope.requestedAt < d.envelope.expiresAt
  {
    hide Play;
    ScreenedReachable(moves);
    assert Vouched(Play(moves), k);
  }

  // ---- local commands against the allowance

  function Ran(sid: Id): Event -> int {
    (e: Event) => if e.Acted? && e.envelope.tool == LocalCommandTool && e.envelope.sessionId == sid then 1 else 0
  }

  function Waiting(sid: Id): Dispatch -> int {
    (d: Dispatch) => if d.pc.Acting? && d.envelope.tool == LocalCommandTool && d.envelope.sessionId == sid then 1 else 0
  }

  /** Only external tools audit a proposal before they act. */
  predicate OnlyToolsAudit(d: Dispatch) { d.pc.Auditing? ==> d.envelope.tool == ExternalTool }

  /** Commands run, and commands about to run, are covered by execution rows of the session. */
  predicate Covered(w: World, sid: Id) {
    && (forall i :: 0 <= i < |w.dispatches| ==> OnlyToolsAudit(w.dispatches[i]))
    && Sum(w.log, Ran(sid)) + Sum(w.dispatches, Waiting(sid)) <= Sum(w.db.executions, Budgets.CommandsRun(sid))
  }

  lemma {:induction false} RowsGrow(rows: seq<Execution>, more: seq<Execution>, sid: Id)
    requires rows <= more
    ensures Sum(rows, Budgets.CommandsRun(sid)) <= Sum(more, Budgets.CommandsRun(sid))
    decreases |more|
  {
    if |more| > |rows| {
      RowsGrow(rows, more[..|more| - 1], sid);
    } else {
      assert rows == more;
    }
  }

  lemma LogGrows(log: seq<Event>, event: Option<Event>, sid: Id)
    ensures Sum(if event.Some? then log + [event.value] else log, Ran(sid))
         == Sum(log, Ran(sid)) + if event.Some? then Ran(sid)(event.value) else 0
  {
    if event.Some? { SumAppend(log, event.value, Ran(sid)); }
  }

  /** A dispatch starts waiting to act only in the step that adds its row, or while it has been waiting already. */
  lemma WaitingStep(d: Dispatch, i: nat, db: Db, c: Choice, sid: Id)
    requires OnlyToolsAudit(d)
    ensures OnlyToolsAudit(Advance(d, db, c))
    ensures var event := Emits(d, i, db, c);
            var ran := if event.Some? then Ran(sid)(event.value) else 0;
            var row := if d.pc.Claiming? && c.delivery != LostBefore && Granted(d, db, c)
                          && d.envelope.tool == LocalCommandTool && d.envelope.sessionId == sid then 1 else 0;
            ran + Waiting(sid)(Advance(d, db, c)) <= Waiting(sid)(d) + row
  {
    hide Granted, AfterScreening, AfterClaim, AfterEffect;
  }

  lemma RowAdded(d: Dispatch, db: Db, c: Choice, sid: Id)
    requires d.pc.Claiming? && Granted(d, db, c) && d.envelope.tool == LocalCommandTool && d.envelope.sessionId == sid
    ensures Sum(R.Apply(db, Ask(d, c).value).executions, Budgets.CommandsRun(sid))
         == Sum(db.executions, Budgets.CommandsRun(sid)) + 1
  {
    hide R.Apply, Granted;
    GrantAddsRow(d, db, c);
    var rows := R.Apply(db, Ask(d, c).value).executions;
    assert rows == db.executions + [rows[|db.executions|]];
    SumAppend(db.executions, rows[|db.executions|], Budgets.CommandsRun(sid));
  }

  lemma CoveredStep(w: World, move: Move, sid: Id)
    requires Covered(w, sid)
    ensures Covered(Act(w, move), sid)
  {
    hide Sum, R.Apply, Advance, Granted, Emits;
    var after := Act(w, move);
    match move
    case Elsewhere(op) =>
      ExecutionsGrow(w.db, op);
      RowsGrow(w.db.executions, after.db.executions, sid);
    case Start(envelope, host) => SumAppend(w.dispatches, Begin(envelope, host), Waiting(sid));
    case Proceed(i, c) =>
      if i < |w.dispatches| {
        var d := w.dispatches[i];
        LogGrows(w.log, Emits(d, i, w.db, c), sid);
        SumUpdate(w.dispatches, i, Advance(d, w.db, c), Waiting(sid));
        WaitingStep(d, i, w.db, c, sid);
        if Ask(d, c).Some? {
          ExecutionsGrow(w.db, Ask(d, c).value);
          RowsGrow(w.db.executions, R.Apply(w.db, Ask(d, c).value).executions, sid);
        }
        if d.pc.Claiming? && Granted(d, w.db, c) && d.envelope.tool == LocalCommandTool && d.envelope.sessionId == sid {
          RowAdded(d, w.db, c, sid);
        }
      }
  }

  lemma {:induction false} CoveredReachable(moves: seq<Move>, sid: Id)
    ensures Covered(Play(moves), sid)
    ensures Play(moves).db == R.Run(EmptyDb, Play(moves).ops)
  {
    hide Covered, R.Apply, Advance, Granted, Emits;
    if |moves| > 0 {
      CoveredReachable(moves[..|moves| - 1], sid);
      CoveredStep(Play(moves[..|moves| - 1]), moves[|moves| - 1], sid);
      var before, after := Play(moves[..|moves| - 1]), Play(moves);
      assert |after.ops| > |before.ops| ==> after.ops[..|before.ops|] == before.ops;
    } else {
      assert Covered(NOTHING, sid) by { NothingCovered(sid); }
    }
  }

  lemma NothingCovered(sid: Id)
    ensures Covered(NOTHING, sid)
  {
  }

  lemma {:induction false} WaitingIsCount(dispatches: seq<Dispatch>, sid: Id)
    ensures Sum(dispatches, Waiting(sid)) >= 0
  {
    if |dispatches| > 0 { WaitingIsCount(dispatches[..|dispatches| - 1], sid); }
  }

  /** Local commands run for a session, by any dispatches in any order, never exceed its initial allowance. */
  lemma CommandsWithinAllowance(moves: seq<Move>, sid: Id)
    requires sid in Play(moves).db.sessions
    ensures var w := Play(moves);
            Budgets.Granted(w.ops, sid).Some?
            && Sum(w.log, Ran(sid)) <= Budgets.Granted(w.ops, sid).value.localCommands
  {
    hide Play, Sum, R.Run, Budgets.Granted;
    CoveredReachable(moves, sid);
    WaitingIsCount(Play(moves).dispatches, sid);
    Budgets.BudgetConserved(Play(moves).ops, sid);
  }

  // ---- turns beyond the bound

  /**
   * A tool execution of a turn at or past the bound never proceeds: the dispatcher fails it or records a
   * violation that, if it is recorded at all, revokes the session.
   */
  lemma LateTurnRevokes(
    e: Envelope, host: Host, supported: bool, permission: Permission, now: Time,
    db: Db, eventId: Id, storeNow: Time, limit: nat)
    requires limit == if e.continuation.Some? then e.continuation.value.maxTurns else 2
    requires e.sourceTurnNumber >= limit
    ensures var screening := Screen(e, host, supported, permission, now);
            && (screening.Fails? || screening.Violates?)
            && (screening.Violates? ==>
                  var o := Store.RecordViolation(
                    db, host.sessionId, e.executionId, e.digest, screening.code, eventId, storeNow);
                  o.Committed? && o.value.ExecutionDenied? ==> o.value.revoked)
  {
    hide Store.Deny, Store.ClockReached, Store.Noticed;
    DenialsDeny(db, host.sessionId, e.executionId, e.digest, ExecutionBindingMismatch, eventId, storeNow);
  }
}
