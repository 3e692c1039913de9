# Guardian authority, broker and portal: a Dafny model

This project models the parts of Guardian that decide who may act, how often, and what is remembered about
it, and proves what they keep in every run.

- **The authority store.** `Records` holds the rows of its fifteen tables. `Store` and `Plans` give every
  transaction as a function of the tables and the clock; `Runs` puts them in any order from any clients;
  `AuthorityStores` is the same store as the program writes it, statements against mutable tables inside
  BEGIN IMMEDIATE and ROLLBACK, proved equal to those functions. `Conditions` and `Transactions` say of
  every transaction when it answers what, and what it writes, condition by condition and without its
  statements; `Budgets`, `Violations`, `Windows`, `PlanLedger`, `PlanChecks`, `Evidence`, `Views`,
  `Terminal` and `AuditLog` prove invariants of all runs.
- **The gate** (`Gate`): capability, role, session and lifetime checks in front of the store.
- **The broker** (`Broker`, `BrokerRuns`, `BrokerSafety`, `BrokerConduct`, `BrokerExecutions`): one step per
  awaited call, any number of runs interleaved with each other and with any other client of the store, every
  answer possibly lost before or after it commits. `BrokerConduct` spells out what each answer has to say, and
  proves that a run merges or succeeds only when all of it was said, and does succeed when it is.
- **The worker side** (`Dispatcher`, `WorkerTurns`) and **durable research** (`Research`).
- **The judge portal** (`Portal`, `JourneyBudget`): one step per stretch between awaits.
- **Three representations everything rests on**: timestamps (`Timestamps`), the hashed bytes of a contract
  (`Canonical`, and `CanonicalReading` with readers for what was printed), and the three credential slots
  (`Credentials`).

Transactions are atomic steps that commit or leave the tables alone. Random identifiers, clocks, network
answers, guardian and provider verdicts are parameters of the steps, so every statement holds for all of them.
Identifiers are numbers compared for equality. SHA-256 is collision free by construction: a digest is a
constructor applied to what was hashed, and `Canonical` proves that the hashed bytes determine it. Times are
milliseconds; `Timestamps` proves that the stored text orders the same way.

Two of the promises turned out to need a condition, which is proved exactly:

- The violation window bound holds in a run exactly when no step is overlooked. The consume path has no clock
  guard and counts only up to its own time, so an exhausted execution recorded after the clock stepped back can
  complete a window whose other violations lie ahead of it (`Windows.WindowsHoldIffNoneOverlooked`,
  `Violations.BackwardsClockEscapes`). A clock that never runs backwards overlooks nothing
  (`Windows.SteadyIsPaced`), and a step back alone does no harm (`Windows.PacingIsNotNeeded`).
- The pending queue's byte guard leaves out one comma, so its limit is reached, not only approached, exactly
  when the guard's sum is one short of it (`PlanChecks.ByteLimitIffOneShort`, `PlanChecks.ByteLimitReached`).

## Model

| member | source | states |
|---|---|---|
| Transactions.AllInterrupted | packages/authority-store/src/index.ts:592-611 | the call throws exactly when an active session was created in the future; otherwise every active session, and no other, becomes interrupted now, and the answer counts them |
| Transactions.ToolCallTaken | packages/authority-store/src/index.ts:629-655 | one call is taken exactly from an open session with a call left, and from no other budget |
| Transactions.DenialJudged | packages/authority-store/src/index.ts:1026-1089 | a denial of an open session records one event, last, and revokes exactly for a critical code or the third ordinary violation of the window; no other row of any table changes |
| Transactions.WindowCounted | packages/authority-store/src/index.ts:1053-1064 | the window count is the number of the session's ordinary violation rows between the two bounds, both included |
| Transactions.ExecutionJudged | packages/authority-store/src/index.ts:707-788 | a claim is refused exactly for a session that is not live, granted exactly when it is new and affordable and then pays its cost and adds its row, and denied otherwise, as a replay or as exhausted |
| Transactions.RefusalExplained | packages/authority-store/src/index.ts:979-1013 | a claim or report on a session that cannot be used is answered with the one reason that applies (revoked; not active or not yet; past its expiry), and only an expiry is written |
| Transactions.ViolationJudged | packages/authority-store/src/index.ts:790-815 | a report throws exactly behind the clock guard and is denied exactly for an open session |
| Transactions.InterruptionJudged | packages/authority-store/src/index.ts:817-884 | an open session gets one failure event and is interrupted, a lapsed one expires, any other is left alone |
| Transactions.AuditJudged | packages/authority-store/src/index.ts:886-919 | an event is appended, as the highest of its session, exactly when the session is open, its plan unrevoked, its boundary bound and the log can take it |
| Transactions.EventAppended | packages/authority-store/src/index.ts:1334-1357 | the direct entry point takes exactly the next event of a known session, under a new id |
| Transactions.CompletionJudged | packages/authority-store/src/index.ts:921-977 | a completion is both closing events in consecutive order and the status change, exactly for an open session under a live plan |
| Conditions.SessionCreated | packages/authority-store/src/index.ts:445-505 | a session enters exactly under the schema's rules, with its budget and one binding for each connection |
| Conditions.ConnectionsManaged | packages/authority-store/src/index.ts:507-556 | a connection enters active under a fresh id, and revoking it changes nothing but its being active |
| Conditions.ReservationMade | packages/authority-store/src/index.ts:1091-1134 | a reservation is made exactly for a live session that can pay one call, one request and the results asked for, and takes exactly these |
| Conditions.ReservationSettled | packages/authority-store/src/index.ts:1136-1179 | exactly an open reservation of the session is settled, for no more than it held, and the rest returns |
| Conditions.ApprovalStored | packages/authority-store/src/index.ts:1205-1251 | an approval is stored exactly for an active session of its scope, over an active bound connection, with a fresh id and nonce |
| Conditions.ApprovalConsumedIff | packages/authority-store/src/index.ts:1271-1332 | an approval is consumed exactly when the row stored under its id has this session, request digest, nonce, caller, connection and policy version, its connection is bound and active, it is unused, and the session and the approval are live |
| Conditions.ApprovalUsed | packages/authority-store/src/index.ts:1271-1332 | which of the six answers is given: the first complaint that applies, in the order of the checks; and the mark that only a consumption leaves |
| Conditions.AttemptRecorded | packages/authority-store/src/index.ts:1437-1474 | an attempt is recorded exactly for its session's caller, in its lifetime, on at most sixteen distinct exposures of its own retrieved before it |
| Conditions.DecisionRecorded | packages/authority-store/src/index.ts:1476-1502 | a decision is recorded exactly for an undecided attempt of its session, not before it |
| Conditions.ExposuresRecorded | packages/authority-store/src/index.ts:1406-1435 | one to three fresh exposures inside the lifetime of their sessions are added, or none is |
| Conditions.PlanStored | packages/authority-store/src/session-plans.ts:76-121 | a plan is stored exactly when its schema, session, window, confirmation, version and grant id allow it and every target has an active bound connection to its repository that permits merging for a merge and reading for a read |
| Conditions.GrantRevoked | packages/authority-store/src/session-plans.ts:123-137 | revoking a grant stamps its row once, touches no other, and says whether there was one to stamp |
| Conditions.CheckAnswered | packages/authority-store/src/session-plans.ts:150-287 | a check is answered with the first of twelve spelled-out complaints that applies and allows the request exactly when none does; a covered target has an active bound connection to its repository with the permission its operation needs |
| Conditions.ConsumptionRecorded | packages/authority-store/src/session-plans.ts:254-286 | an allowed consumption adds its execution with the key of its merge, charges the current grant once and drops the proposal; any other answer but a block writes nothing |
| Conditions.BlockedProposalKept | packages/authority-store/src/session-plans.ts:155-182 | a blocked proposal is kept exactly when it is new to a queue with a free place and bytes to spare |
| Store.Latest | packages/authority-store/src/index.ts:1364-1371 | the row of the session with the highest sequence number, if there is one |
| Store.FindReservation | packages/authority-store/src/index.ts:1149-1154 | the row held under that id by that session, and none exactly when no row is |
| Plans.Current | packages/authority-store/src/session-plans.ts:63-74 | the row of the session with the highest version, if there is one |
| Plans.FindTarget | packages/authority-store/src/session-plans.ts:203-213 | a target that matches the request, and none exactly when no target does |
| Plans.Decide | packages/authority-store/src/session-plans.ts:150-256 | no plan is reported exactly when the session has none; a covered request meets every condition of coverage against the current plan. The converse, and the conditions in full, are `Conditions.CheckAnswered` |
| Plans.RevokeRows | packages/authority-store/src/session-plans.ts:123-137 | exactly the revocable row of that grant is marked, every other row is unchanged |
| AuthorityStores.AuthorityStore.InsertSession | packages/authority-store/src/index.ts:460-505 | fails exactly on a known session or an unknown connection; otherwise inserts the session, its budget and one binding per connection |
| AuthorityStores.AuthorityStore.CreateSession | packages/authority-store/src/index.ts:445-505 | the whole new state, and a rollback of the partial inserts when one fails |
| AuthorityStores.AuthorityStore.CreateConnection | packages/authority-store/src/index.ts:507-524 | an active, unknown connection is added; anything else throws |
| AuthorityStores.AuthorityStore.RevokeConnection | packages/authority-store/src/index.ts:535-556 | only an active connection is marked revoked |
| AuthorityStores.AuthorityStore.InterruptActiveSessions | packages/authority-store/src/index.ts:592-611 | every active session is interrupted and counted, or the call throws |
| AuthorityStores.AuthorityStore.ConsumeToolCall | packages/authority-store/src/index.ts:629-655 | one call is taken exactly when the conditional update finds the session open with a call left |
| AuthorityStores.AuthorityStore.WorkerSessionUnavailable | packages/authority-store/src/index.ts:979-1013 | the reason, and the expiry it writes on the way |
| AuthorityStores.AuthorityStore.RecordViolationInTransaction | packages/authority-store/src/index.ts:1026-1089 | insert, count, revoke and rewrite the disposition amount to the single denial step |
| AuthorityStores.AuthorityStore.ConsumeWorkerExecution | packages/authority-store/src/index.ts:707-788 | claim, replay denial, volume denial or refusal, with everything undone when a statement throws |
| AuthorityStores.AuthorityStore.RecordWorkerViolation | packages/authority-store/src/index.ts:790-815 | clock guard, availability, denial, with everything undone when a statement throws |
| AuthorityStores.AuthorityStore.InterruptWorkerSession | packages/authority-store/src/index.ts:817-884 | an open session gets a failure event and becomes interrupted; a lapsed one becomes expired |
| AuthorityStores.AuthorityStore.AppendNextAuditEvent | packages/authority-store/src/index.ts:1359-1387 | appends the next sequence number exactly when the clock and the event id allow it |
| AuthorityStores.AuthorityStore.RecordWorkerAuditEvent | packages/authority-store/src/index.ts:886-919 | appends only for an open session, an unrevoked plan and a bound boundary |
| AuthorityStores.AuthorityStore.CompleteWorkerSession | packages/authority-store/src/index.ts:921-977 | both closing events and the status change, or none of them |
| AuthorityStores.AuthorityStore.AppendAuditEvent | packages/authority-store/src/index.ts:1334-1357 | appends exactly the next sequence number of a known session |
| AuthorityStores.AuthorityStore.ReserveResearch | packages/authority-store/src/index.ts:1091-1134 | three counters and one row move together, or nothing does |
| AuthorityStores.AuthorityStore.SettleResearchResults | packages/authority-store/src/index.ts:1136-1179 | the unused results return and the row is settled, or the call throws |
| AuthorityStores.AuthorityStore.StoreApproval | packages/authority-store/src/index.ts:1205-1251 | stored exactly for an active matching session with a bound active connection and fresh identifiers |
| AuthorityStores.AuthorityStore.ConsumeApproval | packages/authority-store/src/index.ts:1271-1332 | the statements amount to the function whose answers and mark `Conditions.ApprovalConsumedIff` and `Conditions.ApprovalUsed` spell out |
| AuthorityStores.AuthorityStore.AppendEvidenceExposures | packages/authority-store/src/index.ts:1406-1435 | one to three exposures, all or none |
| AuthorityStores.AuthorityStore.AppendAuthorityAttempt | packages/authority-store/src/index.ts:1437-1474 | an attempt with evidence of its own session that was available before it |
| AuthorityStores.AuthorityStore.AppendAuthorityDecision | packages/authority-store/src/index.ts:1476-1502 | one decision per attempt, not before it |
| AuthorityStores.SessionPlans.Save | packages/authority-store/src/session-plans.ts:76-121 | the statements amount to the function whose condition `Conditions.PlanStored` spells out |
| AuthorityStores.SessionPlans.Revoke | packages/authority-store/src/session-plans.ts:123-137 | says whether a row changed, and changes it |
| AuthorityStores.SessionPlans.Block | packages/authority-store/src/session-plans.ts:155-182 | the proposal is kept behind both capacity guards, the first one winning |
| AuthorityStores.SessionPlans.Check | packages/authority-store/src/session-plans.ts:150-287 | the statements amount to the function whose answers `Conditions.CheckAnswered`, and whose writes `Conditions.ConsumptionRecorded` and `Conditions.BlockedProposalKept`, spell out |
| Runs.Leaves | packages/authority-store/src/index.ts:433-443 | each transaction leaves the tables of every other group untouched |
| Budgets.LinkedStep | packages/authority-store/src/index.ts:155-260 | every row keeps pointing at a session that exists, and every session has a budget |
| Budgets.SoundStep | packages/authority-store/src/index.ts:155-260 | no counter goes negative and a settlement records between zero and the reserved count |
| Budgets.ConservedByStep | packages/authority-store/src/index.ts:629-788 | no transaction creates or destroys budget: only a broker tool call leaves the accounted total |
| Budgets.GrantedOnCreation | packages/authority-store/src/index.ts:445-505 | a session enters with exactly the budget it was granted |
| Budgets.BudgetConserved | packages/authority-store/src/index.ts:1091-1179 | in every reachable state the initial budget is what remains plus what tool calls, executions and reservations account for, and no counter is negative |
| Violations.StepExtends | packages/authority-store/src/index.ts:817-1013 | a session's row changes only by leaving the active state, and one transaction adds at most one event, of a session that was active |
| Violations.RevocationExplained | packages/authority-store/src/index.ts:1068-1078 | a session is revoked exactly when one of its events says so; that event is unique and last |
| Violations.StepInTime | packages/authority-store/src/index.ts:1015-1024 | a paced transaction adds its event in time order, and an unpaced one breaks that order |
| Violations.WindowBound | packages/authority-store/src/index.ts:1053-1067 | with events in time order, a closed window holds no more than the window that ends at its last event |
| Violations.NoCriticalWhileActive | packages/authority-store/src/index.ts:1065-1078 | in every run, whatever the clock does, an active session has only ordinary violations, each below the threshold in the window that ended with it |
| Windows.WindowsHoldIffNoneOverlooked | packages/authority-store/src/index.ts:1053-1067 | in every run: every state keeps every active session below the threshold in every closed window exactly when no step is an exhausted execution whose count misses violations recorded after its own time that fill a window with it |
| Windows.WindowsStep | packages/authority-store/src/index.ts:707-788 | one transaction keeps the windows of all active sessions exactly when it is not overlooked |
| Windows.PacedIsNoticed | packages/authority-store/src/index.ts:1015-1024 | a denial that the clock guard would have let through is never overlooked |
| Windows.PacingIsNotNeeded | packages/authority-store/src/index.ts:717-735 | a concrete run with a denial behind the clock guard that is still not overlooked |
| Windows.SteadyIsPaced | packages/authority-store/src/index.ts:1015-1024 | a clock that never runs backwards overlooks nothing |
| Violations.ActiveSessionsTolerated | packages/authority-store/src/index.ts:1026-1089 | corollary for paced runs, so for every clock that never runs backwards: an active session has no critical violation and fewer than the threshold of ordinary ones in every closed window |
| Violations.ChronologyIffPaced | packages/authority-store/src/index.ts:717-735 | the event log is in time order exactly when every recorded consume denial would have passed the clock guard |
| Violations.BackwardsClockEscapes | packages/authority-store/src/index.ts:717-735 | a concrete run in which a clock stepping back leaves three violations in one window and the session active |
| Violations.DenialCommits | packages/authority-store/src/index.ts:1068-1076 | the "not atomic" exceptions are unreachable for an open session |
| PlanLedger.LedgerStep | packages/authority-store/src/session-plans.ts:76-287 | every transaction keeps versions, counters and one-use executions sound |
| PlanLedger.LedgerReachable | packages/authority-store/src/session-plans.ts:254-280 | in every reachable state each grant's counters equal its execution rows and stay within the plan, and no request or mutation of a session is executed twice under any version |
| PlanLedger.PlanVersions | packages/authority-store/src/session-plans.ts:96-98 | a session's versions are exactly one up to the current one, each stored once |
| PlanLedger.SupersededFrozen | packages/authority-store/src/session-plans.ts:63-74 | once a later version is stored, a grant's counters never change again |
| PlanChecks.ConsumeIffInspected | packages/authority-store/src/session-plans.ts:183-286 | a consumption is allowed exactly when a bare inspection is, for the inspected grant and base branch, and then gives the same answer |
| PlanChecks.InspectionIsReadOnly | packages/authority-store/src/session-plans.ts:150-182 | an inspection that is allowed or finds no plan writes nothing, and a blocked one only queues |
| PlanChecks.QueueReachable | packages/authority-store/src/session-plans.ts:155-182 | in every reachable state a session has at most 32 pending entries in at most 48 KiB of JSON, keyed by request |
| PlanChecks.QueueMeasured | packages/authority-store/src/session-plans.ts:160-168 | the bytes counted for a queue are those of the JSON array of its entries |
| PlanChecks.EntryMeasured | packages/authority-store/src/session-plans.ts:160-163 | the bytes counted for an entry are those of its JSON text |
| PlanChecks.EntryStays | packages/authority-store/src/session-plans.ts:277-279 | an entry stays as it is until a consumption of its own request removes it |
| PlanChecks.ByteLimitIffOneShort | packages/authority-store/src/session-plans.ts:160-179 | from below the byte limit a proposal takes a queue to the limit exactly when it is new, follows another entry, finds fewer than 32, and the guard's sum is one short of the limit |
| PlanChecks.ByteLimitReached | packages/authority-store/src/session-plans.ts:164-167 | a run from the empty store whose 32 valid requests of under two kilobytes each fill the queue to the limit |
| Views.StepLocal | packages/authority-store/src/index.ts:445-1502 | a transaction changes no row keyed by a session it does not name |
| Evidence.DecisionsTraceable | packages/authority-store/src/index.ts:1406-1502 | in every reachable state an attempt rests only on evidence of its own session retrieved before it, and has at most one decision, which follows it |
| Terminal.EndedStep | packages/authority-store/src/index.ts:629-1013 | one transaction leaves the authority of an ended session final |
| Terminal.EndedForever | packages/authority-store/src/index.ts:592-1013 | a session leaves the active state at most once and never returns; afterwards nothing is claimed, reserved, approved, consumed or bound for it |
| Terminal.EndedRefuses | packages/authority-store/src/index.ts:979-1013 | what each kind of request is told once the session has ended |
| AuditLog.LatestIsLast | packages/authority-store/src/index.ts:1364-1383 | the next sequence number is one more than the length of the session's log |
| AuditLog.SequencesExact | packages/authority-store/src/index.ts:1334-1387 | in every reachable state a session's events are numbered from one without a gap |
| AuditLog.ServedLogFaithful | packages/authority-store/src/index.ts:886-977 | over the service interface events are in time order, worker events bind claimed or denied executions, and a session is completed exactly when its log ends with the returned completion and the terminal event |
| AuditLog.ClosedForever | packages/authority-store/src/index.ts:921-977 | the log of a completed session never changes again |
| Gate.BindingFor | apps/authority-service/src/index.ts:221-227 | a configured capability that matches, and none exactly when none does |
| Gate.DispatchedIffAdmitted | apps/authority-service/src/index.ts:240-570 | a call reaches the store exactly when its capability admits role, caller, session, time, operation and payload; otherwise nothing changes |
| Gate.PayloadNames | apps/authority-service/src/index.ts:306-565 | a payload is admitted exactly when it names no session and no caller but those of its call |
| Gate.OneRoleEach | apps/authority-service/src/index.ts:23-54 | every operation is open to exactly one role |
| Gate.TransactionFaithful | apps/authority-service/src/index.ts:306-565 | an admitted call that is no read becomes the transaction from which its payload can be read back, for its own session and at the store's time |
| Gate.WriteIsolation | apps/authority-service/src/index.ts:306-565 | a call under a capability of one session changes no row of another |
| Gate.IsolatedForever | apps/authority-service/src/index.ts:240-570 | no sequence of calls under other sessions' capabilities touches a session |
| Gate.SeparationOfDuties | apps/authority-service/src/index.ts:23-54 | only a launcher or the authorization service can grant, and only the broker can use what was granted |
| Gate.CurrentIsLocal | packages/authority-store/src/session-plans.ts:63-74 | the current plan of a session is found among its own rows |
| Gate.ReadIsolation | apps/authority-service/src/index.ts:342-475 | the answer to a read is a function of the session's own rows and the connections |
| Gate.ReadTells | apps/authority-service/src/index.ts:342-475 | what each read tells: a worker sees its budget exactly while its session is live and its plan is not revoked |
| Gate.ApprovalTold | apps/authority-service/src/index.ts:421-440 | an approval, and whether it was used, is told to its own session only |
| BrokerRuns.KeptStep | packages/broker/src/index.ts:203-659 | one step of a run keeps its flags, merges and decisions truthful, whatever is answered |
| BrokerRuns.FlagsRaised | packages/broker/src/index.ts:543-623 | a consumption flag is raised only by a committed consumption, and GitHub is reached only after the adapter flag |
| BrokerRuns.Progress | packages/broker/src/index.ts:203-659 | every step brings a run closer to its end, so no run takes more than twenty |
| BrokerConduct.OnlyEarned | packages/broker/src/index.ts:203-659 | a run that merges, or succeeds, was told all it depends on: a live matching session, the attempt stored, an active connection of the right scope, the plan, a certain guardian answer within the floor, the tool call, the head in place, the supplied approval found stored, unused and fitting and then taken or the plan asked again and consumed for the base branch, the merge done and the decision stored |
| BrokerConduct.FavouredPerforms | packages/broker/src/index.ts:203-659 | the converse: a run that is told at every step what it waits for succeeds, within twenty steps |
| BrokerConduct.MergesEarned | packages/broker/src/index.ts:626-653 | in every interleaving of runs and other clients, each merge request was earned by what its own run had been told |
| BrokerConduct.GuardianStep | packages/broker/src/index.ts:422-505 | a run goes on from the guardian exactly when the answer is certain and allows (or asks to confirm a merge), and an unplanned merge has an approval to show; otherwise the first complaint gives the code |
| BrokerConduct.GuardianRecorded | packages/broker/src/index.ts:422-492 | the floor can only rise, an uncertain answer counts as step-up and a failed one as deny, and the recorded outcome says which |
| BrokerConduct.SessionStep | packages/broker/src/index.ts:214-252 | a run goes on exactly when the session is active, bound to the request in every field and live, and evidence can be named; otherwise its code says which of these failed |
| BrokerConduct.ConnectionStep | packages/broker/src/index.ts:354-376 | a run goes on exactly with an active connection of its session for the repository and the permission of the request, and remembers its scope |
| BrokerConduct.PlanStep | packages/broker/src/index.ts:378-391 | a run goes on exactly when no plan exists or an inspection allows the request, and otherwise with the plan's own code |
| BrokerConduct.ApprovalJudged | packages/broker/src/index.ts:503-541 | a stored approval passes exactly when it is the supplied one, unused, fits the request in every field and is in its window; the first complaint gives the code |
| BrokerConduct.CheckStep | packages/broker/src/index.ts:393-420 | a validation passes exactly when the plan, if there is one, still allows the request for the grant and base branch the run has seen; it consumes only before a read and directly before a merge |
| BrokerConduct.ReadStep | packages/broker/src/index.ts:572-602 | a snapshot passes exactly when the head is where request and plan say, and a merge is mergeable |
| BrokerConduct.RefreshStep | packages/broker/src/index.ts:632-645 | a refreshed snapshot passes exactly when it agrees with the first |
| BrokerConduct.AskedOpening | packages/broker/src/index.ts:253-650 | what a run asks of the store at each step, always of its own request, attempt and approval |
| BrokerConduct.DecisionsSay | packages/broker/src/index.ts:281-352 | every field of the decision a run writes down, and which refusals count as failed or step-up |
| BrokerConduct.DenialCloses | packages/broker/src/index.ts:281-326 | a denial is answered with its code exactly when it is on record, after five of them were put to the plan; any loss on the way is answered "audit unavailable" |
| BrokerSafety.MergeJustified | packages/broker/src/index.ts:393-659 | in every interleaving a merge request is its run's own operation and follows that run's own committed tool call and either a plan consumption for the request's digest or the consumption of an approval that is stored for this session and for that digest |
| BrokerSafety.TakenWhileActive | packages/authority-store/src/index.ts:1305-1324 | a tool call, an approval or a plan consumption is only taken from an active session |
| BrokerSafety.MergesOnce | packages/broker/src/index.ts:626-653 | a run sends at most one merge request |
| BrokerSafety.OneMergePerApproval | packages/broker/src/index.ts:592-653 | in every interleaving an approval yields at most one merge request |
| BrokerSafety.OnePlannedMergePerHead | packages/authority-store/src/session-plans.ts:229-280 | in every interleaving one head commit is merged at most once under the plans of a session |
| BrokerSafety.DecisionRecords | packages/broker/src/index.ts:203-352 | a run stores at most one decision, for its own attempt, committed before it; `ok: true` has a stored "allowed" decision; any other answer but "audit unavailable" has the decision it answered with, or is one of three refusals before any attempt; a stored "allowed" decision has a floor that lets the operation pass; a stored decision claims no consumption that did not happen and denies no request that was sent |
| BrokerSafety.FloorsPermit | packages/broker/src/index.ts:422-505 | in every interleaving a run past its guardian step that was not refused has the floor allow, or confirm for a merge |
| BrokerExecutions.Execution.constructor | packages/broker/src/index.ts:203-212 | a run starts waiting for its session, or has already been refused |
| BrokerExecutions.Execution.Deny | packages/broker/src/index.ts:281-297 | a denial that concerns a plan is deferred first |
| BrokerExecutions.Execution.OnSession | packages/broker/src/index.ts:214-252 | the session and evidence checks, in order |
| BrokerExecutions.Execution.OnConnections | packages/broker/src/index.ts:354-376 | the connection and scope checks |
| BrokerExecutions.Execution.OnInspection | packages/broker/src/index.ts:378-391 | what the first plan inspection leaves |
| BrokerExecutions.Execution.OnGuardian | packages/broker/src/index.ts:422-505 | the step in place amounts to the one that `BrokerConduct.GuardianStep` and `BrokerConduct.GuardianRecorded` spell out |
| BrokerExecutions.Execution.OnApproval | packages/broker/src/index.ts:503-541 | the checks of a supplied approval against the stored one |
| BrokerExecutions.Execution.OnTool | packages/broker/src/index.ts:543-550 | the tool flag is raised only by a budget in the answer |
| BrokerExecutions.Execution.Validate | packages/broker/src/index.ts:393-420 | what a validation throws, and that only a planned merge it passes raises the approval flag |
| BrokerExecutions.Execution.OnRead | packages/broker/src/index.ts:572-602 | the checks of the snapshot and the branch to approval, merge or allow |
| BrokerExecutions.Execution.OnConsumption | packages/broker/src/index.ts:592-624 | the approval flag is raised only by the answer "consumed" |
| BrokerExecutions.Execution.OnRefresh | packages/broker/src/index.ts:632-645 | the refreshed snapshot must agree with the first |
| BrokerExecutions.Execution.OnMergeCheck | packages/broker/src/index.ts:646-650 | the last validation before the merge request |
| BrokerExecutions.Execution.OnDecision | packages/broker/src/index.ts:298-352 | the result is returned only when its decision was stored |
| Dispatcher.GrantAddsRow | packages/authority-store/src/index.ts:718-787 | a granted claim adds its own row, and no stored row claims the same execution |
| Dispatcher.ClaimsBound | apps/reference-supervisor/src/worker-execution.ts:281-380 | over every interleaving, whatever is claimed or acted on comes from an exact envelope, within the turn bounds, for the session, scope and workspace of the host that dispatched it |
| Dispatcher.ActsAfterClaim | apps/reference-supervisor/src/worker-execution.ts:372-573 | an effect runs only after an allowed claim of the same dispatch for the same execution |
| Dispatcher.AtMostOnce | apps/reference-supervisor/src/worker-execution.ts:281-575 | over every interleaving, replays included, an execution id or session digest is acted on at most once |
| Dispatcher.CommandsWithinAllowance | apps/reference-supervisor/src/worker-execution.ts:526-573 | local commands run for a session never exceed its initial allowance |
| Dispatcher.LateTurnRevokes | apps/reference-supervisor/src/worker-execution.ts:307-320 | a tool execution of a turn at or past the bound never proceeds, and its recorded violation revokes |
| Dispatcher.ScreeningJudged | apps/reference-supervisor/src/worker-execution.ts:281-371 | a dispatch claims its execution exactly when none of nine spelled-out objections applies; otherwise the first decides whether it fails, reports a violation or interrupts |
| Dispatcher.ClaimJudged | apps/reference-supervisor/src/worker-execution.ts:372-390 | a delivered claim of a known session goes on to its tool exactly when the execution is new, affordable and its session live |
| Dispatcher.ClaimUnanswered | apps/reference-supervisor/src/worker-execution.ts:385-391 | a claim that is not answered ends the dispatch, and interrupts the session of an external tool |
| Dispatcher.AuditingJudged | apps/reference-supervisor/src/worker-execution.ts:392-399 | an external tool runs exactly after its proposal was audited, or where no audit is configured and no turn continues |
| Dispatcher.StepJudged | apps/reference-supervisor/src/worker-execution.ts:392-573 | what a dispatch asks of the store at each step, and what follows a failed or denied effect |
| WorkerTurns.Trim | apps/reference-supervisor/src/bootstrap.ts:676-682 | the longest recent run of at most three results that fits in 40,000 bytes, or none |
| WorkerTurns.RunTurns | apps/reference-supervisor/src/bootstrap.ts:553-723 | for any worker and any dispatcher the loop ends within its bound (maxTurns turns with a continuation, two without), every turn carries the latest result and the longest recent history that fits, every dispatched request is admitted and bound to its turn; it ends completed exactly when the last reply is final and there is no continuation or the authority recorded the completion, or when an admitted request has no executor; revoked exactly on a bound result that says so; and otherwise on the failure that is named |
| WorkerTurns.RefusedRequests | packages/worker/src/index.ts:275-325 | a worker's request is refused exactly for one of seven complaints about turn, catalogue and budget |
| WorkerTurns.WholeCatalogue | apps/reference-supervisor/src/bootstrap.ts:676-723 | the whole catalogue is offered in every turn but the last, unless a search has just been refused |
| WorkerTurns.LaterTurnBound | packages/contracts/src/worker.ts:522-613 | the bindings a turn's own schema checks (turn bound, result of the turn before, history in turn order) hold of every turn the loop builds |
| Research.SettledExactlyOnce | apps/research-service/src/index.ts:534-610 | a job asks for exactly one settlement of the reservation it opened, for as many results as it recorded and no more than it reserved; the reservation is settled as asked, for ever, exactly when that call reaches the store |
| Research.StepJudged | apps/research-service/src/index.ts:534-610 | a job searches exactly when its reservation was made, records exactly a usable answer, and settles for the results it knows to be recorded or for none |
| Portal.WithinStep | apps/control-api/src/judge-portal.ts:85-233 | previews being prepared, waiting and running never exceed sixteen, and none is in two places |
| Portal.TrackedStep | apps/control-api/src/judge-portal.ts:85-233 | each step keeps every session run at most once, in its own window, and none lost |
| Portal.PortalReachable | apps/control-api/src/judge-portal.ts:85-233 | all of it at every step of every interleaving with timers, aborts and close |
| Portal.NothingAfterClose | apps/control-api/src/judge-portal.ts:226-233 | after close nothing becomes pending or active, no session is run, and what is still prepared is closed |
| Portal.DraftAdmitted | apps/control-api/src/judge-portal.ts:85-92 | a draft takes a slot exactly when the portal is open and fewer than sixteen are taken |
| Portal.OfferMade | apps/control-api/src/judge-portal.ts:117-155 | a prepared session is offered for 30 seconds exactly when it is acceptable and the portal is open, and is closed otherwise |
| Portal.ConfirmationJudged | apps/control-api/src/judge-portal.ts:165-194 | a run starts exactly for an open portal, a waiting preview, its own source and digest, a moment inside the 30 seconds and a caller that has not gone; a late, early or gone one discards the preview, any other changes nothing |
| Portal.EndsClosed | apps/control-api/src/judge-portal.ts:157-221 | a preview that times out and a run that is cancelled or over close their own session and touch no other |
| Portal.AllClosed | apps/control-api/src/judge-portal.ts:226-233 | close aborts every run, forgets every preview, and closes exactly the sessions that were held |
| Portal.JudgePortal.BeginDraft | apps/control-api/src/judge-portal.ts:85-92 | a draft takes a slot exactly when the portal is open and has one |
| Portal.JudgePortal.FinishDraft | apps/control-api/src/judge-portal.ts:117-155 | a prepared session becomes pending under a 30-second preview, or is closed |
| Portal.JudgePortal.Discard | apps/control-api/src/judge-portal.ts:157-163 | a pending preview is forgotten and its session closed |
| Portal.JudgePortal.Confirm | apps/control-api/src/judge-portal.ts:165-194 | accepted exactly for the same source and digest inside the window, and then consumed before anything is awaited |
| Portal.JudgePortal.FinishRun | apps/control-api/src/judge-portal.ts:210-221 | a run that ends leaves the active set and closes its session |
| Portal.JudgePortal.Close | apps/control-api/src/judge-portal.ts:226-233 | every run is aborted, every preview discarded and every held session closed |
| JourneyBudget.StepKeepsCall | apps/control-api/src/judge-portal-budget.ts:39-51 | the first settlement outcome wins |
| JourneyBudget.SettledExactlyOnce | apps/control-api/src/judge-portal-budget.ts:28-110 | the budget is settled at most once, exactly once when preparation failed, a close finished or a run returned, and a returned completed result was settled as completed |
| JourneyBudget.DemandHeard | apps/control-api/src/judge-portal-budget.ts:39-51 | the budget hears the first demand only, as completed exactly for a completed run that was not cancelled, and its answer stands |
| JourneyBudget.EachGoesOn | apps/control-api/src/judge-portal-budget.ts:63-89 | a run starts exactly once for a prepared, open, uncancelled session, and returns exactly when it was settled, not cancelled or closed, and its result is readable |
| JourneyBudget.EachEnds | apps/control-api/src/judge-portal-budget.ts:91-110 | a close and a failed preparation go on to the runtime, then to the settlement, then end |
| JourneyBudget.UndisturbedReturns | apps/control-api/src/judge-portal-budget.ts:63-89 | a prepared journey that nothing disturbs returns its completed result, settled as completed |
| JourneyBudget.Session.Settle | apps/control-api/src/judge-portal-budget.ts:39-51 | only the first call reaches the budget |
| JourneyBudget.Session.Conclude | apps/control-api/src/judge-portal-budget.ts:71-89 | a result is returned only when the settlement was accepted and nothing was cancelled |
| JourneyBudget.Session.Close | apps/control-api/src/judge-portal-budget.ts:91-100 | the session is closed at once, and the runtime only once |
| Timestamps.YearLength | packages/contracts/src/common.ts:106 | the day count of a year is 365, or 366 in a leap year |
| Timestamps.MillisOrder | packages/contracts/src/common.ts:106 | the order of civil fields is the order of milliseconds, leap years included |
| Timestamps.CountedFromEpoch | packages/contracts/src/common.ts:106 | milliseconds are counted from the start of 1970, the following day of the calendar is 86,400,000 later, and the time of day is added: this fixes the value of every date and time |
| Timestamps.TextOrderIsTimeOrder | packages/authority-store/src/index.ts:1015-1024 | for accepted timestamps, comparing text and comparing parsed milliseconds agree |
| Timestamps.ParseText | packages/contracts/src/common.ts:106 | the text of an accepted timestamp is read back as itself |
| Timestamps.TextParse | packages/contracts/src/common.ts:106 | an accepted text is the text of what it is read as |
| Timestamps.IsoOfMillis | packages/authority-store/src/index.ts:1053-1055 | formatting a parsed accepted timestamp gives the same text |
| Timestamps.WindowByText | packages/authority-store/src/index.ts:1053-1063 | the text bounds of the violation window select exactly what the parsed bounds select, even when the window starts before the year 0000 |
| Canonical.Sorted | packages/canonical/src/index.ts:75-78 | every key of an object, each once, each before the next in the order that `Canonical.BeforeIsAscending` spells out |
| Canonical.BeforeIsAscending | packages/canonical/src/index.ts:75-78 | one key precedes another exactly when it is a proper prefix of it, or has the smaller UTF-16 code unit where they first differ |
| Canonical.SortedAscending | packages/canonical/src/index.ts:75-78 | the printed keys ascend in that spelled-out order |
| Canonical.BodyUnique | packages/canonical/src/index.ts:75-78 | a printed string ends where it ends, lone surrogates and escapes included |
| Canonical.PrintUnique | packages/canonical/src/index.ts:75-78 | a printed value can be read in only one way, whatever delimiter follows it |
| CanonicalReading.PrintReads | packages/canonical/src/index.ts:75-78 | a JSON reader written from the grammar alone reads a printed value back as the value, and stops where it ends |
| CanonicalReading.EscapesSparingly | packages/canonical/src/index.ts:75-78 | exactly quotes, backslashes and surrogates are escaped, the latter with four small hexadecimal digits |
| Canonical.SplitAtVersion | packages/canonical/src/index.ts:92 | the last dot separates the version even from a name that ends in ".v1" |
| Canonical.PreimageInjective | packages/canonical/src/index.ts:80-98 | equal preimages come only from equal name, version and value |
| Canonical.BytesInjective | packages/canonical/src/index.ts:93-97 | well-formed text can be read back from its UTF-8 bytes |
| CanonicalReading.BytesRead | packages/canonical/src/index.ts:93-97 | a UTF-8 reader written from its own rules reads the bytes of well-formed text back as the text |
| Canonical.BytesIdentifyValue | packages/canonical/src/index.ts:80-98 | equal hashed bytes come only from equal name, version and value |
| CanonicalReading.PreimageReads | packages/canonical/src/index.ts:80-98 | the hashed bytes are the UTF-8 of "guardian.", the name, ".v" and the version in decimal, a NUL, and a JSON text that reads back as the value |
| Canonical.CheckIffDenotes | packages/canonical/src/index.ts:29-73 | the check accepts exactly the object graphs with a finite unfolding of supported values: sharing passes, cycles do not |
| Canonical.ScalarsRefused | packages/canonical/src/index.ts:23-45 | exactly negative zero, non-finite numbers, unsafe integers, and strings that are not normalized or hide a unit are refused |
| Canonical.HiddenUnits | packages/canonical/src/index.ts:7-21 | exactly the C0 and C1 controls, zero-width characters, bidirectional marks, embeddings and isolates, and the byte order mark are hidden |
| Canonical.NamesAreDotted | packages/canonical/src/index.ts:5 | a contract name is one or more dot-separated segments of small letters, digits and underscores, each starting with a letter |
| Canonical.DigestTaken | packages/canonical/src/index.ts:80-98 | a digest is taken exactly of a supported value under such a name and a version between one and the largest safe integer |
| Canonical.SameDigestIffSameValue | packages/canonical/src/index.ts:29-98 | two object graphs are hashed from the same bytes exactly when name, version and value agree, key order and sharing ignored |
| Credentials.RotationReachable | apps/broker-service/src/github-credential.ts:277-382 | at most one rotation is in flight, and a finished one left the slots all new, all unchanged or all missing while cleanup deletes succeed |
| Credentials.WholeReachable | apps/broker-service/src/github-credential.ts:369-382 | a store that held one whole credential holds one or nothing whenever no rotation runs |
| Credentials.RefusalLeavesSlots | apps/broker-service/src/github-credential.ts:277-333 | whatever happened before, a rotation ended by an unreadable token, a failed request or a refusal leaves the slots as they were when it began |
| Credentials.GoodRotationStores | apps/broker-service/src/github-credential.ts:277-367 | a rotation that nothing disturbs stores all three parts of its generation, whatever was there before |
| Credentials.WriteJudged | apps/broker-service/src/github-credential.ts:336-367 | refresh token, access token and metadata are written in this order, and a failed write starts the cleanup |
| Credentials.DeleteJudged | apps/broker-service/src/github-credential.ts:250-261 | the cleanup tries each slot once, and remembers any failure |
| Credentials.Rotate | apps/broker-service/src/github-credential.ts:277-367 | one rotation statement by statement, under every combination of failing writes |
| Credentials.Cleanup | apps/broker-service/src/github-credential.ts:250-261 | all three slots are empty when no delete failed |
| Credentials.SnapshotCredentials | apps/guardian-cli/src/setup.ts:133-147 | one snapshot per slot of what it holds, or none at all |
| Credentials.RestoreCredentialSnapshots | apps/guardian-cli/src/setup.ts:149-163 | every slot is put back; when some restores fail, every other slot still is |
| Credentials.RestoredIsBefore | apps/guardian-cli/src/setup.ts:149-163 | putting back the snapshots gives the slots back, whatever had been written |
| Credentials.RunGitHubDeviceSetup | apps/guardian-cli/src/setup.ts:317-384 | enrolment succeeds exactly when nothing fails up to its announcement; it leaves the slots all new or exactly as they were; it reports a failed rollback exactly when writes had begun, something failed and a restore failed too, and then every other slot is as it was |

## Left out

- Sockets, framing, peer identity, child processes, file permissions, SQLite schema creation and migrations: operating-system behaviour; a transaction is one atomic step.
- The second validation of rows read back from the tables (for example a session whose update time precedes its creation time after a clock step): rows are read as they were written.
- SHA-256, HMAC and constant-time comparison: digests are collision free by construction.
- The JSON text of a request is represented by its length in bytes, which is all the pending queue looks at.
- Fields no decision depends on (principal names, labels, provider request identifiers, review content): not part of the rows.
- Provider, guardian and GitHub clients: their answers are arbitrary parameters of the steps.
- Broker.Act: the interleavings are modelled on values because any number of runs share one store; BrokerExecutions gives the updates of one run in place, between awaits.
- Dispatcher.Act: the dispatcher is modelled on values for the same reason; the audit events after an effect are transactions of other clients, and the runtime's in-memory state is a parameter.
- Research.Act: the provider's answer is a parameter, and so is whether the ledger refuses it for another reason than its length; a reservation whose answer is lost is not settled by anyone.
- Research.SettledExactlyOnce: assumes that nobody else settles a job's reservation, because reservation identifiers are random and given only to the job.
- Gate.Serve: a response that fails its own schema after the transaction committed is reported as unavailable by the program; the model speaks of the tables, not of that report.
- BrokerSafety.OnePlannedMergePerHead: is per session, as the ledger's key is; two sessions may each merge the same head.
- WorkerTurns.RunTurns: deadlines, the size and expiry checks of a turn and the authority's answers are parameters; what is reported to the authority after a failed loop is not modelled.
- Canonical.SameDigestIffSameValue: the printer is RFC 8785 itself; that json-canonicalize, which is not part of this model, follows it is assumed (an own property named `toJSON`, for example, may be printed differently there), and so are ECMAScript's number texts.
- Canonical.Check: Unicode normalization is a parameter, numbers are known by their ECMAScript numerals, and property names of one object are distinct as in JavaScript.
- Portal.JudgePortal: scenario checks and preview text are one flag; preview identifiers are fresh because they are random.
- Session launch, mission formation, research content checks, the managed demo budget service, the web interface and the command line: they would add case analyses without state behind them.
