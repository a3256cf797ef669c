# ReplaySafe: a verified model

This project models the parts of ReplaySafe that decide whether an operation may run, and proves
what they guarantee. It is written in Dafny 4.11; `dafny verify dfyconfig.toml` checks all of it.

| files | what they model |
|---|---|
| `Values.dfy` | optional values, JSON documents, numerals |
| `Ledger.dfy`, `GuardsService.dfy`, `BeginCases.dfy` | the side-effect ledger: the meaning of every operation as a function on the table, the service class whose methods change the table in place, and what a begin request is told the first time and again |
| `Protocol.dfy`, `Invariant.dfy`, `Steps.dfy`, `Guarantees.dfy` | any number of SDK sessions, their messages, the verification pass, the planner and an operator as one transition system; its invariant; what holds over every run |
| `Records.dfy` | what each operation writes, field by field, and what every row remembers of its request over every run |
| `LateReturns.dfy`, `Crashes.dfy`, `EarlyApproval.dfy`, `EarlyApprovalRuns.dfy`, `Limits.dfy`, `Scenarios.dfy` | where the guarantees end, and exactly when: operations that outlive their timer, sessions that die, approvals that come too early; concrete runs |
| `Continuation.dfy`, `Gates.dfy` | the continuation plan, and the gate in front of new sessions |
| `ReplayGuard.dfy` | one `effect()` call of the SDK with its retries, shown to be a run of that system |
| `Legacy.dfy` | the older entry point `verifySideEffect` |
| `Breaker.dfy`, `CreateSession.dfy`, `BreakerRuns.dfy`, `RetryBudget.dfy` | the circuit breaker: TTL cache, STREAK patterns, attempt numbers |
| `Routes.dfy` | the `/session` and `/resume` handlers |
| `CanonicalHash.dfy`, `UniqueDecoding.dfy`, `Cleaning.dfy`, `Fingerprints.dfy` | the canonical serialiser, the cleaning of inputs and the fingerprints |
| `SlidingWindow.dfy`, `RateLimiter.dfy`, `Verification.dfy`, `VerificationRate.dfy` | the rate limiter of provider verification, and the passes over UNKNOWN effects |
| `Cascade.dfy`, `Lockout.dfy`, `SelfHealing.dfy` | the cascade detector, the sign-in lockout, self-healing attempts |

## Assumptions

The ledger protocol is modelled under these assumptions; without them the claims are false of the code.

- Each service call is one atomic step: the code checks and then creates, without a transaction. Request handlers and SDK calls are sequences of such steps, between which anything else may be served. The methods `Effect`, `PostSession`, `PostResume` and `AttemptHeal` describe one such sequence with nothing served in between.
- The SDK runs with `failPolicy` CLOSED and inside a session. A session makes one call at a time and ends at its first effect error, as it does under `withReplayGuard` when the job does not catch.
- A begin request may be served any number of times and at any time after it was sent, also when its session works on something else or is over; its answers may be lost. The process may die anywhere, also between `execute` and its commit. An operation whose timer has fired goes on running and may still return.
- Every commit, unknown or failed report is delivered at most once, possibly never.
- No call of the older entry point `verifySideEffect` uses a fingerprint of the protocol's effects. Such a call writes a COMMITTED row that no `execute` stands for. `Legacy.dfy` treats these calls by themselves.
- `executedAt` is creation order. Execution ids are fresh. The SDK passes on the workflow of its session.
- An operator does not approve an effect whose begin request still waits for its answer. `EarlyApproval.dfy` and `EarlyApprovalRuns.dfy` say exactly what goes wrong otherwise.
- Generated ids (monitors, projects) hold no colon. There is one API process with a monotone clock; times are whole milliseconds.
- The hash functions are free of collisions, and SHA-1 is represented by an arbitrary injective function.

## Findings

Where the code and its promises part, the model follows the code.

- At most once holds for the returns that reach their `effect()` call. Counting every successful return of `execute`, it holds exactly for the effects that are called without a timer (`timeoutMs` 0, as `wrap` passes): the timer does not cancel the operation, another session is granted the effect once UNKNOWN is reported, and then both operations may return (`AtMostOnceExactly`). The default of `effect()` is 30 seconds.
- A begin request that was served without being heard is told SKIP when it is sent again, exactly if by then the effect is not done in the project and no other execution has a running row of it (`SkipMeansDoneExactly`, `ServedRequestIsTold`). `effect()` then returns a message as the value of an operation that has succeeded nowhere. This happens after a grant whose answer was lost (`RetriedBeginIsToldSkip`), and also after an unheard conflict whose holder has timed out since (`RememberedWhileAwaiting`). Otherwise the retry ends in an error. If nothing else is served between the attempts, only a lost grant leads to the false SKIP (`RepeatedCallIsTold`).
- A session request asks for the plan and then for the session. A report that arrives in between lets a session start in a blocked workflow (`GateIsOvertaken`); exactly which steps can do this is `BlocksExactly`. A replay that is held back for its delay can be overtaken in the same way: it is decided while nothing blocks the workflow and goes out after the delay without another look (`ReplayIsOvertaken`).
- If the session dies between a served begin request and its report, the row stays EXECUTING forever and every later session of the project is told CONFLICT in its name (`StuckForever`).
- An approval that comes while the begin request is retried makes the effect count as done and yet have it granted (`EarlyApprovalGrantsExactly`). Over all later runs it leads to a second success exactly if the effect can be granted at that moment and has succeeded before or runs elsewhere (`EarlyApprovalDuplicatesExactly`); and a later report of the session takes the done row back (`EarlyApprovalUndoneExactly`).
- `effect()` takes a `scope`, documented to be the monitor by default, and the SDK puts it into the body of effect/begin. The handler does not read it and `beginSideEffect` has no such parameter: an effect is always looked up in the whole project, and a job of another monitor is told to skip it (`ForeignFalseComesBackEmpty`).
- A committed result that is falsy (`0`, `false`, `""`, `null`) is stored as `{}` and replayed as `{}` (`ReplayFidelity`, `ForeignFalseComesBackEmpty`).
- With a retry budget of seven or more nothing bounds the executions of a job: a trip without a cache entry records attempt 5 whatever the database says, so that detection, restart and two requests hand out attempt 6 again and again. Jobs named `__no_external_id__` share the cache entry of anonymous sessions and lose every bound already at a budget of three (`BudgetHoldsExactly`).
- For the same reason a job that has never run can be refused for its attempts: if it asks during a cooldown, it is recorded at attempt 5, and asking again after the cooldown, within the five minutes of the entry, closes the monitor for another hour under every budget up to six (`AskingTooEarlyClosesAgain`, `RefusedWithoutARun`).
- In the canonical form a number is not delimited, so `1` followed by `2` reads like `12` (`NumbersRunOn`). Inside lists and dictionaries every next value starts with a letter, which is why decoding is unique all the same.

## Model

| member | source | states |
|---|---|---|
| Guards.GuardsService.BeginSideEffect | apps/api/src/services/GuardsService.ts:509-688 | the request is answered and the ledger changed exactly as the ledger semantics says, on every path including unknown executions and unique-key failures |
| Guards.GuardsService.CommitSideEffect | apps/api/src/services/GuardsService.ts:692-707 | exactly the caller's row becomes COMMITTED with result and receipt; a missing row is an error and changes nothing |
| Guards.GuardsService.MarkFailed | apps/api/src/services/GuardsService.ts:732-746 | exactly the caller's row becomes FAILED with the error and the extra fields |
| Guards.GuardsService.PlanEffect | apps/api/src/services/GuardsService.ts:783-826 | one round of the planner's loop: the step of the effect, and the rewrite of a hard failure to AWAITING_APPROVAL |
| Guards.GuardsService.GetContinuationPlan | apps/api/src/services/GuardsService.ts:773-843 | the loop yields one step per effect in creation order with the right verdict, and moves exactly the hard failures of the workflow to AWAITING_APPROVAL |
| Guards.GuardsService.ApproveSideEffect | apps/api/src/services/GuardsService.ts:848-865 | only an AWAITING_APPROVAL row of the project becomes VERIFIED; everything else is an error without effect |
| Guards.GuardsService.VerifySideEffect | apps/api/src/services/GuardsService.ts:166-328 | the older entry point changes table and answers as specified, with snapshots, both scopes, the merge into an own row and both unique-key failures |
| Guards.PlanUptoSteps | apps/api/src/services/GuardsService.ts:780-826 | after n rounds the pushed steps are those of the first n effects, and the two flags say whether one blocks and whether all are SKIP |
| Guards.PlanUptoTable | apps/api/src/services/GuardsService.ts:783-826 | after n rounds exactly the hard failures among the first n effects have been rewritten |
| Guards.EffectsDistinct | apps/api/src/services/GuardsService.ts:774-777 | every effect of a workflow is planned once |
| Ledger.DoneRow | apps/api/src/services/GuardsService.ts:530-540 | finds a COMMITTED or VERIFIED row of the fingerprint in the project if and only if there is one |
| BeginCases.DoneRowExactly | apps/api/src/services/GuardsService.ts:537-540 | a given row is found if and only if it is such a row and none was created later |
| BeginCases.AnswerOnRepeat | apps/api/src/services/GuardsService.ts:530-688 | however often a request was served before, the next answer is the same: what was granted or skipped for want of an own row is not granted or replayed again |
| Records.BeginWrites | apps/api/src/services/GuardsService.ts:541-669 | the row and the answer of a first request, by the rows of any table: type, target, input, provider, workflow and agent of the operation (no provider on a SKIPPED row, workflow and agent of the session where the operation names none), and status, notes and replayed value in each of the three situations |
| Records.BeginMarks | apps/api/src/services/GuardsService.ts:592-606 | rows that are there already stay as they are, except that a conflict is noted on the running row, whose other entries stay |
| Records.ReportWrites | apps/api/src/services/GuardsService.ts:692-746 | a report sets status, result, receipt, reason or error of its row, and nothing else anywhere |
| Records.OutcomeWrites | apps/api/src/services/VerificationService.ts:188-220 | an answer of a verifier sets status and failure type, keeps the metadata and adds its note; UNKNOWN changes nothing |
| Records.VerifierDecidesOnRetry | apps/api/src/services/GuardsService.ts:797-811 | after a failed verification the plan retries if and only if the verifier called the failure transient, and asks a human otherwise |
| Records.ApprovalWrites | apps/api/src/services/GuardsService.ts:848-865 | an approval succeeds if and only if the row awaits it in the project, and then changes status and note only |
| Records.SettleWrites | apps/api/src/services/GuardsService.ts:797-811 | planning moves exactly the non-transient failures of the workflow to AWAITING_APPROVAL |
| Records.PlanShows | apps/api/src/services/GuardsService.ts:783-826 | each step shows type, target, fingerprint and failure type of its row and the status after planning, with the action as an if-and-only-if on the status |
| Records.RowsRememberTheirRequest | apps/api/src/services/GuardsService.ts:509-865 | in every reachable state every row carries type, target, input, provider, workflow and agent of the operation that was begun under its key, whatever happened since |
| Ledger.HolderRow | apps/api/src/services/GuardsService.ts:575-582 | finds an EXECUTING row of another execution if and only if there is one |
| Steps.StepKeepsInv | packages/guard-sdk/src/index.ts:584-694 | every step of every session, message, late operation, pass, plan and approval keeps the invariant: one running or committed row per project and fingerprint, truthful reports, every success that reached its call backed by a live row, every skip covered by a done row |
| Steps.ServeKeepsInv | apps/api/src/services/GuardsService.ts:509-688 | serving a begin request that was ever sent keeps the invariant, whether its session waits, works on something else or is over |
| Steps.HearingKeepsInv | packages/guard-sdk/src/index.ts:637-654 | so does hearing the answer |
| Steps.DeliverKeepsInv | apps/api/src/services/GuardsService.ts:692-746 | a late report keeps the invariant |
| Steps.RunKeepsInv | packages/guard-sdk/src/index.ts:584-694 | the invariant holds after every legal run |
| Guarantees.AtMostOnce | packages/guard-sdk/src/index.ts:584-694 | over every run, at most one return of `execute` per project and fingerprint reaches its effect() call |
| LateReturns.UntimedReturnsOnce | packages/guard-sdk/src/index.ts:657-669 | in every reachable state in which all calls of a fingerprint were made without a timer, `execute` has returned at most once per project, counting all returns |
| LateReturns.TimerReturnsTwice | packages/guard-sdk/src/index.ts:955-986 | for every operation, project and positive `timeoutMs`, a run in which both the granted second call and the timed-out first operation return, the latter with an UNKNOWN row |
| LateReturns.AtMostOnceExactly | packages/guard-sdk/src/index.ts:592-592 | counting all returns, at most once holds over all runs if and only if the effect is called with `timeoutMs` 0 |
| Guarantees.SuccessKeepsItsRow | apps/api/src/services/GuardsService.ts:509-746 | the row of a success that reached its call is EXECUTING or COMMITTED from then on forever |
| Guarantees.OneHolder | apps/api/src/services/GuardsService.ts:574-669 | in every reachable state at most one EXECUTING row exists per project and fingerprint |
| Guarantees.ConflictNamesTheHolder | apps/api/src/services/GuardsService.ts:574-640 | a CONFLICT names another execution, whose row is the one and only EXECUTING row |
| Guarantees.GrantedExactly | apps/api/src/services/GuardsService.ts:530-688 | EXECUTE is answered if and only if the effect is neither done nor running in the project and the caller has no row of it |
| Guarantees.SkipMeansDoneExactly | apps/api/src/services/GuardsService.ts:530-688 | for every table: SKIP of a done effect if and only if it is done and the caller has no row; SKIP of an effect that is not done if and only if the caller has a row, it is not done and no other execution has a running row; CONFLICT if and only if the caller has no row, it is not done and another has a running row |
| Guarantees.ServedRequestIsTold | apps/api/src/services/GuardsService.ts:653-682 | in every reachable state, a waiting session whose request was served before, whatever was served since, gets an error if the effect is done or another execution has a running row, and otherwise SKIP, without a success of the effect anywhere |
| Guarantees.ReplayFidelity | apps/api/src/services/GuardsService.ts:566-572 | a SKIP backed by a COMMITTED row of an effect replays the value of the one success of that row unchanged if it is truthy, and `{}` otherwise; conflict marks never leak into it |
| Guarantees.StepIsLater | apps/api/src/services/GuardsService.ts:509-865 | no step undoes a done row or a skip, or forgets a success |
| Guarantees.PlanSoundness | apps/api/src/services/GuardsService.ts:783-789 | a step planned as SKIP is answered SKIP to every fresh execution, now and in every later state |
| Continuation.PlanVerdict | apps/api/src/services/GuardsService.ts:829-836 | BLOCKED if and only if some row of the workflow blocks; COMPLETED if and only if there are rows and all are done or skipped |
| Continuation.StepsInOrder | apps/api/src/services/GuardsService.ts:774-782 | the steps come in creation order |
| Continuation.PlanningIsIdempotent | apps/api/src/services/GuardsService.ts:773-843 | a second plan is identical and changes no row |
| Gates.GatePassesExactly | apps/api/src/routes/guards.ts:46-58 | a session request passes the gate if and only if no row of its workflow is UNKNOWN, AWAITING_APPROVAL or a non-transient failure |
| Gates.SessionsPassedTheGate | apps/api/src/routes/guards.ts:46-67 | over every run, every session ever created has passed the gate at a moment when its workflow was unblocked |
| Gates.BlocksExactly | apps/api/src/services/GuardsService.ts:607-746 | one step blocks an unblocked workflow if and only if it delivers an UNKNOWN or hard FAILED report of it, or serves a begin request of it that has no row yet while the effect is not done and runs elsewhere |
| Gates.UnblockedExactly | apps/api/src/routes/guards.ts:46-67 | over every run from an unblocked moment, the workflow stays unblocked throughout if and only if no step is of that kind |
| Gates.CreatedUnblocked | apps/api/src/routes/guards.ts:46-67 | a session finds its workflow unblocked if no such step came between its two calls |
| Gates.BlockedUntilResolved | apps/api/src/routes/guards.ts:46-67 | with nothing served in between, a session is created if and only if the breaker admits it and no row blocks, and it finds its workflow unblocked |
| Limits.GateIsOvertaken | apps/api/src/routes/guards.ts:47-60 | a reachable state in which a gated session is created although its workflow is blocked by now |
| Limits.ReplayIsOvertaken | apps/api/src/services/SelfHealingService.ts:128-205 | for every policy with automatic replay and a usable address: a reachable state in which nothing blocks the workflow of the last execution and the replay is decided with its delay, and a run from there, as it may happen within the delay, to a state in which the workflow is blocked |
| Continuation.OnlyApprovalResolves | apps/api/src/services/GuardsService.ts:848-865 | from every reachable state, over every run, a non-transient failure stops being one only through an approval of that row |
| Continuation.StepKeepsUnresolved | apps/api/src/services/GuardsService.ts:797-811 | every other step keeps such a failure unresolved |
| Limits.TimedOutEffectIsStartedAgain | packages/guard-sdk/src/index.ts:955-986 | a reachable state in which a timed-out effect runs again in another session while the first operation is still running |
| Limits.RetriedBeginIsToldSkip | packages/guard-sdk/src/index.ts:789-815 | a reachable state without any success in which the retry of a waiting session is answered SKIP |
| Crashes.CrashLeavesStuck | packages/guard-sdk/src/index.ts:656-691 | in every reachable state, a session that dies while its operation runs leaves an EXECUTING row without a report |
| Crashes.LateBeginLeavesStuck | packages/guard-sdk/src/index.ts:768-780 | a begin request first served after its session gave up leaves such a row if and only if the effect is neither done nor running |
| Crashes.StuckForever | apps/api/src/services/GuardsService.ts:574-633 | such a row is EXECUTING in every later state, and every fresh begin of the effect in the project is answered CONFLICT in its name, or SKIP if the effect got done elsewhere |
| EarlyApproval.AwaitingOfALiveSession | apps/api/src/services/GuardsService.ts:848-865 | in every reachable state, an AWAITING_APPROVAL row of a session that has not ended is one whose begin request waits or one the session was told to skip |
| EarlyApproval.EarlyApprovalGrantsExactly | apps/api/src/services/GuardsService.ts:530-545 | approved while its request waits, an effect counts as done, and the next answer is EXECUTE if and only if no done row was created later |
| EarlyApproval.EarlyApprovalUndoneExactly | apps/api/src/services/GuardsService.ts:711-746 | the row approved early is done, and a later UNKNOWN or FAILED report of its session takes that back if and only if no done row was created later |
| EarlyApproval.DuplicatesAtOnceExactly | apps/api/src/services/GuardsService.ts:543-545 | such an approval makes the effect succeed twice within the next three steps if and only if the request is granted and the effect has succeeded before or runs elsewhere |
| EarlyApprovalRuns.EarlyApprovalDuplicatesExactly | apps/api/src/services/GuardsService.ts:509-865 | over all runs that follow such an approval, some run makes the effect succeed twice if and only if at the approval no done row was created later and the effect has succeeded before or runs elsewhere; otherwise at most once holds in every later state |
| EarlyApprovalRuns.StepContained | packages/guard-sdk/src/index.ts:584-694 | every step keeps an invariant that tolerates one early approval: at most one execution has succeeded with the effect or may yet |
| Limits.RememberedWhileAwaiting | apps/api/src/services/GuardsService.ts:653-682 | a reachable state without any success in which an idle session remembers an effect that awaits approval: its conflict was served unheard, the holder timed out, and the retry was told SKIP |
| Limits.ForeignFalseComesBackEmpty | apps/api/src/routes/guards.ts:168-204 | a reachable state in which a job of one monitor has returned `false` and committed, and a job of another monitor of the project is told SKIP with `{}` |
| Limits.ApprovalDuringRetryDuplicates | apps/api/src/services/GuardsService.ts:848-865 | a reachable state in which the condition for two successes is met |
| SDK.ReplayGuard.CallBegin | packages/guard-sdk/src/index.ts:789-815 | the retry loop: the request is served once for every attempt that gets through, and the answer heard is the one to the last service |
| SDK.ReplayGuard.Effect | packages/guard-sdk/src/index.ts:584-694 | one effect call, with every outcome of each attempt, of the operation and of its report, is a legal run of the protocol; the operation is executed if and only if EXECUTE is heard; the caller gets exactly what cache, answer or operation say; afterwards the row is COMMITTED with result and receipt, UNKNOWN with the reason or FAILED with the error if the report got there, and EXECUTING with the report under way if not; nothing else in the table has changed since the begin request; with nothing else served during the call |
| SDK.ReplayGuard.Report | packages/guard-sdk/src/index.ts:656-691 | which report is sent for which end of the operation, and what the row becomes when it arrives |
| SDK.RepeatedCallIsTold | packages/guard-sdk/src/index.ts:616-655 | if nothing else is served between the attempts, a call whose request was served unheard before is never granted; it gets a message as its value if the first service granted it, and an error otherwise |
| Legacy.OneAttemptExecutes | apps/api/src/services/GuardsService.ts:228-328 | of all attempts of one job at most one is ever told to execute a fingerprint, for any mix of scopes |
| Legacy.OneOfAProjectExecutes | apps/api/src/services/GuardsService.ts:228-328 | if all calls of a fingerprint use scope PROJECT, at most one execution of the project is ever told to execute it, over every run from an empty ledger |
| Legacy.OneAttemptCommits | apps/api/src/services/GuardsService.ts:228-328 | at any time at most one attempt of a job has a COMMITTED row of the fingerprint |
| Legacy.AskWrites | apps/api/src/services/GuardsService.ts:185-328 | a call writes its own row only, never takes back COMMITTED, and commits only if the search found nothing |
| Legacy.NoJobNoMemory | apps/api/src/services/GuardsService.ts:228-244 | without an external id, scope MONITOR answers EXECUTE if and only if the execution has no row or a COMMITTED one, whatever others committed |
| Legacy.AnsweredExactly | apps/api/src/services/GuardsService.ts:228-328 | the answer and the written row by the rows of any table: the latest committed row in scope is replayed to others and merged into by its owner; if there is none, the caller executes and commits, or is told to skip if a row of its own is in the way |
| Legacy.DriftExactly | apps/api/src/services/GuardsService.ts:186-226 | a snapshot goes ahead unless its key is taken, and notes a drift if and only if the job has an id and its last snapshot of the target had another input |
| Breaker.LoopDetectionCache.GetEntry | apps/api/src/lib/LoopDetectionCache.ts:52-60 | an entry is found unless it is missing or expired; an expired one is deleted |
| Breaker.LoopDetectionCache.CheckBroken | apps/api/src/lib/LoopDetectionCache.ts:102-117 | broken if and only if time remains, with the remaining milliseconds; an elapsed cooldown is reset in place |
| Breaker.LoopDetectionCache.EvictExpired | apps/api/src/lib/LoopDetectionCache.ts:35-40 | the sweep removes exactly the expired entries |
| Sessions.SessionService.CreateSession | apps/api/src/services/GuardsService.ts:12-154 | cache, STREAK patterns and executions change, and the request is answered, as specified on every path |
| Sessions.SessionService.DetectRecursiveRetries | apps/api/src/services/PatternDetectionService.ts:284-315 | the loop over the executions changes the patterns as specified, and nothing else |
| BreakerRuns.FlagsExactly | apps/api/src/services/PatternDetectionService.ts:284-315 | afterwards a monitor has an active STREAK if and only if it had one or has an execution of attempt five or more running since the last three hours; existing patterns stay, new ones are dated to the present |
| BreakerRuns.CacheKeyInjective | apps/api/src/lib/LoopDetectionCache.ts:29-31 | jobs do not share a cache entry |
| BreakerRuns.TransparentOverRuns | apps/api/src/services/GuardsService.ts:31-75 | after every run, the cache blocks a job only if the database check would, and a request is rejected by cooldown if and only if it would be with an empty cache |
| BreakerRuns.CacheIsTransparent | apps/api/src/services/GuardsService.ts:31-75 | under the invariant a request is rejected by cooldown if and only if the database has an active STREAK of the last hour |
| BreakerRuns.CacheNeverDecides | apps/api/src/services/GuardsService.ts:31-75 | two worlds that differ in cache contents only reject the same requests by cooldown |
| BreakerRuns.StepKeepsInv | apps/api/src/services/GuardsService.ts:31-154 | requests, retries detection, eviction, restart and clock keep the breaker invariant |
| BreakerRuns.TripCloses | apps/api/src/services/GuardsService.ts:97-140 | a spent budget closes the monitor for an hour |
| BreakerRuns.NoSessionWhileClosed | apps/api/src/services/GuardsService.ts:31-75 | while a monitor is closed no session of it is created, for any external id |
| BreakerRuns.AnHourOfPeace | apps/api/src/services/GuardsService.ts:97-140 | over every run, after a trip at T no session of the monitor is created before T plus 60 minutes |
| BreakerRuns.AdmittedExactly | apps/api/src/services/GuardsService.ts:31-154 | a request is rejected by cooldown if and only if the database has an active STREAK of the last hour; otherwise it is created with the number after that of the live cache entry, or after the last one of the job, if that number is below the budget, and refused if not |
| BreakerRuns.AdmittedOverRuns | apps/api/src/services/GuardsService.ts:31-154 | the same after every run |
| BreakerRuns.StrangersAreRefused | apps/api/src/services/GuardsService.ts:17-30 | unknown monitors and monitors of other projects are refused without a trace |
| BreakerRuns.RequestLeaves | apps/api/src/services/GuardsService.ts:31-154 | what a request leaves of its job in cache, executions and patterns for each outcome, expiry and cooldown times included; other jobs keep their entries |
| BreakerRuns.NextIsOneMore | apps/api/src/lib/LoopDetectionCache.ts:65-79 | the attempt after an admitted one, while the entry lives, is one more, or spends the budget |
| BreakerRuns.SweepIsUnnoticed | apps/api/src/lib/LoopDetectionCache.ts:35-40 | the sweep removes the expired entries and no others, and changes no answer |
| BreakerRuns.AskingTooEarlyClosesAgain | apps/api/src/lib/LoopDetectionCache.ts:81-94 | a job without a cache entry that asks during the cooldown and again after it, within the life of the entry, spends the budget if that is at most 6, and gets attempt 6 otherwise |
| RetryBudget.RefusedWithoutARun | apps/api/src/lib/LoopDetectionCache.ts:81-94 | for every budget from 1 to 6 a run after which a job that never ran is refused for its attempts, with no cooldown left |
| RetryBudget.BudgetHolds | apps/api/src/services/GuardsService.ts:77-154 | with a safe budget b, at most b - 1 executions of a job are ever created, with strictly increasing attempt numbers |
| RetryBudget.BudgetHoldsExactly | apps/api/src/lib/LoopDetectionCache.ts:81-94 | attempt numbers increase over all runs, at most b - 1 executions of the job are ever created, and any number whatever bounds them, each if and only if the budget is at most 6 (at most 2 for the shared anonymous id) |
| RetryBudget.NoBoundAtAll | apps/api/src/lib/LoopDetectionCache.ts:81-94 | for every other budget and every n there is a run that creates more than n executions of the job |
| RetryBudget.LargeBudgetRepeatsAnAttempt | apps/api/src/lib/LoopDetectionCache.ts:88-93 | with a budget of seven or more a run hands out an attempt number twice |
| RetryBudget.SharedIdRepeatsAnAttempt | apps/api/src/services/GuardsService.ts:31-31 | the shared anonymous id breaks the numbering from a budget of three on |
| Routes.GuardRoutes.PassGate | apps/api/src/routes/guards.ts:46-58 | the first call of the handler refuses with the plan of the moment if and only if a row blocks the workflow |
| Routes.GuardRoutes.OpenSession | apps/api/src/routes/guards.ts:60-118 | the second call follows the breaker, and the ledger's executions and the breaker's attempts remain the same records |
| Routes.GuardRoutes.PostSession | apps/api/src/routes/guards.ts:35-118 | the reply on every path, the plan in a refusal included, with nothing served between the two calls |
| Routes.RepliesExactly | apps/api/src/routes/guards.ts:60-106 | past the gate, a session is opened with the upcoming attempt, refused as a tripped breaker or failed, each by the database, the live cache entry and the configured budget |
| Routes.GuardRoutes.PostResume | apps/api/src/routes/guards.ts:551-572 | every UNKNOWN effect of the workflow is offered to its verifier, then the workflow is planned; the plan is BLOCKED if and only if a row still needs a human or a verification; done rows are untouched |
| UniqueDecoding.PrintUnique | packages/guard-sdk-python/replaysafe/hash.py:15-38 | canonical texts can be read off any text that does not go on with a digit |
| UniqueDecoding.DecimalUnique | packages/guard-sdk-python/replaysafe/hash.py:20-23 | a number ends where the digits end |
| Fingerprints.SortSorts | packages/guard-sdk-python/replaysafe/hash.py:30-30 | sorting by key keeps the entries and orders them |
| Fingerprints.SerializeIsPrint | packages/guard-sdk-python/replaysafe/hash.py:15-38 | serialising a value prints its canonical form, in which insertion order is gone |
| Fingerprints.NormalIsSame | packages/guard-sdk-python/replaysafe/hash.py:15-38 | two values have the same canonical form if and only if they are equal up to 1 and 1.0, lists and tuples, and insertion order |
| Fingerprints.SerializedExactly | packages/guard-sdk-python/replaysafe/hash.py:15-38 | ser(v) + r = ser(w) + s if and only if v and w are the same and r = s, for remainders that do not start with a digit |
| Fingerprints.NumbersRunOn | packages/guard-sdk-python/replaysafe/hash.py:23-23 | the condition on the remainders is needed |
| Cleaning.CleanInputIsClean | packages/guard-sdk-python/replaysafe/hash.py:46-60 | cleaning leaves no ignored key at any depth and is idempotent |
| Cleaning.CleaningKeeps | packages/guard-sdk-python/replaysafe/hash.py:52-57 | an entry of a dictionary is kept, with its value cleaned, if and only if its key is not ignored |
| Cleaning.CleanedExactly | packages/guard-sdk-python/replaysafe/hash.py:46-60 | two cleaned inputs are the same if and only if the inputs are the same up to the keys ignored on each side, at any depth |
| Fingerprints.FingerprintMeaning | packages/guard-sdk-python/replaysafe/hash.py:63-79 | with an injective hash, two operations share a fingerprint if and only if type and target agree and the raw inputs are the same up to the keys that the configuration of each caller ignores, at any depth; inputs that are no dictionary are taken whole |
| Fingerprints.KnownTexts | packages/guard-sdk-python/tests/test_hash.py:13-38 | the texts of values as the tests of the hash expect them |
| Fingerprints.KnownDict | packages/guard-sdk-python/tests/test_hash.py:62-68 | a dictionary is written sorted by key |
| RateLimiter.VerificationRateLimiter.IsAllowed | apps/api/src/services/verifiers/VerifierRegistry.ts:20-32 | the stored window and the decision; a denial stores nothing |
| RateLimiter.DecidesOnWholeHistory | apps/api/src/services/verifiers/VerifierRegistry.ts:20-32 | each call is allowed if and only if fewer than 20 calls of its key were allowed in the last minute of the whole unpruned history |
| RateLimiter.AtMostTwentyAMinute | apps/api/src/services/verifiers/VerifierRegistry.ts:20-32 | no half-open minute has more than 20 allowed calls of a key |
| RateLimiter.TwentyOneCallsTakeAMinute | apps/api/src/services/verifiers/VerifierRegistry.ts:15-32 | any 21 allowed calls of a key span at least 60000 ms |
| RateLimiter.LimitsAreSeparate | apps/api/src/services/verifiers/VerifierRegistry.ts:21-21 | two calls share a limit if and only if project and provider agree |
| SlidingWindow.SpacedExactly | apps/api/src/services/verifiers/VerifierRegistry.ts:15-16 | bounded windows and spaced events are the same requirement |
| Verification.VerifierRegistry.Verify | apps/api/src/services/verifiers/VerifierRegistry.ts:54-87 | no provider, a full window, an unregistered provider and a verifier that throws all leave UNKNOWN; only calls with a provider reach the limiter |
| Verification.VerificationService.ApplyOutcome | apps/api/src/services/VerificationService.ts:188-220 | an outcome is written to its row, UNKNOWN changes nothing |
| Verification.VerificationService.ProcessEffects | apps/api/src/services/VerificationService.ts:142-182 | the three counts are the numbers of rows that are now VERIFIED, FAILED and UNKNOWN and add up to the total; every effect has its outcome, no other row changed; a legal run of the protocol |
| Verification.VerificationService.RunWorkflowPass | apps/api/src/services/VerificationService.ts:117-136 | exactly the UNKNOWN rows of the workflow are offered to their verifiers, in creation order, and rewritten by the answers; the total is their number before, `unknown` the number after |
| Verification.PassMeans | apps/api/src/services/VerificationService.ts:142-182 | what a whole pass makes of the table and of its counters |
| VerificationRate.PassesCompose | apps/api/src/services/VerificationService.ts:51-182 | passes one after the other are one run of verification attempts |
| VerificationRate.OutcomesExactly | apps/api/src/services/verifiers/VerifierRegistry.ts:54-87 | over every run, an attempt comes out with a decision if and only if its provider is named and registered, fewer than 20 calls were let through in the last minute of the whole history, and the verifier answered just that; a verifier that throws decides nothing |
| VerificationRate.RowsLeaveExactly | apps/api/src/services/VerificationService.ts:142-220 | over all passes, a row becomes VERIFIED or FAILED, with the failure type of the answer, if and only if that holds, and stays as it is otherwise |
| VerificationRate.EffectsVerifiedExactly | apps/api/src/services/VerificationService.ts:142-220 | the same for every UNKNOWN effect of a reachable state, by the provider its operation was begun with, in any spelling |
| VerificationRate.TwentyResolutionsAMinute | apps/api/src/services/verifiers/VerifierRegistry.ts:54-87 | over all attempts at most 20 of a project and provider are resolved in any half-open minute |
| VerificationRate.TwentyRowsAMinute | apps/api/src/services/VerificationService.ts:142-220 | over all passes, whatever happens to the ledger in between, at most 20 rows of a project and provider leave UNKNOWN in any half-open minute |
| Cascade.CountPatterns | apps/api/src/services/PatternDetectionService.ts:193-225 | for every two monitors the counted number is the number of index pairs less than eleven minutes apart; keys are unique and the counts add up to all such pairs, in spite of `continue` and the early `break` |
| Cascade.DiscoverCascadingFailures | apps/api/src/services/PatternDetectionService.ts:181-227 | exactly the ordered pairs of monitors with at least two occurrences are reported, with their number |
| Cascade.MinutesMeanMillis | apps/api/src/services/PatternDetectionService.ts:205-209 | the truncated minutes are at most ten if and only if less than eleven minutes have passed |
| Lockout.AuthRouter.CheckLockout | apps/api/src/routes/auth.ts:17-39 | locked with the remaining minutes, or an expired lock is removed |
| Lockout.AuthRouter.RecordFailedAttempt | apps/api/src/routes/auth.ts:41-64 | one more failure, and a lock from the tenth on |
| Lockout.AuthRouter.SignIn | apps/api/src/routes/auth.ts:199-236 | the reply and the new state of the account on every path; other accounts are untouched |
| Lockout.LockedExactlyAtTen | apps/api/src/routes/auth.ts:41-64 | the counter never exceeds ten and is ten if and only if a lock is recorded, which ends 15 minutes after the last failure |
| Lockout.RepliesExactly | apps/api/src/routes/auth.ts:199-236 | over every sequential run, a request is turned away if and only if the failures since the last success are a positive multiple of ten and the last is less than 15 minutes ago, with the minutes left, rounded up; otherwise it signs in if and only if the account has a password and it is the right one |
| Lockout.TenGuessesPerLockout | apps/api/src/routes/auth.ts:14-68 | no half-open quarter of an hour without a success has more than ten failed password checks |
| Lockout.ElevenFailuresTakeALockout | apps/api/src/routes/auth.ts:14-68 | eleven failures without a success between them span at least 15 minutes |
| SelfHealing.SelfHealingService.AttemptHeal | apps/api/src/services/SelfHealingService.ts:35-215 | what is logged, which webhook goes out and after which delay, and what becomes of the ledger, on every path: a due replay is decided after the workflow of the last execution was verified and planned, and only if no row blocks it |
| SelfHealing.AttemptsAreMadeWhenDue | apps/api/src/services/SelfHealingService.ts:45-109 | an attempt is made if and only if healing is enabled, fewer attempts are logged than allowed (3 by default) and the last is a cooldown (60 s by default) ago |
| SelfHealing.LoggedExactly | apps/api/src/services/SelfHealingService.ts:61-76 | when exhaustion and a blocked plan are logged, and that nothing else is |
| SelfHealing.WebhookExactly | apps/api/src/services/SelfHealingService.ts:111-205 | which webhook is sent to which address, as an if-and-only-if |
| SelfHealing.DelayExactly | apps/api/src/services/SelfHealingService.ts:13-19 | a replay is held back for a time between the bounds of the policy (5 to 30 s by default), which are both reached |
| SelfHealing.SelfHealingService.PlanBlocked | apps/api/src/services/SelfHealingService.ts:134-143 | the workflow is verified, then planned; blocked if and only if a row still blocks |
| SelfHealing.HealingIsBounded | apps/api/src/services/SelfHealingService.ts:45-109 | over every sequential run the attempts of an incident are numbered 1, 2, 3, ..., at most `maxRetries`, a cooldown apart, and no more webhooks are fired than attempts are logged |

## Left out

- `failPolicy` OPEN, effects without a session, parallel `effect()` calls on one guard, and calling an effect again after it raised: there the code runs or skips operations outside the protocol, and at-most-once does not hold.
- Reports that arrive twice. The SDK sends a report again when its answer is lost, and a repeated report would overwrite a row that was settled in the meantime.
- A `receipt` function that throws after a successful `execute`: it ends the session without a report, like the event `ReturnAndCrash`.
- `GuardsService` operations that only list, complete executions or register and trigger rollbacks; `guard.start` and `guard.complete` beyond opening and ending a session.
- `PatternDetectionService.analyzeMonitor`, which deactivates STREAK patterns, and deployments with several API processes, which share no cache.
- `packages/guard-sdk-python/replaysafe/client.py`: the same protocol as the TypeScript client.
- Provider verifiers, HTTP, Prisma, Express, alerts, audit entries of other services, logging and metrics. A verifier is an arbitrary answer, the database is a table, and an unreachable server is a lost message.
- SHA-1, `object-hash`, signatures, encryption and password hashing: a hash is an injective function, a password check a boolean.
- Python sets, dictionaries with keys other than strings, objects that are not JSON, and floats that are not integral: their text is not fixed by the code.
- Time stamps on rows (`executedAt`, `finishedAt`, `verifiedAt`), except that rows keep their creation order; `Verification.Stamp` stands for the ISO text of a time.
- `runProjectPass` and `runExecutionPass`: they hand another selection of UNKNOWN rows (older than a grace period and at most 100, or of one execution) to `ProcessEffects`, whose contract covers any selection.
- EarlyApprovalRuns.EarlyApprovalDuplicatesExactly: among the runs that follow an early approval, those with a second approval of an effect whose request still waits are not considered.
- Verification.Lower: lower-cases ASCII letters only.
- The division of the cooldown into minutes and back is exact here; floating-point rounding is not modelled.
- Storing the cascade patterns, and the wording of messages, descriptions and log lines.
- Concurrent sign-ins and concurrent healing of one incident: requests of one account and attempts of the service come one after the other, each healing attempt at one instant.
- Health scores, summaries, incidents, roles, request schemas, the dashboards, the landing page and the command line tool.
