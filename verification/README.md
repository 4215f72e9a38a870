# Lumora: a verified model of its protocols, policies and migrations

Lumora is a content-production platform: an API server hands pipeline assignments to remote workers,
meters providers and callers, guards its tables with row policies, migrates live rows, reports unit
costs, and shows all of it in a dashboard. This project models the parts whose correctness does not
show in any one function body and proves what they promise, over every input and every run.

Check everything with `dafny verify dfyconfig.toml`.

## What is modelled

| module | subject |
|---|---|
| `WorkerSession`, `EffectProtocol`, `EffectInvariants`, `EffectTheorems`, `EffectOutcomes` | The claim / ack / execute / submit protocol: an API server and unboundedly many worker calls and sessions, as an interleaving of steps in which messages are delayed or lost, workers die anywhere and leases lapse and are recovered. |
| `WorkerClient` | The reference client and its service loop as an object over an environment that may answer anything. Both views of a session follow the one automaton in `WorkerSession`. |
| `ProviderBudgets`, `BudgetSteps`, `BudgetEscapes` | Provider concurrency caps under concurrent transactions with row locks, uncommitted moves, savepoints, commits and aborts; and, for every reachable state, exactly when moves that escape the count can break the cap. |
| `RateLimit`, `RateLimitTraffic` | The fixed-window limiter, refined against one that keeps every timestamp, with its exact bound over sliding intervals; and whole streams of requests through the middleware. |
| `Backpressure` | Back-pressure rows and their event log, evaluation by evaluation and sweep by sweep. |
| `Ranking`, `AuditDowngrade`, `DowngradeOutcomes`, `ReservationCleanup` | Two migrations that rank and rewrite live rows: the downgrade of revision 0049 and the upgrade of revision 0033. |
| `Membership` | The row policies on workspace memberships in revisions 0021 to 0024. |
| `Sums`, `CostReport`, `CostTheorems`, `CostOutcomes` | The workspace-month cost report. |
| `DashboardLoads`, `DashboardSteps` | The generation numbers that keep late answers off the dashboard. |

Code that changes state is an object or a method with loops, tied by its `ensures` to a specification
function or relation; code made of queries and expressions is functions. Theorems about whole runs are
lemmas over those specifications.

## Where the code does less than its text says

Each item is a lemma: a concrete run or input, and the condition under which the promise holds.

1. A claim token is documented to return the same assignment for every retry. The server looks for a
   replay among DISPATCHED rows only (`apps/api/app/orchestration/claiming.py:127-148`), so a request that
   is processed after the granted row was recovered, or acknowledged where the worker has capacity left,
   takes a second row (`EffectTheorems.LateRequestTakesASecondRow`). Exactly: grants under a token are the
   grants that have left DISPATCHED plus the one still held
   (`EffectTheorems.ClaimTakesOneRowUnlessReleased`).
2. A submit is checked against the worker and the lease, not the attempt
   (`apps/api/app/orchestration/dispatcher.py:404-423`). A result may be recorded under a later attempt of the
   same worker (`EffectTheorems.OldSubmitLandsOnANewAttempt`): exactly when the row is then in flight for
   that worker, under a live lease and the later attempt (`EffectTheorems.SubmitMissesItsAttemptExactly`),
   which needs two starts of the worker on the assignment (`EffectTheorems.ResultMatchesAttempt`).
3. Every move into flight is documented to follow the capacity check. In any reachable state, transactions
   that obey it from then on cannot exceed a budget exactly when what is in flight, uncommitted under the
   lock and still passed by the lock's owner fits in it, and nobody without the lock is past the count
   (`BudgetEscapes.SafeExactly`). Two things in the code put somebody there:
   - A dispatch that names no provider skips the check and then writes the default provider `draft_desk`
     (`apps/api/app/orchestration/dispatcher.py:237-299`, called so by
     `apps/api/app/orchestration/scheduler.py:133-141`). While its move is uncommitted no amount of room
     makes the state safe (`BudgetEscapes.OpenEscapeIsNeverSafe`). Committed at once, it is harmless exactly
     when in flight plus pledged was below the budget and nobody else without the lock had escaped
     (`BudgetEscapes.UnnamedDispatchIsSafeExactly`); it can overrun the budget itself
     (`BudgetEscapes.UnnamedDispatchOverruns`) or make the commit of a claim that did count overrun it
     (`BudgetEscapes.DispatchPushesACountedCommitOver`).
   - A budget created while a transaction that found none is open. An overrun can follow exactly when one
     is, whatever the budget (`BudgetEscapes.LateBudgetIsSafeExactly`, `BudgetEscapes.LateBudgetIsOverrun`).
4. A sweep evaluates only workspaces with pending work. A workspace that drained while THROTTLED stays
   so, without a CLEARED event, through any number of sweeps
   (`Backpressure.ThrottledWorkspaceDrains`, `Backpressure.DrainedWorkspaceKeepsItsState`); a covering
   sweep leaves every state accurate exactly when the drained workspaces were NORMAL
   (`Backpressure.SweepIsAccurateExactlyWhenDrainedAreNormal`).
5. The 0049 downgrade lifts the append-only triggers on the audit tables but not those on the tables it
   repoints. It commits exactly when every invalidation and every review package already refers to the
   canonical audit of its group (`AuditDowngrade.Database.Downgrade`,
   `DowngradeOutcomes.GuardedDowngradeCommitsExactly`); one invalidation or one package on a rerun aborts it
   (`AuditDowngrade.InvalidatedRerunStopsTheDowngrade`,
   `DowngradeOutcomes.PackageOnARerunStopsTheDowngrade`).
6. The bootstrap arm of the membership policy is described as holding "when no memberships exist yet".
   Its NOT EXISTS is itself filtered by the SELECT policy, so it holds exactly when the creator is not a
   member (`Membership.ArmAgreesWithItsDescriptionExactly`,
   `Membership.CreatorReturnsToAPopulatedWorkspace`).
7. A background refresh that succeeds while an earlier failure is on the screen leaves the failure there
   exactly when it started with data for the current view still in its refs
   (`DashboardLoads.FailureOutlivesARefresh`, `DashboardLoads.UndisturbedLoadShowsItsData`).
8. The worker's load falls when a submit is accepted, before its answer is decoded
   (`apps/worker/worker/client.py:218-221`). It is grants less returned submits exactly when no accepted
   submit had an undecodable body (`WorkerClient.LoadCountsReturnsExactly`,
   `WorkerClient.UnreadableSubmitBreaksTheCount`).

The limiter does better than the usual bound `max * (ceil(L / window) + 1)`: the exact maximum over an
interval of length L is one less (`RateLimit.AllowedInAnyInterval`, `RateLimit.BoundIsReached`).

## Model

| member | source | states |
|---|---|---|
| EffectTheorems.AtMostOnceExecution | apps/worker/worker/client.py:243-294 | In every run, with any number of attempts, deaths, exceptions, lost replies and recoveries, the executor is started at most once per assignment, whether or not it comes back; every start and return belongs to one session. |
| EffectTheorems.SuccessComesFromTheExecutor | apps/worker/worker/client.py:223-294 | A success is sent only by the session whose own executor succeeded; for a COMPLETED assignment the executor was started exactly once and came back exactly once, in the session whose submit completed it. |
| EffectTheorems.DeadWinnerBlocksTheAssignment | apps/api/app/models/provider_effects.py:3-35 | Once the session that won the key died without submitting, inside the executor or not, no continuation starts the executor of that assignment again, sends a success for it, or completes it. |
| EffectTheorems.DiesInsideTheExecutor | apps/worker/worker/client.py:243-251 | A run with such a death: the executor was started once, never came back, and the winner is dead without a submit. |
| EffectTheorems.StartsAreBounded | apps/api/app/orchestration/recovery.py:37-51 | Recovery spends attempts: in every run the starts of an assignment never exceed its attempts, which the largest maximum that a recovery of it resolved bounds, though the maximum is resolved afresh each time. |
| EffectOutcomes.StartsReachTheBound | apps/api/app/orchestration/recovery.py:153-257 | For every maximum some run, whose recoveries resolve at most that, starts its assignment exactly so often: the bound is attained. |
| EffectOutcomes.RecoveryTakesExactly | apps/api/app/orchestration/recovery.py:153-257 | Recovery touches exactly rows in flight, requeues exactly while the attempt is below the maximum and fails the row otherwise, and clears worker, token and lease either way. |
| EffectTheorems.ClaimTakesOneRowUnlessReleased | apps/api/app/orchestration/claiming.py:127-148 | One claim call sends at most three requests; the rows it was granted are the ones that have since left DISPATCHED plus at most one still held, so it takes a second row only after a release. |
| EffectOutcomes.ClaimTakesExactly | apps/api/app/orchestration/claiming.py:127-148 | An open request starts a PENDING row exactly when its token holds none, replays the row its token holds, and otherwise changes nothing. |
| EffectOutcomes.EmptyClaimTakesExactly | apps/api/app/orchestration/claiming.py:127-148 | A request can be answered empty exactly when its token holds no row. |
| EffectOutcomes.CallTakesExactly | apps/worker/worker/client.py:138-177 | A call is sent again exactly while it is open and below three requests, and returns one of its replies at most once. |
| EffectTheorems.ReturnedAssignmentWasGranted | apps/worker/worker/client.py:138-177 | The assignment a claim call returns was granted for that call's token, to its worker, at that attempt; the call then sends nothing more. |
| EffectTheorems.ResultMatchesAttempt | apps/api/app/orchestration/dispatcher.py:379-436 | A result is recorded under the attempt its session was granted unless the same worker was started twice on the assignment. |
| EffectTheorems.SubmitMissesItsAttemptExactly | apps/api/app/orchestration/dispatcher.py:404-423 | Processing a submit records it under an attempt that is not the session's own if and only if the row is in flight for the same worker under a live lease and that other attempt. |
| EffectOutcomes.ResultIsFinal | apps/api/app/orchestration/dispatcher.py:404-429 | In every reachable state a recorded result decides its assignment: COMPLETED exactly for a success, FAILED exactly for a failure, lease ended, key reserved, the submit answered accordingly; there is one such result per assignment, and no continuation changes the row. |
| EffectOutcomes.NormalEndIsRecorded | apps/worker/worker/client.py:197-221 | In every run a session that ended normally had its submit answered, and its assignment is COMPLETED or FAILED with its key reserved, then and ever after. |
| EffectOutcomes.SubmitTakesExactly | apps/api/app/orchestration/dispatcher.py:404-436 | A submit writes exactly when the row is in flight for its worker under a live lease; a repeat of an ended one is answered without a change; every other is refused without a trace. |
| EffectOutcomes.AckTakesExactly | apps/api/app/orchestration/dispatcher.py:332-358 | An ack takes effect exactly on a DISPATCHED row of the session's worker under a live lease, acknowledges that row alone, and reports the key as created exactly if it was free. |
| EffectOutcomes.CancelTakesExactly | apps/api/app/orchestration/controller.py:418-437 | A cancellation takes effect exactly on a row that has not ended, and changes its status alone. |
| EffectOutcomes.LapseTakesExactly | apps/api/app/orchestration/dispatcher.py:415-423 | A lease lapses exactly where a row is in flight, and nothing else changes. |
| EffectOutcomes.CreateTakesExactly | apps/api/app/orchestration/dispatcher.py:158-329 | A new row is DISPATCHED under a live lease exactly when it has an assignee and PENDING otherwise; an existing row is left alone. |
| EffectOutcomes.TerminalForever | apps/api/app/orchestration/controller.py:418-437 | No step of any continuation changes a row that is COMPLETED, FAILED or CANCELLED. |
| EffectOutcomes.FailingRun | apps/api/app/orchestration/dispatcher.py:404-429 | A run that ends FAILED: the executor was started once, and its failure is recorded with the lease ended. |
| EffectTheorems.CompletingRun | apps/api/app/orchestration/dispatcher.py:332-436 | The ordinary run exists: it ends COMPLETED with one start of the executor, which came back once. |
| EffectTheorems.LateRequestTakesASecondRow | apps/api/app/models/assignments.py:113-116 | Against the documented replay: a run in which one token is granted two different rows, the first having been recovered in between. |
| EffectTheorems.OldSubmitLandsOnANewAttempt | apps/api/app/orchestration/dispatcher.py:404-423 | A run in which a session granted attempt 1 has its result recorded under attempt 2. |
| EffectInvariants.InvStep | apps/api/alembic/versions/0027_lease_recovery_ws3.py:98-120 | Every step keeps the protocol invariant: append-only keys won by one session each, executor starts and returns only inside the winner, one start per attempt, one row held per token, submits after execution. |
| WorkerClient.SessionIsBounded | apps/worker/worker/client.py:223-294 | Any run of one session executes at most once, claims nothing, has at most one submit accepted, and has one returned submit exactly when it ends normally. |
| WorkerClient.SuccessIsEarned | apps/worker/worker/client.py:271-294 | Every success a session submits is preceded by its own successful execution. |
| WorkerClient.RefusalNeverExecutes | apps/worker/worker/client.py:258-270 | After an ack that reports the key as taken, a session neither executes nor submits a success. |
| WorkerClient.ReferenceWorkerClient.ClaimNext | apps/worker/worker/client.py:138-177 | One to three requests, all with the call's token, only transport errors retried; the outcome is decided by the last reply, an undecodable one raising; the load rises exactly with an assignment; nothing is sent while draining. |
| WorkerClient.ReferenceWorkerClient.SubmitResult | apps/worker/worker/client.py:197-221 | One request; the load falls by one exactly when the submit was accepted and the load was positive, also when the body is then undecodable and the call raises. |
| WorkerClient.ReferenceWorkerClient.RunOne | apps/worker/worker/client.py:223-294 | What a session exchanges is a complete path of the session automaton, ending Done or Dead as it returned or raised, and the load falls exactly with an accepted submit. |
| WorkerClient.ReferenceWorkerClient.SendHeartbeat | apps/worker/worker/client.py:95-102 | A heartbeat reports DRAINING exactly when draining, BUSY exactly when loaded otherwise, with the true load. |
| WorkerClient.ReferenceWorkerClient.Drain | apps/worker/worker/client.py:128-132 | Draining is set before the announcement and stays set even when the announcement is lost. |
| WorkerClient.BalancedCycle | apps/worker/worker/client.py:138-221 | A granted claim followed by its session gives the load back exactly when the submit was accepted, whatever raised. |
| WorkerClient.LoadCountsReturnsExactly | apps/worker/worker/client.py:218-221 | The load is grants less returned submits if and only if no accepted submit had an undecodable body. |
| WorkerClient.UnreadableSubmitBreaksTheCount | apps/worker/worker/client.py:218-221 | A run with one such body: the load is back at zero although the one granted assignment's submit never returned. |
| WorkerClient.ClaimAndRun | apps/worker/worker/main.py:65-80 | What one turn exchanges is exactly one claim call and, if it brought an assignment, one whole session of that assignment to its end. Whatever raises in it, the turn keeps: load is grants less accepted submits, never negative (so the submit guard never truncates), executions at most grants. |
| WorkerClient.RunHttpLoop | apps/worker/worker/main.py:27-86 | The whole service run with its concurrent heartbeat task: after a successful registration its work is exactly that many such turns, one after the other, each under a token of its own; the balance holds at the end, the load is grants less returned submits exactly without an undecodable accepted submit, every heartbeat in between reported grants less accepted submits at that moment, and after the drain the only further request is the deregistration. |
| WorkerClient.HonestStretch | apps/worker/worker/main.py:52-65 | Heartbeats sent while a claim or a session waits report the true balance, which moves only with the last reply. |
| ProviderBudgets.GrowthStaysWithinBudget | apps/api/app/orchestration/provider_budgets.py:20-57 | Over every interleaving of transactions that move only after a true check, a step that raises a budgeted key's in-flight count leaves it at most the budget. |
| ProviderBudgets.CapIsInvariant | apps/api/app/orchestration/provider_budgets.py:20-57 | From within the cap it is never exceeded; from above it (a budget created or lowered late) the count never grows. |
| ProviderBudgets.HasProviderCapacity | apps/api/app/orchestration/provider_budgets.py:47-57 | Asked uninterrupted, it answers true exactly for a blank provider, a missing budget row, or fewer in flight, own uncommitted moves included, than the budget allows. |
| ProviderBudgets.CommitAdds | apps/api/app/orchestration/provider_budgets.py:34-44 | A commit adds exactly the transaction's own moves, so what it counted is what others see. |
| ProviderBudgets.OnlyCommitsAdd | apps/api/app/orchestration/provider_budgets.py:34-44 | No step but a commit raises the count. |
| BudgetSteps.LeaveFreesOneSlot | apps/api/app/orchestration/provider_budgets.py:34-44 | When an assignment leaves flight the load of its own key falls by exactly one; every other key's load, every other row, and all budgets, locks and transactions stay. |
| BudgetSteps.LeaveMakesRoom | apps/api/app/orchestration/provider_budgets.py:47-57 | At a full budget an uninterrupted check says no; after one assignment of the key has left, the same check says yes. |
| BudgetSteps.BudgetChangesExactly | apps/api/app/api/routes/concurrency.py:170-245 | A budget changes only by being set or deleted, and only while nobody holds its row lock. |
| BudgetSteps.OwnerChangesExactly | apps/api/app/orchestration/claiming.py:231-268 | A budget row is locked by asking for an existing free one, and released by ending or by rolling back a candidate that moved nothing under it; no other step changes an owner. |
| BudgetSteps.RowChangesExactly | apps/api/app/orchestration/provider_budgets.py:34-44 | A row enters flight only by the commit of the transaction that moved it and leaves it only by leaving; nothing uncommitted shows. |
| BudgetSteps.MovesChangeExactly | apps/api/app/orchestration/dispatcher.py:237-299 | A move takes effect exactly for a transaction that has passed the check and a row that nobody is moving and that is new, or pending under the key passed for; it uses the pass up. |
| BudgetSteps.CheckChangesExactly | apps/api/app/orchestration/provider_budgets.py:47-57 | What each step makes of a transaction's check: a missing budget passes, a free or own lock leads to counting, and only a count at or above the budget says no. |
| BudgetSteps.TransactionsAreTheirOwn | apps/api/app/orchestration/provider_budgets.py:20-57 | A transaction opens by beginning, closes by committing or aborting, and no step of another changes it. |
| BudgetSteps.RollbackUndoesTheCandidate | apps/api/app/orchestration/claiming.py:258-267 | Asking under a savepoint and rolling back to it returns exactly the state before, whatever the count said. |
| BudgetSteps.AbortLeavesNoTrace | apps/api/app/orchestration/claiming.py:231-268 | A transaction that aborts after any sequence of its own steps leaves exactly the state from before it began. |
| BudgetSteps.CommitIsAbortWithItsMoves | apps/api/app/orchestration/provider_budgets.py:20-57 | A commit differs from an abort exactly by its moves: each becomes a row in flight, no other row changes. |
| BudgetEscapes.ReachableInv | apps/api/app/orchestration/provider_budgets.py:20-31 | In every reachable state, disciplined or not, whoever is counting, has passed by counting or holds a counted move owns the budget row's lock, and no uncommitted move is in flight or in two transactions. |
| BudgetEscapes.SafeExactly | apps/api/app/orchestration/provider_budgets.py:20-57 | For every reachable state: no continuation that obeys the check and leaves the budget row standing exceeds the budget if and only if in-flight rows plus what the lock's owner holds and has passed fit, and nobody without the lock is past the count. |
| BudgetEscapes.UnnamedDispatchIsSafeExactly | apps/api/app/orchestration/dispatcher.py:237-299 | A dispatch without a provider, committed at once, adds one; no later obedient transaction exceeds the default provider's budget if and only if in flight plus pledged was below it and nobody else had escaped. |
| BudgetEscapes.OpenEscapeIsNeverSafe | apps/api/app/orchestration/dispatcher.py:237-299 | While an uncounted move or pass is open without the lock, some continuation of claims that count and its commit raises the load above the budget, whatever the budget and the room. |
| BudgetEscapes.UnnamedDispatchOverruns | apps/api/app/orchestration/scheduler.py:133-141 | A reachable state in which such a dispatch takes a budget of one to two. |
| BudgetEscapes.DispatchPushesACountedCommitOver | apps/api/app/orchestration/claiming.py:258-331 | A reachable state in which such a dispatch committed within the budget, and the commit of the claim that had counted before it takes a budget of one to two. |
| BudgetEscapes.OtherProvidersNeedOnlyTimelyBudgets | apps/api/app/orchestration/dispatcher.py:158-329 | For every provider but the default one: in every run whose creations of its budget happen while no open transaction is past the missing one, a step that raises the load leaves it within the budget. |
| BudgetEscapes.LateBudgetIsSafeExactly | apps/api/app/orchestration/provider_budgets.py:53-57 | Creating a budget in a reachable state, of any size, is never followed by an obedient overrun if and only if no open transaction has escaped the missing one. |
| BudgetEscapes.LateBudgetIsOverrun | apps/api/app/orchestration/provider_budgets.py:20-31 | A reachable state in which a budget created late is overrun by a transaction that had found none. |
| RateLimit.InMemoryRateLimiter.Build | apps/api/app/core/rate_limit.py:39-46 | A limiter is built exactly for positive limits, and starts empty. |
| RateLimit.InMemoryRateLimiter.Check | apps/api/app/core/rate_limit.py:48-62 | One check rewrites exactly its own key's window and answers as the window specification does. |
| RateLimit.CounterRefinesLog | apps/api/app/core/rate_limit.py:46-62 | After any interleaved history a key's counter summarises the full list of times its own calls were allowed at. |
| RateLimit.AnswersDependOnOwnCallsOnly | apps/api/app/core/rate_limit.py:48-62 | An answer equals the timestamp-keeping limiter's over the key's own calls; other keys never matter. |
| RateLimit.AllowedTimesAreTheLog | apps/api/app/core/rate_limit.py:48-62 | The calls the limiter allowed are exactly the timestamps the specification kept. |
| RateLimit.AllowedInAnyInterval | apps/api/app/core/rate_limit.py:48-62 | In any half-open interval of length L a key is allowed at most max * (ceil(L / window) + 1) - 1 requests. |
| RateLimit.BoundIsReached | apps/api/app/core/rate_limit.py:48-62 | For all limits and lengths some history reaches that number, so the bound is exact. |
| RateLimit.DenialMeansWindowIsFull | apps/api/app/core/rate_limit.py:56-62 | A denial means exactly max calls of the key were allowed in its live window, and the wait ends with the window. |
| RateLimit.DenialEndsAfterTheWait | apps/api/app/core/rate_limit.py:48-62 | The key's next call is allowed once the announced wait has passed, whatever other keys did. |
| RateLimit.RateLimitMiddleware.Dispatch | apps/api/app/core/rate_limit.py:97-121 | Exempt paths touch nothing; every other request leaves its tier's limiter with exactly the window of one check under the key of tier and address, and is answered by it; the header rounds the wait up, by at most one second. |
| RateLimitTraffic.Serve | apps/api/app/core/rate_limit.py:97-121 | Any stream of requests through one middleware over two fresh limiters: each is answered as the calls of its own tier before it decide, and only counted requests count. |
| RateLimitTraffic.ForwardedInAnyInterval | apps/api/app/core/rate_limit.py:97-121 | Over any stream in time order, one address gets at most max * (ceil(L / window) + 1) - 1 requests of one tier forwarded in any interval of length L. |
| RateLimitTraffic.RefusedExactly | apps/api/app/core/rate_limit.py:97-121 | A request is refused if and only if it is not exempt and its tier and address have had the maximum forwarded since their live window opened. |
| RateLimitTraffic.OthersNeverMatter | apps/api/app/core/rate_limit.py:102-107 | Two streams with the same requests of one tier and address at the same times answer that caller alike. |
| RateLimitTraffic.TierExactly | apps/api/app/core/rate_limit.py:98-105 | A path is uncounted exactly if it is exempt, and counted by the strict limiter exactly if it is not exempt and begins with a listed prefix. |
| RateLimitTraffic.SecondRequestIsRefused | apps/api/app/core/rate_limit.py:97-121 | With one request a minute allowed, a second at the same time is refused and told sixty seconds. |
| Backpressure.BackpressureTables.EvaluateWorkspace | apps/api/app/orchestration/backpressure.py:73-141 | One evaluation rewrites one row and appends an event exactly on a transition; the snapshot's flag says whether it did. |
| Backpressure.BackpressureTables.EvaluateAllActive | apps/api/app/orchestration/backpressure.py:144-157 | A sweep is its evaluations in order, with one snapshot each of the state it classified and whether it changed there. |
| Backpressure.EventsAgreeWithRows | apps/api/app/orchestration/backpressure.py:80-132 | Over every run a workspace's events chain from NORMAL without a self-step, clear exactly into NORMAL, replay to the stored state, and date its entry time. |
| Backpressure.SweepEffect | apps/api/app/orchestration/backpressure.py:144-157 | A sweep sets each listed workspace to the class of its own depth and leaves every other row as it was. |
| Backpressure.RowsSayTheLastObservation | apps/api/app/orchestration/backpressure.py:34-141 | Over every run a workspace has a row exactly if it was observed; its state is the band of its last observation, NORMAL below both limits, PRESSURED from the soft limit, THROTTLED from the hard one, and depth and time are that observation's. |
| Backpressure.CoveringSweep | apps/api/app/orchestration/backpressure.py:144-172 | When the batch covers them, every workspace with pending work is classified and its tick allowance halved exactly at the hard limit; every other workspace's row is the same. |
| Backpressure.TickLimitInRange | apps/api/app/orchestration/backpressure.py:160-172 | The effective allowance lies between one and the configured one and is reduced only while THROTTLED. |
| Backpressure.DrainedWorkspaceKeepsItsState | apps/api/app/orchestration/backpressure.py:144-157 | No number of sweeps changes or reports a workspace without pending work. |
| Backpressure.ThrottledWorkspaceDrains | apps/api/app/orchestration/backpressure.py:144-157 | A run in which a workspace is throttled, drains, and stays THROTTLED without an event through a sweep that covers all pending work. |
| Backpressure.SweepIsAccurateExactlyWhenDrainedAreNormal | apps/api/app/orchestration/backpressure.py:37-42 | After a covering sweep every state matches the present depth if and only if the drained workspaces were NORMAL. |
| Ranking.NumberedAboveOneUnlessFirst | apps/api/alembic/versions/0049_compliance_audit_reruns.py:34-51 | A row number above one singles out everything but the earliest row of its partition. |
| Ranking.NumberedAboveOneUnlessLast | apps/api/alembic/versions/0033_spend_reservation_unique_open.py:28-38 | The same for descending order and the newest row. |
| AuditDowngrade.TargetIsEarliestOfTheGroup | apps/api/alembic/versions/0049_compliance_audit_reruns.py:26-51 | Repointing sends each reference to the earliest audit of the (artifact, hash) group it already pointed to, which the delete spares. |
| DowngradeOutcomes.CanonicalExactly | apps/api/alembic/versions/0049_compliance_audit_reruns.py:34-51 | The canonical audit of a group is exactly the one of the same artifact and hash with the least creation time, ties by id. |
| DowngradeOutcomes.RerunExactly | apps/api/alembic/versions/0049_compliance_audit_reruns.py:34-51 | The fold deletes an audit exactly when another of its artifact and hash comes before it. |
| AuditDowngrade.SurvivorsAreTheEarliest | apps/api/alembic/versions/0049_compliance_audit_reruns.py:89-96 | Deleting the mapped rows leaves exactly the earliest audit of every group, unchanged, one per key. |
| AuditDowngrade.NoRerunsExactlyWhenUnique | apps/api/alembic/versions/0049_compliance_audit_reruns.py:21-51 | The ranking finds a rerun if and only if the dropped constraint is violated. |
| AuditDowngrade.UpdateInvalidations | apps/api/alembic/versions/0049_compliance_audit_reruns.py:80-88 | The row-by-row update, under the append-only trigger and the immediate unique check, succeeds or fails and ends the same in every row order. |
| AuditDowngrade.Database.DeleteComplianceReruns | apps/api/alembic/versions/0049_compliance_audit_reruns.py:89-96 | The delete as the foreign key and triggers make it: refused, or cascading into every invalidation that still refers to a deleted audit. |
| AuditDowngrade.Database.DeleteChiefReruns | apps/api/alembic/versions/0048_compliance_chief_auditor_v1.py:463-600 | The same with CASCADE, RESTRICT and SET NULL on the three tables that refer to chief audits. |
| AuditDowngrade.Database.FoldChief | apps/api/alembic/versions/0049_compliance_audit_reruns.py:98-132 | With the mapping evaluated anew in each statement, the delete cascades, restricts and nulls nothing. |
| AuditDowngrade.Database.Downgrade | apps/api/alembic/versions/0049_compliance_audit_reruns.py:74-144 | It commits exactly when the rows are foldable; then each group keeps its earliest audit, every dependent row keeps its key and points to the survivor of its group, versions rise only where a reference moved, constraints and triggers are back; otherwise nothing changed. |
| DowngradeOutcomes.GuardedDowngradeCommitsExactly | apps/api/alembic/versions/0048_compliance_chief_auditor_v1.py:654-666 | As the append-only triggers stand, the downgrade commits if and only if every invalidation and every review package refers to the canonical audit of its group. |
| DowngradeOutcomes.GuardedPackagesPassExactly | apps/api/alembic/versions/0049_compliance_audit_reruns.py:107-115 | The statement on review packages passes the trigger if and only if every package already refers to the canonical audit of its group, that is, if it would rewrite none. |
| DowngradeOutcomes.PackageOnARerunStopsTheDowngrade | apps/api/alembic/versions/0049_compliance_audit_reruns.py:107-115 | One package on a rerun and one on a canonical audit, no invalidation: the downgrade aborts with the triggers and would commit without them. |
| DowngradeOutcomes.UnguardedDowngradeCommitsExactly | apps/api/alembic/versions/0048_compliance_chief_auditor_v1.py:487-487 | Without those triggers it commits if and only if no two invalidations whose audits fold together share a reason. |
| DowngradeOutcomes.DeletesTakeExactly | apps/api/alembic/versions/0048_compliance_chief_auditor_v1.py:462-600 | A delete of audits leaves nothing dangling, cascades into exactly their invalidations, and empties exactly their eligibility references, each with one version more. |
| DowngradeOutcomes.RestrictExactly | apps/api/alembic/versions/0048_compliance_chief_auditor_v1.py:518-524 | A delete is restricted exactly when the audits that packages refer to and those to be deleted meet. |
| DowngradeOutcomes.CascadeExactly | apps/api/alembic/versions/0048_compliance_chief_auditor_v1.py:466-472 | An invalidation refers to a deleted audit exactly when the cascade would lose a row. |
| AuditDowngrade.InvalidationsFollowTheirGroup | apps/api/alembic/versions/0049_compliance_audit_reruns.py:80-106 | Every invalidation keeps its key and reason and points to the earliest audit of the group it pointed to. |
| AuditDowngrade.OthersFollowTheirGroup | apps/api/alembic/versions/0049_compliance_audit_reruns.py:107-124 | The same for review packages and eligibility rows; an eligibility version rises by one exactly where the reference moved, and an empty reference stays empty. |
| AuditDowngrade.FoldedHolds | apps/api/alembic/versions/0048_compliance_chief_auditor_v1.py:320-347 | After the fold no reference dangles and each key has one audit. |
| AuditDowngrade.GuardedRowsMoveExactlyWhenNoneHasTo | apps/api/alembic/versions/0048_compliance_chief_auditor_v1.py:654-666 | With the append-only triggers standing, invalidations can be folded if and only if none refers to a rerun. |
| AuditDowngrade.UnguardedRowsMoveExactlyWithoutAClash | apps/api/alembic/versions/0048_compliance_chief_auditor_v1.py:487-487 | Without them, if and only if no two invalidations of one group share a reason. |
| AuditDowngrade.InvalidatedRerunStopsTheDowngrade | apps/api/alembic/versions/0049_compliance_audit_reruns.py:54-58 | A single invalidated rerun makes the downgrade abort as the triggers stand. |
| AuditDowngrade.NothingMovesWithoutReruns | apps/api/alembic/versions/0049_compliance_audit_reruns.py:74-144 | Where the constraint held all along the downgrade always commits and changes no row. |
| AuditDowngrade.FoldingTwiceIsFoldingOnce | apps/api/alembic/versions/0049_compliance_audit_reruns.py:26-51 | What a committed downgrade leaves holds no rerun; folding it again changes nothing. |
| AuditDowngrade.UpgradeAndBack | apps/api/alembic/versions/0049_compliance_audit_reruns.py:21-144 | Upgrade followed by downgrade is the identity on a revision-0048 database. |
| ReservationCleanup.SpendReservations.ReleaseDuplicates | apps/api/alembic/versions/0033_spend_reservation_unique_open.py:26-47 | In any row order: every open reservation but the newest of its run and stage is released, its version one higher although statement and trigger both write it; all other rows are untouched. |
| ReservationCleanup.SpendReservations.Upgrade | apps/api/alembic/versions/0033_spend_reservation_unique_open.py:24-56 | The partial unique index can always be built after the release. |
| ReservationCleanup.OneUpdateSettles | apps/api/alembic/versions/0002_shared_helpers.py:20-31 | The SET list followed by the version trigger raises a released row's version by exactly one. |
| ReservationCleanup.TheTriggerDecides | apps/api/alembic/versions/0002_shared_helpers.py:20-31 | Whatever a statement sets them to, version and time of change are the trigger's, and nothing else is. |
| ReservationCleanup.OnlyTheNewestStayOpen | apps/api/alembic/versions/0033_spend_reservation_unique_open.py:24-56 | What is open afterwards is exactly what was the newest of its group. |
| ReservationCleanup.ReleasedExactly | apps/api/alembic/versions/0033_spend_reservation_unique_open.py:25-47 | Exactly the open reservations that have a newer one of their run and stage are released, at the given time and one version higher; no other row or column changes. |
| ReservationCleanup.EveryOpenGroupKeepsItsNewest | apps/api/alembic/versions/0033_spend_reservation_unique_open.py:25-47 | Every group that had an open reservation keeps exactly one, its newest, unchanged. |
| ReservationCleanup.ReleaseIsIdempotent | apps/api/alembic/versions/0033_spend_reservation_unique_open.py:24-60 | Where the index already holds, the release changes nothing. |
| Membership.NoneVisibleExactlyForNonMembers | apps/api/alembic/versions/0021_fix_rls_workspace_memberships_recursion.py:70-79 | Through the SELECT policy a NOT EXISTS over a workspace's memberships holds exactly for its non-members. |
| Membership.Revision0022AdmitsOnlyAdmins | apps/api/alembic/versions/0022_fix_workspace_memberships_insert_policy.py:37-60 | In 0022 the creator's arm can never hold, so the policy admits the same inserts as 0021. |
| Membership.NobodyEverJoinsBefore0023 | apps/api/alembic/versions/0022_fix_workspace_memberships_insert_policy.py:37-77 | From an empty database no run under 0021 or 0022 ever holds a membership: the deadlock 0023 removes. |
| Membership.InsertTakesExactlyFor | apps/api/alembic/versions/0023_fix_workspace_membership_insert_security_definer.py:31-68 | From 0023 on an insert takes effect exactly for an admin, or for the recorded creator's own admin row, where the unique key is free. |
| Membership.CreatorCanAlwaysStart | apps/api/alembic/versions/0023_fix_workspace_membership_insert_security_definer.py:31-68 | The creator of a workspace they are not a member of, an empty one in particular, can always insert their own admin row and is then its admin. |
| Membership.CreatorReturnsToAPopulatedWorkspace | apps/api/alembic/versions/0022_fix_workspace_memberships_insert_policy.py:12-14 | Against its description, a run after which the bootstrap arm holds of a workspace that has members. |
| Membership.ArmAgreesWithItsDescriptionExactly | apps/api/alembic/versions/0023_fix_workspace_membership_insert_security_definer.py:49-68 | The arm agrees with "no memberships exist yet" if and only if the workspace is empty or its creator is in it. |
| Membership.LeavingTakesEffectExactly | apps/api/alembic/versions/0024_fix_memberships_delete_allow_self_leave.py:26-37 | A member's delete of their own row takes effect for everyone in 0024, before it only for admins, and touches no other row. |
| Membership.RoleChangesExactly | apps/api/alembic/versions/0022_fix_workspace_memberships_insert_policy.py:34-77 | What each statement makes of one user's role in one workspace, in terms of the full table: who may insert, change, move and remove it, in each revision. |
| Membership.CreatorChangesExactly | apps/api/alembic/versions/0001_identity_and_access.py:199-222 | A workspace's recorded creator is whoever first created it in their own name, until an admin rewrites it. |
| Membership.EveryMembershipTracesBack | apps/api/alembic/versions/0023_fix_workspace_membership_insert_security_definer.py:31-68 | In every run each membership in its present role was written by a then-admin whose own admission traces back, step by earlier step, to a recorded creator's own insert. |
| Membership.PopulatedMeansBootstrapped | apps/api/alembic/versions/0022_fix_workspace_memberships_insert_policy.py:34-77 | No workspace holds a membership without having been bootstrapped by the creator recorded at that time. |
| Membership.OutsidersChangeNothingElse | apps/api/alembic/versions/0022_fix_workspace_memberships_insert_policy.py:62-77 | Whoever is neither admin nor recorded creator can at most remove their own row; nobody signed in changes nothing. |
| Sums.SumIgnoresOrder | scripts/beta_cost_model.py:143-160 | A total depends on the rows only as a multiset. |
| Sums.GroupsAddUp | scripts/beta_cost_model.py:143-160 | Totals per key add up to the total, each entry counted under exactly one key. |
| CostReport.SortKeys | scripts/beta_cost_model.py:177-177 | The keys of the report in strict lexicographic order, each once. |
| CostReport.SortedListingIsUnique | scripts/beta_cost_model.py:177-177 | A set of keys has one strictly sorted listing. |
| CostOutcomes.StringLessExactly | scripts/beta_cost_model.py:177-177 | The order of the rows: one string precedes another exactly when at the first difference it ends or has the smaller code point. |
| CostReport.TallyEvents | scripts/beta_cost_model.py:140-160 | The event loop accepts exactly the well-formed events with distinct ids, tallies every measure of every workspace-month, and otherwise stops at the first unacceptable event with the first of its faults. |
| CostReport.TallyOutputs | scripts/beta_cost_model.py:162-175 | The approval loop ignores other outcomes, accepts exactly well-formed distinct approvals, collects the items of each workspace-month, and otherwise stops at the first unacceptable approval with the first of its faults. |
| CostReport.LoadPricing | scripts/beta_cost_model.py:108-132 | Pricing loads exactly when every row is well formed and no workspace-month repeats, and then holds each row under its key and nothing else; otherwise it stops at the first unacceptable row with the first of its faults. |
| CostReport.BuildReport | scripts/beta_cost_model.py:135-217 | It succeeds exactly on acceptable inputs, with one row per workspace-month that has events, approvals or a price, in strict order, each stating the measures of that workspace-month; it refuses with the first fault of the first unacceptable event, or failing that approval. |
| CostOutcomes.RowsExactly | scripts/beta_cost_model.py:135-217 | The report has a row for a workspace and a month if and only if an event, an approval or a price names the workspace and begins with that month. |
| CostOutcomes.CountsArePrinted | scripts/beta_cost_model.py:143-182 | A row prints how many events fell into its workspace-month, how many of them failed, were retried, timed out or went to the dead letters, and how many different items were approved in it. |
| CostOutcomes.PricesArePrinted | scripts/beta_cost_model.py:108-217 | Each priced workspace-month prints its own five prices, and they decide margin, overage and throttle in its row. |
| CostOutcomes.EventsOkExactly | scripts/beta_cost_model.py:140-153 | Events are accepted if and only if every field is there, the date begins with a year and a dash, no cost is negative and no id repeats; zero costs are accepted. |
| CostOutcomes.OutputsOkExactly | scripts/beta_cost_model.py:162-175 | Outcomes are accepted if and only if every approval is complete and no item is approved twice in one workspace-month. |
| CostOutcomes.PricingsOkExactly | scripts/beta_cost_model.py:108-132 | Prices are accepted if and only if every field is there, none is negative and no workspace-month repeats. |
| CostTheorems.SuccessIgnoresOrder | scripts/beta_cost_model.py:140-175 | Reordering events and outcomes never turns success into refusal. |
| CostTheorems.ReportIgnoresOrder | scripts/beta_cost_model.py:140-217 | Every permutation of events and outcomes yields the identical report. |
| CostTheorems.PricingIgnoresOrder | scripts/beta_cost_model.py:108-132 | The same for pricing rows. |
| CostTheorems.RowsAddUp | scripts/beta_cost_model.py:143-217 | Conservation: before rounding, the rows' totals, bucket costs and counts each add up to those of all events. |
| CostTheorems.EventsCountedOnce | scripts/beta_cost_model.py:158-160 | The printed event counts sum to the number of events, the failed counts to the failed events. |
| CostTheorems.AcceptedCountsApprovals | scripts/beta_cost_model.py:162-182 | A row's accepted count is the number of approved records of its workspace-month. |
| CostTheorems.BucketsMakeTheTotal | scripts/beta_cost_model.py:155-157 | Before rounding a row's total is the sum of its eight buckets. |
| CostTheorems.QuantizeIsNearest | scripts/beta_cost_model.py:102-105 | Printing rounds to a nearest multiple of 0.0001, ties to even, and is exact on multiples. |
| CostTheorems.PrintedBucketsNearTotal | scripts/beta_cost_model.py:204-214 | The eight printed bucket costs sum to within 0.0004 of the printed total. |
| CostTheorems.PrintedBucketsMatchWholeUnits | scripts/beta_cost_model.py:204-214 | Where every amount is a multiple of 0.0001 they sum to it without any difference. |
| CostTheorems.RoundingBoundIsReached | scripts/beta_cost_model.py:102-105 | Eight accepted events of 0.00005 reach the difference of 0.0004, so the bound is exact. |
| DashboardLoads.KeyNamesTheView | apps/web/src/LumoraDashboard.tsx:1900-1900 | Two views with the same key text are the same workspace, page and tab, whatever characters the workspace id holds. |
| DashboardLoads.InvStep | apps/web/src/LumoraDashboard.tsx:1899-2079 | Every load, completion, failure, navigation, workspace switch and ref update keeps: data is held under the key it was fetched for, by the last writer, and writers' generations strictly increase. |
| DashboardSteps.ViewChangesExactly | apps/web/src/LumoraDashboard.tsx:2043-2079 | Where each action lands: page, tab and workspace change exactly as navigation, tab change, jump and switch say; a new page opens on its overview. |
| DashboardSteps.GenerationsChangeExactly | apps/web/src/LumoraDashboard.tsx:1899-2079 | Every load and every move takes one generation; nothing else does. |
| DashboardSteps.RefsChangeExactly | apps/web/src/LumoraDashboard.tsx:1783-1787 | The refs change only when the effect runs, and then follow data and key together. |
| DashboardSteps.OpensWaiting | apps/web/src/LumoraDashboard.tsx:1753-1768 | The dashboard opens on its first page's overview, waiting and with nothing shown; its first load shows what it fetched and ends the waiting. |
| DashboardSteps.MoveTakesExactly | apps/web/src/LumoraDashboard.tsx:2043-2079 | A move takes a generation, drops what is held and any failure, and waits for a load, except for the assistant. |
| DashboardSteps.AMoveLeavesNothingBehind | apps/web/src/LumoraDashboard.tsx:1999-2079 | After a move nothing is shown, and every request that was in flight may complete in any way without changing the screen. |
| DashboardSteps.LoadTakesExactly | apps/web/src/LumoraDashboard.tsx:1899-1911 | A load takes a generation and is loud or quiet exactly as it is in the background over data held for its view. |
| DashboardSteps.DataChangesExactly | apps/web/src/LumoraDashboard.tsx:1999-2028 | What is held, and under which key, changes exactly with the newest success, the newest loud failure and a move. |
| DashboardSteps.NewestCompletionSettles | apps/web/src/LumoraDashboard.tsx:1999-2028 | The newest completion ends all waiting; a quiet failure is noted beside the data, a loud one covers it, and a success withdraws only the note. |
| DashboardSteps.HealthChangesExactly | apps/web/src/LumoraDashboard.tsx:2000-2010 | Health changes exactly with its own refresh and with the newest success of the two pages that fetch it. |
| DashboardLoads.ShownDataIsForTheCurrentView | apps/web/src/LumoraDashboard.tsx:2131-2158 | In every run, also with handlers and loads from outdated closures, whatever the render guard lets through was fetched for the current workspace, page and tab. |
| DashboardLoads.ShownHealthIsForTheCurrentWorkspace | apps/web/src/LumoraDashboard.tsx:2085-2085 | Health is shown exactly when what is held was fetched for the current workspace. |
| DashboardLoads.OnlyTheNewestWrites | apps/web/src/LumoraDashboard.tsx:1999-2028 | A completion that is not the newest request's changes nothing. |
| DashboardLoads.OvertakenRequestsNeverWrite | apps/web/src/LumoraDashboard.tsx:1902-1904 | Once a newer generation exists an older request never writes again, whatever happens next. |
| DashboardLoads.ShownGenerationsNeverGoBack | apps/web/src/LumoraDashboard.tsx:1999-2029 | What is shown later is never of an older generation, and of the same generation only if it is the same data. |
| DashboardLoads.OneWritePerGeneration | apps/web/src/LumoraDashboard.tsx:1899-2029 | Each generation writes at most once. |
| DashboardLoads.UndisturbedLoadShowsItsData | apps/web/src/LumoraDashboard.tsx:1899-2029 | A load that nothing overtakes puts its data on the screen, except the one background refresh that leaves an earlier failure showing. |
| DashboardLoads.FailureOutlivesARefresh | apps/web/src/LumoraDashboard.tsx:1899-2029 | A run that ends so: the newest data is held under the current key, and the earlier failure is shown instead. |
| DashboardLoads.Dashboard.BeginLoad | apps/web/src/LumoraDashboard.tsx:1899-1911 | A load takes a fresh generation, newer than every other. |
| DashboardLoads.Dashboard.FinishLoad | apps/web/src/LumoraDashboard.tsx:1999-2028 | The completing half of a load is one step of the specification and keeps the invariant. |
| DashboardLoads.Dashboard.Navigate | apps/web/src/LumoraDashboard.tsx:2043-2055 | Navigation is one step of the specification, decided on the page its closure captured. |
| DashboardLoads.Dashboard.ChangeMissionTab | apps/web/src/LumoraDashboard.tsx:2057-2067 | The same for a tab change. |
| DashboardLoads.Dashboard.NavigateToMissionTab | apps/web/src/LumoraDashboard.tsx:2069-2079 | The same for a jump to a mission tab, which always starts a new generation. |
| DashboardLoads.Dashboard.RenderView | apps/web/src/LumoraDashboard.tsx:2131-2158 | The render guard returns the held data only for the view it was fetched for. |

## Left out

- EffectTheorems.ResultMatchesAttempt: goes one way over whole runs, since two starts of one worker permit a late submit but do not force one; the exact condition is the one at the submit itself.
- EffectTheorems.AtMostOnceExecution: is per assignment row; a stage retried after a failure gets a new assignment with a key of its own.
- EffectTheorems.LateRequestTakesASecondRow: worker status, heartbeat age and capacity, which let the server refuse a claim, are not state; a refused claim is one that is not granted.
- Lease lengths and back-off: a lease may lapse, and a row be recovered, at any time; a renewal may succeed at any time and the maximum total lease is not counted, so sessions do at least what they can.
- ProviderBudgets.GrowthStaysWithinBudget: assumes the two conditions of `Respects`; `BudgetEscapes` says exactly what happens where the code breaks them.
- WorkerClient.RunHttpLoop: heartbeats may come any number of times while a request waits or between turns; their interval, their own replies and the timing of the task's cancellation are not modelled.
- AuditDowngrade.Database.Downgrade: carries the columns the statements read or write; other columns are copied unread, and the migration role is taken to bypass row policies.
- CostReport.BuildReport: takes fields already stripped, lower-cased and parsed; CSV reading, decimal syntax, NaN, infinities and 28-digit precision are not part of this model, and amounts are exact.
- DashboardLoads.ShownDataIsForTheCurrentView: takes one batch of state setters as one step, as React 18 does; rendering, type guards and panels are not modelled.
- DashboardLoads.UndisturbedLoadShowsItsData: the error branch of the guard is checked before the key, so which view a shown error belongs to is not stated.
- Membership.EveryMembershipTracesBack: each statement is one atomic step on the current tables; concurrent snapshots, RETURNING, profile deletion and the checks of the HTTP routes are not part of this model.
- RateLimit.AllowedInAnyInterval: needs time not to run backwards; clocks are parameters and times are reals.
- Client address extraction (`apps/api/app/core/rate_limit.py:64-70`): a small total function.
- Explicit effect keys chosen by the caller: the client never sends one.
- Progress of dashboard loading: a new generation need not be followed by a new load.
- Deadlock detection between budget rows: modelled as an abort.
- HTTP, ORM sessions and their identity maps, asyncio, tokens, logging, audit rows and the outbox: input, output and library glue.
- Secret hashing and credential checks: not modelled.
- The remaining modules (relay, review gates, spend reservation at run time, content, research, billing): not part of this model.
