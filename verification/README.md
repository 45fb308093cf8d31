# Verification of the gateway's worker pools

The gateway keeps, per function, a pool of containers ("workers"). Requests take a worker, post to it and
give it back; idle workers are paused after a while; a janitor prunes workers that stay idle too long and
deletes containers that no pool knows. All of this runs as asyncio tasks that interleave at every `await`,
around shared queues, sets, counters and tables. This project models that protocol, the smaller concurrent
machines around it and three string codecs, and proves what they promise. `dafny verify dfyconfig.toml`
checks everything.

## How the model is built

Code that changes fields in place is a class whose methods are proved against functions on values. The
interleavings are state machines over the same functions: one action is one stretch of code between two
suspension points, a run is any possible sequence of actions, and a claim about runs is a lemma about every
reachable state.

| file | content |
|---|---|
| `Workers.dfy` | ids, time, worker records |
| `Ledger.dfy` | the pool's bookkeeping as a value; facts about the idle queue |
| `ContainerPool.dfy`, `PoolManager.dfy` | the pool and its manager, one call at a time |
| `PoolProtocol.dfy` | the interleaving machine: requests, pause jobs, janitor passes, the agent |
| `PoolOwnership.dfy`, `PoolCapacity.dfy`, `PoolPause.dfy`, `PoolJanitor.dfy` | its inductive invariants |
| `PoolSafety.dfy` | what the machine promises on every run |
| `PoolEffects.dfy` | what pausing, waking and pruning bring about |
| `PoolLimits.dfy`, `PoolService.dfy` | where those promises end, exactly; whom the pool can still serve |
| `PoolRefinement.dfy` | a lone `acquire_worker` call is a run of the machine |
| `LambdaInvoker.dfy`, `InvocationProtocol.dfy` | one invocation: acquire, post through the breaker, give back; alone and in the machine |
| `CircuitBreaker.dfy`, `FunctionThrottle.dfy`, `OrchestratorClient.dfy` | breaker, throttle, single flight, each a class and a machine |
| `OrchestratorCancellation.dfy` | what cancellations do to a single flight |
| `Strings.dfy`, `ContainerNames.dfy`, `TraceId.dfy`, `RouteMatcher.dfy` | the string codecs |

Why the steps are the right ones. Awaiting a coroutine that does not suspend does not yield to the event
loop, so a lock section without an inner `await` is one step, together with what follows it up to the next
suspension. Removing a worker from the idle queue and cancelling its pause task is one step, and so is
releasing a worker and starting its pause task. `wait_for` may hold the pool's lock across a turn of the
loop, so the step that takes the lock is separate from the one that asked for it, and a task may be cancelled
in between. The lock in `OrchestratorClient` is never held across a suspension, so taking it never suspends.
Where the model allows a suspension that a given Python version does not have, it only allows more runs.

The environment is nondeterministic: provision, pause, resume, delete and POST succeed or fail, tasks are
cancelled, time passes at any moment between steps, and containers have fresh ids (they carry nanoseconds;
`ContainerNames.IdsAreFresh`). There is one monotone clock and one gateway process. The listing shows birth
times in whole seconds, as the agent reports them.

History variables in a machine's state are read by no action. In the pool machine `leaked` holds workers
whose holder was cancelled where the code does not give them back (resuming, discarding, or releasing while
it waits for the lock), `lostSlots` counts reservations whose failure handler was itself cancelled, `drained`
says that `drain` ran, `late` holds workers registered past their deadline, `disordered` says that some
adoption was out of turn. `PoolLimits.PastIsHonest` and `PoolLimits.LateMeansRegisteredLate` tie each of them
to the actions of the run.

## Results that differ from the documentation or the obvious reading

- `docs/resilience.md` says the breaker counts consecutive failures and lets one trial through in HALF_OPEN.
  The code counts failures since the last reset, consecutive or not, and lets every caller through. Under no
  setting does it do what is documented: `OpensWithoutConsecutiveFailures`, `AnyNumberOfTrials`. The exact law of
  opening is `OpenMeansEnoughFailures`.
- A `ContainerStartError` never leaves `invoke_function`; the outer handler wraps it, so the 503 branch at
  `services/gateway/main.py:393` is not reached by it (`OnlyLambdaErrorsLeave`).
- A throttle slot handed to a waiter that has just timed out is gone for good; with limit one a single timeout
  can block the function for ever (`OneTimeoutCanBlockForever`).
- Cancelling one follower of a shared container lookup fails its leader, although the remote call succeeded,
  and every other follower; cancelling the leader strands the followers (`CancelledFollowerFailsTheLeader`,
  `CancelledLeaderStrandsFollowers`; exactly who shares the verdict and who can still get an answer:
  `VerdictIsSharedIffUndisturbed`, `ComesAwayIffNotAbandoned`).
- A route also matches its path followed by one newline, since `$` does, and a dot in its pattern matches any
  character but a newline, since nothing escapes it (`RouteMatchesIff`).
- The deadline for registering a new worker is the grace period after its birth time *rounded down*, because
  the agent reports whole seconds (`DeadlineIsExact`).
- Adopting workers in the order of the listing can put the idle queue out of order (`AdoptionKeepsOrderIff`,
  `AdoptionCanDisorder`).
- A trace header with an empty parent or sampling value, or a raw id with a `;` in it, does not survive being
  passed on (`PassingOnKeepsTheTrace`).

## Model

| member | source | states |
|---|---|---|
| PoolSafety.WorkersAreConserved | services/gateway/services/container_pool.py:51-184 | in every reachable state the idle queue has no duplicates, no worker is held by two callers or held while idle, and until drain the ledger is the disjoint union of idle, held and leaked workers |
| PoolSafety.CapacityIsKept | services/gateway/services/container_pool.py:66-100 | workers plus reservations never exceed the capacity, drain included; until drain the counter is the number of provisions in flight plus lost reservations, so the `> 0` guard of the failure handler is always true |
| PoolSafety.ConcurrencyIsLimited | services/gateway/services/container_pool.py:66-70 | until drain at most `max_capacity` workers are in use at once |
| PoolSafety.NoLostWakeup | services/gateway/services/container_pool.py:57-124 | whoever sleeps un-notified on the condition variable sees an empty idle queue and no room, drain included |
| PoolSafety.AcquirerGetsWaitsOrEnds | services/gateway/services/container_pool.py:60-82 | in every reachable state a task that looks for a worker gets the head of the queue if there is one, else reserves if there is room, else keeps waiting, its clock running since it came, if and only if less than the acquire timeout has passed, and ends otherwise |
| PoolCapacity.ProvisionForgetsNone | services/gateway/services/container_pool.py:84-93 | registering a fresh worker leaves the load as it was, which is why no notification is needed |
| PoolSafety.LossesExhaustThePool | services/gateway/services/container_pool.py:94-100 | once leaked workers and lost reservations fill the capacity, nothing is idle, held or being made, and an acquirer can only wait or time out |
| PoolLimits.ExhaustionIsForever | services/gateway/services/container_pool.py:60-100 | and so it stays on every continuation without drain |
| PoolService.ServesIffNotExhausted | services/gateway/services/container_pool.py:51-124 | in every reachable state before drain, a newcomer, or anyone about to look or waiting, is returned a worker by acquire_worker on some continuation if and only if the losses do not fill the capacity |
| PoolLimits.CancelledHolderLeaks | services/gateway/services/pool_manager.py:134-145 | a run that leaks a worker: released, paused, acquired again, and the request cancelled during resume; it stays in the ledger and nobody holds it |
| PoolSafety.LeastRecentlyUsedFirst | services/gateway/services/container_pool.py:61-64 | unless a worker was adopted out of turn, the worker handed out is the least recently used idle one |
| PoolSafety.PruneRemovesAPrefix | services/gateway/services/container_pool.py:146-169 | then pruning cuts exactly a prefix off the queue, all of it past the timeout, and leaves only workers within it, in order |
| PoolLimits.AdoptionKeepsOrderIff | services/gateway/services/container_pool.py:171-180 | an adoption keeps the queue in order if and only if the worker's stamp is unset, or neither ahead of the clock nor older than any idle worker's |
| PoolLimits.AdoptionCanDisorder | services/gateway/services/container_pool.py:171-180 | a run with two past stamps adopted in the wrong order, after which pruning removes no prefix |
| PoolSafety.PausingSparesHeldWorkers | services/gateway/services/pool_manager.py:81-161 | at most one pause task per worker is not cancelled and it is the one in the table; its worker is idle or awaits prune clean-up; a worker returned by acquire_worker is not paused and has no live pause task while it is held |
| PoolSafety.ReleaseNeverWaits | services/gateway/services/pool_manager.py:90-96 | the cancel inside `_schedule_pause` never finds a task to wait for, because a held worker has none |
| PoolSafety.ReleasedWorkerWillBePaused | services/gateway/services/pool_manager.py:148-154 | until drain, releasing a worker queues it with the time of release and, with pausing on, starts exactly one new pause task for it; with pausing off it starts none |
| PoolEffects.PauseCallIsReachedIff | services/gateway/services/pool_manager.py:98-118 | a pause task left alone after its delay makes the pause call if and only if the worker is not paused, is queued and is in the ledger; the worker is then paused if the call succeeds, and nothing else changes but that the task is over |
| PoolEffects.PauseJobEndsEarly | services/gateway/services/pool_manager.py:102-107 | otherwise the task ends before the call and nothing is paused |
| PoolEffects.ResumedIffPaused | services/gateway/services/pool_manager.py:130-135 | a worker that comes out of the queue is resumed exactly if pausing is on, it has no pause task and it is paused; with a pause task the caller waits for that to unwind first |
| PoolSafety.UnresumedWorkerIsEvicted | services/gateway/services/pool_manager.py:139-145 | in every reachable state, a worker that fails to resume leaves paused ids and ledger, the queue keeps its order, and the caller looks again |
| PoolEffects.PassKnowsWhatItPruned | services/gateway/services/pool_manager.py:234-243 | a prune pass lists for deletion exactly the ids idle for longer than the timeout, and is over at once if there are none |
| PoolEffects.PassDeletesEveryCondemned | services/gateway/services/pool_manager.py:243-250 | on every run, when a janitor pass is over, each id it pruned or found to be an orphan has had its delete call |
| PoolSafety.JanitorSparesThePool | services/gateway/services/pool_manager.py:234-311 | no prune or reconcile pass deletes or is about to delete a pooled worker, unless it registered past its deadline: the grace period after its birth time, rounded down to a whole second |
| PoolSafety.DeletedIsNeverReceived | services/gateway/services/pool_manager.py:253-311 | a deleted container enters the pool in no continuation of the run, unless it registers late |
| PoolLimits.DeadlineIsExact | services/agent/internal/api/server.go:95-102 | for every birth time and every registration time, some run hands out a deleted container registered then if and only if the deadline has come |
| PoolLimits.TimelyRunsAreSafe | services/gateway/services/pool_manager.py:234-311 | on every run without drain in which all registrations are in time, no janitor pass deletes or lists a pooled worker |
| PoolLimits.OneSecondIsEnough | services/agent/internal/api/server.go:95-102 | registering within the grace period less one second is in time, whatever the birth time rounds to |
| PoolLimits.DrainKeepsTheBooksIff | services/gateway/services/container_pool.py:186-194 | the first drain keeps the counter equation if and only if no provision is under way and no slot is lost, and the ledger equation if and only if no worker is held and none leaked |
| PoolLimits.DrainUnbalancesTheCounter | services/gateway/services/container_pool.py:84-93 | in every reachable state, a provision that a drain overtakes drives the counter to minus one and its worker into the emptied ledger |
| PoolLimits.PastIsHonest | services/gateway/services/container_pool.py:51-194 | a run is drained, has leaked, has lost a slot or is disordered if and only if such an action occurred in it, the last by an adoption that was out of turn when it happened |
| PoolLimits.LateMeansRegisteredLate | services/gateway/services/container_pool.py:84-93 | a worker is late if and only if some step of the run registered it past its deadline |
| PoolSafety.InvariantStep | services/gateway/services/container_pool.py:51-194 | every step of every task keeps ownership, capacity, notification, counting, order, pause and janitor invariants together |
| PoolOwnership.OwnedStep | services/gateway/services/container_pool.py:51-194 | every step keeps a map that says of each container where it is: in the making, idle, held, out of the pool, leaked |
| PoolPause.PauseSafeStep | services/gateway/services/pool_manager.py:81-161 | every step, of requests, pause tasks and janitor passes, keeps the pause bookkeeping sound |
| PoolJanitor.JanitorSoundStep | services/gateway/services/pool_manager.py:234-311 | every step keeps harmless whatever a pass has listed for deletion; the listing is read after the clock and before the known ids |
| PoolRefinement.PassesAgree | services/gateway/services/pool_manager.py:279-303 | the reconcile loop deletes exactly the orphans of the protocol: listed, unknown to the pool, not younger than the grace |
| PoolRefinement.AcquireAloneIsARun | services/gateway/services/pool_manager.py:127-146 | the retry loop run alone, evictions included, ends where some run of the protocol ends in which only that task and the pause jobs it cancels move |
| PoolRefinement.AcquireAloneStaysReachable | services/gateway/services/pool_manager.py:127-146 | so every promise about reachable states holds after it |
| Ledger.WithoutIsExact | services/gateway/services/container_pool.py:112-124 | eviction removes every entry of that id from the queue and no other |
| Ledger.WithoutKeepsShape | services/gateway/services/container_pool.py:112-124 | eviction keeps distinctness and order of the rest |
| Ledger.WithoutInOrder | services/gateway/services/container_pool.py:112-124 | eviction keeps any queue in its order, sorted or not |
| Ledger.PruneSplits | services/gateway/services/container_pool.py:150-163 | pruning splits the queue: exactly the entries idle for longer than the timeout leave |
| Ledger.PruneInOrder | services/gateway/services/container_pool.py:150-163 | either half is in the order of the queue, sorted or not; an entry leaves if and only if it has been idle for strictly longer than the timeout |
| Ledger.PruneCutsPrefix | services/gateway/services/container_pool.py:150-163 | on a queue in least-recently-used order what leaves is a prefix and what stays is the rest |
| Ledger.PruneKeepsIds | services/gateway/services/container_pool.py:150-163 | the two halves stay free of duplicates and share no id |
| ContainerPool.ContainerPool.TakeTurn | services/gateway/services/container_pool.py:60-76 | one pass of the acquire loop: hand over the head, else reserve, else wait or time out; the new state in full |
| ContainerPool.ContainerPool.Acquire | services/gateway/services/container_pool.py:51-100 | a lone acquire: its result and the whole new state for each turn and each provision outcome |
| ContainerPool.ContainerPool.Release | services/gateway/services/container_pool.py:102-110 | stamps the worker, appends it, changes nothing else, notifies |
| ContainerPool.ContainerPool.Evict | services/gateway/services/container_pool.py:112-124 | the worker leaves ledger and queue, all others keep their places |
| ContainerPool.ContainerPool.IsIdle | services/gateway/services/container_pool.py:134-139 | true exactly for an id both queued and in the ledger |
| ContainerPool.ContainerPool.PruneIdleWorkers | services/gateway/services/container_pool.py:146-169 | returns the stale workers in order and leaves the fresh ones |
| ContainerPool.SplitStale | services/gateway/services/container_pool.py:152-163 | the loop that empties the queue yields its stale and its fresh entries, in order |
| ContainerPool.ContainerPool.Adopt | services/gateway/services/container_pool.py:171-184 | joins ledger and queue if there is room, stamped only if unstamped |
| ContainerPool.ContainerPool.Drain | services/gateway/services/container_pool.py:186-194 | returns every worker and empties the pool, the counter included |
| PoolManager.PoolManager.AcquireWorker | services/gateway/services/pool_manager.py:127-146 | the retry loop, on a pool made on first use, terminates and computes what its recursive specification says, whole state and result; the pause tasks it cancels are exactly those whose entries it pops |
| PoolManager.PoolManager.GetPool | services/gateway/services/pool_manager.py:62-79 | a function's pool is made on first use, with its configured or default capacity and timeout, and kept |
| PoolManager.AcquireSkipsExactlyTheStuck | services/gateway/services/pool_manager.py:130-145 | with pausing on, the loop evicts exactly the head run of paused workers that do not resume, then ends in the next pass |
| PoolManager.AcquireKeepsPoolSound | services/gateway/services/pool_manager.py:127-146 | a lone call keeps the queue distinct, inside the ledger and within capacity; what it returns is not idle, not paused and has no pause task |
| PoolManager.PoolManager.SchedulePause | services/gateway/services/pool_manager.py:90-121 | the worker's old pause task is cancelled and replaced, if pausing is on |
| PoolManager.PoolManager.PauseAfterDelay | services/gateway/services/pool_manager.py:98-118 | the body of an uncancelled pause task after its delay: the pause call is made exactly for an unpaused worker that is queued and in the ledger, a successful call marks it paused, and the task takes only its own table entry away |
| PoolManager.PoolManager.ReleaseWorker | services/gateway/services/pool_manager.py:148-154 | the worker is stamped and queued, a new pause task stands for it, and the old one, if any, is cancelled |
| PoolManager.PoolManager.EvictWorker | services/gateway/services/pool_manager.py:156-161 | pool, pause table and paused ids all forget the worker, and its pause task is cancelled |
| PoolManager.PoolManager.PruneAllPools | services/gateway/services/pool_manager.py:234-251 | every pool is pruned at its own reading of the clock; the pruned are deleted in order, pool by pool; exactly they lose their pause state and have their pause tasks cancelled |
| PoolManager.ForgottenMeans | services/gateway/services/pool_manager.py:238-242 | what forgetting pruned ids does, id by id and task by task: exactly their paused marks and table entries go, exactly their tasks are cancelled |
| PoolManager.PassPrunesExactlyTheStale | services/gateway/services/pool_manager.py:234-251 | the deleted ids are the ones stale in some pool when that pool was pruned |
| PoolManager.PoolManager.ReconcileOrphans | services/gateway/services/pool_manager.py:253-311 | deletes the orphans in listing order and counts the successful deletions; nothing if the listing fails |
| PoolManager.OrphansAreUnknownAndOld | services/gateway/services/pool_manager.py:279-303 | an id is an orphan if and only if no pool knows it and some listed row of it is at least as old as the grace |
| PoolManager.OrphansInOrder | services/gateway/services/pool_manager.py:282-303 | orphans are deleted in the order of the listing, a row if and only if it is unknown and at least as old as the grace |
| PoolManager.CountIsExact | services/gateway/services/pool_manager.py:284-305 | the count returned is the number of delete calls that succeed |
| LambdaInvoker.LambdaInvoker.InvokeFunction | services/gateway/services/lambda_invoker.py:82-211 | the backend calls in order, the answer, and the function's breaker afterwards; the response is returned if and only if a worker was acquired, the breaker admitted, the reply is good and no cancellation came while releasing; other functions' breakers are untouched |
| LambdaInvoker.ResponseIsReturnedIff | services/gateway/services/lambda_invoker.py:97-163 | the caller gets the response exactly for a registered function, an acquired worker, an admitting breaker and a reply below 500 without error header that is no small 200 body with an error key, unless a cancellation hits the release |
| LambdaInvoker.ElseItRaises | services/gateway/services/lambda_invoker.py:97-211 | in every other case the exact exception that leaves |
| LambdaInvoker.CallsAreExactly | services/gateway/services/lambda_invoker.py:97-211 | the exact backend calls of every invocation, in order |
| LambdaInvoker.BreakerIsExactly | services/gateway/services/lambda_invoker.py:100-162 | the exact breaker after every invocation, given what overlapping calls made of it meanwhile |
| LambdaInvoker.LambdaInvoker.GetBreaker | services/gateway/services/lambda_invoker.py:213-220 | a breaker per function, made on first use, never shared |
| LambdaInvoker.LambdaInvoker.Handle | services/gateway/services/lambda_invoker.py:165-204 | which exceptions evict, which pass, and what leaves instead |
| LambdaInvoker.LambdaInvoker.GiveBack | services/gateway/services/lambda_invoker.py:205-211 | a worker still held is released; a failing release is swallowed, a cancellation is not |
| LambdaInvoker.DoPost | services/gateway/services/lambda_invoker.py:112-160 | which replies are raised as failures: 5xx, a function error header, a small 200 body with an error key |
| LambdaInvoker.GivenBackExactlyOnce | services/gateway/services/lambda_invoker.py:97-211 | an acquired worker is evicted or released exactly once and never both, if and only if it was not found dead or its eviction goes through; without an acquisition nothing is given back |
| LambdaInvoker.InvocationReturnsItsWorker | services/gateway/services/lambda_invoker.py:97-211 | composed with any pool, callers hold afterwards what they held before, and one worker more exactly if its release fails; a dead worker is gone, any other at the end of the queue |
| LambdaInvoker.OnlyFailedReleasesStayHeld | services/gateway/services/lambda_invoker.py:205-211 | after any series of invocations one after another the only workers still held are those whose release failed |
| InvocationProtocol.InvocationIsLinear | services/gateway/services/lambda_invoker.py:97-211 | in the protocol machine, under every interleaving: however far the invocation has got with giving its worker back, it still holds it and can take the next step at once; after the last it is over and holds nothing |
| InvocationProtocol.TraceSteps | services/gateway/services/lambda_invoker.py:168-211 | the give-back calls of every invocation are protocol steps each of which fits the last, and the worker is leaked exactly if its release fails |
| InvocationProtocol.StepServesCall | services/gateway/services/lambda_invoker.py:168-211 | the step that completes a call changes the ledger as the call changes the pool |
| LambdaInvoker.OnlyLambdaErrorsLeave | services/gateway/services/lambda_invoker.py:98-204 | callers see a good response, LambdaExecutionError, a cancellation or what a failing eviction raises, and never a ContainerStartError of acquire |
| LambdaInvoker.OnlyPostsAreCounted | services/gateway/services/lambda_invoker.py:100-162 | the breaker counts a failure exactly for an admitted POST that raises or answers with a failure, never for a failed acquire |
| CircuitBreaker.CircuitBreaker.Begin | services/gateway/core/circuit_breaker.py:32-38 | admits if and only if not open or more than the recovery time has passed since the last failure, and turns an expired OPEN to HALF_OPEN |
| CircuitBreaker.CircuitBreaker.End | services/gateway/core/circuit_breaker.py:40-56 | the new counter, time and mode after success, failure and cancellation |
| CircuitBreaker.ModeIsDetermined | services/gateway/core/circuit_breaker.py:28-62 | with overlapping calls, "not CLOSED exactly when failures >= threshold" holds in every reachable state if and only if the threshold is at least one |
| CircuitBreaker.HalfOpenDisjunctIsIdle | services/gateway/core/circuit_breaker.py:51-54 | so the HALF_OPEN disjunct never changes the outcome |
| CircuitBreaker.CountsFailuresSinceReset | services/gateway/core/circuit_breaker.py:40-62 | on every run the counter is the number of calls that failed since the last success in HALF_OPEN, consecutive or not |
| CircuitBreaker.OpenMeansEnoughFailures | services/gateway/core/circuit_breaker.py:32-62 | on every run the breaker is not CLOSED exactly if at least `threshold` calls have failed since its last reset |
| CircuitBreaker.FailureBlocksStarts | services/gateway/core/circuit_breaker.py:32-56 | after a failure at time t that leaves it open, no wrapped function starts until strictly after t plus the recovery timeout, whatever calls in flight do |
| CircuitBreaker.RecoveryIsExact | services/gateway/core/circuit_breaker.py:32-38 | on every run that ends with the breaker OPEN a call starts if and only if the clock is past the run's last failure plus the recovery timeout, and is rejected if and only if not; CLOSED or HALF_OPEN it always starts |
| CircuitBreaker.WhatEndingsDo | services/gateway/core/circuit_breaker.py:40-62 | the exact breaker after each ending of a call under way, at any interleaving |
| CircuitBreaker.OpensWithoutConsecutiveFailures | services/gateway/core/circuit_breaker.py:47-54 | under every threshold some run opens the breaker without two failures in a row |
| CircuitBreaker.AnyNumberOfTrials | services/gateway/core/circuit_breaker.py:32-38 | under every setting and for every n, some run has n calls under way at once in HALF_OPEN |
| FunctionThrottle.FunctionThrottle.Enter | services/gateway/core/concurrency.py:27-32 | a free slot is taken, otherwise a new pending future joins the queue's end |
| FunctionThrottle.FunctionThrottle.Withdraw | services/gateway/core/concurrency.py:37-46 | removes exactly this waiter, keeps the others in order, keeps the count |
| FunctionThrottle.FunctionThrottle.Release | services/gateway/core/concurrency.py:48-57 | the first waiter leaves the queue and is granted if still pending; without waiters the count goes down |
| FunctionThrottle.SlotsAreAccounted | services/gateway/core/concurrency.py:23-57 | on every run `current` is holders plus granted waiters plus lost slots, so holders never exceed the limit |
| FunctionThrottle.LossesAreCounted | services/gateway/core/concurrency.py:35-55 | slots are lost exactly when release pops a waiter that is done or a granted waiter is cancelled, and never come back |
| FunctionThrottle.PatientRunsLoseNothing | services/gateway/core/concurrency.py:23-57 | without timeouts and cancellations nothing is lost |
| FunctionThrottle.AllLostIsForever | services/gateway/core/concurrency.py:48-57 | once all slots are lost no call ever holds one again |
| FunctionThrottle.ServesIffASlotIsLeft | services/gateway/core/concurrency.py:23-57 | in every reachable state, the next call, or any queued one, holds a slot on some continuation if and only if a slot is left |
| FunctionThrottle.OneTimeoutCanBlockForever | services/gateway/core/concurrency.py:37-53 | a run of five steps that loses the only slot |
| FunctionThrottle.NoBarging | services/gateway/core/concurrency.py:27-32 | a non-empty queue means all slots are taken, so a newcomer overtakes no queued waiter |
| FunctionThrottle.GrantsAreFifo | services/gateway/core/concurrency.py:48-53 | slots are granted in arrival order, and everyone still waiting came after everyone granted |
| OrchestratorClient.OrchestratorClient.Enter | services/gateway/client.py:49-69 | hits if and only if caching is on and a non-empty host is cached, else follows the one in flight, or leads with a new future in the table |
| OrchestratorClient.OrchestratorClient.Finish | services/gateway/client.py:74-87 | cache, future, table and the leader's own outcome after the remote call, settled or not |
| OrchestratorClient.SingleFlight | services/gateway/client.py:55-72 | at most one remote call per name at any time, cancellations included |
| OrchestratorClient.TableIsTheRunningLeaders | services/gateway/client.py:61-87 | `_inflight` holds exactly the running leaders with their futures, cancellations included |
| OrchestratorClient.HostsAreGenuine | services/gateway/client.py:49-80 | a host returned for a name was produced by a remote call for that name, through cache or future, whatever the cache forgets |
| OrchestratorClient.CallHitsFollowsOrLeads | services/gateway/client.py:49-69 | in every reachable state a call comes away at once with the cached host if and only if there is one that is not empty, else follows if and only if some call leads for its name, and then that one's future, else leads |
| OrchestratorClient.FoundHostIsServed | services/gateway/client.py:49-80 | with caching, a host a remote call found answers every later call for the name at once, with no further remote call for it, on every continuation until the cache drops the name |
| OrchestratorClient.NothingCachedWithoutCaching | services/gateway/client.py:75-77 | without a cache nothing is ever cached |
| OrchestratorCancellation.VerdictIsSharedIffUndisturbed | services/gateway/client.py:71-82 | on every run, an uncancelled leader or follower comes away with what the leader's remote call ended with if and only if the run cancelled neither that leader nor one of its followers while the future was pending; otherwise with an error of the gateway's own |
| OrchestratorCancellation.DisturbedMeansCancelled | services/gateway/client.py:71-87 | a future is disturbed if and only if some step of the run cancelled its leader, or a follower while it was pending |
| OrchestratorCancellation.DecidedMeansEnded | services/gateway/client.py:74-82 | a future's verdict is what the one remote call of its leader ended with |
| OrchestratorCancellation.FollowersShareTheVerdict | services/gateway/client.py:71-82 | on runs without cancellation every leader and follower gets exactly the host or exception of the leader's remote call |
| OrchestratorCancellation.CancelledFollowerFailsTheLeader | services/gateway/client.py:71-82 | a cancelled follower makes the leader raise although its remote call returned a host, and the other followers too |
| OrchestratorCancellation.CancelledLeaderStrandsFollowers | services/gateway/client.py:74-87 | after the leader is cancelled its followers wait for ever, unless one of them is cancelled |
| OrchestratorCancellation.ComesAwayIffNotAbandoned | services/gateway/client.py:70-87 | in every reachable state, a waiting follower gets an answer on some continuation that cancels no follower of its future if and only if the future is not abandoned, that is pending with its leader cancelled |
| OrchestratorCancellation.AbandonedMeansLeaderCancelled | services/gateway/client.py:74-87 | on every run, a pending future is abandoned if and only if some step cancelled its leader |
| OrchestratorClient.InvariantStep | services/gateway/client.py:43-87 | every step keeps table, futures, history and every call's standing consistent |
| ContainerNames.GatewayDecodesExactlyNames | services/gateway/services/pool_manager.py:170-185 | the gateway's decoder answers a name exactly for ids of the form prefix, name, hyphen, hyphen-free suffix |
| ContainerNames.DecodersAgree | services/agent/internal/runtime/containerd/runtime.go:77-87 | the Go and the Python decoder agree on every string; they fail exactly without the prefix or without a hyphen after it |
| Strings.DecimalReadsBack | services/agent/internal/runtime/containerd/runtime.go:162-162 | the digits in an id are the base-ten numeral of the clock reading, without leading zero |
| ContainerNames.RoundTrip | services/agent/internal/runtime/containerd/runtime.go:162-162 | decoding the id built by Ensure returns the function name, hyphens included, if and only if the nanosecond reading is not negative |
| ContainerNames.IdsAreFresh | services/agent/internal/runtime/containerd/runtime.go:162-162 | ids are equal only for the same function at the same reading |
| ContainerNames.IdsCollideIff | services/agent/internal/runtime/containerd/runtime.go:162-162 | over all readings, negative ones included, exactly when two ids are equal |
| TraceId.Parse | services/common/core/trace.py:27-49 | the loop over the parts with its dictionary yields, per key, the value of the last part with that key, or the raw id |
| TraceId.RawIdIsTheRoot | services/common/core/trace.py:44-46 | a header with a `-` and no `=` is an id: the root is the header trimmed, no parent, sampled "1" |
| TraceId.FieldsAreTheLastValues | services/common/core/trace.py:27-49 | any other header gives the values of its keys, or "", nothing and "1" where a key is missing |
| TraceId.LastValueIs | services/common/core/trace.py:31-35 | a key's value is that of the last part with the key; there is none if and only if no part has it |
| TraceId.PartDivides | services/common/core/trace.py:32-34 | a part divides at its first `=` into trimmed key and trimmed value, and means nothing without one |
| TraceId.StripIs | services/common/core/trace.py:34-34 | trimming takes all white space off both ends and nothing else |
| TraceId.ToHeader | services/common/core/trace.py:56-62 | prints root, then parent and sampling decision unless empty |
| TraceId.HeaderSpelledOut | services/common/core/trace.py:56-62 | the printed header, part by part |
| TraceId.RoundTrip | services/common/core/trace.py:26-62 | parsing what was printed gives the trace id back if and only if it is canonical: fields trimmed and free of `;`, parent not empty, sampled not empty |
| TraceId.PassingOnKeepsTheTrace | services/common/core/trace.py:26-62 | for every header, when parsing, printing and parsing again keeps the trace |
| TraceId.HeadersIdentifyTraces | services/common/core/trace.py:56-62 | canonical trace ids print differently if they differ |
| RouteMatcher.RegexDenotesPattern | services/gateway/services/route_matcher.py:49-58 | the regular expression made from a pattern without metacharacters other than the dot, read back, is the pattern's characters, dots and placeholders |
| RouteMatcher.ReadingIsUnique | services/gateway/services/route_matcher.py:57-57 | a pattern has one reading as characters, dots and placeholders |
| RouteMatcher.TokensSpellThePattern | services/gateway/services/route_matcher.py:57-57 | and that reading spells the pattern |
| RouteMatcher.PlaceholdersBecomeGroups | services/gateway/services/route_matcher.py:57-57 | a placeholder becomes a named group of non-slash characters, and the rest of the pattern is treated alike |
| RouteMatcher.OtherCharactersStay | services/gateway/services/route_matcher.py:57-57 | where no word in braces stands the character is kept |
| RouteMatcher.PlainIff | services/gateway/services/route_matcher.py:57-58 | which patterns the theorems call plain: those without a metacharacter other than the dot outside their placeholders |
| RouteMatcher.MatchSound | services/gateway/services/route_matcher.py:88-94 | the values the backtracking match returns fit |
| RouteMatcher.MatchComplete | services/gateway/services/route_matcher.py:88-94 | if any values fit it finds some, and those that put the longer value first |
| RouteMatcher.ExpressionMatchesIff | services/gateway/services/route_matcher.py:88-94 | matching an expression that reads as characters, dots and named groups finds a match if and only if some values substituted give the path, and returns such values; it raises exactly for bad or repeated names |
| RouteMatcher.RouteMatchesIff | services/gateway/services/route_matcher.py:49-95 | a route without metacharacters other than the dot matches a path if and only if some non-empty slash-free values, with any characters but newlines for the dots, substituted into the pattern give it, and the returned parameters are such values |
| RouteMatcher.OnePlaceholderRoute | services/gateway/services/route_matcher.py:49-95 | from the pattern's text to the answer: `a{n}b` matches a path without newline if and only if it is a, v, b for a non-empty v without slash, and answers n with v |
| RouteMatcher.SegmentalFitsOneWay | services/gateway/services/route_matcher.py:49-95 | if every placeholder ends its segment there is at most one such assignment |
| RouteMatcher.RouteMatcher.MatchRoute | services/gateway/services/route_matcher.py:60-111 | the answer is the first route in list order with the right method, upper-cased, that matches, else none; it names the route's function with its registered settings, or the container of an inline function with those settings, or ""; an ill-formed pattern, one with bad or repeated names for instance, raises when, and only when, the scan reaches it |

## Left out

- One pool in the protocol machine: pools share no state but the pause tables, which are keyed by worker id. That several pools reduce to one is argued here, not proved.
- Iterating over pools while they are created: the janitor's passes in `PoolManager` work on a fixed set.
- `cleanup_all_containers`, which runs at startup before any request, and `sync_with_manager`: its adoptions are actions of their own, of fresh ids, and only while no reconcile pass runs. `services/gateway/main.py` does not call it.
- `shutdown_all`: its `drain` is an action; cancelling all pause tasks at once is not.
- PoolSafety.WorkersAreConserved: the ledger equation, the counter equation and the pause and janitor claims hold until `drain`, which forgets busy workers and running provisions.
- Whether a container is really paused: cancelling a pause call in flight leaves that unknown. The pause claims are about the gateway's own books.
- Fairness among waiters on the condition variable: `notify_all` gives none.
- LambdaInvoker.LambdaInvoker.InvokeFunction: overlapping calls may change this function's breaker in any way while the POST is under way, but the other functions' breakers stand still; how overlapping calls drive one breaker is the subject of the machine in `CircuitBreaker.dfy`.
- Building the request (URL, headers, client context) and decoding the JSON body; a reply is its status, its error header, its size and its top-level keys.
- OrchestratorClient.HostsAreGenuine: the cache is a map that may forget entries at any time; its eviction policy and the HTTP call are not modelled.
- RouteMatcher.RouteMatchesIff: for patterns whose literal text contains a regular-expression metacharacter other than the dot, what the expression matches is a parameter; the code does not escape them. `MatchRoute` covers such routes too, up to that parameter.
- Reading and validating the routing file; Unicode tables (word characters, identifiers, upper case) are parameters.
- Generating trace ids, which reads the clock and a random source.
- `ConcurrencyManager`, `FunctionRegistry`, `ResourceJanitor`, port allocation, memory limits, network set-up: memo tables, thin wrappers or foreign calls.
