# Verified model of the Forge control plane

Forge routes inference requests to a fleet of workers. This project models the parts of its
control plane that make decisions over time and proves what every run of them keeps:

- **Reliability** (`services/gateway/reliability`, `services/gateway/dispatch.go`): the per-worker
  circuit breaker, the retry token bucket, `Failover.Do` and `streamFirstToken`, and whole lives of
  the gateway in which both share one budget and one breaker map.
- **Fleet** (`services/fleet`): the damping between wanted and applied replicas, the target
  arithmetic, `reconcile`, `scaleUp` and `drainOne`, and runs of the manager.
- **Lock-free parts** (`services/routing`): the in-flight counters and the snapshot holder, as state
  machines whose steps are the atomic operations of any number of threads.
- **Scheduler** (`services/scheduler`): candidates from a snapshot, filters, scorers, rendezvous
  affinity and the ranking chain.
- **Cache registry** (`services/cacheregistry`): the dual index kept from events, chained block
  hashes, and the prefix lookup.

Where the source updates state step by step, the model has a class or a method with loops, proved
equal to a function on values; the properties of whole runs are lemmas about those functions.

Modelling conventions:

- Time is an integer number of nanoseconds and is passed in; runs require it not to go backwards.
  A missing last action (Go's zero time) counts as an elapsed cooldown.
- `float64` is `real`; `uint32`, `uint64` and counts that come from heartbeats are `nat`, without
  wrap-around; other `int`s are unbounded integers.
- Hash functions are parameters. Injectivity is a hypothesis only where a row says so; for block
  hashes it is asked only of the blocks that are actually hashed.
- What the outside decides (call results, stream results, clock readings, provisioning, which of
  several equally idle workers a map iteration meets first) is an arbitrary parameter.
- Mutexes make each guarded method one step. In `routing`, each atomic instruction is one step.

Where the code does something its comments or names do not suggest, the model follows the code:

- `Do` can return a nil error without calling anyone; `NilWithoutCallIff` says exactly when. The
  "panic mode" comment in `failover.go:35` therefore holds only for a lone candidate
  (`LoneCandidateIsCalled`). `streamFirstToken` has the same branch (`NothingAndNoErrorIff`).
- A worker that its breaker refuses is called all the same when it is the only one left in order,
  even out of several candidates; `RefusedCallIff` and `RefusedStreamIff` say exactly when. Apart from
  such requests, calls to a worker whose breaker opened keep to the probe quota
  (`AllCallsWithinQuota`).
- A half-open episode admits `MaxHalfOpen + 1` requests, not `MaxHalfOpen`, and the bound that
  follows is attained (`ProbeRateReached`).
- Only `Failure` looks at the failure ratio, so a success can leave a closed breaker at or over it:
  exactly the success that completes MinRequests while the failures are already their share of
  MinRequests (`BecomesOverdueIff`, `OverdueRunIff`). The next failure opens it
  (`OverdueEndsAtNextFailure`).
- A failure ratio above one is accepted and disables the breaker (`CanOpenIff`).
- A stream that ends before its first chunk is recorded as a failure and then as a success. It is
  returned as a success, and yet leaves the worker's breaker open exactly if that was not closed
  before or one more failure trips it (`EmptyGenerationOpensIff`).
- With the only step size the constructor sets, the stabilization window has no effect
  (`WindowIsIrrelevant`).
- A policy with MinReplicas above MaxReplicas is accepted and can make the count go back and forth;
  `ReversalIff` says exactly when.
- More load can ask for fewer replicas, also after clamping; `DemandMonotoneIff` says exactly when.
- An affinity window smaller than one block makes the key depend on the whole prompt
  (`KeyIgnoresTailIff`).
- The bytes a block hash is computed from do not delimit the adapter, so blocks of different adapters
  can have the same bytes; `ConfusableIff` says exactly under which adapters, parents ranging over all
  64-bit values. `HashBlocks` starts with parent zero, and whether another parent occurs depends on
  the hash; `FirstBlocksConfusableIff` is the exact answer for parent zero, and only names with zero
  bytes meet it.
- Each of the states in which the gateway does one of these things is the end of a life that starts
  from a new gateway (module `GatewayWitnesses`).
- The map a prefix lookup reads is not split by base model and the block hash does not contain it, so
  reports for any base model count, under the query's adapter only (`LookupAfterAnyEvents`).

## Model

| member | source | states |
|---|---|---|
| `CircuitBreaker.Normalise` | services/gateway/reliability/breaker.go:51-65 | the constructor always yields a usable configuration and leaves a usable one alone |
| `CircuitBreaker.DefaultsMean` | services/gateway/reliability/breaker.go:51-65 | ten requests, half of them failed, five seconds and two probes by default; every setting that makes sense is kept on its own |
| `CircuitBreaker.BreakerMap.Allow` | services/gateway/reliability/breaker.go:67-87 | in-place update equals the transition function of that worker's breaker; all other records unchanged |
| `CircuitBreaker.BreakerMap.Success` | services/gateway/reliability/breaker.go:89-106 | same, for a recorded success with closing and halving |
| `CircuitBreaker.BreakerMap.Failure` | services/gateway/reliability/breaker.go:108-126 | same, for a recorded failure with re-opening and tripping |
| `CircuitBreaker.BreakerMap.StateOf` | services/gateway/reliability/breaker.go:128-141 | reading a state creates a fresh record at most and changes no breaker |
| `CircuitBreaker.ProbeRateBound` | services/gateway/reliability/breaker.go:67-126 | from opening until the next close, whatever outcomes arrive late, at most (MaxHalfOpen + 1) requests pass per full timeout elapsed |
| `CircuitBreaker.SilentBeforeTimeout` | services/gateway/reliability/breaker.go:73-79 | nothing passes an opened breaker before its timeout is over |
| `CircuitBreaker.ClosesOnlyAfterProbe` | services/gateway/reliability/breaker.go:67-126 | whatever outcomes arrive late, an opened breaker stays open until a probe is admitted, and none is before its timeout |
| `CircuitBreaker.TripStartsTimeout` | services/gateway/reliability/breaker.go:108-126 | a failed probe, or a failure that brings failures to their share of enough requests, in any state starts a full timeout without admissions; any other changes neither state nor timeout |
| `CircuitBreaker.Recovers` | services/gateway/reliability/breaker.go:72-98 | once the timeout is over a request passes, and a success before any failure closes the breaker with all counters at zero |
| `CircuitBreaker.MapProbeRateBound` | services/gateway/reliability/breaker.go:67-141 | the same bound for one worker in any interleaving with calls for other workers |
| `CircuitBreaker.WorkersAreIndependent` | services/gateway/reliability/breaker.go:134-141 | a run of the map, seen from one worker, is that worker's own run |
| `CircuitBreaker.ProbeRateReached` | services/gateway/reliability/breaker.go:72-85 | for every number of timeouts some run reaches the bound exactly |
| `CircuitBreaker.HalfOpenExhausts` | services/gateway/reliability/breaker.go:80-85 | a half-open breaker that is never told an outcome admits what it has left and then refuses for good, whenever it is asked |
| `CircuitBreaker.CountersAgree` | services/gateway/reliability/breaker.go:89-126 | in every reachable state requests exceed failures plus successes by zero or one, despite repeated halving |
| `CircuitBreaker.CountsAllUntilTwice` | services/gateway/reliability/breaker.go:89-126 | a breaker that stays closed has counted every outcome of a run of fewer than twice MinRequests |
| `CircuitBreaker.ForgetsFromTwice` | services/gateway/reliability/breaker.go:100-105 | after every success in any run a closed breaker counts fewer than twice MinRequests, or half of what it did |
| `CircuitBreaker.TripNeedsEvidence` | services/gateway/reliability/breaker.go:89-126 | a Closed-to-Open trip needs, since creation or any close, MinRequests recorded outcomes of which the configured share of MinRequests are failures |
| `CircuitBreaker.FailuresFade` | services/gateway/reliability/breaker.go:100-105 | from every closed state enough successes in a row bring the failure count to zero |
| `CircuitBreaker.CanOpenIff` | services/gateway/reliability/breaker.go:51-65 | some run opens a new breaker exactly when the failure ratio is at most one; then MinRequests failures do |
| `CircuitBreaker.BecomesOverdueIff` | services/gateway/reliability/breaker.go:89-126 | an operation of any kind carries a breaker from below to at or over its ratio exactly if it is the success that completes MinRequests with the failures at their share of MinRequests; halving never does |
| `CircuitBreaker.OverdueRunIff` | services/gateway/reliability/breaker.go:89-126 | in a run from creation some state is overdue exactly if some step of it is that success |
| `CircuitBreaker.ExhaustedIsReached` | services/gateway/reliability/breaker.go:72-85 | a half-open breaker without probes is reached from a new one |
| `CircuitBreaker.OverdueHappens` | services/gateway/reliability/breaker.go:89-106 | nine failures and a success leave the default breaker closed above its ratio |
| `CircuitBreaker.OverdueEndsAtNextFailure` | services/gateway/reliability/breaker.go:119-125 | no failure leaves a breaker closed above its ratio, and one that is opens at the next failure |
| `RetryBudgets.New` | services/gateway/reliability/budget.go:12-24 | a new bucket is full and in range |
| `RetryBudgets.NewMeans` | services/gateway/reliability/budget.go:12-24 | a hundred tokens and a tenth of one per success unless positive numbers are given |
| `RetryBudgets.RetryBudget.OnFailure` | services/gateway/reliability/budget.go:32-39 | in-place update equals taking one token, not below zero |
| `RetryBudgets.RetryBudget.OnSuccess` | services/gateway/reliability/budget.go:41-48 | in-place update equals adding the ratio, not above the maximum |
| `RetryBudgets.PotentialFacts` | services/gateway/reliability/budget.go:26-48 | the potential falls by the price of a retry on every granted failure and rises by at most the ratio on a success |
| `RetryBudgets.OutageAndRecovery` | services/gateway/reliability/budget.go:26-48 | failures in a row stop retries exactly at half the bucket, successes in a row bring them back exactly when they refill the gap |
| `Classify.KindsMean` | services/gateway/reliability/classify.go:10-34 | by their gRPC numbers: exactly errors without a status and codes 2, 8, 13, 14 are retried, exactly codes 1 and 4 are not held against the worker |
| `Failovers.Failover.constructor` | services/gateway/reliability/failover.go:23-28 | the attempt limit is positive, three unless a positive one is given |
| `Failovers.Failover.Do` | services/gateway/reliability/failover.go:30-105 | the imperative loops compute the same world, worker, error and calls as the function on values |
| `Failovers.PartitionFacts` | services/gateway/reliability/failover.go:36-49 | the partition keeps candidate order, loses nobody, and leaves the budget alone |
| `Failovers.KeptAreNotOpen` | services/gateway/reliability/failover.go:38-46 | a worker kept for the loop does not have an open breaker when the loop starts |
| `FailoverHistory.DueWorkersAreKept` | services/gateway/reliability/failover.go:38-46 | a worker whose breaker is not open, or whose timeout is over when the partition starts, is kept for the loop |
| `FailoverHistory.OpenWorkersAreSetAside` | services/gateway/reliability/failover.go:38-49 | a worker whose breaker is open and still within its timeout is set aside, its breaker untouched |
| `Failovers.DoOutcome` | services/gateway/reliability/failover.go:30-105 | at most Max calls, in candidate order, no position twice; all but the last failed retryably; the error is the last call's; with two or more candidates nobody is called through an open breaker, with two or more ordered workers nobody without its breaker's consent |
| `Failovers.LoneCandidateIsCalled` | services/gateway/reliability/failover.go:35-66 | a lone candidate is called whatever its breaker says |
| `Failovers.NilWithoutCallIff` | services/gateway/reliability/failover.go:53-66 | a nil error without a call happens exactly with two or more ordered workers, the first refused and the budget denying |
| `FailoverReach.DeniesIff` | services/gateway/reliability/budget.go:26-30 | the budget denies exactly if half of the tokens or more are gone, and never without a budget |
| `Failovers.UnguardedTriesAll` | services/gateway/reliability/failover.go:53-104 | without breaker and budget nobody is skipped and giving up means Max calls or every candidate |
| `FailoverReach.NobodyIsPassedOver` | services/gateway/reliability/failover.go:53-104 | a worker in order whose breaker lets requests through is called, unless Max calls were made, the last one succeeded or failed for good, or the budget denies; then no later worker is called either |
| `FailoverReach.AvailableIsTried` | services/gateway/reliability/failover.go:30-104 | the same for every candidate whose breaker, when Do starts, is closed, half-open with a probe left, or open past its timeout |
| `FailoverReach.ExhaustedIsSkipped` | services/gateway/reliability/failover.go:62-66 | with two or more in order a half-open worker without probes is not called |
| `BreakerEffects.PartitionAsksOpen` | services/gateway/reliability/failover.go:38-46 | the partition asks each open breaker once and leaves all others alone |
| `BreakerEffects.DoTellsOnce` | services/gateway/reliability/failover.go:62-85 | a worker that is called has its breaker asked once and told that call's result once; one that is not has its breaker left alone |
| `Failovers.DoCharges` | services/gateway/reliability/failover.go:70-93 | the budget afterwards is exactly what the calls make it: successes pay in, retryable failures pay out |
| `FailoverHistory.ExplainDo` | services/gateway/reliability/failover.go:38-85 | the breakers afterwards are a timed breaker run that records every call that was not cancelled, once and in order |
| `StreamDispatch.Handler.StreamFirstToken` | services/gateway/dispatch.go:77-162 | the imperative loop computes the same outcome, streams and records as the function on values |
| `StreamDispatch.StreamsConserved` | services/gateway/dispatch.go:77-162 | at most one stream open at any time, none while the next worker is tried; one is open on return exactly with a first chunk; a success is recorded once and only for the returned worker |
| `StreamDispatch.NothingAndNoErrorIff` | services/gateway/dispatch.go:84-93 | neither stream nor error is returned exactly with two or more workers, the first refused and the budget denying |
| `StreamAccounts.NothingToRecord` | services/gateway/dispatch.go:155-162 | without a breaker no outcome is recorded |
| `StreamAccounts.StreamOutcomeIsLastTry` | services/gateway/dispatch.go:84-153 | workers tried left to right, all attempts but the last failed retryably, the outcome is the last attempt's |
| `StreamAccounts.StreamCharges` | services/gateway/dispatch.go:94-147 | the budget afterwards is exactly what the attempts make it |
| `StreamAccounts.ExplainStream` | services/gateway/dispatch.go:89-162 | the breakers afterwards are a timed breaker run that records exactly the attempts' outcomes |
| `FailoverReach.NoStreamIsPassedOver` | services/gateway/dispatch.go:84-153 | a worker whose breaker lets requests through when the search starts is tried, unless the search stops before it with a stream, a hard error or a budget that denies; then no later worker is tried either |
| `FailoverReach.UnguardedStreamTriesAll` | services/gateway/dispatch.go:84-153 | without breaker and budget nobody is skipped and giving up means everybody was tried |
| `BreakerEffects.StreamTellsOnce` | services/gateway/dispatch.go:89-162 | an attempt asks the worker's breaker once and tells it the attempt's result once, an empty generation as failure and success; other breakers are left alone |
| `StreamAccounts.EmptyDialOpensIff` | services/gateway/dispatch.go:109-126 | at any position an empty generation is returned as a success and leaves the breaker open exactly if it was open or a failure trips it |
| `StreamAccounts.EmptyLastTry` | services/gateway/dispatch.go:84-126 | on any list, repeated names included, a worker returned without a first chunk has its breaker open exactly if it was open, once asked in the state in which the search came to it, or that attempt trips it |
| `StreamAccounts.EmptyGenerationOpensIff` | services/gateway/dispatch.go:84-126 | in terms of the breaker before the search: open afterwards exactly if it was not closed or one failure trips it, the name not occurring earlier in the list |
| `GatewayLife.RetryAmplification` | services/gateway/reliability/failover.go:53-93 | over any sequence of calls and streams on one budget, granted retries that fail are bounded by half the bucket, one more, and the ratio times the successes; tokens stay in range |
| `GatewayLife.LifeIsBreakerRun` | services/gateway/reliability/breaker.go:67-126 | any sequence of calls and streams is one timed run of the breaker map that records exactly their outcomes |
| `CallQuota.CallsWithinQuota` | services/gateway/reliability/failover.go:53-93 | over any life, from the opening of a worker's breaker and while no request leaves it closed, the calls and streams sent to it with the breaker's consent are at most MaxHalfOpen + 1 per full timeout elapsed |
| `CallQuota.AllCallsWithinQuota` | services/gateway/reliability/failover.go:53-93 | everything sent to it is within the same quota, plus one call for every request left with that worker alone and refused |
| `CallQuota.RefusedCallIff` | services/gateway/reliability/failover.go:57-66 | a call against its breaker's refusal is made exactly if one worker is left in order and refused |
| `CallQuota.RefusedStreamIff` | services/gateway/dispatch.go:84-93 | a stream is opened against a refusal exactly if there is one worker and it is refused |
| `CallQuota.CallsAreAccounted` | services/gateway/reliability/failover.go:53-93 | over any life what is sent to a worker is what its breaker consents to and one call for every request left with that worker alone and refused |
| `GatewayWitnesses.TrappedIsReached` | services/gateway/reliability/failover.go:30-105 | for every usable configuration whose breaker can open, an outage on a new gateway ends with one breaker half-open without probes, another just opened and the budget denying |
| `GatewayWitnesses.NilWithoutCallHappens` | services/gateway/reliability/failover.go:53-66 | after that life two candidates give a nil error and no call |
| `GatewayWitnesses.NothingAndNoErrorHappens` | services/gateway/dispatch.go:84-93 | after it the stream search returns neither stream nor error |
| `GatewayWitnesses.RefusedCallHappens` | services/gateway/reliability/failover.go:36-66 | after it, of two candidates one is set aside and the other called against its breaker's refusal |
| `GatewayWitnesses.RefusedStreamHappens` | services/gateway/dispatch.go:84-93 | after it a stream is opened on a lone worker against the refusal |
| `GatewayWitnesses.EmptyGenerationHappens` | services/gateway/dispatch.go:109-126 | a life after which an empty generation, returned as a success, takes a closed breaker to open |
| `FleetDamping.PruneSamples` | services/fleet/hysteresis.go:42-49 | the pruning loop computes the pruned window |
| `FleetDamping.Extremes` | services/fleet/hysteresis.go:55-63 | the loop computes the extremes of the window |
| `FleetDamping.Hysteresis.Apply` | services/fleet/hysteresis.go:29-92 | in-place update and result equal the function on values for that key; other keys unchanged |
| `FleetDamping.Hysteresis.ClearPending` | services/fleet/hysteresis.go:94-100 | clears that key's flag and nothing else |
| `FleetDamping.DampedMove` | services/fleet/hysteresis.go:41-91 | for any step: up exactly if more is wanted, down exactly if less is wanted and the policy's delay in seconds, a quarter of an hour if negative, has passed since the last action, neither while pending; by a whole step, or as far as the furthest demand remembered; the whole new state |
| `FleetDamping.RememberedMeans` | services/fleet/hysteresis.go:36-49 | a demand is remembered exactly while it is younger than the window's seconds, a minute if not positive |
| `FleetDamping.WindowIsIrrelevant` | services/fleet/hysteresis.go:25-27 | with step one the answer is the same for every sample history and window |
| `FleetDamping.CooldownRespected` | services/fleet/hysteresis.go:77-81 | in every run each scale-down comes at least the policy's delay, in seconds of 1,000,000,000 nanoseconds, after the key's previous action |
| `FleetDamping.ScalesDownIff` | services/fleet/hysteresis.go:77-81 | after any run with nothing pending and less wanted, the next application scales down exactly if that time has passed |
| `FleetTarget.CeilDivCovers` | services/fleet/loop.go:363-371 | the ceiling is the least number of targets that covers the load |
| `FleetTarget.DesiredMeans` | services/fleet/loop.go:139-147 | the demand in numbers: the least count that carries the load at the target, 16 by default, or the ready count while the load is below the configured share of its capacity, within the bounds |
| `FleetTarget.DemandMonotoneIff` | services/fleet/loop.go:139-147 | for every policy, more load asks for fewer replicas after clamping exactly if it crosses the utilisation threshold with a goal below the clamped ready count, or, with MinReplicas above MaxReplicas, if the demand crosses MinReplicas |
| `FleetTarget.DemandNotMonotone` | services/fleet/loop.go:143-147 | a concrete case of the exception |
| `FleetTarget.NoReversal` | services/fleet/loop.go:139-147 | a count that wants to grow does not want to shrink after growing, and the other way round |
| `FleetTarget.Converges` | services/fleet/loop.go:139-171 | under constant load the count moves by at most one, in one direction, and stands still after as many rounds as it was away from its clamped goal |
| `FleetTarget.ReversalIff` | services/fleet/loop.go:139-147 | the count goes back and forth exactly if MinReplicas is above MaxReplicas and the load needs fewer and leaves that many underused |
| `FleetManager.KeysDiffer` | services/fleet/policy.go:31-36 | names of models start with the base and tell models apart |
| `FleetManager.CountReady` | services/fleet/loop.go:279-302 | workers known to snapshot or manager are counted once each |
| `FleetManager.ReadyMeans` | services/fleet/loop.go:279-302 | ready are exactly the workers with a healthy and ready entry for this very model and those tracked as ready under its name |
| `FleetManager.CountProvisioning` | services/fleet/loop.go:304-314 | counts exactly the provisioning workers of the model |
| `FleetManager.SumActive` | services/fleet/loop.go:316-330 | sums the last entry of each worker, in whatever order the map is visited |
| `FleetManager.LoadsMean` | services/fleet/loop.go:316-330 | a worker's load is the queue and in-flight of its last entry for this very model |
| `FleetManager.FindIdlest` | services/fleet/loop.go:226-240 | finds a ready worker with the least in flight, or none exactly if there is none |
| `FleetManager.Manager.ScaleUp` | services/fleet/loop.go:174-223 | the placeholder leaves no trace; a provisioned worker is tracked, a failed provisioning leaves the pending flag |
| `FleetManager.Manager.DrainOne` | services/fleet/loop.go:225-277 | drains an idlest ready worker and no other; an interrupted drain leaves it draining and pending |
| `FleetManager.Manager.Reconcile` | services/fleet/loop.go:134-172 | one atomic reconcile equals the function on values, with an idlest pick |
| `FleetRuns.GrowMeans` | services/fleet/loop.go:161-165 | a worker is added only while none is provisioning and only up to the demand |
| `FleetRuns.DecideIff` | services/fleet/loop.go:161-171 | grow exactly if more is wanted, nothing is provisioning and nothing pending; shrink exactly if less is wanted, nothing is pending and the delay has passed |
| `FleetRuns.GrowthIsTracked` | services/fleet/loop.go:174-223 | a provisioned worker is tracked, provisioning until ready is reported, and nobody else changes; a failure tracks nobody and leaves the flag; the placeholder is gone either way |
| `FleetRuns.DrainTakesOne` | services/fleet/loop.go:225-277 | exactly one ready worker, as idle as any, is retired, or left draining with the flag if interrupted; nobody else changes |
| `FleetRuns.KeepChangesNobody` | services/fleet/loop.go:168-171 | otherwise no worker changes and the flag is cleared |
| `FleetRuns.ReconcileNotes` | services/fleet/loop.go:148-152 | the count noted is one more, one less or the ready count, by the same conditions, with the time of a change; dampers and counts of other models stay |
| `FleetRuns.DrainIsSafe` | services/fleet/loop.go:139-168 | a drain starts only after the cooldown and only if the rest carries the load at the target, or MaxReplicas capped the demand |
| `FleetRuns.PendingLastsOneRound` | services/fleet/hysteresis.go:51-53 | a pending flag left behind blocks one reconcile at most |
| `FleetRuns.CapHolds` | services/fleet/loop.go:134-223 | in every run of reconciles for any models a model's provisioning and ready workers never exceed MaxReplicas (or MinReplicas, if that is set higher) |
| `FleetRuns.ManagerConverges` | services/fleet/loop.go:134-277 | in an undisturbed run under constant load the manager's ready workers converge without reversal |
| `InflightTracking.CounterIsExact` | services/routing/inflight.go:16-75 | in every interleaving each counter equals permits granted minus permits released, and the store of zero is never about to run |
| `InflightTracking.ReleasingIsInHand` | services/routing/inflight.go:29-41 | in every interleaving each permit being given back is in the hand of exactly one thread |
| `InflightTracking.QuietCountsHeld` | services/routing/inflight.go:16-75 | nothing leaks: with all threads idle no permit is being given back and each counter is the number of held permits |
| `InflightTracking.CarriedUntilReleased` | services/routing/inflight.go:29-41 | a permit leaves a thread's hand only in that thread's step that releases it and lowers the counter by one |
| `InflightTracking.TryTrackDecides` | services/routing/inflight.go:58-75 | a whole TryTrack, under any interference, ends with a permit of its worker granted below its limit or refused at it |
| `InflightTracking.CountsUntilGranted` | services/routing/inflight.go:50-62 | an unlimited call goes on until it grants a permit |
| `InflightTracking.StartsAsAsked` | services/routing/inflight.go:50-75 | calls are for the worker and limit asked for; a done of a held permit takes that permit, any other does nothing |
| `InflightTracking.FinishesAlone` | services/routing/inflight.go:16-75 | a thread running alone is idle after three steps |
| `InflightTracking.PermitsAreMonotone` | services/routing/inflight.go:50-75 | a permit only moves from held over releasing to released, whatever repeated done calls do |
| `InflightTracking.OneReleasePerDecrement` | services/routing/inflight.go:29-41 | a counter goes down only by one and only when exactly one permit becomes released |
| `InflightTracking.RefusesIffFull` | services/routing/inflight.go:63-67 | TryTrack refuses exactly when at its load as many permits are outstanding as its limit |
| `InflightTracking.LimitHolds` | services/routing/inflight.go:58-75 | with positive limits of at most L no counter leaves 0 to L |
| `SnapshotSwap.HeldOnlyGrows` | services/routing/holder.go:24-37 | every swap strictly increases the held epoch, nothing else changes it |
| `SnapshotSwap.OffersUntilDecided` | services/routing/holder.go:24-37 | a call ends only by storing its snapshot over an older one or because one at least as new is held |
| `SnapshotSwap.FinishesAlone` | services/routing/holder.go:24-37 | a thread running alone is idle after three steps |
| `SnapshotSwap.HeldIsMonotone` | services/routing/holder.go:24-37 | the held epoch never decreases along a run |
| `SnapshotSwap.HeldIsGenuine` | services/routing/publisher.go:76-93 | the held epoch never exceeds the publisher's and carries what was built at that epoch |
| `SnapshotSwap.EpochsCountBuilds` | services/routing/publisher.go:170-176 | the publisher's epoch counts its builds, and each epoch is what that build made |
| `SnapshotSwap.NewestWins` | services/routing/subscriber.go:20-34 | once all calls finish, the newest offered snapshot is held, whatever was dropped, repeated or reordered |
| `SnapshotSwap.OfferedIsHeld` | services/routing/subscriber.go:20-34 | whatever was offered at any time of a run, once all calls finish the held snapshot is at least as new |
| `Rendezvous.HRWPick` | services/scheduler/affinity.go:30-48 | the loop computes the fold of the comparison |
| `Rendezvous.PickIsBest` | services/scheduler/affinity.go:38-47 | every other worker has a lower score, or the same and a greater name |
| `Rendezvous.PickIgnoresOrder` | services/scheduler/affinity.go:38-47 | the pick depends only on the set of workers |
| `Rendezvous.PickSurvives` | services/scheduler/affinity.go:30-48 | losing other workers does not move a key |
| `Rendezvous.PickMovesOnlyToNew` | services/scheduler/affinity.go:30-48 | adding workers moves a key only to an added one |
| `Rendezvous.SameWindowSameKey` | services/scheduler/affinity.go:9-28 | prompts that agree on a window of at least one block have the same key |
| `Rendezvous.KeyIgnoresTailIff` | services/scheduler/affinity.go:16-27 | for a hash that separates strings, the key ignores everything after the window exactly if the window holds a block |
| `Rendezvous.KeyMeans` | services/scheduler/affinity.go:9-28 | the key is the hash of as many whole blocks, of 64 bytes by default, as the prompt fills of the window, 1024 bytes by default, or of a prompt that fills none |
| `TextOrder.LessMeans` | services/scheduler/affinity.go:43-45 | names compare byte by byte, a prefix before its extensions |
| `Filters.ServesModelLoop` | services/scheduler/filter_model.go:29-56 | the search loop finds a matching model name exactly if there is one |
| `Filters.SplitUndoesJoin` | services/scheduler/filter_model.go:48-56 | splitting a name gives back the base without '#' and the adapter it was joined from |
| `Filters.MatchesMeans` | services/scheduler/filter_model.go:29-56 | matching means same base and compatible adapter; for a base with '#' only the literal comparisons can succeed |
| `Filters.ApplyFilter` | services/scheduler/filter_health.go:11-29 | the filter loop computes the kept candidates in order |
| `Filters.KeptCounts` | services/scheduler/admission.go:17-33 | a filter keeps every occurrence of what passes and nothing else |
| `Filters.PassesMeans` | services/scheduler/filter_capability.go:15-46 | what each filter lets through on its own, with and without a request, a named model and known context |
| `Filters.PrefixMeans` | services/scheduler/filter_model.go:34-36 | a prefix test succeeds exactly if the rest can be appended |
| `Scoring.PrepareAffinity` | services/scheduler/scorer_affinity.go:23-51 | the loop computes the preferred worker among candidates with a local cache |
| `Scoring.PreferredMeans` | services/scheduler/scorer_affinity.go:23-51 | the preferred worker has the highest score for the affinity key, or else the prompt, among candidates that keep a cache of their own; nobody exactly without text or such candidates |
| `Scoring.AffinityIsStable` | services/scheduler/scorer_affinity.go:23-51 | prompts that agree on the window prefer the same worker while it is a candidate |
| `Scoring.PrepareCost` | services/scheduler/scorer_cost.go:19-29 | the loop computes the highest cost |
| `Scoring.HighestCostIsMaximum` | services/scheduler/scorer_cost.go:19-29 | it is the maximum of the costs and zero |
| `Scoring.LoadScoreShrinks` | services/scheduler/scorer_leastloaded.go:9-11 | the score times one plus the depth is one; more load, strictly lower score |
| `Scoring.LatencyScoreMeans` | services/scheduler/scorer_latency.go:18-24 | one without a measurement; otherwise strictly between zero and one, and times reference plus latency it is the reference |
| `Scoring.LatencyScoreShrinks` | services/scheduler/scorer_latency.go:18-24 | more latency, strictly lower score once measured |
| `Scoring.CostScoreMeans` | services/scheduler/scorer_cost.go:31-46 | times the highest cost it is what the candidate saves, from zero to all of it |
| `Scoring.CostScoreShrinks` | services/scheduler/scorer_cost.go:31-46 | more cost, strictly lower score within that range |
| `SchedulingChain.Rank` | services/scheduler/chain.go:128-219 | the imperative filter, prepare, score and sort loops compute the ranking function |
| `SchedulingChain.FiltersMean` | services/scheduler/chain.go:145-163 | survivors are exactly the candidates passing all filters; the filter blamed is the first that leaves nobody |
| `SchedulingChain.ServiceableMeans` | services/scheduler/filter_capability.go:15-46 | who may serve: healthy and ready, a matching name for a named model, and the context asked for where both are known |
| `SchedulingChain.RankErrors` | services/scheduler/chain.go:153-162 | ErrNoCapacity exactly if nobody passes health, model and capability; ErrAdmissionRejected exactly if somebody does but all who do are at the limit |
| `RankingProperties.RankIgnoresOrder` | services/scheduler/chain.go:128-219 | for distinct names the ranking or error depends only on the set of candidates |
| `RankingProperties.RankListsSurvivors` | services/scheduler/chain.go:174-205 | the list is exactly the candidates passing all filters, with their totals, higher totals first and equal ones by name |
| `RankingProperties.SortIsForced` | services/scheduler/chain.go:191-196 | whatever a library sort returns that leaves no pair in the wrong order is this ranking |
| `RankingProperties.EffectiveMeans` | services/scheduler/chain.go:55-62 | the weights configured if any base weight is positive, otherwise 0.45, 0.15, 0.1, 0.15 and 0.15 |
| `RankingProperties.ConfiguredTotal` | services/scheduler/chain.go:55-92 | for every configuration, the total spelled out: each score with its effective weight, the defaults without any positive base weight, optional scorers only with a positive one |
| `RankingProperties.DefaultTotal` | services/scheduler/chain.go:55-92 | the default total in numbers: 0.45 load, 0.15 latency against 100 ms, 0.15 cost, 0.1 affinity |
| `RankingProperties.DominatorRanksAhead` | services/scheduler/chain.go:168-196 | a candidate at least as good everywhere against a rival that is not the affinity choice never scores below it, and ranks ahead if it is better on load, latency, or with a positive weight affinity, cost, policy or overlap |
| `FromSnapshot.CandidatesFromSnapshot` | services/scheduler/from_snapshot.go:13-99 | the single pass over a map of candidates equals grouping by worker and aggregating each field on its own |
| `FromSnapshot.CandidateMeans` | services/scheduler/from_snapshot.go:48-92 | health and readiness are disjunctions, depth, context and memory maxima, load added once, the last non-empty endpoint, cost class, runtime, GPU and capabilities, the last positive price or else the first, every model once by first appearance |
| `FromSnapshot.OneCandidatePerWorker` | services/scheduler/from_snapshot.go:94-98 | exactly one candidate per worker of the snapshot; the positions of their first entries increase |
| `FromSnapshot.GroupInOrder` | services/scheduler/from_snapshot.go:19-92 | what is aggregated for a worker is all its entries in the order of the snapshot |
| `BlockKeys.ChunkTokens` | services/cacheregistry/blockkey.go:10-26 | the loop computes the chunks |
| `BlockKeys.SizeMeans` | services/cacheregistry/blockkey.go:8-13 | blocks of 256 tokens unless a positive size is given |
| `BlockKeys.ChunksPartition` | services/cacheregistry/blockkey.go:17-25 | chunks concatenate back to the input, all full but the last, none empty |
| `BlockKeys.SharedChunksAreSharedTokens` | services/cacheregistry/blockkey.go:17-25 | sharing leading full chunks is sharing that many leading tokens |
| `BlockKeys.HashBlocks` | services/cacheregistry/blockkey.go:28-46 | the loop computes the chained hashes |
| `BlockKeys.HashDeterminesPrefix` | services/cacheregistry/blockkey.go:31-44 | without collisions among the blocks hashed, equal block hashes mean equal adapters, equal positions and equal leading chunks |
| `BlockBytes.PreimageDeterminesBlock` | services/cacheregistry/blockkey.go:33-39 | for adapters of one length the bytes hashed determine adapter, parent and tokens |
| `BlockBytes.ConfusedAdapters` | services/cacheregistry/blockkey.go:33-39 | equal bytes under other adapters need one name to extend the other by a multiple of four bytes, with as many tokens fewer |
| `BlockBytes.ConfusableIff` | services/cacheregistry/blockkey.go:33-39 | two adapters have blocks with the same bytes exactly if they are equal or one extends the other by whole four-byte words, of which, if three or more, the third exceeds their number |
| `BlockBytes.AdaptersAreConfused` | services/cacheregistry/blockkey.go:33-39 | for every adapter, parent and token there is a longer adapter with a block of the same bytes |
| `BlockBytes.FirstBlocksConfusableIff` | services/cacheregistry/blockkey.go:31-39 | for first blocks, exactly if such an extension has three words or more and starts with eight zero bytes |
| `BlockSeparation.SeparatesIff` | services/cacheregistry/blockkey.go:33-40 | a hash without collisions on the bytes of all blocks of some adapters separates the blocks exactly if no two of the adapters can be confused |
| `BlockKeys.LongestConsecutivePrefix` | services/cacheregistry/blockkey.go:59-73 | counts the leading hashes present and sums their worth |
| `BlockKeys.WorthMeans` | services/cacheregistry/blockkey.go:65-69 | a block is worth 256 times its weight, a weight that is not positive counting as one |
| `BlockKeys.ScoreCountsBlocks` | services/cacheregistry/blockkey.go:65-69 | with weights between lo and one the score lies between lo and one default block per block found |
| `CacheLookup.LookupIsWorth` | services/cacheregistry/blockkey.go:59-73 | after any events a found block is worth 256, or 204.8 where the last report that stands put it on the CPU |
| `BlockKeys.LookupIsLongestSharedPrefix` | services/cacheregistry/blockkey.go:59-73 | without collisions among the blocks hashed, the lookup against all cached prompts, of any adapter and block size, counts the longest leading run of chunks shared with a single one of the query's adapter |
| `CacheIndexing.CacheIndex.Store` | services/cacheregistry/index.go:42-66 | in-place update of both indexes equals the function on values |
| `CacheIndexing.CacheIndex.Remove` | services/cacheregistry/index.go:68-79 | same, over every namespace in whatever order |
| `CacheIndexing.CacheIndex.ClearWorker` | services/cacheregistry/index.go:81-93 | same, visiting only the blocks the worker holds |
| `CacheIndexing.CacheIndex.SnapshotForScoring` | services/cacheregistry/index.go:106-118 | the copy equals the worker index |
| `CacheIndexing.Service.Apply` | services/cacheregistry/service.go:90-125 | dispatches on the event kind and publishes the worker index |
| `CacheIndexing.IndexRefinesLog` | services/cacheregistry/index.go:42-93 | after every event sequence both indexes equal a last-event-wins replay of the log |
| `CacheIndexing.PublishedIffReported` | services/cacheregistry/index.go:42-118 | the workers published are exactly those that reported something since they were last cleared |
| `CacheIndexing.IndexesAgree` | services/cacheregistry/index.go:42-93 | a block is in a worker's map exactly if the worker is listed for it in some namespace, one listing carrying the same weight |
| `CacheIndexing.ClearLeavesNoTrace` | services/cacheregistry/index.go:81-93 | clearing leaves no trace of the worker in either index |
| `CacheLookup.LookupAfterAnyEvents` | services/cacheregistry/service.go:90-125 | after any stored, removed, cleared and unknown events of all workers, where this worker's stored events report whole prompts of any adapter, block size and base model: a lookup counts the leading blocks each covered by a report under the query's adapter and not forgotten since |
| `CacheLookup.LookupFindsReportedPrefix` | services/cacheregistry/service.go:90-125 | with nothing of this worker removed since its last clear, that is the longest prefix shared with one prompt reported since under the query's adapter |
| `BlockSeparation.LookupFromBytes` | services/cacheregistry/service.go:90-125 | the lookup after any events for a hash of the code's own bytes, without collisions on the bytes hashed and with adapters that cannot be confused |

## Left out

- `Manager.Activate`, concurrent reconciles and the second write of the ready state: outside the runs in which the replica cap holds; `CapHolds` is about atomic reconciles with readiness reported once.
- `SetLifecycle`, `WaitReady`, provisioners and the drain's waiting loop: outside effects; a provisioning returns a name or fails, readiness and failure to start are events between reconciles.
- Policy reloads during a run: `CapHolds` fixes one policy per model.
- Concurrent `Do` calls on one budget: `RetryAmplification` is about calls one after the other.
- The handler that admits only the first ranked worker: `LimitHolds` bounds the counters, not the live calls.
- Two `Rank` calls interleaving on one chain: the scorers share fields, and `Rank` is modelled as one step.
- `req.PreferredWorker`, metrics, tracing and state-change callbacks: written for observation only.
- `SchedulingChain.Rank`: the in-place sort of the standard library is modelled on values; `SortIsForced` shows that its algorithm cannot matter.
- `PolicyScorer` and `OverlapScorer`: any score of request and candidate; their table lookups would only add easy members.
- `HashPromptApprox` and the concrete hashes (FNV-1a, xxhash): token sequences and hash functions are given; only the bytes of a block are modelled, and which parents are hash values is not.
- Stored events that report part of a prompt: `LookupAfterAnyEvents` is about whole prompts; `IndexRefinesLog` covers every event.
- `Index.Persist`, the event echo over Redis and periodic snapshot publication: the code does not keep the replay property across them.
- `Inc`, `Dec` and `Track` called directly on the tracker: the gateway only uses `TryTrack` and its `done`; unlimited tracking is covered as a limit of zero or less.
- Wrap-around of `uint32` counters, rounding of `float64` and saturation of durations.
- HTTP, gRPC, Redis, Postgres, adapters, planner weights, latency averaging, API keys and configuration loading.
