# StageHand's VRAM pools, in Dafny

StageHand is a reverse proxy for AI backends that do not fit into one GPU together. Services
that compete for the GPU share a *VRAM pool*, of which at most one container should run at a
time. Each pool is an actor: one manager goroutine owns the state and takes admits, cancels,
admin commands, worker reports, timer ticks and Docker events one at a time, while swap and
stop workers, started by the manager and possibly superseded by it, talk to Docker on their own.

The project models that protocol, the registry that tells the pool's own Docker events from
foreign ones, the validation of the configuration, and hot reload.

## How it is laid out

| file | what it holds |
|---|---|
| `Names.dfy`, `State.dfy` | names in `strings.Compare` order, the one sorted list of a set; messages, ticks, configuration, sweep lists |
| `Ledger.dfy` | queues, numbers and answers as one book, and conservation |
| `Worker.dfy`, `SwapWorker.dfy`, `Verdicts.dfy` | `doSwap` and `doStopAll`: as machines with one step per call or check, as the loops of swap.go, proved to follow the machine, and what their reports mean |
| `Manager.dfy`, `Pool.dfy` | the manager's handlers: as functions of its state, and as methods of the class `Pool` that update its fields, proved equal |
| `Invariant.dfy` | the invariant at handler boundaries |
| `System.dfy`, `Safety.dfy` | manager, any number of workers, Docker, clients, operators, outsiders and time, interleaved in any order; the invariant of the whole |
| `Walks.dfy`, `Exclusion.dfy`, `Overlap.dfy` | pieces of runs for witnesses; mutual exclusion, self-healing, and that the exception is real |
| `Waiters.dfy`, `Drain.dfy`, `Fairness.dfy`, `EmptyName.dfy` | waiters: never stranded, accounted for once, served by a short chain, and in the end |
| `Answers.dfy`, `Course.dfy`, `Clocks.dfy` | for every step: who is told what and what becomes of the queues, where the pool goes, and which ticks count |
| `AdmitGo.dfy`, `Timing.dfy`, `Countdown.dfy`, `Causes.dfy`, `Overtaking.dfy`, `Retry.dfy` | what AdmitGo means, grace and cooldown, when the idle countdown is on and when it is lost, why a swap starts, who is overtaken, what an operator's stop is worth |
| `Registry.dfy`, `Echo.dfy`, `LateEcho.dfy`, `StaleStop.dfy` | the registry of self-initiated operations; the workers' calls, their echo in Docker's events, and the registry put together; what a late echo and a late stop can do |
| `Validation.dfy`, `Signature.dfy`, `Reload.dfy`, `Validated.dfy`, `Clash.dfy` | the configuration's rules, the signature of a pool, building and swapping runtimes, what validation gives the pools and what it does not |

A run is a list of events (`System.Event`), each one step of somebody: the manager handles a
message, a worker makes its next call and gets some answer, a detached stop returns, an outsider
starts or stops a container, time passes. A step that cannot be taken leaves the system as it
is, so a statement over all lists is a statement over all interleavings. Docker behaves as
`internal/dockerctl/fake.go` does: start and stop are idempotent and a failed call has no effect.
Times are milliseconds.

## What was found

- A superseded swap worker that passed its pre-start check can start its target while the
  container of a newer swap already runs. It stops it again, but until then two containers run.
  `Exclusion.MutualExclusion` counts exactly these as excused, a worker superseded before its check
  never starts anything (`Exclusion.SupersededNeverStarts`), and
  `Overlap.OverlapsExactlyWithSiblings` shows that every pool with two members has such a run.
- Being ACTIVE does not mean that the container runs. If the swap after the superseded one is to
  the same service, the superseded worker stops the container under the ACTIVE pool; the registry
  takes the event for the pool's own, and clients go on being told AdmitGo. Every pool has such a
  run for each of its members, with nobody interfering and every event delivered at once:
  `StaleStop.ActiveButStopped`. With no superseded worker alive and no detached stop outstanding,
  it runs as long as no outsider stops it: `StaleStop.RunsWhileActive`.
- Validation accepts a service named `""`, which the pool takes for "nobody" in `oldestQueued`.
  A pool can strand a waiter exactly if it has such a member:
  `EmptyName.StrandsExactlyWithEmptyName`. Theorems about who is served and why therefore ask for
  a pool without one (`State.NoEmptyName`); exclusion, conservation, the meaning of AdmitGo and the
  numbering of workers and ticks are proved for every validated pool (`State.WellFormed`).
- A request that finds the grace period over starts its swap at once (pool.go:298-299), although
  others may have queued during it and queues are numbered so that the longest waiter comes first
  (queue.go:5-7). A request that starts a swap does so ahead of an older one of another service
  exactly when someone waits and the longest waiter wants another service
  (`Causes.NewcomerIsOldestExactly`), and a pool has a run in which this happens exactly if it has
  three members and a grace period (`Overtaking.OvertakesExactlyWithGrace`).
- The idle countdown is lost if someone waits for another service when a period of ACTIVE opens:
  the branch for the grace period returns before arming it (pool.go:439-447), though elsewhere it
  is meant to survive waiters that cancel (pool.go:568-571). If they do cancel, the service keeps
  the GPU, idle or not, until someone asks for another service, an operator steps in, its container
  goes away or the pool closes. `Countdown.CountdownIsOnExactly` says in which periods the countdown
  is on, and `Countdown.CountdownIsLostExactly` that a pool can lose it for good exactly if it has
  two members, a grace period and a cooldown.
- `poolSignature` is injective if no name and no container has a `:`, and no URL and not the
  default a `|` (`Signature.SignatureIsInjective`). None of the four conditions can be dropped
  (`Signature.PlainDefaultIsNeeded` and the three lemmas after it), and validation asks for none:
  a valid configuration with two hosts and one with a single host and a contrived health path
  give a pool the same signature (`Clash.SoundSignaturesCollide`). A reload leaves the right pools
  exactly if the two configurations give no pool they share different arguments under one
  signature, which can be told before the reload (`Reload.ReuseIsRightExactly`).
- `Server.Close` is documented to prevent a racing reload from leaving fresh pools open. A reload
  that takes the lock after it leaves open exactly the pools it had to make anew:
  `Reload.Server.ReloadAfterClose`.
- An operator's stop lands in IDLE as a failed swap does, and so arms the retry of the default
  (pool.go:463). Left alone, the pool stays stopped exactly if it has no default service or no
  cooldown: `Retry.StopSticksExactly`.
- The registry keeps the newest expectation of a container only. As long as operations on one
  container do not overlap and each is heard of before the next, no event of the pool's own doing
  reaches the manager (`Echo.OwnEventsStayOut`); but the late echo of a stop, heard after the next
  start is announced, is taken for a stranger's and ends that swap, in some run of every pool and
  for each of its members (`LateEcho.LateEchoEndsSwap`). In any run the pool's own events stay out
  exactly if each is explained by what the registry was told in the run before it
  (`Echo.OwnEventsStayOutExactly`).

## Model

| member | source | states |
|---|---|---|
| Names.SortNames | internal/orchestrator/swap.go:181-192 | the names of a map come out as its one sorted list, whatever order they are met in |
| Names.SortedIsUnique | internal/server/server.go:323-325 | two strictly sorted lists of the same names are equal, so sorting removes the map's order |
| Names.LessExactly | internal/server/server.go:323-325 | one name comes before another exactly if it ends, or has the lower character, where they first differ |
| State.OtherContainersAre | internal/orchestrator/pool.go:615-623 | a swap's sweep list holds every sibling's container and never the target's own |
| State.SkipIsOthers | internal/orchestrator/pool.go:615-623 | walking the sorted members and skipping the target yields that list, in order |
| Ledger.EnqueueKeeps | internal/orchestrator/pool.go:285-289 | numbering and queueing a new command, or refusing it for a full queue, keeps the book balanced (what a refused client is told: Answers.ToldExactly) |
| Ledger.RemoveKeeps | internal/orchestrator/queue.go:33-40 | a cancel takes out one waiter at most and keeps the book balanced |
| Ledger.WithoutFirst | internal/orchestrator/queue.go:33-40 | removal by reply channel takes out the first match, keeping all others in order |
| Ledger.FlushKeeps | internal/orchestrator/queue.go:43-48 | a flush answers each waiter of the queue once and keeps the book balanced |
| Ledger.FlushAllEmpties | internal/orchestrator/pool.go:659-661 | flushing all members in any order leaves nobody queued, answers with nothing but the given result, and touches nothing else |
| Ledger.FlushAllKeeps | internal/orchestrator/pool.go:659-661 | and keeps the book balanced |
| Ledger.ExactlyOneFate | internal/orchestrator/queue.go:24-48 | an accepted command stands once in one queue, or was answered once, or was removed, and never two of these |
| Ledger.LowestHeadIsLowest | internal/orchestrator/pool.go:599-611 | the lowest of the queue heads is the lowest of all waiters |
| Worker.StepTold | internal/orchestrator/swap.go:38-94 | in every step of a worker, all list entries behind it were seen stopped by it unless it recorded an error, and success was reported only after a healthy probe |
| Manager.Oldest | internal/orchestrator/pool.go:599-611 | the member found heads all who wait, and none is found only if nobody with a name waits |
| Manager.MemberByContainer | internal/orchestrator/events.go:259-266 | the member found owns the container, and none is found only if no member does |
| Invariant.SupersedeClears | internal/orchestrator/pool.go:320-326 | after superseding, no worker carries the current number and every worker left is cancelled |
| Invariant.StartSwapInv | internal/orchestrator/pool.go:331-344 | starting a swap from any balanced state gives the full invariant |
| Invariant.StartStopAllInv | internal/orchestrator/pool.go:348-359 | and so does starting a stop of the pool |
| Invariant.AdmitInv | internal/orchestrator/pool.go:270-306 | an admit keeps the invariant in every state |
| Invariant.CancelInv | internal/orchestrator/pool.go:238-241 | a cancel keeps the invariant |
| Invariant.AdminSwapInv | internal/orchestrator/pool.go:470-498 | an admin swap keeps the invariant |
| Invariant.AdminStopInv | internal/orchestrator/pool.go:502-520 | an admin stop keeps the invariant, whatever order the queues are flushed in |
| Invariant.TickInv | internal/orchestrator/pool.go:543-588 | a tick, current or stale, keeps the invariant |
| Invariant.ReportInv | internal/orchestrator/pool.go:361-425 | a report, current or stale, keeps the invariant, and a current one names a member |
| Invariant.ChainInv | internal/orchestrator/pool.go:430-466 | what is chained after a terminal report restores the invariant |
| Invariant.EventInv | internal/orchestrator/events.go:191-239 | an external event keeps the invariant |
| System.ApplyGrounded | internal/orchestrator/pool.go:331-332 | no step of any run looks up a service that is not a member: every swap target and every report names one |
| Safety.NoNewBlame | internal/orchestrator/swap.go:58-87 | no worker step makes a container count against the pool, except the current worker starting its target |
| Safety.SweptClean | internal/orchestrator/swap.go:38-51 | when a current worker has succeeded nothing counts against the pool but its target, since its spawn |
| Safety.ApplySys | internal/orchestrator/pool.go:231-268 | every step of the whole system keeps the invariant that ties manager, workers and Docker together |
| Exclusion.MutualExclusion | internal/orchestrator/swap.go:30-103 | in every run, at most one container runs that was not started outside, not left by a failed clean-up, and is not the target of a worker that has yet to stop it and was superseded only after the pre-start check it made at some step of that run |
| Exclusion.SupersededNeverStarts | internal/orchestrator/swap.go:53-62 | a worker superseded before its pre-start check is past that check in no run |
| Exclusion.BegunWasChecked | internal/orchestrator/swap.go:53-64 | every worker past its check made it at some step of the run, and was not superseded then |
| Exclusion.MutualExclusionOrderly | internal/orchestrator/swap.go:74-87 | without outside starts and failed clean-ups only those superseded targets are excused |
| Exclusion.SelfHealing | internal/orchestrator/swap.go:26-51 | whatever was running, a success report finds only the target running, and an error-free stop report nothing, later excuses apart |
| Exclusion.ActiveRunsAlone | internal/orchestrator/pool.go:372-381 | and throughout ACTIVE nothing runs beside the active container, excuses since its swap apart |
| Overlap.OverlapsExactlyWithSiblings | internal/orchestrator/swap.go:74-87 | an orderly run from a cold start can have two containers running if and only if the pool has two members |
| Waiters.NoStrandedWaiter | internal/orchestrator/pool.go:285-306 | whoever waits, the current worker has yet to report or a valid grace tick is outstanding; nobody waits in IDLE or ERROR, nor for the active service |
| Waiters.SwappingHasItsWorker | internal/orchestrator/pool.go:316-344 | SWAPPING holds exactly while the current worker lives, and a worker is cancelled exactly when it is older |
| Waiters.EpochSafety | internal/orchestrator/pool.go:627-645 | at most one tick per kind counts, none in SWAPPING or ERROR, cooldownArmed tells exactly, and a counting tick was armed in this period |
| Waiters.Conservation | internal/orchestrator/pool.go:234-247 | in every run each accepted command is queued, answered once or removed, exclusively; after shutdown nobody is queued |
| Waiters.OldestIsOldestOfAll | internal/orchestrator/pool.go:599-611 | in every run the member found by comparing heads holds the longest waiter of all |
| Answers.ToldExactly | internal/orchestrator/pool.go:270-305 | every step tells a client Go, queue full, Docker error, startup timeout or shutdown exactly if there is reason: queue full exactly a request for a member that is not ACTIVE and has as many waiters as it may |
| Answers.ToldInRunExactly | internal/orchestrator/pool.go:371-424 | in every run a client has been told something exactly if some step of the run had that reason |
| Answers.QueuesExactly | internal/orchestrator/queue.go:24-48 | every step leaves each queue as it was, longer by its request, shorter by a cancelled one, or empty, exactly as it should |
| Answers.ToldInTurn | internal/orchestrator/queue.go:43-48 | those answered together are answered in the order of their numbers |
| Course.BeginsExactly | internal/orchestrator/pool.go:316-359 | a worker is sent off, to swap to a member or to stop the pool, if and only if the step is due to: a request with room and past the grace period, an operator's command, a report with something pending or somebody waiting, a grace tick, an expired cooldown (the default, or a stop if there is none), a death with somebody waiting |
| Course.RestsExactly | internal/orchestrator/pool.go:361-425 | and any other step leaves the pool exactly where it should: ACTIVE by a success, IDLE by a failure, a stop or Close, ERROR by a death, otherwise where it was |
| Course.IdleExactly | internal/orchestrator/pool.go:383-424 | a pool becomes IDLE exactly by a report of failure or of a stop that nothing follows from, and by Close |
| Course.ErrorExactly | internal/orchestrator/events.go:199-230 | it comes to ERROR exactly by the death of the container it serves or is swapping in, with nobody left to wait |
| Course.ActiveExactly | internal/orchestrator/pool.go:372-381 | it becomes ACTIVE on a service exactly by the current worker's success, unless another admin swap is pending or somebody waits and there is no grace period |
| Course.AdminSwapTold | internal/orchestrator/pool.go:470-498 | an operator is told initiated exactly if the swap starts, already active exactly if it is, pending or superseded by what was pending, unknown exactly for no member |
| Course.AdminStopTold | internal/orchestrator/pool.go:502-520 | already idle exactly in IDLE, otherwise initiated, and then the stop has begun; nothing is pending and nobody waits after it |
| Course.PendingExactly | internal/orchestrator/pool.go:481-494 | what is pending is the last member asked for during a swap to another, until the current worker reports or an operator stops the pool |
| Clocks.TicksExactly | internal/orchestrator/pool.go:543-588 | after every step just the right ticks count, set for the right instants: the end of the grace period; a whole cooldown, also when a tick finds somebody waiting; what is left of it when there was traffic |
| Clocks.ActivityExactly | internal/orchestrator/pool.go:308-314 | the activity clock is set by traffic for the ACTIVE service and by an opening that starts the countdown, and by nothing else |
| AdmitGo.GoIsSound | internal/orchestrator/pool.go:279-283 | AdmitGo is sent only to clients of the ACTIVE service, or of the one a vouched-for report just made ACTIVE |
| AdmitGo.ActivePeriodWasOpened | internal/orchestrator/pool.go:372-381 | every ACTIVE period began with the report of a never-superseded worker that saw all siblings stopped, started its target and saw it healthy, and has lasted since |
| AdmitGo.SnapshotIsCurrent | internal/orchestrator/pool.go:647-657 | between handlers the published snapshot is the manager's state; after shutdown it is IDLE |
| EmptyName.EmptyNameStrands | internal/orchestrator/pool.go:599-611 | with a member named "" a certain run leaves a waiter behind in IDLE |
| EmptyName.StrandsExactlyWithEmptyName | internal/orchestrator/pool.go:599-611 | a pool can strand a waiter if and only if it has a member named "" |
| Drain.StepDrains | internal/orchestrator/pool.go:430-448 | while someone waits, no quiet step lengthens the chain, each new swap shortens it, and the driving event brings the end nearer |
| Drain.ChainIsShort | internal/orchestrator/pool.go:361-466 | with nothing new arriving, the swaps started number at most the unserved services waited for plus a pending admin swap, whatever becomes of each, and the reports and grace ticks that drive them at most twice that, plus one |
| Drain.SwapsAreBounded | internal/orchestrator/pool.go:427-466 | that is, one swap per non-empty queue, and one more if an admin swap is pending |
| Drain.ChainNeverStops | internal/orchestrator/pool.go:549-554 | while someone waits an event that drives the chain is outstanding |
| Drain.EveryoneAnswered | internal/orchestrator/pool.go:430-448 | when nobody waits any more everyone who asked was answered or had cancelled |
| Fairness.StepCounts | internal/orchestrator/swap.go:153-178 | every step of a worker, whatever it is answered, leaves it fewer steps to its report |
| Fairness.EveryoneIsServed | internal/orchestrator/pool.go:361-466 | in every endless run with nothing new arriving and workers and ticks getting their turn, a time comes when nobody waits and everyone who asked was answered or had cancelled |
| Timing.WhyActiveIsLeft | internal/orchestrator/pool.go:296-302 | ACTIVE ends only after grace with a waiter elsewhere, after cooldown with nobody waiting, by an operator, an external stop or Close |
| Timing.TickActsWithEager | internal/orchestrator/pool.go:574-586 | when a timer wound up at every touch has run out, a cooldown tick swaps to the default, or stops the pool if there is none; otherwise it re-arms for what is left, which is positive |
| Timing.ExpiryIsDue | internal/orchestrator/pool.go:62-68 | when that timer runs out a tick is due at that very instant, and with ticks delivered when due no time passes before it |
| Timing.LazyRefinesEager | internal/orchestrator/pool.go:308-314 | through a whole ACTIVE period in which the countdown is on, whatever the traffic, with ticks delivered when due and finding nobody queued, the one lazy tick never comes after the eager timer |
| Timing.ActivationStartsCooling | internal/orchestrator/pool.go:439-456 | a period of ACTIVE opens with the idle countdown on, and fully wound, if and only if its service may be cooled down and nobody waits for another |
| Countdown.CountdownIsOnExactly | internal/orchestrator/pool.go:439-456 | and the countdown is on at any later moment of the period under that same condition on its opening: nothing in between switches it on or off |
| Countdown.LostThroughout | internal/orchestrator/pool.go:543-588 | a pool that has lost its countdown stays ACTIVE on the same service, whatever happens, until another service is asked for, an operator steps in, the container goes away or the pool closes |
| Countdown.CountdownIsLostExactly | internal/orchestrator/pool.go:439-447 | some run leaves the pool ACTIVE for good with its countdown lost if and only if it has two members, a grace period and a cooldown |
| Causes.WhySwapsStart | internal/orchestrator/pool.go:427-466 | every swap is the operator's, the idle default's, the longest waiter's, or that of a newcomer past the grace period |
| Causes.NewcomerIsOldestExactly | internal/orchestrator/pool.go:285-301 | a request that starts a swap is the longest waiter exactly if nobody waited before it or the longest waiter wanted the same service |
| Overtaking.OvertakesExactlyWithGrace | internal/orchestrator/pool.go:296-302 | some run has a request start a swap ahead of an older one of another service if and only if the pool has three members and a grace period |
| Causes.PendingIsHonoured | internal/orchestrator/pool.go:431-437 | the next report after a pending admin swap leads to it, or is the news that it was reached |
| Causes.StopsIssued | internal/orchestrator/pool.go:391-402 | the manager has a container stopped only for a health timeout of its swap, or when it was started while not served |
| Retry.StopReportArms | internal/orchestrator/pool.go:458-465 | the report of a stop, with nobody waiting and nothing pending, lands in IDLE and arms the retry exactly with a default service and a cooldown |
| Retry.RetryStartsDefault | internal/orchestrator/pool.go:556-564 | and the retry starts the default |
| Retry.StopSticksExactly | internal/orchestrator/pool.go:500-520 | after a stop answered initiated, some run without requests, operators and external events swaps again if and only if there is a default service and a cooldown |
| PoolActor.Member.Enqueue | internal/orchestrator/queue.go:24-30 | appends at the end, unless the queue is full |
| PoolActor.Member.RemoveByReply | internal/orchestrator/queue.go:33-40 | the loop takes out the first waiter of that reply channel and no other |
| PoolActor.Member.Flush | internal/orchestrator/queue.go:43-48 | the loop answers every waiter in queue order and empties the queue |
| PoolActor.Pool.constructor | internal/orchestrator/pool.go:81-112 | a new pool is in the machine's initial state, each member an object of its own, whatever its configuration |
| PoolActor.Pool.HandleAdmit | internal/orchestrator/pool.go:270-306 | the fields afterwards are those the admit step of the machine gives, whose answers, queues, course and ticks are those of Answers, Course and Clocks |
| PoolActor.Pool.HandleCancel | internal/orchestrator/pool.go:238-241 | likewise for a cancel |
| PoolActor.Pool.Touch | internal/orchestrator/pool.go:310-314 | likewise for an activity ping |
| PoolActor.Pool.SupersedeWorker | internal/orchestrator/pool.go:320-326 | likewise for superseding the worker in flight |
| PoolActor.Pool.StartSwap | internal/orchestrator/pool.go:331-344 | likewise for starting a swap, the worker spawned with the sorted siblings as its list |
| PoolActor.Pool.StartStopAll | internal/orchestrator/pool.go:348-359 | likewise for stopping the pool |
| PoolActor.Pool.HandleSwap | internal/orchestrator/pool.go:361-425 | likewise for a report |
| PoolActor.Pool.ChainAfterTerminal | internal/orchestrator/pool.go:430-466 | likewise for what follows it |
| PoolActor.Pool.HandleAdminSwap | internal/orchestrator/pool.go:470-498 | likewise for an admin swap, with its answer, which is that of Course.AdminSwapTold |
| PoolActor.Pool.HandleAdminStop | internal/orchestrator/pool.go:502-520 | likewise for an admin stop, for the order in which the map was walked |
| PoolActor.Pool.HandleTick | internal/orchestrator/pool.go:543-588 | likewise for a tick: what it starts is Course.BeginsExactly, what it re-arms Clocks.TicksExactly |
| PoolActor.Pool.OldestQueued | internal/orchestrator/pool.go:599-611 | one pass in any order finds the member that heads all waiters |
| PoolActor.Pool.OtherContainers | internal/orchestrator/pool.go:615-623 | the loop lists the siblings' containers in name order |
| PoolActor.Pool.ArmTimer | internal/orchestrator/pool.go:627-639 | arms a tick of the next epoch |
| PoolActor.Pool.HandleExternalEvent | internal/orchestrator/events.go:191-239 | likewise for an external event: where it leads is Course.BeginsExactly and Course.RestsExactly |
| PoolActor.Pool.MemberByContainer | internal/orchestrator/events.go:259-266 | one pass in any order finds the owner, if there is one |
| PoolActor.Pool.HandleShutdown | internal/orchestrator/pool.go:651-663 | likewise for shutdown: snapshot first, then all queues |
| PoolActor.Pool.Serve | internal/orchestrator/pool.go:231-268 | one turn of the loop goes where the message leads, and keeps the invariant |
| PoolActor.Pool.FastPath | internal/orchestrator/pool.go:197-203 | the lock-free check says Go exactly when the manager would |
| SwapWorker.Confirm | internal/orchestrator/swap.go:162-177 | the confirm loop follows the machine and looks at most 76 times |
| SwapWorker.StopAndConfirm | internal/orchestrator/swap.go:153-178 | stops and confirms as the machine does, with at most 77 calls |
| SwapWorker.CleanUp | internal/orchestrator/swap.go:80-86 | the clean-up of a superseded start ends in one failure report, within 77 calls |
| SwapWorker.PollHealth | internal/orchestrator/swap.go:89-102 | at most ceil(timeout / 250 ms) + 1 probes, then success or a health timeout |
| SwapWorker.DoSwap | internal/orchestrator/swap.go:30-103 | whatever Docker, clock, probes and manager do, panics included, it ends with the machine's one report after a bounded number of calls |
| SwapWorker.DoStopAll | internal/orchestrator/swap.go:107-139 | and so does the stop of a whole pool |
| Verdicts.HeedsExactly | internal/orchestrator/swap.go:53-87 | where a worker looks at its context it does as it finds: superseded, it neither starts its target, nor lets it run, nor goes on to the next member of a stop; otherwise it does |
| Verdicts.LookingSince | internal/orchestrator/swap.go:153-178 | a worker in a loop has been looking in vain since its stop call was accepted, 200 ms apart for less than 15 s, or since its post-start check, 250 ms apart for less than the startup budget |
| Verdicts.SwapReportsExactly | internal/orchestrator/swap.go:30-103 | for any answers, a swap succeeds, times out or fails exactly for its reasons, and gives up on a container that still runs exactly from 15 s after its stop call on |
| Verdicts.StopReportsExactly | internal/orchestrator/swap.go:107-139 | a stop that is not cut short has looked at every member whatever failed on the way, and reports an error exactly if some member could not be stopped; one cut short reports an error |
| Registry.OpRegistry.Expect | internal/orchestrator/events.go:52-60 | the newest expectation replaces any other, with its full budget |
| Registry.OpRegistry.IsExpected | internal/orchestrator/events.go:64-90 | absorbs and counts down as the table's function says |
| Registry.RegistryIsExact | internal/orchestrator/events.go:18-90 | for every history in clock order, an event is absorbed exactly when the latest expectation is of its kind, at most 30000 ms old, and has explained fewer than three events of a stop, or none of a start |
| Registry.BudgetHolds | internal/orchestrator/events.go:27-31 | over any history the absorbed events never exceed three per stop and one per start expected |
| Echo.TakesEffectExactly | internal/dockerctl/fake.go:81-114 | a worker's call has an echo exactly when it changes what runs |
| Echo.CalmMove | internal/orchestrator/events.go:177-185 | if operations on a container do not overlap and are heard of in time, every move keeps what is on its way explainable, and no own event gets past the registry |
| Echo.OwnEventsStayOut | internal/orchestrator/events.go:20-34 | so through a whole run the manager is where it would be if no event had been delivered |
| Echo.OwnEventsStayOutExactly | internal/orchestrator/events.go:64-90 | in every run, calm or not, none of the pool's own events reaches the manager if and only if for each the newest expectation told in that run before it is of its kind, at most 30 s old, and not used up by the events absorbed since |
| LateEcho.LateEchoEndsSwap | internal/orchestrator/events.go:212-224 | every pool, for each of its members, has a run from a cold start in which the echo of its own stop aborts the next swap, whose waiter is told that Docker failed |
| StaleStop.ActiveButStopped | internal/orchestrator/swap.go:74-87 | every pool, for each of its members, has an undisturbed run from a cold start after which it is ACTIVE with its container stopped by itself, and tells the next client AdmitGo |
| StaleStop.StoppedExactly | internal/orchestrator/swap.go:74-87 | a running container is stopped by a stop call, an outsider's, a detached one or a worker's, and by nothing else |
| StaleStop.RunsWhileActive | internal/orchestrator/swap.go:74-87 | with no superseded worker alive and no detached stop of it outstanding, the ACTIVE container runs while ACTIVE lasts and no outsider stops it |
| Validation.Validate | internal/config/validate.go:14-143 | the joined error lists every broken rule and nothing else, and is empty exactly for a sound configuration |
| Validation.SoundExactly | internal/config/validate.go:14-143 | a configuration is sound if and only if its ports, sizes and tokens, services, pools and routes are each as required |
| Validation.BlankExactly | internal/config/validate.go:38-43 | a token is refused exactly if it is given and trimming leaves nothing of it |
| Validation.SpacesAre | internal/config/validate.go:38-43 | the white space trimmed is the 25 characters Unicode calls so |
| Validation.CheckServices | internal/config/validate.go:58-98 | in any map order, every claim on a container but the first is reported against the first |
| Validation.CheckPools | internal/config/validate.go:101-117 | every broken rule of every pool and no other |
| Validation.CheckRoutes | internal/config/validate.go:123-140 | every broken rule of every route and model and no other |
| Signature.PoolSignature | internal/server/server.go:331-343 | the builder's loop writes the signature, durations as Duration.String does |
| Signature.SignatureIsInjective | internal/server/server.go:329-343 | for clean arguments equal signatures mean equal arguments to NewPool |
| Signature.PlainDefaultIsNeeded | internal/server/server.go:337 | different arguments that break only the rule for the default can share a signature |
| Signature.PlainNamesAreNeeded | internal/server/server.go:339-340 | likewise only the rule for names |
| Signature.PlainContainersAreNeeded | internal/server/server.go:339-340 | likewise only the rule for containers |
| Signature.PlainURLsAreNeeded | internal/server/server.go:339-340 | likewise only the rule for URLs |
| Reload.PoolMembers | internal/server/server.go:309-327 | the members by name, whatever order the services are met in |
| Reload.NewPoolGets | internal/server/server.go:203-209 | NewPool gets the pool's own times and default, and just its services, each with its container, health URL without a doubled slash, startup budget and queue size, the server's if it sets none |
| Reload.ValidatedIsWellFormed | internal/config/validate.go:58-117 | a sound configuration gives each pool ranges, a default that is a member, bounded queues and containers of one owner |
| Reload.CleanNeverClash | internal/server/server.go:189-208 | two configurations with plain names, containers, URLs and defaults give no pool different arguments under one signature |
| Reload.ReuseIsRightExactly | internal/server/server.go:194-197 | from right pools, a reload leaves every pool made from what NewPool would now receive if and only if the old and the new configuration do not clash |
| Reload.Server.BuildRuntime | internal/server/server.go:166-229 | fails exactly without a token or on an unparsable URL; otherwise pools of equal signature are taken over, the rest new, and each service points at its own runtime's pool; the admin token is the configured one, else the generated one, and empty exactly if admin auth was disabled |
| Reload.Server.SyncWatcher | internal/server/server.go:299-307 | the watcher's table becomes exactly the container-to-pool map |
| Reload.ClosePools | internal/server/server.go:273-278 | closes just the pools that are not held under the same name |
| Reload.Server.Reload | internal/server/server.go:250-282 | accepted exactly with known containers and a token; rejected changes nothing; accepted keeps the open pools exactly those of the new runtime, and from right pools leaves right ones if and only if the configurations do not clash |
| Reload.Server.Close | internal/server/server.go:153-160 | closes every pool |
| Reload.Server.ReloadAfterClose | internal/server/server.go:150-160 | a reload after Close leaves open exactly the pools it makes anew |
| Reload.Server.New | internal/server/server.go:85-102 | a new server serves exactly the pools of its configuration, or fails for want of a token |
| Validated.ValidatedPoolStrands | internal/config/validate.go:59-98 | a validated pool can strand a waiter if and only if it has a service named "" |
| Validated.ValidatedPoolOverlaps | internal/config/validate.go:59-98 | a validated pool without one can overlap two containers if and only if it has two services |
| Validated.EmptyNamePasses | internal/config/validate.go:59-98 | some configuration that breaks no rule has a pooled service named "" with a model routed to it |
| Clash.SoundSignaturesCollide | internal/config/validate.go:69-86 | two configurations that break no rule give a pool different arguments and one signature |
| Clash.ReloadFromFresh | internal/server/server.go:250-282 | a reload of a fresh server between two configurations that break no rule is accepted, and leaves the right pools if and only if the two do not clash |

## Left out

- The Docker client, the event stream with its backoff, HTTP, CORS, authentication checks, the
  reverse proxy, WebSocket tunnels, the router, YAML loading, logging and the status commands:
  foreign I/O or one-branch facts.
- Health probes, Docker's answers and panics are arbitrary answers to a worker's calls.
- The channels `swaps`, `timers` and `dockerEv` are the sets of what is outstanding; their
  capacities and delivery order are not modelled. A dropped activity ping is a ping that does
  not occur.
- A handler reads one clock instant, where the Go program may read the clock twice.
- Counters are unbounded; the wrap-around of uint64 and the range of time.Duration are not modelled.
- Error details and log lines are dropped: only the kind of a result and whether an error was present are kept.
- What workers do after Close is not modelled: a closed pool takes no further step.
- A failed Docker call has no effect; a call that fails after taking effect is not modelled.
- In the runs of `System` any external event may reach the manager at any time, which includes
  whatever the registry lets through; the registry, the stream and the workers' calls are tied
  together in `Echo` only. There an expectation is recorded when a worker comes to its call, and a
  detached stop expects and calls in one step.
- An intruder is stopped by a detached call, so containers started from outside are excused until stopped.
- Two pools over one container during a reload that moves it: mutual exclusion is per pool.
- Warnings of the validation, and the parsing of URLs, which is a parameter.
- Reload.Server.Reload: whether Docker knows the containers is a parameter, and an unvalidated
  configuration is not handed to it, as its documentation asks; with an unparsable URL
  buildRuntime would fail with its new pools left open.
- Manager.Oldest: in a pool with a member named "", what oldestQueued answers when others wait too
  depends on the map's order; the model never takes that member for the longest waiter.
- Signature.PoolSignature: durations are whole milliseconds, where Go's are nanoseconds.
