# Thread pools as interleavings of atomic steps

This project models the concurrent protocol of the two thread pools and proves what it guarantees in every run. The
dynamic pool's submitters, workers, ticket cancellers, `stop`, `shutdown`, `join` and termination waits interleave over
one monitor, one removable FIFO, one mutex per entry and about a dozen atomics; every atomic load or read-modify-write
is a step of its own. The fixed pool is a second machine over the same accounting, gate and wake protocol, with an
injector that no lock covers.

## How to read it

- `PoolTypes`, `PoolShared`, `PoolAccounting`: the stages of one job, which counter counts it at which stage, and the
  state both pools share. `PoolAccounting.PoolAccounting`, `AdmissionGate.AdmissionGate`, `QueuedJob.QueuedJob` and
  `DynamicQueue.RemovableQueue` are the source's objects with their mutating methods.
- `DynamicPool` is the dynamic pool's step functions, one position per place between two atomic accesses, grouped by
  source function: `SubStep` (`submit` and its guard), `GrowStep` (`reserve_worker_locked`,
  `spawn_reserved_worker_locked`), `AccStep`, `PubStep`, `CutStep` (`accept_and_enqueue_reserved_job`), `TakeStep`
  (`try_take_queued_job`), `RunStep`, `IdleStep` and `DrainStep` (the two waiting branches of `wait_for_job`), `ExitStep`,
  `FinStep` (`finish_cancelled_job`), `CheckStep` (`is_idle`), `StopStep`, `PurgeStep`, `WaitStep`, `LookStep`
  (`cancel_queued`), `FindStep` (`cancel_queued_entry`). `DynamicRun` adds threads, locks, spurious wake-ups, time-outs and
  runs (`Behavior`).
- `DynamicFacts` states what each step respects; `DynamicStep*` prove it, group of positions by group; `DynamicInvariant`
  and `DynamicLifecycle` turn it into an invariant of every run. The remaining `Dynamic*` modules prove one guarantee each.
- `Fixed*` is the same for the fixed pool.
- History (job stages, holders, sets seen by a check, orders of publication and claims) is recorded by the steps and never
  tested by them.

Conventions: atomics are sequentially consistent; releasing a lock is folded into the step before it; a job is named by the
submit call that carries it; a callback or a thread creation succeeds or fails nondeterministically; a worker's keep-alive
wait may time out, and any wait may wake spuriously, at any moment.

## What turned out false

The documentation says that shutdown lets accepted tasks run (src/dynamic/thread_pool.rs:39,
src/fixed/fixed_thread_pool.rs:336). The code guarantees it for neither pool: the `ShuttingDown` exit test loads the queued
count before the in-flight count, and a submitter can publish and leave between the two loads. For each pool:

- `ShutdownCanStrand` (`DynamicStranding`, `FixedStranding`) is a concrete run that ends with a shut-down pool, nobody left
  to serve and a queued job, and `NeverServed` shows that no such job is ever run.
- `StrandedExactly` (`DynamicDrain`, `FixedShutdown`) gives the exact condition: in a shut-down pool a waiting job is stranded
  if and only if the last worker took that exit, in-flight count zero, with the job's publication and its submitter's
  departure both between its two loads, and is gone.
- `NobodyInFlightNobodyStranded` is what a caller of shutdown can rely on: if the in-flight count is zero once admission is
  closed and before the lifecycle moves, no job is ever stranded.
- With the two loads in the opposite order (`inflightFirst`) no job is ever stranded: `FixedShutdown.OtherOrderNeverStrands`,
  and `DynamicRetire.WorkHasWorker`, which also shows that no job is without a worker while the pool runs.

## Model

| member | source | states |
|---|---|---|
| DynamicWake.NoLostWorkerWakeup | src/dynamic/thread_pool_inner.rs:669-701 | In every reachable state with a worker asleep in the Running branch and a job queued, some submitter has left a token and is before its notify_all, or no token is pending, an idle mark is visible and that job's submitter has yet to decide whether to wake a worker. |
| DynamicWake.RestingMarked | src/dynamic/thread_pool_worker.rs:113-118 | A worker between its idle mark and its unmark is visible in the idle count, and owns the monitor unless it sleeps. |
| DynamicWake.TokenStays | src/dynamic/thread_pool_worker.rs:182-190 | A pending token that announces a job is not consumed by another worker behind the back of one that is about to sleep. |
| DynamicRetire.WorkHasWorker | src/dynamic/thread_pool_worker.rs:107-131 | While the pool runs, a queued job or a reserved slot implies a live worker; with the shutdown exit test loading in-flight first, the same holds until stop. |
| DynamicRetire.RetiringSeesAll | src/dynamic/thread_pool_worker.rs:121-131 | A timed-out worker that has read no job, no token and then nobody in flight, in three separate loads, leaves behind neither a queued job nor a reserved slot at that moment. |
| DynamicRetire.ReservesUnderMonitor | src/dynamic/thread_pool_inner.rs:494-522 | A slot is reserved only by an in-flight submitter that owns the monitor of a running pool with a live worker. |
| DynamicShutdown.StrandedOnlyThroughWindow | src/dynamic/thread_pool_worker.rs:140-151 | If a shut-down pool has no live worker while an accepted job waits, then its last worker took the ShuttingDown exit with that job's publication and its submitter's departure both between its queued load and its in-flight load. |
| DynamicDrain.StrandedExactly | src/dynamic/thread_pool_worker.rs:138-151 | In a shut-down pool a waiting job is left without a worker if and only if the last worker missed it in that way and has unregistered. |
| DynamicDrain.WayOutEnds | src/dynamic/thread_pool_worker.rs:140-143 | From the moment the last worker of a shut-down pool is between its two loads with nobody in flight, whatever the other threads do, it either still is on its way to unregister or the pool has no worker, and never will. |
| DynamicDrain.NobodyInFlightNobodyStranded | src/dynamic/thread_pool_inner.rs:741-755 | If nobody is in flight once shutdown has closed admission and before it moves the lifecycle, no later state strands a job. |
| DynamicShutdown.ExitMisses | src/dynamic/thread_pool_worker.rs:140-143 | At the moment a worker takes that exit, every job it leaves was published, and its submitter departed, after its first load. |
| DynamicStranding.ShutdownCanStrand | src/dynamic/thread_pool_worker.rs:141-142 | There is a run of prestart, submit and shutdown that ends with a shut-down pool, no live worker and an accepted job in the queue. |
| DynamicStranding.NeverServed | src/dynamic/thread_pool_inner.rs:494-522 | Once a pool that is not running has no live worker, that stays so and no job queued then is ever run. |
| DynamicIdle.IdleCheckSound | src/internal/pool_accounting.rs:206-211 | When a check has read three zeros at three moments, every submission begun before its first load is completed, cancelled, rejected or refused. |
| DynamicIdle.JoinWaitsForEarlierWork | src/dynamic/thread_pool_inner.rs:896-904 | A returned join leaves no submission unfinished that had passed its admission test before the join was called. |
| DynamicIdle.FirstLoad | src/internal/pool_accounting.rs:206-207 | An in-flight count of zero means no submission past its admission test still holds an unpublished slot. |
| DynamicTermination.TerminationIsPermanent | src/dynamic/thread_pool_inner.rs:1067-1087 | Once all conditions of the termination test hold at one moment they hold at every later moment. |
| DynamicTermination.CheckSeesTermination | src/dynamic/thread_pool_inner.rs:1067-1074 | The last load of a termination check reads zero exactly when all conditions hold at that very moment. |
| DynamicTermination.ReportedTermination | src/dynamic/thread_pool_inner.rs:858-862 | A termination wait that has returned was right, then and for ever. |
| DynamicTermination.TerminationIsExact | src/dynamic/thread_pool_inner.rs:1128-1136 | At termination submitted equals completed plus cancelled, the queue is empty, every job has ended, nobody is in flight, and no worker is live or has its stop hook still to run. |
| DynamicTermination.IdleIsExact | src/internal/pool_accounting.rs:181-211 | Whenever the four counts of the idle test are zero at one moment, submitted equals completed plus cancelled and every job has ended. |
| DynamicWaiters.NoWaiterForgotten | src/dynamic/thread_pool_inner.rs:729-815 | Whenever the condition of a sleeping join, stop, termination wait or draining worker holds, some thread that is awake is past the write that met it and on the way to notify_all. |
| DynamicWaiters.ComingArrives | src/dynamic/thread_pool_inner/internal/thread_pool_submit_guard.rs:19-23 | As long as the condition holds and the sleeper sleeps, a thread on the way stays on the way, and every step of its own uses up one of at most eight that separate it from notify_all. |
| DynamicOutcomes.OneOutcome | src/dynamic/thread_pool_inner.rs:328-412 | For any number of workers, stops and tickets: acceptance is called at most once, run and cancel together at most once and only after acceptance, and each end says which of the outcomes it was. |
| DynamicOutcomes.EndIsFinal | src/dynamic/thread_pool_inner.rs:634-648 | A job that has ended stays as it ended. |
| DynamicOutcomes.EntriesAreOneWay | src/pool_job/internal/queued_job_state.rs:13-36 | A taken, rejected or cancelled entry stays so; one withheld for a ticket is never queued; one requested during acceptance ends withheld or rejected. |
| DynamicOutcomes.CountersConserved | src/internal/pool_accounting.rs:118-185 | After every atomic step, slots = reserved + queued + claims not released + cancellations at work, and submitted = completed + cancelled + under way. |
| DynamicOutcomes.NothingUnderflows | src/internal/pool_accounting.rs:139-185 | No task, in-flight, worker, idle or waiter count is ever negative, so no underflow assertion on them is reachable. |
| DynamicOutcomes.CapacityHolds | src/internal/pool_accounting.rs:118-136 | Slots other than those handed to a freshly spawned worker never exceed the capacity. |
| DynamicTickets.ReservedNeverQueued | src/dynamic/thread_pool_inner.rs:346-370 | A job whose cancellation a ticket reserved during acceptance never enters the queue, is never claimed and never run. |
| DynamicTickets.ReservedTicketAnswer | src/pool_job_ticket.rs:70-89 | The ticket that reserved answers true exactly when acceptance succeeded, after the cancel callback and the accounting, and false exactly when acceptance failed. |
| DynamicTickets.TrueTicketIsUnique | src/pool_job_ticket.rs:66-95 | Of all tickets of one job at most one ever answers true, and then the job has been cancelled, callback and accounting included. |
| DynamicTickets.NoTicketForgotten | src/pool_job_ticket.rs:81-88 | A ticket asleep on a settled entry is about to be woken by the submitter of that job. |
| DynamicAttribution.CancellationsAttributed | src/dynamic/thread_pool_inner.rs:765-801 | Once all calls have returned, the cancelled totals of all stops plus the number of true tickets equal the cancelled-task counter. |
| DynamicAttribution.ReportsAddUp | src/dynamic/thread_pool_inner.rs:393-412 | Reports that agree with the credits thread by thread add up to the number of credited jobs. |
| DynamicStop.StopIsComplete | src/dynamic/thread_pool_inner.rs:765-794 | From the moment a stop has drained the queue, admission is closed, nobody is in flight, the queue is empty, and nothing is published or claimed again. |
| DynamicStop.FateAfterStop | src/dynamic/thread_pool_inner.rs:713-726 | Then every accepted job was claimed before, or is credited to one ticket of that job or to one stop, never both. |
| DynamicStop.EmptyQueueSeals | src/dynamic/thread_pool_inner.rs:713-726 | A stop that finds the queue empty under its lock, with nobody in flight, has no job left anywhere near the queue. |
| DynamicFifo.QueueIsQueuedEntries | src/dynamic/thread_pool_inner.rs:346-412 | Whenever the queue lock is free the queue lists each job at most once, and exactly those whose entry says queued. |
| DynamicFifo.TakeAlwaysFindsQueued | src/pool_job/internal/queued_job.rs:74-83 | Whoever has popped or found an entry and locked it finds it queued, so no popped entry is dropped. |
| DynamicFifo.ClaimsKeepOrder | src/dynamic/thread_pool_inner.rs:634-648 | Claims so far, followed by the queue, are a subsequence of the order of publication under any ticket removals and stops. |
| DynamicFifo.SubsequenceDrops | src/dynamic/thread_pool_inner.rs:401-407 | Leaving out any one element keeps a subsequence of the publication order. |
| DynamicFifo.LocksInOrder | src/dynamic/thread_pool_inner.rs:328-412 | In every run a thread that owns a lock and waits for another waits for one that comes later in the order state, queue, entry. |
| DynamicFifo.UserCodeHoldsNoLock | src/dynamic/thread_pool_inner.rs:482-489 | In every run a thread inside acceptance, run, cancellation, discarding or a hook owns none of the three kinds of lock. |
| DynamicFifo.NoDeadlock | src/pool_job_ticket.rs:66-95 | Whenever one of the internal locks is owned in a reachable state, some owner of a lock can take its next step. |
| DynamicSizing.SizesStayValid | src/dynamic/thread_pool_inner.rs:951-1011 | core <= max and max >= 1 under any interleaving of resizing calls. |
| DynamicSizing.SpawnsBelowMax | src/dynamic/thread_pool_inner.rs:494-547 | Every spawn is reserved by a running pool below its maximum and stays within it. |
| DynamicSizing.SpawnFailureRestores | src/dynamic/thread_pool_inner.rs:598-627 | A failed spawn leaves all sizes as before its reservation, takes no slot and rejects its job. |
| DynamicSizing.ExitsKeepCore | src/dynamic/thread_pool_state.rs:86-102 | A worker leaving a running pool whose core workers do not time out leaves it at core size or above. |
| DynamicSizing.LiveFallsOnlyThere | src/dynamic/thread_pool_inner.rs:1128-1136 | The live count falls only when a worker unregisters or a spawn fails. |
| DynamicTally.TallyMirrors | src/dynamic/thread_pool_inner.rs:576-627 | In every reachable state the lock-free count of live workers equals the one under the monitor, except that it lags while the monitor's owner creates a worker and is ahead while the owner unregisters itself. |
| DynamicTally.TallyNeverUnderflows | src/dynamic/thread_pool_inner.rs:1128-1136 | That count is never negative, and positive whenever a worker takes itself off it. |
| AdmissionGate.AlwaysPacked | src/internal/admission_gate.rs:12-99 | In every interleaving of the compare-exchange loops, closes and leaves, the word is the closed bit plus the number of entrants, without carry or borrow. |
| AdmissionGate.WordRefinesPair | src/internal/admission_gate.rs:42-99 | Every atomic step on the word is a step of the pair (closed, count), or leaves it alone; entry happens only while open. |
| AdmissionGate.NoEntryAfterClose | src/internal/admission_gate.rs:59-66 | After a close nobody enters and the gate stays closed. |
| AdmissionGate.ExactlyOneLastLeave | src/internal/admission_gate.rs:68-79 | If entrants remain at a close, exactly one later leave reports to be the last, namely the one that empties the gate; otherwise none does. |
| AdmissionGate.TryEnterOn | src/internal/admission_gate.rs:42-58 | Against arbitrary interference the loop turns away only on a closed word, overflows only on a full open one, and enters by adding one to an open word that was there. |
| AdmissionGate.AdmissionGate.TryEnter | src/internal/admission_gate.rs:42-58 | The loop computes that outcome and leaves that word. |
| AdmissionGate.AdmissionGate.Close | src/internal/admission_gate.rs:64-66 | Afterwards the gate is closed with the same entrants. |
| AdmissionGate.AdmissionGate.Leave | src/internal/admission_gate.rs:75-79 | One entrant less, closed bit untouched, true exactly for the last. |
| AdmissionGate.CountBits | src/internal/admission_gate.rs:12-13 | Masking the count out of a 64-bit word is the arithmetic the model uses. |
| AdmissionGate.ClosedBit | src/internal/admission_gate.rs:12-13 | Testing the closed bit is the comparison the model uses. |
| AdmissionGate.ClosingBits | src/internal/admission_gate.rs:64-66 | Setting the closed bit adds it exactly when it was clear. |
| PoolAccounting.PoolAccounting.ClaimQueuedJob | src/internal/pool_accounting.rs:153-160 | Moves one job, counter by counter, from taken out of the queue to held by a worker. |
| PoolAccounting.PoolAccounting.FinishCancelledJob | src/internal/pool_accounting.rs:172-177 | Moves one job from its cancel callback to its end. |
| PoolAccounting.PoolAccounting.TryReserveBoundedSlot | src/internal/pool_accounting.rs:118-130 | Reserves exactly when there is room, else changes nothing. |
| PoolAccounting.PoolAccounting.ReserveWorkerHandoffSlot | src/internal/pool_accounting.rs:133-135 | Reserves regardless of the capacity. |
| PoolAccounting.PoolAccounting.RollbackReservedSlot | src/internal/pool_accounting.rs:139-142 | Moves one job from failed acceptance to its end. |
| PoolAccounting.PoolAccounting.PublishAcceptedJob | src/internal/pool_accounting.rs:146-149 | Moves one job from accepted to queued. |
| PoolAccounting.PoolAccounting.BeginCancelQueuedJob | src/internal/pool_accounting.rs:164-168 | Moves one job from taken to cancelling, keeping its slot. |
| PoolAccounting.PoolAccounting.FinishRunningJob | src/internal/pool_accounting.rs:181-185 | Moves one job from its run callback to its end. |
| PoolAccounting.TransfersCompose | src/internal/pool_accounting.rs:118-185 | Consecutive moves of one job add up to one move. |
| PoolAccounting.WholeRun | src/internal/pool_accounting.rs:118-185 | Calling reserve, publish, claim and finish on the object leaves one more submitted and one more completed job and every other counter as it was; without room nothing changes. |
| PoolAccounting.WholeCancellation | src/internal/pool_accounting.rs:118-177 | Calling reserve, publish and the two halves of a cancellation leaves one more submitted and one more cancelled job, nothing else. |
| PoolAccounting.FailedSubmission | src/internal/pool_accounting.rs:118-142 | Reserving, in either way, and rolling back after a failed acceptance leaves every counter as it was. |
| QueuedJob.QueuedJob.TakeQueued | src/pool_job/internal/queued_job.rs:74-83 | Hands the callbacks out if and only if the entry is queued, and writes any other state back. |
| QueuedJob.QueuedJob.Reserve | src/pool_job_ticket.rs:70-80 | Grants one cancellation request during acceptance, and never to the accepting thread itself. |
| QueuedJob.QueuedJob.Settle | src/dynamic/thread_pool_inner.rs:354-372 | After acceptance the entry is queued, or withheld if and only if a ticket asked. |
| QueuedJob.TakenOnce | src/pool_job/internal/queued_job_state.rs:13-36 | No history of entry moves hands the callbacks out twice or queues an entry withheld for a ticket. |
| DynamicQueue.RemovableQueue.TryTake | src/dynamic/thread_pool_inner.rs:634-648 | Takes the head, its callbacks and its accounting unless stopped or empty, and then nothing. |
| DynamicQueue.RemovableQueue.CancelQueued | src/dynamic/thread_pool_inner.rs:393-412 | Wins exactly when the entry is listed, removes it alone, and carries the cancellation through. |
| DynamicQueue.RemovableQueue.DrainVisible | src/dynamic/thread_pool_inner.rs:713-726 | Returns all listed jobs in order with their callbacks taken and their cancellations begun, and empties the queue. |
| DynamicQueue.RemoveAt | src/dynamic/thread_pool_inner.rs:399-407 | Cutting at the found position removes the first occurrence and nothing else. |
| DynamicQueue.ClaimRegion | src/dynamic/thread_pool_inner.rs:634-648 | Uninterrupted, the machine's steps under the queue lock do what TryTake does. |
| DynamicQueue.SeekRegion | src/dynamic/thread_pool_inner.rs:393-409 | Uninterrupted, a ticket's steps under the queue lock do what CancelQueued does before its callback. |
| DynamicQueue.StepsTransfer | src/internal/pool_accounting.rs:118-185 | In every reachable step the counters move exactly as the job moves along its stages. |
| SubmitGuard.Depart | src/dynamic/thread_pool_inner/internal/thread_pool_submit_guard.rs:19-23 | Leaves admission and notifies exactly when nobody is left and the gate is closed or a join waits. |
| SubmitGuard.DepartRegion | src/dynamic/thread_pool_inner.rs:279-283 | Uninterrupted, the machine's departure steps do the same. |
| FixedOutcomes.OneOutcome | src/fixed/fixed_thread_pool_inner.rs:321-390 | With the unlocked check, steal, check claim and any number of stops: acceptance at most once, run and cancel together at most once and only after it. |
| FixedOutcomes.OnlyTakerCallsBack | src/fixed/fixed_thread_pool_inner.rs:356-380 | Only the one thread that stole a job calls its run or cancel callback, and neither was called before. |
| FixedOutcomes.TakerAndEndAreFinal | src/fixed/fixed_thread_pool_inner.rs:508-574 | Whoever stole a job first keeps it, and an ended job stays as it ended. |
| FixedIdle.IdleCheckSound | src/internal/pool_accounting.rs:206-211 | The four-load idle check is right for the fixed pool too: after three zeros at three moments every submission begun before its first load has ended. |
| FixedIdle.JoinWaitsForEarlierWork | src/fixed/fixed_thread_pool_inner.rs:465-473 | A returned join leaves no submission unfinished that had passed its admission test before the join was called. |
| FixedTermination.CheckSeesTermination | src/fixed/fixed_thread_pool_inner.rs:624-637 | The last load of a termination check reads zero exactly when all its conditions hold at that very moment. |
| FixedTermination.TerminationIsPermanent | src/fixed/fixed_thread_pool_inner.rs:624-626 | Once those conditions hold at one moment they hold at every later moment. |
| FixedTermination.ReportedTermination | src/fixed/fixed_thread_pool_inner.rs:427-429 | A termination wait that has returned was right, then and for ever: counters balance, the queue is empty, every job has ended and no worker is live or has its hook still to run. |
| FixedTermination.IdleIsExact | src/fixed/fixed_thread_pool_inner.rs:366-396 | Whenever the four counts of the idle test are zero at one moment, submitted equals completed plus cancelled, the queue is empty and every job has ended. |
| FixedOutcomes.CapacityHolds | src/fixed/fixed_thread_pool_inner.rs:189-220 | A bounded fixed pool never has more slots in use than its capacity. |
| FixedWaking.NoLostWorkerWakeup | src/fixed/fixed_thread_pool_inner.rs:230-263 | The wake-up guarantee of the dynamic pool, for the fixed pool's spinning and sleeping workers. |
| FixedWaiters.NoWaiterForgotten | src/fixed/fixed_thread_pool_inner.rs:465-574 | The waiter guarantee of the dynamic pool, with a witness that is awake, for the fixed pool's join, stop, termination waits and draining workers. |
| FixedWaiters.ComingArrives | src/fixed/fixed_thread_pool_inner.rs:277-316 | Such a witness is at most eight steps of its own from notify_all and takes no other turn. |
| FixedShutdown.WorkersServeWhileRunning | src/fixed/fixed_worker.rs:89-131 | Every worker created with the pool is still in its loop, neither leaving nor finished, as long as the pool runs. |
| FixedShutdown.ExitMissesOnlyInWindow | src/fixed/fixed_worker.rs:113-119 | A job still queued when a worker takes the ShuttingDown exit was published, and its submitter departed, between that worker's two loads. |
| FixedShutdown.StrandedOnlyThroughWindow | src/fixed/fixed_worker.rs:113-125 | If no worker of a shut-down pool serves any more while an accepted job waits, its last serving worker took that exit and missed the job between its two loads. |
| FixedShutdown.StrandedExactly | src/fixed/fixed_worker.rs:113-125 | In a shut-down pool a waiting job has nobody to serve it if and only if the last serving worker missed it in that way and serves no more. |
| FixedShutdown.OtherOrderNeverStrands | src/fixed/fixed_worker.rs:113-119 | With the in-flight count loaded before the queued count no run strands a job. |
| FixedShutdown.NobodyInFlightNobodyStranded | src/fixed/fixed_thread_pool_inner.rs:476-483 | If nobody is in flight once shutdown has closed admission and before it moves the lifecycle, no later state strands a job. |
| FixedStranding.ShutdownCanStrand | src/fixed/fixed_worker.rs:113-119 | There is a run of one worker, one submission and one shutdown that ends with an accepted job in the queue and nobody to serve it. |
| FixedStranding.NeverServed | src/fixed/fixed_thread_pool_inner.rs:321-360 | Once nobody serves, that stays so and no job queued then is ever run. |
| DynamicInvariant.AlwaysInv | src/dynamic/thread_pool_inner.rs:328-412 | In every state of every run: each lock's owner is where the source says it is, each job is in exactly one place, entries, callbacks and stages agree, and every counter counts what it should. |
| DynamicLifecycle.AlwaysKnowledge | src/dynamic/thread_pool_worker.rs:99-158 | What each thread has learnt of the lifecycle and the sizes at its position still holds there. |
| FixedInvariant.AlwaysInv | src/fixed/fixed_thread_pool_inner.rs:189-390 | The same for the fixed pool. |

## Left out

- Weak memory: atomics are sequentially consistent; compare-exchange retries are kept as a loop only in the gate.
- Counter width: only the gate's word has a width; the other counters are unbounded, and their overflow is not modelled.
- DynamicInvariant.AlwaysInv: runs start from an empty queue and no threads; construction itself is not modelled.
- FixedInvariant.AlwaysInv: runs start with every worker created; a spawn failure while building the pool is not modelled.
- FixedWaking.NoLostWorkerWakeup: the spin phase probes for a nondeterministic time instead of 256 rounds, and is skipped nondeterministically instead of by pool size.
- PoolAccounting.PoolAccounting.ClaimQueuedJob: the object's methods run alone; interleaving between their atomic operations is what the pool machines model.
- DynamicQueue.RemovableQueue.CancelQueued: the entries are values in a map, so aliasing between an entry's ticket and the queue is not modelled there; the machine has it.
- Fixed pool: report attribution is proved for the dynamic pool only; the fixed pool's `StopReport` arithmetic over best-effort snapshots promises no equality.
- Statistics and counter snapshots: documented as independent loads.
- Time: `keep_alive` values and clocks; a worker's timed wait may time out at any moment.
- `wait_for_termination_timeout`: not modelled; only the untimed termination wait is, and of all waits only a worker's keep-alive wait times out.
- Panics and capture destructors: a callback succeeds or fails; containment by the source is taken for granted.
- Worker and task hooks: only the moment at which they run, with no lock held, is modelled.
- Tickets and prepared jobs of another pool, and a ticket whose pool is gone: validation that only returns early.
- `async-wait` channels, facades, builders, thread names and stack sizes: forwarding and validation.
- `crossbeam-deque`, `qubit-lock`, `qubit-executor`: not part of this model; the injector is a FIFO with atomic push and steal, the monitor a lock with a wait set.
