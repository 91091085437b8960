/** The dynamic pool as an interleaving of atomic steps.
    Each step performs at most one access to an atomic variable; state under a lock is
    touched only by the lock's owner; releasing a lock is folded into the step before it. */
module DynamicPool {
  import opened PoolTypes
  import opened PoolAccounting
  import opened PoolShared

  /** src/pool_job/internal/queued_job_state.rs; `NoEntry` is an ordinary job before its entry exists. */
  datatype Entry =
    | NoEntry
    | Prepared
    | Accepting(owner: nat, requested: bool)
    | EntryQueued
    | EntryTaken
    | EntryCancelling
    | EntryCancelled
    | EntryRejected

  datatype Job = Job(
    ticketed: bool,
    thread: nat,               // thread that submits the job
    entry: Entry,
    entryLock: Option<Pid>,
    entryParked: set<Pid>,     // threads asleep on the entry's condition variable
    result: SubmitResult,
    // callback calls made so far
    accepts: nat,
    runs: nat,
    cancels: nat,
    // history
    stage: Stage,
    holder: Option<Pid>,       // thread the job is currently in the hands of
    handoff: bool,             // slot reserved for a freshly spawned worker
    reservedBy: Option<Pid>,   // ticket that requested cancellation during acceptance
    cancelledBy: Option<Pid>)  // ticket or stop the cancellation is credited to

  /** Where a shared subroutine returns to. */
  datatype Ret =
    | RetWake                                  // wake_one_idle_worker
    | RetReject                                // failed acceptance
    | RetReserved                              // cancellation by the submitter
    | RetDepart                                // notify_submitter_departure
    | RetLoop                                  // finish_running_job
    | RetTicket(j: Pid)                        // cancel_queued_entry
    | RetStop(rest: seq<Pid>, total: nat)      // stop's cancellation loop
    | RetStopEnd(total: nat)
    | RetSpawn(forJob: bool)                   // the remaining four check under the monitor
    | RetUnregister
    | RetExit
    | RetJoin
    | RetTerm

  datatype SizeOp = SetCore(n: nat) | SetMax(n: nat) | AllowCoreTimeout(allow: bool)
  {
    predicate Refused(pool: PoolState) {
      (SetCore? && n > pool.max) || (SetMax? && pool.core > n)
    }

    function Apply(pool: PoolState): PoolState {
      match this
      case SetCore(n) => pool.(core := n)
      case SetMax(n) => pool.(max := n)
      case AllowCoreTimeout(allow) => pool.(coreTimeout := allow)
    }
  }

  datatype Outcome =
    | Submit | Unit | Resized(ok: bool) | Ticket(won: bool, j: Pid) | Stopped(total: nat) | Joined(seen: set<Pid>)
    | SawTermination

  datatype SubPc = Enter | SubLock | Decide | Slot | Discard(entered: bool) | WakeLoad | WakeToken(idle: int)
                 | Leave | LeaveOpen | LeaveWaiters
  datatype GrowPc = PreLock | PreDecide | Reserve(forJob: bool) | Spawn(forJob: bool) | CountUp(forJob: bool)
                  | Handoff | FailNotify(forJob: bool)
  datatype AccPc = MarkLock | Mark | Call | Rollback | RejectLock | RejectMark | RejectNotify
  datatype PubPc = QueueLock | CountSubmitted | CountQueued | EntryLock | Settle | Push
  datatype CutPc = Uncount | CountCancelling | ReleaseEntry | ReleaseQueue | DoneLock | DoneMark | DoneNotify
  datatype TakePc = Start | TakeLock | TakeStop | TakePop | TakeEntryLock(j: Pid) | TakeEntry(j: Pid)
                  | ClaimQueued(j: Pid) | ClaimRun(j: Pid) | ClaimSlot(j: Pid) | TakeRelease(j: Pid)
  datatype RunPc = RunCall | EndCompleted | EndRunning
  datatype IdlePc = IdleLock | Branch | Shrink | IdleLock2 | Mode | MarkIdle(timed: bool) | SeeQueued(timed: bool)
                  | SeePending(timed: bool) | Park(timed: bool) | Parked(timed: bool, timedOut: bool)
                  | RetireQueued | RetirePending | RetireInflight | Unmark(retire: bool) | Consume(retire: bool)
  datatype DrainPc = ExitQueued | ExitInflight(at: Past) | ExitInflight1 | ExitQueued2(noInflight: bool) | DrainMark
                   | DrainQueued | DrainInflight | DrainPark | DrainParked
  datatype ExitPc = Unregister | UncountLive | UnregisterNotify | Hook | ExitLock | ExitMark | ExitNotify
  datatype FinPc = CancelCall | CountCancelled | UncountCancelling | ReleaseSlot
  datatype StopPc = StopClose | StopFlag | StopLock | StopLife | StopTest | StopWaitAdd | StopWait | StopPark
                  | StopParked
                  | StopWaitSub | StopRunning | StopQueueLock | StopNotify(list: seq<Pid>)
  datatype PurgePc = StopPop | StopEntryLock | StopEntry | StopUncount | StopCountCancelling
  datatype WaitPc = ShutClose | ShutLock | ShutLife | ShutNotify
                  | JoinAdd | JoinLock | JoinPark | JoinParked | JoinSub(seen: set<Pid>)
                  | TermLock | TermTest | TermPark | TermParked
                  | SizeLock(op: SizeOp) | SizeSet(op: SizeOp) | SizeNotify
  datatype LookPc = LookLock | LookEntry | AwaitParked | AwaitLook
  datatype FindPc = FindLock | FindEntry | TicketLock | TicketTake | TicketUncount | TicketCountCancelling

  datatype Pc =
    | Sub(sub: SubPc)                          // submit and its guard
    | Grow(grow: GrowPc)                       // prestart, reserve_worker_locked, spawn_reserved_worker_locked
    | Acc(acc: AccPc)                          // accept_and_enqueue_reserved_job: acceptance
    | Pub(pub: PubPc)                          // accept_and_enqueue_reserved_job: publication
    | Cut(cut: CutPc)                          // accept_and_enqueue_reserved_job: reserved cancellation
    | Work(work: TakePc)                       // try_take_queued_job, claim_queued_job
    | Run(run: RunPc, held: Pid)               // the claimed job, then finish_running_job
    | Idle(idle: IdlePc)                       // wait_for_job, Running branch
    | Drain(drain: DrainPc)                    // wait_for_job, ShuttingDown branch
    | Exit(exit: ExitPc)                       // unregister_exiting_worker, finish_worker_exit
    | Fin(fin: FinPc, job: Pid, ret: Ret)      // cancel callback and finish_cancelled_job
    | Check(loads: Loads, ret: Ret)            // is_idle
    | NotifyLock(ret: Ret)                     // notify_waiters_after_atomic_change
    | NotifyAll(ret: Ret)
    | Stop(stop: StopPc)
    | Purge(purge: PurgePc, list: seq<Pid>, last: Pid)  // drain_visible_queued_jobs
    | Wait(wait: WaitPc)                       // shutdown, join, termination waits, resizing
    | Look(look: LookPc, target: Pid, thread: nat)      // PoolJobTicket::cancel_queued
    | Find(find: FindPc, target: Pid)                   // cancel_queued_entry
    | Done(outcome: Outcome)
    | Dead

  /** What a step leaves behind: shared state, the job it works on, and its own next position. */
  datatype Step = Step(sh: Shared, job: Job, pc: Pc)

  // ----- helpers

  const NO_JOB := Job(false, 0, NoEntry, None, {}, Pending, 0, 0, 0, New, Some(0), false, None, None)

  function Reject(job: Job, r: SubmitResult): Job { job.(stage := Rejected, holder := None, result := r) }

  /** Callback ownership moves out of the entry (`take_queued`). */
  function TakeQueued(job: Job, p: Pid): Job {
    job.(entry := EntryTaken, entryLock := None, stage := Taken, holder := Some(p))
  }

  function RemoveFirst(s: seq<Pid>, j: Pid): seq<Pid> {
    if s == [] then [] else if s[0] == j then s[1..] else [s[0]] + RemoveFirst(s[1..], j)
  }

  function AcceptStart(job: Job): Pc { if job.ticketed then Acc(MarkLock) else Acc(Call) }

  function StopNext(list: seq<Pid>, total: nat): Pc {
    if list == [] then NotifyLock(RetStopEnd(total)) else Fin(CancelCall, list[0], RetStop(list[1..], total))
  }

  /** Continuation of a subroutine that ran outside the monitor. */
  function After(ret: Ret): Pc {
    match ret
    case RetWake => Sub(Leave)
    case RetReject => Sub(Discard(true))
    case RetReserved => Cut(DoneLock)
    case RetDepart => Done(Submit)
    case RetLoop => Work(TakeLock)
    case RetTicket(j) => Done(Ticket(true, j))
    case RetStop(rest, total) => StopNext(rest, total)
    case RetStopEnd(total) => Done(Stopped(total))
    case _ => Dead
  }

  predicate InMonitor(ret: Ret) {
    ret.RetSpawn? || ret.RetUnregister? || ret.RetExit? || ret.RetJoin? || ret.RetTerm?
  }

  // ----- steps
  // `job` is the record of the job the thread works on; `ok` resolves callbacks and thread creation.

  function SubStep(sh: Shared, p: Pid, job: Job, pc: SubPc): Step {
    match pc
    case Enter =>
      if sh.gate.closed then Step(sh, Reject(job, Shutdown), Sub(Discard(false)))
      else Step(sh.(gate := sh.gate.(inflight := sh.gate.inflight + 1)), job, Sub(SubLock))
    case SubLock => Step(Lock(sh, p), job, Sub(Decide))
    case Decide =>
      if sh.mon.pool.life != Running then Step(Unlock(sh), Reject(job, Shutdown), Sub(Discard(true)))
      else if sh.mon.pool.live < sh.mon.pool.core || sh.mon.pool.live == 0 then Step(sh, job, Grow(Reserve(true)))
      else Step(sh, job, Sub(Slot))
    case Slot =>
      if sh.acct.HasRoom(sh.cfg.capacity) then
        Step(Unlock(Count(sh, Slots, 1)), job.(stage := Reserved), AcceptStart(job))
      else if sh.mon.pool.live < sh.mon.pool.max then Step(sh, job, Grow(Reserve(true)))
      else Step(Unlock(sh), Reject(job, Saturated), Sub(Discard(true)))
    case Discard(entered) => Step(sh, job, if entered then Sub(Leave) else Done(Submit))
    case WakeLoad => Step(sh, job, if sh.wake.idle == 0 then Sub(Leave) else Sub(WakeToken(sh.wake.idle)))
    case WakeToken(idle) =>
      if sh.wake.pending < idle then
        Step(sh.(wake := sh.wake.(pending := sh.wake.pending + 1)), job, NotifyLock(RetWake))
      else Step(sh, job, Sub(Leave))
    case Leave =>
      Step(sh.(gate := sh.gate.(inflight := sh.gate.inflight - 1)), job,
           if sh.gate.inflight == 1 then Sub(LeaveOpen) else Done(Submit))
    case LeaveOpen => Step(sh, job, if sh.gate.closed then NotifyLock(RetDepart) else Sub(LeaveWaiters))
    case LeaveWaiters => Step(sh, job, if sh.tally.idleWaiters > 0 then NotifyLock(RetDepart) else Done(Submit))
  }

  /** Where a spawn path goes when it gives up. */
  function GiveUp(forJob: bool): Pc { if forJob then Sub(Discard(true)) else Done(Unit) }

  function GrowStep(sh: Shared, p: Pid, job: Job, pc: GrowPc, ok: bool): Step {
    var pool := sh.mon.pool;
    match pc
    case PreLock => Step(Lock(sh, p), job, Grow(PreDecide))
    case PreDecide =>
      if pool.life != Running || pool.live >= pool.core then Step(Unlock(sh), job, Done(Unit))
      else Step(sh, job, Grow(Reserve(false)))
    case Reserve(forJob) => Step(SetPool(sh, pool.(live := pool.live + 1)), job, Grow(Spawn(forJob)))
    case Spawn(forJob) =>
      if ok then Step(sh, job, Grow(CountUp(forJob)))
      else Step(SetPool(sh, pool.(live := pool.live - 1)),
                if forJob then Reject(job, SpawnFailed) else job, Check(Load0, RetSpawn(forJob)))
    case CountUp(forJob) =>
      var sh1 := sh.(tally := sh.tally.(live := sh.tally.live + 1));
      if forJob then Step(sh1, job, Grow(Handoff)) else Step(Unlock(sh1), job, Done(Unit))
    case Handoff =>
      Step(Unlock(Count(sh, Slots, 1)), job.(stage := Reserved, handoff := true), AcceptStart(job))
    case FailNotify(forJob) => Step(NotifyUnlock(sh), job, GiveUp(forJob))
  }

  function AccStep(sh: Shared, p: Pid, job: Job, pc: AccPc, ok: bool): Step {
    match pc
    case MarkLock => Step(sh, job.(entryLock := Some(p)), Acc(Mark))
    case Mark => Step(sh, job.(entry := Accepting(job.thread, false), entryLock := None), Acc(Call))
    case Call =>
      Step(sh, job.(accepts := job.accepts + 1, stage := if ok then AcceptedOk else AcceptFailed),
           if ok then Pub(QueueLock) else Acc(Rollback))
    case Rollback =>
      Step(Count(sh, Slots, -1), job.(stage := Refused, holder := None, result := AcceptancePanicked),
           if job.ticketed then Acc(RejectLock) else NotifyLock(RetReject))
    case RejectLock => Step(sh, job.(entryLock := Some(p)), Acc(RejectMark))
    case RejectMark => Step(sh, job.(entry := EntryRejected, entryLock := None), Acc(RejectNotify))
    case RejectNotify => Step(sh, job.(entryParked := {}), NotifyLock(RetReject))
  }

  function PubStep(sh: Shared, p: Pid, job: Job, pc: PubPc): Step {
    match pc
    case QueueLock => Step(LockQueue(sh, p), job, Pub(CountSubmitted))
    case CountSubmitted => Step(Count(sh, SubmittedTasks, 1), job.(stage := Submitted), Pub(CountQueued))
    case CountQueued =>
      Step(Count(sh, Queued, 1), job.(stage := Counted), Pub(if job.ticketed then EntryLock else Push))
    case EntryLock => Step(sh, job.(entryLock := Some(p)), Pub(Settle))
    case Settle =>
      if job.entry.Accepting? && job.entry.requested then
        Step(sh, job.(entry := EntryCancelling, cancelledBy := job.reservedBy), Cut(Uncount))
      else Step(sh, job.(entry := EntryQueued, entryLock := None), Pub(Push))
    case Push =>
      Step(sh.(queue := sh.queue.(owner := None, items := sh.queue.items + [p], pushed := sh.queue.pushed + [p])),
           job.(entry := EntryQueued, stage := InQueue, holder := None, result := Accepted), Sub(WakeLoad))
  }

  function CutStep(sh: Shared, p: Pid, job: Job, pc: CutPc): Step {
    match pc
    case Uncount => Step(Count(sh, Queued, -1), job.(stage := Uncounted), Cut(CountCancelling))
    case CountCancelling => Step(Count(sh, CancellingTasks, 1), job.(stage := Cancelling), Cut(ReleaseEntry))
    case ReleaseEntry => Step(sh, job.(entryLock := None), Cut(ReleaseQueue))
    case ReleaseQueue => Step(UnlockQueue(sh), job, Fin(CancelCall, p, RetReserved))
    case DoneLock => Step(sh, job.(entryLock := Some(p)), Cut(DoneMark))
    case DoneMark => Step(sh, job.(entry := EntryCancelled, entryLock := None), Cut(DoneNotify))
    case DoneNotify => Step(sh, job.(entryParked := {}, result := Accepted), Sub(Leave))
  }

  function TakeStep(sh: Shared, p: Pid, job: Job, pc: TakePc): Step {
    match pc
    case Start => Step(sh, job, Work(TakeLock))
    case TakeLock => Step(LockQueue(sh, p), job, Work(TakeStop))
    case TakeStop => if sh.stop then Step(UnlockQueue(sh), job, Idle(IdleLock)) else Step(sh, job, Work(TakePop))
    case TakePop =>
      if sh.queue.items == [] then Step(UnlockQueue(sh), job, Idle(IdleLock))
      else Step(PopQueue(sh), job.(stage := Popped, holder := Some(p)), Work(TakeEntryLock(sh.queue.items[0])))
    case TakeEntryLock(j) => Step(sh, job.(entryLock := Some(p)), Work(TakeEntry(j)))
    case TakeEntry(j) =>
      if job.entry.EntryQueued? then Step(sh, TakeQueued(job, p), Work(ClaimQueued(j)))
      else Step(UnlockQueue(sh), job.(entryLock := None), Idle(IdleLock))
    case ClaimQueued(j) => Step(Count(sh, Queued, -1), job.(stage := ClaimUncounted), Work(ClaimRun(j)))
    case ClaimRun(j) =>
      Step(Count(sh, RunningTasks, 1).(queue := sh.queue.(claimed := sh.queue.claimed + [j])),
           job.(stage := ClaimRunning), Work(ClaimSlot(j)))
    case ClaimSlot(j) => Step(Count(sh, Slots, -1), job.(stage := Held), Work(TakeRelease(j)))
    case TakeRelease(j) => Step(UnlockQueue(sh), job, Run(RunCall, j))
  }

  function RunStep(sh: Shared, job: Job, pc: RunPc, j: Pid): Step {
    match pc
    case RunCall => Step(sh, job.(runs := job.runs + 1, stage := Ran), Run(EndCompleted, j))
    case EndCompleted => Step(Count(sh, CompletedTasks, 1), job.(stage := RanCounted), Run(EndRunning, j))
    case EndRunning =>
      Step(Count(sh, RunningTasks, -1), job.(stage := Completed, holder := None), Check(Load0, RetLoop))
  }

  /** The Running branch of `wait_for_job`. */
  function IdleStep(sh: Shared, p: Pid, pc: IdlePc): (r: (Shared, Pc)) {
    var pool := sh.mon.pool;
    match pc
    case IdleLock => (Lock(sh, p), Idle(Branch))
    case Branch =>
      (sh, match pool.life
           case Running => Idle(Shrink)
           case ShuttingDown => Drain(if sh.cfg.inflightFirst then ExitInflight1 else ExitQueued)
           case _ => Exit(Unregister))
    case Shrink =>
      if sh.acct.queued == 0 && pool.live > pool.max && pool.live > 0 then (sh, Exit(Unregister))
      else (Unlock(sh), Idle(IdleLock2))
    case IdleLock2 => (Lock(sh, p), Idle(Mode))
    case Mode =>
      if pool.life == Running then (sh, Idle(MarkIdle(pool.WaitIsTimed()))) else (Unlock(sh), Work(TakeLock))
    case MarkIdle(timed) => (MarkIdleAt(sh, 1), Idle(SeeQueued(timed)))
    case SeeQueued(timed) => (sh, Idle(if sh.acct.queued == 0 then SeePending(timed) else Unmark(false)))
    case SeePending(timed) => (sh, Idle(if sh.wake.pending > 0 then Unmark(false) else Park(timed)))
    case Park(timed) => (ParkUnlock(sh, p), Idle(Parked(timed, false)))
    case Parked(timed, timedOut) => (Lock(sh, p), Idle(if timed && timedOut then RetireQueued else Unmark(false)))
    case RetireQueued => (sh, Idle(if sh.acct.queued == 0 then RetirePending else Unmark(false)))
    case RetirePending => (sh, Idle(if sh.wake.pending > 0 then Unmark(false) else RetireInflight))
    case RetireInflight => (sh, Idle(Unmark((pool.live > 1 || sh.gate.inflight == 0) && pool.IdleCanRetire())))
    case Unmark(retire) => (MarkIdleAt(sh, -1), Idle(Consume(retire)))
    case Consume(retire) =>
      var sh1 := sh.(wake := sh.wake.(pending := if sh.wake.pending > 0 then sh.wake.pending - 1 else sh.wake.pending));
      if retire then (sh1, Exit(Unregister)) else (Unlock(sh1), Work(TakeLock))
  }

  /** The ShuttingDown branch of `wait_for_job`; the first two cases are the source's order of loads,
      the next two the opposite order. */
  function DrainStep(sh: Shared, p: Pid, pc: DrainPc, past: Past): (r: (Shared, Pc)) {
    match pc
    case ExitQueued =>
      if sh.acct.queued == 0 then (sh, Drain(ExitInflight(past))) else (Unlock(sh), Work(TakeLock))
    case ExitInflight(_) => (sh, if sh.gate.inflight == 0 then Exit(Unregister) else Drain(DrainMark))
    case ExitInflight1 => (sh, Drain(ExitQueued2(sh.gate.inflight == 0)))
    case ExitQueued2(noInflight) =>
      if sh.acct.queued != 0 then (Unlock(sh), Work(TakeLock))
      else (sh, if noInflight then Exit(Unregister) else Drain(DrainMark))
    case DrainMark => (MarkIdleAt(sh, 1), Drain(DrainQueued))
    case DrainQueued => (sh, if sh.acct.queued == 0 then Drain(DrainInflight) else Idle(Unmark(false)))
    case DrainInflight => (sh, if sh.gate.inflight > 0 then Drain(DrainPark) else Idle(Unmark(false)))
    case DrainPark => (ParkUnlock(sh, p), Drain(DrainParked))
    case DrainParked => (Lock(sh, p), Idle(Unmark(false)))
  }

  function ExitStep(sh: Shared, p: Pid, pc: ExitPc): (r: (Shared, Pc)) {
    var pool := sh.mon.pool;
    match pc
    case Unregister => (SetPool(sh, pool.(exiting := pool.exiting + 1, live := pool.live - 1)), Exit(UncountLive))
    case UncountLive =>
      var sh1 := sh.(tally := sh.tally.(live := sh.tally.live - 1));
      if pool.Quiet() then (sh1, Check(Load0, RetUnregister)) else (Unlock(sh1), Exit(Hook))
    case UnregisterNotify => (NotifyUnlock(sh), Exit(Hook))
    case Hook => (sh, Exit(ExitLock))
    case ExitLock => (Lock(sh, p), Exit(ExitMark))
    case ExitMark =>
      var pool1 := pool.(exiting := pool.exiting - 1);
      (SetPool(sh, pool1), if pool1.Quiet() then Check(Load0, RetExit) else Exit(ExitNotify))
    case ExitNotify => (NotifyUnlock(sh), Dead)
  }

  function FinStep(sh: Shared, job: Job, pc: FinPc, j: Pid, ret: Ret): Step {
    match pc
    case CancelCall => Step(sh, job.(cancels := job.cancels + 1, stage := CancelCalled), Fin(CountCancelled, j, ret))
    case CountCancelled =>
      Step(Count(sh, CancelledTasks, 1), job.(stage := CancelCounted), Fin(UncountCancelling, j, ret))
    case UncountCancelling =>
      Step(Count(sh, CancellingTasks, -1), job.(stage := CancelClosed), Fin(ReleaseSlot, j, ret))
    case ReleaseSlot => Step(Count(sh, Slots, -1), job.(stage := Cancelled, holder := None), Check(Load0, ret))
  }

  /** One load of `is_idle`. */
  function CheckStep(sh: Shared, loads: Loads, ret: Ret, past: Past): (r: (Shared, Pc)) {
    match loads
    case Load0 => if sh.gate.inflight == 0 then (sh, Check(Load1(past.begun), ret)) else NotIdle(sh, ret)
    case Load1(seen) => if sh.acct.slots == 0 then (sh, Check(Load2(seen), ret)) else NotIdle(sh, ret)
    case Load2(seen) => if sh.acct.running == 0 then (sh, Check(Load3(seen), ret)) else NotIdle(sh, ret)
    case Load3(seen) => if sh.acct.cancelling == 0 then IsIdle(sh, seen, ret) else NotIdle(sh, ret)
  }

  function NotIdle(sh: Shared, ret: Ret): (r: (Shared, Pc)) {
    match ret
    case RetSpawn(forJob) => (Unlock(sh), GiveUp(forJob))
    case RetUnregister => (Unlock(sh), Exit(Hook))
    case RetExit => (sh, Exit(ExitNotify))
    case RetJoin => (sh, Wait(JoinPark))
    case RetTerm => (sh, Wait(TermPark))
    case _ => (sh, After(ret))
  }

  function IsIdle(sh: Shared, seen: set<Pid>, ret: Ret): (r: (Shared, Pc)) {
    match ret
    case RetSpawn(forJob) => (sh, Grow(FailNotify(forJob)))
    case RetUnregister => (sh, Exit(UnregisterNotify))
    case RetExit => (sh, Exit(ExitNotify))
    case RetJoin => (sh, Wait(JoinSub(seen)))
    case RetTerm => (Unlock(sh), Done(SawTermination))
    case _ => (sh, NotifyLock(ret))
  }

  function NotifyStep(sh: Shared, p: Pid, all: bool, ret: Ret): (r: (Shared, Pc)) {
    if all then (NotifyUnlock(sh), After(ret)) else (Lock(sh, p), NotifyAll(ret))
  }

  /** `stop` up to the point where it owns the queue lock. */
  function StopStep(sh: Shared, p: Pid, pc: StopPc): (r: (Shared, Pc)) {
    match pc
    case StopClose => (sh.(gate := sh.gate.(closed := true)), Stop(StopFlag))
    case StopFlag => (sh.(stop := true), Stop(StopLock))
    case StopLock => (Lock(sh, p), Stop(StopLife))
    case StopLife => (SetPool(sh, sh.mon.pool.(life := AfterStop(sh.mon.pool.life))).(stop := true), Stop(StopTest))
    case StopTest => (sh, Stop(if sh.gate.inflight > 0 then StopWaitAdd else StopRunning))
    case StopWaitAdd => (sh.(tally := sh.tally.(submitWaiters := sh.tally.submitWaiters + 1)), Stop(StopWait))
    case StopWait => (sh, Stop(if sh.gate.inflight > 0 then StopPark else StopWaitSub))
    case StopPark => (ParkUnlock(sh, p), Stop(StopParked))
    case StopParked => (Lock(sh, p), Stop(StopWait))
    case StopWaitSub => (sh.(tally := sh.tally.(submitWaiters := sh.tally.submitWaiters - 1)), Stop(StopRunning))
    case StopRunning => (sh, Stop(StopQueueLock))
    case StopQueueLock => (LockQueue(sh, p), Purge(StopPop, [], 0))
    case StopNotify(list) => (NotifyUnlock(sh), StopNext(list, |list|))
  }

  /** `drain_visible_queued_jobs`; `j` is the entry popped last. */
  function PurgeStep(sh: Shared, p: Pid, job: Job, pc: PurgePc, list: seq<Pid>, j: Pid): Step {
    match pc
    case StopPop =>
      if sh.queue.items == [] then Step(UnlockQueue(sh), job, Stop(StopNotify(list)))
      else Step(PopQueue(sh), job.(stage := Popped, holder := Some(p)), Purge(StopEntryLock, list, sh.queue.items[0]))
    case StopEntryLock => Step(sh, job.(entryLock := Some(p)), Purge(StopEntry, list, j))
    case StopEntry =>
      if job.entry.EntryQueued? then Step(sh, TakeQueued(job, p).(cancelledBy := Some(p)), Purge(StopUncount, list, j))
      else Step(sh, job.(entryLock := None), Purge(StopPop, list, j))
    case StopUncount => Step(Count(sh, Queued, -1), job.(stage := Uncounted), Purge(StopCountCancelling, list, j))
    case StopCountCancelling =>
      Step(Count(sh, CancellingTasks, 1), job.(stage := Cancelling), Purge(StopPop, list + [j], j))
  }

  function WaitStep(sh: Shared, p: Pid, pc: WaitPc): (r: (Shared, Pc)) {
    var pool := sh.mon.pool;
    match pc
    case ShutClose => (sh.(gate := sh.gate.(closed := true)), Wait(ShutLock))
    case ShutLock => (Lock(sh, p), Wait(ShutLife))
    case ShutLife =>
      (SetPool(sh, pool.(life := if pool.life.Running? then ShuttingDown else pool.life)), Wait(ShutNotify))
    case ShutNotify => (NotifyUnlock(sh), Done(Unit))
    case JoinAdd => (sh.(tally := sh.tally.(idleWaiters := sh.tally.idleWaiters + 1)), Wait(JoinLock))
    case JoinLock => (Lock(sh, p), Check(Load0, RetJoin))
    case JoinPark => (ParkUnlock(sh, p), Wait(JoinParked))
    case JoinParked => (Lock(sh, p), Check(Load0, RetJoin))
    case JoinSub(seen) =>
      (Unlock(sh).(tally := sh.tally.(idleWaiters := sh.tally.idleWaiters - 1)), Done(Joined(seen)))
    case TermLock => (Lock(sh, p), Wait(TermTest))
    case TermTest => (sh, if pool.Quiet() then Check(Load0, RetTerm) else Wait(TermPark))
    case TermPark => (ParkUnlock(sh, p), Wait(TermParked))
    case TermParked => (Lock(sh, p), Wait(TermTest))
    case SizeLock(op) => if op == SetMax(0) then (sh, Done(Resized(false))) else (Lock(sh, p), Wait(SizeSet(op)))
    case SizeSet(op) =>
      if op.Refused(pool) then (Unlock(sh), Done(Resized(false)))
      else (Unlock(SetPool(sh, op.Apply(pool))), Wait(SizeNotify))
    case SizeNotify => (sh.(mon := sh.mon.(parked := {})), Done(Resized(true)))
  }

  /** `cancel_queued`: reserve during acceptance and wait, or go on to the queue. */
  function LookStep(sh: Shared, p: Pid, job: Job, pc: LookPc, j: Pid, thread: nat): Step {
    match pc
    case LookLock => Step(sh, job.(entryLock := Some(p)), Look(LookEntry, j, thread))
    case LookEntry =>
      if job.entry.Accepting? then
        if job.entry.owner == thread || job.entry.requested then
          Step(sh, job.(entryLock := None), Done(Ticket(false, j)))
        else Step(sh, job.(entry := Accepting(job.entry.owner, true), reservedBy := Some(p),
                           entryLock := None, entryParked := job.entryParked + {p}),
                  Look(AwaitParked, j, thread))
      else
        Step(sh, job.(entryLock := None), if job.entry.EntryQueued? then Find(FindLock, j) else Done(Ticket(false, j)))
    case AwaitParked => Step(sh, job.(entryLock := Some(p)), Look(AwaitLook, j, thread))
    case AwaitLook =>
      if job.entry.Accepting? || job.entry.EntryCancelling? then
        Step(sh, job.(entryLock := None, entryParked := job.entryParked + {p}), Look(AwaitParked, j, thread))
      else Step(sh, job.(entryLock := None), Done(Ticket(job.entry.EntryCancelled?, j)))
  }

  /** `cancel_queued_entry`. */
  function FindStep(sh: Shared, p: Pid, job: Job, pc: FindPc, j: Pid): Step {
    match pc
    case FindLock => Step(LockQueue(sh, p), job, Find(FindEntry, j))
    case FindEntry =>
      if j in sh.queue.items then Step(sh, job, Find(TicketLock, j))
      else Step(UnlockQueue(sh), job, Done(Ticket(false, j)))
    case TicketLock => Step(sh, job.(entryLock := Some(p)), Find(TicketTake, j))
    case TicketTake =>
      if job.entry.EntryQueued? then
        Step(sh.(queue := sh.queue.(items := RemoveFirst(sh.queue.items, j))),
             TakeQueued(job, p).(cancelledBy := Some(p)), Find(TicketUncount, j))
      else Step(UnlockQueue(sh), job.(entryLock := None), Done(Ticket(false, j)))
    case TicketUncount => Step(Count(sh, Queued, -1), job.(stage := Uncounted), Find(TicketCountCancelling, j))
    case TicketCountCancelling =>
      Step(UnlockQueue(Count(sh, CancellingTasks, 1)), job.(stage := Cancelling), Fin(CancelCall, j, RetTicket(j)))
  }
}
