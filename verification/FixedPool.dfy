/** The fixed pool as an interleaving of atomic steps: the same accounting, gate and wake protocol over an
    injector whose push and steal are atomic, and a claim that no lock covers. */
module FixedPool {
  import opened PoolTypes
  import opened PoolAccounting
  import opened PoolShared

  /** One job; the callbacks belong to whoever holds it, without an entry to guard them. */
  datatype Job = Job(
    result: SubmitResult,
    // callback calls made so far
    accepts: nat, runs: nat, cancels: nat,
    // history
    stage: Stage,
    holder: Option<Pid>,       // thread the job is currently in the hands of
    taker: Option<Pid>)        // thread that stole it from the injector

  /** Where a shared subroutine returns to. */
  datatype Ret =
    | RetWake                  // wake_one_idle_worker
    | RetReject                // failed acceptance
    | RetDepart                // notify_submitter_departure
    | RetLoop                  // finish_running_job
    | RetClaim                 // cancel_claimed_job
    | RetStop(rest: seq<Pid>)  // stop's cancellation loop
    | RetStopEnd
    | RetJoin                  // the last two check under the monitor
    | RetTerm

  datatype SubPc = Enter | Reserve | Discard(entered: bool) | Accept | Rollback | CountSubmitted | CountQueued | Push
                 | WakeLoad | WakeToken(idle: int) | Leave | LeaveOpen | LeaveWaiters
  datatype WorkPc = Start | StopTest | Steal | StopRetest(j: Pid) | ClaimQueued(j: Pid) | ClaimRun(j: Pid)
                  | ClaimSlot(j: Pid) | RunCall(j: Pid) | EndCompleted(j: Pid) | EndRunning(j: Pid) | Uncount(j: Pid)
                  | CountCancelling(j: Pid)
  datatype IdlePc = IdleLock | Branch | SpinQueued | SpinPending | SpinOpen | IdleLock2 | Mode | MarkIdle | SeeQueued
                  | SeePending | Park | Parked | Unmark(retry: bool) | Consume(retry: bool)
                  | ExitInflight(at: Past) | ExitInflight1 | ExitQueued2(noInflight: bool) | DrainMark | DrainQueued
                  | DrainInflight | DrainPark | DrainParked
                  | Hook | ExitLock | ExitLive
  datatype FinPc = CancelCall | CountCancelled | UncountCancelling | ReleaseSlot
  datatype StopPc = StopClose | StopFlag | StopLock | StopLife | StopInflight | StopWaitAdd | StopWait | StopPark
                  | StopParked
                  | StopWaitSub | StopSteal(list: seq<Pid>) | StopUncount(done: seq<Pid>, rest: seq<Pid>)
                  | StopCountCancelling(done: seq<Pid>, rest: seq<Pid>) | StopNotify(list: seq<Pid>)
  datatype WaitPc = ShutClose | ShutLock | ShutLife | ShutNotify | JoinAdd | JoinLock | JoinPark | JoinParked
                  | JoinSub(seen: set<Pid>) | TermLock | TermTest | TermPark | TermParked

  /** What a finished thread leaves known: nothing, the submissions its join covered, or termination. */
  datatype Outcome = Returned | Joined(seen: set<Pid>) | SawTermination

  datatype Pc =
    | Sub(sub: SubPc)                    // submit, enqueue_job and the submit guard
    | Work(work: WorkPc)                 // try_take_job, accept_claimed_job, the job, finish_running_job
    | Idle(idle: IdlePc)                 // wait_for_fixed_pool_work, worker_exited
    | Fin(fin: FinPc, job: Pid, ret: Ret)
    | Check(loads: Loads, ret: Ret)      // is_idle
    | NotifyLock(ret: Ret)
    | NotifyAll(ret: Ret)
    | Stop(stop: StopPc)
    | Wait(wait: WaitPc)                 // shutdown, join, termination waits
    | Done(outcome: Outcome)

  datatype Step = Step(sh: Shared, job: Job, pc: Pc)

  const NO_JOB := Job(Pending, 0, 0, 0, New, Some(0), None)

  predicate InMonitor(ret: Ret) { ret.RetJoin? || ret.RetTerm? }

  function StopNext(list: seq<Pid>): Pc {
    if list == [] then NotifyLock(RetStopEnd) else Fin(CancelCall, list[0], RetStop(list[1..]))
  }

  function After(ret: Ret): Pc {
    match ret
    case RetWake => Sub(Leave)
    case RetReject => Sub(Discard(true))
    case RetDepart => Done(Returned)
    case RetLoop => Work(StopTest)
    case RetClaim => Idle(IdleLock)
    case RetStop(rest) => StopNext(rest)
    case _ => Done(Returned)
  }

  function Reject(job: Job, r: SubmitResult): Job { job.(stage := Rejected, holder := None, result := r) }

  // ----- steps
  // `ok` resolves acceptance callbacks and how long a worker spins.

  function SubStep(sh: Shared, p: Pid, job: Job, pc: SubPc, ok: bool): Step {
    match pc
    case Enter =>
      if sh.gate.closed then Step(sh, Reject(job, Shutdown), Sub(Discard(false)))
      else Step(sh.(gate := sh.gate.(inflight := sh.gate.inflight + 1)), job, Sub(Reserve))
    case Reserve =>
      if sh.acct.HasRoom(sh.cfg.capacity) then Step(Count(sh, Slots, 1), job.(stage := Reserved), Sub(Accept))
      else Step(sh, Reject(job, Saturated), Sub(Discard(true)))
    case Discard(entered) => Step(sh, job, if entered then Sub(Leave) else Done(Returned))
    case Accept =>
      Step(sh, job.(accepts := job.accepts + 1, stage := if ok then AcceptedOk else AcceptFailed),
           Sub(if ok then CountSubmitted else Rollback))
    case Rollback =>
      Step(Count(sh, Slots, -1), job.(stage := Refused, holder := None, result := AcceptancePanicked),
            NotifyLock(RetReject))
    case CountSubmitted => Step(Count(sh, SubmittedTasks, 1), job.(stage := Submitted), Sub(CountQueued))
    case CountQueued => Step(Count(sh, Queued, 1), job.(stage := Counted), Sub(Push))
    case Push =>
      Step(sh.(queue := sh.queue.(items := sh.queue.items + [p])),
           job.(stage := InQueue, holder := None, result := Accepted), Sub(WakeLoad))
    case WakeLoad => Step(sh, job, if sh.wake.idle == 0 then Sub(Leave) else Sub(WakeToken(sh.wake.idle)))
    case WakeToken(idle) =>
      if sh.wake.pending < idle then
        Step(sh.(wake := sh.wake.(pending := sh.wake.pending + 1)), job, NotifyLock(RetWake))
      else Step(sh, job, Sub(Leave))
    case Leave =>
      Step(sh.(gate := sh.gate.(inflight := sh.gate.inflight - 1)), job,
           if sh.gate.inflight == 1 then Sub(LeaveOpen) else Done(Returned))
    case LeaveOpen => Step(sh, job, if sh.gate.closed then NotifyLock(RetDepart) else Sub(LeaveWaiters))
    case LeaveWaiters => Step(sh, job, if sh.tally.idleWaiters > 0 then NotifyLock(RetDepart) else Done(Returned))
  }

  /** A worker checks the stop flag, steals, and checks it again before it decides what the job becomes. */
  function WorkStep(sh: Shared, p: Pid, job: Job, pc: WorkPc): Step {
    match pc
    case Start => Step(sh, job, Work(StopTest))
    case StopTest => Step(sh, job, if sh.stop then Idle(IdleLock) else Work(Steal))
    case Steal =>
      if sh.queue.items == [] then Step(sh, job, Idle(IdleLock))
      else Step(PopQueue(sh), job.(stage := Taken, holder := Some(p), taker := Some(p)),
            Work(StopRetest(sh.queue.items[0])))
    case StopRetest(j) => Step(sh, job, Work(if sh.stop then Uncount(j) else ClaimQueued(j)))
    case ClaimQueued(j) => Step(Count(sh, Queued, -1), job.(stage := ClaimUncounted), Work(ClaimRun(j)))
    case ClaimRun(j) => Step(Count(sh, RunningTasks, 1), job.(stage := ClaimRunning), Work(ClaimSlot(j)))
    case ClaimSlot(j) => Step(Count(sh, Slots, -1), job.(stage := Held), Work(RunCall(j)))
    case RunCall(j) => Step(sh, job.(runs := job.runs + 1, stage := Ran), Work(EndCompleted(j)))
    case EndCompleted(j) => Step(Count(sh, CompletedTasks, 1), job.(stage := RanCounted), Work(EndRunning(j)))
    case EndRunning(j) =>
      Step(Count(sh, RunningTasks, -1), job.(stage := Completed, holder := None), Check(Load0, RetLoop))
    case Uncount(j) => Step(Count(sh, Queued, -1), job.(stage := Uncounted), Work(CountCancelling(j)))
    case CountCancelling(j) =>
      Step(Count(sh, CancellingTasks, 1), job.(stage := Cancelling), Fin(CancelCall, j, RetClaim))
  }

  function IdleStep(sh: Shared, p: Pid, pc: IdlePc, ok: bool, past: Past): (r: (Shared, Pc)) {
    var pool := sh.mon.pool;
    match pc
    case IdleLock => (Lock(sh, p), Idle(Branch))
    case Branch =>
      (match pool.life
       case Running =>
         if sh.acct.queued > 0 then (Unlock(sh), Work(StopTest))
         else (Unlock(sh), Idle(if ok then SpinQueued else IdleLock2))
       case ShuttingDown =>
         if sh.cfg.inflightFirst then (sh, Idle(ExitInflight1))
         else if sh.acct.queued > 0 then (Unlock(sh), Work(StopTest)) else (sh, Idle(ExitInflight(past)))
       case _ => (Unlock(sh), Idle(Hook)))
    case SpinQueued => (sh, if sh.acct.queued > 0 then Work(StopTest) else Idle(SpinPending))
    case SpinPending => (sh, if sh.wake.pending > 0 then Work(StopTest) else Idle(SpinOpen))
    case SpinOpen => (sh, Idle(if !sh.gate.closed && ok then SpinQueued else IdleLock2))
    case IdleLock2 => (Lock(sh, p), Idle(Mode))
    case Mode => (sh, Idle(if pool.life == Running then MarkIdle else Branch))
    case MarkIdle => (MarkIdleAt(sh, 1), Idle(SeeQueued))
    case SeeQueued => (sh, Idle(if sh.acct.queued > 0 then Unmark(true) else SeePending))
    case SeePending => (sh, Idle(if sh.wake.pending > 0 then Unmark(true) else Park))
    case Park => (ParkUnlock(sh, p), Idle(Parked))
    case Parked => (Lock(sh, p), Idle(Unmark(false)))
    case Unmark(retry) => (MarkIdleAt(sh, -1), Idle(Consume(retry)))
    case Consume(retry) =>
      var sh1 := sh.(wake := sh.wake.(pending := if sh.wake.pending > 0 then sh.wake.pending - 1 else sh.wake.pending));
      if retry then (Unlock(sh1), Work(StopTest)) else (sh1, Idle(Branch))
    case ExitInflight(_) => if sh.gate.inflight == 0 then (Unlock(sh), Idle(Hook)) else (sh, Idle(DrainMark))
    case ExitInflight1 => (sh, Idle(ExitQueued2(sh.gate.inflight == 0)))
    case ExitQueued2(noInflight) =>
      if sh.acct.queued > 0 then (Unlock(sh), Work(StopTest))
      else if noInflight then (Unlock(sh), Idle(Hook)) else (sh, Idle(DrainMark))
    case DrainMark => (MarkIdleAt(sh, 1), Idle(DrainQueued))
    case DrainQueued => (sh, Idle(if sh.acct.queued == 0 then DrainInflight else Unmark(false)))
    case DrainInflight => (sh, Idle(if sh.gate.inflight > 0 then DrainPark else Unmark(false)))
    case DrainPark => (ParkUnlock(sh, p), Idle(DrainParked))
    case DrainParked => (Lock(sh, p), Idle(Unmark(false)))
    case Hook => (sh, Idle(ExitLock))
    case ExitLock => (Lock(sh, p), Idle(ExitLive))
    case ExitLive => (NotifyUnlock(SetPool(sh, pool.(live := pool.live - 1))), Done(Returned))
  }

  function FinStep(sh: Shared, job: Job, pc: FinPc, j: Pid, ret: Ret): Step {
    match pc
    case CancelCall => Step(sh, job.(cancels := job.cancels + 1, stage := CancelCalled), Fin(CountCancelled, j, ret))
    case CountCancelled =>
      Step(Count(sh, CancelledTasks, 1), job.(stage := CancelCounted), Fin(UncountCancelling, j, ret))
    case UncountCancelling =>
      Step(Count(sh, CancellingTasks, -1), job.(stage := CancelClosed), Fin(ReleaseSlot, j, ret))
    case ReleaseSlot => Step(Count(sh, Slots, -1), job.(stage := Cancelled, holder := None), NotifyLock(ret))
  }

  function NotIdle(sh: Shared, ret: Ret): (r: (Shared, Pc)) {
    match ret
    case RetJoin => (sh, Wait(JoinPark))
    case RetTerm => (sh, Wait(TermPark))
    case _ => (sh, After(ret))
  }

  function IsIdle(sh: Shared, seen: set<Pid>, ret: Ret): (r: (Shared, Pc)) {
    match ret
    case RetJoin => (sh, Wait(JoinSub(seen)))
    case RetTerm => (Unlock(sh), Done(SawTermination))
    case _ => (sh, NotifyLock(ret))
  }

  function CheckStep(sh: Shared, loads: Loads, ret: Ret, past: Past): (r: (Shared, Pc)) {
    match loads
    case Load0 => if sh.gate.inflight == 0 then (sh, Check(Load1(past.begun), ret)) else NotIdle(sh, ret)
    case Load1(seen) => if sh.acct.slots == 0 then (sh, Check(Load2(seen), ret)) else NotIdle(sh, ret)
    case Load2(seen) => if sh.acct.running == 0 then (sh, Check(Load3(seen), ret)) else NotIdle(sh, ret)
    case Load3(seen) => if sh.acct.cancelling == 0 then IsIdle(sh, seen, ret) else NotIdle(sh, ret)
  }

  function NotifyStep(sh: Shared, p: Pid, all: bool, ret: Ret): (r: (Shared, Pc)) {
    if all then (NotifyUnlock(sh), After(ret)) else (Lock(sh, p), NotifyAll(ret))
  }

  /** `stop`: all visible jobs are stolen under the monitor, then moved to cancelling one by one. */
  function StopStep(sh: Shared, p: Pid, job: Job, pc: StopPc): Step {
    match pc
    case StopClose => Step(sh.(gate := sh.gate.(closed := true)), job, Stop(StopFlag))
    case StopFlag => Step(sh.(stop := true), job, Stop(StopLock))
    case StopLock => Step(Lock(sh, p), job, Stop(StopLife))
    case StopLife => Step(SetPool(sh, sh.mon.pool.(life := AfterStop(sh.mon.pool.life))), job, Stop(StopInflight))
    case StopInflight => Step(sh, job, Stop(if sh.gate.inflight > 0 then StopWaitAdd else StopSteal([])))
    case StopWaitAdd =>
      Step(sh.(tally := sh.tally.(submitWaiters := sh.tally.submitWaiters + 1)), job, Stop(StopWait))
    case StopWait => Step(sh, job, Stop(if sh.gate.inflight > 0 then StopPark else StopWaitSub))
    case StopPark => Step(ParkUnlock(sh, p), job, Stop(StopParked))
    case StopParked => Step(Lock(sh, p), job, Stop(StopWait))
    case StopWaitSub =>
      Step(sh.(tally := sh.tally.(submitWaiters := sh.tally.submitWaiters - 1)), job, Stop(StopSteal([])))
    case StopSteal(list) =>
      if sh.queue.items == [] then Step(sh, job, Stop(if list == [] then StopNotify([]) else StopUncount([], list)))
      else Step(PopQueue(sh), job.(stage := Taken, holder := Some(p), taker := Some(p)),
            Stop(StopSteal(list + [sh.queue.items[0]])))
    case StopUncount(done, rest) =>
      if rest == [] then Step(sh, job, Stop(StopNotify(done)))
      else Step(Count(sh, Queued, -1), job.(stage := Uncounted), Stop(StopCountCancelling(done, rest)))
    case StopCountCancelling(done, rest) =>
      if rest == [] then Step(sh, job, Stop(StopNotify(done)))
      else Step(Count(sh, CancellingTasks, 1), job.(stage := Cancelling),
            Stop(StopUncount(done + [rest[0]], rest[1..])))
    case StopNotify(list) => Step(NotifyUnlock(sh), job, StopNext(list))
  }

  function WaitStep(sh: Shared, p: Pid, pc: WaitPc): (r: (Shared, Pc)) {
    var pool := sh.mon.pool;
    match pc
    case ShutClose => (sh.(gate := sh.gate.(closed := true)), Wait(ShutLock))
    case ShutLock => (Lock(sh, p), Wait(ShutLife))
    case ShutLife =>
      (SetPool(sh, pool.(life := if pool.life.Running? then ShuttingDown else pool.life)), Wait(ShutNotify))
    case ShutNotify => (NotifyUnlock(sh), Done(Returned))
    case JoinAdd => (sh.(tally := sh.tally.(idleWaiters := sh.tally.idleWaiters + 1)), Wait(JoinLock))
    case JoinLock => (Lock(sh, p), Check(Load0, RetJoin))
    case JoinPark => (ParkUnlock(sh, p), Wait(JoinParked))
    case JoinParked => (Lock(sh, p), Check(Load0, RetJoin))
    case JoinSub(seen) => (Unlock(sh).(tally := sh.tally.(idleWaiters := sh.tally.idleWaiters - 1)), Done(Joined(seen)))
    case TermLock => (Lock(sh, p), Wait(TermTest))
    case TermTest => (sh, if pool.Quiet() then Check(Load0, RetTerm) else Wait(TermPark))
    case TermPark => (ParkUnlock(sh, p), Wait(TermParked))
    case TermParked => (Lock(sh, p), Wait(TermTest))
  }

  function WithJob(r: (Shared, Pc), job: Job): Step { Step(r.0, job, r.1) }

  function StepOf(sh: Shared, p: Pid, job: Job, pc: Pc, ok: bool, past: Past): Step {
    match pc
    case Sub(sub) => SubStep(sh, p, job, sub, ok)
    case Work(work) => WorkStep(sh, p, job, work)
    case Idle(idle) => WithJob(IdleStep(sh, p, idle, ok, past), job)
    case Fin(fin, j, ret) => FinStep(sh, job, fin, j, ret)
    case Check(loads, ret) => WithJob(CheckStep(sh, loads, ret, past), job)
    case NotifyLock(ret) => WithJob(NotifyStep(sh, p, false, ret), job)
    case NotifyAll(ret) => WithJob(NotifyStep(sh, p, true, ret), job)
    case Stop(stop) => StopStep(sh, p, job, stop)
    case Wait(wait) => WithJob(WaitStep(sh, p, wait), job)
    case Done(_) => Step(sh, job, pc)
  }

  // ----- where a thread stands

  predicate HoldsMonitor(pc: Pc) {
    match pc
    case Idle(idle) =>
      !idle.IdleLock? && !idle.SpinQueued? && !idle.SpinPending? && !idle.SpinOpen? && !idle.IdleLock2?
      && !idle.Parked? && !idle.DrainParked? && !idle.Hook? && !idle.ExitLock?
    case Check(_, ret) => InMonitor(ret)
    case NotifyAll(_) => true
    case Stop(stop) => !stop.StopClose? && !stop.StopFlag? && !stop.StopLock? && !stop.StopParked?
    case Wait(wait) =>
      wait.ShutLife? || wait.ShutNotify? || wait.JoinPark? || wait.JoinSub? || wait.TermTest? || wait.TermPark?
    case _ => false
  }

  predicate WantsMonitor(pc: Pc) {
    match pc
    case Idle(idle) => idle.IdleLock? || idle.IdleLock2? || idle.Parked? || idle.DrainParked? || idle.ExitLock?
    case NotifyLock(_) => true
    case Stop(stop) => stop.StopLock? || stop.StopParked?
    case Wait(wait) => wait.ShutLock? || wait.JoinLock? || wait.JoinParked? || wait.TermLock? || wait.TermParked?
    case _ => false
  }

  predicate Submitter(pc: Pc) {
    pc.Sub? || ((pc.NotifyLock? || pc.NotifyAll?) && (pc.ret.RetWake? || pc.ret.RetReject? || pc.ret.RetDepart?))
  }

  predicate InFlight(pc: Pc) {
    match pc
    case Sub(sub) => !sub.Enter? && sub != Discard(false) && !sub.LeaveOpen? && !sub.LeaveWaiters?
    case NotifyLock(ret) => ret.RetWake? || ret.RetReject?
    case NotifyAll(ret) => ret.RetWake? || ret.RetReject?
    case _ => false
  }

  /** Subroutines return only to their callers. */
  predicate RetOk(pc: Pc) {
    match pc
    case Fin(_, _, ret) => ret.RetClaim? || ret.RetStop?
    case Check(_, ret) => ret.RetLoop? || InMonitor(ret)
    case NotifyLock(ret) => !InMonitor(ret)
    case NotifyAll(ret) => !InMonitor(ret)
    case _ => true
  }

  /** The job whose record the next step may rewrite. */
  function Subject(sh: Shared, p: Pid, pc: Pc): Option<Pid> {
    match pc
    case Sub(_) => Some(p)
    case Work(work) =>
      if work.Start? || work.StopTest? then None
      else if work.Steal? then (if sh.queue.items == [] then None else Some(sh.queue.items[0]))
      else Some(work.j)
    case Fin(_, j, _) => Some(j)
    case Stop(stop) =>
      (match stop
       case StopSteal(_) => if sh.queue.items == [] then None else Some(sh.queue.items[0])
       case StopUncount(_, rest) => if rest == [] then None else Some(rest[0])
       case StopCountCancelling(_, rest) => if rest == [] then None else Some(rest[0])
       case _ => None)
    case _ => None
  }

  // ----- runs

  datatype State = State(sh: Shared, jobs: map<Pid, Job>, procs: map<Pid, Pc>)

  function JobOf(jobs: map<Pid, Job>, j: Pid): Job { if j in jobs then jobs[j] else NO_JOB }

  datatype Request = NewSubmit | NewStop | NewShutdown | NewJoin | NewTermWait

  datatype Event =
    | Arrive(p: Pid, request: Request)
    | Act(p: Pid, ok: bool)
    | Spurious(p: Pid)

  function StartPc(r: Request): Pc {
    match r
    case NewSubmit => Sub(Enter)
    case NewStop => Stop(StopClose)
    case NewShutdown => Wait(ShutClose)
    case NewJoin => Wait(JoinAdd)
    case NewTermWait => Wait(TermLock)
  }

  function NewJob(p: Pid): Job { NO_JOB.(holder := Some(p)) }

  function Begun(s: State): set<Pid> { set p | p in s.jobs && p in s.procs && s.procs[p] != Sub(Enter) }

  function Departed(s: State): set<Pid> { set p | p in Begun(s) && !InFlight(s.procs[p]) }

  function Published(s: State): set<Pid> {
    set j | j in s.jobs && WasPublished(s.jobs[j].stage)
  }

  function PastOf(s: State): Past { Past(Begun(s), Departed(s), Published(s)) }

  predicate CanStep(s: State, p: Pid, pc: Pc) {
    !pc.Done? && p !in s.sh.mon.parked && (WantsMonitor(pc) ==> s.sh.mon.owner.None?)
  }

  function JobAt(s: State, p: Pid): Job
    requires p in s.procs
  {
    var subject := Subject(s.sh, p, s.procs[p]);
    if subject.Some? then JobOf(s.jobs, subject.value) else NO_JOB
  }

  function StepAt(s: State, p: Pid, ok: bool): Step
    requires p in s.procs
  {
    StepOf(s.sh, p, JobAt(s, p), s.procs[p], ok, PastOf(s))
  }

  ghost predicate Moves(s: State, p: Pid, step: Step, t: State)
    requires p in s.procs
  {
    var subject := Subject(s.sh, p, s.procs[p]);
    && t.sh == step.sh && t.procs == s.procs[p := step.pc]
    && t.jobs == (if subject.Some? then s.jobs[subject.value := step.job] else s.jobs)
  }

  ghost predicate Next(s: State, e: Event, t: State) {
    match e
    case Arrive(p, r) =>
      p !in s.procs && p !in s.jobs
      && t == State(s.sh, if r.NewSubmit? then s.jobs[p := NewJob(p)] else s.jobs, s.procs[p := StartPc(r)])
    case Act(p, ok) => p in s.procs && CanStep(s, p, s.procs[p]) && Moves(s, p, StepAt(s, p, ok), t)
    case Spurious(p) =>
      p in s.sh.mon.parked && t == s.(sh := s.sh.(mon := s.sh.mon.(parked := s.sh.mon.parked - {p})))
  }

  /** Right after construction: every worker has been created, at least one, and none has run yet. */
  ghost predicate Init(s: State) {
    && s.jobs == map[] && s.procs != map[] && (forall p :: p in s.procs ==> s.procs[p] == Work(Start))
    && s.sh.gate == Gate(false, 0) && s.sh.acct == ZERO && !s.sh.stop
    && s.sh.wake == WakeState(0, 0) && s.sh.tally == Tally(0, 0, 0)
    && s.sh.queue == Fifo(None, [], [], [])
    && s.sh.mon.owner == None && s.sh.mon.parked == {}
    && s.sh.mon.pool.life == Running && s.sh.mon.pool.live == |s.procs|
    && s.sh.mon.pool.exiting == 0 && s.sh.mon.pool.idle == 0
  }

  datatype Behavior = Behavior(states: seq<State>, events: seq<Event>)
  {
    ghost predicate Valid() {
      && |states| == |events| + 1
      && Init(states[0])
      && forall i {:trigger events[i]} :: 0 <= i < |events| ==> Next(states[i], events[i], states[i + 1])
    }
  }
}
