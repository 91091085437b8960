/** Threads of the dynamic pool, the locks they hold, and runs of the whole pool. */
module DynamicRun {
  import opened PoolTypes
  import opened PoolAccounting
  import opened PoolShared
  import opened DynamicPool

  datatype State = State(sh: Shared, jobs: map<Pid, Job>, procs: map<Pid, Pc>)

  function JobOf(jobs: map<Pid, Job>, j: Pid): Job { if j in jobs then jobs[j] else NO_JOB }

  // ----- where a thread stands

  predicate HoldsMonitor(pc: Pc) {
    match pc
    case Sub(sub) => sub.Decide? || sub.Slot?
    case Grow(grow) => !grow.PreLock?
    case Idle(idle) => !idle.IdleLock? && !idle.IdleLock2? && !idle.Parked?
    case Drain(drain) => !drain.DrainParked?
    case Exit(exit) => !exit.Hook? && !exit.ExitLock?
    case Check(_, ret) => InMonitor(ret)
    case NotifyAll(_) => true
    case Stop(stop) => !stop.StopClose? && !stop.StopFlag? && !stop.StopLock? && !stop.StopParked?
    case Purge(_, _, _) => true
    case Wait(wait) =>
      wait.ShutLife? || wait.ShutNotify? || wait.JoinPark? || wait.JoinSub? || wait.TermTest? || wait.TermPark?
      || wait.SizeSet?
    case _ => false
  }

  predicate HoldsQueue(pc: Pc) {
    match pc
    case Pub(pub) => !pub.QueueLock?
    case Cut(cut) => !cut.DoneLock? && !cut.DoneMark? && !cut.DoneNotify?
    case Work(work) => !work.Start? && !work.TakeLock?
    case Purge(_, _, _) => true
    case Find(find, _) => !find.FindLock?
    case _ => false
  }

  /** Holds the entry lock of the job it works on. */
  predicate HoldsEntry(pc: Pc) {
    match pc
    case Acc(acc) => acc.Mark? || acc.RejectMark?
    case Pub(pub) => pub.Settle?
    case Cut(cut) => cut.Uncount? || cut.CountCancelling? || cut.ReleaseEntry? || cut.DoneMark?
    case Work(work) => work.TakeEntry?
    case Purge(purge, _, _) => purge.StopEntry?
    case Look(look, _, _) => look.LookEntry? || look.AwaitLook?
    case Find(find, _) => find.TicketTake?
    case _ => false
  }

  predicate SubmitRet(ret: Ret) {
    ret.RetWake? || ret.RetReject? || ret.RetReserved? || ret.RetDepart? || ret == RetSpawn(true)
  }

  /** The job a thread works on, apart from the head of the queue it is about to pop. */
  function Target(p: Pid, pc: Pc): Option<Pid> {
    match pc
    case Sub(_) => Some(p)
    case Grow(_) => if InFlight(pc) then Some(p) else None
    case Acc(_) => Some(p)
    case Pub(_) => Some(p)
    case Cut(_) => Some(p)
    case Work(work) =>
      if work.Start? || work.TakeLock? || work.TakeStop? || work.TakePop? then None else Some(work.j)
    case Run(_, j) => Some(j)
    case Fin(_, j, _) => Some(j)
    case Check(_, ret) => if SubmitRet(ret) then Some(p) else None
    case NotifyLock(ret) => if SubmitRet(ret) then Some(p) else None
    case NotifyAll(ret) => if SubmitRet(ret) then Some(p) else None
    case Purge(purge, _, j) => if purge.StopPop? then None else Some(j)
    case Look(_, j, _) => Some(j)
    case Find(_, j) => Some(j)
    case _ => None
  }

  predicate Pops(pc: Pc) { (pc.Work? && pc.work.TakePop?) || (pc.Purge? && pc.purge.StopPop?) }

  /** The job whose record the next step may rewrite. */
  function Subject(sh: Shared, p: Pid, pc: Pc): Option<Pid> {
    if Pops(pc) then (if sh.queue.items == [] then None else Some(sh.queue.items[0])) else Target(p, pc)
  }

  datatype LockName = MonitorLock | FifoLock | JobLock(j: Pid)

  /** The lock a thread is about to acquire, if any. */
  function Wants(p: Pid, pc: Pc): Option<LockName> {
    match pc
    case Sub(sub) => if sub.SubLock? then Some(MonitorLock) else None
    case Grow(grow) => if grow.PreLock? then Some(MonitorLock) else None
    case Acc(acc) => if acc.MarkLock? || acc.RejectLock? then Some(JobLock(p)) else None
    case Pub(pub) =>
      if pub.QueueLock? then Some(FifoLock)
      else if pub.EntryLock? then Some(JobLock(p)) else None
    case Cut(cut) => if cut.DoneLock? then Some(JobLock(p)) else None
    case Work(work) =>
      if work.TakeLock? then Some(FifoLock) else if work.TakeEntryLock? then Some(JobLock(work.j)) else None
    case Idle(idle) => if idle.IdleLock? || idle.IdleLock2? || idle.Parked? then Some(MonitorLock) else None
    case Drain(drain) => if drain.DrainParked? then Some(MonitorLock) else None
    case Exit(exit) => if exit.ExitLock? then Some(MonitorLock) else None
    case NotifyLock(_) => Some(MonitorLock)
    case Stop(stop) =>
      if stop.StopLock? || stop.StopParked? then Some(MonitorLock)
      else if stop.StopQueueLock? then Some(FifoLock) else None
    case Purge(purge, _, j) => if purge.StopEntryLock? then Some(JobLock(j)) else None
    case Wait(wait) =>
      if wait.ShutLock? || wait.JoinLock? || wait.JoinParked? || wait.TermLock? || wait.TermParked?
         || (wait.SizeLock? && wait.op != SetMax(0))
      then Some(MonitorLock) else None
    case Look(look, j, _) => if look.LookLock? || look.AwaitParked? then Some(JobLock(j)) else None
    case Find(find, j) =>
      if find.FindLock? then Some(FifoLock) else if find.TicketLock? then Some(JobLock(j)) else None
    case _ => None
  }

  function Owner(s: State, l: LockName): Option<Pid> {
    match l
    case MonitorLock => s.sh.mon.owner
    case FifoLock => s.sh.queue.owner
    case JobLock(j) => JobOf(s.jobs, j).entryLock
  }

  predicate AwaitsEntry(pc: Pc) { pc.Look? && pc.look.AwaitParked? }

  /** Asleep on a condition variable and not notified since. */
  predicate Asleep(s: State, p: Pid, pc: Pc) {
    if AwaitsEntry(pc) then p in JobOf(s.jobs, pc.target).entryParked else p in s.sh.mon.parked
  }

  predicate Finished(pc: Pc) { pc.Done? || pc.Dead? }

  predicate CanStep(s: State, p: Pid, pc: Pc) {
    !Finished(pc) && !Asleep(s, p, pc) && (Wants(p, pc).Some? ==> Owner(s, Wants(p, pc).value).None?)
  }

  /** Counted by the admission gate. */
  predicate InFlight(pc: Pc) {
    match pc
    case Sub(sub) => !sub.Enter? && sub != Discard(false) && !sub.LeaveOpen? && !sub.LeaveWaiters?
    case Grow(grow) => grow.Handoff? || (!grow.PreLock? && !grow.PreDecide? && grow.forJob)
    case Acc(_) => true
    case Pub(_) => true
    case Cut(_) => true
    case Fin(_, _, ret) => ret.RetReserved?
    case Check(_, ret) => ret.RetReserved? || ret == RetSpawn(true)
    case NotifyLock(ret) => ret.RetWake? || ret.RetReject? || ret.RetReserved?
    case NotifyAll(ret) => ret.RetWake? || ret.RetReject? || ret.RetReserved?
    case _ => false
  }

  /** A worker registered as live. */
  predicate LiveWorker(pc: Pc) {
    match pc
    case Work(_) => true
    case Run(_, _) => true
    case Idle(_) => true
    case Drain(_) => true
    case Exit(exit) => exit.Unregister?
    case Check(_, ret) => ret.RetLoop?
    case NotifyLock(ret) => ret.RetLoop?
    case NotifyAll(ret) => ret.RetLoop?
    case _ => false
  }

  /** A worker that left its loop and has not finished its exit bookkeeping. */
  predicate ExitingWorker(pc: Pc) {
    match pc
    case Exit(exit) => !exit.Unregister? && !exit.ExitNotify?
    case Check(_, ret) => ret.RetUnregister?
    case _ => false
  }

  /** A worker marked idle. */
  predicate Marked(pc: Pc) {
    match pc
    case Idle(idle) =>
      idle.SeeQueued? || idle.SeePending? || idle.Park? || idle.Parked? || idle.RetireQueued?
      || idle.RetirePending? || idle.RetireInflight? || idle.Unmark?
    case Drain(drain) => drain.DrainQueued? || drain.DrainInflight? || drain.DrainPark? || drain.DrainParked?
    case _ => false
  }

  predicate JoinWaiter(pc: Pc) {
    match pc
    case Check(_, ret) => ret.RetJoin?
    case Wait(wait) => wait.JoinLock? || wait.JoinPark? || wait.JoinParked? || wait.JoinSub?
    case _ => false
  }

  predicate SubmitWaiter(pc: Pc) {
    pc.Stop? && (pc.stop.StopWait? || pc.stop.StopPark? || pc.stop.StopParked? || pc.stop.StopWaitSub?)
  }

  // ----- runs

  datatype Request =
    | NewSubmit(ticketed: bool, thread: nat)
    | NewPrestart | NewStop | NewShutdown | NewJoin | NewTermWait
    | NewResize(op: SizeOp)
    | NewCancel(j: Pid, thread: nat)

  datatype Event =
    | Arrive(p: Pid, request: Request)
    | Act(p: Pid, ok: bool, worker: Pid)   // `worker` names the thread created by a successful spawn
    | Spurious(p: Pid)                     // wake-up without notification
    | Timeout(p: Pid)                      // keep-alive elapsed

  function StartPc(r: Request): Pc {
    match r
    case NewSubmit(_, _) => Sub(Enter)
    case NewPrestart => Grow(PreLock)
    case NewStop => Stop(StopClose)
    case NewShutdown => Wait(ShutClose)
    case NewJoin => Wait(JoinAdd)
    case NewTermWait => Wait(TermLock)
    case NewResize(op) => Wait(SizeLock(op))
    case NewCancel(j, thread) => Look(LookLock, j, thread)
  }

  function NewJob(ticketed: bool, thread: nat, p: Pid): Job {
    NO_JOB.(ticketed := ticketed, thread := thread, entry := if ticketed then Prepared else NoEntry, holder := Some(p))
  }

  /** Submissions that have passed the admission test. */
  function Begun(s: State): set<Pid> {
    set p | p in s.jobs && p in s.procs && s.procs[p] != Sub(Enter)
  }

  /** Submissions no longer in flight. */
  function Departed(s: State): set<Pid> {
    set p | p in Begun(s) && !InFlight(s.procs[p])
  }

  function Published(s: State): set<Pid> {
    set j | j in s.jobs && WasPublished(s.jobs[j].stage)
  }

  function PastOf(s: State): Past { Past(Begun(s), Departed(s), Published(s)) }

  function WithJob(r: (Shared, Pc), job: Job): Step { Step(r.0, job, r.1) }

  function StepOf(sh: Shared, p: Pid, job: Job, pc: Pc, ok: bool, past: Past): Step {
    match pc
    case Sub(sub) => SubStep(sh, p, job, sub)
    case Grow(grow) => GrowStep(sh, p, job, grow, ok)
    case Acc(acc) => AccStep(sh, p, job, acc, ok)
    case Pub(pub) => PubStep(sh, p, job, pub)
    case Cut(cut) => CutStep(sh, p, job, cut)
    case Work(work) => TakeStep(sh, p, job, work)
    case Run(run, j) => RunStep(sh, job, run, j)
    case Idle(idle) => WithJob(IdleStep(sh, p, idle), job)
    case Drain(drain) => WithJob(DrainStep(sh, p, drain, past), job)
    case Exit(exit) => WithJob(ExitStep(sh, p, exit), job)
    case Fin(fin, j, ret) => FinStep(sh, job, fin, j, ret)
    case Check(loads, ret) => WithJob(CheckStep(sh, loads, ret, past), job)
    case NotifyLock(ret) => WithJob(NotifyStep(sh, p, false, ret), job)
    case NotifyAll(ret) => WithJob(NotifyStep(sh, p, true, ret), job)
    case Stop(stop) => WithJob(StopStep(sh, p, stop), job)
    case Purge(purge, list, j) => PurgeStep(sh, p, job, purge, list, j)
    case Wait(wait) => WithJob(WaitStep(sh, p, wait), job)
    case Look(look, j, thread) => LookStep(sh, p, job, look, j, thread)
    case Find(find, j) => FindStep(sh, p, job, find, j)
    case _ => Step(sh, job, pc)
  }

  predicate Spawns(pc: Pc, ok: bool) { pc.Grow? && pc.grow.Spawn? && ok }

  /** The job record thread `p` works on. */
  function JobAt(s: State, p: Pid): Job
    requires p in s.procs
  {
    var subject := Subject(s.sh, p, s.procs[p]);
    if subject.Some? then JobOf(s.jobs, subject.value) else NO_JOB
  }

  /** The step thread `p` takes from `s`. */
  function StepAt(s: State, p: Pid, ok: bool): Step
    requires p in s.procs
  {
    StepOf(s.sh, p, JobAt(s, p), s.procs[p], ok, PastOf(s))
  }

  /** `t` is `s` after thread `p` has taken `step`, starting thread `worker` if it spawns one. */
  ghost predicate Moves(s: State, p: Pid, step: Step, spawns: bool, worker: Pid, t: State)
    requires p in s.procs
  {
    var subject := Subject(s.sh, p, s.procs[p]);
    && (spawns ==> worker !in s.procs && worker !in s.jobs)
    && t.sh == step.sh
    && t.jobs == (if subject.Some? then s.jobs[subject.value := step.job] else s.jobs)
    && t.procs == (if spawns then s.procs[p := step.pc][worker := Work(Start)] else s.procs[p := step.pc])
  }

  ghost predicate Acts(s: State, p: Pid, ok: bool, worker: Pid, t: State) {
    && p in s.procs
    && CanStep(s, p, s.procs[p])
    && Moves(s, p, StepAt(s, p, ok), Spawns(s.procs[p], ok), worker, t)
  }

  ghost predicate Arrives(s: State, p: Pid, r: Request, t: State) {
    && p !in s.procs && p !in s.jobs
    && (r.NewCancel? ==> r.j in s.jobs && s.jobs[r.j].ticketed)
    && t == State(s.sh, if r.NewSubmit? then s.jobs[p := NewJob(r.ticketed, r.thread, p)] else s.jobs,
                  s.procs[p := StartPc(r)])
  }

  ghost predicate WakesSpuriously(s: State, p: Pid, t: State) {
    && p in s.procs && Asleep(s, p, s.procs[p])
    && t.procs == s.procs
    && if AwaitsEntry(s.procs[p]) then
         var j := s.procs[p].target;
         t.sh == s.sh && t.jobs == s.jobs[j := JobOf(s.jobs, j).(entryParked := JobOf(s.jobs, j).entryParked - {p})]
       else
         t.jobs == s.jobs && t.sh == s.sh.(mon := s.sh.mon.(parked := s.sh.mon.parked - {p}))
  }

  ghost predicate TimesOut(s: State, p: Pid, t: State) {
    && p in s.procs && s.procs[p].Idle? && s.procs[p].idle.Parked? && s.procs[p].idle.timed
    && t == State(s.sh.(mon := s.sh.mon.(parked := s.sh.mon.parked - {p})), s.jobs,
                  s.procs[p := Idle(Parked(true, true))])
  }

  ghost predicate Next(s: State, e: Event, t: State) {
    match e
    case Arrive(p, r) => Arrives(s, p, r, t)
    case Act(p, ok, worker) => Acts(s, p, ok, worker, t)
    case Spurious(p) => WakesSpuriously(s, p, t)
    case Timeout(p) => TimesOut(s, p, t)
  }

  ghost predicate Init(s: State) {
    && s.procs == map[] && s.jobs == map[]
    && s.sh.gate == Gate(false, 0) && s.sh.acct == ZERO && !s.sh.stop
    && s.sh.wake == WakeState(0, 0) && s.sh.tally == Tally(0, 0, 0)
    && s.sh.queue == Fifo(None, [], [], [])
    && s.sh.mon.owner == None && s.sh.mon.parked == {}
    && s.sh.mon.pool.life == Running
    && s.sh.mon.pool.live == s.sh.mon.pool.exiting == s.sh.mon.pool.idle == 0
    && s.sh.mon.pool.core <= s.sh.mon.pool.max && s.sh.mon.pool.max >= 1
  }

  datatype Behavior = Behavior(states: seq<State>, events: seq<Event>)
  {
    ghost predicate Valid() {
      && |states| == |events| + 1
      && Init(states[0])
      && forall i {:trigger events[i]} :: 0 <= i < |events| ==> Next(states[i], events[i], states[i + 1])
    }
  }
}
