/** What every reachable state of the fixed pool satisfies, thread by thread and job by job. */
module FixedFacts {
  import opened PoolTypes
  import opened PoolAccounting
  import opened PoolShared
  import opened FixedPool

  // ----- jobs in hand

  /** The stage of job `j` in the hands of thread `p`, if it is there. */
  function StageInHand(p: Pid, pc: Pc, j: Pid): Option<Stage> {
    match pc
    case Sub(sub) =>
      if j != p then None else
        (match sub
         case Enter | Reserve => Some(New)
         case Accept => Some(Reserved)
         case Rollback => Some(AcceptFailed)
         case CountSubmitted => Some(AcceptedOk)
         case CountQueued => Some(Submitted)
         case Push => Some(Counted)
         case _ => None)
    case Work(work) =>
      (match work
       case StopRetest(k) => if j == k then Some(Taken) else None
       case ClaimQueued(k) => if j == k then Some(Taken) else None
       case ClaimRun(k) => if j == k then Some(ClaimUncounted) else None
       case ClaimSlot(k) => if j == k then Some(ClaimRunning) else None
       case RunCall(k) => if j == k then Some(Held) else None
       case EndCompleted(k) => if j == k then Some(Ran) else None
       case EndRunning(k) => if j == k then Some(RanCounted) else None
       case Uncount(k) => if j == k then Some(Taken) else None
       case CountCancelling(k) => if j == k then Some(Uncounted) else None
       case _ => None)
    case Fin(fin, k, ret) =>
      if j == k then
        (match fin
         case CancelCall => Some(Cancelling)
         case CountCancelled => Some(CancelCalled)
         case UncountCancelling => Some(CancelCounted)
         case ReleaseSlot => Some(CancelClosed))
      else if ret.RetStop? && j in ret.rest then Some(Cancelling) else None
    case NotifyLock(ret) => if ret.RetStop? && j in ret.rest then Some(Cancelling) else None
    case NotifyAll(ret) => if ret.RetStop? && j in ret.rest then Some(Cancelling) else None
    case Stop(stop) =>
      (match stop
       case StopSteal(list) => if j in list then Some(Taken) else None
       case StopUncount(done, rest) => if j in rest then Some(Taken) else if j in done then Some(Cancelling) else None
       case StopCountCancelling(done, rest) =>
         if rest != [] && j == rest[0] then Some(Uncounted)
         else if j in rest then Some(Taken)
         else if j in done then Some(Cancelling) else None
       case StopNotify(list) => if j in list then Some(Cancelling) else None
       case _ => None)
    case _ => None
  }

  /** The jobs a stop has drained and not finished with. */
  function Stock(pc: Pc): seq<Pid> {
    match pc
    case Fin(_, k, ret) => if ret.RetStop? then [k] + ret.rest else []
    case NotifyLock(ret) => if ret.RetStop? then ret.rest else []
    case NotifyAll(ret) => if ret.RetStop? then ret.rest else []
    case Stop(stop) =>
      (match stop
       case StopSteal(list) => list
       case StopUncount(done, rest) => done + rest
       case StopCountCancelling(done, rest) => done + rest
       case StopNotify(list) => list
       case _ => [])
    case _ => []
  }

  predicate Steals(pc: Pc) { pc == Work(Steal) || (pc.Stop? && pc.stop.StopSteal?) }

  /** Callback calls made so far and custody against the stage. */
  predicate JobOk(job: Job) {
    var st := job.stage;
    && job.accepts == AcceptCalls(st) && job.runs == RunCalls(st) && job.cancels == CancelCalls(st)
    && (job.holder.None? <==> st.InQueue? || IsEnd(st))
    && (job.taker.Some? <==> !BeforePublication(st) && !st.InQueue? && !st.Rejected? && !st.Refused?)
    && (job.taker.Some? && job.holder.Some? ==> job.taker == job.holder)
    && !st.Popped?
  }

  // ----- thread counts

  datatype Gauge = InFlightGauge | LiveGauge | MarkedGauge | IdleGauge | JoinGauge

  function Reading(g: Gauge, sh: Shared): int {
    match g
    case InFlightGauge => sh.gate.inflight
    case LiveGauge => sh.mon.pool.live
    case MarkedGauge => sh.mon.pool.idle
    case IdleGauge => sh.wake.idle
    case JoinGauge => sh.tally.idleWaiters
  }

  predicate Marked(pc: Pc) {
    pc.Idle?
    && (pc.idle.SeeQueued? || pc.idle.SeePending? || pc.idle.Park? || pc.idle.Parked? || pc.idle.Unmark?
        || pc.idle.DrainQueued? || pc.idle.DrainInflight? || pc.idle.DrainPark? || pc.idle.DrainParked?)
  }

  predicate LiveWorker(pc: Pc) {
    match pc
    case Work(_) => true
    case Idle(_) => true
    case Fin(_, _, ret) => ret.RetClaim?
    case Check(_, ret) => ret.RetLoop?
    case NotifyLock(ret) => ret.RetLoop? || ret.RetClaim?
    case NotifyAll(ret) => ret.RetLoop? || ret.RetClaim?
    case _ => false
  }

  /** A worker that still looks for jobs. */
  predicate Serving(pc: Pc) {
    LiveWorker(pc) && !(pc.Idle? && (pc.idle.Hook? || pc.idle.ExitLock? || pc.idle.ExitLive?))
  }

  predicate JoinWaiter(pc: Pc) {
    || (pc.Check? && pc.ret.RetJoin?)
    || (pc.Wait? && (pc.wait.JoinLock? || pc.wait.JoinPark? || pc.wait.JoinParked? || pc.wait.JoinSub?))
  }

  predicate Weighs(g: Gauge, pc: Pc) {
    match g
    case InFlightGauge => InFlight(pc)
    case LiveGauge => LiveWorker(pc)
    case MarkedGauge => Marked(pc)
    case IdleGauge => Marked(pc)
    case JoinGauge => JoinWaiter(pc)
  }

  // ----- one step

  function OwnerAfter(had: Option<Pid>, p: Pid, holds: bool, held: bool): Option<Pid> {
    if holds then Some(p) else if held then None else had
  }

  predicate ParksAt(pc: Pc) {
    match pc
    case Idle(idle) => idle.Parked? || idle.DrainParked?
    case Stop(stop) => stop.StopParked?
    case Wait(wait) => wait.JoinParked? || wait.TermParked?
    case _ => false
  }

  /** The two positions of `notify_waiters_after_atomic_change`. */
  function NotifyAt(all: bool, ret: Ret): Pc { if all then NotifyAll(ret) else NotifyLock(ret) }

  predicate NotifiesAll(pc: Pc) {
    match pc
    case NotifyAll(_) => true
    case Idle(idle) => idle.ExitLive?
    case Stop(stop) => stop.StopNotify?
    case Wait(wait) => wait.ShutNotify?
    case _ => false
  }

  /** Locks, roles, one-way switches, tokens and the wait set. */
  predicate FramesFollow(sh: Shared, p: Pid, pc: Pc, step: Step) {
    && step.sh.mon.owner == OwnerAfter(sh.mon.owner, p, HoldsMonitor(step.pc), HoldsMonitor(pc))
    && (HoldsMonitor(step.pc) && !HoldsMonitor(pc) ==> WantsMonitor(pc))
    && RetOk(step.pc) && (Submitter(step.pc) ==> Submitter(pc))
    && step.sh.cfg == sh.cfg && step.sh.queue.owner == sh.queue.owner
    && (HoldsMonitor(pc) || step.sh.mon.pool == sh.mon.pool)
    && step.sh.mon.pool.exiting == sh.mon.pool.exiting
    && (sh.gate.closed ==> step.sh.gate.closed && step.sh.gate.inflight <= sh.gate.inflight)
    && (sh.stop ==> step.sh.stop)
    && (if NotifiesAll(pc) then step.sh.mon.parked == {}
        else sh.mon.parked <= step.sh.mon.parked <= sh.mon.parked + {p})
    && (p in step.sh.mon.parked && p !in sh.mon.parked ==> ParksAt(step.pc))
    && (step.sh.wake.pending > sh.wake.pending ==> step.pc == NotifyLock(RetWake))
    && (step.sh.wake.pending < sh.wake.pending ==>
          step.sh.wake.pending == sh.wake.pending - 1 && sh.wake.pending > 0 && HoldsMonitor(pc))
    && (step.pc == Sub(Enter) ==> false)
  }

  /** How a thread gets from one part of the code to another. */
  predicate PathsFollow(sh: Shared, pc: Pc, next: Pc) {
    && (Serving(next) ==> Serving(pc)) && (LiveWorker(next) ==> LiveWorker(pc))
    && (Serving(pc) && !Serving(next) ==> next == Idle(Hook) && pc.Idle? && Leaves(sh, pc.idle))
    && (next.Check? && !pc.Check? ==> next.loads.Load0?)
    && (next.Done? && next.outcome.Joined? ==> pc.Wait?)
    && (next.Done? && next.outcome.SawTermination? ==> pc.Check?)
    && (next.Wait? && !pc.Wait? ==> pc.Check? && (pc.ret.RetJoin? || pc.ret.RetTerm?))
    && (pc.Sub? ==> !Serving(next)) && (next.Check? && next.ret.RetTerm? ==> pc.Check? || pc == Wait(TermTest))
  }

  /** Where a worker decides to leave: the pool is stopping, or the ShuttingDown exit test is passed. */
  predicate Leaves(sh: Shared, idle: IdlePc) {
    || (idle.Branch? && !sh.mon.pool.life.Running? && !sh.mon.pool.life.ShuttingDown?)
    || (idle.ExitInflight? && sh.gate.inflight == 0)
    || (idle.ExitQueued2? && idle.noInflight && sh.acct.queued <= 0)
  }

  predicate GaugesFollow(sh: Shared, pc: Pc, step: Step) {
    forall g: Gauge :: Reading(g, step.sh) - Reading(g, sh) == B(Weighs(g, step.pc)) - B(Weighs(g, pc))
  }

  /** What the invariant says about the thread about to step and the job it works on. */
  predicate StageReady(sh: Shared, p: Pid, job: Job, pc: Pc) {
    && RetOk(pc) && JobOk(job) && Distinct(Stock(pc))
    && (Subject(sh, p, pc).Some? ==>
          var mine := StageInHand(p, pc, Subject(sh, p, pc).value);
          && (mine.Some? ==> job.stage == mine.value)
          && (mine.Some? <==> job.holder == Some(p)))
    && (Steals(pc) && sh.queue.items != [] ==> job.stage.InQueue?)
  }

  /** The job worked on moves along its stages; only a submitter that saw room reserves, and only a worker claims. */
  predicate JobFollows(sh: Shared, job: Job, pc: Pc, step: Step) {
    && JobOk(step.job) && StageEdge(job.stage, step.job.stage)
    && (job.taker.Some? ==> step.job.taker == job.taker)
    && (job.stage.New? && step.job.stage.Reserved? ==> InFlight(pc))
    && (step.job.stage.ClaimUncounted? && !job.stage.ClaimUncounted? ==> Serving(pc))
    && (job.stage.New? && step.job.stage.Reserved? ==> sh.acct.HasRoom(sh.cfg.capacity))
  }

  predicate CountersFollow(sh: Shared, job: Job, step: Step) {
    forall c: Counter :: step.sh.acct.Get(c) - sh.acct.Get(c) == B(Adds(c, step.job.stage)) - B(Adds(c, job.stage))
  }

  predicate QueueFollows(sh: Shared, p: Pid, job: Job, pc: Pc, step: Step) {
    if pc == Sub(Push) then
      step.sh.queue.items == sh.queue.items + [p] && !job.stage.InQueue? && step.job.stage.InQueue?
    else if Steals(pc) && sh.queue.items != [] then
      step.sh.queue.items == sh.queue.items[1..] && !step.job.stage.InQueue?
    else step.sh.queue.items == sh.queue.items && (step.job.stage.InQueue? <==> job.stage.InQueue?)
  }

  /** Custody: the job worked on is afterwards in the mover's hands exactly when its record says so, and every
      other job stays where it was. */
  ghost predicate CustodyFollows(p: Pid, subject: Option<Pid>, job: Job, pc: Pc, step: Step) {
    && Distinct(Stock(step.pc))
    && (forall j: Pid :: subject != Some(j) ==> StageInHand(p, step.pc, j) == StageInHand(p, pc, j))
    && (subject.Some? ==>
          && StageInHand(p, step.pc, subject.value)
              == (if step.job.holder == Some(p) then Some(step.job.stage) else None)
          && (StageInHand(p, pc, subject.value).None? && !job.stage.InQueue? ==>
                step.job.stage == job.stage && step.job.holder == job.holder)
          && (step.job.holder == Some(p) || step.job.holder.None? || step.job.holder == job.holder))
  }

  // ----- lifecycle

  predicate GlobalOk(sh: Shared) {
    var life := sh.mon.pool.life;
    && !life.Terminated? && sh.mon.pool.exiting == 0
    && (life != Running ==> sh.gate.closed) && (life == Stopping ==> sh.stop)
  }

  /** What a thread knows of the shared state at its position. */
  predicate LocalOk(sh: Shared, pc: Pc) {
    var life := sh.mon.pool.life;
    match pc
    case Sub(sub) => sub.WakeToken? ==> sub.idle >= 1
    case Idle(idle) =>
      (match idle
       case MarkIdle | SeeQueued | SeePending | Park => life == Running
       case ExitInflight(_) => life == ShuttingDown && !sh.cfg.inflightFirst
       case ExitInflight1 => life == ShuttingDown && sh.cfg.inflightFirst
       case ExitQueued2(none) => life == ShuttingDown && sh.cfg.inflightFirst && (none ==> sh.gate.inflight <= 0)
       case DrainMark | DrainQueued | DrainInflight | DrainPark => life == ShuttingDown
       case DrainParked | Hook | ExitLock | ExitLive => life != Running
       case _ => true)
    case Check(_, ret) => ret.RetTerm? ==> sh.mon.pool.Quiet()
    case Stop(stop) =>
      (stop.StopClose? || sh.gate.closed)
      && (stop.StopClose? || stop.StopFlag? || sh.stop)
      && (stop.StopClose? || stop.StopFlag? || stop.StopLock? || stop.StopLife? || life == Stopping)
    case Wait(wait) =>
      (wait.ShutLock? || wait.ShutLife? || wait.ShutNotify? ==> sh.gate.closed)
          && (wait.ShutNotify? ==> life != Running)
    case _ => true
  }

  /** The lifecycle moves only forward. */
  predicate LifeFollows(sh: Shared, pc: Pc, step: Step) {
    var now, next := sh.mon.pool.life, step.sh.mon.pool.life;
    next == now || (pc == Stop(StopLife) && next == AfterStop(now))
    || (pc == Wait(ShutLife) && now.Running? && next.ShuttingDown?)
  }

  // ----- waiting

  predicate ParksFor(a: Awaited, pc: Pc) {
    match a
    case NoSubmitters => pc == Idle(DrainPark) || pc == Stop(StopPark)
    case AllIdle => pc == Wait(JoinPark)
    case AllGone => pc == Wait(TermPark)
  }

  predicate SleepsFor(a: Awaited, pc: Pc) {
    match a
    case NoSubmitters => pc == Idle(DrainParked) || pc == Stop(StopParked)
    case AllIdle => pc == Wait(JoinParked)
    case AllGone => pc == Wait(TermParked)
  }

  /** Past the write that may have met the condition, and on the way to `notify_all`. */
  predicate Coming(a: Awaited, pc: Pc) {
    match pc
    case NotifyLock(_) => true
    case NotifyAll(_) => true
    case Sub(sub) => sub.LeaveOpen? || (sub.LeaveWaiters? && a.AllIdle?)
    case Check(_, ret) => ret.RetLoop? && !a.NoSubmitters?
    case Wait(wait) => wait.ShutNotify? && a.AllGone?
    case Stop(stop) => !stop.StopClose? && !stop.StopFlag? && !stop.StopLock? && !stop.StopLife? && a.AllGone?
    case _ => false
  }

  /** How many of its own steps at most separate a thread on the way from the end of its `notify_all`. */
  function Distance(pc: Pc): nat {
    match pc
    case NotifyAll(_) => 1
    case NotifyLock(_) => 2
    case Sub(sub) => if sub.LeaveOpen? then 4 else 3
    case Check(loads, _) =>
      (match loads
       case Load0 => 6
       case Load1(_) => 5
       case Load2(_) => 4
       case Load3(_) => 3)
    case Wait(_) => 1
    case Stop(stop) =>
      (match stop
       case StopNotify(_) => 1
       case StopCountCancelling(_, rest) => 2 + 2 * |rest|
       case StopUncount(_, rest) => 3 + 2 * |rest|
       case StopSteal(list) => 4 + 2 * |list|
       case StopWaitSub => 5
       case StopWait => 6
       case StopPark => 8
       case _ => 7)
    case _ => 0
  }

  /** The counters count at least the mover and its job. */
  predicate Felt(sh: Shared, job: Job, pc: Pc) {
    && sh.acct.slots >= B(Adds(Slots, job.stage))
    && sh.acct.running >= B(Adds(RunningTasks, job.stage))
    && sh.acct.cancelling >= B(Adds(CancellingTasks, job.stage))
    && sh.gate.inflight >= B(InFlight(pc))
  }

  predicate Notifies(pc: Pc) { HoldsMonitor(pc) && NotifiesAll(pc) }

  /** A condition met by a step leaves its mover on the way to notify; a mover on the way comes closer with each of
      its steps until it has notified, as long as the condition holds; nobody goes to sleep while it holds. */
  predicate WatchFollows(sh: Shared, pc: Pc, step: Step) {
    forall a: Awaited ::
      && (Meets(a, step.sh) && !Meets(a, sh) ==> Coming(a, step.pc) || Notifies(pc))
      && (Coming(a, pc) && Meets(a, sh) && (if a.AllIdle? then sh.tally.idleWaiters > 0 else sh.gate.closed) ==>
            (Coming(a, step.pc) && Distance(step.pc) < Distance(pc)) || Notifies(pc))
      && (ParksFor(a, step.pc) ==> !Meets(a, step.sh))
      && (SleepsFor(a, step.pc) ==> ParksFor(a, pc) && (Meets(a, step.sh) <==> Meets(a, sh)))
  }

  // ----- sequences without repetition

  lemma DistinctCons(x: Pid, rest: seq<Pid>)
    requires Distinct([x] + rest)
    ensures x !in rest && Distinct(rest)
  {
    var all := [x] + rest;
    assert forall k :: 0 <= k < |rest| ==> all[k + 1] == rest[k] && all[0] != all[k + 1];
  }

  lemma DistinctSnoc(list: seq<Pid>, x: Pid)
    requires Distinct(list) && x !in list
    ensures Distinct(list + [x])
  {
  }

  lemma DistinctParts(done: seq<Pid>, rest: seq<Pid>)
    requires Distinct(done + rest) && rest != []
    ensures rest == [rest[0]] + rest[1..] && rest[0] !in rest[1..] && rest[0] !in done
    ensures done + [rest[0]] + rest[1..] == done + rest
    ensures forall j :: j in rest <==> j == rest[0] || j in rest[1..]
  {
    var all := done + rest;
    assert forall k :: 0 <= k < |done| ==> all[k] == done[k];
    assert forall k :: 0 <= k < |rest| ==> all[|done| + k] == rest[k];
    assert forall k :: 0 <= k < |rest| - 1 ==> rest[1..][k] == rest[k + 1];
    assert rest == [rest[0]] + rest[1..];
  }
}
