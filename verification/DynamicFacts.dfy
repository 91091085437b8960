/** What every reachable state of the dynamic pool satisfies, thread by thread and job by job. */
module DynamicFacts {
  import opened PoolTypes
  import opened PoolAccounting
  import opened PoolShared
  import opened DynamicPool
  import opened DynamicRun

  // ----- threads

  datatype Role = Submitter | Worker | Stopper | Canceller | Other

  /** What a thread is for; no step changes it. */
  function RoleOf(pc: Pc): Role {
    match pc
    case Sub(_) => Submitter
    case Grow(_) => if InFlight(pc) then Submitter else Other
    case Acc(_) => Submitter
    case Pub(_) => Submitter
    case Cut(_) => Submitter
    case Work(_) => Worker
    case Run(_, _) => Worker
    case Idle(_) => Worker
    case Drain(_) => Worker
    case Exit(_) => Worker
    case Fin(_, _, ret) => RoleOfRet(ret)
    case Check(_, ret) => RoleOfRet(ret)
    case NotifyLock(ret) => RoleOfRet(ret)
    case NotifyAll(ret) => RoleOfRet(ret)
    case Stop(_) => Stopper
    case Purge(_, _, _) => Stopper
    case Wait(_) => Other
    case Look(_, _, _) => Canceller
    case Find(_, _) => Canceller
    case Done(outcome) =>
      (match outcome
       case Submit => Submitter
       case Stopped(_) => Stopper
       case Ticket(_, _) => Canceller
       case _ => Other)
    case Dead => Worker
  }

  function RoleOfRet(ret: Ret): Role {
    match ret
    case RetWake | RetReject | RetReserved | RetDepart => Submitter
    case RetSpawn(forJob) => if forJob then Submitter else Other
    case RetLoop | RetUnregister | RetExit => Worker
    case RetTicket(_) => Canceller
    case RetStop(_, _) | RetStopEnd(_) => Stopper
    case RetJoin | RetTerm => Other
  }

  /** Subroutines return only to their callers. */
  predicate RetOk(p: Pid, pc: Pc) {
    match pc
    case Fin(_, j, ret) => (ret.RetReserved? && j == p) || ret == RetTicket(j) || ret.RetStop?
    case Check(_, ret) => ret.RetReserved? || ret.RetTicket? || ret.RetStop? || ret.RetLoop? || InMonitor(ret)
    case NotifyLock(ret) => !InMonitor(ret)
    case NotifyAll(ret) => !InMonitor(ret)
    case _ => true
  }

  /** The two positions of `notify_waiters_after_atomic_change`. */
  function NotifyAt(all: bool, ret: Ret): Pc { if all then NotifyAll(ret) else NotifyLock(ret) }

  /** The positions of `shutdown` and `join`. */
  predicate ShutsOrJoins(g: WaitPc) {
    || g.ShutClose? || g.ShutLock? || g.ShutLife? || g.ShutNotify?
    || g.JoinAdd? || g.JoinLock? || g.JoinPark? || g.JoinParked? || g.JoinSub?
  }

  predicate ParksAt(pc: Pc) {
    match pc
    case Idle(idle) => idle.Parked?
    case Drain(drain) => drain.DrainParked?
    case Stop(stop) => stop.StopParked?
    case Wait(wait) => wait.JoinParked? || wait.TermParked?
    case _ => false
  }

  // ----- jobs in hand

  /** The stage of the job in a thread's hands; None when the thread has no job in its hands. */
  function HandStage(pc: Pc): Option<Stage> {
    match pc
    case Sub(sub) => if sub.Enter? || sub.SubLock? || sub.Decide? || sub.Slot? then Some(New) else None
    case Grow(grow) => if InFlight(pc) && !grow.FailNotify? then Some(New) else None
    case Acc(acc) =>
      if acc.MarkLock? || acc.Mark? || acc.Call? then Some(Reserved)
      else if acc.Rollback? then Some(AcceptFailed) else None
    case Pub(pub) =>
      (match pub
       case QueueLock | CountSubmitted => Some(AcceptedOk)
       case CountQueued => Some(Submitted)
       case EntryLock | Settle | Push => Some(Counted))
    case Cut(cut) =>
      (match cut
       case Uncount => Some(Counted)
       case CountCancelling => Some(Uncounted)
       case ReleaseEntry | ReleaseQueue => Some(Cancelling)
       case DoneLock | DoneMark | DoneNotify => None)
    case Work(work) =>
      (match work
       case Start | TakeLock | TakeStop | TakePop => None
       case TakeEntryLock(_) | TakeEntry(_) => Some(Popped)
       case ClaimQueued(_) => Some(Taken)
       case ClaimRun(_) => Some(ClaimUncounted)
       case ClaimSlot(_) => Some(ClaimRunning)
       case TakeRelease(_) => Some(Held))
    case Run(run, _) =>
      (match run
       case RunCall => Some(Held)
       case EndCompleted => Some(Ran)
       case EndRunning => Some(RanCounted))
    case Fin(fin, _, _) =>
      (match fin
       case CancelCall => Some(Cancelling)
       case CountCancelled => Some(CancelCalled)
       case UncountCancelling => Some(CancelCounted)
       case ReleaseSlot => Some(CancelClosed))
    case Purge(purge, _, _) =>
      (match purge
       case StopPop => None
       case StopEntryLock | StopEntry => Some(Popped)
       case StopUncount => Some(Taken)
       case StopCountCancelling => Some(Uncounted))
    case Find(find, _) =>
      if find.TicketUncount? then Some(Taken) else if find.TicketCountCancelling? then Some(Uncounted) else None
    case _ => None
  }

  /** Jobs a stop has drained and not yet begun to cancel. */
  function Backlog(pc: Pc): seq<Pid> {
    match pc
    case Purge(_, list, _) => list
    case Stop(stop) => if stop.StopNotify? then stop.list else []
    case Fin(_, _, ret) => if ret.RetStop? then ret.rest else []
    case Check(_, ret) => if ret.RetStop? then ret.rest else []
    case NotifyLock(ret) => if ret.RetStop? then ret.rest else []
    case NotifyAll(ret) => if ret.RetStop? then ret.rest else []
    case _ => []
  }

  predicate HoldsJob(p: Pid, pc: Pc, j: Pid) { HandStage(pc).Some? && Target(p, pc) == Some(j) }

  predicate InHands(p: Pid, pc: Pc, j: Pid) { HoldsJob(p, pc, j) || j in Backlog(pc) }

  // ----- entries

  /** Entry state against the stage of the job. */
  predicate EntryOk(job: Job) {
    var st := job.stage;
    match job.entry
    case NoEntry | Prepared => job.reservedBy.None? && (st.New? || st.Rejected? || Unpublished(st) || st.Refused?)
    case Accepting(_, requested) =>
      job.ticketed && (requested <==> job.reservedBy.Some?) && (Unpublished(st) || st.Refused?)
    case EntryQueued => job.reservedBy.None? && (st.Counted? || st.InQueue? || st.Popped?)
    case EntryTaken => job.reservedBy.None? && (st.Taken? || Claiming(st) || OwnedByWorker(st) || st.Completed?
                                                || BeingCancelled(st) || st.Cancelled?)
    case EntryCancelling => job.reservedBy.Some? && (st.Counted? || BeingCancelled(st) || st.Cancelled?)
    case EntryCancelled => job.reservedBy.Some? && st.Cancelled?
    case EntryRejected => st.Refused?
  }

  /** The moves of an entry: accepted into the queue and taken once, cancelled before it is ever queued, or rejected. */
  predicate EntryEdge(before: Entry, after: Entry) {
    after == before
    || (match before
        case NoEntry => after.EntryQueued?
        case Prepared => after.Accepting? && !after.requested
        case Accepting(owner, requested) =>
          (!requested && after == Accepting(owner, true)) || after.EntryRejected?
          || (if requested then after.EntryCancelling? else after.EntryQueued?)
        case EntryQueued => after.EntryTaken?
        case EntryCancelling => after.EntryCancelled?
        case _ => false)
  }

  /** Callback calls made so far, handoff mark and custody against the stage. */
  predicate CallsOk(job: Job) {
    var st := job.stage;
    && job.accepts == AcceptCalls(st) && job.runs == RunCalls(st) && job.cancels == CancelCalls(st)
    && (job.handoff ==> !st.New? && !st.Rejected?)
    && (job.holder.None? <==> st.InQueue? || IsEnd(st))
  }

  predicate JobOk(job: Job) { EntryOk(job) && CallsOk(job) }

  /** A submission's own job, by the submission's position. */
  predicate OwnJobAt(pc: Pc, job: Job) {
    match pc
    case Sub(sub) => HandStage(pc).Some? ==> job.entry == Unused(job)
    case Grow(_) => HandStage(pc).Some? ==> job.entry == Unused(job)
    case Acc(acc) =>
      if acc.MarkLock? || acc.Mark? then job.ticketed && job.entry.Prepared?
      else if acc.RejectNotify? then true
      else if acc.RejectLock? || acc.RejectMark? then job.ticketed && job.entry.Accepting? && job.stage.Refused?
      else InAcceptance(job)
    case Pub(pub) =>
      (match pub
       case QueueLock | CountSubmitted | CountQueued => InAcceptance(job)
       case EntryLock | Settle => job.entry.Accepting?
       case Push => job.entry == if job.ticketed then EntryQueued else NoEntry)
    case Cut(cut) =>
      (match cut
       case DoneNotify => job.entry.EntryCancelled?
       case DoneLock | DoneMark => job.entry.EntryCancelling? && job.stage.Cancelled?
       case _ => job.entry.EntryCancelling?)
    case Fin(_, _, ret) => job.entry.EntryCancelling?
    case Check(_, ret) => ret.RetReserved? ==> job.entry.EntryCancelling? && job.stage.Cancelled?
    case NotifyLock(ret) => ret.RetReserved? ==> job.entry.EntryCancelling? && job.stage.Cancelled?
    case NotifyAll(ret) => ret.RetReserved? ==> job.entry.EntryCancelling? && job.stage.Cancelled?
    case _ => true
  }

  function Unused(job: Job): Entry { if job.ticketed then Prepared else NoEntry }

  predicate InAcceptance(job: Job) { if job.ticketed then job.entry.Accepting? else job.entry.NoEntry? }

  // ----- counters of threads

  datatype Gauge = InFlightGauge | LiveGauge | ExitingGauge | MarkedGauge | IdleGauge | JoinGauge | StopGauge

  function Reading(g: Gauge, sh: Shared): int {
    match g
    case InFlightGauge => sh.gate.inflight
    case LiveGauge => sh.mon.pool.live
    case ExitingGauge => sh.mon.pool.exiting
    case MarkedGauge => sh.mon.pool.idle
    case IdleGauge => sh.wake.idle
    case JoinGauge => sh.tally.idleWaiters
    case StopGauge => sh.tally.submitWaiters
  }

  predicate Weighs(g: Gauge, pc: Pc) {
    match g
    case InFlightGauge => InFlight(pc)
    case LiveGauge => LiveWorker(pc) || (pc.Grow? && pc.grow.Spawn?)
    case ExitingGauge => ExitingWorker(pc)
    case MarkedGauge => Marked(pc)
    case IdleGauge => Marked(pc)
    case JoinGauge => JoinWaiter(pc)
    case StopGauge => SubmitWaiter(pc)
  }

  // ----- one step

  /** What the invariants say about the thread about to step: its locks ... */
  predicate LocksReady(sh: Shared, p: Pid, job: Job, pc: Pc) {
    && RetOk(p, pc) && !Finished(pc)
    && (HoldsMonitor(pc) ==> sh.mon.owner == Some(p))
    && (HoldsQueue(pc) ==> sh.queue.owner == Some(p))
    && (HoldsEntry(pc) ==> job.entryLock == Some(p))
  }

  /** ... and the job it works on. */
  predicate StageReady(sh: Shared, p: Pid, job: Job, pc: Pc) {
    && RetOk(p, pc)
    && (HandStage(pc).Some? ==> job.stage == HandStage(pc).value)
    && (Pops(pc) && sh.queue.items != [] ==> job.stage.InQueue?)
    && (pc.Find? && (pc.find.TicketLock? || pc.find.TicketTake?) ==> job.stage.InQueue?)
  }

  predicate OwnReady(pc: Pc, job: Job) { RoleOf(pc).Submitter? ==> OwnJobAt(pc, job) }

  function OwnerAfter(had: Option<Pid>, p: Pid, holds: bool, held: bool): Option<Pid> {
    if holds then Some(p) else if held then None else had
  }

  predicate LocksFollow(sh: Shared, p: Pid, job: Job, pc: Pc, step: Step) {
    && step.sh.mon.owner == OwnerAfter(sh.mon.owner, p, HoldsMonitor(step.pc), HoldsMonitor(pc))
    && step.sh.queue.owner == OwnerAfter(sh.queue.owner, p, HoldsQueue(step.pc), HoldsQueue(pc))
    && step.job.entryLock == OwnerAfter(job.entryLock, p, HoldsEntry(step.pc), HoldsEntry(pc))
  }

  /** A thread acquires only the lock it waited for, and keeps an entry lock only on one job. */
  predicate AcquiresWanted(p: Pid, pc: Pc, next: Pc) {
    && (HoldsMonitor(next) && !HoldsMonitor(pc) ==> Wants(p, pc) == Some(MonitorLock))
    && (HoldsQueue(next) && !HoldsQueue(pc) ==> Wants(p, pc) == Some(FifoLock))
    && (HoldsEntry(next) ==> Target(p, next).Some? && Target(p, next) == Target(p, pc))
    && (HoldsEntry(next) && !HoldsEntry(pc) ==> Wants(p, pc) == Some(JobLock(Target(p, pc).value)))
  }

  predicate RolesFollow(sh: Shared, p: Pid, job: Job, pc: Pc, step: Step) {
    && RoleOf(step.pc) == RoleOf(pc) && RetOk(p, step.pc)
    && (Target(p, step.pc).Some? && HandStage(step.pc).None? ==> Target(p, step.pc) == Target(p, pc))
    && step.sh.mon.parked <= sh.mon.parked + {p} && step.job.entryParked <= job.entryParked + {p}
    && (p in step.sh.mon.parked ==> ParksAt(step.pc))
    && (p in step.job.entryParked ==> AwaitsEntry(step.pc) && Target(p, step.pc) == Target(p, pc))
  }

  predicate Awake(sh: Shared, p: Pid, job: Job) { p !in sh.mon.parked && p !in job.entryParked }

  predicate CountersFollow(sh: Shared, job: Job, step: Step) {
    forall c: Counter :: step.sh.acct.Get(c) - sh.acct.Get(c) == B(Adds(c, step.job.stage)) - B(Adds(c, job.stage))
  }

  /** Workers the lock-free live count should show: live ones, and those about to take themselves off it. */
  predicate OnTally(pc: Pc) { LiveWorker(pc) || pc == Exit(UncountLive) }

  /** A spawner that has started a worker and not put it on the lock-free live count yet. */
  predicate OwesTally(pc: Pc) { pc.Grow? && pc.grow.CountUp? }

  predicate TallyFollows(sh: Shared, pc: Pc, step: Step, spawns: bool) {
    step.sh.tally.live - sh.tally.live
    == B(OnTally(step.pc)) - B(OnTally(pc)) - B(OwesTally(step.pc)) + B(OwesTally(pc)) + B(spawns)
  }

  predicate GaugesFollow(sh: Shared, pc: Pc, step: Step, spawns: bool) {
    forall g: Gauge ::
      Reading(g, step.sh) - Reading(g, sh) == B(Weighs(g, step.pc)) - B(Weighs(g, pc)) + B(spawns && g.LiveGauge?)
  }

  /** The submission's view of its own job. */
  predicate OwnJobFollows(pc: Pc, step: Step) {
    RoleOf(pc).Submitter? ==> OwnJobAt(step.pc, step.job)
  }

  /** The stop begins to cancel the next drained job. */
  predicate BeginsNext(pc: Pc, next: Pc) { next.Fin? && next.ret.RetStop? && !pc.Fin? }

  /** The stop has drained the job in its hands. */
  predicate Drains(pc: Pc) { pc.Purge? && pc.purge.StopCountCancelling? }

  /** Custody of the job worked on. */
  predicate CustodyFollows(p: Pid, subject: Option<Pid>, job: Job, pc: Pc, step: Step) {
    if Drains(pc) then
      && HandStage(step.pc).None? && subject.Some? && Backlog(step.pc) == Backlog(pc) + [subject.value]
      && step.job.holder == Some(p) && step.job.stage.Cancelling?
    else if BeginsNext(pc, step.pc) then
      && HandStage(pc).None? && Backlog(pc) != [] && Backlog(step.pc) == Backlog(pc)[1..]
      && Target(p, step.pc) == Some(Backlog(pc)[0]) && HandStage(step.pc) == Some(Cancelling)
      && subject.None?
    else
      && Backlog(step.pc) == Backlog(pc)
      && (HandStage(step.pc).Some? ==>
            subject.Some? && Target(p, step.pc) == subject
            && step.job.holder == Some(p) && step.job.stage == HandStage(step.pc).value)
      && (HandStage(pc).Some? && HandStage(step.pc).None? ==> step.job.holder == None)
      && (HandStage(pc).None? && HandStage(step.pc).Some? ==> job.stage.InQueue?)
  }

  predicate Finding(pc: Pc) { pc.Find? && (pc.find.TicketLock? || pc.find.TicketTake?) }

  /** The queue gains the job just published, loses its head, or loses the ticket's job; nothing else. */
  predicate QueueFollows(sh: Shared, p: Pid, job: Job, pc: Pc, step: Step) {
    var before := sh.queue.items;
    var after := step.sh.queue.items;
    && (after != before ==> HoldsQueue(pc))
    && (if pc == Pub(Push) then after == before + [p] && job.stage.Counted? && step.job.stage.InQueue?
        else if Pops(pc) && before != [] then after == before[1..] && step.job.stage.Popped?
        else if pc.Find? && pc.find.TicketTake? then after == RemoveFirst(before, pc.target) && !step.job.stage.InQueue?
        else after == before && (step.job.stage.InQueue? <==> job.stage.InQueue?))
    && (Finding(step.pc) && !Finding(pc) ==> HoldsQueue(pc) && step.pc.target in after)
    && (Finding(step.pc) && Finding(pc) ==> step.pc.target == pc.target && after == before)
  }

  /** A job that is neither in the thread's hands before nor after the step keeps its stage and holder. */
  predicate OthersKept(job: Job, pc: Pc, step: Step) {
    HandStage(pc).None? && HandStage(step.pc).None? ==> step.job.holder == job.holder && step.job.stage == job.stage
  }

  /** A worker, a stop or a ticket passing by somebody's job leaves its entry alone,
      except for a request to cancel during acceptance. */
  predicate ForeignFollows(job: Job, pc: Pc, step: Step) {
    RoleOf(pc).Submitter? || HandStage(pc).Some? || HandStage(step.pc).Some?
    || (step.job.ticketed == job.ticketed
        && (step.job.entry == job.entry || (job.entry.Accepting? && step.job.entry.Accepting?)))
  }

  /** The job a worker has popped and not yet recorded as claimed. */
  function ClaimInHand(pc: Pc): seq<Pid> {
    match pc
    case Work(work) =>
      if work.TakeEntryLock? || work.TakeEntry? || work.ClaimQueued? || work.ClaimRun? then [work.j] else []
    case _ => []
  }

  /** The orders of publication and of claims grow by the job just published or claimed. */
  predicate LineFollows(sh: Shared, p: Pid, pc: Pc, step: Step) {
    var claims := pc.Work? && pc.work.ClaimRun?;
    && step.sh.queue.pushed == (if pc == Pub(Push) then sh.queue.pushed + [p] else sh.queue.pushed)
    && step.sh.queue.claimed == (if claims then sh.queue.claimed + ClaimInHand(pc) else sh.queue.claimed)
    && ClaimInHand(step.pc) == (if pc == Work(TakePop) && sh.queue.items != [] then [sh.queue.items[0]]
                                else if claims then [] else ClaimInHand(pc))
  }

  // ----- credit for cancellations

  /** Who a cancellation is credited to, against entry and stage. */
  predicate CreditOk(job: Job) {
    var st := job.stage;
    && (job.cancelledBy.Some? ==>
          (st.Counted? && job.entry.EntryCancelling?) || st.Taken? || BeingCancelled(st) || st.Cancelled?)
    && (BeingCancelled(st) || st.Cancelled? ==> job.cancelledBy.Some?)
    && (job.entry.EntryCancelling? || job.entry.EntryCancelled? ==> job.cancelledBy == job.reservedBy)
  }

  /** The job whose cancellation a thread is deciding about or carrying out. */
  function CreditJob(p: Pid, pc: Pc): Option<Pid> {
    match pc
    case Work(work) => if work.ClaimQueued? then Some(work.j) else None
    case Purge(purge, _, j) => if purge.StopUncount? || purge.StopCountCancelling? then Some(j) else None
    case Look(_, j, _) => Some(j)
    case Find(_, j) => Some(j)
    case Fin(_, _, ret) => if ret.RetTicket? then Some(ret.j) else None
    case Check(_, ret) => if ret.RetTicket? then Some(ret.j) else None
    case NotifyLock(ret) => if ret.RetTicket? then Some(ret.j) else None
    case NotifyAll(ret) => if ret.RetTicket? then Some(ret.j) else None
    case Done(outcome) => if outcome.Ticket? then Some(outcome.j) else None
    case _ => None
  }

  predicate Credited(job: Job, p: Pid) { job.cancelledBy == Some(p) }

  predicate ReservedFor(job: Job, p: Pid) { job.reservedBy == Some(p) }

  /** What a thread knows about the credit of that job. */
  predicate CreditAt(p: Pid, pc: Pc, job: Job) {
    match pc
    case Work(_) => job.cancelledBy.None?
    case Purge(_, _, _) => Credited(job, p)
    case Look(look, _, _) =>
      if look.LookLock? || look.LookEntry? then !Credited(job, p) && !ReservedFor(job, p) else ReservedFor(job, p)
    case Find(find, _) =>
      !ReservedFor(job, p) && (Credited(job, p) <==> find.TicketUncount? || find.TicketCountCancelling?)
    case Fin(_, _, _) => !ReservedFor(job, p) && Credited(job, p)
    case Check(_, _) => Credited(job, p) && job.stage.Cancelled?
    case NotifyLock(_) => Credited(job, p) && job.stage.Cancelled?
    case NotifyAll(_) => Credited(job, p) && job.stage.Cancelled?
    case Done(outcome) =>
      outcome.Ticket? ==>
        if outcome.won then Credited(job, p) && job.stage.Cancelled?
        else !Credited(job, p) && (ReservedFor(job, p) ==> job.stage.Refused?)
    case _ => true
  }

  /** A request to cancel and the credit are given once. */
  predicate CreditMoves(p: Pid, job: Job, next: Job) {
    && (next.cancelledBy == job.cancelledBy
        || (job.cancelledBy.None? && job.stage.Counted? && next.cancelledBy == job.reservedBy)
        || (job.cancelledBy.None? && (job.stage.InQueue? || job.stage.Popped?) && next.cancelledBy == Some(p)))
    && (next.reservedBy == job.reservedBy || (job.reservedBy.None? && next.reservedBy == Some(p)))
  }

  /** The outcome of a cancellation reserved during acceptance is still open. */
  predicate Undecided(entry: Entry) { entry.Accepting? || entry.EntryCancelling? }

  /** The submitter has settled the entry and is about to wake the ticket that waits for it. */
  predicate AboutToNotify(pc: Pc) { pc == Cut(DoneNotify) || pc == Acc(RejectNotify) }

  /** Tickets fall asleep on open entries only, and whoever settles an entry goes on to wake them. */
  predicate EntryWatchFollows(sh: Shared, p: Pid, job: Job, pc: Pc, step: Step) {
    && ((step.job.entry.EntryRejected? || step.job.entry.EntryCancelled?) && step.job.entry != job.entry ==>
          AboutToNotify(step.pc) && Subject(sh, p, pc) == Some(p))
    && (AboutToNotify(pc) ==> step.job.entryParked == {} && Subject(sh, p, pc) == Some(p))
    && (step.job.entryParked <= job.entryParked
        || (AwaitsEntry(step.pc) && Undecided(step.job.entry) && step.job.entryParked == job.entryParked + {p}))
  }

  predicate CreditFollows(sh: Shared, p: Pid, job: Job, pc: Pc, step: Step) {
    && CreditOk(step.job) && CreditMoves(p, job, step.job)
    && (step.job.reservedBy != job.reservedBy ==> RoleOf(pc).Canceller? && CreditJob(p, pc) == Subject(sh, p, pc))
    && (step.job.cancelledBy != job.cancelledBy && !job.stage.Counted? ==>
          RoleOf(pc).Stopper? || (RoleOf(pc).Canceller? && CreditJob(p, pc) == Subject(sh, p, pc)))
    && (RoleOf(pc).Canceller? ==> CreditJob(p, pc).Some? && CreditJob(p, step.pc) == CreditJob(p, pc))
    && (CreditJob(p, step.pc).Some? && CreditJob(p, step.pc) == Subject(sh, p, pc) ==> CreditAt(p, step.pc, step.job))
    && (CreditJob(p, step.pc).Some? && CreditJob(p, step.pc) != Subject(sh, p, pc) ==>
          RoleOf(pc).Canceller? && (pc.Check? || pc.NotifyLock? || pc.NotifyAll?)
          && (step.pc.Check? || step.pc.NotifyLock? || step.pc.NotifyAll?
                || step.pc == Done(Ticket(true, CreditJob(p, step.pc).value))))
  }

  // ----- what no step disturbs

  predicate NotifiesAll(pc: Pc) {
    match pc
    case NotifyAll(_) => true
    case Grow(grow) => grow.FailNotify?
    case Exit(exit) => exit.UnregisterNotify? || exit.ExitNotify?
    case Stop(stop) => stop.StopNotify?
    case Wait(wait) => wait.ShutNotify? || wait.SizeNotify?
    case _ => false
  }

  /** Protected state, one-way switches, wake tokens and the wait set. */
  predicate FramesFollow(sh: Shared, p: Pid, pc: Pc, step: Step) {
    && step.sh.cfg == sh.cfg
    && (HoldsMonitor(pc) || step.sh.mon.pool == sh.mon.pool)
    && (step.sh.mon.pool.live != sh.mon.pool.live ==> pc.Grow? || pc == Exit(Unregister))
    && (step.sh.mon.pool.exiting != sh.mon.pool.exiting ==> pc == Exit(Unregister) || pc == Exit(ExitMark))
    && (sh.gate.closed ==> step.sh.gate.closed) && (sh.stop ==> step.sh.stop)
    && (step.sh.wake.pending > sh.wake.pending ==>
          step.sh.wake.pending == sh.wake.pending + 1 && pc.Sub? && step.pc == NotifyLock(RetWake))
    && (step.sh.wake.pending < sh.wake.pending ==>
          step.sh.wake.pending == sh.wake.pending - 1 && sh.wake.pending > 0 && pc.Idle? && pc.idle.Consume?)
    && (NotifiesAll(pc) ==> step.sh.mon.parked == {})
    && (!NotifiesAll(pc) ==> sh.mon.parked <= step.sh.mon.parked)
    && (sh.queue.pushed <= step.sh.queue.pushed) && (sh.queue.claimed <= step.sh.queue.claimed)
    && (sh.gate.closed ==> step.sh.gate.inflight <= sh.gate.inflight)
  }

  /** The lifecycle moves only forward, by `stop` and `shutdown`, after admission was closed. */
  predicate LifeFollows(sh: Shared, pc: Pc, step: Step) {
    var now, next := sh.mon.pool.life, step.sh.mon.pool.life;
    next == now
    || (pc == Stop(StopLife) && next == AfterStop(now))
    || (pc == Wait(ShutLife) && now.Running? && next.ShuttingDown?)
  }

  /** How a thread gets from one part of the code to another. */
  predicate PathsFollow(pc: Pc, next: Pc) {
    && (next.Idle? && !pc.Idle? ==> next == Idle(IdleLock) || next == Idle(Unmark(false)))
    && (next.Drain? && !pc.Drain? ==> pc == Idle(Branch) && (next == Drain(ExitQueued) || next == Drain(ExitInflight1)))
    && (next == Exit(Unregister) ==> pc.Idle? || pc.Drain?)
    && (next.Check? && !pc.Check? ==> next.loads.Load0?)
    && (next.Grow? && !pc.Grow? ==> (next.grow.Reserve? && pc.Sub?) || (next.grow.FailNotify? && pc.Check?))
    && next != Sub(Enter) && (next.Done? && next.outcome.Joined? ==> pc.Wait?)
    && (next.Done? && next.outcome.SawTermination? ==> pc.Check?)
    && (next.Wait? && !pc.Wait? ==> pc.Check? && (pc.ret.RetJoin? || pc.ret.RetTerm?))
  }

  // ----- waiting

  /** About to fall asleep, having seen the condition fail. */
  predicate ParksFor(a: Awaited, pc: Pc) {
    match a
    case NoSubmitters => pc == Drain(DrainPark) || pc == Stop(StopPark)
    case AllIdle => pc == Wait(JoinPark)
    case AllGone => pc == Wait(TermPark)
  }

  predicate SleepsFor(a: Awaited, pc: Pc) {
    match a
    case NoSubmitters => pc == Drain(DrainParked) || pc == Stop(StopParked)
    case AllIdle => pc == Wait(JoinParked)
    case AllGone => pc == Wait(TermParked)
  }

  /** Past the write that may have met the condition, and on the way to `notify_all`. */
  predicate Coming(a: Awaited, pc: Pc) {
    match pc
    case NotifyLock(_) => true
    case NotifyAll(_) => true
    case Sub(sub) => sub.LeaveOpen? || (sub.LeaveWaiters? && a.AllIdle?)
    case Check(_, ret) => (!InMonitor(ret) && !a.NoSubmitters?) || (ret.RetExit? && a.AllGone?)
    case Exit(exit) => exit.ExitNotify? && a.AllGone?
    case Wait(wait) => wait.ShutNotify? && a.AllGone?
    case Stop(stop) => !stop.StopClose? && !stop.StopFlag? && !stop.StopLock? && !stop.StopLife? && a.AllGone?
    case Purge(_, _, _) => a.AllGone?
    case _ => false
  }

  /** How many of its own steps at most separate a thread on the way from the end of its `notify_all`. */
  function Distance(pc: Pc): nat {
    match pc
    case NotifyAll(_) => 1
    case NotifyLock(_) => 2
    case Sub(sub) => if sub.LeaveOpen? then 4 else 3
    case Check(loads, _) =>
      (match loads
       case Load0 => 6
       case Load1(_) => 5
       case Load2(_) => 4
       case Load3(_) => 3)
    case Exit(_) => 1
    case Wait(_) => 1
    case Stop(stop) =>
      (match stop
       case StopNotify(_) => 1
       case StopQueueLock => 3
       case StopRunning => 4
       case StopWaitSub => 5
       case StopWait => 6
       case StopWaitAdd => 7
       case StopParked => 7
       case StopPark => 8
       case _ => 7)
    case Purge(_, _, _) => 2
    case _ => 0
  }

  /** A condition met by a step leaves its mover on the way to notify; a mover on the way comes closer with each of
      its steps until it has notified, as long as the condition holds; nobody goes to sleep while it holds. */
  predicate WatchFollows(sh: Shared, pc: Pc, step: Step) {
    forall a: Awaited ::
      && (Meets(a, step.sh) && !Meets(a, sh) ==> Coming(a, step.pc))
      && (Coming(a, pc) && Meets(a, sh) && (if a.AllIdle? then sh.tally.idleWaiters > 0 else sh.gate.closed) ==>
            (Coming(a, step.pc) && Distance(step.pc) < Distance(pc)) || (HoldsMonitor(pc) && NotifiesAll(pc)))
      && (ParksFor(a, step.pc) ==> !Meets(a, step.sh))
      && (SleepsFor(a, step.pc) ==> ParksFor(a, pc) && (Meets(a, step.sh) <==> Meets(a, sh)))
  }

  /** The counters count at least the mover and its job. */
  predicate Felt(sh: Shared, job: Job, pc: Pc) {
    && sh.acct.slots >= B(Adds(Slots, job.stage))
    && sh.acct.queued >= B(Adds(Queued, job.stage))
    && sh.acct.running >= B(Adds(RunningTasks, job.stage))
    && sh.acct.cancelling >= B(Adds(CancellingTasks, job.stage))
    && sh.gate.inflight >= B(InFlight(pc))
    && sh.mon.pool.live >= B(Weighs(LiveGauge, pc))
    && sh.mon.pool.exiting >= B(ExitingWorker(pc))
  }

  // ----- lifecycle and sizing

  predicate Sized(pool: PoolState) { pool.core <= pool.max && pool.max >= 1 }

  predicate GlobalOk(sh: Shared) {
    var pool := sh.mon.pool;
    && Sized(pool) && !pool.life.Terminated?
    && (pool.life != Running ==> sh.gate.closed)
    && (pool.life == Stopping ==> sh.stop)
  }

  /** A worker may leave without taking the pool below its core size. */
  predicate MayLeave(pool: PoolState) {
    pool.life == Running && !pool.coreTimeout ==> pool.live > pool.core
  }

  /** What a thread knows of the shared state at its position. */
  predicate LocalOk(sh: Shared, pc: Pc) {
    var pool := sh.mon.pool;
    match pc
    case Sub(sub) =>
      (match sub
       case Slot => pool.life == Running && pool.live >= 1 && pool.live >= pool.core
       case WakeToken(idle) => idle >= 1
       case _ => true)
    case Grow(grow) =>
      (match grow
       case PreLock | PreDecide => true
       case Reserve(_) => pool.life == Running && pool.live < pool.max
       case Spawn(_) => pool.life == Running && 1 <= pool.live <= pool.max
       case CountUp(_) | Handoff => pool.life == Running && 1 <= pool.live <= pool.max
       case FailNotify(_) => pool.life == Running)
    case Idle(idle) =>
      (match idle
       case Shrink | MarkIdle(_) | SeeQueued(_) | SeePending(_) | Park(_) => pool.life == Running
       case Unmark(retire) => retire ==> MayLeave(pool)
       case Consume(retire) => retire ==> MayLeave(pool)
       case _ => true)
    case Drain(drain) =>
      sh.gate.closed
      && (match drain
          case ExitQueued | ExitInflight(_) => pool.life == ShuttingDown && !sh.cfg.inflightFirst
          case ExitInflight1 => pool.life == ShuttingDown && sh.cfg.inflightFirst
          case ExitQueued2(none) =>
            pool.life == ShuttingDown && sh.cfg.inflightFirst && (none ==> sh.gate.inflight <= 0)
          case DrainParked => pool.life != Running
          case _ => pool.life == ShuttingDown)
    case Exit(exit) => exit.Unregister? ==> MayLeave(pool)
    case Check(_, ret) =>
      (match ret
       case RetSpawn(_) => pool.life == Running
       case RetUnregister | RetExit | RetTerm => pool.Quiet()
       case _ => true)
    case Stop(stop) =>
      (stop.StopClose? || sh.gate.closed)
      && (stop.StopClose? || stop.StopFlag? || sh.stop)
      && (stop.StopClose? || stop.StopFlag? || stop.StopLock? || stop.StopLife? || pool.life == Stopping)
    case Purge(_, _, _) => sh.gate.closed && sh.stop && pool.life == Stopping
    case Wait(wait) =>
      (wait.ShutLock? || wait.ShutLife? || wait.ShutNotify? ==> sh.gate.closed)
      && (wait.ShutNotify? ==> pool.life != Running)
      && (wait.SizeSet? ==> wait.op != SetMax(0))
    case _ => true
  }
}
