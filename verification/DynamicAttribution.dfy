/** Every cancelled task is reported once: in one stop report or by one ticket. */
module DynamicAttribution {
  import opened PoolTypes
  import opened PoolAccounting
  import opened PoolShared
  import opened Counting
  import opened DynamicPool
  import opened DynamicRun
  import opened DynamicFacts
  import opened DynamicInvariant
  import opened DynamicLifecycle
  import opened DynamicTickets

  /** The cancellations a stop has taken on so far. */
  function Owed(pc: Pc): nat {
    match pc
    case Purge(purge, list, _) => |list| + if purge.StopUncount? || purge.StopCountCancelling? then 1 else 0
    case Stop(stop) => if stop.StopNotify? then |stop.list| else 0
    case Fin(_, _, ret) => OwedBy(ret)
    case Check(_, ret) => OwedBy(ret)
    case NotifyLock(ret) => OwedBy(ret)
    case NotifyAll(ret) => OwedBy(ret)
    case Done(outcome) => if outcome.Stopped? then outcome.total else 0
    case _ => 0
  }

  function OwedBy(ret: Ret): nat { if ret.RetStop? || ret.RetStopEnd? then ret.total else 0 }

  /** How many cancellations are credited to `p`. */
  ghost function Credit(jobs: map<Pid, Job>, p: Pid): nat { HowMany(jobs, (job: Job) => Credited(job, p)) }

  ghost predicate OwedOk(s: State) {
    forall p {:trigger Credit(s.jobs, p)} ::
      p in s.procs && RoleOf(s.procs[p]).Stopper? ==> Credit(s.jobs, p) == Owed(s.procs[p])
  }

  lemma CreditUpdated(jobs: map<Pid, Job>, j: Pid, job: Job, p: Pid)
    requires j in jobs
    ensures Credit(jobs[j := job], p) == Credit(jobs, p) - B(Credited(jobs[j], p)) + B(Credited(job, p))
  {
    HowManyUpdated(jobs, j, job, (x: Job) => Credited(x, p));
  }

  lemma NoCredit(jobs: map<Pid, Job>, p: Pid)
    requires forall j :: j in jobs ==> !Credited(jobs[j], p)
    ensures Credit(jobs, p) == 0
  {
    assert Chosen(jobs, (x: Job) => Credited(x, p)) == {};
  }

  /** A stop takes on a cancellation exactly when it takes the job out of its entry. */
  lemma OwedOfStep(sh: Shared, p: Pid, job: Job, pc: Pc, ok: bool, past: Past)
    requires RoleOf(pc).Stopper? && StageReady(sh, p, job, pc) && EntryOk(job) && CreditOk(job)
    ensures var step := StepOf(sh, p, job, pc, ok, past);
            Owed(step.pc) - Owed(pc) == B(Credited(step.job, p)) - B(Credited(job, p))
  {
    hide StageReady, EntryOk, CreditOk, PurgeStep, StopStep, FinStep, CheckStep, NotifyStep, Owed;
    match pc {
      case Purge(g, list, j) => OwedOfPurge(sh, p, job, g, list, j);
      case Stop(g) => OwedOfStop(sh, p, job, g);
      case Fin(g, j, ret) => OwedOfFin(sh, p, job, g, j, ret);
      case Check(g, ret) => OwedOfCheck(sh, p, job, g, ret, past);
      case NotifyLock(ret) => OwedOfNotify(sh, p, job, false, ret);
      case NotifyAll(ret) => OwedOfNotify(sh, p, job, true, ret);
      case _ => OwedElsewhere(pc);
    }
  }

  /** A stop that has returned takes no step. */
  lemma OwedElsewhere(pc: Pc)
    requires RoleOf(pc).Stopper? && !pc.Purge? && !pc.Stop? && !pc.Fin? && !pc.Check? && !pc.NotifyLock?
             && !pc.NotifyAll?
    ensures Finished(pc)
  {
  }

  lemma OwedOfStop(sh: Shared, p: Pid, job: Job, g: StopPc)
    ensures Owed(StopStep(sh, p, g).1) == Owed(Stop(g))
  {
  }

  lemma OwedOfFin(sh: Shared, p: Pid, job: Job, g: FinPc, j: Pid, ret: Ret)
    ensures Owed(FinStep(sh, job, g, j, ret).pc) == Owed(Fin(g, j, ret))
    ensures FinStep(sh, job, g, j, ret).job.cancelledBy == job.cancelledBy
  {
  }

  lemma OwedOfCheck(sh: Shared, p: Pid, job: Job, g: Loads, ret: Ret, past: Past)
    requires RoleOfRet(ret).Stopper?
    ensures Owed(CheckStep(sh, g, ret, past).1) == Owed(Check(g, ret))
  {
  }

  lemma OwedOfNotify(sh: Shared, p: Pid, job: Job, all: bool, ret: Ret)
    requires RoleOfRet(ret).Stopper?
    ensures Owed(NotifyStep(sh, p, all, ret).1) == Owed(if all then NotifyAll(ret) else NotifyLock(ret))
  {
  }

  lemma OwedOfPurge(sh: Shared, p: Pid, job: Job, g: PurgePc, list: seq<Pid>, j: Pid)
    requires StageReady(sh, p, job, Purge(g, list, j)) && EntryOk(job) && CreditOk(job)
    ensures var step := PurgeStep(sh, p, job, g, list, j);
            Owed(step.pc) - Owed(Purge(g, list, j)) == B(Credited(step.job, p)) - B(Credited(job, p))
  {
  }

  /** A step changes the credit of a stop only if the stop takes it. */
  lemma CreditMoved(s: State, p: Pid, ok: bool, worker: Pid, t: State, q: Pid)
    requires Inv(s) && KnowledgeOk(s) && TicketsOk(s) && Acts(s, p, ok, worker, t)
    requires q in s.procs && RoleOf(s.procs[q]).Stopper?
    ensures Credit(t.jobs, q) - Credit(s.jobs, q)
            == if q == p then B(Credited(StepAt(s, p, ok).job, p)) - B(Credited(JobAt(s, p), p)) else 0
  {
    hide Inv, KnowledgeOk, CanStep, Subject, StepAt, RoleOf, Credit, StageEdge, CreditOk, RolesOk, HandsOk, CreditsOk,
      CreditPlacesOk, CreditJob, CreditAt, Spawns;
    var step, subject := StepAt(s, p, ok), Subject(s.sh, p, s.procs[p]);
    ActCreditReady(s, p, ok, worker, t);
    if subject.Some? {
      CreditUpdated(s.jobs, subject.value, step.job, q);
      assert CreditorOk(s, subject.value, q);
    }
  }

  lemma StopperCredit(s: State, p: Pid, ok: bool, worker: Pid, t: State, q: Pid)
    requires Inv(s) && KnowledgeOk(s) && TicketsOk(s) && OwedOk(s) && Acts(s, p, ok, worker, t)
    requires q in t.procs && RoleOf(t.procs[q]).Stopper?
    ensures Credit(t.jobs, q) == Owed(t.procs[q])
  {
    hide Inv, KnowledgeOk, CanStep, Subject, StepAt, Owed, RoleOf, Credit, TicketsOk, JobAt;
    WorkerRole();
    RoleKept(s, p, ok);
    assert q in s.procs && RoleOf(s.procs[q]).Stopper? && Credit(s.jobs, q) == Owed(s.procs[q]);
    CreditMoved(s, p, ok, worker, t, q);
    if q == p {
      MoverOwes(s, p, ok);
    }
  }

  lemma WorkerRole()
    ensures RoleOf(Work(Start)).Worker?
  {
  }

  lemma MoverOwes(s: State, p: Pid, ok: bool)
    requires Inv(s) && KnowledgeOk(s) && TicketsOk(s) && p in s.procs && CanStep(s, p, s.procs[p])
    requires RoleOf(s.procs[p]).Stopper?
    ensures Owed(StepAt(s, p, ok).pc) - Owed(s.procs[p])
            == B(Credited(StepAt(s, p, ok).job, p)) - B(Credited(JobAt(s, p), p))
  {
    hide Inv, KnowledgeOk, CanStep, StepOf, Owed, RoleOf, StageReady, EntryOk, CallsOk, CreditOk, LocksReady, OwnReady,
      Subject;
    NotFinished(s, p);
    MoverReady(s, p);
    assert CreditOk(JobAt(s, p)) by { CreditOkNone(); }
    OwedOfStep(s.sh, p, JobAt(s, p), s.procs[p], ok, PastOf(s));
  }

  lemma ArriveOwed(s: State, p: Pid, r: Request, t: State)
    requires TicketsOk(s) && OwedOk(s) && Arrives(s, p, r, t)
    ensures OwedOk(t)
  {
    hide CreditsOk, CreditPlacesOk, RoleOf;
    assert Owed(StartPc(r)) == 0;
    forall j | j in s.jobs
      ensures !Credited(s.jobs[j], p)
    {
      assert CreditorOk(s, j, p);
    }
    NoCredit(s.jobs, p);
    hide Credit, Owed, StartPc, CreditorsOk;
    forall q | q in t.procs && RoleOf(t.procs[q]).Stopper?
      ensures Credit(t.jobs, q) == Owed(t.procs[q])
    {
      if r.NewSubmit? {
        NewJobCredit(s.jobs, p, NewJob(r.ticketed, r.thread, p), q);
      }
      assert q in s.procs ==> Credit(s.jobs, q) == Owed(s.procs[q]);
    }
  }

  lemma NewJobCredit(jobs: map<Pid, Job>, p: Pid, job: Job, q: Pid)
    requires p !in jobs && job.cancelledBy.None?
    ensures Credit(jobs[p := job], q) == Credit(jobs, q)
  {
    HowManyUpdated(jobs, p, job, (x: Job) => Credited(x, q));
  }

  lemma WakeOwed(s: State, e: Event, t: State)
    requires RolesOk(s) && OwedOk(s) && Next(s, e, t) && (e.Spurious? || e.Timeout?)
    ensures OwedOk(t)
  {
    SleeperRecords(s, e, t);
    SleeperCredit(s, e, t);
    SleeperOwes(s, e, t);
    hide Next, RoleOf, CreditJob, Owed, RolesOk;
    forall q | q in t.procs && RoleOf(t.procs[q]).Stopper?
      ensures Credit(t.jobs, q) == Owed(t.procs[q])
    {
      assert Chosen(t.jobs, (x: Job) => Credited(x, q)) == Chosen(s.jobs, (x: Job) => Credited(x, q));
      assert Credit(s.jobs, q) == Owed(s.procs[q]);
    }
  }

  lemma SleeperOwes(s: State, e: Event, t: State)
    requires Next(s, e, t) && (e.Spurious? || e.Timeout?)
    ensures forall q :: q in s.procs ==> q in t.procs && Owed(t.procs[q]) == Owed(s.procs[q])
  {
  }

  lemma OwedAtStart(b: Behavior)
    requires b.Valid()
    ensures OwedOk(b.states[0])
  {
    hide Next;
  }

  lemma {:induction false} AlwaysOwed(b: Behavior, i: nat)
    requires b.Valid() && i < |b.states|
    ensures OwedOk(b.states[i])
  {
    hide Inv, KnowledgeOk, TicketsOk, OwedOk, Acts, Arrives, TimesOut, WakesSpuriously;
    if i == 0 {
      OwedAtStart(b);
    } else {
      AlwaysOwed(b, i - 1);
      AlwaysKnowledge(b, i - 1);
      AlwaysTickets(b, i - 1);
      InvParts(b.states[i - 1]);
      match b.events[i - 1] {
        case Act(p, ok, worker) => ActOwed(b.states[i - 1], p, ok, worker, b.states[i]);
        case Arrive(p, r) => ArriveOwed(b.states[i - 1], p, r, b.states[i]);
        case _ => WakeOwed(b.states[i - 1], b.events[i - 1], b.states[i]);
      }
    }
  }

  lemma ActOwed(s: State, p: Pid, ok: bool, worker: Pid, t: State)
    requires Inv(s) && KnowledgeOk(s) && TicketsOk(s) && OwedOk(s) && Acts(s, p, ok, worker, t)
    ensures OwedOk(t)
  {
    hide Inv, KnowledgeOk, TicketsOk, Acts, RoleOf, Owed, Credit;
    forall q | q in t.procs && RoleOf(t.procs[q]).Stopper?
      ensures Credit(t.jobs, q) == Owed(t.procs[q])
    {
      StopperCredit(s, p, ok, worker, t, q);
    }
  }

  // ----- adding up

  /** What a returned call reports: the `cancelled` field of a stop report, or a true ticket. */
  function Reported(pc: Pc): nat {
    match pc
    case Done(outcome) =>
      (match outcome
       case Stopped(total) => total
       case Ticket(won, _) => if won then 1 else 0
       case _ => 0)
    case _ => 0
  }

  /** The sum of all reports of the threads in `ps`. */
  ghost function TotalReported(ps: set<Pid>, procs: map<Pid, Pc>): nat
    requires ps <= procs.Keys
  {
    if ps == {} then 0 else
      var p :| p in ps;
      Reported(procs[p]) + TotalReported(ps - {p}, procs)
  }

  /** Jobs credited to one of `ps`. */
  ghost function CreditedAmong(jobs: map<Pid, Job>, ps: set<Pid>): set<Pid> {
    set j | j in jobs && jobs[j].cancelledBy.Some? && jobs[j].cancelledBy.value in ps
  }

  /** Reports that agree with the credits, thread by thread, add up to the number of credited jobs. */
  lemma {:induction false} ReportsAddUp(ps: set<Pid>, procs: map<Pid, Pc>, jobs: map<Pid, Job>)
    requires ps <= procs.Keys && forall p :: p in ps ==> Reported(procs[p]) == Credit(jobs, p)
    ensures TotalReported(ps, procs) == |CreditedAmong(jobs, ps)|
  {
    hide Reported, Credit, CreditedAmong;
    if ps == {} {
      CreditedSplit(jobs, ps, 0);
    } else {
      var p :| p in ps && TotalReported(ps, procs) == Reported(procs[p]) + TotalReported(ps - {p}, procs);
      ReportsAddUp(ps - {p}, procs, jobs);
      CreditedSplit(jobs, ps, p);
    }
  }

  lemma CreditedSplit(jobs: map<Pid, Job>, ps: set<Pid>, p: Pid)
    ensures ps == {} ==> CreditedAmong(jobs, ps) == {}
    ensures p in ps ==> |CreditedAmong(jobs, ps)| == |CreditedAmong(jobs, ps - {p})| + Credit(jobs, p)
  {
    if p in ps {
      var own := Chosen(jobs, (x: Job) => Credited(x, p));
      assert CreditedAmong(jobs, ps) == CreditedAmong(jobs, ps - {p}) + own;
      assert CreditedAmong(jobs, ps - {p}) !! own;
    }
  }

  /** Every call has returned; workers may still be at work. */
  ghost predicate AllReturned(s: State) {
    forall p :: p in s.procs ==> s.procs[p].Done? || RoleOf(s.procs[p]).Worker?
  }

  lemma ReportIsCredit(s: State, p: Pid)
    requires RolesOk(s) && TicketsOk(s) && OwedOk(s) && p in s.procs && (s.procs[p].Done? || RoleOf(s.procs[p]).Worker?)
    ensures Reported(s.procs[p]) == Credit(s.jobs, p)
  {
    var pc := s.procs[p];
    if RoleOf(pc).Stopper? {
      assert Credit(s.jobs, p) == Owed(pc);
    } else {
      forall j | j in s.jobs
        ensures Credited(s.jobs[j], p) ==> pc == Done(Ticket(true, j))
      {
        assert CreditorOk(s, j, p) && CreditPlaceOk(s.jobs, p, pc);
      }
      TicketCredit(s, p);
    }
  }

  lemma TicketCredit(s: State, p: Pid)
    requires CreditPlacesOk(s) && p in s.procs && !RoleOf(s.procs[p]).Stopper?
    requires s.procs[p].Done? || RoleOf(s.procs[p]).Worker?
    requires forall j :: j in s.jobs && Credited(s.jobs[j], p) ==> s.procs[p] == Done(Ticket(true, j))
    ensures Reported(s.procs[p]) == Credit(s.jobs, p)
  {
    var pc := s.procs[p];
    assert CreditPlaceOk(s.jobs, p, pc);
    if pc.Done? && pc.outcome.Ticket? && pc.outcome.won {
      assert Chosen(s.jobs, (x: Job) => Credited(x, p)) == {pc.outcome.j};
    } else {
      NoCredit(s.jobs, p);
    }
  }

  /** A thread with a cancellation in its hands is a submitter, a stop or a ticket still at work. */
  lemma CancellationInHand(h: Pid, pc: Pc)
    requires RetOk(h, pc)
    ensures HandStage(pc).Some? && (BeingCancelled(HandStage(pc).value) || HandStage(pc).value.Counted?) ==>
              !pc.Done? && !RoleOf(pc).Worker?
    ensures HandStage(pc) == Some(Taken) && RoleOf(pc).Worker? ==> Target(h, pc) == CreditJob(h, pc) && pc.Work?
    ensures HandStage(pc).Some? ==> !pc.Done?
    ensures Backlog(pc) != [] ==> !pc.Done? && !RoleOf(pc).Worker?
  {
  }

  /** Once every call has returned, a job credited to somebody has been cancelled to the end. */
  lemma CreditedIsCancelled(s: State, j: Pid)
    requires RolesOk(s) && JobsOk(s) && HeldOk(s) && HandsOk(s) && CreditsOk(s) && CreditPlacesOk(s)
    requires AllReturned(s) && j in s.jobs && s.jobs[j].cancelledBy.Some?
    ensures s.jobs[j].stage.Cancelled?
  {
    hide HandStage, Backlog, Target, RoleOf, CreditJob, EntryOk, RetOk;
    assert CreditOk(s.jobs[j]) && JobOk(s.jobs[j]);
    if !s.jobs[j].stage.Cancelled? {
      var h := s.jobs[j].holder.value;
      assert InHands(h, s.procs[h], j) && HandOk(s.jobs, h, s.procs[h]) && CreditPlaceOk(s.jobs, h, s.procs[h]);
      CancellationInHand(h, s.procs[h]);
    }
  }

  lemma CancelledIsCredited(job: Job)
    requires CreditOk(job) && Adds(CancelledTasks, job.stage)
    ensures job.cancelledBy.Some?
  {
  }

  /** Once all calls have returned, the stop reports and the true tickets together account for every cancelled
      task, each exactly once. */
  lemma CancellationsAttributed(b: Behavior, i: nat)
    requires b.Valid() && i < |b.states| && AllReturned(b.states[i])
    ensures TotalReported(b.states[i].procs.Keys, b.states[i].procs) == b.states[i].sh.acct.cancelled
  {
    var s := b.states[i];
    hide Behavior.Valid, Inv, RolesOk, LocksOk, SleepersOk, HandsOk, HeldOk, QueueOk, FindsOk, JobsOk, OwnJobsOk,
      CountersOk, GaugesOk, TicketsOk, OwedOk, Reported, Credit, RoleOf;
    AlwaysInv(b, i);
    AlwaysTickets(b, i);
    AlwaysOwed(b, i);
    InvParts(s);
    forall p | p in s.procs
      ensures Reported(s.procs[p]) == Credit(s.jobs, p)
    {
      ReportIsCredit(s, p);
    }
    ReportsAddUp(s.procs.Keys, s.procs, s.jobs);
    CreditedCount(s);
  }

  lemma CreditedAgrees(s: State, j: Pid)
    requires RolesOk(s) && JobsOk(s) && HeldOk(s) && HandsOk(s) && TicketsOk(s) && AllReturned(s) && j in s.jobs
    ensures j in CreditedAmong(s.jobs, s.procs.Keys) <==> Adds(CancelledTasks, s.jobs[j].stage)
  {
    hide RolesOk, JobsOk, HeldOk, HandsOk, AllReturned, CreditOk, CreditPlacesOk;
    assert CreditOk(s.jobs[j]);
    if s.jobs[j].cancelledBy.Some? {
      CreditedIsCancelled(s, j);
      assert CreditorOk(s, j, s.jobs[j].cancelledBy.value);
    } else if Adds(CancelledTasks, s.jobs[j].stage) {
      CancelledIsCredited(s.jobs[j]);
    }
  }

  lemma CreditedCount(s: State)
    requires Inv(s) && TicketsOk(s) && AllReturned(s)
    ensures |CreditedAmong(s.jobs, s.procs.Keys)| == s.sh.acct.cancelled
  {
    InvParts(s);
    hide Inv, RolesOk, JobsOk, HeldOk, HandsOk, QueueOk, LocksOk, SleepersOk, FindsOk, OwnJobsOk, GaugesOk, TicketsOk,
      AllReturned, Adds, CreditedAmong;
    var f := (job: Job) => Adds(CancelledTasks, job.stage);
    assert s.sh.acct.Get(CancelledTasks) == HowMany(s.jobs, f);
    hide CountersOk;
    forall j | j in s.jobs
      ensures j in CreditedAmong(s.jobs, s.procs.Keys) <==> f(s.jobs[j])
    {
      CreditedAgrees(s, j);
    }
    CreditedChosen(s.jobs, s.procs.Keys, f);
  }

  lemma CreditedChosen(jobs: map<Pid, Job>, ps: set<Pid>, f: Job -> bool)
    requires forall j :: j in jobs ==> (j in CreditedAmong(jobs, ps) <==> f(jobs[j]))
    ensures |CreditedAmong(jobs, ps)| == HowMany(jobs, f)
  {
    assert CreditedAmong(jobs, ps) == Chosen(jobs, f);
  }
}
