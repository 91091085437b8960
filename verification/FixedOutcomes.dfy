/** Exactly one outcome per job of the fixed pool under racing stops, and its bounded capacity. */
module FixedOutcomes {
  import opened PoolTypes
  import opened PoolAccounting
  import opened PoolShared
  import opened Counting
  import opened FixedPool
  import opened FixedFacts
  import opened FixedInvariant

  // ----- one outcome

  /** Stages, takers and the set of jobs along one event. */
  lemma JobMoves(s: State, e: Event, t: State, j: Pid)
    requires Inv(s) && Next(s, e, t) && j in s.jobs
    ensures j in t.jobs && StageEdge(s.jobs[j].stage, t.jobs[j].stage)
    ensures s.jobs[j].taker.Some? ==> t.jobs[j].taker == s.jobs[j].taker
  {
    hide Inv, StepAt, Subject, StartPc, CanStep, Successors, FramesFollow, GaugesFollow, CountersFollow, QueueFollows,
      CustodyFollows, WatchFollows, LifeFollows, PathsFollow, LocalOk, GlobalOk;
    if e.Act? {
      StepFollows(s, e.p, e.ok);
    }
  }

  /** Whoever stole a job from the injector first keeps it, and a job that has ended stays as it ended. */
  lemma {:induction false} TakerAndEndAreFinal(b: Behavior, i: nat, k: nat, j: Pid)
    requires b.Valid() && i <= k < |b.states| && j in b.states[i].jobs
    ensures j in b.states[k].jobs
    ensures b.states[i].jobs[j].taker.Some? ==> b.states[k].jobs[j].taker == b.states[i].jobs[j].taker
    ensures IsEnd(b.states[i].jobs[j].stage) ==> b.states[k].jobs[j].stage == b.states[i].jobs[j].stage
  {
    hide Inv, Next;
    if k > i {
      TakerAndEndAreFinal(b, i, k - 1, j);
      AlwaysInv(b, k - 1);
      JobMoves(b.states[k - 1], b.events[k - 1], b.states[k], j);
    }
  }

  /** For any number of workers and stops: acceptance is called at most once, run and cancel together at most once
      and only after acceptance, and a rejected job runs neither. */
  lemma OneOutcome(b: Behavior, i: nat, j: Pid)
    requires b.Valid() && i < |b.states| && j in b.states[i].jobs
    ensures var job := b.states[i].jobs[j];
            && job.accepts <= 1 && job.runs + job.cancels <= job.accepts
            && (job.stage.Completed? ==> job.runs == 1 && job.cancels == 0)
            && (job.stage.Cancelled? ==> job.runs == 0 && job.cancels == 1)
            && (job.stage.Rejected? ==> job.accepts == 0)
            && (job.stage.Refused? ==> job.accepts == 1 && job.runs == 0 && job.cancels == 0)
  {
    hide Behavior.Valid, Inv, RolesOk, MonitorOk, SleepersOk, HandsOk, HeldOk, QueueOk, CountersOk, GaugesOk,
      KnowledgeOk;
    AlwaysInv(b, i);
    InvParts(b.states[i]);
    assert JobOk(b.states[i].jobs[j]);
  }

  /** The job whose run or cancel callback thread `p` is about to call. */
  function CallsBack(pc: Pc): Option<Pid> {
    match pc
    case Work(work) => if work.RunCall? then Some(work.j) else None
    case Fin(fin, j, _) => if fin.CancelCall? then Some(j) else None
    case _ => None
  }

  /** Only the one thread that stole a job from the injector ever calls its run or cancel callback: the worker
      that stole it runs it, or cancels it after seeing the stop flag, or the stop that drained it cancels it. */
  lemma OnlyTakerCallsBack(b: Behavior, i: nat, p: Pid)
    requires b.Valid() && i < |b.states| && p in b.states[i].procs && CallsBack(b.states[i].procs[p]).Some?
    ensures var j := CallsBack(b.states[i].procs[p]).value;
            j in b.states[i].jobs && b.states[i].jobs[j].taker == Some(p)
            && b.states[i].jobs[j].runs == 0 && b.states[i].jobs[j].cancels == 0
  {
    hide Behavior.Valid, Inv, RolesOk, MonitorOk, SleepersOk, HeldOk, QueueOk, HandsOk, CountersOk, GaugesOk,
      KnowledgeOk, JobsOk, CallsBack;
    AlwaysInv(b, i);
    InvParts(b.states[i]);
    TakerCallsBack(b.states[i], p);
  }

  lemma TakerCallsBack(s: State, p: Pid)
    requires HandsOk(s) && JobsOk(s) && p in s.procs && CallsBack(s.procs[p]).Some?
    ensures var j := CallsBack(s.procs[p]).value;
            j in s.jobs && s.jobs[j].taker == Some(p) && s.jobs[j].runs == 0 && s.jobs[j].cancels == 0
  {
    assert HandOk(s.jobs, p, s.procs[p]);
    var j := CallsBack(s.procs[p]).value;
    InHandToCall(p, s.procs[p]);
    hide StageInHand, Stock, CallsBack, Distinct;
    assert JobOk(s.jobs[j]);
  }

  lemma InHandToCall(p: Pid, pc: Pc)
    requires CallsBack(pc).Some?
    ensures StageInHand(p, pc, CallsBack(pc).value) == Some(Held)
            || StageInHand(p, pc, CallsBack(pc).value) == Some(Cancelling)
  {
  }

  /** From its reservation until its end every job keeps the pool from looking idle. */
  lemma UnfinishedKeepsBusy(b: Behavior, i: nat, j: Pid)
    requires b.Valid() && i < |b.states| && j in b.states[i].jobs
    requires !b.states[i].jobs[j].stage.New? && !IsEnd(b.states[i].jobs[j].stage)
    ensures !IdleNow(b.states[i].sh)
  {
    hide Behavior.Valid, Inv, RolesOk, MonitorOk, SleepersOk, HandsOk, HeldOk, QueueOk, JobsOk, GaugesOk, KnowledgeOk,
      CountersOk, Adds;
    AlwaysInv(b, i);
    InvParts(b.states[i]);
    CountedJob(b.states[i], Slots, j);
    CountedJob(b.states[i], RunningTasks, j);
    UnfinishedCounts(b.states[i].jobs[j].stage);
  }

  lemma UnfinishedCounts(st: Stage)
    ensures st.New? || IsEnd(st) || Adds(Slots, st) || Adds(RunningTasks, st)
  {
  }

  // ----- capacity

  predicate WithinCapacity(sh: Shared) { sh.cfg.capacity.Some? ==> sh.acct.slots <= sh.cfg.capacity.value }

  lemma StepCapacity(sh: Shared, p: Pid, job: Job, pc: Pc, step: Step)
    requires WithinCapacity(sh) && JobFollows(sh, job, pc, step) && CountersFollow(sh, job, step)
             && FramesFollow(sh, p, pc, step)
    ensures WithinCapacity(step.sh)
  {
    assert step.sh.acct.Get(Slots) == step.sh.acct.slots && sh.acct.Get(Slots) == sh.acct.slots;
    hide JobOk, RetOk, HoldsMonitor, WantsMonitor, NotifiesAll, ParksAt, Submitter;
    NewlyCounted(job.stage, step.job.stage);
    hide Adds, StageEdge;
  }

  /** A bounded fixed pool never has more slots in use than its capacity. */
  lemma {:induction false} CapacityHolds(b: Behavior, i: nat)
    requires b.Valid() && i < |b.states|
    requires b.states[0].sh.cfg.capacity.Some?
    ensures b.states[i].sh.cfg == b.states[0].sh.cfg && b.states[i].sh.acct.slots <= b.states[0].sh.cfg.capacity.value
  {
    hide Inv, Moves, CanStep;
    if i > 0 {
      CapacityHolds(b, i - 1);
      AlwaysInv(b, i - 1);
      assert Next(b.states[i - 1], b.events[i - 1], b.states[i]);
      hide Behavior.Valid;
      NextCapacity(b.states[i - 1], b.events[i - 1], b.states[i]);
    }
  }

  lemma NextCapacity(s: State, e: Event, t: State)
    requires Inv(s) && Next(s, e, t) && WithinCapacity(s.sh)
    ensures WithinCapacity(t.sh) && t.sh.cfg == s.sh.cfg
  {
    hide Inv, StepAt, Subject, StartPc, CanStep, GaugesFollow, JobFollows, JobAt, CountersFollow, QueueFollows,
      CustodyFollows, WatchFollows, LifeFollows, PathsFollow, LocalOk, GlobalOk;
    if e.Act? {
      StepFollows(s, e.p, e.ok);
      StepCapacity(s.sh, e.p, JobAt(s, e.p), s.procs[e.p], StepAt(s, e.p, e.ok));
    }
  }
}
