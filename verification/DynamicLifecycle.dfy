/** Lifecycle and sizing in every state, and what they promise. */
module DynamicLifecycle {
  import opened PoolTypes
  import opened PoolAccounting
  import opened PoolShared
  import opened Counting
  import opened DynamicPool
  import opened DynamicRun
  import opened DynamicFacts
  import opened DynamicInvariant
  import opened DynamicStepJobs
  import opened DynamicStepCounts

  ghost predicate KnowledgeOk(s: State) {
    GlobalOk(s.sh) && forall p :: p in s.procs ==> LocalOk(s.sh, s.procs[p])
  }

  lemma NonNegative(s: State)
    requires CountersOk(s) && GaugesOk(s)
    ensures forall c: Counter :: s.sh.acct.Get(c) >= 0
    ensures forall g: Gauge :: Reading(g, s.sh) >= 0
  {
  }

  /** What a thread knows survives the step of another thread. */
  lemma KnowledgeStable(sh: Shared, p: Pid, pc: Pc, step: Step, other: Pc)
    requires LocalOk(sh, other) && GlobalOk(sh) && GlobalOk(step.sh)
    requires FramesFollow(sh, p, pc, step) && LifeFollows(sh, pc, step)
    requires HoldsMonitor(other) ==> !HoldsMonitor(pc)
    ensures LocalOk(step.sh, other)
  {
    assert HoldsMonitor(other) ==> step.sh.mon.pool == sh.mon.pool;
  }

  lemma ActKnowledge(s: State, p: Pid, ok: bool, worker: Pid, t: State)
    requires Inv(s) && KnowledgeOk(s) && Acts(s, p, ok, worker, t)
    ensures KnowledgeOk(t)
  {
    hide Inv, LocalOk, GlobalOk, FramesFollow, LifeFollows, StepOf, HoldsMonitor, JobAt, CanStep, Subject, PastOf,
      Spawns;
    var pc, step := s.procs[p], StepAt(s, p, ok);
    MoverKnows(s, p, ok);
    InvParts(s);
    hide RolesOk, SleepersOk, HandsOk, HeldOk, QueueOk, FindsOk, JobsOk, OwnJobsOk, CountersOk, GaugesOk;
    FreshKnowledge(t.sh);
    forall q | q in t.procs
      ensures LocalOk(t.sh, t.procs[q])
    {
      if q != p && q in s.procs {
        assert s.sh.mon.owner == Some(q) <==> HoldsMonitor(s.procs[q]);
        assert s.sh.mon.owner == Some(p) <==> HoldsMonitor(pc);
        KnowledgeStable(s.sh, p, pc, step, s.procs[q]);
      }
    }
  }

  lemma MoverKnows(s: State, p: Pid, ok: bool)
    requires p in s.procs && CanStep(s, p, s.procs[p]) && Inv(s) && KnowledgeOk(s)
    ensures GlobalOk(StepAt(s, p, ok).sh) && LocalOk(StepAt(s, p, ok).sh, StepAt(s, p, ok).pc)
    ensures FramesFollow(s.sh, p, s.procs[p], StepAt(s, p, ok)) && LifeFollows(s.sh, s.procs[p], StepAt(s, p, ok))
  {
    hide Inv, LocalOk, GlobalOk, FramesFollow, LifeFollows, StepOf, JobAt, Wants, Owner, Asleep, RetOk;
    InvParts(s);
    NonNegative(s);
    assert RolesOk(s) && RetOk(p, s.procs[p]);
    hide RolesOk, LocksOk, SleepersOk, HandsOk, HeldOk, QueueOk, FindsOk, JobsOk, OwnJobsOk, CountersOk, GaugesOk;
    assert Reading(IdleGauge, s.sh) >= 0 && Reading(LiveGauge, s.sh) >= 0;
    LocalOfStep(s.sh, p, JobAt(s, p), s.procs[p], ok, PastOf(s));
    FramesOfStep(s.sh, p, JobAt(s, p), s.procs[p], ok, PastOf(s));
  }

  lemma FreshKnowledge(sh: Shared)
    ensures LocalOk(sh, Work(Start))
    ensures forall r: Request :: LocalOk(sh, StartPc(r))
  {
  }

  lemma NextKnowledge(s: State, e: Event, t: State)
    requires Inv(s) && KnowledgeOk(s) && Next(s, e, t)
    ensures KnowledgeOk(t)
  {
    hide Inv, Acts;
    match e {
      case Arrive(p, r) => FreshKnowledge(s.sh);
      case Act(p, ok, worker) => ActKnowledge(s, p, ok, worker, t);
      case Spurious(p) => KnowledgeIgnoresSleep(s, t);
      case Timeout(p) => KnowledgeIgnoresSleep(s, t);
    }
  }

  lemma KnowledgeIgnoresSleep(s: State, t: State)
    requires KnowledgeOk(s) && t.sh == s.sh.(mon := s.sh.mon.(parked := t.sh.mon.parked))
    requires forall q :: q in t.procs ==>
               q in s.procs && (t.procs[q] == s.procs[q] || (t.procs[q].Idle? && t.procs[q].idle.Parked?))
    ensures KnowledgeOk(t)
  {
  }

  lemma {:induction false} AlwaysKnowledge(b: Behavior, i: nat)
    requires b.Valid() && i < |b.states|
    ensures Inv(b.states[i]) && KnowledgeOk(b.states[i])
  {
    hide Behavior.Valid, Inv, KnowledgeOk, Next;
    AlwaysInv(b, i);
    if i == 0 {
      KnowledgeAtStart(b);
    } else {
      AlwaysKnowledge(b, i - 1);
      OneStep(b, i);
      NextKnowledge(b.states[i - 1], b.events[i - 1], b.states[i]);
    }
  }

  lemma KnowledgeAtStart(b: Behavior)
    requires b.Valid()
    ensures KnowledgeOk(b.states[0])
  {
    hide Next;
  }

  lemma OneStep(b: Behavior, i: nat)
    requires b.Valid() && 0 < i < |b.states|
    ensures i <= |b.events| && Next(b.states[i - 1], b.events[i - 1], b.states[i])
  {
    hide Next, Init;
  }

  // ----- what a reachable step respects

  /** The counters count at least the thread about to step and its job. */
  lemma MoverFelt(s: State, p: Pid)
    requires Inv(s) && p in s.procs && !Finished(s.procs[p])
    ensures Felt(s.sh, JobAt(s, p), s.procs[p])
  {
    MoverReady(s, p);
    NonNegative(s);
    var pc, subject := s.procs[p], Subject(s.sh, p, s.procs[p]);
    forall c: Counter
      ensures s.sh.acct.Get(c) >= B(Adds(c, JobAt(s, p).stage))
    {
      var f := (job: Job) => Adds(c, job.stage);
      assert s.sh.acct.Get(c) == HowMany(s.jobs, f);
      if subject.Some? && Adds(c, JobAt(s, p).stage) {
        HowManyPositive(s.jobs, f, subject.value);
      }
    }
    forall g: Gauge
      ensures Reading(g, s.sh) >= B(Weighs(g, pc))
    {
      var f := (q: Pc) => Weighs(g, q);
      assert Reading(g, s.sh) == HowMany(s.procs, f);
      if Weighs(g, pc) {
        HowManyPositive(s.procs, f, p);
      }
    }
    FeltFrom(s.sh, JobAt(s, p), pc);
  }

  lemma FeltFrom(sh: Shared, job: Job, pc: Pc)
    requires forall c: Counter :: sh.acct.Get(c) >= B(Adds(c, job.stage))
    requires forall g: Gauge :: Reading(g, sh) >= B(Weighs(g, pc))
    ensures Felt(sh, job, pc)
  {
    assert sh.acct.Get(Slots) == sh.acct.slots && sh.acct.Get(Queued) == sh.acct.queued;
    assert sh.acct.Get(RunningTasks) == sh.acct.running && sh.acct.Get(CancellingTasks) == sh.acct.cancelling;
    assert Reading(InFlightGauge, sh) == sh.gate.inflight && Reading(LiveGauge, sh) == sh.mon.pool.live;
    assert Reading(ExitingGauge, sh) == sh.mon.pool.exiting;
  }

  /** One step of a reachable state against everything the later proofs use. */
  ghost predicate Respects(s: State, p: Pid, step: Step)
    requires p in s.procs
  {
    var sh, pc, job := s.sh, s.procs[p], JobAt(s, p);
    && FramesFollow(sh, p, pc, step) && LifeFollows(sh, pc, step) && PathsFollow(pc, step.pc)
    && StageEdge(job.stage, step.job.stage) && (job.handoff ==> step.job.handoff) && WatchFollows(sh, pc, step)
    && LineFollows(sh, p, pc, step)
  }

  lemma StepRespects(s: State, p: Pid, ok: bool)
    requires Inv(s) && KnowledgeOk(s) && p in s.procs && CanStep(s, p, s.procs[p])
    ensures Respects(s, p, StepAt(s, p, ok)) && Follows(s, p, StepAt(s, p, ok), Spawns(s.procs[p], ok))
    ensures Felt(s.sh, JobAt(s, p), s.procs[p])
  {
    var pc, job, past := s.procs[p], JobAt(s, p), PastOf(s);
    StepFollows(s, p, ok);
    MoverReady(s, p);
    MoverFelt(s, p);
    hide StepOf, FramesFollow, LifeFollows, PathsFollow, StageEdge, WatchFollows, Felt, LineFollows, StageReady,
      EntryOk, CallsOk, LocalOk, GlobalOk, Follows, RetOk, OwnReady, LocksReady, Inv, SubjectKnown, JobAt, PastOf,
      Asleep, Wants, Owner;
    FramesOfStep(s.sh, p, job, pc, ok, past);
    StagesOfStep(s.sh, p, job, pc, ok, past);
    QueueOfStep(s.sh, p, job, pc, ok, past);
    WatchOfStep(s.sh, p, job, pc, ok, past);
  }

  /** The part of it about one job and one position. */
  lemma StepStages(s: State, p: Pid, ok: bool)
    requires Inv(s) && KnowledgeOk(s) && p in s.procs && CanStep(s, p, s.procs[p])
    ensures SubjectKnown(s, p) && StageEdge(JobAt(s, p).stage, StepAt(s, p, ok).job.stage)
    ensures Subject(s.sh, p, s.procs[p]).None? ==> StepAt(s, p, ok).job == NO_JOB
    ensures PathsFollow(s.procs[p], StepAt(s, p, ok).pc) && (JobAt(s, p).handoff ==> StepAt(s, p, ok).job.handoff)
  {
    hide Inv, KnowledgeOk, JobAt, StageEdge, PathsFollow, FramesFollow, StepAt, Subject, WatchFollows, LifeFollows,
      SubjectKnown, CanStep;
    StepRespects(s, p, ok);
  }

  /** Along every step each job stays where it is or moves along its stages. */
  lemma StageMoves(s: State, e: Event, t: State, j: Pid)
    requires Inv(s) && KnowledgeOk(s) && Next(s, e, t) && j in s.jobs
    ensures j in t.jobs && StageEdge(s.jobs[j].stage, t.jobs[j].stage)
  {
    hide Inv, KnowledgeOk, StepOf, Subject, Successors, StartPc;
    match e {
      case Act(p, ok, worker) => StepStages(s, p, ok);
      case _ =>
    }
  }

  /** While a thread owns the monitor, no other thread changes what it protects. */
  lemma MonitorProtects(s: State, p: Pid, ok: bool, w: Pid)
    requires Inv(s) && KnowledgeOk(s) && p in s.procs && CanStep(s, p, s.procs[p])
    requires w in s.procs && w != p && HoldsMonitor(s.procs[w])
    ensures !HoldsMonitor(s.procs[p]) && StepAt(s, p, ok).sh.mon.pool == s.sh.mon.pool
  {
    InvParts(s);
    hide Inv, KnowledgeOk, JobAt, StageEdge, PathsFollow, StepAt, Subject, CanStep, WatchFollows, LifeFollows,
      SubjectKnown, HoldsMonitor, NotifiesAll;
    StepRespects(s, p, ok);
    assert s.sh.mon.owner == Some(w);
    assert s.sh.mon.owner == Some(p) <==> HoldsMonitor(s.procs[p]);
  }

  /** Two consecutive states of a run. */
  lemma Consecutive(b: Behavior, i: nat)
    requires b.Valid() && 0 < i < |b.states|
    ensures i <= |b.events| && Next(b.states[i - 1], b.events[i - 1], b.states[i])
    ensures Inv(b.states[i - 1]) && KnowledgeOk(b.states[i - 1])
  {
    hide Behavior.Valid, Inv, KnowledgeOk, Next;
    AlwaysKnowledge(b, i - 1);
    OneStep(b, i);
  }
}
