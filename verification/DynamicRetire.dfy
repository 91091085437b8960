/** Retirement never strands work: the last worker leaves only an empty pool. */
module DynamicRetire {
  import opened PoolTypes
  import opened PoolAccounting
  import opened PoolShared
  import opened Counting
  import opened DynamicPool
  import opened DynamicRun
  import opened DynamicFacts
  import opened DynamicInvariant
  import opened DynamicLifecycle
  import opened DynamicWake

  /** No job is queued and no submitter holds a reserved slot. */
  ghost predicate NoWork(s: State) {
    s.sh.queue.items == [] && forall j :: j in s.jobs ==> !Unpublished(s.jobs[j].stage)
  }

  /** A worker that has decided to leave its loop. */
  predicate Leaving(pc: Pc) { pc == Idle(Unmark(true)) || pc == Idle(Consume(true)) || pc == Exit(Unregister) }

  /** Exit through the ShuttingDown test, with the loads in the source's order. */
  predicate InWindow(sh: Shared, pc: Pc) {
    sh.mon.pool.life == ShuttingDown && !sh.cfg.inflightFirst && pc == Exit(Unregister)
  }

  ghost predicate LeaverOk(s: State, pc: Pc) {
    && (Leaving(pc) ==> s.sh.mon.pool.live >= 2 || NoWork(s) || s.sh.mon.pool.life == Stopping || InWindow(s.sh, pc))
    && (pc.Grow? && pc.grow.Spawn? ==> s.sh.mon.pool.live >= 2 || NoWork(s))
  }

  /** The lifecycle phases in which queued work still needs a worker. */
  predicate MustServe(sh: Shared) {
    sh.mon.pool.life == Running || (sh.mon.pool.life == ShuttingDown && sh.cfg.inflightFirst)
  }

  ghost predicate ServedOk(s: State) { MustServe(s.sh) && !NoWork(s) ==> s.sh.mon.pool.live >= 1 }

  ghost predicate RetireOk(s: State) {
    ServedOk(s) && forall w :: w in s.procs ==> LeaverOk(s, s.procs[w])
  }

  // ----- who is in flight

  /** A reserved slot belongs to a submitter that is still in flight. */
  lemma UnpublishedInFlight(s: State, j: Pid)
    requires Inv(s) && j in s.jobs && (Unpublished(s.jobs[j].stage) || s.jobs[j].stage.New?)
    ensures j in s.procs && (InFlight(s.procs[j]) || (s.procs[j] == Sub(Enter) && s.jobs[j].stage.New?))
  {
    hide Inv, RolesOk, LocksOk, SleepersOk, QueueOk, FindsOk, OwnJobsOk, CountersOk, GaugesOk, InHands, HandOk;
    InvParts(s);
    hide EntryOk, HandStage, Backlog, Target, InFlight;
    assert JobOk(s.jobs[j]);
    var h := s.jobs[j].holder.value;
    assert InHands(h, s.procs[h], j) && HandOk(s.jobs, h, s.procs[h]);
    HolderInFlight(s.jobs, h, s.procs[h], j);
  }

  lemma HolderInFlight(jobs: map<Pid, Job>, h: Pid, pc: Pc, j: Pid)
    requires InHands(h, pc, j) && HandOk(jobs, h, pc) && j in jobs
    requires Unpublished(jobs[j].stage) || jobs[j].stage.New?
    ensures h == j && (InFlight(pc) || (pc == Sub(Enter) && jobs[j].stage.New?))
  {
    hide HandStage, Backlog, Target, InFlight;
    HandInFlight(h, pc);
  }

  lemma HandInFlight(h: Pid, pc: Pc)
    ensures HandStage(pc).Some? && (Unpublished(HandStage(pc).value) || HandStage(pc).value.New?) ==>
              Target(h, pc) == Some(h) && (InFlight(pc) || (pc == Sub(Enter) && HandStage(pc).value.New?))
  {
  }

  lemma InFlightCounted(s: State, q: Pid)
    requires Inv(s) && q in s.procs && InFlight(s.procs[q])
    ensures s.sh.gate.inflight >= 1
  {
    var f := (pc: Pc) => Weighs(InFlightGauge, pc);
    assert Reading(InFlightGauge, s.sh) == HowMany(s.procs, f);
    HowManyPositive(s.procs, f, q);
  }

  lemma NobodyInFlight(s: State)
    requires Inv(s) && s.sh.gate.inflight <= 0
    ensures forall j :: j in s.jobs ==> !Unpublished(s.jobs[j].stage)
  {
    forall j | j in s.jobs
      ensures !Unpublished(s.jobs[j].stage)
    {
      if Unpublished(s.jobs[j].stage) {
        UnpublishedInFlight(s, j);
        InFlightCounted(s, j);
      }
    }
  }

  lemma AnnouncersInFlight()
    ensures forall pc: Pc :: PreWake(pc) || Bumper(pc) ==> InFlight(pc)
  {
  }

  /** A worker that resolved to retire and sees nobody in flight leaves nothing behind: a queued job would have
      its submitter, or the owner of the token that announced it, still in flight. */
  lemma RetiringSeesAll(s: State, w: Pid)
    requires Inv(s) && TokensOk(s) && AnnouncedOk(s)
    requires w in s.procs && s.procs[w] == Idle(RetireInflight) && s.sh.gate.inflight <= 0
    ensures NoWork(s)
  {
    NobodyInFlight(s);
    hide Inv;
    if s.sh.queue.items != [] {
      var j := s.sh.queue.items[0];
      assert Resolved(s, w) && Resting(s, w) && Announced(s, j);
      hide AnnouncedOk, InFlight;
      assert forall pc: Pc :: PreWake(pc) || Bumper(pc) ==> InFlight(pc) by { AnnouncersInFlight(); }
      if SomeoneBumps(s) {
        var x :| x in s.procs && Bumper(s.procs[x]);
        InFlightCounted(s, x);
      } else {
        InFlightCounted(s, j);
      }
    }
  }

  // ----- one step

  predicate RetireFollows(sh: Shared, pc: Pc, step: Step) {
    var pool, next := sh.mon.pool, step.sh.mon.pool;
    && (Leaving(step.pc) ==>
          next.live == pool.live && next.life == pool.life && HoldsMonitor(pc) && (pc.Idle? || pc.Drain?))
    && (Leaving(step.pc) ==>
          || (Leaving(pc) && !InWindow(sh, pc))
          || (pc == Idle(RetireInflight) && sh.gate.inflight == 0)
          || pool.live >= 2 || pool.life == Stopping || InWindow(sh, step.pc)
          || (sh.acct.queued == 0 && sh.gate.inflight <= 0))
    && (next.live < pool.live ==> pc == Exit(Unregister) || (pc.Grow? && pc.grow.Spawn?))
    && (next.live < pool.live ==> next.live == pool.live - 1 && next.life == pool.life)
    && (step.pc.Grow? && step.pc.grow.Spawn? ==>
          pc.Grow? && pc.grow.Reserve? && next.live == pool.live + 1 && pool.life == Running)
  }

  lemma RetireOfIdle(sh: Shared, p: Pid, job: Job, g: IdlePc)
    requires LocalOk(sh, Idle(g)) && GlobalOk(sh)
    ensures RetireFollows(sh, Idle(g), WithJob(IdleStep(sh, p, g), job))
  {
  }

  lemma RetireOfDrain(sh: Shared, p: Pid, job: Job, g: DrainPc, past: Past)
    requires LocalOk(sh, Drain(g)) && GlobalOk(sh)
    ensures RetireFollows(sh, Drain(g), WithJob(DrainStep(sh, p, g, past), job))
  {
  }

  lemma RetireOfGrow(sh: Shared, p: Pid, job: Job, g: GrowPc, ok: bool)
    requires LocalOk(sh, Grow(g))
    ensures RetireFollows(sh, Grow(g), GrowStep(sh, p, job, g, ok))
  {
  }

  lemma RetireOfExit(sh: Shared, p: Pid, job: Job, g: ExitPc)
    ensures RetireFollows(sh, Exit(g), WithJob(ExitStep(sh, p, g), job))
  {
  }

  lemma RetireOfStep(sh: Shared, p: Pid, job: Job, pc: Pc, ok: bool, past: Past)
    requires LocalOk(sh, pc) && GlobalOk(sh) && RetOk(p, pc)
    requires PathsFollow(pc, StepOf(sh, p, job, pc, ok, past).pc)
    requires FramesFollow(sh, p, pc, StepOf(sh, p, job, pc, ok, past))
    ensures RetireFollows(sh, pc, StepOf(sh, p, job, pc, ok, past))
  {
    hide IdleStep, DrainStep, GrowStep, ExitStep, RetireFollows, LocalOk, GlobalOk, FramesFollow, PathsFollow;
    match pc {
      case Idle(g) => RetireOfIdle(sh, p, job, g);
      case Drain(g) => RetireOfDrain(sh, p, job, g, past);
      case Grow(g) => RetireOfGrow(sh, p, job, g, ok);
      case Exit(g) => RetireOfExit(sh, p, job, g);
      case _ => RetireElsewhere(sh, p, pc, StepOf(sh, p, job, pc, ok, past));
    }
  }

  lemma RetireElsewhere(sh: Shared, p: Pid, pc: Pc, step: Step)
    requires PathsFollow(pc, step.pc) && FramesFollow(sh, p, pc, step)
    requires !pc.Idle? && !pc.Drain? && !pc.Grow? && !pc.Exit?
    ensures RetireFollows(sh, pc, step)
  {
  }

  /** Only a submitter that owns the monitor of a running pool with a live worker reserves a slot. */
  lemma ReserveUnderMonitor(sh: Shared, p: Pid, job: Job, pc: Pc, ok: bool, past: Past)
    requires StageReady(sh, p, job, pc) && LocalOk(sh, pc)
    requires CustodyFollows(p, Subject(sh, p, pc), job, pc, StepOf(sh, p, job, pc, ok, past))
    requires OthersKept(job, pc, StepOf(sh, p, job, pc, ok, past))
    requires job.stage.New? && StepOf(sh, p, job, pc, ok, past).job.stage.Reserved?
    ensures HoldsMonitor(pc) && sh.mon.pool.live >= 1 && sh.mon.pool.life == Running && (pc.Sub? || pc.Grow?)
            && InFlight(pc)
    ensures !(pc.Grow? && (pc.grow.Spawn? || pc.grow.Reserve?))
  {
    NewInHand(pc);
    match pc {
      case Sub(g) =>
      case Grow(g) =>
      case _ => hide StepOf; hide HandStage; hide Subject; hide Backlog;
    }
  }

  lemma NewInHand(pc: Pc)
    ensures HandStage(pc) == Some(New) ==> pc.Sub? || pc.Grow?
  {
  }

  /** While another thread owns the monitor, an idle pool stays without work. */
  lemma NoWorkStays(s: State, p: Pid, step: Step, spawns: bool, worker: Pid, t: State)
    requires p in s.procs && Moves(s, p, step, spawns, worker, t) && NoWork(s)
    requires Inv(s) && StageEdge(JobAt(s, p).stage, step.job.stage)
             && QueueFollows(s.sh, p, JobAt(s, p), s.procs[p], step)
    requires JobAt(s, p).stage.New? && step.job.stage.Reserved? ==> false
    requires SubjectKnown(s, p) && (Subject(s.sh, p, s.procs[p]).None? ==> step.job == NO_JOB)
    ensures NoWork(t)
  {
    hide Inv, Subject;
    var subject := Subject(s.sh, p, s.procs[p]);
    if subject.Some? {
      assert !Unpublished(s.jobs[subject.value].stage);
    }
  }

  ghost predicate RetireReady(s: State, p: Pid, step: Step, spawns: bool, worker: Pid, t: State) {
    && p in s.procs && Moves(s, p, step, spawns, worker, t)
    && Inv(s) && TokensOk(s) && AnnouncedOk(s) && RetireOk(s)
    && RetireFollows(s.sh, s.procs[p], step) && FramesFollow(s.sh, p, s.procs[p], step)
    && LifeFollows(s.sh, s.procs[p], step)
    && StageEdge(JobAt(s, p).stage, step.job.stage) && QueueFollows(s.sh, p, JobAt(s, p), s.procs[p], step)
    && SubjectKnown(s, p) && (Subject(s.sh, p, s.procs[p]).None? ==> step.job == NO_JOB)
    && (Reserves(s, p, step) ==>
          HoldsMonitor(s.procs[p]) && s.sh.mon.pool.live >= 1 && !s.procs[p].Idle?
          && !(s.procs[p].Grow? && (s.procs[p].grow.Spawn? || s.procs[p].grow.Reserve?)) && !s.procs[p].Drain?
              && !s.procs[p].Exit?)
  }

  ghost predicate Reserves(s: State, p: Pid, step: Step)
    requires p in s.procs
  {
    JobAt(s, p).stage.New? && step.job.stage.Reserved?
  }

  lemma LeaverHoldsMonitor(pc: Pc)
    ensures Leaving(pc) || (pc.Grow? && pc.grow.Spawn?) ==> HoldsMonitor(pc)
  {
  }

  /** Both ways a worker may retire with the pool at its last worker show it an empty pool. */
  lemma SeesNoWork(s: State, p: Pid)
    requires Inv(s) && TokensOk(s) && AnnouncedOk(s) && p in s.procs && s.sh.gate.inflight <= 0
    requires s.procs[p] == Idle(RetireInflight) || s.sh.acct.queued == 0
    ensures NoWork(s)
  {
    hide Inv, TokensOk, AnnouncedOk, NoWork;
    if s.sh.acct.queued == 0 {
      NothingQueued(s);
      NobodyInFlight(s);
      EmptyNoWork(s);
    } else {
      RetiringSeesAll(s, p);
    }
  }

  lemma MoverRetire(s: State, p: Pid, step: Step, spawns: bool, worker: Pid, t: State)
    requires RetireReady(s, p, step, spawns, worker, t)
    ensures LeaverOk(t, step.pc)
  {
    hide Inv, TokensOk, AnnouncedOk, FramesFollow, LifeFollows, QueueFollows, StageEdge, SubjectKnown, Subject, JobAt,
      NoWork, HoldsMonitor;
    var pc := s.procs[p];
    assert LeaverOk(s, pc) && t.sh == step.sh;
    FramesKeepConfig(s.sh, p, pc, step);
    if s.sh.gate.inflight <= 0 && (pc == Idle(RetireInflight) || s.sh.acct.queued == 0) {
      SeesNoWork(s, p);
    }
    if NoWork(s) && !Reserves(s, p, step) {
      NoWorkStays(s, p, step, spawns, worker, t);
    }
  }

  lemma EmptyNoWork(s: State)
    requires s.sh.queue.items == [] && forall j :: j in s.jobs ==> !Unpublished(s.jobs[j].stage)
    ensures NoWork(s)
  {
  }

  lemma FramesKeepConfig(sh: Shared, p: Pid, pc: Pc, step: Step)
    requires FramesFollow(sh, p, pc, step)
    ensures step.sh.cfg == sh.cfg && (!HoldsMonitor(pc) ==> step.sh.mon.pool == sh.mon.pool)
  {
    hide HoldsMonitor, NotifiesAll;
  }

  lemma OtherRetire(s: State, p: Pid, step: Step, spawns: bool, worker: Pid, t: State, w: Pid)
    requires RetireReady(s, p, step, spawns, worker, t) && w in s.procs && w != p
    ensures LeaverOk(t, s.procs[w])
  {
    var own := s.procs[w];
    LeaverHoldsMonitor(own);
    InvParts(s);
    hide Inv, TokensOk, AnnouncedOk, FramesFollow, LifeFollows, QueueFollows, StageEdge, SubjectKnown, Subject, JobAt,
      NoWork, HoldsMonitor, RetireFollows, Leaving;
    if Leaving(own) || (own.Grow? && own.grow.Spawn?) {
      assert s.sh.mon.owner == Some(w);
      assert s.sh.mon.owner == Some(p) <==> HoldsMonitor(s.procs[p]);
      FramesKeepConfig(s.sh, p, s.procs[p], step);
      assert LeaverOk(s, own);
      if NoWork(s) {
        NoWorkStays(s, p, step, spawns, worker, t);
      }
    }
  }

  lemma StillServed(s: State, p: Pid, step: Step, spawns: bool, worker: Pid, t: State)
    requires RetireReady(s, p, step, spawns, worker, t)
    ensures ServedOk(t)
  {
    var pc := s.procs[p];
    FramesKeepConfig(s.sh, p, pc, step);
    hide Inv, TokensOk, AnnouncedOk, FramesFollow, QueueFollows, StageEdge, SubjectKnown, Subject, JobAt, NoWork,
      HoldsMonitor;
    assert LeaverOk(s, pc) && t.sh == step.sh;
    if NoWork(s) && !Reserves(s, p, step) {
      NoWorkStays(s, p, step, spawns, worker, t);
    }
  }

  lemma ActRetire(s: State, p: Pid, ok: bool, worker: Pid, t: State)
    requires Inv(s) && KnowledgeOk(s) && TokensOk(s) && AnnouncedOk(s) && RetireOk(s) && Acts(s, p, ok, worker, t)
    ensures RetireOk(t)
  {
    var pc, step, spawns := s.procs[p], StepAt(s, p, ok), Spawns(s.procs[p], ok);
    ActReady(s, p, ok, worker, t);
    hide Inv, KnowledgeOk, TokensOk, AnnouncedOk, RetireReady, LeaverOk, ServedOk, StepAt, JobAt;
    StillServed(s, p, step, spawns, worker, t);
    MoverRetire(s, p, step, spawns, worker, t);
    forall w | w in t.procs && w != p
      ensures LeaverOk(t, t.procs[w])
    {
      if w in s.procs {
        OtherRetire(s, p, step, spawns, worker, t, w);
      } else {
        FreshLeaver(t);
      }
    }
  }

  lemma FreshLeaver(s: State)
    ensures LeaverOk(s, Work(Start)) && forall r: Request :: LeaverOk(s, StartPc(r))
  {
  }

  lemma ReservesUnderMonitor(s: State, p: Pid, ok: bool)
    requires Inv(s) && KnowledgeOk(s) && p in s.procs && CanStep(s, p, s.procs[p])
    requires Reserves(s, p, StepAt(s, p, ok))
    ensures var pc := s.procs[p];
            HoldsMonitor(pc) && s.sh.mon.pool.live >= 1 && s.sh.mon.pool.life == Running && (pc.Sub? || pc.Grow?)
                && InFlight(pc)
            && !(pc.Grow? && (pc.grow.Spawn? || pc.grow.Reserve?))
  {
    StepFollows(s, p, ok);
    MoverReady(s, p);
    hide Inv, CustodyFollows, OthersKept, StageReady, LocalOk, HoldsMonitor, StepOf, JobAt, LocksFollow, RolesFollow,
      OwnJobFollows, QueueFollows, CountersFollow, GaugesFollow;
    ReserveUnderMonitor(s.sh, p, JobAt(s, p), s.procs[p], ok, PastOf(s));
  }

  lemma ActReady(s: State, p: Pid, ok: bool, worker: Pid, t: State)
    requires Inv(s) && KnowledgeOk(s) && TokensOk(s) && AnnouncedOk(s) && RetireOk(s) && Acts(s, p, ok, worker, t)
    ensures RetireReady(s, p, StepAt(s, p, ok), Spawns(s.procs[p], ok), worker, t)
  {
    hide Inv, TokensOk, AnnouncedOk, RetireOk, RetireFollows, FramesFollow, LifeFollows, QueueFollows, StageEdge,
      SubjectKnown, JobAt, StageReady, Reserves, Moves, HoldsMonitor, LocalOk, GlobalOk, WatchFollows, PathsFollow,
      StepOf, RetOk;
    StepRespects(s, p, ok);
    MoverReady(s, p);
    RetireOfStep(s.sh, p, JobAt(s, p), s.procs[p], ok, PastOf(s));
    if Reserves(s, p, StepAt(s, p, ok)) {
      ReservesUnderMonitor(s, p, ok);
    }
  }

  lemma QuietNoWork(s: State, e: Event, t: State)
    requires Next(s, e, t) && !e.Act?
    ensures NoWork(s) ==> NoWork(t)
  {
    hide StartPc;
    if NoWork(s) {
      forall j | j in t.jobs
        ensures !Unpublished(t.jobs[j].stage)
      {
        assert j in s.jobs ==> t.jobs[j].stage == s.jobs[j].stage;
      }
    }
  }

  lemma QuietRetire(s: State, e: Event, t: State)
    requires RetireOk(s) && Next(s, e, t) && !e.Act?
    ensures RetireOk(t)
  {
    QuietNoWork(s, e, t);
    FreshLeaver(t);
    hide NoWork, StartPc;
    forall w | w in t.procs
      ensures LeaverOk(t, t.procs[w])
    {
      if w in s.procs && t.procs[w] == s.procs[w] {
        assert LeaverOk(s, s.procs[w]);
      }
    }
  }

  lemma {:induction false} AlwaysRetire(b: Behavior, i: nat)
    requires b.Valid() && i < |b.states|
    ensures RetireOk(b.states[i])
  {
    hide Inv, KnowledgeOk, TokensOk, AnnouncedOk, RetireOk, Acts, Arrives, TimesOut, WakesSpuriously, Behavior.Valid;
    if i == 0 {
      NobodyRetiring(b);
    } else {
      Consecutive(b, i);
      AlwaysRetire(b, i - 1);
      AlwaysWake(b, i - 1);
      match b.events[i - 1] {
        case Act(p, ok, worker) => ActRetire(b.states[i - 1], p, ok, worker, b.states[i]);
        case _ => QuietRetire(b.states[i - 1], b.events[i - 1], b.states[i]);
      }
    }
  }

  lemma NobodyRetiring(b: Behavior)
    requires b.Valid()
    ensures RetireOk(b.states[0])
  {
    hide Next;
  }

  /** While the pool runs, a queued job or a reserved slot means a live worker; with the ShuttingDown exit test
      loading the in-flight count first, the same holds until the pool is stopped. */
  lemma WorkHasWorker(b: Behavior, i: nat, j: Pid)
    requires b.Valid() && i < |b.states| && j in b.states[i].jobs
    requires b.states[i].jobs[j].stage.InQueue? || Unpublished(b.states[i].jobs[j].stage)
    requires b.states[i].sh.mon.pool.life == Running
             || (b.states[i].sh.mon.pool.life == ShuttingDown && b.states[i].sh.cfg.inflightFirst)
    ensures b.states[i].sh.mon.pool.live >= 1
  {
    AlwaysRetire(b, i);
    AlwaysInv(b, i);
    InvParts(b.states[i]);
    hide Inv;
  }
}
