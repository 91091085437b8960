/** A pool that is no longer running and has no worker never serves a queued job; and a run that gets there. */
module DynamicStranding {
  import opened PoolTypes
  import opened PoolAccounting
  import opened PoolShared
  import opened Counting
  import opened DynamicPool
  import opened DynamicRun
  import opened DynamicFacts
  import opened DynamicInvariant
  import opened DynamicLifecycle

  predicate NoWorker(sh: Shared) { sh.mon.pool.life != Running && sh.mon.pool.live == 0 }

  /** Queued, or cancelled straight from the queue. */
  predicate Unserved(st: Stage) { st.InQueue? || st.Popped? || st.Taken? || BeingCancelled(st) || st.Cancelled? }

  lemma NoLiveWorker(s: State, p: Pid)
    requires Inv(s) && s.sh.mon.pool.live == 0 && p in s.procs
    ensures !LiveWorker(s.procs[p])
  {
    InvParts(s);
    hide Inv;
    var f := (pc: Pc) => Weighs(LiveGauge, pc);
    assert Reading(LiveGauge, s.sh) == HowMany(s.procs, f);
    HowManyZero(s.procs, f, p);
  }

  lemma SizeKnowledge(sh: Shared, p: Pid, job: Job, pc: Pc, ok: bool, past: Past)
    requires LocalOk(sh, pc) && FramesFollow(sh, p, pc, StepOf(sh, p, job, pc, ok, past))
    requires sh.mon.pool.life != Running && !LiveWorker(pc)
    ensures StepOf(sh, p, job, pc, ok, past).sh.mon.pool.live == sh.mon.pool.live
  {
    if !pc.Grow? {
      hide StepOf;
    }
  }

  lemma NoWorkerStays(s: State, e: Event, t: State)
    requires Inv(s) && KnowledgeOk(s) && Next(s, e, t) && NoWorker(s.sh)
    ensures NoWorker(t.sh)
  {
    hide Inv, StartPc, StepOf, JobAt, FramesFollow, PathsFollow, WatchFollows, StageEdge, LocalOk, GlobalOk, Asleep,
      CanStep, Subject, LiveWorker;
    if e.Act? {
      StepRespects(s, e.p, e.ok);
      NoLiveWorker(s, e.p);
      assert LocalOk(s.sh, s.procs[e.p]);
      SizeKnowledge(s.sh, e.p, JobAt(s, e.p), s.procs[e.p], e.ok, PastOf(s));
    }
  }

  lemma ClaimNeedsWorker(sh: Shared, p: Pid, job: Job, pc: Pc, ok: bool, past: Past)
    requires StageReady(sh, p, job, pc) && OthersKept(job, pc, StepOf(sh, p, job, pc, ok, past))
    requires CustodyFollows(p, Subject(sh, p, pc), job, pc, StepOf(sh, p, job, pc, ok, past))
    requires job.stage.Taken? && StepOf(sh, p, job, pc, ok, past).job.stage.ClaimUncounted?
    ensures LiveWorker(pc)
  {
    assert HandStage(pc) == Some(Taken) ==> pc.Work? || pc.Purge? || pc.Find?;
    match pc {
      case Purge(g, list, j) =>
      case Find(g, j) =>
      case _ => hide StepOf; hide HandStage; hide Backlog; hide Subject;
    }
  }

  lemma UnservedStays(s: State, e: Event, t: State, j: Pid)
    requires Inv(s) && KnowledgeOk(s) && Next(s, e, t) && NoWorker(s.sh)
    requires j in s.jobs && Unserved(s.jobs[j].stage)
    ensures j in t.jobs && Unserved(t.jobs[j].stage)
  {
    hide Inv, KnowledgeOk, StartPc, StepOf, JobAt, Asleep, CanStep, Subject, StageReady, CustodyFollows, OthersKept;
    StageMoves(s, e, t, j);
    if t.jobs[j].stage.ClaimUncounted? && s.jobs[j].stage.Taken? {
      StepFollows(s, e.p, e.ok);
      MoverReady(s, e.p);
      NoLiveWorker(s, e.p);
      assert JobAt(s, e.p) == s.jobs[j] by { TakenSubject(s, e, t, j); }
      ClaimNeedsWorker(s.sh, e.p, JobAt(s, e.p), s.procs[e.p], e.ok, PastOf(s));
    }
  }

  lemma TakenSubject(s: State, e: Event, t: State, j: Pid)
    requires Next(s, e, t) && e.Act? && j in s.jobs && j in t.jobs && t.jobs[j] != s.jobs[j]
    ensures JobAt(s, e.p) == s.jobs[j] && t.jobs[j] == StepAt(s, e.p, e.ok).job
  {
    hide StepAt, Subject, CanStep;
  }

  /** Once such a pool has no worker, no job queued then is ever run. */
  lemma {:induction false} NeverServed(b: Behavior, i: nat, k: nat, j: Pid)
    requires b.Valid() && i <= k < |b.states| && NoWorker(b.states[i].sh)
    requires j in b.states[i].jobs && b.states[i].jobs[j].stage.InQueue?
    ensures NoWorker(b.states[k].sh) && j in b.states[k].jobs && Unserved(b.states[k].jobs[j].stage)
    ensures b.states[k].jobs[j].runs == 0
  {
    hide NoWorker, Next, Inv, KnowledgeOk, Unserved;
    AlwaysKnowledge(b, k);
    if k > i {
      NeverServed(b, i, k - 1, j);
      AlwaysKnowledge(b, k - 1);
      NoWorkerStays(b.states[k - 1], b.events[k - 1], b.states[k]);
      UnservedStays(b.states[k - 1], b.events[k - 1], b.states[k], j);
    } else {
      assert Unserved(InQueue) by { Queued(); }
    }
    UnservedRuns(b.states[k], j);
  }

  lemma Queued()
    ensures Unserved(InQueue)
  {
  }

  lemma UnservedRuns(s: State, j: Pid)
    requires Inv(s) && j in s.jobs && Unserved(s.jobs[j].stage)
    ensures s.jobs[j].runs == 0
  {
    assert CallsOk(s.jobs[j]);
  }

  // ----- a run through the window
  // Thread 0 prestarts worker 1, thread 2 submits, thread 3 shuts the pool down.

  ghost predicate Reachable(s: State) {
    exists b: Behavior :: b.Valid() && b.states[|b.states| - 1] == s
  }

  lemma ReachNext(s: State, e: Event, t: State)
    requires Reachable(s) && Next(s, e, t)
    ensures Reachable(t)
  {
    hide Next, Init;
    var b: Behavior :| b.Valid() && b.states[|b.states| - 1] == s;
    var c := Behavior(b.states + [t], b.events + [e]);
    forall i {:trigger c.events[i]} | 0 <= i < |c.events|
      ensures Next(c.states[i], c.events[i], c.states[i + 1])
    {
      if i < |b.events| {
        assert b.events[i] == c.events[i];
      }
    }
    assert c.Valid() && c.states[|c.states| - 1] == t;
  }

  /** One step of a thread that works on no job and spawns nobody. */
  lemma ReachPlain(s: State, p: Pid, sh: Shared, pc: Pc, t: State)
    requires Reachable(s) && p in s.procs && CanStep(s, p, s.procs[p])
    requires !(s.procs[p].Grow? && s.procs[p].grow.Spawn?) && Subject(s.sh, p, s.procs[p]).None?
    requires StepOf(s.sh, p, NO_JOB, s.procs[p], false, PastOf(s)) == Step(sh, NO_JOB, pc)
    requires t == State(sh, s.jobs, s.procs[p := pc])
    ensures Reachable(t)
  {
    hide StepOf, Subject, CanStep, PastOf;
    assert Acts(s, p, false, 0, t);
    assert Next(s, Act(p, false, 0), t);
    ReachNext(s, Act(p, false, 0), t);
  }

  /** One step of submission 2 on its own job. */
  lemma ReachSubmit(s: State, sh: Shared, job: Job, pc: Pc, t: State)
    requires Reachable(s) && 2 in s.procs && CanStep(s, 2, s.procs[2]) && 2 in s.jobs
    requires !s.procs[2].Grow? && Subject(s.sh, 2, s.procs[2]) == Some(2)
    requires StepOf(s.sh, 2, s.jobs[2], s.procs[2], true, PastOf(s)) == Step(sh, job, pc)
    requires t == State(sh, s.jobs[2 := job], s.procs[2 := pc])
    ensures Reachable(t)
  {
    hide StepOf, Subject, CanStep, PastOf;
    assert Acts(s, 2, true, 0, t);
    assert Next(s, Act(2, true, 0), t);
    ReachNext(s, Act(2, true, 0), t);
  }

  const ONE_WORKER := PoolState(Running, 1, 0, 0, 1, 1, false)

  function Fresh(pool: PoolState): Shared {
    Shared(Config(None, false), Gate(false, 0), ZERO, WakeState(0, 0), Tally(pool.live, 0, 0), false,
           Monitor(None, {}, pool), Fifo(None, [], [], []))
  }

  function Four(sh: Shared, worker: Pc, submit: Pc, shut: Pc, job: Job): State {
    State(sh, map[2 := job], map[0 := Done(Unit), 1 := worker, 2 := submit, 3 := shut])
  }

  /** The submitted job while its submitter has it in its hands. */
  function Sent(st: Stage, accepts: nat): Job {
    Job(false, 0, NoEntry, None, {}, Pending, accepts, 0, 0, st, Some(2), false, None, None)
  }

  lemma ReachWorker(sh: Shared, worker: Pc, submit: Pc, shut: Pc, job: Job, sh1: Shared, worker1: Pc)
    requires Reachable(Four(sh, worker, submit, shut, job))
    requires CanStep(Four(sh, worker, submit, shut, job), 1, worker) && Subject(sh, 1, worker).None? && !worker.Grow?
    requires StepOf(sh, 1, NO_JOB, worker, false, PastOf(Four(sh, worker, submit, shut, job)))
             == Step(sh1, NO_JOB, worker1)
    ensures Reachable(Four(sh1, worker1, submit, shut, job))
  {
    hide StepOf, Subject, CanStep, PastOf, Reachable;
    ReachPlain(Four(sh, worker, submit, shut, job), 1, sh1, worker1, Four(sh1, worker1, submit, shut, job));
  }

  lemma ReachShutdown(sh: Shared, worker: Pc, submit: Pc, shut: Pc, job: Job, sh1: Shared, shut1: Pc)
    requires Reachable(Four(sh, worker, submit, shut, job))
    requires CanStep(Four(sh, worker, submit, shut, job), 3, shut) && Subject(sh, 3, shut).None? && !shut.Grow?
    requires StepOf(sh, 3, NO_JOB, shut, false, PastOf(Four(sh, worker, submit, shut, job))) == Step(sh1, NO_JOB, shut1)
    ensures Reachable(Four(sh1, worker, submit, shut1, job))
  {
    hide StepOf, Subject, CanStep, PastOf, Reachable;
    ReachPlain(Four(sh, worker, submit, shut, job), 3, sh1, shut1, Four(sh1, worker, submit, shut1, job));
  }

  lemma ReachJob(sh: Shared, worker: Pc, submit: Pc, shut: Pc, job: Job, sh1: Shared, submit1: Pc, job1: Job)
    requires Reachable(Four(sh, worker, submit, shut, job))
    requires CanStep(Four(sh, worker, submit, shut, job), 2, submit) && Subject(sh, 2, submit) == Some(2)
             && !submit.Grow?
    requires StepOf(sh, 2, job, submit, true, PastOf(Four(sh, worker, submit, shut, job))) == Step(sh1, job1, submit1)
    ensures Reachable(Four(sh1, worker, submit1, shut, job1))
  {
    hide StepOf, Subject, CanStep, PastOf, Reachable;
    ReachSubmit(Four(sh, worker, submit, shut, job), sh1, job1, submit1, Four(sh1, worker, submit1, shut, job1));
  }

  const NO_WORKER := PoolState(Running, 0, 0, 0, 1, 1, false)

  lemma PrestartArrived()
    ensures Reachable(State(Fresh(NO_WORKER), map[], map[0 := Grow(PreLock)]))
  {
    var s0 := State(Fresh(NO_WORKER), map[], map[]);
    var b0 := Behavior([s0], []);
    assert b0.Valid() && b0.states[|b0.states| - 1] == s0;
    var s1 := State(Fresh(NO_WORKER), map[], map[0 := Grow(PreLock)]);
    ReachNext(s0, Arrive(0, NewPrestart), s1);
  }

  lemma Prestarted()
    ensures Reachable(State(Fresh(ONE_WORKER), map[], map[0 := Done(Unit), 1 := Work(Start)]))
  {
    hide Reachable, PastOf;
    PrestartArrived();
    var s1 := State(Fresh(NO_WORKER), map[], map[0 := Grow(PreLock)]);
    var s2 := State(Lock(Fresh(NO_WORKER), 0), map[], map[0 := Grow(PreDecide)]);
    ReachPlain(s1, 0, s2.sh, Grow(PreDecide), s2);
    var s3 := State(s2.sh, map[], map[0 := Grow(Reserve(false))]);
    ReachPlain(s2, 0, s3.sh, Grow(Reserve(false)), s3);
    var s4 := State(SetPool(s3.sh, ONE_WORKER), map[], map[0 := Grow(Spawn(false))]);
    ReachPlain(s3, 0, s4.sh, Grow(Spawn(false)), s4);
    PrestartSpawns(s4);
  }

  lemma PrestartSpawns(s4: State)
    requires Reachable(s4)
    requires s4 == State(Fresh(ONE_WORKER).(tally := Tally(0, 0, 0), mon := Monitor(Some(0), {}, ONE_WORKER)), map[],
                         map[0 := Grow(Spawn(false))])
    ensures Reachable(State(Fresh(ONE_WORKER), map[], map[0 := Done(Unit), 1 := Work(Start)]))
  {
    hide Reachable;
    var s5 := State(s4.sh, map[], map[0 := Grow(CountUp(false)), 1 := Work(Start)]);
    assert s5.procs == s4.procs[0 := Grow(CountUp(false))][1 := Work(Start)];
    assert Acts(s4, 0, true, 1, s5);
    ReachNext(s4, Act(0, true, 1), s5);
    var s6 := State(Fresh(ONE_WORKER), map[], map[0 := Done(Unit), 1 := Work(Start)]);
    ReachPlain(s5, 0, s6.sh, Done(Unit), s6);
  }

  lemma AllArrived()
    ensures Reachable(Four(Fresh(ONE_WORKER), Work(Start), Sub(Enter), Wait(ShutClose), Sent(New, 0)))
  {
    hide Reachable, PastOf;
    Prestarted();
    var job := Sent(New, 0);
    var s0 := State(Fresh(ONE_WORKER), map[], map[0 := Done(Unit), 1 := Work(Start)]);
    var s1 := State(s0.sh, map[2 := job], map[0 := Done(Unit), 1 := Work(Start), 2 := Sub(Enter)]);
    assert s1.procs == s0.procs[2 := Sub(Enter)] && s1.jobs == s0.jobs[2 := job];
    ReachNext(s0, Arrive(2, NewSubmit(false, 0)), s1);
    var s2 := Four(s0.sh, Work(Start), Sub(Enter), Wait(ShutClose), job);
    assert s2.procs == s1.procs[3 := Wait(ShutClose)];
    ReachNext(s1, Arrive(3, NewShutdown), s2);
  }

  // The shared state along the rest of the run: queue, admission, counters, monitor.
  function At(gate: Gate, acct: Acct, mon: Monitor, queue: Fifo): Shared {
    Shared(Config(None, false), gate, acct, WakeState(0, 0), Tally(1, 0, 0), false, mon, queue)
  }

  const FREE := Monitor(None, {}, ONE_WORKER)
  const EMPTY := Fifo(None, [], [], [])

  /** The worker finds the queue empty and heads for its monitor. */
  lemma WorkerIdle()
    ensures Reachable(Four(At(Gate(false, 0), ZERO, FREE, EMPTY), Idle(IdleLock), Sub(Enter), Wait(ShutClose),
                           Sent(New, 0)))
  {
    hide Reachable, PastOf;
    AllArrived();
    var sh, job := At(Gate(false, 0), ZERO, FREE, EMPTY), Sent(New, 0);
    var held := LockQueue(sh, 1);
    ReachWorker(sh, Work(Start), Sub(Enter), Wait(ShutClose), job, sh, Work(TakeLock));
    ReachWorker(sh, Work(TakeLock), Sub(Enter), Wait(ShutClose), job, held, Work(TakeStop));
    ReachWorker(held, Work(TakeStop), Sub(Enter), Wait(ShutClose), job, held, Work(TakePop));
    ReachWorker(held, Work(TakePop), Sub(Enter), Wait(ShutClose), job, sh, Idle(IdleLock));
  }

  const RESERVED := Acct(1, 0, 0, 0, 0, 0, 0)
  const SUBMITTED := Acct(1, 0, 0, 0, 1, 0, 0)

  /** The submitter passes admission ... */
  lemma JobAdmitted()
    ensures Reachable(Four(Lock(At(Gate(false, 1), ZERO, FREE, EMPTY), 2), Idle(IdleLock), Sub(Slot), Wait(ShutClose),
                           Sent(New, 0)))
  {
    hide PastOf, Reachable;
    WorkerIdle();
    var job := Sent(New, 0);
    var sh := At(Gate(false, 1), ZERO, FREE, EMPTY);
    var held := Lock(sh, 2);
    ReachJob(At(Gate(false, 0), ZERO, FREE, EMPTY), Idle(IdleLock), Sub(Enter), Wait(ShutClose), job, sh, Sub(SubLock),
          job);
    ReachJob(sh, Idle(IdleLock), Sub(SubLock), Wait(ShutClose), job, held, Sub(Decide), job);
    ReachJob(held, Idle(IdleLock), Sub(Decide), Wait(ShutClose), job, held, Sub(Slot), job);
  }

  /** ... reserves a slot ... */
  lemma SlotReserved()
    ensures Reachable(Four(At(Gate(false, 1), RESERVED, FREE, EMPTY), Idle(IdleLock), Acc(Call), Wait(ShutClose),
                           Sent(Reserved, 0)))
  {
    hide PastOf, Reachable;
    JobAdmitted();
    ReachJob(Lock(At(Gate(false, 1), ZERO, FREE, EMPTY), 2), Idle(IdleLock), Sub(Slot), Wait(ShutClose), Sent(New, 0),
             At(Gate(false, 1), RESERVED, FREE, EMPTY), Acc(Call), Sent(Reserved, 0));
  }

  /** ... and its acceptance callback succeeds. */
  lemma JobAccepted()
    ensures Reachable(Four(At(Gate(false, 1), RESERVED, FREE, EMPTY), Idle(IdleLock), Pub(QueueLock), Wait(ShutClose),
                           Sent(AcceptedOk, 1)))
  {
    hide PastOf, Reachable;
    SlotReserved();
    var sh := At(Gate(false, 1), RESERVED, FREE, EMPTY);
    ReachJob(sh, Idle(IdleLock), Acc(Call), Wait(ShutClose), Sent(Reserved, 0), sh, Pub(QueueLock),
          Sent(AcceptedOk, 1));
  }

  const SHUTTING := Monitor(None, {}, ONE_WORKER.(life := ShuttingDown))

  /** Shutdown closes admission and runs to its end. */
  lemma ShutDown()
    ensures Reachable(Four(At(Gate(true, 1), RESERVED, SHUTTING, EMPTY), Idle(IdleLock), Pub(QueueLock), Done(Unit),
                           Sent(AcceptedOk, 1)))
  {
    hide Reachable, PastOf;
    JobAccepted();
    var job := Sent(AcceptedOk, 1);
    var sh0, sh1 := At(Gate(false, 1), RESERVED, FREE, EMPTY), At(Gate(true, 1), RESERVED, FREE, EMPTY);
    var sh := At(Gate(true, 1), RESERVED, SHUTTING, EMPTY);
    ReachShutdown(sh0, Idle(IdleLock), Pub(QueueLock), Wait(ShutClose), job, sh1, Wait(ShutLock));
    ReachShutdown(sh1, Idle(IdleLock), Pub(QueueLock), Wait(ShutLock), job, Lock(sh1, 3), Wait(ShutLife));
    ReachShutdown(Lock(sh1, 3), Idle(IdleLock), Pub(QueueLock), Wait(ShutLife), job, Lock(sh, 3), Wait(ShutNotify));
    ReachShutdown(Lock(sh, 3), Idle(IdleLock), Pub(QueueLock), Wait(ShutNotify), job, sh, Done(Unit));
  }

  /** The worker loads a queued count of zero. */
  lemma FirstLoad() returns (past: Past)
    ensures Reachable(Four(Lock(At(Gate(true, 1), RESERVED, SHUTTING, EMPTY), 1), Drain(ExitInflight(past)),
                           Pub(QueueLock), Done(Unit), Sent(AcceptedOk, 1)))
  {
    hide Reachable, PastOf;
    ShutDown();
    var job := Sent(AcceptedOk, 1);
    var sh := At(Gate(true, 1), RESERVED, SHUTTING, EMPTY);
    var held := Lock(sh, 1);
    past := PastOf(Four(held, Drain(ExitQueued), Pub(QueueLock), Done(Unit), job));
    ReachWorker(sh, Idle(IdleLock), Pub(QueueLock), Done(Unit), job, held, Idle(Branch));
    ReachWorker(held, Idle(Branch), Pub(QueueLock), Done(Unit), job, held, Drain(ExitQueued));
    ReachWorker(held, Drain(ExitQueued), Pub(QueueLock), Done(Unit), job, held, Drain(ExitInflight(past)));
  }

  const QUEUED_ONE := Acct(1, 1, 0, 0, 1, 0, 0)

  function QueuedJob(): Job {
    Job(false, 0, EntryQueued, None, {}, Accepted, 1, 0, 0, InQueue, None, false, None, None)
  }

  /** The submitter takes the queue lock ... */
  lemma QueueLocked() returns (past: Past)
    ensures Reachable(Four(UnderQueueLock(RESERVED), Drain(ExitInflight(past)), Pub(CountSubmitted), Done(Unit),
                           Sent(AcceptedOk, 1)))
  {
    past := FirstLoad();
    hide PastOf, Reachable;
    var sh := Lock(At(Gate(true, 1), RESERVED, SHUTTING, EMPTY), 1);
    ReachJob(sh, Drain(ExitInflight(past)), Pub(QueueLock), Done(Unit), Sent(AcceptedOk, 1),
             UnderQueueLock(RESERVED), Pub(CountSubmitted), Sent(AcceptedOk, 1));
  }

  function UnderQueueLock(acct: Acct): Shared {
    LockQueue(Lock(At(Gate(true, 1), acct, SHUTTING, EMPTY), 1), 2)
  }

  lemma CountsSubmitted(past: Past)
    ensures StepOf(UnderQueueLock(RESERVED), 2, Sent(AcceptedOk, 1), Pub(CountSubmitted), true, past)
            == Step(UnderQueueLock(SUBMITTED), Sent(Submitted, 1), Pub(CountQueued))
  {
  }

  lemma CountsQueued(past: Past)
    ensures StepOf(UnderQueueLock(SUBMITTED), 2, Sent(Submitted, 1), Pub(CountQueued), true, past)
            == Step(UnderQueueLock(QUEUED_ONE), Sent(Counted, 1), Pub(Push))
  {
  }

  lemma CountReady(acct: Acct, w: Pc, g: PubPc, job: Job)
    requires g.CountSubmitted? || g.CountQueued?
    ensures CanStep(Four(UnderQueueLock(acct), w, Pub(g), Done(Unit), job), 2, Pub(g))
            && Subject(UnderQueueLock(acct), 2, Pub(g)) == Some(2)
  {
  }

  /** ... counts its job as submitted and as queued ... */
  lemma JobCounted() returns (past: Past)
    ensures Reachable(Four(UnderQueueLock(QUEUED_ONE), Drain(ExitInflight(past)), Pub(Push), Done(Unit),
                           Sent(Counted, 1)))
  {
    past := QueueLocked();
    hide PastOf, Reachable, StepOf, CanStep, Subject;
    var w := Drain(ExitInflight(past));
    CountReady(RESERVED, w, CountSubmitted, Sent(AcceptedOk, 1));
    CountsSubmitted(PastOf(Four(UnderQueueLock(RESERVED), w, Pub(CountSubmitted), Done(Unit), Sent(AcceptedOk, 1))));
    ReachJob(UnderQueueLock(RESERVED), w, Pub(CountSubmitted), Done(Unit), Sent(AcceptedOk, 1),
             UnderQueueLock(SUBMITTED), Pub(CountQueued), Sent(Submitted, 1));
    CountReady(SUBMITTED, w, CountQueued, Sent(Submitted, 1));
    CountsQueued(PastOf(Four(UnderQueueLock(SUBMITTED), w, Pub(CountQueued), Done(Unit), Sent(Submitted, 1))));
    ReachJob(UnderQueueLock(SUBMITTED), w, Pub(CountQueued), Done(Unit), Sent(Submitted, 1),
             UnderQueueLock(QUEUED_ONE), Pub(Push), Sent(Counted, 1));
  }

  /** ... publishes it ... */
  lemma JobPublished() returns (past: Past)
    ensures Reachable(Four(Lock(At(Gate(true, 1), QUEUED_ONE, SHUTTING, Fifo(None, [2], [2], [])), 1),
                           Drain(ExitInflight(past)), Sub(WakeLoad), Done(Unit), QueuedJob()))
  {
    past := JobCounted();
    hide PastOf, Reachable;
    var sh := UnderQueueLock(QUEUED_ONE);
    var sh1 := Lock(At(Gate(true, 1), QUEUED_ONE, SHUTTING, Fifo(None, [2], [2], [])), 1);
    var job := Sent(Counted, 1);
    assert [] + [2] == [2];
    ReachJob(sh, Drain(ExitInflight(past)), Pub(Push), Done(Unit), job, sh1, Sub(WakeLoad), QueuedJob());
  }

  /** ... departs ... */
  lemma JobDeparted() returns (past: Past)
    ensures Reachable(Four(Lock(At(Gate(true, 0), QUEUED_ONE, SHUTTING, Fifo(None, [2], [2], [])), 1),
                           Drain(ExitInflight(past)), Sub(LeaveOpen), Done(Unit), QueuedJob()))
  {
    past := JobPublished();
    hide PastOf, Reachable;
    var w := Drain(ExitInflight(past));
    var sh := Lock(At(Gate(true, 1), QUEUED_ONE, SHUTTING, Fifo(None, [2], [2], [])), 1);
    var sh1 := Lock(At(Gate(true, 0), QUEUED_ONE, SHUTTING, Fifo(None, [2], [2], [])), 1);
    ReachJob(sh, w, Sub(WakeLoad), Done(Unit), QueuedJob(), sh, Sub(Leave), QueuedJob());
    ReachJob(sh, w, Sub(Leave), Done(Unit), QueuedJob(), sh1, Sub(LeaveOpen), QueuedJob());
  }

  /** ... before the worker loads an in-flight count of zero and unregisters as the last one. */
  lemma ShutdownCanStrand() returns (s: State)
    ensures Reachable(s) && s.sh.mon.pool.life == ShuttingDown && s.sh.mon.pool.live == 0
    ensures 2 in s.jobs && s.jobs[2].stage.InQueue? && s.sh.queue.items == [2]
  {
    var past := JobDeparted();
    hide PastOf, Reachable;
    var sh := Lock(At(Gate(true, 0), QUEUED_ONE, SHUTTING, Fifo(None, [2], [2], [])), 1);
    var sh1 := SetPool(sh, SHUTTING.pool.(live := 0, exiting := 1));
    ReachWorker(sh, Drain(ExitInflight(past)), Sub(LeaveOpen), Done(Unit), QueuedJob(), sh, Exit(Unregister));
    ReachWorker(sh, Exit(Unregister), Sub(LeaveOpen), Done(Unit), QueuedJob(), sh1, Exit(UncountLive));
    s := Four(sh1, Exit(UncountLive), Sub(LeaveOpen), Done(Unit), QueuedJob());
  }
}
