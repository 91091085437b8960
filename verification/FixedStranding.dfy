/** A fixed pool without a serving worker never serves a queued job; and a run of the source that gets there. */
module FixedStranding {
  import opened PoolTypes
  import opened PoolAccounting
  import opened PoolShared
  import opened FixedPool
  import opened FixedFacts
  import opened FixedInvariant
  import opened FixedOutcomes
  import opened FixedShutdown

  /** Queued, or cancelled straight from the queue. */
  predicate Unserved(st: Stage) { st.InQueue? || st.Popped? || st.Taken? || BeingCancelled(st) || st.Cancelled? }

  lemma NobodyServesStill(s: State, e: Event, t: State)
    requires Inv(s) && Next(s, e, t) && !SomeoneServes(s)
    ensures !SomeoneServes(t)
  {
    hide Inv, Next, Serving;
    forall w | w in t.procs
      ensures !Serving(t.procs[w])
    {
      if Serving(t.procs[w]) {
        NobodyNewServes(s, e, t, w);
      }
    }
  }

  lemma ClaimNeedsServer(s: State, e: Event, t: State, j: Pid)
    requires Inv(s) && Next(s, e, t) && j in s.jobs && j in t.jobs
    requires t.jobs[j].stage.ClaimUncounted? && !s.jobs[j].stage.ClaimUncounted?
    ensures SomeoneServes(s)
  {
    hide Inv, StepAt, CanStep, FramesFollow, GaugesFollow, CountersFollow, QueueFollows, CustodyFollows, Subject,
      StartPc, LocalOk, GlobalOk, PathsFollow, LifeFollows, WatchFollows, JobOk, StageEdge, Serving;
    if e.Act? {
      StepFollows(s, e.p, e.ok);
    }
  }

  lemma UnservedStays(s: State, e: Event, t: State, j: Pid)
    requires Inv(s) && Next(s, e, t) && !SomeoneServes(s) && j in s.jobs && Unserved(s.jobs[j].stage)
    ensures j in t.jobs && Unserved(t.jobs[j].stage)
  {
    hide Inv, Next, SomeoneServes;
    JobMoves(s, e, t, j);
    if t.jobs[j].stage.ClaimUncounted? {
      ClaimNeedsServer(s, e, t, j);
    }
  }

  /** Once nobody serves, no job queued then is ever run. */
  lemma {:induction false} NeverServed(b: Behavior, i: nat, k: nat, j: Pid)
    requires b.Valid() && i <= k < |b.states| && !SomeoneServes(b.states[i])
    requires j in b.states[i].jobs && b.states[i].jobs[j].stage.InQueue?
    ensures !SomeoneServes(b.states[k]) && j in b.states[k].jobs && Unserved(b.states[k].jobs[j].stage)
    ensures b.states[k].jobs[j].runs == 0
  {
    hide Next, Inv, SomeoneServes;
    if k > i {
      NeverServed(b, i, k - 1, j);
      Consecutive(b, k);
      NobodyServesStill(b.states[k - 1], b.events[k - 1], b.states[k]);
      UnservedStays(b.states[k - 1], b.events[k - 1], b.states[k], j);
    }
    AlwaysInv(b, k);
    UnservedRuns(b.states[k], j);
  }

  lemma UnservedRuns(s: State, j: Pid)
    requires Inv(s) && j in s.jobs && Unserved(s.jobs[j].stage)
    ensures s.jobs[j].runs == 0
  {
    InvParts(s);
    hide Inv, RolesOk, MonitorOk, SleepersOk, HandsOk, HeldOk, QueueOk, CountersOk, GaugesOk, KnowledgeOk;
    assert JobOk(s.jobs[j]);
  }

  // ----- A run through the window: worker 1, submission 2, shutdown 3.

  ghost predicate Reachable(s: State) {
    exists b: Behavior :: b.Valid() && !b.states[0].sh.cfg.inflightFirst && b.states[|b.states| - 1] == s
  }

  lemma ReachNext(s: State, e: Event, t: State)
    requires Reachable(s) && Next(s, e, t)
    ensures Reachable(t)
  {
    hide Next, Init;
    var b: Behavior :| b.Valid() && !b.states[0].sh.cfg.inflightFirst && b.states[|b.states| - 1] == s;
    var c := Behavior(b.states + [t], b.events + [e]);
    forall i {:trigger c.events[i]} | 0 <= i < |c.events|
      ensures Next(c.states[i], c.events[i], c.states[i + 1])
    {
      if i < |b.events| {
        assert b.events[i] == c.events[i];
      }
    }
    assert c.Valid() && c.states[|c.states| - 1] == t;
  }

  function Three(sh: Shared, worker: Pc, submit: Pc, shut: Pc, job: Job): State {
    State(sh, map[2 := job], map[1 := worker, 2 := submit, 3 := shut])
  }

  const ONE_WORKER := PoolState(Running, 1, 0, 0, 1, 1, false)
  const FREE := Monitor(None, {}, ONE_WORKER)
  const SHUTTING := Monitor(None, {}, ONE_WORKER.(life := ShuttingDown))

  function At(gate: Gate, acct: Acct, mon: Monitor, items: seq<Pid>): Shared {
    Shared(Config(None, false), gate, acct, WakeState(0, 0), Tally(0, 0, 0), false, mon, Fifo(None, items, [], []))
  }

  /** The submitted job while its submitter has it in its hands. */
  function Sent(st: Stage, accepts: nat): Job { Job(Pending, accepts, 0, 0, st, Some(2), None) }

  lemma ReachPlain(s: State, p: Pid, sh: Shared, pc: Pc, t: State)
    requires Reachable(s) && p in s.procs && CanStep(s, p, s.procs[p]) && Subject(s.sh, p, s.procs[p]).None?
    requires StepOf(s.sh, p, NO_JOB, s.procs[p], false, PastOf(s)) == Step(sh, NO_JOB, pc)
    requires t == State(sh, s.jobs, s.procs[p := pc])
    ensures Reachable(t)
  {
    hide StepOf, Subject, CanStep, PastOf;
    assert Next(s, Act(p, false), t);
    ReachNext(s, Act(p, false), t);
  }

  lemma ReachWorker(sh: Shared, worker: Pc, submit: Pc, shut: Pc, job: Job, sh1: Shared, worker1: Pc)
    requires Reachable(Three(sh, worker, submit, shut, job))
    requires CanStep(Three(sh, worker, submit, shut, job), 1, worker) && Subject(sh, 1, worker).None?
    requires StepOf(sh, 1, NO_JOB, worker, false, PastOf(Three(sh, worker, submit, shut, job)))
             == Step(sh1, NO_JOB, worker1)
    ensures Reachable(Three(sh1, worker1, submit, shut, job))
  {
    hide StepOf, Subject, CanStep, PastOf, Reachable;
    ReachPlain(Three(sh, worker, submit, shut, job), 1, sh1, worker1, Three(sh1, worker1, submit, shut, job));
  }

  lemma ReachShutdown(sh: Shared, worker: Pc, submit: Pc, shut: Pc, job: Job, sh1: Shared, shut1: Pc)
    requires Reachable(Three(sh, worker, submit, shut, job))
    requires CanStep(Three(sh, worker, submit, shut, job), 3, shut) && Subject(sh, 3, shut).None?
    requires StepOf(sh, 3, NO_JOB, shut, false, PastOf(Three(sh, worker, submit, shut, job)))
             == Step(sh1, NO_JOB, shut1)
    ensures Reachable(Three(sh1, worker, submit, shut1, job))
  {
    hide StepOf, Subject, CanStep, PastOf, Reachable;
    ReachPlain(Three(sh, worker, submit, shut, job), 3, sh1, shut1, Three(sh1, worker, submit, shut1, job));
  }

  lemma ReachJob(sh: Shared, worker: Pc, submit: Pc, shut: Pc, job: Job, sh1: Shared, submit1: Pc, job1: Job)
    requires Reachable(Three(sh, worker, submit, shut, job))
    requires CanStep(Three(sh, worker, submit, shut, job), 2, submit) && Subject(sh, 2, submit) == Some(2)
    requires StepOf(sh, 2, job, submit, true, PastOf(Three(sh, worker, submit, shut, job))) == Step(sh1, job1, submit1)
    ensures Reachable(Three(sh1, worker, submit1, shut, job1))
  {
    hide StepOf, Subject, CanStep, PastOf, Reachable;
    var s, t := Three(sh, worker, submit, shut, job), Three(sh1, worker, submit1, shut, job1);
    assert Next(s, Act(2, true), t);
    ReachNext(s, Act(2, true), t);
  }

  lemma PoolCreated()
    ensures Reachable(State(At(Gate(false, 0), ZERO, FREE, []), map[], map[1 := Work(Start)]))
  {
    var s0 := State(At(Gate(false, 0), ZERO, FREE, []), map[], map[1 := Work(Start)]);
    assert s0.procs.Keys == {1};
    var b0 := Behavior([s0], []);
    assert b0.Valid() && b0.states[|b0.states| - 1] == s0;
  }

  lemma AllArrived()
    ensures Reachable(Three(At(Gate(false, 0), ZERO, FREE, []), Work(Start), Sub(Enter), Wait(ShutClose), Sent(New, 0)))
  {
    PoolCreated();
    hide Reachable;
    var sh, job := At(Gate(false, 0), ZERO, FREE, []), Sent(New, 0);
    var s0 := State(sh, map[], map[1 := Work(Start)]);
    var s1 := State(sh, map[2 := job], map[1 := Work(Start), 2 := Sub(Enter)]);
    assert s1.procs == s0.procs[2 := Sub(Enter)] && s1.jobs == s0.jobs[2 := job];
    ReachNext(s0, Arrive(2, NewSubmit), s1);
    var s2 := Three(sh, Work(Start), Sub(Enter), Wait(ShutClose), job);
    assert s2.procs == s1.procs[3 := Wait(ShutClose)];
    ReachNext(s1, Arrive(3, NewShutdown), s2);
  }

  /** The worker finds the queue empty and heads for its monitor. */
  lemma WorkerIdle()
    ensures Reachable(Three(At(Gate(false, 0), ZERO, FREE, []), Idle(IdleLock), Sub(Enter), Wait(ShutClose),
                           Sent(New, 0)))
  {
    hide Reachable, PastOf;
    AllArrived();
    var sh, job := At(Gate(false, 0), ZERO, FREE, []), Sent(New, 0);
    ReachWorker(sh, Work(Start), Sub(Enter), Wait(ShutClose), job, sh, Work(StopTest));
    ReachWorker(sh, Work(StopTest), Sub(Enter), Wait(ShutClose), job, sh, Work(Steal));
    ReachWorker(sh, Work(Steal), Sub(Enter), Wait(ShutClose), job, sh, Idle(IdleLock));
  }

  const RESERVED := Acct(1, 0, 0, 0, 0, 0, 0)
  const SUBMITTED := Acct(1, 0, 0, 0, 1, 0, 0)
  const QUEUED := Acct(1, 1, 0, 0, 1, 0, 0)

  lemma ReserveCounts(gate: Gate, acct: Acct)
    ensures SubStep(At(gate, acct, FREE, []), 2, Sent(New, 0), Reserve, true)
            == Step(At(gate, acct.Add(Slots, 1), FREE, []), Sent(Reserved, 0), Sub(Accept))
    ensures CanStep(Three(At(gate, acct, FREE, []), Idle(IdleLock), Sub(Reserve), Wait(ShutClose), Sent(New, 0)), 2,
                    Sub(Reserve))
    ensures Subject(At(gate, acct, FREE, []), 2, Sub(Reserve)) == Some(2)
  {
  }

  /** The submitter is admitted ... */
  lemma JobAdmitted()
    ensures Reachable(Three(At(Gate(false, 1), ZERO, FREE, []), Idle(IdleLock), Sub(Reserve), Wait(ShutClose),
                            Sent(New, 0)))
  {
    hide Reachable, PastOf;
    WorkerIdle();
    ReachJob(At(Gate(false, 0), ZERO, FREE, []), Idle(IdleLock), Sub(Enter), Wait(ShutClose), Sent(New, 0),
             At(Gate(false, 1), ZERO, FREE, []), Sub(Reserve), Sent(New, 0));
  }

  /** ... reserves a slot ... */
  lemma SlotReserved()
    ensures Reachable(Three(At(Gate(false, 1), RESERVED, FREE, []), Idle(IdleLock), Sub(Accept), Wait(ShutClose),
                            Sent(Reserved, 0)))
  {
    assert ZERO.Add(Slots, 1) == RESERVED;
    hide Reachable, PastOf, SubStep, CanStep, Subject, At;
    JobAdmitted();
    ReserveCounts(Gate(false, 1), ZERO);
    ReachJob(At(Gate(false, 1), ZERO, FREE, []), Idle(IdleLock), Sub(Reserve), Wait(ShutClose), Sent(New, 0),
             At(Gate(false, 1), RESERVED, FREE, []), Sub(Accept), Sent(Reserved, 0));
  }

  /** ... and its acceptance callback succeeds. */
  lemma JobAccepted()
    ensures Reachable(Three(At(Gate(false, 1), RESERVED, FREE, []), Idle(IdleLock), Sub(CountSubmitted),
                            Wait(ShutClose), Sent(AcceptedOk, 1)))
  {
    hide Reachable, PastOf;
    SlotReserved();
    var sh := At(Gate(false, 1), RESERVED, FREE, []);
    ReachJob(sh, Idle(IdleLock), Sub(Accept), Wait(ShutClose), Sent(Reserved, 0), sh, Sub(CountSubmitted),
             Sent(AcceptedOk, 1));
  }

  /** Shutdown closes admission and runs to its end. */
  lemma ShutDown()
    ensures Reachable(Three(At(Gate(true, 1), RESERVED, SHUTTING, []), Idle(IdleLock), Sub(CountSubmitted),
                            Done(Returned), Sent(AcceptedOk, 1)))
  {
    hide Reachable, PastOf;
    JobAccepted();
    var w, d, job := Idle(IdleLock), Sub(CountSubmitted), Sent(AcceptedOk, 1);
    var sh0, sh1 := At(Gate(false, 1), RESERVED, FREE, []), At(Gate(true, 1), RESERVED, FREE, []);
    var sh := At(Gate(true, 1), RESERVED, SHUTTING, []);
    ReachShutdown(sh0, w, d, Wait(ShutClose), job, sh1, Wait(ShutLock));
    ReachShutdown(sh1, w, d, Wait(ShutLock), job, Lock(sh1, 3), Wait(ShutLife));
    ReachShutdown(Lock(sh1, 3), w, d, Wait(ShutLife), job, Lock(sh, 3), Wait(ShutNotify));
    ReachShutdown(Lock(sh, 3), w, d, Wait(ShutNotify), job, sh, Done(Returned));
  }

  /** The worker loads a queued count of zero ... */
  lemma FirstLoad() returns (past: Past)
    ensures Reachable(Three(Lock(At(Gate(true, 1), RESERVED, SHUTTING, []), 1), Idle(ExitInflight(past)),
                            Sub(CountSubmitted), Done(Returned), Sent(AcceptedOk, 1)))
  {
    hide Reachable, PastOf;
    ShutDown();
    var d, f, job := Sub(CountSubmitted), Done(Returned), Sent(AcceptedOk, 1);
    var sh := At(Gate(true, 1), RESERVED, SHUTTING, []);
    past := PastOf(Three(Lock(sh, 1), Idle(Branch), d, f, job));
    ReachWorker(sh, Idle(IdleLock), d, f, job, Lock(sh, 1), Idle(Branch));
    ReachWorker(Lock(sh, 1), Idle(Branch), d, f, job, Lock(sh, 1), Idle(ExitInflight(past)));
  }

  function Under(inflight: int, acct: Acct, items: seq<Pid>): Shared {
    Lock(At(Gate(true, inflight), acct, SHUTTING, items), 1)
  }

  function QueuedJob(): Job { Job(Accepted, 1, 0, 0, InQueue, None, None) }

  lemma CountsOne()
    ensures RESERVED.Add(SubmittedTasks, 1) == SUBMITTED && SUBMITTED.Add(Queued, 1) == QUEUED
  {
  }

  lemma SubmitCounts(acct: Acct)
    ensures SubStep(Under(1, acct, []), 2, Sent(AcceptedOk, 1), CountSubmitted, true)
            == Step(Under(1, acct.Add(SubmittedTasks, 1), []), Sent(Submitted, 1), Sub(CountQueued))
    ensures SubStep(Under(1, acct, []), 2, Sent(Submitted, 1), CountQueued, true)
            == Step(Under(1, acct.Add(Queued, 1), []), Sent(Counted, 1), Sub(Push))
  {
  }

  lemma SubmitPushes()
    ensures SubStep(Under(1, QUEUED, []), 2, Sent(Counted, 1), Push, true)
            == Step(Under(1, QUEUED, [2]), QueuedJob(), Sub(WakeLoad))
  {
    assert [] + [2] == [2];
  }

  lemma SubmitLeaves()
    ensures SubStep(Under(1, QUEUED, [2]), 2, QueuedJob(), WakeLoad, true)
            == Step(Under(1, QUEUED, [2]), QueuedJob(), Sub(Leave))
    ensures SubStep(Under(1, QUEUED, [2]), 2, QueuedJob(), Leave, true)
            == Step(Under(0, QUEUED, [2]), QueuedJob(), Sub(LeaveOpen))
  {
  }

  lemma SubmitReady(inflight: int, acct: Acct, items: seq<Pid>, w: Pc, g: SubPc, job: Job)
    ensures CanStep(Three(Under(inflight, acct, items), w, Sub(g), Done(Returned), job), 2, Sub(g))
    ensures Subject(Under(inflight, acct, items), 2, Sub(g)) == Some(2)
  {
  }

  lemma ReachSubmit(w: Pc, inflight: int, acct: Acct, items: seq<Pid>, g: SubPc, job: Job, inflight1: int, acct1: Acct,
                    items1: seq<Pid>, g1: SubPc, job1: Job)
    requires Reachable(Three(Under(inflight, acct, items), w, Sub(g), Done(Returned), job))
    requires SubStep(Under(inflight, acct, items), 2, job, g, true)
             == Step(Under(inflight1, acct1, items1), job1, Sub(g1))
    ensures Reachable(Three(Under(inflight1, acct1, items1), w, Sub(g1), Done(Returned), job1))
  {
    hide Reachable, PastOf, SubStep, CanStep, Subject, Under;
    SubmitReady(inflight, acct, items, w, g, job);
    ReachJob(Under(inflight, acct, items), w, Sub(g), Done(Returned), job, Under(inflight1, acct1, items1), Sub(g1),
          job1);
  }

  /** ... the submitter counts its job, publishes it and departs ... */
  lemma JobDeparted() returns (past: Past)
    ensures Reachable(Three(Under(0, QUEUED, [2]), Idle(ExitInflight(past)), Sub(LeaveOpen), Done(Returned),
              QueuedJob()))
  {
    past := FirstLoad();
    assert Lock(At(Gate(true, 1), RESERVED, SHUTTING, []), 1) == Under(1, RESERVED, []);
    hide Reachable, PastOf, SubStep, Under;
    CountsOne();
    SubmitCounts(RESERVED);
    SubmitCounts(SUBMITTED);
    SubmitPushes();
    SubmitLeaves();
    var w := Idle(ExitInflight(past));
    ReachSubmit(w, 1, RESERVED, [], CountSubmitted, Sent(AcceptedOk, 1), 1, SUBMITTED, [], CountQueued,
          Sent(Submitted, 1));
    ReachSubmit(w, 1, SUBMITTED, [], CountQueued, Sent(Submitted, 1), 1, QUEUED, [], Push, Sent(Counted, 1));
    ReachSubmit(w, 1, QUEUED, [], Push, Sent(Counted, 1), 1, QUEUED, [2], WakeLoad, QueuedJob());
    ReachSubmit(w, 1, QUEUED, [2], WakeLoad, QueuedJob(), 1, QUEUED, [2], Leave, QueuedJob());
    ReachSubmit(w, 1, QUEUED, [2], Leave, QueuedJob(), 0, QUEUED, [2], LeaveOpen, QueuedJob());
  }

  /** ... before the worker, the only one, loads an in-flight count of zero and leaves. */
  lemma ShutdownCanStrand() returns (s: State)
    ensures Reachable(s) && Stranded(s, 2) && s.sh.queue.items == [2]
  {
    var past := JobDeparted();
    hide PastOf, Reachable;
    var sh := At(Gate(true, 0), QUEUED, SHUTTING, [2]);
    ReachWorker(Lock(sh, 1), Idle(ExitInflight(past)), Sub(LeaveOpen), Done(Returned), QueuedJob(), sh, Idle(Hook));
    s := Three(sh, Idle(Hook), Sub(LeaveOpen), Done(Returned), QueuedJob());
  }
}
