/** How shutdown can leave a job behind: only through a window between the two loads of the ShuttingDown exit test. */
module DynamicShutdown {
  import opened PoolTypes
  import opened PoolAccounting
  import opened PoolShared
  import opened Counting
  import opened DynamicPool
  import opened DynamicRun
  import opened DynamicFacts
  import opened DynamicInvariant
  import opened DynamicLifecycle
  import opened DynamicWake
  import opened DynamicRetire

  ghost predicate AllBehind(jobs: map<Pid, Job>, js: set<Pid>) {
    forall j :: j in js ==> j in jobs && Behind(jobs[j].stage)
  }

  /** A worker between the two loads: whatever was published or had departed at the first is behind. */
  ghost predicate WindowOk(s: State, pc: Pc) {
    pc.Drain? && pc.drain.ExitInflight? ==>
      AllBehind(s.jobs, pc.drain.at.published) && AllBehind(s.jobs, pc.drain.at.departed)
  }

  ghost predicate WindowsOk(s: State) { forall w :: w in s.procs ==> WindowOk(s, s.procs[w]) }

  /** Accepted work that still needs a worker. */
  ghost predicate Waits(s: State, j: Pid) {
    j in s.jobs && (s.jobs[j].stage.InQueue? || Unpublished(s.jobs[j].stage))
  }

  lemma PastBehind(s: State)
    requires Inv(s) && s.sh.acct.queued == 0
    ensures AllBehind(s.jobs, Published(s)) && AllBehind(s.jobs, Departed(s))
  {
    hide Inv, InFlight, Behind, Adds;
    forall j | j in Published(s) || j in Departed(s)
      ensures j in s.jobs && Behind(s.jobs[j].stage)
    {
      NotCounted(s, j);
      if s.jobs[j].stage.New? || Unpublished(s.jobs[j].stage) {
        UnpublishedInFlight(s, j);
      }
      PublishedBehind(s.jobs[j].stage);
    }
  }

  lemma NotCounted(s: State, j: Pid)
    requires Inv(s) && s.sh.acct.queued == 0 && j in s.jobs
    ensures !Adds(Queued, s.jobs[j].stage)
  {
    InvParts(s);
    hide Inv;
    var f := (job: Job) => Adds(Queued, job.stage);
    assert s.sh.acct.Get(Queued) == HowMany(s.jobs, f);
    HowManyZero(s.jobs, f, j);
  }

  lemma EnterWindow(sh: Shared, p: Pid, job: Job, pc: Pc, ok: bool, past: Past)
    requires PathsFollow(pc, StepOf(sh, p, job, pc, ok, past).pc)
    ensures var next := StepOf(sh, p, job, pc, ok, past).pc;
            next.Drain? && next.drain.ExitInflight? ==>
              pc == Drain(ExitQueued) && sh.acct.queued == 0 && next.drain.at == past
  {
    if !pc.Drain? {
      hide StepOf;
    }
  }

  lemma AllBehindStays(s: State, e: Event, t: State, js: set<Pid>)
    requires Inv(s) && KnowledgeOk(s) && Next(s, e, t) && AllBehind(s.jobs, js)
    ensures AllBehind(t.jobs, js)
  {
    forall j | j in js
      ensures j in t.jobs && Behind(t.jobs[j].stage)
    {
      StageMoves(s, e, t, j);
      BehindStays(s.jobs[j].stage, t.jobs[j].stage);
    }
  }

  lemma MoverWindow(s: State, p: Pid, ok: bool)
    requires Inv(s) && p in s.procs && PathsFollow(s.procs[p], StepAt(s, p, ok).pc)
    ensures WindowOk(s, StepAt(s, p, ok).pc)
  {
    hide Inv, JobAt, StepOf, PathsFollow, AllBehind, Published, Departed, Begun;
    EnterWindow(s.sh, p, JobAt(s, p), s.procs[p], ok, PastOf(s));
    if s.sh.acct.queued == 0 {
      PastBehind(s);
    }
  }

  lemma WindowStays(s: State, e: Event, t: State, own: Pc)
    requires Inv(s) && KnowledgeOk(s) && Next(s, e, t) && WindowOk(s, own)
    ensures WindowOk(t, own)
  {
    hide Inv, KnowledgeOk, Next, AllBehind;
    if own.Drain? && own.drain.ExitInflight? {
      AllBehindStays(s, e, t, own.drain.at.published);
      AllBehindStays(s, e, t, own.drain.at.departed);
    }
  }

  lemma NextWindows(s: State, e: Event, t: State)
    requires Inv(s) && KnowledgeOk(s) && WindowsOk(s) && Next(s, e, t)
    ensures WindowsOk(t)
  {
    hide Inv, KnowledgeOk, WindowOk, StepAt, JobAt, PathsFollow, StartPc, Asleep;
    if e.Act? {
      StepStages(s, e.p, e.ok);
      MoverWindow(s, e.p, e.ok);
    }
    FreshWindow(s);
    forall w | w in t.procs
      ensures WindowOk(t, t.procs[w])
    {
      assert WindowOk(s, t.procs[w]);
      WindowStays(s, e, t, t.procs[w]);
    }
  }

  lemma FreshWindow(s: State)
    ensures WindowOk(s, Work(Start)) && WindowOk(s, Idle(Parked(true, true)))
    ensures forall r: Request :: WindowOk(s, StartPc(r))
  {
  }

  lemma {:induction false} AlwaysWindows(b: Behavior, i: nat)
    requires b.Valid() && i < |b.states|
    ensures WindowsOk(b.states[i])
  {
    hide Inv, KnowledgeOk, WindowsOk, Next, Behavior.Valid;
    if i == 0 {
      NoWindowsAtStart(b);
    } else {
      Consecutive(b, i);
      AlwaysWindows(b, i - 1);
      NextWindows(b.states[i - 1], b.events[i - 1], b.states[i]);
    }
  }

  lemma NoWindowsAtStart(b: Behavior)
    requires b.Valid()
    ensures WindowsOk(b.states[0])
  {
    hide Next;
  }

  // ----- the window

  /** At state `s`, worker `w` is about to take the ShuttingDown exit, and both the publication of `j` and the
      departure of its submitter fell between that worker's two loads. */
  ghost predicate MissedBetweenLoads(s: State, w: Pid, j: Pid) {
    && w in s.procs && s.procs[w].Drain? && s.procs[w].drain.ExitInflight? && s.sh.gate.inflight == 0
    && j !in s.procs[w].drain.at.published && j in Published(s)
    && j !in s.procs[w].drain.at.departed && j in Departed(s)
  }

  /** With nobody in flight, the submitter of a queued job has departed. */
  lemma QueuedDeparted(s: State, j: Pid)
    requires Inv(s) && s.sh.gate.inflight == 0 && j in s.jobs && s.jobs[j].stage.InQueue?
    ensures j in Departed(s)
  {
    InvParts(s);
    assert j in s.procs by { hide Inv; hide HandsOk; hide JobsOk; hide OwnJobsOk; }
    if InFlight(s.procs[j]) {
      InFlightCounted(s, j);
    }
    hide Inv, RolesOk, OwnJobsOk, JobsOk, HeldOk, LocksOk, InFlight;
    assert HandOk(s.jobs, j, s.procs[j]);
  }

  /** A job left queued by a ShuttingDown exit was missed between the loads. */
  lemma ExitMisses(s: State, w: Pid, j: Pid)
    requires Inv(s) && WindowsOk(s) && w in s.procs && s.procs[w].Drain? && s.procs[w].drain.ExitInflight?
    requires s.sh.gate.inflight == 0 && Waits(s, j)
    ensures MissedBetweenLoads(s, w, j)
  {
    hide Inv, Departed, Begun, InFlight;
    NobodyInFlight(s);
    QueuedDeparted(s, j);
    assert WindowOk(s, s.procs[w]);
  }

  /** A job waits for a worker only if it already did, unless its slot is reserved by this very step. */
  lemma PendingBefore(s: State, e: Event, t: State, j: Pid)
    requires Inv(s) && KnowledgeOk(s) && Next(s, e, t) && Waits(t, j)
    ensures Waits(s, j) || (e.Act? && s.sh.mon.pool.life == Running && HoldsMonitor(s.procs[e.p])
                              && (s.procs[e.p].Sub? || s.procs[e.p].Grow?))
  {
    hide Inv, KnowledgeOk, StepAt, JobAt, StartPc, Asleep, Subject, CanStep;
    if j in s.jobs {
      StageMoves(s, e, t, j);
    }
    if !Waits(s, j) && e.Act? {
      ReservedByMover(s, e.p, e.ok, e.worker, t, j);
      ReservesUnderMonitor(s, e.p, e.ok);
    }
  }

  lemma ReservedByMover(s: State, p: Pid, ok: bool, worker: Pid, t: State, j: Pid)
    requires Inv(s) && KnowledgeOk(s) && Acts(s, p, ok, worker, t) && !Waits(s, j) && Waits(t, j)
    ensures Reserves(s, p, StepAt(s, p, ok))
  {
    hide Inv, KnowledgeOk, StepAt, Subject, CanStep;
    StepStages(s, p, ok);
  }

  lemma PendingIsWork(s: State, j: Pid)
    requires Inv(s) && Waits(s, j)
    ensures !NoWork(s)
  {
    InvParts(s);
    hide Inv;
  }

  /** Where a worker stood before it turned to `Exit(Unregister)`. */
  lemma EnterExit(sh: Shared, p: Pid, job: Job, pc: Pc, ok: bool, past: Past)
    requires LocalOk(sh, pc) && GlobalOk(sh) && PathsFollow(pc, StepOf(sh, p, job, pc, ok, past).pc)
    requires StepOf(sh, p, job, pc, ok, past).pc == Exit(Unregister) && sh.mon.pool.life == ShuttingDown
    ensures pc == Idle(Consume(true)) || (pc.Drain? && pc.drain.ExitInflight? && sh.gate.inflight == 0)
            || (sh.acct.queued == 0 && sh.gate.inflight <= 0)
  {
    match pc {
      case Idle(g) =>
      case Drain(g) =>
      case _ => hide StepOf;
    }
  }

  lemma MoverExits(s: State, p: Pid, ok: bool, j: Pid)
    requires Inv(s) && KnowledgeOk(s) && TokensOk(s) && AnnouncedOk(s) && RetireOk(s) && WindowsOk(s)
    requires p in s.procs && CanStep(s, p, s.procs[p]) && StepAt(s, p, ok).pc == Exit(Unregister)
    requires s.sh.mon.pool.life == ShuttingDown && Waits(s, j)
    ensures s.sh.mon.pool.live >= 2 || MissedBetweenLoads(s, p, j)
  {
    var pc := s.procs[p];
    hide Inv, TokensOk, AnnouncedOk, WindowsOk, StepOf, JobAt, PathsFollow, CanStep, MissedBetweenLoads, NoWork, Waits,
      Published, Departed, LocalOk, GlobalOk;
    StepStages(s, p, ok);
    PendingIsWork(s, j);
    assert LocalOk(s.sh, pc) && LeaverOk(s, pc);
    EnterExit(s.sh, p, JobAt(s, p), pc, ok, PastOf(s));
    if pc.Drain? && pc.drain.ExitInflight? && s.sh.gate.inflight == 0 {
      ExitMisses(s, p, j);
    } else if s.sh.acct.queued == 0 && s.sh.gate.inflight <= 0 {
      SeesNoWork(s, p);
    }
  }

  /** That worker is the last one of a shut-down pool: the exit it is about to take leaves nobody for `j`. */
  ghost predicate LastMisses(s: State, w: Pid, j: Pid) {
    MissedBetweenLoads(s, w, j) && s.sh.mon.pool.life == ShuttingDown && s.sh.mon.pool.live == 1
  }

  ghost predicate EverMissed(b: Behavior, i: nat, j: Pid)
    requires i < |b.states|
  {
    exists k, w :: 0 <= k < i && LastMisses(b.states[k], w, j)
  }

  /** The pool is shut down, `j` waits, and worker `w` is the last one and about to unregister. */
  ghost predicate LastOut(s: State, w: Pid, j: Pid) {
    && s.sh.mon.pool.life == ShuttingDown && Waits(s, j)
    && w in s.procs && s.procs[w] == Exit(Unregister) && s.sh.mon.pool.live < 2
  }

  ghost predicate Stranded(s: State, j: Pid) {
    s.sh.mon.pool.life == ShuttingDown && s.sh.mon.pool.live == 0 && Waits(s, j)
  }

  lemma ExitKeepsPool(s: State, p: Pid, ok: bool)
    requires Inv(s) && KnowledgeOk(s) && p in s.procs && CanStep(s, p, s.procs[p])
    requires StepAt(s, p, ok).pc == Exit(Unregister)
    ensures StepAt(s, p, ok).sh.mon.pool.live == s.sh.mon.pool.live
    ensures StepAt(s, p, ok).sh.mon.pool.life == s.sh.mon.pool.life && !s.procs[p].Sub? && !s.procs[p].Grow?
  {
    hide Inv, StepOf, JobAt, PathsFollow, CanStep, FramesFollow, LifeFollows, StageEdge, WatchFollows, LocalOk,
      GlobalOk;
    StepRespects(s, p, ok);
    MoverReady(s, p);
    RetireOfStep(s.sh, p, JobAt(s, p), s.procs[p], ok, PastOf(s));
  }

  lemma MoverLastOut(s: State, w: Pid, ok: bool, j: Pid)
    requires Inv(s) && KnowledgeOk(s) && TokensOk(s) && AnnouncedOk(s) && RetireOk(s) && WindowsOk(s)
    requires w in s.procs && CanStep(s, w, s.procs[w]) && StepAt(s, w, ok).pc == Exit(Unregister)
    requires StepAt(s, w, ok).sh.mon.pool.life == ShuttingDown && StepAt(s, w, ok).sh.mon.pool.live < 2
    requires Waits(s, j) || s.procs[w].Sub? || s.procs[w].Grow?
    ensures LastMisses(s, w, j)
  {
    ExitKeepsPool(s, w, ok);
    MoverExits(s, w, ok, j);
    AtLeastOne(s, w);
    hide Inv, KnowledgeOk, TokensOk, AnnouncedOk, RetireOk, WindowsOk, CanStep, StepAt, Waits;
  }

  lemma AtLeastOne(s: State, w: Pid)
    requires Inv(s) && w in s.procs && LiveWorker(s.procs[w])
    ensures s.sh.mon.pool.live >= 1
  {
    InvParts(s);
    hide Inv;
    var f := (pc: Pc) => Weighs(LiveGauge, pc);
    assert Reading(LiveGauge, s.sh) == HowMany(s.procs, f);
    HowManyPositive(s.procs, f, w);
  }

  lemma OtherLastOut(s: State, p: Pid, ok: bool, worker: Pid, t: State, w: Pid, j: Pid)
    requires Inv(s) && KnowledgeOk(s) && Acts(s, p, ok, worker, t) && w != p && LastOut(t, w, j)
    requires Waits(s, j) || HoldsMonitor(s.procs[p])
    ensures LastOut(s, w, j)
  {
    hide Inv, KnowledgeOk, CanStep, StepAt, Waits, HoldsMonitor, Subject, Spawns;
    UnregisterHolds();
    MonitorProtects(s, p, ok, w);
  }

  lemma LastOutBefore(s: State, e: Event, t: State, w: Pid, j: Pid)
    requires Inv(s) && KnowledgeOk(s) && TokensOk(s) && AnnouncedOk(s) && RetireOk(s) && WindowsOk(s)
    requires Next(s, e, t) && LastOut(t, w, j)
    ensures LastOut(s, w, j) || LastMisses(s, w, j)
  {
    hide Inv, KnowledgeOk, TokensOk, AnnouncedOk, RetireOk, WindowsOk, StartPc, StepAt, LastMisses, Waits, Asleep,
      CanStep, Subject, JobAt, HoldsMonitor, Spawns;
    PendingBefore(s, e, t, j);
    FreshExit();
    if e.Act? {
      if e.p == w {
        MoverLastOut(s, w, e.ok, j);
      } else {
        OtherLastOut(s, e.p, e.ok, e.worker, t, w, j);
      }
    }
  }

  lemma UnregisterHolds()
    ensures HoldsMonitor(Exit(Unregister))
  {
  }

  lemma FreshExit()
    ensures forall r: Request :: StartPc(r) != Exit(Unregister)
  {
  }

  /** Where the live count and the lifecycle can go in one step. */
  lemma LastWorker(s: State, p: Pid, ok: bool)
    requires Inv(s) && KnowledgeOk(s) && p in s.procs && CanStep(s, p, s.procs[p])
    ensures var sh, next, pc := s.sh, StepAt(s, p, ok).sh, s.procs[p];
            && (next.mon.pool.life == ShuttingDown && sh.mon.pool.life != ShuttingDown ==>
                  sh.mon.pool.life == Running && pc == Wait(ShutLife) && next.mon.pool.live == sh.mon.pool.live)
            && (next.mon.pool.life == ShuttingDown && next.mon.pool.live == 0 && sh.mon.pool.live != 0 ==>
                  pc == Exit(Unregister) && sh.mon.pool.live == 1)
            && (pc.Sub? || pc.Grow? ==> next.mon.pool.life == sh.mon.pool.life)
  {
    hide Inv, StepOf, JobAt, PathsFollow, CanStep, StageEdge, WatchFollows, LocalOk, HoldsMonitor, NotifiesAll, PastOf;
    NonNegativeLive(s);
    StepRespects(s, p, ok);
    MoverReady(s, p);
    RetireOfStep(s.sh, p, JobAt(s, p), s.procs[p], ok, PastOf(s));
    assert LocalOk(s.sh, s.procs[p]);
    SpawningRuns(s.sh, s.procs[p]);
  }

  lemma StrandedBefore(s: State, e: Event, t: State, j: Pid) returns (w: Pid)
    requires Inv(s) && KnowledgeOk(s) && RetireOk(s) && Next(s, e, t) && Stranded(t, j)
    ensures Stranded(s, j) || LastOut(s, w, j)
  {
    w := 0;
    hide Inv, StepAt, StartPc, NoWork, KnowledgeOk, LeaverOk, Spawns, Waits, Asleep, CanStep, Subject, JobAt,
      HoldsMonitor;
    PendingBefore(s, e, t, j);
    if e.Act? {
      w := e.p;
      LastWorker(s, w, e.ok);
      if Waits(s, j) {
        PendingIsWork(s, j);
      }
    }
  }

  lemma SpawningRuns(sh: Shared, pc: Pc)
    requires LocalOk(sh, pc)
    ensures pc.Grow? && pc.grow.Spawn? ==> sh.mon.pool.life == Running
  {
  }

  lemma NonNegativeLive(s: State)
    requires Inv(s)
    ensures s.sh.mon.pool.live >= 0
  {
    InvParts(s);
    hide Inv;
    NonNegative(s);
    assert Reading(LiveGauge, s.sh) >= 0;
  }

  lemma EverMissedLater(b: Behavior, i: nat, j: Pid)
    requires 0 < i < |b.states| && EverMissed(b, i - 1, j)
    ensures EverMissed(b, i, j)
  {
    hide LastMisses;
  }

  /** What the earlier proofs give for two consecutive states. */
  lemma PairReady(b: Behavior, i: nat)
    requires b.Valid() && 0 < i < |b.states|
    ensures i <= |b.events|
    ensures Inv(b.states[i - 1]) && KnowledgeOk(b.states[i - 1]) && Next(b.states[i - 1], b.events[i - 1], b.states[i])
    ensures TokensOk(b.states[i - 1]) && AnnouncedOk(b.states[i - 1])
    ensures RetireOk(b.states[i - 1]) && WindowsOk(b.states[i - 1])
  {
    hide Inv, KnowledgeOk, TokensOk, AnnouncedOk, RetireOk, WindowsOk, Next;
    AlwaysKnowledge(b, i - 1);
    AlwaysWake(b, i - 1);
    AlwaysRetire(b, i - 1);
    AlwaysWindows(b, i - 1);
  }

  lemma NothingAtStart(b: Behavior, w: Pid, j: Pid)
    requires b.Valid()
    ensures !LastOut(b.states[0], w, j) && !Stranded(b.states[0], j)
  {
    hide Next;
  }

  lemma {:induction false} LastOutTrace(b: Behavior, i: nat, w: Pid, j: Pid)
    requires b.Valid() && i < |b.states| && LastOut(b.states[i], w, j)
    ensures EverMissed(b, i, j)
  {
    hide Inv, KnowledgeOk, TokensOk, AnnouncedOk, RetireOk, WindowsOk, Next, LastOut, Behavior.Valid, LastMisses,
      Stranded;
    if i == 0 {
      NothingAtStart(b, w, j);
    } else {
      PairReady(b, i);
      LastOutBefore(b.states[i - 1], b.events[i - 1], b.states[i], w, j);
      if LastOut(b.states[i - 1], w, j) {
        LastOutTrace(b, i - 1, w, j);
        EverMissedLater(b, i, j);
      } else {
        assert LastMisses(b.states[i - 1], w, j);
      }
    }
  }

  /** Whenever a shut-down pool is left without a worker while an accepted job still waits, at some earlier
      moment its last worker took the ShuttingDown exit with that job published, and its submitter departed,
      between the worker's load of the queued count and its load of the in-flight count. */
  lemma {:induction false} StrandedOnlyThroughWindow(b: Behavior, i: nat, j: Pid)
    requires b.Valid() && i < |b.states| && Stranded(b.states[i], j)
    ensures EverMissed(b, i, j)
  {
    hide Inv, KnowledgeOk, TokensOk, AnnouncedOk, RetireOk, WindowsOk, Next, LastOut, Behavior.Valid, LastMisses,
      Stranded, EverMissed;
    if i == 0 {
      NothingAtStart(b, 0, j);
    } else {
      PairReady(b, i);
      var w := StrandedBefore(b.states[i - 1], b.events[i - 1], b.states[i], j);
      if Stranded(b.states[i - 1], j) {
        StrandedOnlyThroughWindow(b, i - 1, j);
      } else {
        LastOutTrace(b, i - 1, w, j);
      }
      EverMissedLater(b, i, j);
    }
  }
}
