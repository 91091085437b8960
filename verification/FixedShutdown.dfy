/** Shutdown of the fixed pool: its workers serve as long as it runs, which run leaves a job behind, and which caller is
    safe from that. */
module FixedShutdown {
  import opened PoolTypes
  import opened PoolAccounting
  import opened PoolShared
  import opened FixedPool
  import opened FixedFacts
  import opened FixedInvariant
  import opened FixedOutcomes

  // ----- Who serves.

  ghost predicate SomeoneServes(s: State) { exists w :: w in s.procs && Serving(s.procs[w]) }

  /** A worker that stops serving has found the pool stopping, or passed the ShuttingDown exit test. */
  lemma ServerStep(s: State, p: Pid, ok: bool)
    requires Inv(s) && p in s.procs && CanStep(s, p, s.procs[p])
    ensures Serving(StepAt(s, p, ok).pc) ==> Serving(s.procs[p])
    ensures Serving(s.procs[p]) && !Serving(StepAt(s, p, ok).pc) ==>
              s.procs[p].Idle? && Leaves(s.sh, s.procs[p].idle) && s.sh.mon.pool.life != Running
              && StepAt(s, p, ok).sh.mon.pool.life == s.sh.mon.pool.life
    ensures s.procs[p].Sub? ==> !Serving(s.procs[p])
  {
    hide Inv, StepAt, CanStep, JobAt, FramesFollow, GaugesFollow, JobFollows, CountersFollow, QueueFollows,
      CustodyFollows, WatchFollows, Subject;
    StepFollows(s, p, ok);
    InvParts(s);
    hide RolesOk, MonitorOk, SleepersOk, HandsOk, HeldOk, QueueOk, JobsOk, CountersOk, GaugesOk;
    assert LocalOk(s.sh, s.procs[p]);
  }

  /** No thread becomes a worker later on. */
  lemma NobodyNewServes(s: State, e: Event, t: State, w: Pid)
    requires Inv(s) && Next(s, e, t) && w in t.procs && Serving(t.procs[w])
    ensures w in s.procs && Serving(s.procs[w])
  {
    hide Inv, StepAt, CanStep, Subject, StartPc, Serving;
    FreshServes();
    if e.Act? && e.p == w {
      ServerStep(s, w, e.ok);
    }
  }

  lemma FreshServes()
    ensures forall r: Request :: !Serving(StartPc(r))
  {
  }

  /** The lifecycle moves only forward. */
  lemma LifeMoves(s: State, e: Event, t: State)
    requires Inv(s) && Next(s, e, t)
    ensures t.sh.mon.pool.life == Running ==> s.sh.mon.pool.life == Running
    ensures t.sh.mon.pool.life == ShuttingDown && s.sh.mon.pool.life != ShuttingDown ==>
              s.sh.mon.pool.life == Running && e.Act? && s.procs[e.p] == Wait(ShutLife)
  {
    hide Inv, StepAt, CanStep, JobAt, FramesFollow, GaugesFollow, JobFollows, CountersFollow, QueueFollows,
      CustodyFollows, WatchFollows, Subject, StartPc, LocalOk, GlobalOk, PathsFollow;
    if e.Act? {
      StepFollows(s, e.p, e.ok);
    }
  }

  /** While the pool runs, a worker goes on serving. */
  lemma ServerStays(s: State, e: Event, t: State, w: Pid)
    requires Inv(s) && Next(s, e, t) && w in s.procs && Serving(s.procs[w]) && t.sh.mon.pool.life == Running
    ensures w in t.procs && Serving(t.procs[w])
  {
    hide Inv, StepAt, CanStep, Subject, StartPc, Serving, JobAt;
    LifeMoves(s, e, t);
    if e.Act? && e.p == w {
      ServerStep(s, w, e.ok);
    }
  }

  /** Every worker created with the pool serves as long as the pool runs. */
  lemma {:induction false} WorkersServeWhileRunning(b: Behavior, i: nat, w: Pid)
    requires b.Valid() && i < |b.states| && w in b.states[0].procs && b.states[i].sh.mon.pool.life == Running
    ensures w in b.states[i].procs && Serving(b.states[i].procs[w])
  {
    hide Inv, Next, Serving;
    if i == 0 {
      assert b.states[0].procs[w] == Work(Start);
      StartServes();
    } else {
      Consecutive(b, i);
      LifeMoves(b.states[i - 1], b.events[i - 1], b.states[i]);
      WorkersServeWhileRunning(b, i - 1, w);
      ServerStays(b.states[i - 1], b.events[i - 1], b.states[i], w);
    }
  }

  lemma StartServes()
    ensures Serving(Work(Start))
  {
  }

  /** A worker past its loop means the pool is no longer running. */
  lemma LeaversSawStop(b: Behavior, i: nat, p: Pid)
    requires b.Valid() && i < |b.states| && p in b.states[i].procs && LiveWorker(b.states[i].procs[p])
    requires !Serving(b.states[i].procs[p])
    ensures b.states[i].sh.mon.pool.life != Running && b.states[i].sh.gate.closed
  {
    hide Behavior.Valid, Inv, LiveWorker, Serving;
    AlwaysInv(b, i);
    InvParts(b.states[i]);
    MoverKnows(b.states[i], p);
    LeaverKnows(b.states[i].sh, b.states[i].procs[p]);
  }

  lemma LeaverKnows(sh: Shared, pc: Pc)
    requires GlobalOk(sh) && LocalOk(sh, pc) && LiveWorker(pc) && !Serving(pc)
    ensures sh.mon.pool.life != Running && sh.gate.closed
  {
  }

  lemma RunningServes(b: Behavior, i: nat)
    requires b.Valid() && i < |b.states| && b.states[i].sh.mon.pool.life == Running
    ensures SomeoneServes(b.states[i])
  {
    hide Next;
    var w :| w in b.states[0].procs;
    WorkersServeWhileRunning(b, i, w);
  }

  // ----- Between the two loads.

  predicate BetweenLoads(pc: Pc) { pc.Idle? && pc.idle.ExitInflight? }

  ghost predicate AllBehind(jobs: map<Pid, Job>, js: set<Pid>) {
    forall j :: j in js ==> j in jobs && Behind(jobs[j].stage)
  }

  ghost predicate WindowOk(s: State, pc: Pc) {
    BetweenLoads(pc) ==>
      AllBehind(s.jobs, pc.idle.at.published) && AllBehind(s.jobs, pc.idle.at.departed)
  }

  ghost predicate WindowsOk(s: State) { forall w :: w in s.procs ==> WindowOk(s, s.procs[w]) }

  /** A reserved slot belongs to a submitter that is still in flight. */
  lemma UnpublishedInFlight(s: State, j: Pid)
    requires HeldOk(s) && HandsOk(s) && JobsOk(s) && j in s.jobs
             && (Unpublished(s.jobs[j].stage) || s.jobs[j].stage.New?)
    ensures j in s.procs && (InFlight(s.procs[j]) || s.procs[j] == Sub(Enter))
  {
    assert JobOk(s.jobs[j]);
    var h := s.jobs[j].holder.value;
    hide JobOk, Stock, Distinct;
    assert HandOk(s.jobs, h, s.procs[h]);
    OnlySubmittersHold(h, s.procs[h], j);
  }

  lemma OnlySubmittersHold(h: Pid, pc: Pc, j: Pid)
    ensures StageInHand(h, pc, j).Some?
            && (Unpublished(StageInHand(h, pc, j).value) || StageInHand(h, pc, j).value.New?) ==>
              h == j && (InFlight(pc) || pc == Sub(Enter))
  {
  }

  lemma PastBehind(s: State)
    requires Inv(s) && s.sh.acct.queued <= 0
    ensures AllBehind(s.jobs, Published(s)) && AllBehind(s.jobs, Departed(s))
  {
    InvParts(s);
    hide Inv, RolesOk, MonitorOk, SleepersOk, HandsOk, HeldOk, QueueOk, JobsOk, CountersOk, GaugesOk, KnowledgeOk,
      Behind, Adds, InFlight;
    forall j | j in Published(s) || j in Departed(s)
      ensures j in s.jobs && Behind(s.jobs[j].stage)
    {
      CountedJob(s, Queued, j);
      if s.jobs[j].stage.New? || Unpublished(s.jobs[j].stage) {
        UnpublishedInFlight(s, j);
      }
      PublishedBehind(s.jobs[j].stage);
    }
  }

  lemma WindowStays(s: State, e: Event, t: State, pc: Pc)
    requires Inv(s) && Next(s, e, t) && WindowOk(s, pc)
    ensures WindowOk(t, pc)
  {
    hide Inv, Next, Behind;
    if BetweenLoads(pc) {
      forall j | j in pc.idle.at.published || j in pc.idle.at.departed
        ensures j in t.jobs && Behind(t.jobs[j].stage)
      {
        JobMoves(s, e, t, j);
        BehindStays(s.jobs[j].stage, t.jobs[j].stage);
      }
    }
  }

  lemma EnterWindow(sh: Shared, p: Pid, job: Job, pc: Pc, ok: bool, past: Past)
    ensures var next := StepOf(sh, p, job, pc, ok, past).pc;
            BetweenLoads(next) ==> pc == Idle(Branch) && sh.acct.queued <= 0 && next.idle.at == past
  {
  }

  lemma NextWindows(s: State, e: Event, t: State)
    requires Inv(s) && WindowsOk(s) && Next(s, e, t)
    ensures WindowsOk(t)
  {
    hide Inv, WindowOk, StepOf, StartPc, CanStep, Subject, JobAt;
    forall w | w in t.procs
      ensures WindowOk(t, t.procs[w])
    {
      if e.Act? && w == e.p {
        MoverWindow(s, w, e.ok);
      } else if w !in s.procs {
        FreshWindow(s);
      }
      assert WindowOk(s, t.procs[w]);
      WindowStays(s, e, t, t.procs[w]);
    }
  }

  lemma FreshWindow(s: State)
    ensures forall r: Request :: WindowOk(s, StartPc(r))
  {
  }

  lemma MoverWindow(s: State, p: Pid, ok: bool)
    requires Inv(s) && p in s.procs
    ensures WindowOk(s, StepAt(s, p, ok).pc)
  {
    hide Inv, JobAt, StepOf, AllBehind, Published, Departed, Begun;
    EnterWindow(s.sh, p, JobAt(s, p), s.procs[p], ok, PastOf(s));
    if s.sh.acct.queued <= 0 {
      PastBehind(s);
    }
  }

  lemma NoWindowsAtStart(b: Behavior)
    requires b.Valid()
    ensures WindowsOk(b.states[0])
  {
    hide Next;
  }

  lemma {:induction false} AlwaysWindows(b: Behavior, i: nat)
    requires b.Valid() && i < |b.states|
    ensures WindowsOk(b.states[i])
  {
    hide Inv, WindowsOk, Next;
    if i == 0 {
      NoWindowsAtStart(b);
    } else {
      AlwaysWindows(b, i - 1);
      AlwaysInv(b, i - 1);
      NextWindows(b.states[i - 1], b.events[i - 1], b.states[i]);
    }
  }

  lemma QueuedDeparted(s: State, j: Pid)
    requires Inv(s) && s.sh.gate.inflight == 0 && j in s.sh.queue.items
    ensures j in s.jobs && s.jobs[j].stage.InQueue? && j in Departed(s)
  {
    InvParts(s);
    hide Inv, MonitorOk, SleepersOk, HeldOk, CountersOk, KnowledgeOk;
    CountedThread(s, InFlightGauge, j);
    hide GaugesOk, InFlight;
    assert HandOk(s.jobs, j, s.procs[j]);
    assert StageInHand(j, Sub(Enter), j) == Some(New);
  }

  // ----- The window.

  /** A worker is about to take the ShuttingDown exit, and both the publication of `j` and the departure of its
      submitter fell between that worker's two loads. */
  ghost predicate MissedBetweenLoads(s: State, w: Pid, j: Pid) {
    && w in s.procs && BetweenLoads(s.procs[w]) && s.sh.gate.inflight == 0
    && j !in s.procs[w].idle.at.published && j in Published(s)
    && j !in s.procs[w].idle.at.departed && j in Departed(s)
  }

  /** A job still queued when a worker of a shut-down fixed pool takes its exit was missed between the loads. */
  lemma ExitMisses(s: State, w: Pid, j: Pid)
    requires w in s.procs && BetweenLoads(s.procs[w]) && s.sh.gate.inflight == 0
    requires WindowsOk(s) && Inv(s) && j in s.sh.queue.items
    ensures MissedBetweenLoads(s, w, j)
  {
    hide Inv, Departed;
    QueuedDeparted(s, j);
    assert WindowOk(s, s.procs[w]);
  }

  /** The same at every such exit of every run. */
  lemma ExitMissesOnlyInWindow(b: Behavior, i: nat, w: Pid, j: Pid)
    requires b.Valid() && i < |b.states| && w in b.states[i].procs && BetweenLoads(b.states[i].procs[w])
    requires b.states[i].sh.gate.inflight == 0 && j in b.states[i].sh.queue.items
    ensures MissedBetweenLoads(b.states[i], w, j)
  {
    hide Behavior.Valid, Inv, WindowsOk, MissedBetweenLoads;
    AlwaysWindows(b, i);
    AlwaysInv(b, i);
    ExitMisses(b.states[i], w, j);
  }

  /** Accepted work that still needs a worker. */
  ghost predicate Waits(s: State, j: Pid) {
    j in s.jobs && (s.jobs[j].stage.InQueue? || Unpublished(s.jobs[j].stage))
  }

  ghost predicate Stranded(s: State, j: Pid) {
    s.sh.mon.pool.life == ShuttingDown && !SomeoneServes(s) && Waits(s, j)
  }

  /** The worker is the only one left that serves. */
  ghost predicate LastMisses(s: State, w: Pid, j: Pid) {
    && MissedBetweenLoads(s, w, j) && s.sh.mon.pool.life == ShuttingDown
    && forall x :: x in s.procs && Serving(s.procs[x]) ==> x == w
  }

  /** A shut-down pool without a serving worker has admitted its last submission. */
  ghost predicate Deserted(s: State) {
    s.sh.mon.pool.life == ShuttingDown && !SomeoneServes(s) ==> s.sh.gate.inflight <= 0
  }

  lemma ClosedGate(s: State, e: Event, t: State)
    requires Inv(s) && Next(s, e, t) && s.sh.gate.closed
    ensures t.sh.gate.closed && t.sh.gate.inflight <= s.sh.gate.inflight
  {
    hide Inv, StepAt, CanStep, JobAt, GaugesFollow, JobFollows, CountersFollow, QueueFollows, CustodyFollows,
      WatchFollows, Subject, StartPc, LocalOk, GlobalOk, PathsFollow, LifeFollows;
    if e.Act? {
      StepFollows(s, e.p, e.ok);
    }
  }

  /** The last worker to stop serving in a shut-down pool, found at its exit test. */
  lemma LastServer(s: State, e: Event, t: State) returns (w: Pid)
    requires Inv(s) && Next(s, e, t) && SomeoneServes(s) && !SomeoneServes(t) && s.sh.mon.pool.life == ShuttingDown
    ensures w in s.procs && s.procs[w].Idle? && Leaves(s.sh, s.procs[w].idle) && !s.procs[w].idle.Branch?
    ensures forall x :: x in s.procs && Serving(s.procs[x]) ==> x == w
  {
    hide Inv, StepAt, CanStep, Subject, StartPc, Serving, JobAt;
    w :| w in s.procs && Serving(s.procs[w]);
    forall x | x in s.procs && Serving(s.procs[x])
      ensures e.Act? && x == e.p
    {
      assert !(x in t.procs && Serving(t.procs[x]));
    }
    assert t.procs[w] == StepAt(s, w, e.ok).pc && !Serving(t.procs[w]);
    ServerStep(s, w, e.ok);
  }

  lemma LeaverLoads(s: State, w: Pid)
    requires Inv(s) && w in s.procs && s.procs[w].Idle? && Leaves(s.sh, s.procs[w].idle) && !s.procs[w].idle.Branch?
    ensures s.sh.gate.closed && s.sh.gate.inflight <= 0
    ensures s.procs[w].idle.ExitInflight? || s.sh.acct.queued <= 0
    ensures s.sh.cfg.inflightFirst ==> !s.procs[w].idle.ExitInflight?
  {
    InvParts(s);
    hide Inv, RolesOk, MonitorOk, SleepersOk, HandsOk, HeldOk, QueueOk, JobsOk, CountersOk, GaugesOk;
    assert LocalOk(s.sh, s.procs[w]);
  }

  lemma NextDeserted(s: State, e: Event, t: State)
    requires Inv(s) && Next(s, e, t) && Deserted(s) && (s.sh.mon.pool.life == Running ==> SomeoneServes(s))
    ensures Deserted(t)
  {
    hide Inv, Next, Serving;
    if t.sh.mon.pool.life == ShuttingDown && !SomeoneServes(t) {
      LifeMoves(s, e, t);
      if s.sh.mon.pool.life != ShuttingDown {
        ShutterLeavesServers(s, e, t);
      } else {
        ShutIsClosed(s);
        ClosedGate(s, e, t);
        if SomeoneServes(s) {
          var w := LastServer(s, e, t);
          LeaverLoads(s, w);
        }
      }
    }
  }

  lemma ShutIsClosed(s: State)
    requires Inv(s) && s.sh.mon.pool.life != Running
    ensures s.sh.gate.closed
  {
    InvParts(s);
    hide Inv, RolesOk, MonitorOk, SleepersOk, HandsOk, HeldOk, QueueOk, JobsOk, CountersOk, GaugesOk;
  }

  /** The thread that shuts the pool down is no worker. */
  lemma ShutterLeavesServers(s: State, e: Event, t: State)
    requires Next(s, e, t) && e.Act? && s.procs[e.p] == Wait(ShutLife) && SomeoneServes(s)
    ensures SomeoneServes(t)
  {
    hide StepAt, CanStep, Subject, JobAt;
    var w :| w in s.procs && Serving(s.procs[w]);
    assert w in t.procs && t.procs[w] == s.procs[w];
  }

  lemma {:induction false} AlwaysDeserted(b: Behavior, i: nat)
    requires b.Valid() && i < |b.states|
    ensures Deserted(b.states[i])
  {
    hide Inv, Next, SomeoneServes;
    if i > 0 {
      AlwaysDeserted(b, i - 1);
      Consecutive(b, i);
      if b.states[i - 1].sh.mon.pool.life == Running {
        RunningServes(b, i - 1);
      }
      NextDeserted(b.states[i - 1], b.events[i - 1], b.states[i]);
    }
  }

  /** A job waits for a worker only if it already did, unless its submitter, in flight, reserves its slot right now. */
  lemma WaitedBefore(s: State, e: Event, t: State, j: Pid)
    requires Inv(s) && Next(s, e, t) && Waits(t, j)
    ensures Waits(s, j) || (e.Act? && s.sh.gate.inflight >= 1 && e.p in s.procs && !Serving(s.procs[e.p]))
  {
    hide Inv, StepAt, CanStep, FramesFollow, GaugesFollow, CountersFollow, QueueFollows, CustodyFollows, WatchFollows,
      Subject, StartPc, LocalOk, GlobalOk, PathsFollow, LifeFollows, JobOk, InFlight, Serving;
    if e.Act? && !Waits(s, j) {
      StepFollows(s, e.p, e.ok);
      assert InFlight(s.procs[e.p]);
      InvParts(s);
      hide RolesOk, MonitorOk, SleepersOk, HandsOk, HeldOk, QueueOk, JobsOk, CountersOk, GaugesOk;
      CountedThread(s, InFlightGauge, e.p);
      InFlightServesNot(s.procs[e.p]);
    }
  }

  lemma InFlightServesNot(pc: Pc)
    requires InFlight(pc)
    ensures !Serving(pc)
  {
  }

  /** With nobody in flight only queued jobs wait. */
  lemma WaitsQueued(s: State, j: Pid)
    requires Inv(s) && s.sh.gate.inflight <= 0 && Waits(s, j)
    ensures j in s.sh.queue.items && s.sh.acct.queued >= 1
  {
    InvParts(s);
    hide Inv, RolesOk, MonitorOk, SleepersOk, HandsOk, HeldOk, JobsOk, CountersOk, GaugesOk, KnowledgeOk, InFlight;
    if Unpublished(s.jobs[j].stage) {
      UnpublishedInFlight(s, j);
      if InFlight(s.procs[j]) {
        CountedThread(s, InFlightGauge, j);
      } else {
        NewAtEntry(s, j);
      }
    }
    CountedJob(s, Queued, j);
  }

  lemma NewAtEntry(s: State, j: Pid)
    requires HandsOk(s) && j in s.procs && s.procs[j] == Sub(Enter)
    ensures j in s.jobs && s.jobs[j].stage.New?
  {
    assert HandOk(s.jobs, j, s.procs[j]);
    assert StageInHand(j, Sub(Enter), j) == Some(New);
  }

  lemma StrandedBefore(s: State, e: Event, t: State, j: Pid) returns (w: Pid)
    requires Inv(s) && WindowsOk(s) && Deserted(s) && Next(s, e, t) && Stranded(t, j)
    requires s.sh.mon.pool.life == Running ==> SomeoneServes(s)
    ensures Stranded(s, j) || (LastMisses(s, w, j) && !s.sh.cfg.inflightFirst)
  {
    w := 0;
    hide Inv, Next, WindowsOk, Serving, Waits, MissedBetweenLoads;
    LifeMoves(s, e, t);
    WaitedBefore(s, e, t, j);
    if s.sh.mon.pool.life != ShuttingDown {
      ShutterLeavesServers(s, e, t);
    } else if SomeoneServes(s) {
      w := LastServer(s, e, t);
      LeaverLoads(s, w);
      WaitsQueued(s, j);
      ExitMisses(s, w, j);
    }
  }

  ghost predicate EverMissed(b: Behavior, i: nat, j: Pid)
    requires i < |b.states|
  {
    exists k, w :: 0 <= k < i && LastMisses(b.states[k], w, j) && !b.states[k].sh.cfg.inflightFirst
  }

  lemma NobodyStrandedAtStart(b: Behavior, j: Pid)
    requires b.Valid()
    ensures !Stranded(b.states[0], j)
  {
    hide Next;
  }

  /** Whenever a shut-down fixed pool is left without a serving worker while an accepted job still waits, at some
      earlier moment its last serving worker took the ShuttingDown exit with that job published, and its submitter
      departed, between the worker's load of the queued count and its load of the in-flight count. */
  lemma {:induction false} StrandedOnlyThroughWindow(b: Behavior, i: nat, j: Pid)
    requires b.Valid() && i < |b.states| && Stranded(b.states[i], j)
    ensures EverMissed(b, i, j)
  {
    hide Inv, Next, WindowsOk, Deserted, LastMisses, Stranded, SomeoneServes, Behavior.Valid;
    if i == 0 {
      NobodyStrandedAtStart(b, j);
    } else {
      Consecutive(b, i);
      AlwaysWindows(b, i - 1);
      AlwaysDeserted(b, i - 1);
      if b.states[i - 1].sh.mon.pool.life == Running {
        RunningServes(b, i - 1);
      }
      var w := StrandedBefore(b.states[i - 1], b.events[i - 1], b.states[i], j);
      if Stranded(b.states[i - 1], j) {
        StrandedOnlyThroughWindow(b, i - 1, j);
      } else {
        assert LastMisses(b.states[i - 1], w, j);
      }
    }
  }

  // ----- Exactly when, and when never.

  /** Worker `w`, by state `i` not serving any more, was the last one serving and missed `j`. */
  ghost predicate LeftBehind(b: Behavior, i: nat, w: Pid, j: Pid)
    requires i < |b.states|
  {
    && w in b.states[i].procs && !Serving(b.states[i].procs[w])
    && exists k :: 0 <= k < i && LastMisses(b.states[k], w, j)
  }

  lemma {:induction false} NobodyServesLater(b: Behavior, k: nat, i: nat, w: Pid)
    requires b.Valid() && k <= i < |b.states|
    requires forall x :: x in b.states[k].procs && Serving(b.states[k].procs[x]) ==> x == w
    ensures forall x :: x in b.states[i].procs && Serving(b.states[i].procs[x]) ==> x == w
  {
    hide Inv, Next, Serving;
    if k < i {
      NobodyServesLater(b, k, i - 1, w);
      Consecutive(b, i);
      forall x | x in b.states[i].procs && Serving(b.states[i].procs[x])
        ensures x == w
      {
        NobodyNewServes(b.states[i - 1], b.events[i - 1], b.states[i], x);
      }
    }
  }

  lemma {:induction false} ThreadsStay(b: Behavior, k: nat, i: nat, p: Pid)
    requires b.Valid() && k <= i < |b.states| && p in b.states[k].procs
    ensures p in b.states[i].procs
  {
    hide StepAt, CanStep, Subject, StartPc;
    if k < i {
      ThreadsStay(b, k, i - 1, p);
      assert Next(b.states[i - 1], b.events[i - 1], b.states[i]);
    }
  }

  lemma MissingThread(s: State, w: Pid, j: Pid)
    requires LastMisses(s, w, j)
    ensures w in s.procs && forall x :: x in s.procs && Serving(s.procs[x]) ==> x == w
    ensures s.sh.mon.pool.life == ShuttingDown && w in s.procs && BetweenLoads(s.procs[w])
  {
  }

  /** In a shut-down fixed pool a waiting job is stranded if and only if the last serving worker missed it between its
      load of the queued count and its load of the in-flight count, and serves no more. */
  lemma StrandedExactly(b: Behavior, i: nat, j: Pid)
    requires b.Valid() && i < |b.states|
    requires b.states[i].sh.mon.pool.life == ShuttingDown && Waits(b.states[i], j)
    ensures Stranded(b.states[i], j) <==> exists w :: LeftBehind(b, i, w, j)
  {
    hide Behavior.Valid, Waits, LastMisses, Serving;
    if Stranded(b.states[i], j) {
      StrandedOnlyThroughWindow(b, i, j);
      var k, w :| 0 <= k < i && LastMisses(b.states[k], w, j);
      MissingThread(b.states[k], w, j);
      ThreadsStay(b, k, i, w);
      assert LeftBehind(b, i, w, j);
    } else if exists w :: LeftBehind(b, i, w, j) {
      var w :| LeftBehind(b, i, w, j);
      var k :| 0 <= k < i && LastMisses(b.states[k], w, j);
      MissingThread(b.states[k], w, j);
      NobodyServesLater(b, k, i, w);
    }
  }

  /** With the two loads of the exit test in the other order no job is ever stranded. */
  lemma OtherOrderNeverStrands(b: Behavior, i: nat, j: Pid)
    requires b.Valid() && i < |b.states| && b.states[0].sh.cfg.inflightFirst
    ensures !Stranded(b.states[i], j)
  {
    hide Behavior.Valid, LastMisses, Stranded;
    if Stranded(b.states[i], j) {
      StrandedOnlyThroughWindow(b, i, j);
      var k, w :| 0 <= k < i && LastMisses(b.states[k], w, j) && !b.states[k].sh.cfg.inflightFirst;
      ConfigKept(b, k);
    }
  }

  lemma {:induction false} ConfigKept(b: Behavior, i: nat)
    requires b.Valid() && i < |b.states|
    ensures b.states[i].sh.cfg == b.states[0].sh.cfg
  {
    hide Inv, Next;
    if i > 0 {
      ConfigKept(b, i - 1);
      Consecutive(b, i);
      SameConfig(b.states[i - 1], b.events[i - 1], b.states[i]);
    }
  }

  lemma SameConfig(s: State, e: Event, t: State)
    requires Inv(s) && Next(s, e, t)
    ensures t.sh.cfg == s.sh.cfg
  {
    hide Inv, StepAt, CanStep, JobAt, GaugesFollow, JobFollows, CountersFollow, QueueFollows, CustodyFollows,
      WatchFollows, Subject, StartPc, LocalOk, GlobalOk, PathsFollow, LifeFollows;
    if e.Act? {
      StepFollows(s, e.p, e.ok);
    }
  }

  /** Admission is closed with nobody in flight, `jobs` are all the published ones, and a worker between its two loads
      has seen them all published. */
  ghost predicate AllSeen(s: State, jobs: set<Pid>) {
    && s.sh.gate.closed && s.sh.gate.inflight == 0 && Published(s) == jobs
    && forall w :: w in s.procs && BetweenLoads(s.procs[w]) ==> s.procs[w].idle.at.published == jobs
  }

  lemma GateStays(s: State, e: Event, t: State)
    requires Inv(s) && Next(s, e, t) && s.sh.gate.closed && s.sh.gate.inflight == 0
    ensures t.sh.gate.closed && t.sh.gate.inflight == 0
  {
    ClosedGate(s, e, t);
    NextInv(s, e, t);
    hide Inv, Next;
    InvParts(t);
    NonNegative(t);
  }

  lemma NothingUnpublished(s: State, j: Pid)
    requires Inv(s) && s.sh.gate.inflight <= 0 && j in s.jobs
    ensures !Unpublished(s.jobs[j].stage)
  {
    if Unpublished(s.jobs[j].stage) {
      InvParts(s);
      UnpublishedInFlight(s, j);
      CountedThread(s, InFlightGauge, j);
      if s.procs[j] == Sub(Enter) {
        NewAtEntry(s, j);
      }
    }
  }

  lemma PublishedStays(s: State, e: Event, t: State)
    requires Inv(s) && Next(s, e, t) && s.sh.gate.inflight == 0
    ensures Published(t) == Published(s)
  {
    hide Inv, StepAt, CanStep, Subject, StartPc;
    forall j
      ensures j in Published(t) <==> j in Published(s)
    {
      if j in s.jobs {
        JobMoves(s, e, t, j);
        NothingUnpublished(s, j);
      } else if j in t.jobs {
        UnknownIsNew(s, e, t, j);
      }
    }
  }

  lemma UnknownIsNew(s: State, e: Event, t: State, j: Pid)
    requires Inv(s) && Next(s, e, t) && j !in s.jobs && j in t.jobs
    ensures t.jobs[j].stage.New?
  {
    hide Inv, StepAt, CanStep, JobAt, FramesFollow, GaugesFollow, JobFollows, CountersFollow, QueueFollows,
      CustodyFollows, Subject, StartPc, LocalOk, GlobalOk, PathsFollow, LifeFollows, WatchFollows;
    if e.Act? {
      StepFollows(s, e.p, e.ok);
    }
  }

  lemma WindowBefore(s: State, e: Event, t: State, w: Pid)
    requires Next(s, e, t) && w in t.procs && BetweenLoads(t.procs[w])
    ensures (w in s.procs && s.procs[w] == t.procs[w]) || t.procs[w].idle.at == PastOf(s)
  {
    assert forall r: Request :: !StartPc(r).Idle?;
    hide StepOf, CanStep, Subject, StartPc, JobAt, PastOf;
    if e.Act? && e.p == w {
      EnterWindow(s.sh, w, JobAt(s, w), s.procs[w], e.ok, PastOf(s));
    }
  }

  lemma AllSeenStays(s: State, e: Event, t: State, jobs: set<Pid>)
    requires Inv(s) && Next(s, e, t) && AllSeen(s, jobs)
    ensures AllSeen(t, jobs)
  {
    hide Inv, Next, Published, Begun, Departed;
    GateStays(s, e, t);
    PublishedStays(s, e, t);
    forall w | w in t.procs && BetweenLoads(t.procs[w])
      ensures t.procs[w].idle.at.published == jobs
    {
      WindowBefore(s, e, t, w);
    }
  }

  lemma {:induction false} AllSeenLater(b: Behavior, i: nat, k: nat, jobs: set<Pid>)
    requires b.Valid() && i <= k < |b.states| && AllSeen(b.states[i], jobs)
    ensures AllSeen(b.states[k], jobs)
  {
    hide Behavior.Valid, Next, Inv, AllSeen;
    if i < k {
      AllSeenLater(b, i, k - 1, jobs);
      Consecutive(b, k);
      AllSeenStays(b.states[k - 1], b.events[k - 1], b.states[k], jobs);
    }
  }

  lemma NobodyBetweenLoads(s: State)
    requires Inv(s) && s.sh.mon.pool.life == Running && s.sh.gate.closed && s.sh.gate.inflight == 0
    ensures AllSeen(s, Published(s))
  {
    InvParts(s);
    hide Inv, RolesOk, MonitorOk, SleepersOk, HandsOk, HeldOk, QueueOk, JobsOk, CountersOk, GaugesOk, Published;
    forall w | w in s.procs
      ensures !BetweenLoads(s.procs[w])
    {
      assert LocalOk(s.sh, s.procs[w]);
    }
  }

  lemma {:induction false} RunningSince(b: Behavior, i: nat, k: nat)
    requires b.Valid() && i <= k < |b.states| && b.states[k].sh.mon.pool.life == Running
    ensures b.states[i].sh.mon.pool.life == Running
  {
    hide Behavior.Valid, Next, Inv;
    if i < k {
      Consecutive(b, k);
      LifeMoves(b.states[k - 1], b.events[k - 1], b.states[k]);
      RunningSince(b, i, k - 1);
    }
  }

  lemma NothingToMiss(s: State, jobs: set<Pid>, w: Pid, j: Pid)
    requires AllSeen(s, jobs)
    ensures !LastMisses(s, w, j)
  {
  }

  /** A caller of shutdown that finds nobody in flight after closing admission loses no accepted job: once admission is
      closed, the count is zero and the pool is still running, no job is ever stranded. */
  lemma NobodyInFlightNobodyStranded(b: Behavior, i: nat, k: nat, j: Pid)
    requires b.Valid() && i <= k < |b.states|
    requires b.states[i].sh.gate.closed && b.states[i].sh.gate.inflight == 0 && b.states[i].sh.mon.pool.life == Running
    ensures !Stranded(b.states[k], j)
  {
    hide Behavior.Valid, Inv, LastMisses, AllSeen, Stranded;
    AlwaysInv(b, i);
    NobodyBetweenLoads(b.states[i]);
    if Stranded(b.states[k], j) {
      StrandedOnlyThroughWindow(b, k, j);
      var m, w :| 0 <= m < k && LastMisses(b.states[m], w, j);
      if m <= i {
        RunningSince(b, m, i);
        MissingThread(b.states[m], w, j);
      } else {
        AllSeenLater(b, i, m, Published(b.states[i]));
        NothingToMiss(b.states[m], Published(b.states[i]), w, j);
      }
    }
  }
}
