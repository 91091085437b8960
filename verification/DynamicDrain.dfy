/** When shutdown keeps its promise that accepted tasks run: exactly when no last worker misses a job between its two
    loads, and always when nobody was in flight once admission was closed. */
module DynamicDrain {
  import opened PoolTypes
  import opened PoolAccounting
  import opened PoolShared
  import opened DynamicPool
  import opened DynamicRun
  import opened DynamicFacts
  import opened DynamicInvariant
  import opened DynamicLifecycle
  import opened DynamicRetire
  import opened DynamicShutdown
  import opened DynamicStranding
  import opened DynamicTermination

  // ----- A last worker that misses a job leaves it stranded.

  predicate BetweenLoads(pc: Pc) { pc.Drain? && pc.drain.ExitInflight? }

  /** The last worker of a shut-down pool is bound to unregister: it has loaded an in-flight count of zero, or is about
      to load it. */
  ghost predicate OnWayOut(s: State, w: Pid) {
    && w in s.procs && s.sh.mon.pool.life == ShuttingDown && s.sh.mon.pool.live == 1 && Emptied(1, s.sh)
    && (s.procs[w] == Exit(Unregister) || BetweenLoads(s.procs[w]))
  }

  lemma WayOutHoldsMonitor(pc: Pc)
    requires pc == Exit(Unregister) || BetweenLoads(pc)
    ensures HoldsMonitor(pc) && LiveWorker(pc)
  {
  }

  lemma WayOutStep(sh: Shared, p: Pid, job: Job, pc: Pc, ok: bool, past: Past)
    requires pc == Exit(Unregister) || (BetweenLoads(pc) && sh.gate.inflight == 0)
    requires sh.mon.pool.life == ShuttingDown && sh.mon.pool.live == 1
    ensures var step := StepOf(sh, p, job, pc, ok, past);
            && step.sh.mon.pool.life == ShuttingDown
            && if pc == Exit(Unregister) then step.sh.mon.pool.live == 0
               else step.pc == Exit(Unregister) && step.sh.mon.pool.live == 1
  {
  }

  lemma WayOutStays(s: State, e: Event, t: State, w: Pid)
    requires Inv(s) && KnowledgeOk(s) && Next(s, e, t) && OnWayOut(s, w)
    ensures OnWayOut(t, w) || NoWorker(t.sh)
  {
    hide Inv, KnowledgeOk, StartPc, Asleep, Emptied, BetweenLoads, Acts;
    EmptiedStays(s, e, t, 1);
    WayOutAwake(s, e, w);
    match e {
      case Act(p, ok, worker) =>
        if p == w {
          MoverWayOut(s, w, ok, worker, t);
        } else {
          OtherWayOut(s, p, ok, worker, t, w);
        }
      case _ =>
    }
  }

  lemma WayOutAwake(s: State, e: Event, w: Pid)
    requires OnWayOut(s, w)
    ensures e.Timeout? && e.p == w ==> !s.procs[w].Idle?
  {
  }

  lemma MoverWayOut(s: State, w: Pid, ok: bool, worker: Pid, t: State)
    requires Acts(s, w, ok, worker, t) && OnWayOut(s, w) && Emptied(1, t.sh)
    ensures OnWayOut(t, w) || NoWorker(t.sh)
  {
    assert s.sh.gate.inflight == 0 by { EmptiedInFlight(s.sh); }
    hide StepOf, CanStep, Subject, Emptied, PastOf, JobAt;
    WayOutStep(s.sh, w, JobAt(s, w), s.procs[w], ok, PastOf(s));
  }

  lemma OtherWayOut(s: State, p: Pid, ok: bool, worker: Pid, t: State, w: Pid)
    requires Inv(s) && KnowledgeOk(s) && Acts(s, p, ok, worker, t) && OnWayOut(s, w) && w != p && Emptied(1, t.sh)
    ensures OnWayOut(t, w)
  {
    WayOutHoldsMonitor(s.procs[w]);
    hide Inv, KnowledgeOk, StepAt, CanStep, Subject, HoldsMonitor, LiveWorker, Emptied, BetweenLoads;
    MonitorProtects(s, p, ok, w);
  }

  lemma EmptiedInFlight(sh: Shared)
    ensures Emptied(1, sh) <==> sh.gate.closed && sh.gate.inflight == 0
  {
  }

  lemma MissIsWayOut(s: State, w: Pid, j: Pid)
    requires KnowledgeOk(s) && LastMisses(s, w, j)
    ensures OnWayOut(s, w)
  {
    hide Published, Departed;
    assert LocalOk(s.sh, s.procs[w]);
  }

  /** Once the last worker is bound to unregister, it does, and no worker is left for ever. */
  lemma {:induction false} WayOutEnds(b: Behavior, k: nat, i: nat, w: Pid)
    requires b.Valid() && k <= i < |b.states| && OnWayOut(b.states[k], w)
    ensures OnWayOut(b.states[i], w) || NoWorker(b.states[i].sh)
  {
    hide Behavior.Valid, Next, Inv, KnowledgeOk, OnWayOut, NoWorker;
    if k < i {
      WayOutEnds(b, k, i - 1, w);
      Consecutive(b, i);
      if NoWorker(b.states[i - 1].sh) {
        NoWorkerStays(b.states[i - 1], b.events[i - 1], b.states[i]);
      } else {
        WayOutStays(b.states[i - 1], b.events[i - 1], b.states[i], w);
      }
    }
  }

  lemma ThreadStays(s: State, e: Event, t: State, p: Pid)
    requires Next(s, e, t) && p in s.procs
    ensures p in t.procs
  {
    hide StepAt, CanStep, Asleep, StartPc, Subject;
  }

  lemma {:induction false} ThreadsStay(b: Behavior, k: nat, i: nat, p: Pid)
    requires b.Valid() && k <= i < |b.states| && p in b.states[k].procs
    ensures p in b.states[i].procs
  {
    hide Behavior.Valid, Next, Inv, KnowledgeOk;
    if k < i {
      ThreadsStay(b, k, i - 1, p);
      Consecutive(b, i);
      ThreadStays(b.states[i - 1], b.events[i - 1], b.states[i], p);
    }
  }

  /** Worker `w`, by state `i` off the pool, was the last one and missed `j`. */
  ghost predicate LeftBehind(b: Behavior, i: nat, w: Pid, j: Pid)
    requires i < |b.states|
  {
    && w in b.states[i].procs && !LiveWorker(b.states[i].procs[w])
    && exists k :: 0 <= k < i && LastMisses(b.states[k], w, j)
  }

  lemma StrandedWasLeft(b: Behavior, i: nat, j: Pid)
    requires b.Valid() && i < |b.states| && Stranded(b.states[i], j)
    ensures exists w :: LeftBehind(b, i, w, j)
  {
    hide Behavior.Valid, Inv, KnowledgeOk, LiveWorker, MissedBetweenLoads, Waits;
    StrandedOnlyThroughWindow(b, i, j);
    var k, w :| 0 <= k < i && LastMisses(b.states[k], w, j);
    assert w in b.states[k].procs by { MissingThread(b.states[k], w, j); }
    ThreadsStay(b, k, i, w);
    AlwaysKnowledge(b, i);
    NoLiveWorker(b.states[i], w);
    assert LeftBehind(b, i, w, j);
  }

  lemma MissingThread(s: State, w: Pid, j: Pid)
    requires MissedBetweenLoads(s, w, j)
    ensures w in s.procs
  {
  }

  lemma LeftIsStranded(b: Behavior, i: nat, w: Pid, j: Pid)
    requires b.Valid() && i < |b.states| && LeftBehind(b, i, w, j)
    requires b.states[i].sh.mon.pool.life == ShuttingDown && Waits(b.states[i], j)
    ensures Stranded(b.states[i], j)
  {
    hide Behavior.Valid, Inv, KnowledgeOk, LiveWorker, LastMisses, Waits, OnWayOut;
    var k :| 0 <= k < i && LastMisses(b.states[k], w, j);
    AlwaysKnowledge(b, k);
    MissIsWayOut(b.states[k], w, j);
    WayOutEnds(b, k, i, w);
    if OnWayOut(b.states[i], w) {
      WayOutIsLive(b.states[i], w);
    }
  }

  lemma WayOutIsLive(s: State, w: Pid)
    requires OnWayOut(s, w)
    ensures w in s.procs && LiveWorker(s.procs[w])
  {
  }

  /** In a shut-down pool a waiting job is stranded if and only if the last worker missed it between its load of the
      queued count and its load of the in-flight count, and has unregistered. */
  lemma StrandedExactly(b: Behavior, i: nat, j: Pid)
    requires b.Valid() && i < |b.states|
    requires b.states[i].sh.mon.pool.life == ShuttingDown && Waits(b.states[i], j)
    ensures Stranded(b.states[i], j) <==> exists w :: LeftBehind(b, i, w, j)
  {
    hide Behavior.Valid, Waits, LeftBehind;
    if Stranded(b.states[i], j) {
      StrandedWasLeft(b, i, j);
    } else if exists w :: LeftBehind(b, i, w, j) {
      var w :| LeftBehind(b, i, w, j);
      LeftIsStranded(b, i, w, j);
    }
  }

  // ----- Nobody in flight when admission was closed.

  /** Admission is closed with nobody in flight, `jobs` are all the published ones, and a worker between its two loads
      has seen them all published. */
  ghost predicate AllSeen(s: State, jobs: set<Pid>) {
    && Emptied(1, s.sh) && Published(s) == jobs
    && forall w :: w in s.procs && BetweenLoads(s.procs[w]) ==> s.procs[w].drain.at.published == jobs
  }

  lemma PublishedStays(s: State, e: Event, t: State)
    requires Inv(s) && KnowledgeOk(s) && Next(s, e, t) && s.sh.gate.inflight == 0
    ensures Published(t) == Published(s)
  {
    hide Inv, KnowledgeOk, Next, StageEdge, WasPublished, Unpublished;
    NobodyInFlight(s);
    forall j
      ensures j in Published(t) <==> j in Published(s)
    {
      if j in s.jobs {
        StageMoves(s, e, t, j);
        PublicationStays(s.jobs[j].stage, t.jobs[j].stage);
      } else if j in t.jobs {
        UnknownIsNew(s, e, t, j);
        NewIsUnpublished();
      }
    }
  }

  lemma PublicationStays(before: Stage, after: Stage)
    requires StageEdge(before, after) && !Unpublished(before)
    ensures WasPublished(after) <==> WasPublished(before)
  {
  }

  lemma NewIsUnpublished()
    ensures !WasPublished(New)
  {
  }

  lemma UnknownIsNew(s: State, e: Event, t: State, j: Pid)
    requires Inv(s) && KnowledgeOk(s) && Next(s, e, t) && j !in s.jobs && j in t.jobs
    ensures t.jobs[j].stage.New?
  {
    hide Inv, KnowledgeOk, StepAt, StartPc, Asleep, CanStep, Subject;
    if e.Act? {
      StepStages(s, e.p, e.ok);
    }
  }

  lemma WindowBefore(s: State, e: Event, t: State, w: Pid)
    requires Inv(s) && KnowledgeOk(s) && Next(s, e, t)
    requires w in t.procs && BetweenLoads(t.procs[w])
    ensures (w in s.procs && s.procs[w] == t.procs[w]) || t.procs[w].drain.at == PastOf(s)
  {
    hide Inv, KnowledgeOk, StepOf, StartPc, Asleep, CanStep, Subject, JobAt, PathsFollow, PastOf, StageEdge;
    FreshDrain(w);
    if e.Act? && e.p == w {
      StepStages(s, w, e.ok);
      EnterWindow(s.sh, w, JobAt(s, w), s.procs[w], e.ok, PastOf(s));
    }
  }

  lemma FreshDrain(w: Pid)
    ensures forall r: Request :: !StartPc(r).Drain?
  {
  }

  lemma AllSeenStays(s: State, e: Event, t: State, jobs: set<Pid>)
    requires Inv(s) && KnowledgeOk(s) && Next(s, e, t) && AllSeen(s, jobs)
    ensures AllSeen(t, jobs)
  {
    hide Inv, KnowledgeOk, Next, Published, Begun, Departed, Emptied;
    EmptiedStays(s, e, t, 1);
    EmptiedInFlight(s.sh);
    PublishedStays(s, e, t);
    forall w | w in t.procs && BetweenLoads(t.procs[w])
      ensures t.procs[w].drain.at.published == jobs
    {
      WindowBefore(s, e, t, w);
    }
  }

  lemma {:induction false} AllSeenLater(b: Behavior, i: nat, k: nat, jobs: set<Pid>)
    requires b.Valid() && i <= k < |b.states| && AllSeen(b.states[i], jobs)
    ensures AllSeen(b.states[k], jobs)
  {
    hide Behavior.Valid, Next, Inv, KnowledgeOk, AllSeen;
    if i < k {
      AllSeenLater(b, i, k - 1, jobs);
      Consecutive(b, k);
      AllSeenStays(b.states[k - 1], b.events[k - 1], b.states[k], jobs);
    }
  }

  lemma NobodyBetweenLoads(s: State)
    requires KnowledgeOk(s) && s.sh.mon.pool.life == Running && s.sh.gate.closed && s.sh.gate.inflight == 0
    ensures AllSeen(s, Published(s))
  {
    hide Published;
    forall w | w in s.procs
      ensures !BetweenLoads(s.procs[w])
    {
      assert LocalOk(s.sh, s.procs[w]);
    }
  }

  lemma RunningBefore(s: State, e: Event, t: State)
    requires Inv(s) && KnowledgeOk(s) && Next(s, e, t) && t.sh.mon.pool.life == Running
    ensures s.sh.mon.pool.life == Running
  {
    hide Inv, KnowledgeOk, StepAt, StartPc, Asleep, CanStep, Subject, JobAt, FramesFollow, PathsFollow, StageEdge,
      WatchFollows, LineFollows;
    if e.Act? {
      StepRespects(s, e.p, e.ok);
    }
  }

  lemma {:induction false} RunningSince(b: Behavior, i: nat, k: nat)
    requires b.Valid() && i <= k < |b.states| && b.states[k].sh.mon.pool.life == Running
    ensures b.states[i].sh.mon.pool.life == Running
  {
    hide Behavior.Valid, Next, Inv, KnowledgeOk;
    if i < k {
      Consecutive(b, k);
      RunningBefore(b.states[k - 1], b.events[k - 1], b.states[k]);
      RunningSince(b, i, k - 1);
    }
  }

  lemma NothingToMiss(s: State, jobs: set<Pid>, w: Pid, j: Pid)
    requires AllSeen(s, jobs)
    ensures !LastMisses(s, w, j)
  {
  }

  /** A caller of shutdown that finds nobody in flight after closing admission loses no accepted job: once admission is
      closed, the count is zero and the pool is still running, no job is ever stranded. */
  lemma NobodyInFlightNobodyStranded(b: Behavior, i: nat, k: nat, j: Pid)
    requires b.Valid() && i <= k < |b.states|
    requires b.states[i].sh.gate.closed && b.states[i].sh.gate.inflight == 0 && b.states[i].sh.mon.pool.life == Running
    ensures !Stranded(b.states[k], j)
  {
    hide Behavior.Valid, Inv, KnowledgeOk, LastMisses, AllSeen, Stranded;
    AlwaysKnowledge(b, i);
    NobodyBetweenLoads(b.states[i]);
    if Stranded(b.states[k], j) {
      StrandedOnlyThroughWindow(b, k, j);
      var m, w :| 0 <= m < k && LastMisses(b.states[m], w, j);
      if m <= i {
        RunningSince(b, m, i);
        MissIsShut(b.states[m], w, j);
      } else {
        AllSeenLater(b, i, m, Published(b.states[i]));
        NothingToMiss(b.states[m], Published(b.states[i]), w, j);
      }
    }
  }

  lemma MissIsShut(s: State, w: Pid, j: Pid)
    requires LastMisses(s, w, j)
    ensures s.sh.mon.pool.life == ShuttingDown
  {
  }
}
