/** No waiter is forgotten: join, stop, termination waits and workers draining after shutdown. */
module DynamicWaiters {
  import opened PoolTypes
  import opened PoolAccounting
  import opened PoolShared
  import opened Counting
  import opened DynamicPool
  import opened DynamicRun
  import opened DynamicFacts
  import opened DynamicInvariant
  import opened DynamicLifecycle

  /** Thread `w` is asleep for condition `a`, or holds the monitor and is about to be. */
  ghost predicate Watching(s: State, a: Awaited, w: Pid) {
    w in s.procs && (ParksFor(a, s.procs[w]) || (SleepsFor(a, s.procs[w]) && w in s.sh.mon.parked))
  }

  ghost predicate SomeoneComing(s: State, a: Awaited) {
    exists x :: x in s.procs && Coming(a, s.procs[x])
  }

  ghost predicate WatchOk(s: State) {
    forall a: Awaited, w :: Watching(s, a, w) && Meets(a, s.sh) ==> SomeoneComing(s, a)
  }

  /** What a sleeper keeps true of the shared state: joiners are counted, the others sleep on a closed gate. */
  lemma WatchingKnows(s: State, a: Awaited, w: Pid)
    requires Inv(s) && KnowledgeOk(s) && Watching(s, a, w)
    ensures a.AllIdle? ==> s.sh.tally.idleWaiters > 0
    ensures !a.AllIdle? && Meets(a, s.sh) ==> s.sh.gate.closed
    ensures ParksFor(a, s.procs[w]) ==> HoldsMonitor(s.procs[w])
  {
    assert LocalOk(s.sh, s.procs[w]);
    if a.AllIdle? {
      var f := (pc: Pc) => Weighs(JoinGauge, pc);
      assert Reading(JoinGauge, s.sh) == HowMany(s.procs, f);
      HowManyPositive(s.procs, f, w);
    }
  }

  lemma ParkingHoldsMonitor(a: Awaited, pc: Pc)
    requires ParksFor(a, pc)
    ensures HoldsMonitor(pc) && !Coming(a, pc) && !SleepsFor(a, pc)
  {
  }

  lemma MonitorElsewhere(s: State, p: Pid, w: Pid)
    requires LocksOk(s) && p in s.procs && w in s.procs && HoldsMonitor(s.procs[w]) && w != p
    ensures !HoldsMonitor(s.procs[p])
  {
    assert s.sh.mon.owner == Some(w);
    assert s.sh.mon.owner == Some(p) <==> HoldsMonitor(s.procs[p]);
  }

  /** The mover itself: it does not fall asleep on a condition that holds. */
  lemma MoverWatch(s: State, p: Pid, step: Step, spawns: bool, worker: Pid, t: State, a: Awaited)
    requires p in s.procs && Moves(s, p, step, spawns, worker, t) && WatchOk(s)
    requires WatchFollows(s.sh, s.procs[p], step)
    requires SleepsFor(a, step.pc) || ParksFor(a, step.pc)
    requires Meets(a, t.sh)
    ensures SomeoneComing(t, a)
  {
    hide Meets, Coming, ParksFor, SleepsFor, NotifiesAll, HoldsMonitor, JobAt;
    ParkingHoldsMonitor(a, s.procs[p]);
    assert Watching(s, a, p);
    var x :| x in s.procs && Coming(a, s.procs[x]);
    assert x != p && t.procs[x] == s.procs[x];
  }

  /** Another thread: whoever was coming for it still is, or has just notified. */
  lemma OtherWatch(s: State, p: Pid, step: Step, spawns: bool, worker: Pid, t: State, a: Awaited, w: Pid)
    requires p in s.procs && Moves(s, p, step, spawns, worker, t) && WatchOk(s) && LocksOk(s)
    requires WatchFollows(s.sh, s.procs[p], step) && FramesFollow(s.sh, p, s.procs[p], step)
    requires w != p && Watching(s, a, w) && Watching(t, a, w) && Meets(a, t.sh)
    requires if a.AllIdle? then s.sh.tally.idleWaiters > 0 else Meets(a, s.sh) ==> s.sh.gate.closed
    ensures SomeoneComing(t, a)
  {
    var pc := s.procs[p];
    if ParksFor(a, s.procs[w]) {
      ParkingHoldsMonitor(a, s.procs[w]);
      MonitorElsewhere(s, p, w);
    }
    hide Meets, Coming, ParksFor, SleepsFor, NotifiesAll, HoldsMonitor, JobAt;
    if Meets(a, s.sh) {
      var x :| x in s.procs && Coming(a, s.procs[x]);
      assert x in t.procs && t.procs[x] == if x == p then step.pc else s.procs[x];
      assert Coming(a, t.procs[x]);
    } else {
      assert t.procs[p] == step.pc && Coming(a, t.procs[p]);
    }
  }

  lemma ActWatch(s: State, p: Pid, ok: bool, worker: Pid, t: State)
    requires Inv(s) && KnowledgeOk(s) && WatchOk(s) && Acts(s, p, ok, worker, t)
    ensures WatchOk(t)
  {
    var step := StepAt(s, p, ok);
    StepRespects(s, p, ok);
    forall a: Awaited, w | Watching(t, a, w) && Meets(a, t.sh)
      ensures SomeoneComing(t, a)
    {
      if w == p {
        MoverWatch(s, p, step, Spawns(s.procs[p], ok), worker, t, a);
      } else {
        WatchedBefore(s, p, step, Spawns(s.procs[p], ok), worker, t, a, w);
        WatchingKnows(s, a, w);
        OtherWatch(s, p, step, Spawns(s.procs[p], ok), worker, t, a, w);
      }
    }
  }

  lemma WatchedBefore(s: State, p: Pid, step: Step, spawns: bool, worker: Pid, t: State, a: Awaited, w: Pid)
    requires p in s.procs && Moves(s, p, step, spawns, worker, t) && w != p && Watching(t, a, w)
    requires step.sh.mon.parked <= s.sh.mon.parked + {p}
    ensures Watching(s, a, w)
  {
    assert !ParksFor(a, Work(Start)) && !SleepsFor(a, Work(Start));
    hide ParksFor, SleepsFor, JobAt;
  }

  lemma FreshWatch(a: Awaited, r: Request)
    ensures !ParksFor(a, StartPc(r)) && !SleepsFor(a, StartPc(r))
  {
  }

  /** Arrivals, time-outs and spurious wake-ups add nobody to the sleepers and take nobody off the way. */
  lemma QuietWatch(s: State, e: Event, t: State)
    requires WatchOk(s) && Next(s, e, t) && !e.Act?
    ensures WatchOk(t)
  {
    forall a: Awaited, w | Watching(t, a, w) && Meets(a, t.sh)
      ensures SomeoneComing(t, a)
    {
      if e.Arrive? {
        FreshWatch(a, e.request);
      }
      assert Watching(s, a, w) && Meets(a, s.sh);
      hide StartPc, Meets, Watching;
      var x :| x in s.procs && Coming(a, s.procs[x]);
      assert x in t.procs && Coming(a, t.procs[x]);
    }
  }

  lemma {:induction false} AlwaysWatch(b: Behavior, i: nat)
    requires b.Valid() && i < |b.states|
    ensures WatchOk(b.states[i])
  {
    hide Inv, KnowledgeOk, WatchOk, Acts, Arrives, TimesOut, WakesSpuriously, Behavior.Valid;
    if i == 0 {
      NobodyWatching(b);
    } else {
      Consecutive(b, i);
      AlwaysWatch(b, i - 1);
      match b.events[i - 1] {
        case Act(p, ok, worker) => ActWatch(b.states[i - 1], p, ok, worker, b.states[i]);
        case _ => QuietWatch(b.states[i - 1], b.events[i - 1], b.states[i]);
      }
    }
  }

  lemma NobodyWatching(b: Behavior)
    requires b.Valid()
    ensures WatchOk(b.states[0])
  {
    hide Next;
  }

  // ----- the theorems

  lemma SleepingStop(s: State, a: Awaited, x: Pid)
    requires SleepersOk(s) && x in s.procs && Coming(a, s.procs[x]) && x in s.sh.mon.parked && Meets(a, s.sh)
    ensures Watching(s, NoSubmitters, x) && Meets(NoSubmitters, s.sh)
  {
  }

  lemma DepartingIsAwake(s: State, a: Awaited, x: Pid)
    requires SleepersOk(s) && x in s.procs && Coming(NoSubmitters, s.procs[x])
    ensures Coming(a, s.procs[x]) && x !in s.sh.mon.parked
  {
  }

  /** Whenever the condition of a sleeping join, stop, termination wait or draining worker holds, some thread that is
      awake is past the write that met it and on the way to its `notify_all`. */
  lemma NoWaiterForgotten(b: Behavior, i: nat, a: Awaited, w: Pid) returns (x: Pid)
    requires b.Valid() && i < |b.states| && w in b.states[i].procs
    requires SleepsFor(a, b.states[i].procs[w]) && w in b.states[i].sh.mon.parked && Meets(a, b.states[i].sh)
    ensures x in b.states[i].procs && Coming(a, b.states[i].procs[x]) && x !in b.states[i].sh.mon.parked
  {
    hide Behavior.Valid, Inv, Meets, SleepsFor, Coming;
    var s := b.states[i];
    AlwaysWatch(b, i);
    AlwaysInv(b, i);
    InvParts(s);
    hide SleepersOk;
    assert Watching(s, a, w);
    x :| x in s.procs && Coming(a, s.procs[x]);
    if x in s.sh.mon.parked {
      SleepingStop(s, a, x);
      x :| x in s.procs && Coming(NoSubmitters, s.procs[x]);
      DepartingIsAwake(s, a, x);
    }
  }

  // ----- The thread on the way gets there.

  /** `w` sleeps for a condition that holds. */
  ghost predicate Overdue(s: State, a: Awaited, w: Pid) {
    w in s.procs && SleepsFor(a, s.procs[w]) && w in s.sh.mon.parked && Meets(a, s.sh)
  }

  ghost predicate OnTheWay(s: State, a: Awaited, x: Pid) { x in s.procs && Coming(a, s.procs[x]) }

  /** Each step of a thread on the way brings it closer or wakes the sleeper. */
  lemma ComesCloser(s: State, a: Awaited, w: Pid, x: Pid, ok: bool, worker: Pid, t: State)
    requires Inv(s) && KnowledgeOk(s) && Acts(s, x, ok, worker, t) && Overdue(s, a, w) && OnTheWay(s, a, x)
    ensures w in t.sh.mon.parked ==> OnTheWay(t, a, x) && Distance(t.procs[x]) < Distance(s.procs[x])
  {
    hide Inv, KnowledgeOk, Meets, SleepsFor, Coming, StepAt, Subject, JobAt, CanStep, Distance, HoldsMonitor,
      NotifiesAll;
    StepRespects(s, x, ok);
    WatchingKnows(s, a, w);
  }

  lemma StaysOnTheWay(s: State, e: Event, t: State, a: Awaited, x: Pid)
    requires Next(s, e, t) && OnTheWay(s, a, x) && !(e.Act? && e.p == x)
    ensures x in t.procs && t.procs[x] == s.procs[x]
  {
    hide Meets, SleepsFor, StepAt, Subject, CanStep, Asleep, StartPc;
  }

  /** Steps thread `x` takes between states `i` and `k`. */
  function OwnSteps(b: Behavior, x: Pid, i: nat, k: nat): nat
    requires i <= k <= |b.events|
  {
    if k == i then 0 else OwnSteps(b, x, i, k - 1) + if b.events[k - 1].Act? && b.events[k - 1].p == x then 1 else 0
  }

  /** As long as a sleeper's condition holds and nobody has woken it, a thread on the way takes no other turn and has at
      most eight steps of its own to go: every one it takes brings its `notify_all` closer. */
  lemma {:induction false} ComingArrives(b: Behavior, i: nat, k: nat, a: Awaited, w: Pid, x: Pid)
    requires b.Valid() && i <= k < |b.states| && OnTheWay(b.states[i], a, x)
    requires forall m :: i <= m <= k ==> Overdue(b.states[m], a, w)
    ensures OnTheWay(b.states[k], a, x)
    ensures Distance(b.states[k].procs[x]) + OwnSteps(b, x, i, k) <= Distance(b.states[i].procs[x]) <= 8
  {
    hide Next, Inv, KnowledgeOk, OnTheWay, Overdue, Distance;
    InTheProcs(b.states[i], a, x);
    if i < k {
      ComingArrives(b, i, k - 1, a, w, x);
      Consecutive(b, k);
      hide Behavior.Valid;
      OneStepOnTheWay(b.states[k - 1], b.events[k - 1], b.states[k], a, w, x);
    }
  }

  lemma InTheProcs(s: State, a: Awaited, x: Pid)
    requires OnTheWay(s, a, x)
    ensures x in s.procs && Distance(s.procs[x]) <= 8
  {
  }

  lemma OneStepOnTheWay(s: State, e: Event, t: State, a: Awaited, w: Pid, x: Pid)
    requires Inv(s) && KnowledgeOk(s) && Next(s, e, t) && Overdue(s, a, w) && Overdue(t, a, w) && OnTheWay(s, a, x)
    ensures OnTheWay(t, a, x)
    ensures Distance(t.procs[x]) + (if e.Act? && e.p == x then 1 else 0) <= Distance(s.procs[x])
  {
    hide Inv, KnowledgeOk, Acts, Arrives, TimesOut, WakesSpuriously, Meets, SleepsFor, Coming, Distance;
    if e.Act? && e.p == x {
      ComesCloser(s, a, w, x, e.ok, e.worker, t);
    } else {
      StaysOnTheWay(s, e, t, a, x);
    }
  }
}
