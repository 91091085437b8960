/** The fixed pool forgets no waiter: join, stop, termination waits and workers draining after shutdown. */
module FixedWaiters {
  import opened PoolTypes
  import opened PoolAccounting
  import opened PoolShared
  import opened FixedPool
  import opened FixedFacts
  import opened FixedInvariant
  import opened FixedOutcomes

  // ----- waiters

  /** Thread `w` is asleep for condition `a`, or holds the monitor and is about to be. */
  ghost predicate Watching(s: State, a: Awaited, w: Pid) {
    w in s.procs && (ParksFor(a, s.procs[w]) || (SleepsFor(a, s.procs[w]) && w in s.sh.mon.parked))
  }

  ghost predicate SomeoneComing(s: State, a: Awaited) {
    exists x :: x in s.procs && Coming(a, s.procs[x])
  }

  ghost predicate WatchOk(s: State) {
    forall a: Awaited, w :: Watching(s, a, w) && Meets(a, s.sh) ==> SomeoneComing(s, a)
  }

  lemma WatchingKnows(s: State, a: Awaited, w: Pid)
    requires Inv(s) && Watching(s, a, w)
    ensures if a.AllIdle? then s.sh.tally.idleWaiters > 0 else Meets(a, s.sh) ==> s.sh.gate.closed
    ensures ParksFor(a, s.procs[w]) ==> HoldsMonitor(s.procs[w]) && !Coming(a, s.procs[w])
  {
    InvParts(s);
    hide Inv;
    assert LocalOk(s.sh, s.procs[w]);
    CountedThread(s, JoinGauge, w);
  }

  lemma MoverWatch(s: State, p: Pid, step: Step, t: State, a: Awaited)
    requires p in s.procs && Moves(s, p, step, t) && WatchOk(s) && WatchFollows(s.sh, s.procs[p], step) && Inv(s)
    requires SleepsFor(a, step.pc) || ParksFor(a, step.pc)
    requires Meets(a, t.sh)
    ensures SomeoneComing(t, a)
  {
    hide Inv, Meets, Coming, ParksFor, SleepsFor, NotifiesAll, HoldsMonitor, Subject;
    assert Watching(s, a, p);
    WatchingKnows(s, a, p);
    var x :| x in s.procs && Coming(a, s.procs[x]);
    assert x != p && t.procs[x] == s.procs[x];
  }

  lemma OtherWatch(s: State, p: Pid, step: Step, t: State, a: Awaited, w: Pid)
    requires p in s.procs && Moves(s, p, step, t) && WatchOk(s) && Inv(s)
    requires WatchFollows(s.sh, s.procs[p], step) && FramesFollow(s.sh, p, s.procs[p], step)
    requires w != p && Watching(t, a, w) && Meets(a, t.sh)
    ensures SomeoneComing(t, a)
  {
    hide Inv, Meets, Coming, ParksFor, SleepsFor, NotifiesAll, HoldsMonitor, Subject, RetOk, WantsMonitor, Submitter,
      ParksAt;
    assert Watching(s, a, w);
    WatchingKnows(s, a, w);
    if ParksFor(a, s.procs[w]) {
      OnlyOneOwner(s, p, w);
    }
    if Meets(a, s.sh) {
      var x :| x in s.procs && Coming(a, s.procs[x]);
      assert x in t.procs && t.procs[x] == if x == p then step.pc else s.procs[x];
      assert Coming(a, t.procs[x]);
    } else {
      assert t.procs[p] == step.pc && Coming(a, t.procs[p]);
    }
  }

  lemma OnlyOneOwner(s: State, p: Pid, w: Pid)
    requires Inv(s) && p in s.procs && w in s.procs && HoldsMonitor(s.procs[w]) && w != p
    ensures !HoldsMonitor(s.procs[p])
  {
    InvParts(s);
    hide Inv, HoldsMonitor;
    assert s.sh.mon.owner == Some(w);
    assert s.sh.mon.owner == Some(p) <==> HoldsMonitor(s.procs[p]);
  }

  lemma ActWatch(s: State, p: Pid, ok: bool, t: State)
    requires p in s.procs && CanStep(s, p, s.procs[p]) && Moves(s, p, StepAt(s, p, ok), t) && Inv(s) && WatchOk(s)
    ensures WatchOk(t)
  {
    hide Inv, JobAt, Subject, CanStep, StepAt, FramesFollow, QueueFollows, WatchFollows, JobFollows, CountersFollow,
      GaugesFollow, CustodyFollows, LifeFollows, PathsFollow, LocalOk, GlobalOk, Meets, ParksFor, SleepsFor, Coming;
    var step := StepAt(s, p, ok);
    StepFollows(s, p, ok);
    forall a: Awaited, w | Watching(t, a, w) && Meets(a, t.sh)
      ensures SomeoneComing(t, a)
    {
      if w == p {
        MoverWatch(s, p, step, t, a);
      } else {
        OtherWatch(s, p, step, t, a, w);
      }
    }
  }

  lemma QuietWatch(s: State, e: Event, t: State)
    requires WatchOk(s) && Next(s, e, t) && !e.Act?
    ensures WatchOk(t)
  {
    assert forall a: Awaited, r: Request :: !ParksFor(a, StartPc(r)) && !SleepsFor(a, StartPc(r));
    hide StartPc, Meets, ParksFor, SleepsFor, Coming;
    forall a: Awaited, w | Watching(t, a, w) && Meets(a, t.sh)
      ensures SomeoneComing(t, a)
    {
      SameCondition(a, s.sh, t.sh);
      assert Watching(s, a, w);
      var x :| x in s.procs && Coming(a, s.procs[x]);
      assert x in t.procs && Coming(a, t.procs[x]);
    }
  }

  lemma SameCondition(a: Awaited, sh: Shared, next: Shared)
    requires next.gate == sh.gate && next.acct == sh.acct && next.mon.pool == sh.mon.pool
    ensures Meets(a, next) <==> Meets(a, sh)
  {
  }

  lemma NobodyWatching(b: Behavior)
    requires b.Valid()
    ensures WatchOk(b.states[0])
  {
    hide Next;
  }

  lemma {:induction false} AlwaysWatch(b: Behavior, i: nat)
    requires b.Valid() && i < |b.states|
    ensures WatchOk(b.states[i])
  {
    hide Inv, WatchOk, CanStep, Moves, StepAt, StartPc;
    if i == 0 {
      NobodyWatching(b);
    } else {
      AlwaysWatch(b, i - 1);
      AlwaysInv(b, i - 1);
      assert Next(b.states[i - 1], b.events[i - 1], b.states[i]);
      hide Behavior.Valid;
      match b.events[i - 1] {
        case Act(p, ok) => ActWatch(b.states[i - 1], p, ok, b.states[i]);
        case _ => QuietWatch(b.states[i - 1], b.events[i - 1], b.states[i]);
      }
    }
  }

  lemma SleepingStop(s: State, a: Awaited, x: Pid)
    requires SleepersOk(s) && x in s.procs && Coming(a, s.procs[x]) && x in s.sh.mon.parked && Meets(a, s.sh)
    ensures Watching(s, NoSubmitters, x) && Meets(NoSubmitters, s.sh)
  {
  }

  lemma DepartingIsAwake(s: State, a: Awaited, x: Pid)
    requires SleepersOk(s) && x in s.procs && Coming(NoSubmitters, s.procs[x])
    ensures Coming(a, s.procs[x]) && x !in s.sh.mon.parked
  {
  }

  /** Whenever the condition of a sleeping join, stop, termination wait or draining worker holds, some thread that is
      awake is past the write that met it and on the way to its `notify_all`. */
  lemma NoWaiterForgotten(b: Behavior, i: nat, a: Awaited, w: Pid) returns (x: Pid)
    requires b.Valid() && i < |b.states| && w in b.states[i].procs
    requires SleepsFor(a, b.states[i].procs[w]) && w in b.states[i].sh.mon.parked && Meets(a, b.states[i].sh)
    ensures x in b.states[i].procs && Coming(a, b.states[i].procs[x]) && x !in b.states[i].sh.mon.parked
  {
    hide Behavior.Valid, Inv, Meets, SleepsFor, Coming;
    var s := b.states[i];
    AlwaysWatch(b, i);
    AlwaysInv(b, i);
    InvParts(s);
    hide SleepersOk;
    assert Watching(s, a, w);
    x :| x in s.procs && Coming(a, s.procs[x]);
    if x in s.sh.mon.parked {
      SleepingStop(s, a, x);
      x :| x in s.procs && Coming(NoSubmitters, s.procs[x]);
      DepartingIsAwake(s, a, x);
    }
  }

  // ----- The thread on the way gets there.

  /** `w` sleeps for a condition that holds. */
  ghost predicate Overdue(s: State, a: Awaited, w: Pid) {
    w in s.procs && SleepsFor(a, s.procs[w]) && w in s.sh.mon.parked && Meets(a, s.sh)
  }

  ghost predicate OnTheWay(s: State, a: Awaited, x: Pid) { x in s.procs && Coming(a, s.procs[x]) }

  /** Each step of a thread on the way brings it closer or wakes the sleeper. */
  lemma ComesCloser(s: State, a: Awaited, w: Pid, x: Pid, ok: bool, t: State)
    requires x in s.procs && CanStep(s, x, s.procs[x]) && Moves(s, x, StepAt(s, x, ok), t) && Inv(s)
    requires Overdue(s, a, w) && OnTheWay(s, a, x)
    ensures w in t.sh.mon.parked ==> OnTheWay(t, a, x) && Distance(t.procs[x]) < Distance(s.procs[x])
  {
    hide Inv, Meets, SleepsFor, Coming, StepAt, Subject, JobAt, CanStep, Distance, HoldsMonitor, NotifiesAll,
      PathsFollow, JobFollows, CountersFollow, GaugesFollow, CustodyFollows, LifeFollows, LocalOk, GlobalOk,
      QueueFollows;
    StepFollows(s, x, ok);
    assert Watching(s, a, w);
    WatchingKnows(s, a, w);
  }

  lemma StaysOnTheWay(s: State, e: Event, t: State, a: Awaited, x: Pid)
    requires Next(s, e, t) && OnTheWay(s, a, x) && !(e.Act? && e.p == x)
    ensures x in t.procs && t.procs[x] == s.procs[x]
  {
    hide Meets, SleepsFor, StepAt, Subject, CanStep, StartPc, Coming;
  }

  /** While the pool is idle no stop has jobs left to cancel. */
  lemma IdleStock(s: State, x: Pid)
    requires Inv(s) && x in s.procs && s.sh.acct.slots == 0
    ensures Stock(s.procs[x]) == []
  {
    InvParts(s);
    hide Inv, MonitorOk, SleepersOk, HeldOk, QueueOk, JobsOk, CountersOk, GaugesOk, KnowledgeOk, RolesOk, Adds;
    assert HandOk(s.jobs, x, s.procs[x]);
    if Stock(s.procs[x]) != [] {
      var j := Stock(s.procs[x])[0];
      StockInHand(x, s.procs[x], j);
      CountedJob(s, Slots, j);
    }
  }

  lemma StockInHand(p: Pid, pc: Pc, j: Pid)
    requires j in Stock(pc)
    ensures StageInHand(p, pc, j).Some? && Adds(Slots, StageInHand(p, pc, j).value)
  {
    match pc {
      case Fin(g, k, ret) => assert j == k || j in ret.rest;
      case Stop(StopUncount(done, rest)) => assert j in done || j in rest;
      case Stop(StopCountCancelling(done, rest)) => assert j in done || j in rest;
      case _ =>
    }
  }

  lemma ShortWay(a: Awaited, pc: Pc)
    requires Stock(pc) == [] && Coming(a, pc)
    ensures Distance(pc) <= 8
  {
    match pc {
      case Stop(StopUncount(done, rest)) => assert |done + rest| == 0;
      case Stop(StopCountCancelling(done, rest)) => assert |done + rest| == 0;
      case _ =>
    }
  }

  lemma OnTheWayIsShort(s: State, a: Awaited, w: Pid, x: Pid)
    requires Inv(s) && Overdue(s, a, w) && OnTheWay(s, a, x)
    ensures x in s.procs && Distance(s.procs[x]) <= 8
  {
    hide Inv, SleepsFor, Stock, Distance;
    if a.NoSubmitters? {
      assert Distance(s.procs[x]) <= 8 by { NotifierIsShort(s.procs[x]); }
    } else {
      IdleStock(s, x);
      ShortWay(a, s.procs[x]);
    }
  }

  lemma NotifierIsShort(pc: Pc)
    requires Coming(NoSubmitters, pc)
    ensures Distance(pc) <= 8
  {
  }

  /** Steps thread `x` takes between states `i` and `k`. */
  function OwnSteps(b: Behavior, x: Pid, i: nat, k: nat): nat
    requires i <= k <= |b.events|
  {
    if k == i then 0 else OwnSteps(b, x, i, k - 1) + if b.events[k - 1].Act? && b.events[k - 1].p == x then 1 else 0
  }

  /** As long as a sleeper's condition holds and nobody has woken it, a thread on the way takes no other turn and has at
      most eight steps of its own to go: every one it takes brings its `notify_all` closer. */
  lemma {:induction false} ComingArrives(b: Behavior, i: nat, k: nat, a: Awaited, w: Pid, x: Pid)
    requires b.Valid() && i <= k < |b.states| && OnTheWay(b.states[i], a, x)
    requires forall m :: i <= m <= k ==> Overdue(b.states[m], a, w)
    ensures OnTheWay(b.states[k], a, x)
    ensures Distance(b.states[k].procs[x]) + OwnSteps(b, x, i, k) <= Distance(b.states[i].procs[x]) <= 8
  {
    hide Next, Inv, OnTheWay, Overdue, Distance;
    AlwaysInv(b, i);
    OnTheWayIsShort(b.states[i], a, w, x);
    if i < k {
      ComingArrives(b, i, k - 1, a, w, x);
      Consecutive(b, k);
      hide Behavior.Valid;
      OneStepOnTheWay(b.states[k - 1], b.events[k - 1], b.states[k], a, w, x);
    }
  }

  lemma OneStepOnTheWay(s: State, e: Event, t: State, a: Awaited, w: Pid, x: Pid)
    requires Inv(s) && Next(s, e, t) && Overdue(s, a, w) && Overdue(t, a, w) && OnTheWay(s, a, x)
    ensures OnTheWay(t, a, x)
    ensures Distance(t.procs[x]) + (if e.Act? && e.p == x then 1 else 0) <= Distance(s.procs[x])
  {
    hide Inv, Moves, CanStep, StepAt, Meets, SleepsFor, Coming, Distance;
    if e.Act? && e.p == x {
      ComesCloser(s, a, w, x, e.ok, t);
    } else {
      StaysOnTheWay(s, e, t, a, x);
    }
  }
}
