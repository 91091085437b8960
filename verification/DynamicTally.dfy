/** The lock-free count of live workers follows the one under the monitor. */
module DynamicTally {
  import opened PoolTypes
  import opened PoolAccounting
  import opened PoolShared
  import opened Counting
  import opened DynamicPool
  import opened DynamicRun
  import opened DynamicFacts
  import opened DynamicStepCounts
  import opened DynamicInvariant
  import opened DynamicLifecycle

  ghost predicate TallyOk(s: State) {
    s.sh.tally.live + HowMany(s.procs, (pc: Pc) => OwesTally(pc)) == HowMany(s.procs, (pc: Pc) => OnTally(pc))
  }

  lemma TallyUpdated(s: State, p: Pid, step: Step, spawns: bool, worker: Pid, t: State, f: Pc -> bool)
    requires p in s.procs && Moves(s, p, step, spawns, worker, t)
    ensures HowMany(t.procs, f)
            == HowMany(s.procs, f) - B(f(s.procs[p])) + B(f(step.pc)) + B(spawns && f(Work(Start)))
  {
    HowManyUpdated(s.procs, p, step.pc, f);
    if spawns {
      HowManyUpdated(s.procs[p := step.pc], worker, Work(Start), f);
    }
  }

  lemma ActTally(s: State, p: Pid, ok: bool, worker: Pid, t: State)
    requires Inv(s) && TallyOk(s) && Acts(s, p, ok, worker, t)
    ensures TallyOk(t)
  {
    MoverReady(s, p);
    hide Inv, StepOf, CanStep, OnTally, OwesTally, GaugesFollow, Subject, LocksReady, StageReady, OwnReady, JobAt;
    NewWorkerTally();
    GaugesOfStep(s.sh, p, JobAt(s, p), s.procs[p], ok, PastOf(s));
    TallyUpdated(s, p, StepAt(s, p, ok), Spawns(s.procs[p], ok), worker, t, (pc: Pc) => OwesTally(pc));
    TallyUpdated(s, p, StepAt(s, p, ok), Spawns(s.procs[p], ok), worker, t, (pc: Pc) => OnTally(pc));
  }

  lemma NewWorkerTally()
    ensures OnTally(Work(Start)) && !OwesTally(Work(Start))
    ensures forall r: Request :: !OnTally(StartPc(r)) && !OwesTally(StartPc(r))
    ensures forall timed: bool, out: bool :: OnTally(Idle(Parked(timed, out))) && !OwesTally(Idle(Parked(timed, out)))
  {
  }

  lemma NextTally(s: State, e: Event, t: State)
    requires Inv(s) && TallyOk(s) && Next(s, e, t)
    ensures TallyOk(t)
  {
    hide Inv, OnTally, OwesTally, StartPc, Acts, Asleep;
    NewWorkerTally();
    match e {
      case Act(p, ok, worker) => ActTally(s, p, ok, worker, t);
      case Arrive(p, r) =>
        HowManyUpdated(s.procs, p, StartPc(r), (pc: Pc) => OwesTally(pc));
        HowManyUpdated(s.procs, p, StartPc(r), (pc: Pc) => OnTally(pc));
      case Spurious(p) =>
      case Timeout(p) =>
        HowManyUpdated(s.procs, p, Idle(Parked(true, true)), (pc: Pc) => OwesTally(pc));
        HowManyUpdated(s.procs, p, Idle(Parked(true, true)), (pc: Pc) => OnTally(pc));
    }
  }

  lemma {:induction false} AlwaysTally(b: Behavior, i: nat)
    requires b.Valid() && i < |b.states|
    ensures TallyOk(b.states[i])
  {
    hide Behavior.Valid, Next, Inv, KnowledgeOk, TallyOk;
    if i == 0 {
      NoTallyAtStart(b);
    } else {
      AlwaysTally(b, i - 1);
      Consecutive(b, i);
      NextTally(b.states[i - 1], b.events[i - 1], b.states[i]);
    }
  }

  lemma NoTallyAtStart(b: Behavior)
    requires b.Valid()
    ensures TallyOk(b.states[0])
  {
    hide Next;
    HowManyNone((pc: Pc) => OwesTally(pc));
    HowManyNone((pc: Pc) => OnTally(pc));
  }

  /** By how much the lock-free count is ahead at a position. */
  function Ahead(pc: Pc): int {
    B(pc == Exit(UncountLive)) - B(OwesTally(pc)) - B(pc.Grow? && pc.grow.Spawn?)
  }

  lemma AheadHoldsMonitor(pc: Pc)
    ensures Ahead(pc) == B(OnTally(pc)) - B(OwesTally(pc)) - B(Weighs(LiveGauge, pc))
    ensures !HoldsMonitor(pc) ==> !OwesTally(pc) && (OnTally(pc) <==> Weighs(LiveGauge, pc))
  {
  }

  /** Apart from the one thread `h`, every thread counts alike on both counts and owes nothing. */
  lemma AheadOfOne(procs: map<Pid, Pc>, h: Pid)
    requires h in procs
    requires forall p :: p in procs && p != h ==>
             !OwesTally(procs[p]) && (OnTally(procs[p]) <==> Weighs(LiveGauge, procs[p]))
    ensures HowMany(procs, (pc: Pc) => OnTally(pc)) - HowMany(procs, (pc: Pc) => OwesTally(pc))
            == HowMany(procs, (pc: Pc) => Weighs(LiveGauge, pc)) + Ahead(procs[h])
  {
    var on, owes, live := (pc: Pc) => OnTally(pc), (pc: Pc) => OwesTally(pc), (pc: Pc) => Weighs(LiveGauge, pc);
    AheadHoldsMonitor(procs[h]);
    hide OnTally, OwesTally, Weighs, Ahead;
    assert Chosen(procs, on) - {h} == Chosen(procs, live) - {h};
    assert Chosen(procs, owes) - {h} == {};
    Apart(procs, on, h);
    Apart(procs, owes, h);
    Apart(procs, live, h);
  }

  lemma Apart(procs: map<Pid, Pc>, f: Pc -> bool, h: Pid)
    requires h in procs
    ensures HowMany(procs, f) == |Chosen(procs, f) - {h}| + B(f(procs[h]))
  {
    if f(procs[h]) {
      assert Chosen(procs, f) == (Chosen(procs, f) - {h}) + {h};
    } else {
      assert Chosen(procs, f) == Chosen(procs, f) - {h};
    }
  }

  lemma AheadOfNone(procs: map<Pid, Pc>)
    requires forall p :: p in procs ==> !OwesTally(procs[p]) && (OnTally(procs[p]) <==> Weighs(LiveGauge, procs[p]))
    ensures HowMany(procs, (pc: Pc) => OnTally(pc)) - HowMany(procs, (pc: Pc) => OwesTally(pc))
            == HowMany(procs, (pc: Pc) => Weighs(LiveGauge, pc))
  {
    var on, owes, live := (pc: Pc) => OnTally(pc), (pc: Pc) => OwesTally(pc), (pc: Pc) => Weighs(LiveGauge, pc);
    assert Chosen(procs, on) == Chosen(procs, live);
    assert Chosen(procs, owes) == {};
  }

  /** In every reachable state the lock-free count of live workers is the one under the monitor, except that it lags
      while the monitor's owner creates a worker and is ahead while the owner unregisters itself. */
  lemma TallyMirrors(b: Behavior, i: nat)
    requires b.Valid() && i < |b.states|
    ensures var s := b.states[i];
            s.sh.tally.live == s.sh.mon.pool.live
            + if s.sh.mon.owner.Some? && s.sh.mon.owner.value in s.procs then
                Ahead(s.procs[s.sh.mon.owner.value])
              else 0
  {
    hide Behavior.Valid, Inv, KnowledgeOk, Ahead, OnTally, OwesTally, Weighs, HoldsMonitor;
    var s := b.states[i];
    AlwaysTally(b, i);
    AlwaysKnowledge(b, i);
    InvParts(s);
    assert Reading(LiveGauge, s.sh) == HowMany(s.procs, (pc: Pc) => Weighs(LiveGauge, pc));
    forall p | p in s.procs && s.sh.mon.owner != Some(p)
      ensures !OwesTally(s.procs[p]) && (OnTally(s.procs[p]) <==> Weighs(LiveGauge, s.procs[p]))
    {
      AheadHoldsMonitor(s.procs[p]);
    }
    if s.sh.mon.owner.Some? {
      AheadOfOne(s.procs, s.sh.mon.owner.value);
    } else {
      AheadOfNone(s.procs);
    }
  }

  /** The lock-free count is never negative, and a worker that takes itself off it finds it positive. */
  lemma TallyNeverUnderflows(b: Behavior, i: nat, p: Pid)
    requires b.Valid() && i < |b.states| && p in b.states[i].procs
    ensures b.states[i].sh.tally.live >= 0
    ensures b.states[i].procs[p] == Exit(UncountLive) ==> b.states[i].sh.tally.live >= 1
  {
    assert HoldsMonitor(Exit(UncountLive));
    hide Behavior.Valid, Inv, KnowledgeOk, Ahead, HoldsMonitor, Weighs;
    var s := b.states[i];
    AlwaysKnowledge(b, i);
    TallyMirrors(b, i);
    InvParts(s);
    assert Reading(LiveGauge, s.sh) >= 0;
    hide SleepersOk, HandsOk, HeldOk, QueueOk, FindsOk, JobsOk, OwnJobsOk, CountersOk, RolesOk;
    if s.sh.mon.owner.Some? {
      OwnerAhead(s, s.sh.mon.owner.value);
    }
  }

  lemma OwnerAhead(s: State, h: Pid)
    requires KnowledgeOk(s) && h in s.procs && s.sh.mon.pool.live >= 0
    ensures s.sh.mon.pool.live + Ahead(s.procs[h]) >= 0
    ensures s.procs[h] == Exit(UncountLive) ==> Ahead(s.procs[h]) == 1
  {
    assert LocalOk(s.sh, s.procs[h]);
  }
}
