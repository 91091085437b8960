/** Worker counts under spawning, failing spawns, retirement and runtime resizing. */
module DynamicSizing {
  import opened PoolTypes
  import opened PoolAccounting
  import opened PoolShared
  import opened DynamicPool
  import opened DynamicRun
  import opened DynamicFacts
  import opened DynamicInvariant
  import opened DynamicLifecycle

  /** The sizes stay consistent under any interleaving of resizing calls. */
  lemma SizesStayValid(b: Behavior, i: nat)
    requires b.Valid() && i < |b.states|
    ensures b.states[i].sh.mon.pool.core <= b.states[i].sh.mon.pool.max && b.states[i].sh.mon.pool.max >= 1
  {
    AlwaysKnowledge(b, i);
    hide Inv;
  }

  /** A worker is spawned only by a running pool below its maximum, and stays within it while being created. */
  lemma SpawnsBelowMax(b: Behavior, i: nat, p: Pid)
    requires b.Valid() && i < |b.states| && p in b.states[i].procs && b.states[i].procs[p].Grow?
    ensures var pool, grow := b.states[i].sh.mon.pool, b.states[i].procs[p].grow;
            && (grow.Reserve? ==> pool.life == Running && pool.live < pool.max)
            && (grow.Spawn? || grow.CountUp? || grow.Handoff? ==> pool.life == Running && 1 <= pool.live <= pool.max)
  {
    AlwaysKnowledge(b, i);
    hide Inv;
    assert LocalOk(b.states[i].sh, b.states[i].procs[p]);
  }

  /** A worker that leaves a running pool whose core workers do not time out leaves it at its core size or above. */
  lemma ExitsKeepCore(b: Behavior, i: nat, p: Pid, ok: bool, worker: Pid)
    requires b.Valid() && i + 1 < |b.states| && b.events[i] == Act(p, ok, worker)
    requires b.states[i].procs[p] == Exit(Unregister)
    requires b.states[i].sh.mon.pool.life == Running && !b.states[i].sh.mon.pool.coreTimeout
    ensures b.states[i + 1].sh.mon.pool.live == b.states[i].sh.mon.pool.live - 1
    ensures b.states[i + 1].sh.mon.pool.live >= b.states[i + 1].sh.mon.pool.core
  {
    AlwaysKnowledge(b, i);
    assert Next(b.states[i], b.events[i], b.states[i + 1]);
    hide Behavior.Valid, Inv;
    assert LocalOk(b.states[i].sh, b.states[i].procs[p]);
  }

  /** The live count goes down only where a worker unregisters or a spawn has failed. */
  lemma LiveFallsOnlyThere(b: Behavior, i: nat)
    requires b.Valid() && i + 1 < |b.states|
    requires b.states[i + 1].sh.mon.pool.live < b.states[i].sh.mon.pool.live
    ensures b.events[i].Act? && b.events[i].p in b.states[i].procs
    ensures var pc := b.states[i].procs[b.events[i].p];
            pc == Exit(Unregister) || (pc.Grow? && pc.grow.Spawn? && !b.events[i].ok)
  {
    var s, e, t := b.states[i], b.events[i], b.states[i + 1];
    AlwaysKnowledge(b, i);
    assert Next(s, e, t);
    hide Behavior.Valid, Inv, KnowledgeOk, StartPc, StepOf, CanStep, Asleep, Subject;
    if e.Act? {
      StepRespects(s, e.p, e.ok);
      if s.procs[e.p].Grow? {
        GrowLive(s.sh, e.p, JobAt(s, e.p), s.procs[e.p].grow, e.ok, PastOf(s));
      }
    }
  }

  lemma GrowLive(sh: Shared, p: Pid, job: Job, g: GrowPc, ok: bool, past: Past)
    ensures StepOf(sh, p, job, Grow(g), ok, past).sh.mon.pool.live < sh.mon.pool.live ==> g.Spawn? && !ok
  {
  }

  /** From the moment it reserves its place until the outcome is known, the spawning thread owns the sizes. */
  lemma {:induction false} SpawnOwnsSizes(b: Behavior, i: nat, k: nat, p: Pid, forJob: bool)
    requires b.Valid() && i < k < |b.states|
    requires p in b.states[i].procs && b.states[i].procs[p] == Grow(Reserve(forJob)) && b.events[i].Act?
             && b.events[i].p == p
    requires forall m :: i < m <= k ==> p in b.states[m].procs && b.states[m].procs[p] == Grow(Spawn(forJob))
    ensures b.states[k].sh.mon.pool == b.states[i].sh.mon.pool.(live := b.states[i].sh.mon.pool.live + 1)
  {
    hide Inv, KnowledgeOk;
    if k == i + 1 {
      assert Next(b.states[i], b.events[i], b.states[k]);
    } else {
      SpawnOwnsSizes(b, i, k - 1, p, forJob);
      AlwaysKnowledge(b, k - 1);
      assert Next(b.states[k - 1], b.events[k - 1], b.states[k]);
      hide Behavior.Valid;
      assert b.states[k - 1].procs[p] == b.states[k].procs[p] == Grow(Spawn(forJob));
      PoolKept(b.states[k - 1], b.events[k - 1], b.states[k], p, forJob);
    }
  }

  lemma PoolKept(s: State, e: Event, t: State, p: Pid, forJob: bool)
    requires Inv(s) && KnowledgeOk(s) && Next(s, e, t)
    requires p in s.procs && p in t.procs && s.procs[p] == t.procs[p] == Grow(Spawn(forJob))
    ensures t.sh.mon.pool == s.sh.mon.pool
  {
    if e.Act? && e.p != p {
      MonitorProtects(s, e.p, e.ok, p);
    }
    hide Inv, KnowledgeOk, StartPc, Asleep;
    if !e.Act? || e.p != p {
      hide StepOf;
    }
  }

  /** A failed spawn leaves the sizes as they were before it reserved its place, takes no slot, and rejects the
      job it was meant for. */
  lemma SpawnFailureRestores(b: Behavior, i: nat, k: nat, p: Pid, forJob: bool, worker: Pid)
    requires b.Valid() && i < k && k + 1 < |b.states|
    requires p in b.states[i].procs && b.states[i].procs[p] == Grow(Reserve(forJob)) && b.events[i].Act?
             && b.events[i].p == p
    requires forall m :: i < m <= k ==> p in b.states[m].procs && b.states[m].procs[p] == Grow(Spawn(forJob))
    requires b.events[k] == Act(p, false, worker)
    ensures b.states[k + 1].sh.mon.pool == b.states[i].sh.mon.pool
    ensures b.states[k + 1].sh.acct == b.states[k].sh.acct
    ensures forJob ==> p in b.states[k + 1].jobs && b.states[k + 1].jobs[p].stage.Rejected?
                       && b.states[k + 1].jobs[p].result.SpawnFailed?
  {
    SpawnOwnsSizes(b, i, k, p, forJob);
    assert Next(b.states[k], b.events[k], b.states[k + 1]);
  }
}
