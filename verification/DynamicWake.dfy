/** No worker wake-up is lost: wake tokens, idle marks and stale loads of the idle count. */
module DynamicWake {
  import opened PoolTypes
  import opened PoolAccounting
  import opened PoolShared
  import opened Counting
  import opened DynamicPool
  import opened DynamicRun
  import opened DynamicFacts
  import opened DynamicInvariant
  import opened DynamicLifecycle

  /** A submitter that has published its job and not yet decided whether to wake a worker. */
  predicate PreWake(pc: Pc) { pc.Sub? && (pc.sub.WakeLoad? || pc.sub.WakeToken?) }

  /** A submitter that has left a wake token and not yet notified. */
  predicate Bumper(pc: Pc) { (pc.NotifyLock? || pc.NotifyAll?) && pc.ret.RetWake? }

  predicate Sleeping(pc: Pc) { pc.Idle? && pc.idle.Parked? }

  /** An idle worker that has seen no wake token and is about to sleep or retire. */
  predicate SawNoToken(pc: Pc) {
    pc.Idle? && (pc.idle.Park? || pc.idle.RetireInflight? || pc.idle == Unmark(true))
  }

  /** An idle worker that has seen an empty queue, and only that so far. */
  predicate SawNoJob(pc: Pc) { pc.Idle? && (pc.idle.SeePending? || pc.idle.RetirePending?) }

  ghost predicate Resolved(s: State, w: Pid) {
    w in s.procs && (SawNoToken(s.procs[w]) || (Sleeping(s.procs[w]) && w in s.sh.mon.parked))
  }

  ghost predicate Resting(s: State, w: Pid) {
    Resolved(s, w) || (w in s.procs && SawNoJob(s.procs[w]))
  }

  ghost predicate SomeoneBumps(s: State) { exists x :: x in s.procs && Bumper(s.procs[x]) }

  /** Job `j` will not be overlooked by a resting worker. */
  ghost predicate Announced(s: State, j: Pid) {
    (j in s.procs && PreWake(s.procs[j])) || SomeoneBumps(s) || s.sh.wake.pending > 0
  }

  ghost predicate TokensOk(s: State) {
    forall w :: Resolved(s, w) && s.sh.wake.pending > 0 ==> SomeoneBumps(s)
  }

  ghost predicate AnnouncedOk(s: State) {
    forall w, j :: Resting(s, w) && j in s.sh.queue.items ==> Announced(s, j)
  }

  // ----- one step

  predicate WakeFollows(sh: Shared, pc: Pc, step: Step) {
    && (Bumper(pc) ==> Bumper(step.pc) || (HoldsMonitor(pc) && NotifiesAll(pc)))
    && (SawNoToken(step.pc) ==> SawNoToken(pc) || (SawNoJob(pc) && sh.wake.pending <= 0))
    && (Sleeping(step.pc) ==> SawNoToken(pc))
    && (SawNoJob(step.pc) ==> sh.acct.queued == 0)
    && (SawNoToken(step.pc) || Sleeping(step.pc) || SawNoJob(step.pc) ==>
          step.sh.wake == sh.wake && step.sh.queue == sh.queue)
    && (PreWake(pc) && sh.wake.idle > 0 ==> PreWake(step.pc) || Bumper(step.pc) || step.sh.wake.pending > 0)
    && (pc == Pub(Push) ==> PreWake(step.pc))
  }

  lemma WakeOfSub(sh: Shared, p: Pid, job: Job, g: SubPc)
    requires LocalOk(sh, Sub(g))
    ensures WakeFollows(sh, Sub(g), SubStep(sh, p, job, g))
  {
  }

  lemma WakeOfIdle(sh: Shared, p: Pid, job: Job, g: IdlePc)
    ensures WakeFollows(sh, Idle(g), WithJob(IdleStep(sh, p, g), job))
  {
  }

  lemma WakeOfStep(sh: Shared, p: Pid, job: Job, pc: Pc, ok: bool, past: Past)
    requires LocalOk(sh, pc) && PathsFollow(pc, StepOf(sh, p, job, pc, ok, past).pc)
    ensures WakeFollows(sh, pc, StepOf(sh, p, job, pc, ok, past))
  {
    hide SubStep, IdleStep, WakeFollows, LocalOk, PathsFollow;
    match pc {
      case Sub(g) => WakeOfSub(sh, p, job, g);
      case Idle(g) => WakeOfIdle(sh, p, job, g);
      case NotifyLock(ret) => WakeOfNotify(sh, p, job, false, ret);
      case NotifyAll(ret) => WakeOfNotify(sh, p, job, true, ret);
      case Pub(g) => WakeOfPub(sh, p, job, g);
      case _ => WakeElsewhere(sh, pc, StepOf(sh, p, job, pc, ok, past));
    }
  }

  lemma WakeOfNotify(sh: Shared, p: Pid, job: Job, all: bool, ret: Ret)
    ensures WakeFollows(sh, if all then NotifyAll(ret) else NotifyLock(ret), WithJob(NotifyStep(sh, p, all, ret), job))
  {
  }

  lemma WakeOfPub(sh: Shared, p: Pid, job: Job, g: PubPc)
    ensures WakeFollows(sh, Pub(g), PubStep(sh, p, job, g))
  {
  }

  lemma WakeElsewhere(sh: Shared, pc: Pc, step: Step)
    requires PathsFollow(pc, step.pc)
    requires !pc.Sub? && !pc.Idle? && !pc.NotifyLock? && !pc.NotifyAll? && !pc.Pub?
    ensures WakeFollows(sh, pc, step)
  {
  }

  lemma RestingMarked(s: State, w: Pid)
    requires Inv(s) && Resting(s, w)
    ensures s.sh.wake.idle > 0 && !PreWake(s.procs[w]) && !Bumper(s.procs[w])
    ensures !Sleeping(s.procs[w]) ==> HoldsMonitor(s.procs[w])
  {
    var f := (pc: Pc) => Weighs(IdleGauge, pc);
    assert Reading(IdleGauge, s.sh) == HowMany(s.procs, f);
    HowManyPositive(s.procs, f, w);
  }

  lemma NothingQueued(s: State)
    requires Inv(s) && s.sh.acct.queued == 0
    ensures s.sh.queue.items == []
  {
    if s.sh.queue.items != [] {
      var j := s.sh.queue.items[0];
      assert j in s.sh.queue.items;
      var f := (job: Job) => Adds(Queued, job.stage);
      assert s.sh.acct.Get(Queued) == HowMany(s.jobs, f);
      HowManyPositive(s.jobs, f, j);
    }
  }

  /** A bumper stays one until it has notified everybody. */
  lemma BumperStays(s: State, p: Pid, step: Step, spawns: bool, worker: Pid, t: State, w: Pid)
    requires p in s.procs && Moves(s, p, step, spawns, worker, t) && LocksOk(s)
    requires WakeFollows(s.sh, s.procs[p], step) && FramesFollow(s.sh, p, s.procs[p], step)
    requires SomeoneBumps(s) && w != p && w in s.procs && (HoldsMonitor(s.procs[w]) || w in t.sh.mon.parked)
    ensures SomeoneBumps(t)
  {
    if HoldsMonitor(s.procs[w]) {
      assert s.sh.mon.owner == Some(w);
      assert s.sh.mon.owner == Some(p) <==> HoldsMonitor(s.procs[p]);
    }
    hide Bumper, PreWake, Sleeping, SawNoToken, SawNoJob, HoldsMonitor, NotifiesAll, JobAt;
    var x :| x in s.procs && Bumper(s.procs[x]);
    assert x in t.procs && t.procs[x] == if x == p then step.pc else s.procs[x];
  }

  ghost predicate WakeReady(s: State, p: Pid, step: Step, spawns: bool, worker: Pid, t: State) {
    && p in s.procs && Moves(s, p, step, spawns, worker, t)
    && Inv(s) && TokensOk(s) && AnnouncedOk(s)
    && WakeFollows(s.sh, s.procs[p], step) && FramesFollow(s.sh, p, s.procs[p], step)
    && QueueFollows(s.sh, p, JobAt(s, p), s.procs[p], step)
    && step.sh.mon.parked <= s.sh.mon.parked + {p}
    && p !in s.sh.mon.parked
  }

  lemma MoverTokens(s: State, p: Pid, step: Step, spawns: bool, worker: Pid, t: State)
    requires WakeReady(s, p, step, spawns, worker, t)
    requires Resolved(t, p) && t.sh.wake.pending > 0
    ensures SomeoneBumps(t)
  {
    hide Inv, FramesFollow, QueueFollows, JobAt;
    assert SawNoToken(s.procs[p]) && Resolved(s, p);
    var x :| x in s.procs && Bumper(s.procs[x]);
    assert x != p && t.procs[x] == s.procs[x];
  }

  lemma OtherTokens(s: State, p: Pid, step: Step, spawns: bool, worker: Pid, t: State, w: Pid)
    requires WakeReady(s, p, step, spawns, worker, t)
    requires w != p && Resolved(t, w) && t.sh.wake.pending > 0
    ensures SomeoneBumps(t)
  {
    hide Inv, QueueFollows, JobAt, AnnouncedOk;
    assert Resolved(s, w);
    RestingMarked(s, w);
    if s.sh.wake.pending > 0 {
      InvParts(s);
      BumperStays(s, p, step, spawns, worker, t, w);
    } else {
      assert t.procs[p] == step.pc && Bumper(t.procs[p]);
    }
  }

  lemma MoverAnnounced(s: State, p: Pid, step: Step, spawns: bool, worker: Pid, t: State, j: Pid)
    requires WakeReady(s, p, step, spawns, worker, t)
    requires Resting(t, p) && j in t.sh.queue.items
    ensures Announced(t, j)
  {
    hide Inv, FramesFollow, QueueFollows, JobAt, TokensOk;
    if s.sh.acct.queued == 0 {
      NothingQueued(s);
    }
    assert Resting(s, p) && Announced(s, j);
    assert !PreWake(s.procs[p]) && !Bumper(s.procs[p]);
    hide PreWake, Bumper, WakeFollows, AnnouncedOk;
    if SomeoneBumps(s) {
      var x :| x in s.procs && Bumper(s.procs[x]);
      assert x != p && t.procs[x] == s.procs[x];
    } else if j in s.procs && PreWake(s.procs[j]) {
      assert t.procs[j] == s.procs[j];
    }
  }

  lemma PreWakeStays(s: State, p: Pid, step: Step, spawns: bool, worker: Pid, t: State, j: Pid)
    requires WakeReady(s, p, step, spawns, worker, t) && s.sh.wake.idle > 0
    requires j in s.procs && PreWake(s.procs[j])
    ensures Announced(t, j)
  {
    hide Inv, FramesFollow, QueueFollows, JobAt, TokensOk, AnnouncedOk;
    assert t.procs[j] == if j == p then step.pc else s.procs[j];
    hide PreWake, Bumper;
    assert j == p && Bumper(step.pc) ==> SomeoneBumps(t);
  }

  lemma RestsOn(s: State, p: Pid, step: Step, spawns: bool, worker: Pid, t: State, w: Pid)
    requires p in s.procs && Moves(s, p, step, spawns, worker, t)
    requires step.sh.mon.parked <= s.sh.mon.parked + {p} && w != p && Resting(t, w)
    ensures Resting(s, w) && w in s.procs && (HoldsMonitor(s.procs[w]) || w in t.sh.mon.parked)
  {
    hide JobAt;
  }

  lemma OtherAnnounced(s: State, p: Pid, step: Step, spawns: bool, worker: Pid, t: State, w: Pid, j: Pid)
    requires WakeReady(s, p, step, spawns, worker, t)
    requires w != p && Resting(t, w) && j in t.sh.queue.items
    ensures Announced(t, j)
  {
    hide Inv, FramesFollow, QueueFollows, JobAt, PreWake, Bumper, LocksOk, TokensOk, Resting, Resolved, SawNoJob,
      SawNoToken, HoldsMonitor, NotifiesAll;
    RestsOn(s, p, step, spawns, worker, t, w);
    RestingMarked(s, w);
    ItemsBefore(s, p, step, spawns, worker, t, j);
    InvParts(s);
    if j == p && s.procs[p] == Pub(Push) {
      assert PreWake(t.procs[p]);
    } else {
      assert Announced(s, j);
      hide WakeFollows, AnnouncedOk;
      if SomeoneBumps(s) {
        BumperStays(s, p, step, spawns, worker, t, w);
      } else if s.sh.wake.pending > 0 {
        TokenStays(s, p, step, spawns, worker, t, w);
      } else {
        PreWakeStays(s, p, step, spawns, worker, t, j);
      }
    }
  }

  lemma ItemsBefore(s: State, p: Pid, step: Step, spawns: bool, worker: Pid, t: State, j: Pid)
    requires WakeReady(s, p, step, spawns, worker, t) && j in t.sh.queue.items
    ensures j in s.sh.queue.items || (j == p && s.procs[p] == Pub(Push))
  {
    if s.procs[p].Find? && s.procs[p].find.TicketTake? {
      assert Finding(s.procs[p]);
      RemoveFirstOk(s.sh.queue.items, s.procs[p].target);
    }
  }

  /** The token is consumed only under the monitor, where a resting worker that does not sleep still is. */
  lemma TokenStays(s: State, p: Pid, step: Step, spawns: bool, worker: Pid, t: State, w: Pid)
    requires WakeReady(s, p, step, spawns, worker, t)
    requires w != p && Resting(s, w) && s.sh.wake.pending > 0 && !SomeoneBumps(s)
    ensures t.sh.wake.pending > 0
  {
    RestingMarked(s, w);
    assert !Resolved(s, w);
    assert s.sh.mon.owner == Some(w);
    assert s.sh.mon.owner == Some(p) <==> HoldsMonitor(s.procs[p]);
  }

  lemma ActWake(s: State, p: Pid, ok: bool, worker: Pid, t: State)
    requires Inv(s) && KnowledgeOk(s) && TokensOk(s) && AnnouncedOk(s) && Acts(s, p, ok, worker, t)
    ensures TokensOk(t) && AnnouncedOk(t)
  {
    var pc, step, spawns := s.procs[p], StepAt(s, p, ok), Spawns(s.procs[p], ok);
    assert WakeReady(s, p, step, spawns, worker, t) by {
      StepRespects(s, p, ok);
      WakeOfStep(s.sh, p, JobAt(s, p), pc, ok, PastOf(s));
      MoverReady(s, p);
      MoverAwake(s, p);
    }
    hide Inv, KnowledgeOk, Acts, WakeReady, Resolved, Resting, Announced;
    forall w | Resolved(t, w) && t.sh.wake.pending > 0
      ensures SomeoneBumps(t)
    {
      if w == p {
        MoverTokens(s, p, step, spawns, worker, t);
      } else {
        OtherTokens(s, p, step, spawns, worker, t, w);
      }
    }
    forall w, j | Resting(t, w) && j in t.sh.queue.items
      ensures Announced(t, j)
    {
      if w == p {
        MoverAnnounced(s, p, step, spawns, worker, t, j);
      } else {
        OtherAnnounced(s, p, step, spawns, worker, t, w, j);
      }
    }
  }

  lemma QuietWake(s: State, e: Event, t: State)
    requires TokensOk(s) && AnnouncedOk(s) && Next(s, e, t) && !e.Act?
    ensures TokensOk(t) && AnnouncedOk(t)
  {
    assert forall r: Request :: !SawNoToken(StartPc(r)) && !SawNoJob(StartPc(r)) && !Sleeping(StartPc(r));
    hide StartPc, SawNoToken, SawNoJob, PreWake, Bumper;
    assert t.sh.wake == s.sh.wake && t.sh.queue == s.sh.queue;
    assert forall x :: x in s.procs && (PreWake(s.procs[x]) || Bumper(s.procs[x])) ==>
           x in t.procs && t.procs[x] == s.procs[x];
    assert forall w :: Resolved(t, w) ==> Resolved(s, w);
    assert forall w :: Resting(t, w) ==> Resting(s, w);
    assert SomeoneBumps(s) ==> SomeoneBumps(t);
    assert forall j :: Announced(s, j) ==> Announced(t, j);
  }

  lemma {:induction false} AlwaysWake(b: Behavior, i: nat)
    requires b.Valid() && i < |b.states|
    ensures TokensOk(b.states[i]) && AnnouncedOk(b.states[i])
  {
    hide Inv, KnowledgeOk, TokensOk, AnnouncedOk, Acts, Arrives, TimesOut, WakesSpuriously, Behavior.Valid;
    if i == 0 {
      NobodyResting(b);
    } else {
      Consecutive(b, i);
      AlwaysWake(b, i - 1);
      match b.events[i - 1] {
        case Act(p, ok, worker) => ActWake(b.states[i - 1], p, ok, worker, b.states[i]);
        case _ => QuietWake(b.states[i - 1], b.events[i - 1], b.states[i]);
      }
    }
  }

  lemma NobodyResting(b: Behavior)
    requires b.Valid()
    ensures TokensOk(b.states[0]) && AnnouncedOk(b.states[0]) && b.states[0].sh.wake.pending == 0
  {
    hide Next;
  }

  /** While a worker sleeps in the Running branch and a job is queued, some submitter has left a token and is
      about to notify, or there is no token and the submitter of that job has yet to decide, and will see
      an idle worker. */
  lemma NoLostWorkerWakeup(b: Behavior, i: nat, w: Pid, j: Pid)
    requires b.Valid() && i < |b.states|
    requires w in b.states[i].procs && Sleeping(b.states[i].procs[w]) && w in b.states[i].sh.mon.parked
    requires j in b.states[i].sh.queue.items
    ensures SomeoneBumps(b.states[i])
            || (b.states[i].sh.wake.pending == 0 && b.states[i].sh.wake.idle > 0
                && j in b.states[i].procs && PreWake(b.states[i].procs[j]))
  {
    var s := b.states[i];
    AlwaysWake(b, i);
    AlwaysKnowledge(b, i);
    assert Resolved(s, w) && Resting(s, w) && Announced(s, j);
    RestingMarked(s, w);
    PendingNonNegative(b, i);
  }

  lemma PendingKept(s: State, e: Event, t: State)
    requires Inv(s) && KnowledgeOk(s) && Next(s, e, t) && s.sh.wake.pending >= 0
    ensures t.sh.wake.pending >= 0
  {
    hide Inv, KnowledgeOk, StepOf;
    if e.Act? {
      StepRespects(s, e.p, e.ok);
    }
  }

  lemma {:induction false} PendingNonNegative(b: Behavior, i: nat)
    requires b.Valid() && i < |b.states|
    ensures b.states[i].sh.wake.pending >= 0
  {
    hide Inv, KnowledgeOk, Next, TokensOk, AnnouncedOk, Behavior.Valid;
    if i == 0 {
      NobodyResting(b);
    } else {
      Consecutive(b, i);
      PendingNonNegative(b, i - 1);
      PendingKept(b.states[i - 1], b.events[i - 1], b.states[i]);
    }
  }
}
