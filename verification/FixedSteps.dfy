/** Each atomic step of the fixed pool, group by group of positions. */
module FixedSteps {
  import opened PoolTypes
  import opened PoolAccounting
  import opened PoolShared
  import opened FixedPool
  import opened FixedFacts

  /** The part of a worker's wait before it is marked idle and has nothing left to check. */
  predicate LooksForWork(g: IdlePc) {
    || g.IdleLock? || g.Branch? || g.SpinQueued? || g.SpinPending? || g.SpinOpen?
    || g.IdleLock2? || g.Mode? || g.MarkIdle? || g.SeeQueued? || g.SeePending?
  }

  // ----- Owners, wake tokens, the wait set and one-way switches.

  predicate FramesGiven(sh: Shared, p: Pid, job: Job, pc: Pc) {
    && RetOk(pc)
    && (HoldsMonitor(pc) ==> sh.mon.owner == Some(p))
  }

  lemma FramesOfSub(sh: Shared, p: Pid, job: Job, g: SubPc, ok: bool)
    requires FramesGiven(sh, p, job, Sub(g))
    ensures FramesFollow(sh, p, Sub(g), SubStep(sh, p, job, g, ok))
  {}

  lemma FramesOfWorking(sh: Shared, p: Pid, job: Job, pc: Pc, ok: bool, past: Past)
    requires FramesGiven(sh, p, job, pc) && (pc.Work? || pc.Fin?)
    ensures FramesFollow(sh, p, pc, StepOf(sh, p, job, pc, ok, past))
  {
    hide SubStep, IdleStep, CheckStep, NotifyStep, StopStep, WaitStep;
  }

  lemma FramesOfEarlyIdle(sh: Shared, p: Pid, job: Job, g: IdlePc, ok: bool, past: Past)
    requires FramesGiven(sh, p, job, Idle(g)) && LooksForWork(g)
    ensures FramesFollow(sh, p, Idle(g), WithJob(IdleStep(sh, p, g, ok, past), job))
  {}

  lemma FramesOfLateIdle(sh: Shared, p: Pid, job: Job, g: IdlePc, ok: bool, past: Past)
    requires FramesGiven(sh, p, job, Idle(g)) && !LooksForWork(g)
    ensures FramesFollow(sh, p, Idle(g), WithJob(IdleStep(sh, p, g, ok, past), job))
  {}

  lemma FramesOfIdle(sh: Shared, p: Pid, job: Job, g: IdlePc, ok: bool, past: Past)
    requires FramesGiven(sh, p, job, Idle(g))
    ensures FramesFollow(sh, p, Idle(g), WithJob(IdleStep(sh, p, g, ok, past), job))
  {
    hide FramesGiven, FramesFollow, IdleStep, Subject;
    if LooksForWork(g) {
      FramesOfEarlyIdle(sh, p, job, g, ok, past);
    } else {
      FramesOfLateIdle(sh, p, job, g, ok, past);
    }
  }

  lemma FramesOfCheck(sh: Shared, p: Pid, job: Job, g: Loads, ret: Ret, past: Past)
    requires FramesGiven(sh, p, job, Check(g, ret))
    ensures FramesFollow(sh, p, Check(g, ret), WithJob(CheckStep(sh, g, ret, past), job))
  {}

  lemma FramesOfNotify(sh: Shared, p: Pid, job: Job, g: bool, ret: Ret)
    requires FramesGiven(sh, p, job, NotifyAt(g, ret))
    ensures FramesFollow(sh, p, NotifyAt(g, ret), WithJob(NotifyStep(sh, p, g, ret), job))
  {}

  lemma FramesOfWait(sh: Shared, p: Pid, job: Job, g: WaitPc)
    requires FramesGiven(sh, p, job, Wait(g))
    ensures FramesFollow(sh, p, Wait(g), WithJob(WaitStep(sh, p, g), job))
  {}

  lemma FramesOfStop(sh: Shared, p: Pid, job: Job, g: StopPc)
    requires FramesGiven(sh, p, job, Stop(g))
    ensures FramesFollow(sh, p, Stop(g), StopStep(sh, p, job, g))
  {}

  lemma FramesOfStep(sh: Shared, p: Pid, job: Job, pc: Pc, ok: bool, past: Past)
    requires !pc.Done? && FramesGiven(sh, p, job, pc)
    ensures FramesFollow(sh, p, pc, StepOf(sh, p, job, pc, ok, past))
  {
    hide FramesGiven, FramesFollow, SubStep, WorkStep, IdleStep, FinStep, CheckStep, NotifyStep, StopStep, WaitStep;
    match pc {
      case Sub(g) => FramesOfSub(sh, p, job, g, ok);
      case Work(_) | Fin(_, _, _) => FramesOfWorking(sh, p, job, pc, ok, past);
      case Idle(g) => FramesOfIdle(sh, p, job, g, ok, past);
      case Check(g, ret) => FramesOfCheck(sh, p, job, g, ret, past);
      case NotifyLock(ret) => FramesOfNotify(sh, p, job, false, ret);
      case NotifyAll(ret) => FramesOfNotify(sh, p, job, true, ret);
      case Wait(g) => FramesOfWait(sh, p, job, g);
      case Stop(g) => FramesOfStop(sh, p, job, g);
      case _ =>
    }
  }

  // ----- Every thread counter moves with the position of one thread, and threads move along the code.

  predicate GaugesHold(sh: Shared, p: Pid, job: Job, pc: Pc, step: Step) {
    && GaugesFollow(sh, pc, step)
    && PathsFollow(sh, pc, step.pc)
  }

  lemma GaugesOfSub(sh: Shared, p: Pid, job: Job, g: SubPc, ok: bool)
    requires RetOk(Sub(g))
    ensures GaugesHold(sh, p, job, Sub(g), SubStep(sh, p, job, g, ok))
  {}

  lemma GaugesOfWorking(sh: Shared, p: Pid, job: Job, pc: Pc, ok: bool, past: Past)
    requires RetOk(pc) && (pc.Work? || pc.Fin?)
    ensures GaugesHold(sh, p, job, pc, StepOf(sh, p, job, pc, ok, past))
  {
    hide SubStep, IdleStep, CheckStep, NotifyStep, StopStep, WaitStep;
  }

  lemma GaugesOfEarlyIdle(sh: Shared, p: Pid, job: Job, g: IdlePc, ok: bool, past: Past)
    requires RetOk(Idle(g)) && LooksForWork(g)
    ensures GaugesHold(sh, p, job, Idle(g), WithJob(IdleStep(sh, p, g, ok, past), job))
  {}

  lemma GaugesOfLateIdle(sh: Shared, p: Pid, job: Job, g: IdlePc, ok: bool, past: Past)
    requires RetOk(Idle(g)) && !LooksForWork(g)
    ensures GaugesHold(sh, p, job, Idle(g), WithJob(IdleStep(sh, p, g, ok, past), job))
  {}

  lemma GaugesOfIdle(sh: Shared, p: Pid, job: Job, g: IdlePc, ok: bool, past: Past)
    requires RetOk(Idle(g))
    ensures GaugesHold(sh, p, job, Idle(g), WithJob(IdleStep(sh, p, g, ok, past), job))
  {
    hide RetOk, GaugesHold, IdleStep, Subject;
    if LooksForWork(g) {
      GaugesOfEarlyIdle(sh, p, job, g, ok, past);
    } else {
      GaugesOfLateIdle(sh, p, job, g, ok, past);
    }
  }

  lemma GaugesOfCheck(sh: Shared, p: Pid, job: Job, g: Loads, ret: Ret, past: Past)
    requires RetOk(Check(g, ret))
    ensures GaugesHold(sh, p, job, Check(g, ret), WithJob(CheckStep(sh, g, ret, past), job))
  {}

  lemma GaugesOfNotify(sh: Shared, p: Pid, job: Job, g: bool, ret: Ret)
    requires RetOk(NotifyAt(g, ret))
    ensures GaugesHold(sh, p, job, NotifyAt(g, ret), WithJob(NotifyStep(sh, p, g, ret), job))
  {}

  lemma GaugesOfWait(sh: Shared, p: Pid, job: Job, g: WaitPc)
    requires RetOk(Wait(g))
    ensures GaugesHold(sh, p, job, Wait(g), WithJob(WaitStep(sh, p, g), job))
  {}

  lemma GaugesOfStop(sh: Shared, p: Pid, job: Job, g: StopPc)
    requires RetOk(Stop(g))
    ensures GaugesHold(sh, p, job, Stop(g), StopStep(sh, p, job, g))
  {}

  lemma GaugesOfStep(sh: Shared, p: Pid, job: Job, pc: Pc, ok: bool, past: Past)
    requires !pc.Done? && RetOk(pc)
    ensures GaugesHold(sh, p, job, pc, StepOf(sh, p, job, pc, ok, past))
  {
    hide RetOk, GaugesHold, SubStep, WorkStep, IdleStep, FinStep, CheckStep, NotifyStep, StopStep, WaitStep;
    match pc {
      case Sub(g) => GaugesOfSub(sh, p, job, g, ok);
      case Work(_) | Fin(_, _, _) => GaugesOfWorking(sh, p, job, pc, ok, past);
      case Idle(g) => GaugesOfIdle(sh, p, job, g, ok, past);
      case Check(g, ret) => GaugesOfCheck(sh, p, job, g, ret, past);
      case NotifyLock(ret) => GaugesOfNotify(sh, p, job, false, ret);
      case NotifyAll(ret) => GaugesOfNotify(sh, p, job, true, ret);
      case Wait(g) => GaugesOfWait(sh, p, job, g);
      case Stop(g) => GaugesOfStop(sh, p, job, g);
      case _ =>
    }
  }

  // ----- The job worked on moves along its stages.

  lemma JobOfSub(sh: Shared, p: Pid, job: Job, g: SubPc, ok: bool)
    requires StageReady(sh, p, job, Sub(g))
    ensures JobFollows(sh, job, Sub(g), SubStep(sh, p, job, g, ok))
  {
    hide Distinct, Stock;
  }

  lemma JobOfEarlyWork(sh: Shared, p: Pid, job: Job, g: WorkPc)
    requires StageReady(sh, p, job, Work(g))
             && (g.Start? || g.StopTest? || g.Steal? || g.StopRetest? || g.ClaimQueued? || g.ClaimRun? || g.ClaimSlot?)
    ensures JobFollows(sh, job, Work(g), WorkStep(sh, p, job, g))
  {
    hide Distinct, Stock;
  }

  lemma JobOfLateWork(sh: Shared, p: Pid, job: Job, g: WorkPc)
    requires StageReady(sh, p, job, Work(g))
             && !(g.Start? || g.StopTest? || g.Steal? || g.StopRetest? || g.ClaimQueued? || g.ClaimRun? || g.ClaimSlot?)
    ensures JobFollows(sh, job, Work(g), WorkStep(sh, p, job, g))
  {
    hide Distinct, Stock;
  }

  lemma JobOfWork(sh: Shared, p: Pid, job: Job, g: WorkPc)
    requires StageReady(sh, p, job, Work(g))
    ensures JobFollows(sh, job, Work(g), WorkStep(sh, p, job, g))
  {
    hide StageReady, JobFollows, WorkStep, Subject;
    if g.Start? || g.StopTest? || g.Steal? || g.StopRetest? || g.ClaimQueued? || g.ClaimRun? || g.ClaimSlot? {
      JobOfEarlyWork(sh, p, job, g);
    } else {
      JobOfLateWork(sh, p, job, g);
    }
  }

  lemma JobOfFin(sh: Shared, p: Pid, job: Job, g: FinPc, j: Pid, ret: Ret)
    requires StageReady(sh, p, job, Fin(g, j, ret))
    ensures JobFollows(sh, job, Fin(g, j, ret), FinStep(sh, job, g, j, ret))
  {
    hide Distinct, Stock;
  }

  lemma JobOfIdle(sh: Shared, p: Pid, job: Job, g: IdlePc, ok: bool, past: Past)
    requires StageReady(sh, p, job, Idle(g))
    ensures JobFollows(sh, job, Idle(g), WithJob(IdleStep(sh, p, g, ok, past), job))
  {
    hide Distinct, Stock;
  }

  lemma JobOfCalling(sh: Shared, p: Pid, job: Job, pc: Pc, ok: bool, past: Past)
    requires StageReady(sh, p, job, pc) && (pc.Check? || pc.NotifyLock? || pc.NotifyAll? || pc.Wait?)
    ensures JobFollows(sh, job, pc, StepOf(sh, p, job, pc, ok, past))
  {
    hide SubStep, WorkStep, IdleStep, FinStep, StopStep, Distinct, Stock;
  }

  lemma JobOfStop(sh: Shared, p: Pid, job: Job, g: StopPc)
    requires StageReady(sh, p, job, Stop(g))
    ensures JobFollows(sh, job, Stop(g), StopStep(sh, p, job, g))
  {
    hide Distinct, Stock;
  }

  lemma JobOfStep(sh: Shared, p: Pid, job: Job, pc: Pc, ok: bool, past: Past)
    requires !pc.Done? && StageReady(sh, p, job, pc)
    ensures JobFollows(sh, job, pc, StepOf(sh, p, job, pc, ok, past))
  {
    hide StageReady, JobFollows, SubStep, WorkStep, IdleStep, FinStep, CheckStep, NotifyStep, StopStep, WaitStep;
    match pc {
      case Sub(g) => JobOfSub(sh, p, job, g, ok);
      case Work(g) => JobOfWork(sh, p, job, g);
      case Fin(g, j, ret) => JobOfFin(sh, p, job, g, j, ret);
      case Idle(g) => JobOfIdle(sh, p, job, g, ok, past);
      case Check(_, _) | NotifyLock(_) | NotifyAll(_) | Wait(_) => JobOfCalling(sh, p, job, pc, ok, past);
      case Stop(g) => JobOfStop(sh, p, job, g);
      case _ =>
    }
  }

  // ----- Every task counter moves with the stage of one job.

  lemma CountersOfSub(sh: Shared, p: Pid, job: Job, g: SubPc, ok: bool)
    requires StageReady(sh, p, job, Sub(g))
    ensures CountersFollow(sh, job, SubStep(sh, p, job, g, ok))
  {
    hide JobOk, Distinct;
  }

  lemma CountersOfEarlyWork(sh: Shared, p: Pid, job: Job, g: WorkPc)
    requires StageReady(sh, p, job, Work(g))
             && (g.Start? || g.StopTest? || g.Steal? || g.StopRetest? || g.ClaimQueued? || g.ClaimRun? || g.ClaimSlot?)
    ensures CountersFollow(sh, job, WorkStep(sh, p, job, g))
  {
    hide JobOk, Distinct;
  }

  lemma CountersOfLateWork(sh: Shared, p: Pid, job: Job, g: WorkPc)
    requires StageReady(sh, p, job, Work(g))
             && !(g.Start? || g.StopTest? || g.Steal? || g.StopRetest? || g.ClaimQueued? || g.ClaimRun? || g.ClaimSlot?)
    ensures CountersFollow(sh, job, WorkStep(sh, p, job, g))
  {
    hide JobOk, Distinct;
  }

  lemma CountersOfWork(sh: Shared, p: Pid, job: Job, g: WorkPc)
    requires StageReady(sh, p, job, Work(g))
    ensures CountersFollow(sh, job, WorkStep(sh, p, job, g))
  {
    hide StageReady, CountersFollow, WorkStep, Subject;
    if g.Start? || g.StopTest? || g.Steal? || g.StopRetest? || g.ClaimQueued? || g.ClaimRun? || g.ClaimSlot? {
      CountersOfEarlyWork(sh, p, job, g);
    } else {
      CountersOfLateWork(sh, p, job, g);
    }
  }

  lemma CountersOfFin(sh: Shared, p: Pid, job: Job, g: FinPc, j: Pid, ret: Ret)
    requires StageReady(sh, p, job, Fin(g, j, ret))
    ensures CountersFollow(sh, job, FinStep(sh, job, g, j, ret))
  {
    hide JobOk, Distinct;
  }

  lemma CountersOfIdle(sh: Shared, p: Pid, job: Job, g: IdlePc, ok: bool, past: Past)
    requires StageReady(sh, p, job, Idle(g))
    ensures CountersFollow(sh, job, WithJob(IdleStep(sh, p, g, ok, past), job))
  {
    hide JobOk, Distinct;
  }

  lemma CountersOfCalling(sh: Shared, p: Pid, job: Job, pc: Pc, ok: bool, past: Past)
    requires StageReady(sh, p, job, pc) && (pc.Check? || pc.NotifyLock? || pc.NotifyAll? || pc.Wait?)
    ensures CountersFollow(sh, job, StepOf(sh, p, job, pc, ok, past))
  {
    hide SubStep, WorkStep, IdleStep, FinStep, StopStep, Distinct, JobOk;
  }

  lemma CountersOfStop(sh: Shared, p: Pid, job: Job, g: StopPc)
    requires StageReady(sh, p, job, Stop(g))
    ensures CountersFollow(sh, job, StopStep(sh, p, job, g))
  {
    hide JobOk, Distinct;
  }

  lemma CountersOfStep(sh: Shared, p: Pid, job: Job, pc: Pc, ok: bool, past: Past)
    requires !pc.Done? && StageReady(sh, p, job, pc)
    ensures CountersFollow(sh, job, StepOf(sh, p, job, pc, ok, past))
  {
    hide StageReady, CountersFollow, SubStep, WorkStep, IdleStep, FinStep, CheckStep, NotifyStep, StopStep, WaitStep;
    match pc {
      case Sub(g) => CountersOfSub(sh, p, job, g, ok);
      case Work(g) => CountersOfWork(sh, p, job, g);
      case Fin(g, j, ret) => CountersOfFin(sh, p, job, g, j, ret);
      case Idle(g) => CountersOfIdle(sh, p, job, g, ok, past);
      case Check(_, _) | NotifyLock(_) | NotifyAll(_) | Wait(_) => CountersOfCalling(sh, p, job, pc, ok, past);
      case Stop(g) => CountersOfStop(sh, p, job, g);
      case _ =>
    }
  }

  // ----- The queue changes only by push and steal.

  lemma QueueOfSub(sh: Shared, p: Pid, job: Job, g: SubPc, ok: bool)
    requires StageReady(sh, p, job, Sub(g))
    ensures QueueFollows(sh, p, job, Sub(g), SubStep(sh, p, job, g, ok))
  {}

  lemma QueueOfWorking(sh: Shared, p: Pid, job: Job, pc: Pc, ok: bool, past: Past)
    requires StageReady(sh, p, job, pc) && (pc.Work? || pc.Fin?)
    ensures QueueFollows(sh, p, job, pc, StepOf(sh, p, job, pc, ok, past))
  {
    hide SubStep, IdleStep, CheckStep, NotifyStep, StopStep, WaitStep;
  }

  lemma QueueOfIdle(sh: Shared, p: Pid, job: Job, g: IdlePc, ok: bool, past: Past)
    requires StageReady(sh, p, job, Idle(g))
    ensures QueueFollows(sh, p, job, Idle(g), WithJob(IdleStep(sh, p, g, ok, past), job))
  {}

  lemma QueueOfCalling(sh: Shared, p: Pid, job: Job, pc: Pc, ok: bool, past: Past)
    requires StageReady(sh, p, job, pc) && (pc.Check? || pc.NotifyLock? || pc.NotifyAll? || pc.Wait?)
    ensures QueueFollows(sh, p, job, pc, StepOf(sh, p, job, pc, ok, past))
  {
    hide SubStep, WorkStep, IdleStep, FinStep, StopStep;
  }

  lemma QueueOfStop(sh: Shared, p: Pid, job: Job, g: StopPc)
    requires StageReady(sh, p, job, Stop(g))
    ensures QueueFollows(sh, p, job, Stop(g), StopStep(sh, p, job, g))
  {}

  lemma QueueOfStep(sh: Shared, p: Pid, job: Job, pc: Pc, ok: bool, past: Past)
    requires !pc.Done? && StageReady(sh, p, job, pc)
    ensures QueueFollows(sh, p, job, pc, StepOf(sh, p, job, pc, ok, past))
  {
    hide StageReady, QueueFollows, SubStep, WorkStep, IdleStep, FinStep, CheckStep, NotifyStep, StopStep, WaitStep;
    match pc {
      case Sub(g) => QueueOfSub(sh, p, job, g, ok);
      case Work(_) | Fin(_, _, _) => QueueOfWorking(sh, p, job, pc, ok, past);
      case Idle(g) => QueueOfIdle(sh, p, job, g, ok, past);
      case Check(_, _) | NotifyLock(_) | NotifyAll(_) | Wait(_) => QueueOfCalling(sh, p, job, pc, ok, past);
      case Stop(g) => QueueOfStop(sh, p, job, g);
      case _ =>
    }
  }

  // ----- Custody passes between queue and hands.

  lemma CustodyOfSub(sh: Shared, p: Pid, job: Job, g: SubPc, ok: bool)
    requires StageReady(sh, p, job, Sub(g))
    ensures CustodyFollows(p, Subject(sh, p, Sub(g)), job, Sub(g), SubStep(sh, p, job, g, ok))
  {
    hide AcceptCalls, RunCalls, CancelCalls;
  }

  lemma CustodyOfWork(sh: Shared, p: Pid, job: Job, g: WorkPc)
    requires StageReady(sh, p, job, Work(g))
    ensures CustodyFollows(p, Subject(sh, p, Work(g)), job, Work(g), WorkStep(sh, p, job, g))
  {
    hide AcceptCalls, RunCalls, CancelCalls;
  }

  lemma CustodyOfFin(sh: Shared, p: Pid, job: Job, g: FinPc, j: Pid, ret: Ret)
    requires StageReady(sh, p, job, Fin(g, j, ret))
    ensures CustodyFollows(p, Subject(sh, p, Fin(g, j, ret)), job, Fin(g, j, ret), FinStep(sh, job, g, j, ret))
  {
    hide AcceptCalls, RunCalls, CancelCalls;
    if ret.RetStop? {
      DistinctCons(j, ret.rest);
    }
  }

  lemma CustodyOfIdle(sh: Shared, p: Pid, job: Job, g: IdlePc, ok: bool, past: Past)
    requires StageReady(sh, p, job, Idle(g))
    ensures CustodyFollows(p, Subject(sh, p, Idle(g)), job, Idle(g), WithJob(IdleStep(sh, p, g, ok, past), job))
  {
    hide AcceptCalls, RunCalls, CancelCalls;
  }

  lemma CustodyOfCheck(sh: Shared, p: Pid, job: Job, g: Loads, ret: Ret, past: Past)
    requires StageReady(sh, p, job, Check(g, ret))
    ensures CustodyFollows(p, Subject(sh, p, Check(g, ret)), job, Check(g, ret),
              WithJob(CheckStep(sh, g, ret, past), job))
  {
    hide AcceptCalls, RunCalls, CancelCalls;
  }

  lemma CustodyOfNotifyAll(sh: Shared, p: Pid, job: Job, g: bool, ret: Ret)
    requires StageReady(sh, p, job, NotifyAt(g, ret)) && g
    ensures CustodyFollows(p, Subject(sh, p, NotifyAt(g, ret)), job, NotifyAt(g, ret),
              WithJob(NotifyStep(sh, p, g, ret), job))
  {
    hide JobOk;
    if ret.RetStop? && ret.rest != [] {
      DistinctParts([], ret.rest);
      assert [] + ret.rest == ret.rest;
    }
  }

  lemma CustodyOfNotifyLock(sh: Shared, p: Pid, job: Job, g: bool, ret: Ret)
    requires StageReady(sh, p, job, NotifyAt(g, ret)) && !g
    ensures CustodyFollows(p, Subject(sh, p, NotifyAt(g, ret)), job, NotifyAt(g, ret),
              WithJob(NotifyStep(sh, p, g, ret), job))
  {
    hide AcceptCalls, RunCalls, CancelCalls;
  }

  lemma CustodyOfNotify(sh: Shared, p: Pid, job: Job, g: bool, ret: Ret)
    requires StageReady(sh, p, job, NotifyAt(g, ret))
    ensures CustodyFollows(p, Subject(sh, p, NotifyAt(g, ret)), job, NotifyAt(g, ret),
              WithJob(NotifyStep(sh, p, g, ret), job))
  {
    hide StageReady, CustodyFollows, NotifyStep, Subject;
    if g {
      CustodyOfNotifyAll(sh, p, job, g, ret);
    } else {
      CustodyOfNotifyLock(sh, p, job, g, ret);
    }
  }

  lemma CustodyOfWait(sh: Shared, p: Pid, job: Job, g: WaitPc)
    requires StageReady(sh, p, job, Wait(g))
    ensures CustodyFollows(p, Subject(sh, p, Wait(g)), job, Wait(g), WithJob(WaitStep(sh, p, g), job))
  {
    hide AcceptCalls, RunCalls, CancelCalls;
  }

  lemma CustodyOfSteal(sh: Shared, p: Pid, job: Job, g: StopPc)
    requires StageReady(sh, p, job, Stop(g)) && g.StopSteal?
    ensures CustodyFollows(p, Subject(sh, p, Stop(g)), job, Stop(g), StopStep(sh, p, job, g))
  {
    hide AcceptCalls, RunCalls, CancelCalls;
    if sh.queue.items == [] {
      assert [] + g.list == g.list;
    } else if sh.queue.items[0] !in g.list {
      DistinctSnoc(g.list, sh.queue.items[0]);
    }
  }

  lemma CustodyOfUncount(sh: Shared, p: Pid, job: Job, g: StopPc)
    requires StageReady(sh, p, job, Stop(g)) && g.StopUncount?
    ensures CustodyFollows(p, Subject(sh, p, Stop(g)), job, Stop(g), StopStep(sh, p, job, g))
  {
    hide AcceptCalls, RunCalls, CancelCalls;
    if g.rest == [] {
      assert g.done + [] == g.done;
    } else {
      DistinctParts(g.done, g.rest);
    }
  }

  lemma CustodyOfCountCancelling(sh: Shared, p: Pid, job: Job, g: StopPc)
    requires StageReady(sh, p, job, Stop(g)) && g.StopCountCancelling?
    ensures CustodyFollows(p, Subject(sh, p, Stop(g)), job, Stop(g), StopStep(sh, p, job, g))
  {
    hide AcceptCalls, RunCalls, CancelCalls;
    if g.rest == [] {
      assert g.done + [] == g.done;
    } else {
      DistinctParts(g.done, g.rest);
    }
  }

  lemma CustodyOfStopNotify(sh: Shared, p: Pid, job: Job, g: StopPc)
    requires StageReady(sh, p, job, Stop(g)) && g.StopNotify?
    ensures CustodyFollows(p, Subject(sh, p, Stop(g)), job, Stop(g), StopStep(sh, p, job, g))
  {
    hide AcceptCalls, RunCalls, CancelCalls;
    if g.list != [] {
      DistinctParts([], g.list);
      assert [] + g.list == g.list;
    }
  }

  lemma CustodyOfPlainStop(sh: Shared, p: Pid, job: Job, g: StopPc)
    requires StageReady(sh, p, job, Stop(g)) && !g.StopSteal? && !g.StopUncount? && !g.StopCountCancelling?
             && !g.StopNotify?
    ensures CustodyFollows(p, Subject(sh, p, Stop(g)), job, Stop(g), StopStep(sh, p, job, g))
  {
    hide AcceptCalls, RunCalls, CancelCalls;
  }

  lemma CustodyOfStop(sh: Shared, p: Pid, job: Job, g: StopPc)
    requires StageReady(sh, p, job, Stop(g))
    ensures CustodyFollows(p, Subject(sh, p, Stop(g)), job, Stop(g), StopStep(sh, p, job, g))
  {
    hide StageReady, CustodyFollows, StopStep, Subject;
    if g.StopSteal? {
      CustodyOfSteal(sh, p, job, g);
    } else if g.StopUncount? {
      CustodyOfUncount(sh, p, job, g);
    } else if g.StopCountCancelling? {
      CustodyOfCountCancelling(sh, p, job, g);
    } else if g.StopNotify? {
      CustodyOfStopNotify(sh, p, job, g);
    } else {
      CustodyOfPlainStop(sh, p, job, g);
    }
  }

  lemma CustodyOfStep(sh: Shared, p: Pid, job: Job, pc: Pc, ok: bool, past: Past)
    requires !pc.Done? && StageReady(sh, p, job, pc)
    ensures CustodyFollows(p, Subject(sh, p, pc), job, pc, StepOf(sh, p, job, pc, ok, past))
  {
    hide StageReady, CustodyFollows, SubStep, WorkStep, IdleStep, FinStep, CheckStep, NotifyStep, StopStep, WaitStep;
    match pc {
      case Sub(g) => CustodyOfSub(sh, p, job, g, ok);
      case Work(g) => CustodyOfWork(sh, p, job, g);
      case Fin(g, j, ret) => CustodyOfFin(sh, p, job, g, j, ret);
      case Idle(g) => CustodyOfIdle(sh, p, job, g, ok, past);
      case Check(g, ret) => CustodyOfCheck(sh, p, job, g, ret, past);
      case NotifyLock(ret) => CustodyOfNotify(sh, p, job, false, ret);
      case NotifyAll(ret) => CustodyOfNotify(sh, p, job, true, ret);
      case Wait(g) => CustodyOfWait(sh, p, job, g);
      case Stop(g) => CustodyOfStop(sh, p, job, g);
      case _ =>
    }
  }

  // ----- No waiter is forgotten.

  predicate WatchGiven(sh: Shared, p: Pid, job: Job, pc: Pc) {
    && StageReady(sh, p, job, pc)
    && Felt(sh, job, pc)
  }

  lemma WatchOfSub(sh: Shared, p: Pid, job: Job, g: SubPc, ok: bool)
    requires WatchGiven(sh, p, job, Sub(g))
    ensures WatchFollows(sh, Sub(g), SubStep(sh, p, job, g, ok))
  {
    hide JobOk, Distinct, Stock;
  }

  lemma WatchOfWork(sh: Shared, p: Pid, job: Job, g: WorkPc)
    requires WatchGiven(sh, p, job, Work(g))
    ensures WatchFollows(sh, Work(g), WorkStep(sh, p, job, g))
  {
    hide JobOk, Distinct, Stock;
  }

  lemma WatchOfFin(sh: Shared, p: Pid, job: Job, g: FinPc, j: Pid, ret: Ret)
    requires WatchGiven(sh, p, job, Fin(g, j, ret))
    ensures WatchFollows(sh, Fin(g, j, ret), FinStep(sh, job, g, j, ret))
  {
    hide JobOk, Distinct, Stock;
  }

  lemma WatchOfEarlyIdle(sh: Shared, p: Pid, job: Job, g: IdlePc, ok: bool, past: Past)
    requires WatchGiven(sh, p, job, Idle(g)) && LooksForWork(g)
    ensures WatchFollows(sh, Idle(g), WithJob(IdleStep(sh, p, g, ok, past), job))
  {
    hide StageReady;
  }

  lemma WatchOfLateIdle(sh: Shared, p: Pid, job: Job, g: IdlePc, ok: bool, past: Past)
    requires WatchGiven(sh, p, job, Idle(g)) && !LooksForWork(g)
    ensures WatchFollows(sh, Idle(g), WithJob(IdleStep(sh, p, g, ok, past), job))
  {
    hide StageReady;
  }

  lemma WatchOfIdle(sh: Shared, p: Pid, job: Job, g: IdlePc, ok: bool, past: Past)
    requires WatchGiven(sh, p, job, Idle(g))
    ensures WatchFollows(sh, Idle(g), WithJob(IdleStep(sh, p, g, ok, past), job))
  {
    hide WatchGiven, WatchFollows, IdleStep, Subject;
    if LooksForWork(g) {
      WatchOfEarlyIdle(sh, p, job, g, ok, past);
    } else {
      WatchOfLateIdle(sh, p, job, g, ok, past);
    }
  }

  lemma WatchOfCheck(sh: Shared, p: Pid, job: Job, g: Loads, ret: Ret, past: Past)
    requires WatchGiven(sh, p, job, Check(g, ret))
    ensures WatchFollows(sh, Check(g, ret), WithJob(CheckStep(sh, g, ret, past), job))
  {
    hide StageReady;
  }

  lemma WatchOfNotify(sh: Shared, p: Pid, job: Job, g: bool, ret: Ret)
    requires WatchGiven(sh, p, job, NotifyAt(g, ret))
    ensures WatchFollows(sh, NotifyAt(g, ret), WithJob(NotifyStep(sh, p, g, ret), job))
  {
    hide StageReady;
  }

  lemma WatchOfWait(sh: Shared, p: Pid, job: Job, g: WaitPc)
    requires WatchGiven(sh, p, job, Wait(g))
    ensures WatchFollows(sh, Wait(g), WithJob(WaitStep(sh, p, g), job))
  {
    hide StageReady;
  }

  lemma WatchOfEarlyStop(sh: Shared, p: Pid, job: Job, g: StopPc)
    requires WatchGiven(sh, p, job, Stop(g))
             && !(g.StopSteal? || g.StopUncount? || g.StopCountCancelling? || g.StopNotify?)
    ensures WatchFollows(sh, Stop(g), StopStep(sh, p, job, g))
  {
    hide StageReady;
  }

  lemma WatchOfLateStop(sh: Shared, p: Pid, job: Job, g: StopPc)
    requires WatchGiven(sh, p, job, Stop(g))
             && (g.StopSteal? || g.StopUncount? || g.StopCountCancelling? || g.StopNotify?)
    ensures WatchFollows(sh, Stop(g), StopStep(sh, p, job, g))
  {
    hide JobOk, Distinct, Stock;
  }

  lemma WatchOfStop(sh: Shared, p: Pid, job: Job, g: StopPc)
    requires WatchGiven(sh, p, job, Stop(g))
    ensures WatchFollows(sh, Stop(g), StopStep(sh, p, job, g))
  {
    hide WatchGiven, WatchFollows, StopStep, Subject;
    if !(g.StopSteal? || g.StopUncount? || g.StopCountCancelling? || g.StopNotify?) {
      WatchOfEarlyStop(sh, p, job, g);
    } else {
      WatchOfLateStop(sh, p, job, g);
    }
  }

  lemma WatchOfStep(sh: Shared, p: Pid, job: Job, pc: Pc, ok: bool, past: Past)
    requires !pc.Done? && WatchGiven(sh, p, job, pc)
    ensures WatchFollows(sh, pc, StepOf(sh, p, job, pc, ok, past))
  {
    hide WatchGiven, WatchFollows, SubStep, WorkStep, IdleStep, FinStep, CheckStep, NotifyStep, StopStep, WaitStep;
    match pc {
      case Sub(g) => WatchOfSub(sh, p, job, g, ok);
      case Work(g) => WatchOfWork(sh, p, job, g);
      case Fin(g, j, ret) => WatchOfFin(sh, p, job, g, j, ret);
      case Idle(g) => WatchOfIdle(sh, p, job, g, ok, past);
      case Check(g, ret) => WatchOfCheck(sh, p, job, g, ret, past);
      case NotifyLock(ret) => WatchOfNotify(sh, p, job, false, ret);
      case NotifyAll(ret) => WatchOfNotify(sh, p, job, true, ret);
      case Wait(g) => WatchOfWait(sh, p, job, g);
      case Stop(g) => WatchOfStop(sh, p, job, g);
      case _ =>
    }
  }

  // ----- What a thread knows stays true of its next position.

  predicate LocalGiven(sh: Shared, p: Pid, job: Job, pc: Pc) {
    && RetOk(pc)
    && GlobalOk(sh)
    && LocalOk(sh, pc)
    && sh.wake.idle >= 0
  }

  predicate LocalHold(sh: Shared, p: Pid, job: Job, pc: Pc, step: Step) {
    && GlobalOk(step.sh)
    && LocalOk(step.sh, step.pc)
    && LifeFollows(sh, pc, step)
  }

  lemma LocalOfSub(sh: Shared, p: Pid, job: Job, g: SubPc, ok: bool)
    requires LocalGiven(sh, p, job, Sub(g))
    ensures LocalHold(sh, p, job, Sub(g), SubStep(sh, p, job, g, ok))
  {}

  lemma LocalOfWorking(sh: Shared, p: Pid, job: Job, pc: Pc, ok: bool, past: Past)
    requires LocalGiven(sh, p, job, pc) && (pc.Work? || pc.Fin?)
    ensures LocalHold(sh, p, job, pc, StepOf(sh, p, job, pc, ok, past))
  {
    hide SubStep, IdleStep, CheckStep, NotifyStep, StopStep, WaitStep;
  }

  lemma LocalOfIdle(sh: Shared, p: Pid, job: Job, g: IdlePc, ok: bool, past: Past)
    requires LocalGiven(sh, p, job, Idle(g))
    ensures LocalHold(sh, p, job, Idle(g), WithJob(IdleStep(sh, p, g, ok, past), job))
  {}

  lemma LocalOfCalling(sh: Shared, p: Pid, job: Job, pc: Pc, ok: bool, past: Past)
    requires LocalGiven(sh, p, job, pc) && (pc.Check? || pc.NotifyLock? || pc.NotifyAll? || pc.Wait?)
    ensures LocalHold(sh, p, job, pc, StepOf(sh, p, job, pc, ok, past))
  {
    hide SubStep, WorkStep, IdleStep, FinStep, StopStep;
  }

  lemma LocalOfStop(sh: Shared, p: Pid, job: Job, g: StopPc)
    requires LocalGiven(sh, p, job, Stop(g))
    ensures LocalHold(sh, p, job, Stop(g), StopStep(sh, p, job, g))
  {}

  lemma LocalOfStep(sh: Shared, p: Pid, job: Job, pc: Pc, ok: bool, past: Past)
    requires !pc.Done? && LocalGiven(sh, p, job, pc)
    ensures LocalHold(sh, p, job, pc, StepOf(sh, p, job, pc, ok, past))
  {
    hide LocalGiven, LocalHold, SubStep, WorkStep, IdleStep, FinStep, CheckStep, NotifyStep, StopStep, WaitStep;
    match pc {
      case Sub(g) => LocalOfSub(sh, p, job, g, ok);
      case Work(_) | Fin(_, _, _) => LocalOfWorking(sh, p, job, pc, ok, past);
      case Idle(g) => LocalOfIdle(sh, p, job, g, ok, past);
      case Check(_, _) | NotifyLock(_) | NotifyAll(_) | Wait(_) => LocalOfCalling(sh, p, job, pc, ok, past);
      case Stop(g) => LocalOfStop(sh, p, job, g);
      case _ =>
    }
  }
}
