/** Each atomic step against the locks it takes, group by group of positions. */
module DynamicStepLocks {
  import opened PoolTypes
  import opened PoolAccounting
  import opened PoolShared
  import opened DynamicPool
  import opened DynamicRun
  import opened DynamicFacts

  // ----- Locks are taken and released as the position says, and only by a thread that was waiting for them.

  predicate LocksHold(sh: Shared, p: Pid, job: Job, pc: Pc, step: Step) {
    && LocksFollow(sh, p, job, pc, step)
    && AcquiresWanted(p, pc, step.pc)
  }

  lemma LocksOfSub(sh: Shared, p: Pid, job: Job, g: SubPc)
    requires LocksReady(sh, p, job, Sub(g))
    ensures LocksHold(sh, p, job, Sub(g), SubStep(sh, p, job, g))
  {}

  lemma LocksOfAcc(sh: Shared, p: Pid, job: Job, g: AccPc, ok: bool)
    requires LocksReady(sh, p, job, Acc(g))
    ensures LocksHold(sh, p, job, Acc(g), AccStep(sh, p, job, g, ok))
  {}

  lemma LocksOfPubAndCut(sh: Shared, p: Pid, job: Job, pc: Pc, ok: bool, past: Past)
    requires LocksReady(sh, p, job, pc) && (pc.Pub? || pc.Cut?)
    ensures LocksHold(sh, p, job, pc, StepOf(sh, p, job, pc, ok, past))
  {
    hide SubStep, GrowStep, AccStep, TakeStep, RunStep, IdleStep, DrainStep, ExitStep, FinStep, CheckStep, NotifyStep,
      StopStep, PurgeStep, WaitStep, LookStep, FindStep;
  }

  lemma LocksOfGrow(sh: Shared, p: Pid, job: Job, g: GrowPc, ok: bool)
    requires LocksReady(sh, p, job, Grow(g))
    ensures LocksHold(sh, p, job, Grow(g), GrowStep(sh, p, job, g, ok))
  {}

  lemma LocksOfExit(sh: Shared, p: Pid, job: Job, g: ExitPc)
    requires LocksReady(sh, p, job, Exit(g))
    ensures LocksHold(sh, p, job, Exit(g), WithJob(ExitStep(sh, p, g), job))
  {}

  lemma LocksOfWorking(sh: Shared, p: Pid, job: Job, pc: Pc, ok: bool, past: Past)
    requires LocksReady(sh, p, job, pc) && (pc.Work? || pc.Run?)
    ensures LocksHold(sh, p, job, pc, StepOf(sh, p, job, pc, ok, past))
  {
    hide SubStep, GrowStep, AccStep, PubStep, CutStep, IdleStep, DrainStep, ExitStep, FinStep, CheckStep, NotifyStep,
      StopStep, PurgeStep, WaitStep, LookStep, FindStep;
  }

  lemma LocksOfIdle(sh: Shared, p: Pid, job: Job, g: IdlePc)
    requires LocksReady(sh, p, job, Idle(g))
    ensures LocksHold(sh, p, job, Idle(g), WithJob(IdleStep(sh, p, g), job))
  {}

  lemma LocksOfDrain(sh: Shared, p: Pid, job: Job, g: DrainPc, past: Past)
    requires LocksReady(sh, p, job, Drain(g))
    ensures LocksHold(sh, p, job, Drain(g), WithJob(DrainStep(sh, p, g, past), job))
  {}

  lemma LocksOfCancelling(sh: Shared, p: Pid, job: Job, pc: Pc, ok: bool, past: Past)
    requires LocksReady(sh, p, job, pc) && (pc.Fin? || pc.Purge?)
    ensures LocksHold(sh, p, job, pc, StepOf(sh, p, job, pc, ok, past))
  {
    hide SubStep, GrowStep, AccStep, PubStep, CutStep, TakeStep, RunStep, IdleStep, DrainStep, ExitStep, CheckStep,
      NotifyStep, StopStep, WaitStep, LookStep, FindStep;
  }

  lemma LocksOfCheckHeld(sh: Shared, p: Pid, job: Job, g: Loads, ret: Ret, past: Past)
    requires LocksReady(sh, p, job, Check(g, ret)) && InMonitor(ret)
    ensures LocksHold(sh, p, job, Check(g, ret), WithJob(CheckStep(sh, g, ret, past), job))
  {}

  lemma LocksOfCheckFree(sh: Shared, p: Pid, job: Job, g: Loads, ret: Ret, past: Past)
    requires LocksReady(sh, p, job, Check(g, ret)) && !InMonitor(ret)
    ensures LocksHold(sh, p, job, Check(g, ret), WithJob(CheckStep(sh, g, ret, past), job))
  {}

  lemma LocksOfCheck(sh: Shared, p: Pid, job: Job, g: Loads, ret: Ret, past: Past)
    requires LocksReady(sh, p, job, Check(g, ret))
    ensures LocksHold(sh, p, job, Check(g, ret), WithJob(CheckStep(sh, g, ret, past), job))
  {
    hide LocksReady, LocksHold, CheckStep, Subject;
    if InMonitor(ret) {
      LocksOfCheckHeld(sh, p, job, g, ret, past);
    } else {
      LocksOfCheckFree(sh, p, job, g, ret, past);
    }
  }

  lemma LocksOfNotify(sh: Shared, p: Pid, job: Job, g: bool, ret: Ret)
    requires LocksReady(sh, p, job, NotifyAt(g, ret))
    ensures LocksHold(sh, p, job, NotifyAt(g, ret), WithJob(NotifyStep(sh, p, g, ret), job))
  {}

  lemma LocksOfStop(sh: Shared, p: Pid, job: Job, g: StopPc)
    requires LocksReady(sh, p, job, Stop(g))
    ensures LocksHold(sh, p, job, Stop(g), WithJob(StopStep(sh, p, g), job))
  {}

  lemma LocksOfWait(sh: Shared, p: Pid, job: Job, g: WaitPc)
    requires LocksReady(sh, p, job, Wait(g))
    ensures LocksHold(sh, p, job, Wait(g), WithJob(WaitStep(sh, p, g), job))
  {}

  lemma LocksOfTicketing(sh: Shared, p: Pid, job: Job, pc: Pc, ok: bool, past: Past)
    requires LocksReady(sh, p, job, pc) && (pc.Look? || pc.Find?)
    ensures LocksHold(sh, p, job, pc, StepOf(sh, p, job, pc, ok, past))
  {
    hide SubStep, GrowStep, AccStep, PubStep, CutStep, TakeStep, RunStep, IdleStep, DrainStep, ExitStep, FinStep,
      CheckStep, NotifyStep, StopStep, PurgeStep, WaitStep, RemoveFirst;
  }

  lemma LocksOfStep(sh: Shared, p: Pid, job: Job, pc: Pc, ok: bool, past: Past)
    requires !Finished(pc) && LocksReady(sh, p, job, pc)
    ensures LocksHold(sh, p, job, pc, StepOf(sh, p, job, pc, ok, past))
  {
    hide LocksReady, LocksHold, SubStep, GrowStep, AccStep, PubStep, CutStep, TakeStep, RunStep, IdleStep, DrainStep,
      ExitStep, FinStep, CheckStep, NotifyStep, StopStep, PurgeStep, WaitStep, LookStep, FindStep;
    match pc {
      case Sub(g) => LocksOfSub(sh, p, job, g);
      case Acc(g) => LocksOfAcc(sh, p, job, g, ok);
      case Pub(_) | Cut(_) => LocksOfPubAndCut(sh, p, job, pc, ok, past);
      case Grow(g) => LocksOfGrow(sh, p, job, g, ok);
      case Exit(g) => LocksOfExit(sh, p, job, g);
      case Work(_) | Run(_, _) => LocksOfWorking(sh, p, job, pc, ok, past);
      case Idle(g) => LocksOfIdle(sh, p, job, g);
      case Drain(g) => LocksOfDrain(sh, p, job, g, past);
      case Fin(_, _, _) | Purge(_, _, _) => LocksOfCancelling(sh, p, job, pc, ok, past);
      case Check(g, ret) => LocksOfCheck(sh, p, job, g, ret, past);
      case NotifyLock(ret) => LocksOfNotify(sh, p, job, false, ret);
      case NotifyAll(ret) => LocksOfNotify(sh, p, job, true, ret);
      case Stop(g) => LocksOfStop(sh, p, job, g);
      case Wait(g) => LocksOfWait(sh, p, job, g);
      case Look(_, _, _) | Find(_, _) => LocksOfTicketing(sh, p, job, pc, ok, past);
      case _ =>
    }
  }

  // ----- Roles, returns, targets and wait sets.

  predicate RolesGiven(sh: Shared, p: Pid, job: Job, pc: Pc) {
    && RetOk(p, pc)
    && !Finished(pc)
    && Awake(sh, p, job)
  }

  lemma RolesOfSub(sh: Shared, p: Pid, job: Job, g: SubPc)
    requires RolesGiven(sh, p, job, Sub(g))
    ensures RolesFollow(sh, p, job, Sub(g), SubStep(sh, p, job, g))
  {}

  lemma RolesOfAcc(sh: Shared, p: Pid, job: Job, g: AccPc, ok: bool)
    requires RolesGiven(sh, p, job, Acc(g))
    ensures RolesFollow(sh, p, job, Acc(g), AccStep(sh, p, job, g, ok))
  {}

  lemma RolesOfPubAndCut(sh: Shared, p: Pid, job: Job, pc: Pc, ok: bool, past: Past)
    requires RolesGiven(sh, p, job, pc) && (pc.Pub? || pc.Cut?)
    ensures RolesFollow(sh, p, job, pc, StepOf(sh, p, job, pc, ok, past))
  {
    hide SubStep, GrowStep, AccStep, TakeStep, RunStep, IdleStep, DrainStep, ExitStep, FinStep, CheckStep, NotifyStep,
      StopStep, PurgeStep, WaitStep, LookStep, FindStep;
  }

  lemma RolesOfGrow(sh: Shared, p: Pid, job: Job, g: GrowPc, ok: bool)
    requires RolesGiven(sh, p, job, Grow(g))
    ensures RolesFollow(sh, p, job, Grow(g), GrowStep(sh, p, job, g, ok))
  {}

  lemma RolesOfExit(sh: Shared, p: Pid, job: Job, g: ExitPc)
    requires RolesGiven(sh, p, job, Exit(g))
    ensures RolesFollow(sh, p, job, Exit(g), WithJob(ExitStep(sh, p, g), job))
  {}

  lemma RolesOfWorking(sh: Shared, p: Pid, job: Job, pc: Pc, ok: bool, past: Past)
    requires RolesGiven(sh, p, job, pc) && (pc.Work? || pc.Run?)
    ensures RolesFollow(sh, p, job, pc, StepOf(sh, p, job, pc, ok, past))
  {
    hide SubStep, GrowStep, AccStep, PubStep, CutStep, IdleStep, DrainStep, ExitStep, FinStep, CheckStep, NotifyStep,
      StopStep, PurgeStep, WaitStep, LookStep, FindStep;
  }

  lemma RolesOfWaiting(sh: Shared, p: Pid, job: Job, pc: Pc, ok: bool, past: Past)
    requires RolesGiven(sh, p, job, pc) && (pc.Idle? || pc.Drain?)
    ensures RolesFollow(sh, p, job, pc, StepOf(sh, p, job, pc, ok, past))
  {
    hide SubStep, GrowStep, AccStep, PubStep, CutStep, TakeStep, RunStep, ExitStep, FinStep, CheckStep, NotifyStep,
      StopStep, PurgeStep, WaitStep, LookStep, FindStep;
  }

  lemma RolesOfCancelling(sh: Shared, p: Pid, job: Job, pc: Pc, ok: bool, past: Past)
    requires RolesGiven(sh, p, job, pc) && (pc.Fin? || pc.Purge?)
    ensures RolesFollow(sh, p, job, pc, StepOf(sh, p, job, pc, ok, past))
  {
    hide SubStep, GrowStep, AccStep, PubStep, CutStep, TakeStep, RunStep, IdleStep, DrainStep, ExitStep, CheckStep,
      NotifyStep, StopStep, WaitStep, LookStep, FindStep;
  }

  lemma RolesOfCheckHeld(sh: Shared, p: Pid, job: Job, g: Loads, ret: Ret, past: Past)
    requires RolesGiven(sh, p, job, Check(g, ret)) && InMonitor(ret)
    ensures RolesFollow(sh, p, job, Check(g, ret), WithJob(CheckStep(sh, g, ret, past), job))
  {}

  lemma RolesOfCheckFree(sh: Shared, p: Pid, job: Job, g: Loads, ret: Ret, past: Past)
    requires RolesGiven(sh, p, job, Check(g, ret)) && !InMonitor(ret)
    ensures RolesFollow(sh, p, job, Check(g, ret), WithJob(CheckStep(sh, g, ret, past), job))
  {}

  lemma RolesOfCheck(sh: Shared, p: Pid, job: Job, g: Loads, ret: Ret, past: Past)
    requires RolesGiven(sh, p, job, Check(g, ret))
    ensures RolesFollow(sh, p, job, Check(g, ret), WithJob(CheckStep(sh, g, ret, past), job))
  {
    hide RolesGiven, RolesFollow, CheckStep, Subject;
    if InMonitor(ret) {
      RolesOfCheckHeld(sh, p, job, g, ret, past);
    } else {
      RolesOfCheckFree(sh, p, job, g, ret, past);
    }
  }

  lemma RolesOfNotify(sh: Shared, p: Pid, job: Job, g: bool, ret: Ret)
    requires RolesGiven(sh, p, job, NotifyAt(g, ret))
    ensures RolesFollow(sh, p, job, NotifyAt(g, ret), WithJob(NotifyStep(sh, p, g, ret), job))
  {}

  lemma RolesOfCalling(sh: Shared, p: Pid, job: Job, pc: Pc, ok: bool, past: Past)
    requires RolesGiven(sh, p, job, pc) && (pc.Stop? || pc.Wait?)
    ensures RolesFollow(sh, p, job, pc, StepOf(sh, p, job, pc, ok, past))
  {
    hide SubStep, GrowStep, AccStep, PubStep, CutStep, TakeStep, RunStep, IdleStep, DrainStep, ExitStep, FinStep,
      CheckStep, NotifyStep, PurgeStep, LookStep, FindStep;
  }

  lemma RolesOfTicketing(sh: Shared, p: Pid, job: Job, pc: Pc, ok: bool, past: Past)
    requires RolesGiven(sh, p, job, pc) && (pc.Look? || pc.Find?)
    ensures RolesFollow(sh, p, job, pc, StepOf(sh, p, job, pc, ok, past))
  {
    hide SubStep, GrowStep, AccStep, PubStep, CutStep, TakeStep, RunStep, IdleStep, DrainStep, ExitStep, FinStep,
      CheckStep, NotifyStep, StopStep, PurgeStep, WaitStep, RemoveFirst;
  }

  lemma RolesOfStep(sh: Shared, p: Pid, job: Job, pc: Pc, ok: bool, past: Past)
    requires !Finished(pc) && RolesGiven(sh, p, job, pc)
    ensures RolesFollow(sh, p, job, pc, StepOf(sh, p, job, pc, ok, past))
  {
    hide RolesGiven, RolesFollow, SubStep, GrowStep, AccStep, PubStep, CutStep, TakeStep, RunStep, IdleStep, DrainStep,
      ExitStep, FinStep, CheckStep, NotifyStep, StopStep, PurgeStep, WaitStep, LookStep, FindStep;
    match pc {
      case Sub(g) => RolesOfSub(sh, p, job, g);
      case Acc(g) => RolesOfAcc(sh, p, job, g, ok);
      case Pub(_) | Cut(_) => RolesOfPubAndCut(sh, p, job, pc, ok, past);
      case Grow(g) => RolesOfGrow(sh, p, job, g, ok);
      case Exit(g) => RolesOfExit(sh, p, job, g);
      case Work(_) | Run(_, _) => RolesOfWorking(sh, p, job, pc, ok, past);
      case Idle(_) | Drain(_) => RolesOfWaiting(sh, p, job, pc, ok, past);
      case Fin(_, _, _) | Purge(_, _, _) => RolesOfCancelling(sh, p, job, pc, ok, past);
      case Check(g, ret) => RolesOfCheck(sh, p, job, g, ret, past);
      case NotifyLock(ret) => RolesOfNotify(sh, p, job, false, ret);
      case NotifyAll(ret) => RolesOfNotify(sh, p, job, true, ret);
      case Stop(_) | Wait(_) => RolesOfCalling(sh, p, job, pc, ok, past);
      case Look(_, _, _) | Find(_, _) => RolesOfTicketing(sh, p, job, pc, ok, past);
      case _ =>
    }
  }
}
