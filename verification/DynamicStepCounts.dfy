/** Each atomic step against the counters it changes, group by group of positions. */
module DynamicStepCounts {
  import opened PoolTypes
  import opened PoolAccounting
  import opened PoolShared
  import opened DynamicPool
  import opened DynamicRun
  import opened DynamicFacts

  // ----- Every task counter moves with the stage of one job.

  lemma CountersOfSub(sh: Shared, p: Pid, job: Job, g: SubPc)
    requires StageReady(sh, p, job, Sub(g))
    ensures CountersFollow(sh, job, SubStep(sh, p, job, g))
  {}

  lemma CountersOfAcc(sh: Shared, p: Pid, job: Job, g: AccPc, ok: bool)
    requires StageReady(sh, p, job, Acc(g))
    ensures CountersFollow(sh, job, AccStep(sh, p, job, g, ok))
  {}

  lemma CountersOfPub(sh: Shared, p: Pid, job: Job, g: PubPc)
    requires StageReady(sh, p, job, Pub(g))
    ensures CountersFollow(sh, job, PubStep(sh, p, job, g))
  {}

  lemma CountersOfCut(sh: Shared, p: Pid, job: Job, g: CutPc)
    requires StageReady(sh, p, job, Cut(g))
    ensures CountersFollow(sh, job, CutStep(sh, p, job, g))
  {}

  lemma CountersOfGrow(sh: Shared, p: Pid, job: Job, g: GrowPc, ok: bool)
    requires StageReady(sh, p, job, Grow(g))
    ensures CountersFollow(sh, job, GrowStep(sh, p, job, g, ok))
  {}

  lemma CountersOfExit(sh: Shared, p: Pid, job: Job, g: ExitPc)
    requires StageReady(sh, p, job, Exit(g))
    ensures CountersFollow(sh, job, WithJob(ExitStep(sh, p, g), job))
  {}

  lemma CountersOfWork(sh: Shared, p: Pid, job: Job, g: TakePc)
    requires StageReady(sh, p, job, Work(g))
    ensures CountersFollow(sh, job, TakeStep(sh, p, job, g))
  {}

  lemma CountersOfRun(sh: Shared, p: Pid, job: Job, g: RunPc, j: Pid)
    requires StageReady(sh, p, job, Run(g, j))
    ensures CountersFollow(sh, job, RunStep(sh, job, g, j))
  {}

  lemma CountersOfWaiting(sh: Shared, p: Pid, job: Job, pc: Pc, ok: bool, past: Past)
    requires StageReady(sh, p, job, pc) && (pc.Idle? || pc.Drain?)
    ensures CountersFollow(sh, job, StepOf(sh, p, job, pc, ok, past))
  {
    hide SubStep, GrowStep, AccStep, PubStep, CutStep, TakeStep, RunStep, ExitStep, FinStep, CheckStep, NotifyStep,
      StopStep, PurgeStep, WaitStep, LookStep, FindStep;
  }

  lemma CountersOfFin(sh: Shared, p: Pid, job: Job, g: FinPc, j: Pid, ret: Ret)
    requires StageReady(sh, p, job, Fin(g, j, ret))
    ensures CountersFollow(sh, job, FinStep(sh, job, g, j, ret))
  {}

  lemma CountersOfPurge(sh: Shared, p: Pid, job: Job, g: PurgePc, list: seq<Pid>, j: Pid)
    requires StageReady(sh, p, job, Purge(g, list, j))
    ensures CountersFollow(sh, job, PurgeStep(sh, p, job, g, list, j))
  {}

  lemma CountersOfChecking(sh: Shared, p: Pid, job: Job, pc: Pc, ok: bool, past: Past)
    requires StageReady(sh, p, job, pc) && (pc.Check? || pc.NotifyLock? || pc.NotifyAll?)
    ensures CountersFollow(sh, job, StepOf(sh, p, job, pc, ok, past))
  {
    hide SubStep, GrowStep, AccStep, PubStep, CutStep, TakeStep, RunStep, IdleStep, DrainStep, ExitStep, FinStep,
      StopStep, PurgeStep, WaitStep, LookStep, FindStep;
  }

  lemma CountersOfCalling(sh: Shared, p: Pid, job: Job, pc: Pc, ok: bool, past: Past)
    requires StageReady(sh, p, job, pc) && (pc.Stop? || pc.Wait?)
    ensures CountersFollow(sh, job, StepOf(sh, p, job, pc, ok, past))
  {
    hide SubStep, GrowStep, AccStep, PubStep, CutStep, TakeStep, RunStep, IdleStep, DrainStep, ExitStep, FinStep,
      CheckStep, NotifyStep, PurgeStep, LookStep, FindStep;
  }

  lemma CountersOfLook(sh: Shared, p: Pid, job: Job, g: LookPc, j: Pid, thread: nat)
    requires StageReady(sh, p, job, Look(g, j, thread))
    ensures CountersFollow(sh, job, LookStep(sh, p, job, g, j, thread))
  {}

  lemma CountersOfFind(sh: Shared, p: Pid, job: Job, g: FindPc, j: Pid)
    requires StageReady(sh, p, job, Find(g, j))
    ensures CountersFollow(sh, job, FindStep(sh, p, job, g, j))
  {
    hide RemoveFirst;
  }

  lemma CountersOfStep(sh: Shared, p: Pid, job: Job, pc: Pc, ok: bool, past: Past)
    requires !Finished(pc) && StageReady(sh, p, job, pc)
    ensures CountersFollow(sh, job, StepOf(sh, p, job, pc, ok, past))
  {
    hide StageReady, CountersFollow, SubStep, GrowStep, AccStep, PubStep, CutStep, TakeStep, RunStep, IdleStep,
      DrainStep, ExitStep, FinStep, CheckStep, NotifyStep, StopStep, PurgeStep, WaitStep, LookStep, FindStep;
    match pc {
      case Sub(g) => CountersOfSub(sh, p, job, g);
      case Acc(g) => CountersOfAcc(sh, p, job, g, ok);
      case Pub(g) => CountersOfPub(sh, p, job, g);
      case Cut(g) => CountersOfCut(sh, p, job, g);
      case Grow(g) => CountersOfGrow(sh, p, job, g, ok);
      case Exit(g) => CountersOfExit(sh, p, job, g);
      case Work(g) => CountersOfWork(sh, p, job, g);
      case Run(g, j) => CountersOfRun(sh, p, job, g, j);
      case Idle(_) | Drain(_) => CountersOfWaiting(sh, p, job, pc, ok, past);
      case Fin(g, j, ret) => CountersOfFin(sh, p, job, g, j, ret);
      case Purge(g, list, j) => CountersOfPurge(sh, p, job, g, list, j);
      case Check(_, _) | NotifyLock(_) | NotifyAll(_) => CountersOfChecking(sh, p, job, pc, ok, past);
      case Stop(_) | Wait(_) => CountersOfCalling(sh, p, job, pc, ok, past);
      case Look(g, j, thread) => CountersOfLook(sh, p, job, g, j, thread);
      case Find(g, j) => CountersOfFind(sh, p, job, g, j);
      case _ =>
    }
  }

  // ----- Every thread counter moves with the position of one thread.

  predicate GaugesHold(sh: Shared, p: Pid, job: Job, pc: Pc, step: Step, spawns: bool) {
    && GaugesFollow(sh, pc, step, spawns)
    && TallyFollows(sh, pc, step, spawns)
  }

  lemma GaugesOfSub(sh: Shared, p: Pid, job: Job, g: SubPc)
    requires RetOk(p, Sub(g))
    ensures GaugesHold(sh, p, job, Sub(g), SubStep(sh, p, job, g), false)
  {}

  lemma GaugesOfAcc(sh: Shared, p: Pid, job: Job, g: AccPc, ok: bool)
    requires RetOk(p, Acc(g))
    ensures GaugesHold(sh, p, job, Acc(g), AccStep(sh, p, job, g, ok), Spawns(Acc(g), ok))
  {}

  lemma GaugesOfPubAndCut(sh: Shared, p: Pid, job: Job, pc: Pc, ok: bool, past: Past)
    requires RetOk(p, pc) && (pc.Pub? || pc.Cut?)
    ensures GaugesHold(sh, p, job, pc, StepOf(sh, p, job, pc, ok, past), Spawns(pc, ok))
  {
    hide SubStep, GrowStep, AccStep, TakeStep, RunStep, IdleStep, DrainStep, ExitStep, FinStep, CheckStep, NotifyStep,
      StopStep, PurgeStep, WaitStep, LookStep, FindStep;
  }

  lemma GaugesOfGrow(sh: Shared, p: Pid, job: Job, g: GrowPc, ok: bool)
    requires RetOk(p, Grow(g))
    ensures GaugesHold(sh, p, job, Grow(g), GrowStep(sh, p, job, g, ok), Spawns(Grow(g), ok))
  {}

  lemma GaugesOfExit(sh: Shared, p: Pid, job: Job, g: ExitPc)
    requires RetOk(p, Exit(g))
    ensures GaugesHold(sh, p, job, Exit(g), WithJob(ExitStep(sh, p, g), job), false)
  {}

  lemma GaugesOfWorking(sh: Shared, p: Pid, job: Job, pc: Pc, ok: bool, past: Past)
    requires RetOk(p, pc) && (pc.Work? || pc.Run?)
    ensures GaugesHold(sh, p, job, pc, StepOf(sh, p, job, pc, ok, past), Spawns(pc, ok))
  {
    hide SubStep, GrowStep, AccStep, PubStep, CutStep, IdleStep, DrainStep, ExitStep, FinStep, CheckStep, NotifyStep,
      StopStep, PurgeStep, WaitStep, LookStep, FindStep;
  }

  lemma GaugesOfIdle(sh: Shared, p: Pid, job: Job, g: IdlePc)
    requires RetOk(p, Idle(g))
    ensures GaugesHold(sh, p, job, Idle(g), WithJob(IdleStep(sh, p, g), job), false)
  {}

  lemma GaugesOfDrain(sh: Shared, p: Pid, job: Job, g: DrainPc, past: Past)
    requires RetOk(p, Drain(g))
    ensures GaugesHold(sh, p, job, Drain(g), WithJob(DrainStep(sh, p, g, past), job), false)
  {}

  lemma GaugesOfCancelling(sh: Shared, p: Pid, job: Job, pc: Pc, ok: bool, past: Past)
    requires RetOk(p, pc) && (pc.Fin? || pc.Purge?)
    ensures GaugesHold(sh, p, job, pc, StepOf(sh, p, job, pc, ok, past), Spawns(pc, ok))
  {
    hide SubStep, GrowStep, AccStep, PubStep, CutStep, TakeStep, RunStep, IdleStep, DrainStep, ExitStep, CheckStep,
      NotifyStep, StopStep, WaitStep, LookStep, FindStep;
  }

  lemma GaugesOfCheckHeld(sh: Shared, p: Pid, job: Job, g: Loads, ret: Ret, past: Past)
    requires RetOk(p, Check(g, ret)) && InMonitor(ret)
    ensures GaugesHold(sh, p, job, Check(g, ret), WithJob(CheckStep(sh, g, ret, past), job), false)
  {}

  lemma GaugesOfCheckFree(sh: Shared, p: Pid, job: Job, g: Loads, ret: Ret, past: Past)
    requires RetOk(p, Check(g, ret)) && !InMonitor(ret)
    ensures GaugesHold(sh, p, job, Check(g, ret), WithJob(CheckStep(sh, g, ret, past), job), false)
  {}

  lemma GaugesOfCheck(sh: Shared, p: Pid, job: Job, g: Loads, ret: Ret, past: Past)
    requires RetOk(p, Check(g, ret))
    ensures GaugesHold(sh, p, job, Check(g, ret), WithJob(CheckStep(sh, g, ret, past), job), false)
  {
    hide RetOk, GaugesHold, CheckStep, Subject;
    if InMonitor(ret) {
      GaugesOfCheckHeld(sh, p, job, g, ret, past);
    } else {
      GaugesOfCheckFree(sh, p, job, g, ret, past);
    }
  }

  lemma GaugesOfNotify(sh: Shared, p: Pid, job: Job, g: bool, ret: Ret)
    requires RetOk(p, NotifyAt(g, ret))
    ensures GaugesHold(sh, p, job, NotifyAt(g, ret), WithJob(NotifyStep(sh, p, g, ret), job), false)
  {}

  lemma GaugesOfStop(sh: Shared, p: Pid, job: Job, g: StopPc)
    requires RetOk(p, Stop(g))
    ensures GaugesHold(sh, p, job, Stop(g), WithJob(StopStep(sh, p, g), job), false)
  {}

  lemma GaugesOfEarlyWait(sh: Shared, p: Pid, job: Job, g: WaitPc)
    requires RetOk(p, Wait(g)) && ShutsOrJoins(g)
    ensures GaugesHold(sh, p, job, Wait(g), WithJob(WaitStep(sh, p, g), job), false)
  {}

  lemma GaugesOfLateWait(sh: Shared, p: Pid, job: Job, g: WaitPc)
    requires RetOk(p, Wait(g)) && !ShutsOrJoins(g)
    ensures GaugesHold(sh, p, job, Wait(g), WithJob(WaitStep(sh, p, g), job), false)
  {}

  lemma GaugesOfWait(sh: Shared, p: Pid, job: Job, g: WaitPc)
    requires RetOk(p, Wait(g))
    ensures GaugesHold(sh, p, job, Wait(g), WithJob(WaitStep(sh, p, g), job), false)
  {
    hide RetOk, GaugesHold, WaitStep, Subject;
    if ShutsOrJoins(g) {
      GaugesOfEarlyWait(sh, p, job, g);
    } else {
      GaugesOfLateWait(sh, p, job, g);
    }
  }

  lemma GaugesOfTicketing(sh: Shared, p: Pid, job: Job, pc: Pc, ok: bool, past: Past)
    requires RetOk(p, pc) && (pc.Look? || pc.Find?)
    ensures GaugesHold(sh, p, job, pc, StepOf(sh, p, job, pc, ok, past), Spawns(pc, ok))
  {
    hide SubStep, GrowStep, AccStep, PubStep, CutStep, TakeStep, RunStep, IdleStep, DrainStep, ExitStep, FinStep,
      CheckStep, NotifyStep, StopStep, PurgeStep, WaitStep, RemoveFirst;
  }

  lemma GaugesOfStep(sh: Shared, p: Pid, job: Job, pc: Pc, ok: bool, past: Past)
    requires !Finished(pc) && RetOk(p, pc)
    ensures GaugesHold(sh, p, job, pc, StepOf(sh, p, job, pc, ok, past), Spawns(pc, ok))
  {
    hide RetOk, GaugesHold, SubStep, GrowStep, AccStep, PubStep, CutStep, TakeStep, RunStep, IdleStep, DrainStep,
      ExitStep, FinStep, CheckStep, NotifyStep, StopStep, PurgeStep, WaitStep, LookStep, FindStep;
    match pc {
      case Sub(g) => GaugesOfSub(sh, p, job, g);
      case Acc(g) => GaugesOfAcc(sh, p, job, g, ok);
      case Pub(_) | Cut(_) => GaugesOfPubAndCut(sh, p, job, pc, ok, past);
      case Grow(g) => GaugesOfGrow(sh, p, job, g, ok);
      case Exit(g) => GaugesOfExit(sh, p, job, g);
      case Work(_) | Run(_, _) => GaugesOfWorking(sh, p, job, pc, ok, past);
      case Idle(g) => GaugesOfIdle(sh, p, job, g);
      case Drain(g) => GaugesOfDrain(sh, p, job, g, past);
      case Fin(_, _, _) | Purge(_, _, _) => GaugesOfCancelling(sh, p, job, pc, ok, past);
      case Check(g, ret) => GaugesOfCheck(sh, p, job, g, ret, past);
      case NotifyLock(ret) => GaugesOfNotify(sh, p, job, false, ret);
      case NotifyAll(ret) => GaugesOfNotify(sh, p, job, true, ret);
      case Stop(g) => GaugesOfStop(sh, p, job, g);
      case Wait(g) => GaugesOfWait(sh, p, job, g);
      case Look(_, _, _) | Find(_, _) => GaugesOfTicketing(sh, p, job, pc, ok, past);
      case _ =>
    }
  }

  // ----- What no step disturbs, and how a thread moves through the code.

  predicate FramesHold(sh: Shared, p: Pid, job: Job, pc: Pc, step: Step) {
    && FramesFollow(sh, p, pc, step)
    && LifeFollows(sh, pc, step)
    && PathsFollow(pc, step.pc)
  }

  lemma FramesOfSub(sh: Shared, p: Pid, job: Job, g: SubPc)
    requires RetOk(p, Sub(g))
    ensures FramesHold(sh, p, job, Sub(g), SubStep(sh, p, job, g))
  {}

  lemma FramesOfAcc(sh: Shared, p: Pid, job: Job, g: AccPc, ok: bool)
    requires RetOk(p, Acc(g))
    ensures FramesHold(sh, p, job, Acc(g), AccStep(sh, p, job, g, ok))
  {}

  lemma FramesOfPubAndCut(sh: Shared, p: Pid, job: Job, pc: Pc, ok: bool, past: Past)
    requires RetOk(p, pc) && (pc.Pub? || pc.Cut?)
    ensures FramesHold(sh, p, job, pc, StepOf(sh, p, job, pc, ok, past))
  {
    hide SubStep, GrowStep, AccStep, TakeStep, RunStep, IdleStep, DrainStep, ExitStep, FinStep, CheckStep, NotifyStep,
      StopStep, PurgeStep, WaitStep, LookStep, FindStep;
  }

  lemma FramesOfGrow(sh: Shared, p: Pid, job: Job, g: GrowPc, ok: bool)
    requires RetOk(p, Grow(g))
    ensures FramesHold(sh, p, job, Grow(g), GrowStep(sh, p, job, g, ok))
  {}

  lemma FramesOfExit(sh: Shared, p: Pid, job: Job, g: ExitPc)
    requires RetOk(p, Exit(g))
    ensures FramesHold(sh, p, job, Exit(g), WithJob(ExitStep(sh, p, g), job))
  {}

  lemma FramesOfWorking(sh: Shared, p: Pid, job: Job, pc: Pc, ok: bool, past: Past)
    requires RetOk(p, pc) && (pc.Work? || pc.Run?)
    ensures FramesHold(sh, p, job, pc, StepOf(sh, p, job, pc, ok, past))
  {
    hide SubStep, GrowStep, AccStep, PubStep, CutStep, IdleStep, DrainStep, ExitStep, FinStep, CheckStep, NotifyStep,
      StopStep, PurgeStep, WaitStep, LookStep, FindStep;
  }

  lemma FramesOfIdle(sh: Shared, p: Pid, job: Job, g: IdlePc)
    requires RetOk(p, Idle(g))
    ensures FramesHold(sh, p, job, Idle(g), WithJob(IdleStep(sh, p, g), job))
  {}

  lemma FramesOfDrain(sh: Shared, p: Pid, job: Job, g: DrainPc, past: Past)
    requires RetOk(p, Drain(g))
    ensures FramesHold(sh, p, job, Drain(g), WithJob(DrainStep(sh, p, g, past), job))
  {}

  lemma FramesOfCancelling(sh: Shared, p: Pid, job: Job, pc: Pc, ok: bool, past: Past)
    requires RetOk(p, pc) && (pc.Fin? || pc.Purge?)
    ensures FramesHold(sh, p, job, pc, StepOf(sh, p, job, pc, ok, past))
  {
    hide SubStep, GrowStep, AccStep, PubStep, CutStep, TakeStep, RunStep, IdleStep, DrainStep, ExitStep, CheckStep,
      NotifyStep, StopStep, WaitStep, LookStep, FindStep;
  }

  lemma FramesOfChecking(sh: Shared, p: Pid, job: Job, pc: Pc, ok: bool, past: Past)
    requires RetOk(p, pc) && (pc.Check? || pc.NotifyLock? || pc.NotifyAll?)
    ensures FramesHold(sh, p, job, pc, StepOf(sh, p, job, pc, ok, past))
  {
    hide SubStep, GrowStep, AccStep, PubStep, CutStep, TakeStep, RunStep, IdleStep, DrainStep, ExitStep, FinStep,
      StopStep, PurgeStep, WaitStep, LookStep, FindStep;
  }

  lemma FramesOfStop(sh: Shared, p: Pid, job: Job, g: StopPc)
    requires RetOk(p, Stop(g))
    ensures FramesHold(sh, p, job, Stop(g), WithJob(StopStep(sh, p, g), job))
  {}

  lemma FramesOfEarlyWait(sh: Shared, p: Pid, job: Job, g: WaitPc)
    requires RetOk(p, Wait(g)) && ShutsOrJoins(g)
    ensures FramesHold(sh, p, job, Wait(g), WithJob(WaitStep(sh, p, g), job))
  {}

  lemma FramesOfLateWait(sh: Shared, p: Pid, job: Job, g: WaitPc)
    requires RetOk(p, Wait(g)) && !ShutsOrJoins(g)
    ensures FramesHold(sh, p, job, Wait(g), WithJob(WaitStep(sh, p, g), job))
  {}

  lemma FramesOfWait(sh: Shared, p: Pid, job: Job, g: WaitPc)
    requires RetOk(p, Wait(g))
    ensures FramesHold(sh, p, job, Wait(g), WithJob(WaitStep(sh, p, g), job))
  {
    hide RetOk, FramesHold, WaitStep, Subject;
    if ShutsOrJoins(g) {
      FramesOfEarlyWait(sh, p, job, g);
    } else {
      FramesOfLateWait(sh, p, job, g);
    }
  }

  lemma FramesOfTicketing(sh: Shared, p: Pid, job: Job, pc: Pc, ok: bool, past: Past)
    requires RetOk(p, pc) && (pc.Look? || pc.Find?)
    ensures FramesHold(sh, p, job, pc, StepOf(sh, p, job, pc, ok, past))
  {
    hide SubStep, GrowStep, AccStep, PubStep, CutStep, TakeStep, RunStep, IdleStep, DrainStep, ExitStep, FinStep,
      CheckStep, NotifyStep, StopStep, PurgeStep, WaitStep, RemoveFirst;
  }

  lemma FramesOfStep(sh: Shared, p: Pid, job: Job, pc: Pc, ok: bool, past: Past)
    requires !Finished(pc) && RetOk(p, pc)
    ensures FramesHold(sh, p, job, pc, StepOf(sh, p, job, pc, ok, past))
  {
    hide RetOk, FramesHold, SubStep, GrowStep, AccStep, PubStep, CutStep, TakeStep, RunStep, IdleStep, DrainStep,
      ExitStep, FinStep, CheckStep, NotifyStep, StopStep, PurgeStep, WaitStep, LookStep, FindStep;
    match pc {
      case Sub(g) => FramesOfSub(sh, p, job, g);
      case Acc(g) => FramesOfAcc(sh, p, job, g, ok);
      case Pub(_) | Cut(_) => FramesOfPubAndCut(sh, p, job, pc, ok, past);
      case Grow(g) => FramesOfGrow(sh, p, job, g, ok);
      case Exit(g) => FramesOfExit(sh, p, job, g);
      case Work(_) | Run(_, _) => FramesOfWorking(sh, p, job, pc, ok, past);
      case Idle(g) => FramesOfIdle(sh, p, job, g);
      case Drain(g) => FramesOfDrain(sh, p, job, g, past);
      case Fin(_, _, _) | Purge(_, _, _) => FramesOfCancelling(sh, p, job, pc, ok, past);
      case Check(_, _) | NotifyLock(_) | NotifyAll(_) => FramesOfChecking(sh, p, job, pc, ok, past);
      case Stop(g) => FramesOfStop(sh, p, job, g);
      case Wait(g) => FramesOfWait(sh, p, job, g);
      case Look(_, _, _) | Find(_, _) => FramesOfTicketing(sh, p, job, pc, ok, past);
      case _ =>
    }
  }

  // ----- What a thread knows stays true of its next position.

  predicate LocalGiven(sh: Shared, p: Pid, job: Job, pc: Pc) {
    && RetOk(p, pc)
    && GlobalOk(sh)
    && LocalOk(sh, pc)
    && sh.wake.idle >= 0
    && sh.mon.pool.live >= 0
  }

  predicate LocalHold(sh: Shared, p: Pid, job: Job, pc: Pc, step: Step) {
    && GlobalOk(step.sh)
    && LocalOk(step.sh, step.pc)
  }

  lemma LocalOfSubmission(sh: Shared, p: Pid, job: Job, pc: Pc, ok: bool, past: Past)
    requires LocalGiven(sh, p, job, pc) && (pc.Sub? || pc.Acc? || pc.Pub? || pc.Cut?)
    ensures LocalHold(sh, p, job, pc, StepOf(sh, p, job, pc, ok, past))
  {
    hide GrowStep, TakeStep, RunStep, IdleStep, DrainStep, ExitStep, FinStep, CheckStep, NotifyStep, StopStep,
      PurgeStep, WaitStep, LookStep, FindStep;
  }

  lemma LocalOfGrow(sh: Shared, p: Pid, job: Job, g: GrowPc, ok: bool)
    requires LocalGiven(sh, p, job, Grow(g))
    ensures LocalHold(sh, p, job, Grow(g), GrowStep(sh, p, job, g, ok))
  {}

  lemma LocalOfExit(sh: Shared, p: Pid, job: Job, g: ExitPc)
    requires LocalGiven(sh, p, job, Exit(g))
    ensures LocalHold(sh, p, job, Exit(g), WithJob(ExitStep(sh, p, g), job))
  {}

  lemma LocalOfWorking(sh: Shared, p: Pid, job: Job, pc: Pc, ok: bool, past: Past)
    requires LocalGiven(sh, p, job, pc) && (pc.Work? || pc.Run?)
    ensures LocalHold(sh, p, job, pc, StepOf(sh, p, job, pc, ok, past))
  {
    hide SubStep, GrowStep, AccStep, PubStep, CutStep, IdleStep, DrainStep, ExitStep, FinStep, CheckStep, NotifyStep,
      StopStep, PurgeStep, WaitStep, LookStep, FindStep;
  }

  lemma LocalOfWaiting(sh: Shared, p: Pid, job: Job, pc: Pc, ok: bool, past: Past)
    requires LocalGiven(sh, p, job, pc) && (pc.Idle? || pc.Drain?)
    ensures LocalHold(sh, p, job, pc, StepOf(sh, p, job, pc, ok, past))
  {
    hide SubStep, GrowStep, AccStep, PubStep, CutStep, TakeStep, RunStep, ExitStep, FinStep, CheckStep, NotifyStep,
      StopStep, PurgeStep, WaitStep, LookStep, FindStep;
  }

  lemma LocalOfCancelling(sh: Shared, p: Pid, job: Job, pc: Pc, ok: bool, past: Past)
    requires LocalGiven(sh, p, job, pc) && (pc.Fin? || pc.Purge?)
    ensures LocalHold(sh, p, job, pc, StepOf(sh, p, job, pc, ok, past))
  {
    hide SubStep, GrowStep, AccStep, PubStep, CutStep, TakeStep, RunStep, IdleStep, DrainStep, ExitStep, CheckStep,
      NotifyStep, StopStep, WaitStep, LookStep, FindStep;
  }

  lemma LocalOfChecking(sh: Shared, p: Pid, job: Job, pc: Pc, ok: bool, past: Past)
    requires LocalGiven(sh, p, job, pc) && (pc.Check? || pc.NotifyLock? || pc.NotifyAll?)
    ensures LocalHold(sh, p, job, pc, StepOf(sh, p, job, pc, ok, past))
  {
    hide SubStep, GrowStep, AccStep, PubStep, CutStep, TakeStep, RunStep, IdleStep, DrainStep, ExitStep, FinStep,
      StopStep, PurgeStep, WaitStep, LookStep, FindStep;
  }

  lemma LocalOfStop(sh: Shared, p: Pid, job: Job, g: StopPc)
    requires LocalGiven(sh, p, job, Stop(g))
    ensures LocalHold(sh, p, job, Stop(g), WithJob(StopStep(sh, p, g), job))
  {}

  lemma LocalOfWait(sh: Shared, p: Pid, job: Job, g: WaitPc)
    requires LocalGiven(sh, p, job, Wait(g))
    ensures LocalHold(sh, p, job, Wait(g), WithJob(WaitStep(sh, p, g), job))
  {}

  lemma LocalOfTicketing(sh: Shared, p: Pid, job: Job, pc: Pc, ok: bool, past: Past)
    requires LocalGiven(sh, p, job, pc) && (pc.Look? || pc.Find?)
    ensures LocalHold(sh, p, job, pc, StepOf(sh, p, job, pc, ok, past))
  {
    hide SubStep, GrowStep, AccStep, PubStep, CutStep, TakeStep, RunStep, IdleStep, DrainStep, ExitStep, FinStep,
      CheckStep, NotifyStep, StopStep, PurgeStep, WaitStep, RemoveFirst;
  }

  lemma LocalOfStep(sh: Shared, p: Pid, job: Job, pc: Pc, ok: bool, past: Past)
    requires !Finished(pc) && LocalGiven(sh, p, job, pc)
    ensures LocalHold(sh, p, job, pc, StepOf(sh, p, job, pc, ok, past))
  {
    hide LocalGiven, LocalHold, SubStep, GrowStep, AccStep, PubStep, CutStep, TakeStep, RunStep, IdleStep, DrainStep,
      ExitStep, FinStep, CheckStep, NotifyStep, StopStep, PurgeStep, WaitStep, LookStep, FindStep;
    match pc {
      case Sub(_) | Acc(_) | Pub(_) | Cut(_) => LocalOfSubmission(sh, p, job, pc, ok, past);
      case Grow(g) => LocalOfGrow(sh, p, job, g, ok);
      case Exit(g) => LocalOfExit(sh, p, job, g);
      case Work(_) | Run(_, _) => LocalOfWorking(sh, p, job, pc, ok, past);
      case Idle(_) | Drain(_) => LocalOfWaiting(sh, p, job, pc, ok, past);
      case Fin(_, _, _) | Purge(_, _, _) => LocalOfCancelling(sh, p, job, pc, ok, past);
      case Check(_, _) | NotifyLock(_) | NotifyAll(_) => LocalOfChecking(sh, p, job, pc, ok, past);
      case Stop(g) => LocalOfStop(sh, p, job, g);
      case Wait(g) => LocalOfWait(sh, p, job, g);
      case Look(_, _, _) | Find(_, _) => LocalOfTicketing(sh, p, job, pc, ok, past);
      case _ =>
    }
  }

  // ----- No waiter is forgotten.

  predicate WatchGiven(sh: Shared, p: Pid, job: Job, pc: Pc) {
    && StageReady(sh, p, job, pc)
    && RetOk(p, pc)
    && GlobalOk(sh)
    && LocalOk(sh, pc)
    && Felt(sh, job, pc)
  }

  lemma WatchOfEarlySub(sh: Shared, p: Pid, job: Job, g: SubPc)
    requires WatchGiven(sh, p, job, Sub(g)) && (g.Enter? || g.SubLock? || g.Decide? || g.Slot? || g.Discard?)
    ensures WatchFollows(sh, Sub(g), SubStep(sh, p, job, g))
  {}

  lemma WatchOfLateSub(sh: Shared, p: Pid, job: Job, g: SubPc)
    requires WatchGiven(sh, p, job, Sub(g)) && !(g.Enter? || g.SubLock? || g.Decide? || g.Slot? || g.Discard?)
    ensures WatchFollows(sh, Sub(g), SubStep(sh, p, job, g))
  {}

  lemma WatchOfSub(sh: Shared, p: Pid, job: Job, g: SubPc)
    requires WatchGiven(sh, p, job, Sub(g))
    ensures WatchFollows(sh, Sub(g), SubStep(sh, p, job, g))
  {
    hide WatchGiven, WatchFollows, SubStep, Subject;
    if g.Enter? || g.SubLock? || g.Decide? || g.Slot? || g.Discard? {
      WatchOfEarlySub(sh, p, job, g);
    } else {
      WatchOfLateSub(sh, p, job, g);
    }
  }

  lemma WatchOfAcc(sh: Shared, p: Pid, job: Job, g: AccPc, ok: bool)
    requires WatchGiven(sh, p, job, Acc(g))
    ensures WatchFollows(sh, Acc(g), AccStep(sh, p, job, g, ok))
  {}

  lemma WatchOfPubAndCut(sh: Shared, p: Pid, job: Job, pc: Pc, ok: bool, past: Past)
    requires WatchGiven(sh, p, job, pc) && (pc.Pub? || pc.Cut?)
    ensures WatchFollows(sh, pc, StepOf(sh, p, job, pc, ok, past))
  {
    hide SubStep, GrowStep, AccStep, TakeStep, RunStep, IdleStep, DrainStep, ExitStep, FinStep, CheckStep, NotifyStep,
      StopStep, PurgeStep, WaitStep, LookStep, FindStep;
  }

  lemma WatchOfGrow(sh: Shared, p: Pid, job: Job, g: GrowPc, ok: bool)
    requires WatchGiven(sh, p, job, Grow(g))
    ensures WatchFollows(sh, Grow(g), GrowStep(sh, p, job, g, ok))
  {}

  lemma WatchOfExit(sh: Shared, p: Pid, job: Job, g: ExitPc)
    requires WatchGiven(sh, p, job, Exit(g))
    ensures WatchFollows(sh, Exit(g), WithJob(ExitStep(sh, p, g), job))
  {
    hide StageReady;
  }

  lemma WatchOfWork(sh: Shared, p: Pid, job: Job, g: TakePc)
    requires WatchGiven(sh, p, job, Work(g))
    ensures WatchFollows(sh, Work(g), TakeStep(sh, p, job, g))
  {}

  lemma WatchOfRun(sh: Shared, p: Pid, job: Job, g: RunPc, j: Pid)
    requires WatchGiven(sh, p, job, Run(g, j))
    ensures WatchFollows(sh, Run(g, j), RunStep(sh, job, g, j))
  {}

  lemma WatchOfIdle(sh: Shared, p: Pid, job: Job, g: IdlePc)
    requires WatchGiven(sh, p, job, Idle(g))
    ensures WatchFollows(sh, Idle(g), WithJob(IdleStep(sh, p, g), job))
  {
    hide StageReady;
  }

  lemma WatchOfDrain(sh: Shared, p: Pid, job: Job, g: DrainPc, past: Past)
    requires WatchGiven(sh, p, job, Drain(g))
    ensures WatchFollows(sh, Drain(g), WithJob(DrainStep(sh, p, g, past), job))
  {
    hide StageReady;
  }

  lemma WatchOfFin(sh: Shared, p: Pid, job: Job, g: FinPc, j: Pid, ret: Ret)
    requires WatchGiven(sh, p, job, Fin(g, j, ret))
    ensures WatchFollows(sh, Fin(g, j, ret), FinStep(sh, job, g, j, ret))
  {}

  lemma WatchOfPurge(sh: Shared, p: Pid, job: Job, g: PurgePc, list: seq<Pid>, j: Pid)
    requires WatchGiven(sh, p, job, Purge(g, list, j))
    ensures WatchFollows(sh, Purge(g, list, j), PurgeStep(sh, p, job, g, list, j))
  {}

  lemma WatchOfCheckHeld(sh: Shared, p: Pid, job: Job, g: Loads, ret: Ret, past: Past)
    requires WatchGiven(sh, p, job, Check(g, ret)) && InMonitor(ret)
    ensures WatchFollows(sh, Check(g, ret), WithJob(CheckStep(sh, g, ret, past), job))
  {
    hide StageReady;
  }

  lemma WatchOfCheckFree(sh: Shared, p: Pid, job: Job, g: Loads, ret: Ret, past: Past)
    requires WatchGiven(sh, p, job, Check(g, ret)) && !InMonitor(ret)
    ensures WatchFollows(sh, Check(g, ret), WithJob(CheckStep(sh, g, ret, past), job))
  {
    hide StageReady;
  }

  lemma WatchOfCheck(sh: Shared, p: Pid, job: Job, g: Loads, ret: Ret, past: Past)
    requires WatchGiven(sh, p, job, Check(g, ret))
    ensures WatchFollows(sh, Check(g, ret), WithJob(CheckStep(sh, g, ret, past), job))
  {
    hide WatchGiven, WatchFollows, CheckStep, Subject;
    if InMonitor(ret) {
      WatchOfCheckHeld(sh, p, job, g, ret, past);
    } else {
      WatchOfCheckFree(sh, p, job, g, ret, past);
    }
  }

  lemma WatchOfNotify(sh: Shared, p: Pid, job: Job, g: bool, ret: Ret)
    requires WatchGiven(sh, p, job, NotifyAt(g, ret))
    ensures WatchFollows(sh, NotifyAt(g, ret), WithJob(NotifyStep(sh, p, g, ret), job))
  {
    hide StageReady;
  }

  lemma WatchOfEarlyStop(sh: Shared, p: Pid, job: Job, g: StopPc)
    requires WatchGiven(sh, p, job, Stop(g))
             && (g.StopClose? || g.StopFlag? || g.StopLock? || g.StopLife? || g.StopTest? || g.StopWaitAdd?)
    ensures WatchFollows(sh, Stop(g), WithJob(StopStep(sh, p, g), job))
  {
    hide StageReady, Felt;
  }

  lemma WatchOfLateStop(sh: Shared, p: Pid, job: Job, g: StopPc)
    requires WatchGiven(sh, p, job, Stop(g))
             && !(g.StopClose? || g.StopFlag? || g.StopLock? || g.StopLife? || g.StopTest? || g.StopWaitAdd?)
    ensures WatchFollows(sh, Stop(g), WithJob(StopStep(sh, p, g), job))
  {
    hide StageReady, Felt;
  }

  lemma WatchOfStop(sh: Shared, p: Pid, job: Job, g: StopPc)
    requires WatchGiven(sh, p, job, Stop(g))
    ensures WatchFollows(sh, Stop(g), WithJob(StopStep(sh, p, g), job))
  {
    hide WatchGiven, WatchFollows, StopStep, Subject;
    if g.StopClose? || g.StopFlag? || g.StopLock? || g.StopLife? || g.StopTest? || g.StopWaitAdd? {
      WatchOfEarlyStop(sh, p, job, g);
    } else {
      WatchOfLateStop(sh, p, job, g);
    }
  }

  lemma WatchOfEarlyWait(sh: Shared, p: Pid, job: Job, g: WaitPc)
    requires WatchGiven(sh, p, job, Wait(g)) && ShutsOrJoins(g)
    ensures WatchFollows(sh, Wait(g), WithJob(WaitStep(sh, p, g), job))
  {
    hide StageReady, Felt;
  }

  lemma WatchOfLateWait(sh: Shared, p: Pid, job: Job, g: WaitPc)
    requires WatchGiven(sh, p, job, Wait(g)) && !ShutsOrJoins(g)
    ensures WatchFollows(sh, Wait(g), WithJob(WaitStep(sh, p, g), job))
  {
    hide StageReady, Felt;
  }

  lemma WatchOfWait(sh: Shared, p: Pid, job: Job, g: WaitPc)
    requires WatchGiven(sh, p, job, Wait(g))
    ensures WatchFollows(sh, Wait(g), WithJob(WaitStep(sh, p, g), job))
  {
    hide WatchGiven, WatchFollows, WaitStep, Subject;
    if ShutsOrJoins(g) {
      WatchOfEarlyWait(sh, p, job, g);
    } else {
      WatchOfLateWait(sh, p, job, g);
    }
  }

  lemma WatchOfTicketing(sh: Shared, p: Pid, job: Job, pc: Pc, ok: bool, past: Past)
    requires WatchGiven(sh, p, job, pc) && (pc.Look? || pc.Find?)
    ensures WatchFollows(sh, pc, StepOf(sh, p, job, pc, ok, past))
  {
    hide SubStep, GrowStep, AccStep, PubStep, CutStep, TakeStep, RunStep, IdleStep, DrainStep, ExitStep, FinStep,
      CheckStep, NotifyStep, StopStep, PurgeStep, WaitStep, RemoveFirst;
  }

  lemma WatchOfStep(sh: Shared, p: Pid, job: Job, pc: Pc, ok: bool, past: Past)
    requires !Finished(pc) && WatchGiven(sh, p, job, pc)
    ensures WatchFollows(sh, pc, StepOf(sh, p, job, pc, ok, past))
  {
    hide WatchGiven, WatchFollows, SubStep, GrowStep, AccStep, PubStep, CutStep, TakeStep, RunStep, IdleStep,
      DrainStep, ExitStep, FinStep, CheckStep, NotifyStep, StopStep, PurgeStep, WaitStep, LookStep, FindStep;
    match pc {
      case Sub(g) => WatchOfSub(sh, p, job, g);
      case Acc(g) => WatchOfAcc(sh, p, job, g, ok);
      case Pub(_) | Cut(_) => WatchOfPubAndCut(sh, p, job, pc, ok, past);
      case Grow(g) => WatchOfGrow(sh, p, job, g, ok);
      case Exit(g) => WatchOfExit(sh, p, job, g);
      case Work(g) => WatchOfWork(sh, p, job, g);
      case Run(g, j) => WatchOfRun(sh, p, job, g, j);
      case Idle(g) => WatchOfIdle(sh, p, job, g);
      case Drain(g) => WatchOfDrain(sh, p, job, g, past);
      case Fin(g, j, ret) => WatchOfFin(sh, p, job, g, j, ret);
      case Purge(g, list, j) => WatchOfPurge(sh, p, job, g, list, j);
      case Check(g, ret) => WatchOfCheck(sh, p, job, g, ret, past);
      case NotifyLock(ret) => WatchOfNotify(sh, p, job, false, ret);
      case NotifyAll(ret) => WatchOfNotify(sh, p, job, true, ret);
      case Stop(g) => WatchOfStop(sh, p, job, g);
      case Wait(g) => WatchOfWait(sh, p, job, g);
      case Look(_, _, _) | Find(_, _) => WatchOfTicketing(sh, p, job, pc, ok, past);
      case _ =>
    }
  }
}
