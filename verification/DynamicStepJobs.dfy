/** Each atomic step against the job it works on, group by group of positions. */
module DynamicStepJobs {
  import opened PoolTypes
  import opened PoolAccounting
  import opened PoolShared
  import opened DynamicPool
  import opened DynamicRun
  import opened DynamicFacts

  // ----- The entry makes its moves in step with the stage of its job.

  predicate EntryGiven(sh: Shared, p: Pid, job: Job, pc: Pc) {
    && StageReady(sh, p, job, pc)
    && OwnReady(pc, job)
    && EntryOk(job)
  }

  predicate EntryHold(sh: Shared, p: Pid, job: Job, pc: Pc, step: Step) {
    && EntryOk(step.job)
    && EntryEdge(job.entry, step.job.entry)
    && EntryWatchFollows(sh, p, job, pc, step)
  }

  lemma EntryOfSub(sh: Shared, p: Pid, job: Job, g: SubPc)
    requires EntryGiven(sh, p, job, Sub(g))
    ensures EntryHold(sh, p, job, Sub(g), SubStep(sh, p, job, g))
  {}

  lemma EntryOfAcc(sh: Shared, p: Pid, job: Job, g: AccPc, ok: bool)
    requires EntryGiven(sh, p, job, Acc(g))
    ensures EntryHold(sh, p, job, Acc(g), AccStep(sh, p, job, g, ok))
  {}

  lemma EntryOfPubAndCut(sh: Shared, p: Pid, job: Job, pc: Pc, ok: bool, past: Past)
    requires EntryGiven(sh, p, job, pc) && (pc.Pub? || pc.Cut?)
    ensures EntryHold(sh, p, job, pc, StepOf(sh, p, job, pc, ok, past))
  {
    hide SubStep, GrowStep, AccStep, TakeStep, RunStep, IdleStep, DrainStep, ExitStep, FinStep, CheckStep, NotifyStep,
      StopStep, PurgeStep, WaitStep, LookStep, FindStep;
  }

  lemma EntryOfGrowth(sh: Shared, p: Pid, job: Job, pc: Pc, ok: bool, past: Past)
    requires EntryGiven(sh, p, job, pc) && (pc.Grow? || pc.Exit?)
    ensures EntryHold(sh, p, job, pc, StepOf(sh, p, job, pc, ok, past))
  {
    hide SubStep, AccStep, PubStep, CutStep, TakeStep, RunStep, IdleStep, DrainStep, FinStep, CheckStep, NotifyStep,
      StopStep, PurgeStep, WaitStep, LookStep, FindStep;
  }

  lemma EntryOfWork(sh: Shared, p: Pid, job: Job, g: TakePc)
    requires EntryGiven(sh, p, job, Work(g))
    ensures EntryHold(sh, p, job, Work(g), TakeStep(sh, p, job, g))
  {
    hide OwnReady;
  }

  lemma EntryOfRun(sh: Shared, p: Pid, job: Job, g: RunPc, j: Pid)
    requires EntryGiven(sh, p, job, Run(g, j))
    ensures EntryHold(sh, p, job, Run(g, j), RunStep(sh, job, g, j))
  {}

  lemma EntryOfWaiting(sh: Shared, p: Pid, job: Job, pc: Pc, ok: bool, past: Past)
    requires EntryGiven(sh, p, job, pc) && (pc.Idle? || pc.Drain?)
    ensures EntryHold(sh, p, job, pc, StepOf(sh, p, job, pc, ok, past))
  {
    hide SubStep, GrowStep, AccStep, PubStep, CutStep, TakeStep, RunStep, ExitStep, FinStep, CheckStep, NotifyStep,
      StopStep, PurgeStep, WaitStep, LookStep, FindStep;
  }

  lemma EntryOfFin(sh: Shared, p: Pid, job: Job, g: FinPc, j: Pid, ret: Ret)
    requires EntryGiven(sh, p, job, Fin(g, j, ret))
    ensures EntryHold(sh, p, job, Fin(g, j, ret), FinStep(sh, job, g, j, ret))
  {}

  lemma EntryOfPurge(sh: Shared, p: Pid, job: Job, g: PurgePc, list: seq<Pid>, j: Pid)
    requires EntryGiven(sh, p, job, Purge(g, list, j))
    ensures EntryHold(sh, p, job, Purge(g, list, j), PurgeStep(sh, p, job, g, list, j))
  {
    hide OwnReady;
  }

  lemma EntryOfChecking(sh: Shared, p: Pid, job: Job, pc: Pc, ok: bool, past: Past)
    requires EntryGiven(sh, p, job, pc) && (pc.Check? || pc.NotifyLock? || pc.NotifyAll?)
    ensures EntryHold(sh, p, job, pc, StepOf(sh, p, job, pc, ok, past))
  {
    hide SubStep, GrowStep, AccStep, PubStep, CutStep, TakeStep, RunStep, IdleStep, DrainStep, ExitStep, FinStep,
      StopStep, PurgeStep, WaitStep, LookStep, FindStep;
  }

  lemma EntryOfCalling(sh: Shared, p: Pid, job: Job, pc: Pc, ok: bool, past: Past)
    requires EntryGiven(sh, p, job, pc) && (pc.Stop? || pc.Wait?)
    ensures EntryHold(sh, p, job, pc, StepOf(sh, p, job, pc, ok, past))
  {
    hide SubStep, GrowStep, AccStep, PubStep, CutStep, TakeStep, RunStep, IdleStep, DrainStep, ExitStep, FinStep,
      CheckStep, NotifyStep, PurgeStep, LookStep, FindStep;
  }

  lemma EntryOfLook(sh: Shared, p: Pid, job: Job, g: LookPc, j: Pid, thread: nat)
    requires EntryGiven(sh, p, job, Look(g, j, thread))
    ensures EntryHold(sh, p, job, Look(g, j, thread), LookStep(sh, p, job, g, j, thread))
  {}

  lemma EntryOfFind(sh: Shared, p: Pid, job: Job, g: FindPc, j: Pid)
    requires EntryGiven(sh, p, job, Find(g, j))
    ensures EntryHold(sh, p, job, Find(g, j), FindStep(sh, p, job, g, j))
  {
    hide OwnReady, RemoveFirst;
  }

  lemma EntryOfStep(sh: Shared, p: Pid, job: Job, pc: Pc, ok: bool, past: Past)
    requires !Finished(pc) && EntryGiven(sh, p, job, pc)
    ensures EntryHold(sh, p, job, pc, StepOf(sh, p, job, pc, ok, past))
  {
    hide EntryGiven, EntryHold, SubStep, GrowStep, AccStep, PubStep, CutStep, TakeStep, RunStep, IdleStep, DrainStep,
      ExitStep, FinStep, CheckStep, NotifyStep, StopStep, PurgeStep, WaitStep, LookStep, FindStep;
    match pc {
      case Sub(g) => EntryOfSub(sh, p, job, g);
      case Acc(g) => EntryOfAcc(sh, p, job, g, ok);
      case Pub(_) | Cut(_) => EntryOfPubAndCut(sh, p, job, pc, ok, past);
      case Grow(_) | Exit(_) => EntryOfGrowth(sh, p, job, pc, ok, past);
      case Work(g) => EntryOfWork(sh, p, job, g);
      case Run(g, j) => EntryOfRun(sh, p, job, g, j);
      case Idle(_) | Drain(_) => EntryOfWaiting(sh, p, job, pc, ok, past);
      case Fin(g, j, ret) => EntryOfFin(sh, p, job, g, j, ret);
      case Purge(g, list, j) => EntryOfPurge(sh, p, job, g, list, j);
      case Check(_, _) | NotifyLock(_) | NotifyAll(_) => EntryOfChecking(sh, p, job, pc, ok, past);
      case Stop(_) | Wait(_) => EntryOfCalling(sh, p, job, pc, ok, past);
      case Look(g, j, thread) => EntryOfLook(sh, p, job, g, j, thread);
      case Find(g, j) => EntryOfFind(sh, p, job, g, j);
      case _ =>
    }
  }

  // ----- A job moves along its stages, and its callbacks are counted once.

  predicate StagesGiven(sh: Shared, p: Pid, job: Job, pc: Pc) {
    && StageReady(sh, p, job, pc)
    && EntryOk(job)
    && CallsOk(job)
  }

  predicate StagesHold(sh: Shared, p: Pid, job: Job, pc: Pc, step: Step) {
    && StageEdge(job.stage, step.job.stage)
    && (job.handoff ==> step.job.handoff)
    && CallsOk(step.job)
  }

  lemma StagesOfSub(sh: Shared, p: Pid, job: Job, g: SubPc)
    requires StagesGiven(sh, p, job, Sub(g))
    ensures StagesHold(sh, p, job, Sub(g), SubStep(sh, p, job, g))
  {}

  lemma StagesOfAcc(sh: Shared, p: Pid, job: Job, g: AccPc, ok: bool)
    requires StagesGiven(sh, p, job, Acc(g))
    ensures StagesHold(sh, p, job, Acc(g), AccStep(sh, p, job, g, ok))
  {}

  lemma StagesOfEarlyPub(sh: Shared, p: Pid, job: Job, g: PubPc)
    requires StagesGiven(sh, p, job, Pub(g)) && (g.QueueLock? || g.CountSubmitted? || g.CountQueued?)
    ensures StagesHold(sh, p, job, Pub(g), PubStep(sh, p, job, g))
  {}

  lemma StagesOfLatePub(sh: Shared, p: Pid, job: Job, g: PubPc)
    requires StagesGiven(sh, p, job, Pub(g)) && !(g.QueueLock? || g.CountSubmitted? || g.CountQueued?)
    ensures StagesHold(sh, p, job, Pub(g), PubStep(sh, p, job, g))
  {}

  lemma StagesOfPub(sh: Shared, p: Pid, job: Job, g: PubPc)
    requires StagesGiven(sh, p, job, Pub(g))
    ensures StagesHold(sh, p, job, Pub(g), PubStep(sh, p, job, g))
  {
    hide StagesGiven, StagesHold, PubStep, Subject;
    if g.QueueLock? || g.CountSubmitted? || g.CountQueued? {
      StagesOfEarlyPub(sh, p, job, g);
    } else {
      StagesOfLatePub(sh, p, job, g);
    }
  }

  lemma StagesOfCut(sh: Shared, p: Pid, job: Job, g: CutPc)
    requires StagesGiven(sh, p, job, Cut(g))
    ensures StagesHold(sh, p, job, Cut(g), CutStep(sh, p, job, g))
  {}

  lemma StagesOfGrowth(sh: Shared, p: Pid, job: Job, pc: Pc, ok: bool, past: Past)
    requires StagesGiven(sh, p, job, pc) && (pc.Grow? || pc.Exit?)
    ensures StagesHold(sh, p, job, pc, StepOf(sh, p, job, pc, ok, past))
  {
    hide SubStep, AccStep, PubStep, CutStep, TakeStep, RunStep, IdleStep, DrainStep, FinStep, CheckStep, NotifyStep,
      StopStep, PurgeStep, WaitStep, LookStep, FindStep;
  }

  lemma StagesOfEarlyWork(sh: Shared, p: Pid, job: Job, g: TakePc)
    requires StagesGiven(sh, p, job, Work(g))
             && (g.Start? || g.TakeLock? || g.TakeStop? || g.TakePop? || g.TakeEntryLock? || g.TakeEntry?)
    ensures StagesHold(sh, p, job, Work(g), TakeStep(sh, p, job, g))
  {}

  lemma StagesOfLateWork(sh: Shared, p: Pid, job: Job, g: TakePc)
    requires StagesGiven(sh, p, job, Work(g))
             && !(g.Start? || g.TakeLock? || g.TakeStop? || g.TakePop? || g.TakeEntryLock? || g.TakeEntry?)
    ensures StagesHold(sh, p, job, Work(g), TakeStep(sh, p, job, g))
  {}

  lemma StagesOfWork(sh: Shared, p: Pid, job: Job, g: TakePc)
    requires StagesGiven(sh, p, job, Work(g))
    ensures StagesHold(sh, p, job, Work(g), TakeStep(sh, p, job, g))
  {
    hide StagesGiven, StagesHold, TakeStep, Subject;
    if g.Start? || g.TakeLock? || g.TakeStop? || g.TakePop? || g.TakeEntryLock? || g.TakeEntry? {
      StagesOfEarlyWork(sh, p, job, g);
    } else {
      StagesOfLateWork(sh, p, job, g);
    }
  }

  lemma StagesOfRun(sh: Shared, p: Pid, job: Job, g: RunPc, j: Pid)
    requires StagesGiven(sh, p, job, Run(g, j))
    ensures StagesHold(sh, p, job, Run(g, j), RunStep(sh, job, g, j))
  {}

  lemma StagesOfWaiting(sh: Shared, p: Pid, job: Job, pc: Pc, ok: bool, past: Past)
    requires StagesGiven(sh, p, job, pc) && (pc.Idle? || pc.Drain?)
    ensures StagesHold(sh, p, job, pc, StepOf(sh, p, job, pc, ok, past))
  {
    hide SubStep, GrowStep, AccStep, PubStep, CutStep, TakeStep, RunStep, ExitStep, FinStep, CheckStep, NotifyStep,
      StopStep, PurgeStep, WaitStep, LookStep, FindStep;
  }

  lemma StagesOfFin(sh: Shared, p: Pid, job: Job, g: FinPc, j: Pid, ret: Ret)
    requires StagesGiven(sh, p, job, Fin(g, j, ret))
    ensures StagesHold(sh, p, job, Fin(g, j, ret), FinStep(sh, job, g, j, ret))
  {}

  lemma StagesOfEarlyPurge(sh: Shared, p: Pid, job: Job, g: PurgePc, list: seq<Pid>, j: Pid)
    requires StagesGiven(sh, p, job, Purge(g, list, j)) && (g.StopPop? || g.StopEntryLock? || g.StopEntry?)
    ensures StagesHold(sh, p, job, Purge(g, list, j), PurgeStep(sh, p, job, g, list, j))
  {}

  lemma StagesOfLatePurge(sh: Shared, p: Pid, job: Job, g: PurgePc, list: seq<Pid>, j: Pid)
    requires StagesGiven(sh, p, job, Purge(g, list, j)) && !(g.StopPop? || g.StopEntryLock? || g.StopEntry?)
    ensures StagesHold(sh, p, job, Purge(g, list, j), PurgeStep(sh, p, job, g, list, j))
  {}

  lemma StagesOfPurge(sh: Shared, p: Pid, job: Job, g: PurgePc, list: seq<Pid>, j: Pid)
    requires StagesGiven(sh, p, job, Purge(g, list, j))
    ensures StagesHold(sh, p, job, Purge(g, list, j), PurgeStep(sh, p, job, g, list, j))
  {
    hide StagesGiven, StagesHold, PurgeStep, Subject;
    if g.StopPop? || g.StopEntryLock? || g.StopEntry? {
      StagesOfEarlyPurge(sh, p, job, g, list, j);
    } else {
      StagesOfLatePurge(sh, p, job, g, list, j);
    }
  }

  lemma StagesOfChecking(sh: Shared, p: Pid, job: Job, pc: Pc, ok: bool, past: Past)
    requires StagesGiven(sh, p, job, pc) && (pc.Check? || pc.NotifyLock? || pc.NotifyAll?)
    ensures StagesHold(sh, p, job, pc, StepOf(sh, p, job, pc, ok, past))
  {
    hide SubStep, GrowStep, AccStep, PubStep, CutStep, TakeStep, RunStep, IdleStep, DrainStep, ExitStep, FinStep,
      StopStep, PurgeStep, WaitStep, LookStep, FindStep;
  }

  lemma StagesOfCalling(sh: Shared, p: Pid, job: Job, pc: Pc, ok: bool, past: Past)
    requires StagesGiven(sh, p, job, pc) && (pc.Stop? || pc.Wait?)
    ensures StagesHold(sh, p, job, pc, StepOf(sh, p, job, pc, ok, past))
  {
    hide SubStep, GrowStep, AccStep, PubStep, CutStep, TakeStep, RunStep, IdleStep, DrainStep, ExitStep, FinStep,
      CheckStep, NotifyStep, PurgeStep, LookStep, FindStep;
  }

  lemma StagesOfEarlyLook(sh: Shared, p: Pid, job: Job, g: LookPc, j: Pid, thread: nat)
    requires StagesGiven(sh, p, job, Look(g, j, thread)) && (g.LookLock? || g.LookEntry?)
    ensures StagesHold(sh, p, job, Look(g, j, thread), LookStep(sh, p, job, g, j, thread))
  {}

  lemma StagesOfLateLook(sh: Shared, p: Pid, job: Job, g: LookPc, j: Pid, thread: nat)
    requires StagesGiven(sh, p, job, Look(g, j, thread)) && !(g.LookLock? || g.LookEntry?)
    ensures StagesHold(sh, p, job, Look(g, j, thread), LookStep(sh, p, job, g, j, thread))
  {}

  lemma StagesOfLook(sh: Shared, p: Pid, job: Job, g: LookPc, j: Pid, thread: nat)
    requires StagesGiven(sh, p, job, Look(g, j, thread))
    ensures StagesHold(sh, p, job, Look(g, j, thread), LookStep(sh, p, job, g, j, thread))
  {
    hide StagesGiven, StagesHold, LookStep, Subject;
    if g.LookLock? || g.LookEntry? {
      StagesOfEarlyLook(sh, p, job, g, j, thread);
    } else {
      StagesOfLateLook(sh, p, job, g, j, thread);
    }
  }

  lemma StagesOfFind(sh: Shared, p: Pid, job: Job, g: FindPc, j: Pid)
    requires StagesGiven(sh, p, job, Find(g, j))
    ensures StagesHold(sh, p, job, Find(g, j), FindStep(sh, p, job, g, j))
  {
    hide RemoveFirst;
  }

  lemma StagesOfStep(sh: Shared, p: Pid, job: Job, pc: Pc, ok: bool, past: Past)
    requires !Finished(pc) && StagesGiven(sh, p, job, pc)
    ensures StagesHold(sh, p, job, pc, StepOf(sh, p, job, pc, ok, past))
  {
    hide StagesGiven, StagesHold, SubStep, GrowStep, AccStep, PubStep, CutStep, TakeStep, RunStep, IdleStep, DrainStep,
      ExitStep, FinStep, CheckStep, NotifyStep, StopStep, PurgeStep, WaitStep, LookStep, FindStep;
    match pc {
      case Sub(g) => StagesOfSub(sh, p, job, g);
      case Acc(g) => StagesOfAcc(sh, p, job, g, ok);
      case Pub(g) => StagesOfPub(sh, p, job, g);
      case Cut(g) => StagesOfCut(sh, p, job, g);
      case Grow(_) | Exit(_) => StagesOfGrowth(sh, p, job, pc, ok, past);
      case Work(g) => StagesOfWork(sh, p, job, g);
      case Run(g, j) => StagesOfRun(sh, p, job, g, j);
      case Idle(_) | Drain(_) => StagesOfWaiting(sh, p, job, pc, ok, past);
      case Fin(g, j, ret) => StagesOfFin(sh, p, job, g, j, ret);
      case Purge(g, list, j) => StagesOfPurge(sh, p, job, g, list, j);
      case Check(_, _) | NotifyLock(_) | NotifyAll(_) => StagesOfChecking(sh, p, job, pc, ok, past);
      case Stop(_) | Wait(_) => StagesOfCalling(sh, p, job, pc, ok, past);
      case Look(g, j, thread) => StagesOfLook(sh, p, job, g, j, thread);
      case Find(g, j) => StagesOfFind(sh, p, job, g, j);
      case _ =>
    }
  }

  // ----- A submission keeps track of its own job.

  predicate OwnGiven(sh: Shared, p: Pid, job: Job, pc: Pc) {
    && StageReady(sh, p, job, pc)
    && OwnReady(pc, job)
    && EntryOk(job)
  }

  lemma OwnOfSubAndAcc(sh: Shared, p: Pid, job: Job, pc: Pc, ok: bool, past: Past)
    requires OwnGiven(sh, p, job, pc) && (pc.Sub? || pc.Acc?)
    ensures OwnJobFollows(pc, StepOf(sh, p, job, pc, ok, past))
  {
    hide GrowStep, PubStep, CutStep, TakeStep, RunStep, IdleStep, DrainStep, ExitStep, FinStep, CheckStep, NotifyStep,
      StopStep, PurgeStep, WaitStep, LookStep, FindStep;
  }

  lemma OwnOfPubAndCut(sh: Shared, p: Pid, job: Job, pc: Pc, ok: bool, past: Past)
    requires OwnGiven(sh, p, job, pc) && (pc.Pub? || pc.Cut?)
    ensures OwnJobFollows(pc, StepOf(sh, p, job, pc, ok, past))
  {
    hide SubStep, GrowStep, AccStep, TakeStep, RunStep, IdleStep, DrainStep, ExitStep, FinStep, CheckStep, NotifyStep,
      StopStep, PurgeStep, WaitStep, LookStep, FindStep;
  }

  lemma OwnOfGrowth(sh: Shared, p: Pid, job: Job, pc: Pc, ok: bool, past: Past)
    requires OwnGiven(sh, p, job, pc) && (pc.Grow? || pc.Exit?)
    ensures OwnJobFollows(pc, StepOf(sh, p, job, pc, ok, past))
  {
    hide SubStep, AccStep, PubStep, CutStep, TakeStep, RunStep, IdleStep, DrainStep, FinStep, CheckStep, NotifyStep,
      StopStep, PurgeStep, WaitStep, LookStep, FindStep;
  }

  lemma OwnOfWorking(sh: Shared, p: Pid, job: Job, pc: Pc, ok: bool, past: Past)
    requires OwnGiven(sh, p, job, pc) && (pc.Work? || pc.Run?)
    ensures OwnJobFollows(pc, StepOf(sh, p, job, pc, ok, past))
  {
    hide SubStep, GrowStep, AccStep, PubStep, CutStep, IdleStep, DrainStep, ExitStep, FinStep, CheckStep, NotifyStep,
      StopStep, PurgeStep, WaitStep, LookStep, FindStep;
  }

  lemma OwnOfWaiting(sh: Shared, p: Pid, job: Job, pc: Pc, ok: bool, past: Past)
    requires OwnGiven(sh, p, job, pc) && (pc.Idle? || pc.Drain?)
    ensures OwnJobFollows(pc, StepOf(sh, p, job, pc, ok, past))
  {
    hide SubStep, GrowStep, AccStep, PubStep, CutStep, TakeStep, RunStep, ExitStep, FinStep, CheckStep, NotifyStep,
      StopStep, PurgeStep, WaitStep, LookStep, FindStep;
  }

  lemma OwnOfCancelling(sh: Shared, p: Pid, job: Job, pc: Pc, ok: bool, past: Past)
    requires OwnGiven(sh, p, job, pc) && (pc.Fin? || pc.Purge?)
    ensures OwnJobFollows(pc, StepOf(sh, p, job, pc, ok, past))
  {
    hide SubStep, GrowStep, AccStep, PubStep, CutStep, TakeStep, RunStep, IdleStep, DrainStep, ExitStep, CheckStep,
      NotifyStep, StopStep, WaitStep, LookStep, FindStep;
  }

  lemma OwnOfChecking(sh: Shared, p: Pid, job: Job, pc: Pc, ok: bool, past: Past)
    requires OwnGiven(sh, p, job, pc) && (pc.Check? || pc.NotifyLock? || pc.NotifyAll?)
    ensures OwnJobFollows(pc, StepOf(sh, p, job, pc, ok, past))
  {
    hide SubStep, GrowStep, AccStep, PubStep, CutStep, TakeStep, RunStep, IdleStep, DrainStep, ExitStep, FinStep,
      StopStep, PurgeStep, WaitStep, LookStep, FindStep;
  }

  lemma OwnOfCalling(sh: Shared, p: Pid, job: Job, pc: Pc, ok: bool, past: Past)
    requires OwnGiven(sh, p, job, pc) && (pc.Stop? || pc.Wait?)
    ensures OwnJobFollows(pc, StepOf(sh, p, job, pc, ok, past))
  {
    hide SubStep, GrowStep, AccStep, PubStep, CutStep, TakeStep, RunStep, IdleStep, DrainStep, ExitStep, FinStep,
      CheckStep, NotifyStep, PurgeStep, LookStep, FindStep;
  }

  lemma OwnOfTicketing(sh: Shared, p: Pid, job: Job, pc: Pc, ok: bool, past: Past)
    requires OwnGiven(sh, p, job, pc) && (pc.Look? || pc.Find?)
    ensures OwnJobFollows(pc, StepOf(sh, p, job, pc, ok, past))
  {
    hide SubStep, GrowStep, AccStep, PubStep, CutStep, TakeStep, RunStep, IdleStep, DrainStep, ExitStep, FinStep,
      CheckStep, NotifyStep, StopStep, PurgeStep, WaitStep, RemoveFirst;
  }

  lemma OwnOfStep(sh: Shared, p: Pid, job: Job, pc: Pc, ok: bool, past: Past)
    requires !Finished(pc) && OwnGiven(sh, p, job, pc)
    ensures OwnJobFollows(pc, StepOf(sh, p, job, pc, ok, past))
  {
    hide OwnGiven, OwnJobFollows, StepOf;
    match pc {
      case Sub(_) | Acc(_) => OwnOfSubAndAcc(sh, p, job, pc, ok, past);
      case Pub(_) | Cut(_) => OwnOfPubAndCut(sh, p, job, pc, ok, past);
      case Grow(_) | Exit(_) => OwnOfGrowth(sh, p, job, pc, ok, past);
      case Work(_) | Run(_, _) => OwnOfWorking(sh, p, job, pc, ok, past);
      case Idle(_) | Drain(_) => OwnOfWaiting(sh, p, job, pc, ok, past);
      case Fin(_, _, _) | Purge(_, _, _) => OwnOfCancelling(sh, p, job, pc, ok, past);
      case Check(_, _) | NotifyLock(_) | NotifyAll(_) => OwnOfChecking(sh, p, job, pc, ok, past);
      case Stop(_) | Wait(_) => OwnOfCalling(sh, p, job, pc, ok, past);
      case Look(_, _, _) | Find(_, _) => OwnOfTicketing(sh, p, job, pc, ok, past);
      case _ =>
    }
  }

  // ----- Custody passes between queue and hands.

  predicate CustodyGiven(sh: Shared, p: Pid, job: Job, pc: Pc) {
    && StageReady(sh, p, job, pc)
    && EntryOk(job)
    && (HandStage(pc).Some? ==> job.holder == Some(p))
  }

  lemma CustodyOfSub(sh: Shared, p: Pid, job: Job, g: SubPc)
    requires CustodyGiven(sh, p, job, Sub(g))
    ensures CustodyFollows(p, Subject(sh, p, Sub(g)), job, Sub(g), SubStep(sh, p, job, g))
  {}

  lemma CustodyOfAcc(sh: Shared, p: Pid, job: Job, g: AccPc, ok: bool)
    requires CustodyGiven(sh, p, job, Acc(g))
    ensures CustodyFollows(p, Subject(sh, p, Acc(g)), job, Acc(g), AccStep(sh, p, job, g, ok))
  {}

  lemma CustodyOfPubAndCut(sh: Shared, p: Pid, job: Job, pc: Pc, ok: bool, past: Past)
    requires CustodyGiven(sh, p, job, pc) && (pc.Pub? || pc.Cut?)
    ensures CustodyFollows(p, Subject(sh, p, pc), job, pc, StepOf(sh, p, job, pc, ok, past))
  {
    hide SubStep, GrowStep, AccStep, TakeStep, RunStep, IdleStep, DrainStep, ExitStep, FinStep, CheckStep, NotifyStep,
      StopStep, PurgeStep, WaitStep, LookStep, FindStep;
  }

  lemma CustodyOfGrowth(sh: Shared, p: Pid, job: Job, pc: Pc, ok: bool, past: Past)
    requires CustodyGiven(sh, p, job, pc) && (pc.Grow? || pc.Exit?)
    ensures CustodyFollows(p, Subject(sh, p, pc), job, pc, StepOf(sh, p, job, pc, ok, past))
  {
    hide SubStep, AccStep, PubStep, CutStep, TakeStep, RunStep, IdleStep, DrainStep, FinStep, CheckStep, NotifyStep,
      StopStep, PurgeStep, WaitStep, LookStep, FindStep;
  }

  lemma CustodyOfEarlyWork(sh: Shared, p: Pid, job: Job, g: TakePc)
    requires CustodyGiven(sh, p, job, Work(g))
             && (g.Start? || g.TakeLock? || g.TakeStop? || g.TakePop? || g.TakeEntryLock? || g.TakeEntry?)
    ensures CustodyFollows(p, Subject(sh, p, Work(g)), job, Work(g), TakeStep(sh, p, job, g))
  {}

  lemma CustodyOfLateWork(sh: Shared, p: Pid, job: Job, g: TakePc)
    requires CustodyGiven(sh, p, job, Work(g))
             && !(g.Start? || g.TakeLock? || g.TakeStop? || g.TakePop? || g.TakeEntryLock? || g.TakeEntry?)
    ensures CustodyFollows(p, Subject(sh, p, Work(g)), job, Work(g), TakeStep(sh, p, job, g))
  {}

  lemma CustodyOfWork(sh: Shared, p: Pid, job: Job, g: TakePc)
    requires CustodyGiven(sh, p, job, Work(g))
    ensures CustodyFollows(p, Subject(sh, p, Work(g)), job, Work(g), TakeStep(sh, p, job, g))
  {
    hide CustodyGiven, CustodyFollows, TakeStep, Subject;
    if g.Start? || g.TakeLock? || g.TakeStop? || g.TakePop? || g.TakeEntryLock? || g.TakeEntry? {
      CustodyOfEarlyWork(sh, p, job, g);
    } else {
      CustodyOfLateWork(sh, p, job, g);
    }
  }

  lemma CustodyOfRun(sh: Shared, p: Pid, job: Job, g: RunPc, j: Pid)
    requires CustodyGiven(sh, p, job, Run(g, j))
    ensures CustodyFollows(p, Subject(sh, p, Run(g, j)), job, Run(g, j), RunStep(sh, job, g, j))
  {}

  lemma CustodyOfWaiting(sh: Shared, p: Pid, job: Job, pc: Pc, ok: bool, past: Past)
    requires CustodyGiven(sh, p, job, pc) && (pc.Idle? || pc.Drain?)
    ensures CustodyFollows(p, Subject(sh, p, pc), job, pc, StepOf(sh, p, job, pc, ok, past))
  {
    hide SubStep, GrowStep, AccStep, PubStep, CutStep, TakeStep, RunStep, ExitStep, FinStep, CheckStep, NotifyStep,
      StopStep, PurgeStep, WaitStep, LookStep, FindStep;
  }

  lemma CustodyOfFin(sh: Shared, p: Pid, job: Job, g: FinPc, j: Pid, ret: Ret)
    requires CustodyGiven(sh, p, job, Fin(g, j, ret))
    ensures CustodyFollows(p, Subject(sh, p, Fin(g, j, ret)), job, Fin(g, j, ret), FinStep(sh, job, g, j, ret))
  {}

  lemma CustodyOfPurge(sh: Shared, p: Pid, job: Job, g: PurgePc, list: seq<Pid>, j: Pid)
    requires CustodyGiven(sh, p, job, Purge(g, list, j))
    ensures CustodyFollows(p, Subject(sh, p, Purge(g, list, j)), job, Purge(g, list, j),
              PurgeStep(sh, p, job, g, list, j))
  {}

  lemma CustodyOfCheck(sh: Shared, p: Pid, job: Job, g: Loads, ret: Ret, past: Past)
    requires CustodyGiven(sh, p, job, Check(g, ret))
    ensures CustodyFollows(p, Subject(sh, p, Check(g, ret)), job, Check(g, ret),
              WithJob(CheckStep(sh, g, ret, past), job))
  {}

  lemma CustodyOfNotify(sh: Shared, p: Pid, job: Job, g: bool, ret: Ret)
    requires CustodyGiven(sh, p, job, NotifyAt(g, ret))
    ensures CustodyFollows(p, Subject(sh, p, NotifyAt(g, ret)), job, NotifyAt(g, ret),
              WithJob(NotifyStep(sh, p, g, ret), job))
  {}

  lemma CustodyOfCalling(sh: Shared, p: Pid, job: Job, pc: Pc, ok: bool, past: Past)
    requires CustodyGiven(sh, p, job, pc) && (pc.Stop? || pc.Wait?)
    ensures CustodyFollows(p, Subject(sh, p, pc), job, pc, StepOf(sh, p, job, pc, ok, past))
  {
    hide SubStep, GrowStep, AccStep, PubStep, CutStep, TakeStep, RunStep, IdleStep, DrainStep, ExitStep, FinStep,
      CheckStep, NotifyStep, PurgeStep, LookStep, FindStep;
  }

  lemma CustodyOfTicketing(sh: Shared, p: Pid, job: Job, pc: Pc, ok: bool, past: Past)
    requires CustodyGiven(sh, p, job, pc) && (pc.Look? || pc.Find?)
    ensures CustodyFollows(p, Subject(sh, p, pc), job, pc, StepOf(sh, p, job, pc, ok, past))
  {
    hide SubStep, GrowStep, AccStep, PubStep, CutStep, TakeStep, RunStep, IdleStep, DrainStep, ExitStep, FinStep,
      CheckStep, NotifyStep, StopStep, PurgeStep, WaitStep, RemoveFirst;
  }

  lemma CustodyOfStep(sh: Shared, p: Pid, job: Job, pc: Pc, ok: bool, past: Past)
    requires !Finished(pc) && CustodyGiven(sh, p, job, pc)
    ensures CustodyFollows(p, Subject(sh, p, pc), job, pc, StepOf(sh, p, job, pc, ok, past))
  {
    hide CustodyGiven, CustodyFollows, SubStep, GrowStep, AccStep, PubStep, CutStep, TakeStep, RunStep, IdleStep,
      DrainStep, ExitStep, FinStep, CheckStep, NotifyStep, StopStep, PurgeStep, WaitStep, LookStep, FindStep;
    match pc {
      case Sub(g) => CustodyOfSub(sh, p, job, g);
      case Acc(g) => CustodyOfAcc(sh, p, job, g, ok);
      case Pub(_) | Cut(_) => CustodyOfPubAndCut(sh, p, job, pc, ok, past);
      case Grow(_) | Exit(_) => CustodyOfGrowth(sh, p, job, pc, ok, past);
      case Work(g) => CustodyOfWork(sh, p, job, g);
      case Run(g, j) => CustodyOfRun(sh, p, job, g, j);
      case Idle(_) | Drain(_) => CustodyOfWaiting(sh, p, job, pc, ok, past);
      case Fin(g, j, ret) => CustodyOfFin(sh, p, job, g, j, ret);
      case Purge(g, list, j) => CustodyOfPurge(sh, p, job, g, list, j);
      case Check(g, ret) => CustodyOfCheck(sh, p, job, g, ret, past);
      case NotifyLock(ret) => CustodyOfNotify(sh, p, job, false, ret);
      case NotifyAll(ret) => CustodyOfNotify(sh, p, job, true, ret);
      case Stop(_) | Wait(_) => CustodyOfCalling(sh, p, job, pc, ok, past);
      case Look(_, _, _) | Find(_, _) => CustodyOfTicketing(sh, p, job, pc, ok, past);
      case _ =>
    }
  }

  // ----- Jobs not in hand, and entries of other threads, are left alone.

  predicate KeptHold(sh: Shared, p: Pid, job: Job, pc: Pc, step: Step) {
    && OthersKept(job, pc, step)
    && ForeignFollows(job, pc, step)
  }

  lemma KeptOfSubmission(sh: Shared, p: Pid, job: Job, pc: Pc, ok: bool, past: Past)
    requires RetOk(p, pc) && (pc.Sub? || pc.Acc? || pc.Pub? || pc.Cut?)
    ensures KeptHold(sh, p, job, pc, StepOf(sh, p, job, pc, ok, past))
  {
    hide GrowStep, TakeStep, RunStep, IdleStep, DrainStep, ExitStep, FinStep, CheckStep, NotifyStep, StopStep,
      PurgeStep, WaitStep, LookStep, FindStep;
  }

  lemma KeptOfGrowth(sh: Shared, p: Pid, job: Job, pc: Pc, ok: bool, past: Past)
    requires RetOk(p, pc) && (pc.Grow? || pc.Exit?)
    ensures KeptHold(sh, p, job, pc, StepOf(sh, p, job, pc, ok, past))
  {
    hide SubStep, AccStep, PubStep, CutStep, TakeStep, RunStep, IdleStep, DrainStep, FinStep, CheckStep, NotifyStep,
      StopStep, PurgeStep, WaitStep, LookStep, FindStep;
  }

  lemma KeptOfWorking(sh: Shared, p: Pid, job: Job, pc: Pc, ok: bool, past: Past)
    requires RetOk(p, pc) && (pc.Work? || pc.Run?)
    ensures KeptHold(sh, p, job, pc, StepOf(sh, p, job, pc, ok, past))
  {
    hide SubStep, GrowStep, AccStep, PubStep, CutStep, IdleStep, DrainStep, ExitStep, FinStep, CheckStep, NotifyStep,
      StopStep, PurgeStep, WaitStep, LookStep, FindStep;
  }

  lemma KeptOfWaiting(sh: Shared, p: Pid, job: Job, pc: Pc, ok: bool, past: Past)
    requires RetOk(p, pc) && (pc.Idle? || pc.Drain?)
    ensures KeptHold(sh, p, job, pc, StepOf(sh, p, job, pc, ok, past))
  {
    hide SubStep, GrowStep, AccStep, PubStep, CutStep, TakeStep, RunStep, ExitStep, FinStep, CheckStep, NotifyStep,
      StopStep, PurgeStep, WaitStep, LookStep, FindStep;
  }

  lemma KeptOfCancelling(sh: Shared, p: Pid, job: Job, pc: Pc, ok: bool, past: Past)
    requires RetOk(p, pc) && (pc.Fin? || pc.Purge?)
    ensures KeptHold(sh, p, job, pc, StepOf(sh, p, job, pc, ok, past))
  {
    hide SubStep, GrowStep, AccStep, PubStep, CutStep, TakeStep, RunStep, IdleStep, DrainStep, ExitStep, CheckStep,
      NotifyStep, StopStep, WaitStep, LookStep, FindStep;
  }

  lemma KeptOfChecking(sh: Shared, p: Pid, job: Job, pc: Pc, ok: bool, past: Past)
    requires RetOk(p, pc) && (pc.Check? || pc.NotifyLock? || pc.NotifyAll?)
    ensures KeptHold(sh, p, job, pc, StepOf(sh, p, job, pc, ok, past))
  {
    hide SubStep, GrowStep, AccStep, PubStep, CutStep, TakeStep, RunStep, IdleStep, DrainStep, ExitStep, FinStep,
      StopStep, PurgeStep, WaitStep, LookStep, FindStep;
  }

  lemma KeptOfCalling(sh: Shared, p: Pid, job: Job, pc: Pc, ok: bool, past: Past)
    requires RetOk(p, pc) && (pc.Stop? || pc.Wait?)
    ensures KeptHold(sh, p, job, pc, StepOf(sh, p, job, pc, ok, past))
  {
    hide SubStep, GrowStep, AccStep, PubStep, CutStep, TakeStep, RunStep, IdleStep, DrainStep, ExitStep, FinStep,
      CheckStep, NotifyStep, PurgeStep, LookStep, FindStep;
  }

  lemma KeptOfTicketing(sh: Shared, p: Pid, job: Job, pc: Pc, ok: bool, past: Past)
    requires RetOk(p, pc) && (pc.Look? || pc.Find?)
    ensures KeptHold(sh, p, job, pc, StepOf(sh, p, job, pc, ok, past))
  {
    hide SubStep, GrowStep, AccStep, PubStep, CutStep, TakeStep, RunStep, IdleStep, DrainStep, ExitStep, FinStep,
      CheckStep, NotifyStep, StopStep, PurgeStep, WaitStep, RemoveFirst;
  }

  lemma KeptOfStep(sh: Shared, p: Pid, job: Job, pc: Pc, ok: bool, past: Past)
    requires !Finished(pc) && RetOk(p, pc)
    ensures KeptHold(sh, p, job, pc, StepOf(sh, p, job, pc, ok, past))
  {
    hide RetOk, KeptHold, StepOf;
    match pc {
      case Sub(_) | Acc(_) | Pub(_) | Cut(_) => KeptOfSubmission(sh, p, job, pc, ok, past);
      case Grow(_) | Exit(_) => KeptOfGrowth(sh, p, job, pc, ok, past);
      case Work(_) | Run(_, _) => KeptOfWorking(sh, p, job, pc, ok, past);
      case Idle(_) | Drain(_) => KeptOfWaiting(sh, p, job, pc, ok, past);
      case Fin(_, _, _) | Purge(_, _, _) => KeptOfCancelling(sh, p, job, pc, ok, past);
      case Check(_, _) | NotifyLock(_) | NotifyAll(_) => KeptOfChecking(sh, p, job, pc, ok, past);
      case Stop(_) | Wait(_) => KeptOfCalling(sh, p, job, pc, ok, past);
      case Look(_, _, _) | Find(_, _) => KeptOfTicketing(sh, p, job, pc, ok, past);
      case _ =>
    }
  }

  // ----- The queue changes only by push, pop and ticket removal, and orders are recorded.

  predicate QueueGiven(sh: Shared, p: Pid, job: Job, pc: Pc) {
    && StageReady(sh, p, job, pc)
    && EntryOk(job)
  }

  predicate QueueHold(sh: Shared, p: Pid, job: Job, pc: Pc, step: Step) {
    && QueueFollows(sh, p, job, pc, step)
    && LineFollows(sh, p, pc, step)
  }

  lemma QueueOfSub(sh: Shared, p: Pid, job: Job, g: SubPc)
    requires QueueGiven(sh, p, job, Sub(g))
    ensures QueueHold(sh, p, job, Sub(g), SubStep(sh, p, job, g))
  {}

  lemma QueueOfAcc(sh: Shared, p: Pid, job: Job, g: AccPc, ok: bool)
    requires QueueGiven(sh, p, job, Acc(g))
    ensures QueueHold(sh, p, job, Acc(g), AccStep(sh, p, job, g, ok))
  {}

  lemma QueueOfPub(sh: Shared, p: Pid, job: Job, g: PubPc)
    requires QueueGiven(sh, p, job, Pub(g))
    ensures QueueHold(sh, p, job, Pub(g), PubStep(sh, p, job, g))
  {}

  lemma QueueOfCut(sh: Shared, p: Pid, job: Job, g: CutPc)
    requires QueueGiven(sh, p, job, Cut(g))
    ensures QueueHold(sh, p, job, Cut(g), CutStep(sh, p, job, g))
  {}

  lemma QueueOfGrowth(sh: Shared, p: Pid, job: Job, pc: Pc, ok: bool, past: Past)
    requires QueueGiven(sh, p, job, pc) && (pc.Grow? || pc.Exit?)
    ensures QueueHold(sh, p, job, pc, StepOf(sh, p, job, pc, ok, past))
  {
    hide SubStep, AccStep, PubStep, CutStep, TakeStep, RunStep, IdleStep, DrainStep, FinStep, CheckStep, NotifyStep,
      StopStep, PurgeStep, WaitStep, LookStep, FindStep;
  }

  lemma QueueOfWork(sh: Shared, p: Pid, job: Job, g: TakePc)
    requires QueueGiven(sh, p, job, Work(g))
    ensures QueueHold(sh, p, job, Work(g), TakeStep(sh, p, job, g))
  {}

  lemma QueueOfRun(sh: Shared, p: Pid, job: Job, g: RunPc, j: Pid)
    requires QueueGiven(sh, p, job, Run(g, j))
    ensures QueueHold(sh, p, job, Run(g, j), RunStep(sh, job, g, j))
  {}

  lemma QueueOfWaiting(sh: Shared, p: Pid, job: Job, pc: Pc, ok: bool, past: Past)
    requires QueueGiven(sh, p, job, pc) && (pc.Idle? || pc.Drain?)
    ensures QueueHold(sh, p, job, pc, StepOf(sh, p, job, pc, ok, past))
  {
    hide SubStep, GrowStep, AccStep, PubStep, CutStep, TakeStep, RunStep, ExitStep, FinStep, CheckStep, NotifyStep,
      StopStep, PurgeStep, WaitStep, LookStep, FindStep;
  }

  lemma QueueOfCancelling(sh: Shared, p: Pid, job: Job, pc: Pc, ok: bool, past: Past)
    requires QueueGiven(sh, p, job, pc) && (pc.Fin? || pc.Purge?)
    ensures QueueHold(sh, p, job, pc, StepOf(sh, p, job, pc, ok, past))
  {
    hide SubStep, GrowStep, AccStep, PubStep, CutStep, TakeStep, RunStep, IdleStep, DrainStep, ExitStep, CheckStep,
      NotifyStep, StopStep, WaitStep, LookStep, FindStep;
  }

  lemma QueueOfChecking(sh: Shared, p: Pid, job: Job, pc: Pc, ok: bool, past: Past)
    requires QueueGiven(sh, p, job, pc) && (pc.Check? || pc.NotifyLock? || pc.NotifyAll?)
    ensures QueueHold(sh, p, job, pc, StepOf(sh, p, job, pc, ok, past))
  {
    hide SubStep, GrowStep, AccStep, PubStep, CutStep, TakeStep, RunStep, IdleStep, DrainStep, ExitStep, FinStep,
      StopStep, PurgeStep, WaitStep, LookStep, FindStep;
  }

  lemma QueueOfCalling(sh: Shared, p: Pid, job: Job, pc: Pc, ok: bool, past: Past)
    requires QueueGiven(sh, p, job, pc) && (pc.Stop? || pc.Wait?)
    ensures QueueHold(sh, p, job, pc, StepOf(sh, p, job, pc, ok, past))
  {
    hide SubStep, GrowStep, AccStep, PubStep, CutStep, TakeStep, RunStep, IdleStep, DrainStep, ExitStep, FinStep,
      CheckStep, NotifyStep, PurgeStep, LookStep, FindStep;
  }

  lemma QueueOfLook(sh: Shared, p: Pid, job: Job, g: LookPc, j: Pid, thread: nat)
    requires QueueGiven(sh, p, job, Look(g, j, thread))
    ensures QueueHold(sh, p, job, Look(g, j, thread), LookStep(sh, p, job, g, j, thread))
  {}

  lemma QueueOfFind(sh: Shared, p: Pid, job: Job, g: FindPc, j: Pid)
    requires QueueGiven(sh, p, job, Find(g, j))
    ensures QueueHold(sh, p, job, Find(g, j), FindStep(sh, p, job, g, j))
  {
    hide RemoveFirst;
  }

  lemma QueueOfStep(sh: Shared, p: Pid, job: Job, pc: Pc, ok: bool, past: Past)
    requires !Finished(pc) && QueueGiven(sh, p, job, pc)
    ensures QueueHold(sh, p, job, pc, StepOf(sh, p, job, pc, ok, past))
  {
    hide QueueGiven, QueueHold, SubStep, GrowStep, AccStep, PubStep, CutStep, TakeStep, RunStep, IdleStep, DrainStep,
      ExitStep, FinStep, CheckStep, NotifyStep, StopStep, PurgeStep, WaitStep, LookStep, FindStep;
    match pc {
      case Sub(g) => QueueOfSub(sh, p, job, g);
      case Acc(g) => QueueOfAcc(sh, p, job, g, ok);
      case Pub(g) => QueueOfPub(sh, p, job, g);
      case Cut(g) => QueueOfCut(sh, p, job, g);
      case Grow(_) | Exit(_) => QueueOfGrowth(sh, p, job, pc, ok, past);
      case Work(g) => QueueOfWork(sh, p, job, g);
      case Run(g, j) => QueueOfRun(sh, p, job, g, j);
      case Idle(_) | Drain(_) => QueueOfWaiting(sh, p, job, pc, ok, past);
      case Fin(_, _, _) | Purge(_, _, _) => QueueOfCancelling(sh, p, job, pc, ok, past);
      case Check(_, _) | NotifyLock(_) | NotifyAll(_) => QueueOfChecking(sh, p, job, pc, ok, past);
      case Stop(_) | Wait(_) => QueueOfCalling(sh, p, job, pc, ok, past);
      case Look(g, j, thread) => QueueOfLook(sh, p, job, g, j, thread);
      case Find(g, j) => QueueOfFind(sh, p, job, g, j);
      case _ =>
    }
  }

  // ----- A cancellation is credited once, to the ticket or stop that causes it.

  predicate CreditGiven(sh: Shared, p: Pid, job: Job, pc: Pc) {
    && StageReady(sh, p, job, pc)
    && OwnReady(pc, job)
    && EntryOk(job)
    && CreditOk(job)
    && (CreditJob(p, pc).Some? && CreditJob(p, pc) == Subject(sh, p, pc) ==> CreditAt(p, pc, job))
  }

  lemma CreditOfSub(sh: Shared, p: Pid, job: Job, g: SubPc)
    requires CreditGiven(sh, p, job, Sub(g))
    ensures CreditFollows(sh, p, job, Sub(g), SubStep(sh, p, job, g))
  {}

  lemma CreditOfAcc(sh: Shared, p: Pid, job: Job, g: AccPc, ok: bool)
    requires CreditGiven(sh, p, job, Acc(g))
    ensures CreditFollows(sh, p, job, Acc(g), AccStep(sh, p, job, g, ok))
  {}

  lemma CreditOfPub(sh: Shared, p: Pid, job: Job, g: PubPc)
    requires CreditGiven(sh, p, job, Pub(g))
    ensures CreditFollows(sh, p, job, Pub(g), PubStep(sh, p, job, g))
  {}

  lemma CreditOfCut(sh: Shared, p: Pid, job: Job, g: CutPc)
    requires CreditGiven(sh, p, job, Cut(g))
    ensures CreditFollows(sh, p, job, Cut(g), CutStep(sh, p, job, g))
  {}

  lemma CreditOfGrowth(sh: Shared, p: Pid, job: Job, pc: Pc, ok: bool, past: Past)
    requires CreditGiven(sh, p, job, pc) && (pc.Grow? || pc.Exit?)
    ensures CreditFollows(sh, p, job, pc, StepOf(sh, p, job, pc, ok, past))
  {
    hide SubStep, AccStep, PubStep, CutStep, TakeStep, RunStep, IdleStep, DrainStep, FinStep, CheckStep, NotifyStep,
      StopStep, PurgeStep, WaitStep, LookStep, FindStep;
  }

  lemma CreditOfWork(sh: Shared, p: Pid, job: Job, g: TakePc)
    requires CreditGiven(sh, p, job, Work(g))
    ensures CreditFollows(sh, p, job, Work(g), TakeStep(sh, p, job, g))
  {
    hide OwnReady;
  }

  lemma CreditOfRun(sh: Shared, p: Pid, job: Job, g: RunPc, j: Pid)
    requires CreditGiven(sh, p, job, Run(g, j))
    ensures CreditFollows(sh, p, job, Run(g, j), RunStep(sh, job, g, j))
  {
    hide OwnReady;
  }

  lemma CreditOfWaiting(sh: Shared, p: Pid, job: Job, pc: Pc, ok: bool, past: Past)
    requires CreditGiven(sh, p, job, pc) && (pc.Idle? || pc.Drain?)
    ensures CreditFollows(sh, p, job, pc, StepOf(sh, p, job, pc, ok, past))
  {
    hide SubStep, GrowStep, AccStep, PubStep, CutStep, TakeStep, RunStep, ExitStep, FinStep, CheckStep, NotifyStep,
      StopStep, PurgeStep, WaitStep, LookStep, FindStep;
  }

  lemma CreditOfEarlyFin(sh: Shared, p: Pid, job: Job, g: FinPc, j: Pid, ret: Ret)
    requires CreditGiven(sh, p, job, Fin(g, j, ret)) && (g.CancelCall? || g.CountCancelled?)
    ensures CreditFollows(sh, p, job, Fin(g, j, ret), FinStep(sh, job, g, j, ret))
  {}

  lemma CreditOfLateFin(sh: Shared, p: Pid, job: Job, g: FinPc, j: Pid, ret: Ret)
    requires CreditGiven(sh, p, job, Fin(g, j, ret)) && !(g.CancelCall? || g.CountCancelled?)
    ensures CreditFollows(sh, p, job, Fin(g, j, ret), FinStep(sh, job, g, j, ret))
  {}

  lemma CreditOfFin(sh: Shared, p: Pid, job: Job, g: FinPc, j: Pid, ret: Ret)
    requires CreditGiven(sh, p, job, Fin(g, j, ret))
    ensures CreditFollows(sh, p, job, Fin(g, j, ret), FinStep(sh, job, g, j, ret))
  {
    hide CreditGiven, CreditFollows, FinStep, Subject;
    if g.CancelCall? || g.CountCancelled? {
      CreditOfEarlyFin(sh, p, job, g, j, ret);
    } else {
      CreditOfLateFin(sh, p, job, g, j, ret);
    }
  }

  lemma CreditOfEarlyPurge(sh: Shared, p: Pid, job: Job, g: PurgePc, list: seq<Pid>, j: Pid)
    requires CreditGiven(sh, p, job, Purge(g, list, j)) && (g.StopPop? || g.StopEntryLock?)
    ensures CreditFollows(sh, p, job, Purge(g, list, j), PurgeStep(sh, p, job, g, list, j))
  {
    hide OwnReady;
  }

  lemma CreditOfLatePurge(sh: Shared, p: Pid, job: Job, g: PurgePc, list: seq<Pid>, j: Pid)
    requires CreditGiven(sh, p, job, Purge(g, list, j)) && !(g.StopPop? || g.StopEntryLock?)
    ensures CreditFollows(sh, p, job, Purge(g, list, j), PurgeStep(sh, p, job, g, list, j))
  {
    hide OwnReady;
  }

  lemma CreditOfPurge(sh: Shared, p: Pid, job: Job, g: PurgePc, list: seq<Pid>, j: Pid)
    requires CreditGiven(sh, p, job, Purge(g, list, j))
    ensures CreditFollows(sh, p, job, Purge(g, list, j), PurgeStep(sh, p, job, g, list, j))
  {
    hide CreditGiven, CreditFollows, PurgeStep, Subject;
    if g.StopPop? || g.StopEntryLock? {
      CreditOfEarlyPurge(sh, p, job, g, list, j);
    } else {
      CreditOfLatePurge(sh, p, job, g, list, j);
    }
  }

  lemma CreditOfCheckHeld(sh: Shared, p: Pid, job: Job, g: Loads, ret: Ret, past: Past)
    requires CreditGiven(sh, p, job, Check(g, ret)) && InMonitor(ret)
    ensures CreditFollows(sh, p, job, Check(g, ret), WithJob(CheckStep(sh, g, ret, past), job))
  {}

  lemma CreditOfCheckFree(sh: Shared, p: Pid, job: Job, g: Loads, ret: Ret, past: Past)
    requires CreditGiven(sh, p, job, Check(g, ret)) && !InMonitor(ret)
    ensures CreditFollows(sh, p, job, Check(g, ret), WithJob(CheckStep(sh, g, ret, past), job))
  {}

  lemma CreditOfCheck(sh: Shared, p: Pid, job: Job, g: Loads, ret: Ret, past: Past)
    requires CreditGiven(sh, p, job, Check(g, ret))
    ensures CreditFollows(sh, p, job, Check(g, ret), WithJob(CheckStep(sh, g, ret, past), job))
  {
    hide CreditGiven, CreditFollows, CheckStep, Subject;
    if InMonitor(ret) {
      CreditOfCheckHeld(sh, p, job, g, ret, past);
    } else {
      CreditOfCheckFree(sh, p, job, g, ret, past);
    }
  }

  lemma CreditOfNotify(sh: Shared, p: Pid, job: Job, g: bool, ret: Ret)
    requires CreditGiven(sh, p, job, NotifyAt(g, ret))
    ensures CreditFollows(sh, p, job, NotifyAt(g, ret), WithJob(NotifyStep(sh, p, g, ret), job))
  {}

  lemma CreditOfCalling(sh: Shared, p: Pid, job: Job, pc: Pc, ok: bool, past: Past)
    requires CreditGiven(sh, p, job, pc) && (pc.Stop? || pc.Wait?)
    ensures CreditFollows(sh, p, job, pc, StepOf(sh, p, job, pc, ok, past))
  {
    hide SubStep, GrowStep, AccStep, PubStep, CutStep, TakeStep, RunStep, IdleStep, DrainStep, ExitStep, FinStep,
      CheckStep, NotifyStep, PurgeStep, LookStep, FindStep;
  }

  lemma CreditOfEarlyLook(sh: Shared, p: Pid, job: Job, g: LookPc, j: Pid, thread: nat)
    requires CreditGiven(sh, p, job, Look(g, j, thread)) && (g.LookLock? || g.LookEntry?)
    ensures CreditFollows(sh, p, job, Look(g, j, thread), LookStep(sh, p, job, g, j, thread))
  {
    hide OwnReady, StageReady;
  }

  lemma CreditOfLateLook(sh: Shared, p: Pid, job: Job, g: LookPc, j: Pid, thread: nat)
    requires CreditGiven(sh, p, job, Look(g, j, thread)) && !(g.LookLock? || g.LookEntry?)
    ensures CreditFollows(sh, p, job, Look(g, j, thread), LookStep(sh, p, job, g, j, thread))
  {
    hide OwnReady, StageReady;
  }

  lemma CreditOfLook(sh: Shared, p: Pid, job: Job, g: LookPc, j: Pid, thread: nat)
    requires CreditGiven(sh, p, job, Look(g, j, thread))
    ensures CreditFollows(sh, p, job, Look(g, j, thread), LookStep(sh, p, job, g, j, thread))
  {
    hide CreditGiven, CreditFollows, LookStep, Subject;
    if g.LookLock? || g.LookEntry? {
      CreditOfEarlyLook(sh, p, job, g, j, thread);
    } else {
      CreditOfLateLook(sh, p, job, g, j, thread);
    }
  }

  lemma CreditOfEarlyFind(sh: Shared, p: Pid, job: Job, g: FindPc, j: Pid)
    requires CreditGiven(sh, p, job, Find(g, j)) && (g.FindLock? || g.FindEntry? || g.TicketLock?)
    ensures CreditFollows(sh, p, job, Find(g, j), FindStep(sh, p, job, g, j))
  {
    hide OwnReady, HandStage, RemoveFirst;
  }

  lemma CreditOfLateFind(sh: Shared, p: Pid, job: Job, g: FindPc, j: Pid)
    requires CreditGiven(sh, p, job, Find(g, j)) && !(g.FindLock? || g.FindEntry? || g.TicketLock?)
    ensures CreditFollows(sh, p, job, Find(g, j), FindStep(sh, p, job, g, j))
  {
    hide OwnReady, HandStage, RemoveFirst;
  }

  lemma CreditOfFind(sh: Shared, p: Pid, job: Job, g: FindPc, j: Pid)
    requires CreditGiven(sh, p, job, Find(g, j))
    ensures CreditFollows(sh, p, job, Find(g, j), FindStep(sh, p, job, g, j))
  {
    hide CreditGiven, CreditFollows, FindStep, Subject;
    if g.FindLock? || g.FindEntry? || g.TicketLock? {
      CreditOfEarlyFind(sh, p, job, g, j);
    } else {
      CreditOfLateFind(sh, p, job, g, j);
    }
  }

  lemma CreditOfStep(sh: Shared, p: Pid, job: Job, pc: Pc, ok: bool, past: Past)
    requires !Finished(pc) && CreditGiven(sh, p, job, pc)
    ensures CreditFollows(sh, p, job, pc, StepOf(sh, p, job, pc, ok, past))
  {
    hide CreditGiven, CreditFollows, SubStep, GrowStep, AccStep, PubStep, CutStep, TakeStep, RunStep, IdleStep,
      DrainStep, ExitStep, FinStep, CheckStep, NotifyStep, StopStep, PurgeStep, WaitStep, LookStep, FindStep;
    match pc {
      case Sub(g) => CreditOfSub(sh, p, job, g);
      case Acc(g) => CreditOfAcc(sh, p, job, g, ok);
      case Pub(g) => CreditOfPub(sh, p, job, g);
      case Cut(g) => CreditOfCut(sh, p, job, g);
      case Grow(_) | Exit(_) => CreditOfGrowth(sh, p, job, pc, ok, past);
      case Work(g) => CreditOfWork(sh, p, job, g);
      case Run(g, j) => CreditOfRun(sh, p, job, g, j);
      case Idle(_) | Drain(_) => CreditOfWaiting(sh, p, job, pc, ok, past);
      case Fin(g, j, ret) => CreditOfFin(sh, p, job, g, j, ret);
      case Purge(g, list, j) => CreditOfPurge(sh, p, job, g, list, j);
      case Check(g, ret) => CreditOfCheck(sh, p, job, g, ret, past);
      case NotifyLock(ret) => CreditOfNotify(sh, p, job, false, ret);
      case NotifyAll(ret) => CreditOfNotify(sh, p, job, true, ret);
      case Stop(_) | Wait(_) => CreditOfCalling(sh, p, job, pc, ok, past);
      case Look(g, j, thread) => CreditOfLook(sh, p, job, g, j, thread);
      case Find(g, j) => CreditOfFind(sh, p, job, g, j);
      case _ =>
    }
  }
}
