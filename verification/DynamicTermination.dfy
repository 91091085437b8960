/** Termination is permanent and exact. */
module DynamicTermination {
  import opened PoolTypes
  import opened PoolAccounting
  import opened PoolShared
  import opened Counting
  import opened DynamicPool
  import opened DynamicRun
  import opened DynamicFacts
  import opened DynamicInvariant
  import opened DynamicLifecycle
  import opened DynamicRetire
  import opened DynamicStranding
  import opened DynamicIdle

  // ----- permanence

  lemma StepEmptied(sh: Shared, job: Job, pc: Pc, step: Step, p: Pid, k: nat)
    requires Emptied(k, sh) && Felt(sh, job, pc) && StageEdge(job.stage, step.job.stage)
    requires FramesFollow(sh, p, pc, step) && CountersFollow(sh, job, step)
    requires step.sh.gate.inflight >= 0
    requires job.stage.New? && step.job.stage.Reserved? ==> sh.gate.inflight >= 1
    ensures Emptied(k, step.sh)
  {
    hide FramesFollow, StageEdge, Adds;
    assert step.sh.gate.closed && step.sh.gate.inflight <= sh.gate.inflight by { FramesGate(sh, p, pc, step); }
    NewlyCounted(job.stage, step.job.stage);
    forall c: Counter
      ensures step.sh.acct.Get(c) - sh.acct.Get(c) == B(Adds(c, step.job.stage)) - B(Adds(c, job.stage))
    {
    }
    assert step.sh.acct.Get(Slots) == step.sh.acct.slots && sh.acct.Get(Slots) == sh.acct.slots;
    assert step.sh.acct.Get(RunningTasks) == step.sh.acct.running && sh.acct.Get(RunningTasks) == sh.acct.running;
    assert step.sh.acct.Get(CancellingTasks) == step.sh.acct.cancelling
           && sh.acct.Get(CancellingTasks) == sh.acct.cancelling;
  }

  lemma FramesGate(sh: Shared, p: Pid, pc: Pc, step: Step)
    requires FramesFollow(sh, p, pc, step) && sh.gate.closed
    ensures step.sh.gate.closed && step.sh.gate.inflight <= sh.gate.inflight
  {
  }

  lemma ActEmptied(s: State, p: Pid, ok: bool, worker: Pid, t: State, k: nat)
    requires Inv(s) && KnowledgeOk(s) && Acts(s, p, ok, worker, t) && Inv(t) && Emptied(k, s.sh)
    ensures Emptied(k, t.sh)
  {
    hide Inv, KnowledgeOk, StepAt, JobAt, Felt, StageEdge, FramesFollow, CountersFollow, Emptied, CanStep, Subject,
      Reserves;
    StepRespects(s, p, ok);
    InFlightNatural(t);
    if Reserves(s, p, StepAt(s, p, ok)) {
      ReservesUnderMonitor(s, p, ok);
      InFlightCounted(s, p);
    }
    ReservesMeans(s, p, ok);
    StepEmptied(s.sh, JobAt(s, p), s.procs[p], StepAt(s, p, ok), p, k);
  }

  lemma ReservesMeans(s: State, p: Pid, ok: bool)
    requires p in s.procs
    ensures Reserves(s, p, StepAt(s, p, ok)) <==> JobAt(s, p).stage.New? && StepAt(s, p, ok).job.stage.Reserved?
  {
  }

  lemma InFlightNatural(s: State)
    requires Inv(s)
    ensures s.sh.gate.inflight >= 0
  {
    InvParts(s);
    hide Inv;
    NonNegative(s);
    assert Reading(InFlightGauge, s.sh) >= 0;
  }

  lemma EmptiedStays(s: State, e: Event, t: State, k: nat)
    requires Inv(s) && KnowledgeOk(s) && Next(s, e, t) && Emptied(k, s.sh)
    ensures Emptied(k, t.sh)
  {
    NextInv(s, e, t);
    hide Inv, KnowledgeOk, Emptied, Acts;
    if e.Act? {
      ActEmptied(s, e.p, e.ok, e.worker, t, k);
    } else {
      assert t.sh.gate == s.sh.gate && t.sh.acct == s.sh.acct;
      EmptiedReads(k, s.sh, t.sh);
    }
  }

  lemma NobodyExits(s: State, p: Pid)
    requires Inv(s) && s.sh.mon.pool.exiting == 0 && p in s.procs
    ensures !ExitingWorker(s.procs[p])
  {
    InvParts(s);
    hide Inv;
    var f := (pc: Pc) => Weighs(ExitingGauge, pc);
    assert Reading(ExitingGauge, s.sh) == HowMany(s.procs, f);
    HowManyZero(s.procs, f, p);
  }

  lemma QuietStays(s: State, e: Event, t: State)
    requires Inv(s) && KnowledgeOk(s) && Next(s, e, t) && s.sh.mon.pool.Quiet()
    ensures t.sh.mon.pool.Quiet()
  {
    hide Inv, KnowledgeOk, FramesFollow, StartPc, StepOf, JobAt, PathsFollow, WatchFollows, StageEdge, LocalOk,
      GlobalOk, Asleep, CanStep, Subject, LiveWorker, ExitingWorker;
    NoWorkerStays(s, e, t);
    if e.Act? {
      StepRespects(s, e.p, e.ok);
      NoLiveWorker(s, e.p);
      NobodyExits(s, e.p);
      ExitPositions();
      ExitingKept(s.sh, e.p, s.procs[e.p], StepAt(s, e.p, e.ok));
    }
  }

  lemma ExitingKept(sh: Shared, p: Pid, pc: Pc, step: Step)
    requires FramesFollow(sh, p, pc, step) && pc != Exit(Unregister) && pc != Exit(ExitMark)
    ensures step.sh.mon.pool.exiting == sh.mon.pool.exiting
  {
  }

  lemma ExitPositions()
    ensures LiveWorker(Exit(Unregister)) && ExitingWorker(Exit(ExitMark))
  {
  }

  lemma TerminalStays(s: State, e: Event, t: State)
    requires Inv(s) && KnowledgeOk(s) && Next(s, e, t) && Terminal(s.sh)
    ensures Terminal(t.sh)
  {
    hide Inv, KnowledgeOk, Next;
    EmptiedStays(s, e, t, 4);
    QuietStays(s, e, t);
  }

  // ----- the check under the monitor

  predicate ChecksTermination(ret: Ret) { ret.RetTerm? || ret.RetExit? || ret.RetUnregister? }

  /** A thread between the loads of a termination check: what it has read still holds. */
  predicate TermOk(sh: Shared, pc: Pc) {
    match pc
    case Check(loads, ret) => ChecksTermination(ret) ==> sh.mon.pool.Quiet() && Emptied(LoadsDone(loads), sh)
    case Done(outcome) => outcome.SawTermination? ==> Terminal(sh)
    case _ => true
  }

  ghost predicate TermsOk(s: State) { forall p :: p in s.procs ==> TermOk(s.sh, s.procs[p]) }

  lemma TermStays(s: State, e: Event, t: State, pc: Pc)
    requires Inv(s) && KnowledgeOk(s) && Next(s, e, t) && TermOk(s.sh, pc)
    ensures TermOk(t.sh, pc)
  {
    hide Inv, KnowledgeOk, Next, Emptied, Terminal;
    match pc {
      case Check(loads, ret) =>
        if ChecksTermination(ret) {
          EmptiedStays(s, e, t, LoadsDone(loads));
          QuietStays(s, e, t);
        }
      case Done(outcome) =>
        if outcome.SawTermination? {
          TerminalStays(s, e, t);
        }
      case _ =>
    }
  }

  lemma TermOfCheck(sh: Shared, p: Pid, job: Job, loads: Loads, ret: Ret, past: Past, ok: bool)
    requires TermOk(sh, Check(loads, ret))
    ensures var step := StepOf(sh, p, job, Check(loads, ret), ok, past);
            TermOk(step.sh, step.pc)
  {
  }

  lemma TermOfStep(sh: Shared, p: Pid, job: Job, pc: Pc, ok: bool, past: Past)
    requires TermOk(sh, pc) && GlobalOk(sh) && PathsFollow(pc, StepOf(sh, p, job, pc, ok, past).pc)
    requires LocalOk(StepOf(sh, p, job, pc, ok, past).sh, StepOf(sh, p, job, pc, ok, past).pc)
    requires GlobalOk(StepOf(sh, p, job, pc, ok, past).sh)
    ensures var step := StepOf(sh, p, job, pc, ok, past); TermOk(step.sh, step.pc)
  {
    match pc {
      case Check(loads, ret) => TermOfCheck(sh, p, job, loads, ret, past, ok);
      case _ => hide StepOf;
    }
  }

  lemma FreshTerm(sh: Shared)
    ensures TermOk(sh, Work(Start)) && TermOk(sh, Idle(Parked(true, true)))
    ensures forall r: Request :: TermOk(sh, StartPc(r))
  {
  }

  lemma MoverTerm(s: State, p: Pid, ok: bool, worker: Pid, t: State)
    requires Inv(s) && KnowledgeOk(s) && KnowledgeOk(t) && Acts(s, p, ok, worker, t) && TermOk(s.sh, s.procs[p])
    ensures TermOk(t.sh, t.procs[p])
  {
    hide Inv, StepOf, JobAt, PathsFollow, StageEdge, LocalOk, GlobalOk, TermOk, CanStep, Subject;
    StepStages(s, p, ok);
    assert t.procs[p] == StepAt(s, p, ok).pc;
    assert LocalOk(t.sh, t.procs[p]);
    TermOfStep(s.sh, p, JobAt(s, p), s.procs[p], ok, PastOf(s));
  }

  lemma NextTerms(s: State, e: Event, t: State)
    requires Inv(s) && KnowledgeOk(s) && KnowledgeOk(t) && TermsOk(s) && Next(s, e, t)
    ensures TermsOk(t)
  {
    hide Inv, KnowledgeOk, TermOk, StepAt, StartPc, Asleep, CanStep, Subject, JobAt;
    if e.Act? {
      MoverTerm(s, e.p, e.ok, e.worker, t);
    }
    FreshTerm(t.sh);
    forall p | p in t.procs && t.procs[p] != Idle(Parked(true, true)) && (e.Act? ==> p != e.p)
      ensures TermOk(t.sh, t.procs[p])
    {
      if p in s.procs {
        TermStays(s, e, t, s.procs[p]);
      }
    }
  }

  lemma {:induction false} AlwaysTerms(b: Behavior, i: nat)
    requires b.Valid() && i < |b.states|
    ensures TermsOk(b.states[i])
  {
    hide Inv, KnowledgeOk, TermsOk, Next;
    if i == 0 {
      NoTermsAtStart(b);
    } else {
      AlwaysTerms(b, i - 1);
      AlwaysKnowledge(b, i - 1);
      AlwaysKnowledge(b, i);
      NextTerms(b.states[i - 1], b.events[i - 1], b.states[i]);
    }
  }

  lemma NoTermsAtStart(b: Behavior)
    requires b.Valid()
    ensures TermsOk(b.states[0])
  {
    hide Next;
  }

  // ----- the theorems

  /** Once terminated, terminated for good. */
  lemma {:induction false} TerminationIsPermanent(b: Behavior, i: nat, k: nat)
    requires b.Valid() && i <= k < |b.states| && Terminal(b.states[i].sh)
    ensures Terminal(b.states[k].sh)
  {
    hide Inv, KnowledgeOk, Terminal, Next;
    if k > i {
      TerminationIsPermanent(b, i, k - 1);
      AlwaysKnowledge(b, k - 1);
      TerminalStays(b.states[k - 1], b.events[k - 1], b.states[k]);
    }
  }

  /** The check, whose loads happen at different moments, says yes at its last load exactly when all its
      conditions hold at that one moment. */
  lemma CheckSeesTermination(b: Behavior, i: nat, p: Pid)
    requires b.Valid() && i < |b.states| && p in b.states[i].procs && b.states[i].procs[p].Check?
    requires b.states[i].procs[p].loads.Load3? && ChecksTermination(b.states[i].procs[p].ret)
    ensures b.states[i].sh.acct.cancelling == 0 <==> Terminal(b.states[i].sh)
  {
    AlwaysTerms(b, i);
    assert TermOk(b.states[i].sh, b.states[i].procs[p]);
  }

  /** A wait that reported termination was right, then and for ever. */
  lemma ReportedTermination(b: Behavior, i: nat, k: nat, p: Pid)
    requires b.Valid() && i <= k < |b.states|
    requires p in b.states[i].procs && b.states[i].procs[p] == Done(SawTermination)
    ensures Terminal(b.states[k].sh)
  {
    AlwaysTerms(b, i);
    assert TermOk(b.states[i].sh, b.states[i].procs[p]);
    TerminationIsPermanent(b, i, k);
  }

  /** At any moment at which the pool is idle, every task submitted is accounted for. */
  lemma IdleIsExact(s: State)
    requires Inv(s) && IdleNow(s.sh)
    ensures s.sh.acct.submitted == s.sh.acct.completed + s.sh.acct.cancelled && s.sh.queue.items == []
    ensures forall j :: j in s.jobs ==> s.jobs[j].stage.New? || IsEnd(s.jobs[j].stage)
  {
    assert s.sh.queue.items != [] ==> s.sh.queue.items[0] in s.sh.queue.items;
    NoneCounted(s, Slots);
    NoneCounted(s, RunningTasks);
    NoneCounted(s, CancellingTasks);
    InvParts(s);
    hide Inv, RolesOk, LocksOk, SleepersOk, HandsOk, HeldOk, FindsOk, JobsOk, OwnJobsOk, GaugesOk, Adds;
    forall j | j in s.jobs
      ensures (s.jobs[j].stage.New? || IsEnd(s.jobs[j].stage)) && j !in s.sh.queue.items
      ensures Adds(SubmittedTasks, s.jobs[j].stage)
              <==> Adds(CompletedTasks, s.jobs[j].stage) || Adds(CancelledTasks, s.jobs[j].stage)
      ensures !(Adds(CompletedTasks, s.jobs[j].stage) && Adds(CancelledTasks, s.jobs[j].stage))
    {
      Settled(s.jobs[j].stage);
    }
    var sub, com, can := (job: Job) => Adds(SubmittedTasks, job.stage), (job: Job) => Adds(CompletedTasks, job.stage),
                         (job: Job) => Adds(CancelledTasks, job.stage);
    HowManySplit(s.jobs, sub, com, can);
    assert s.sh.acct.Get(SubmittedTasks) == HowMany(s.jobs, sub)
           && s.sh.acct.Get(CompletedTasks) == HowMany(s.jobs, com);
    assert s.sh.acct.Get(CancelledTasks) == HowMany(s.jobs, can);
  }

  /** At termination nothing is left: tasks, queue, live workers, stop hooks still to run. */
  lemma TerminationIsExact(b: Behavior, i: nat)
    requires b.Valid() && i < |b.states| && Terminal(b.states[i].sh)
    ensures var s := b.states[i];
            && s.sh.acct.submitted == s.sh.acct.completed + s.sh.acct.cancelled
            && s.sh.queue.items == []
            && (forall j :: j in s.jobs ==> s.jobs[j].stage.New? || IsEnd(s.jobs[j].stage))
            && (forall p :: p in s.procs ==>
                  !LiveWorker(s.procs[p]) && !ExitingWorker(s.procs[p]) && !InFlight(s.procs[p]))
  {
    var s := b.states[i];
    AlwaysInv(b, i);
    hide Inv, Behavior.Valid;
    IdleIsExact(s);
    forall p | p in s.procs
      ensures !LiveWorker(s.procs[p]) && !ExitingWorker(s.procs[p]) && !InFlight(s.procs[p])
    {
      NoLiveWorker(s, p);
      NobodyExits(s, p);
      if InFlight(s.procs[p]) {
        InFlightCounted(s, p);
      }
    }
  }
}
