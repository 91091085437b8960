/** Termination of the fixed pool is permanent and exact. */
module FixedTermination {
  import opened PoolTypes
  import opened PoolAccounting
  import opened PoolShared
  import opened Counting
  import opened FixedPool
  import opened FixedFacts
  import opened FixedInvariant
  import opened FixedOutcomes
  import opened FixedShutdown
  import opened FixedIdle

  // ----- Permanence.

  lemma StepEmptied(sh: Shared, job: Job, pc: Pc, step: Step, k: nat)
    requires Emptied(k, sh) && Felt(sh, job, pc) && JobFollows(sh, job, pc, step) && CountersFollow(sh, job, step)
    requires step.sh.gate.closed && 0 <= step.sh.gate.inflight <= sh.gate.inflight
    ensures Emptied(k, step.sh)
  {
    NewlyCounted(job.stage, step.job.stage);
    hide StageEdge, Adds, JobOk, InFlight;
    assert step.sh.acct.Get(Slots) == step.sh.acct.slots && sh.acct.Get(Slots) == sh.acct.slots;
    assert step.sh.acct.Get(RunningTasks) == step.sh.acct.running && sh.acct.Get(RunningTasks) == sh.acct.running;
    assert step.sh.acct.Get(CancellingTasks) == step.sh.acct.cancelling;
    assert sh.acct.Get(CancellingTasks) == sh.acct.cancelling;
  }

  lemma EmptiedStays(s: State, e: Event, t: State, k: nat)
    requires Inv(s) && Next(s, e, t) && Emptied(k, s.sh)
    ensures Emptied(k, t.sh)
  {
    hide Inv, StepAt, CanStep, JobAt, FramesFollow, GaugesFollow, JobFollows, CountersFollow, QueueFollows,
      CustodyFollows, WatchFollows, Subject, PathsFollow, LifeFollows, LocalOk, GlobalOk, StartPc, Emptied, Felt;
    ClosedGate(s, e, t) by {
      EmptiedGate(k, s.sh);
    }
    NextInv(s, e, t);
    InFlightNatural(t);
    if e.Act? {
      StepFollows(s, e.p, e.ok);
      InvParts(s);
      hide RolesOk, MonitorOk, SleepersOk, HandsOk, HeldOk, QueueOk, JobsOk, CountersOk, GaugesOk, KnowledgeOk,
        SubjectKnown;
      MoverFelt(s, e.p);
      StepEmptied(s.sh, JobAt(s, e.p), s.procs[e.p], StepAt(s, e.p, e.ok), k);
    } else {
      EmptiedReads(k, s.sh, t.sh);
    }
  }

  lemma EmptiedGate(k: nat, sh: Shared)
    requires Emptied(k, sh)
    ensures sh.gate.closed
  {
  }

  lemma InFlightNatural(s: State)
    requires Inv(s)
    ensures s.sh.gate.inflight >= 0
  {
    InvParts(s);
    hide Inv;
    NonNegative(s);
  }

  lemma NoLiveWorker(s: State, p: Pid)
    requires Inv(s) && s.sh.mon.pool.live == 0 && p in s.procs
    ensures !LiveWorker(s.procs[p])
  {
    InvParts(s);
    hide Inv;
    CountedThread(s, LiveGauge, p);
  }

  lemma QuietStays(s: State, e: Event, t: State)
    requires Inv(s) && Next(s, e, t) && s.sh.mon.pool.Quiet()
    ensures t.sh.mon.pool.Quiet()
  {
    hide Inv, StepAt, CanStep, JobAt, JobFollows, CountersFollow, QueueFollows, CustodyFollows, WatchFollows, Subject,
      LocalOk, GlobalOk, StartPc, LiveWorker, Serving, Weighs;
    if e.Act? {
      StepFollows(s, e.p, e.ok);
      NoLiveWorker(s, e.p);
      QuietStep(s.sh, e.p, s.procs[e.p], StepAt(s, e.p, e.ok));
    }
  }

  lemma QuietStep(sh: Shared, p: Pid, pc: Pc, step: Step)
    requires FramesFollow(sh, p, pc, step) && GaugesFollow(sh, pc, step) && LifeFollows(sh, pc, step)
    requires PathsFollow(sh, pc, step.pc) && !LiveWorker(pc) && sh.mon.pool.Quiet()
    ensures step.sh.mon.pool.Quiet()
  {
    hide LiveWorker, Serving, RetOk, HoldsMonitor, WantsMonitor, NotifiesAll, ParksAt, Submitter;
    assert Reading(LiveGauge, step.sh) == step.sh.mon.pool.live;
  }

  lemma TerminalStays(s: State, e: Event, t: State)
    requires Inv(s) && Next(s, e, t) && Terminal(s.sh)
    ensures Terminal(t.sh)
  {
    hide Inv, Next;
    EmptiedStays(s, e, t, 4);
    QuietStays(s, e, t);
  }

  // ----- The check under the monitor.

  /** A thread between the loads of a termination check: what it has read still holds. */
  predicate TermOk(sh: Shared, pc: Pc) {
    match pc
    case Check(loads, ret) => ret.RetTerm? ==> sh.mon.pool.Quiet() && Emptied(LoadsDone(loads), sh)
    case Done(outcome) => outcome.SawTermination? ==> Terminal(sh)
    case _ => true
  }

  ghost predicate TermsOk(s: State) { forall p :: p in s.procs ==> TermOk(s.sh, s.procs[p]) }

  lemma TermStays(s: State, e: Event, t: State, pc: Pc)
    requires Inv(s) && Next(s, e, t) && TermOk(s.sh, pc)
    ensures TermOk(t.sh, pc)
  {
    hide Inv, Next, Emptied, Terminal;
    match pc {
      case Check(loads, ret) =>
        if ret.RetTerm? {
          EmptiedStays(s, e, t, LoadsDone(loads));
          QuietStays(s, e, t);
        }
      case Done(outcome) =>
        if outcome.SawTermination? {
          TerminalStays(s, e, t);
        }
      case _ =>
    }
  }

  lemma TermOfStep(sh: Shared, p: Pid, job: Job, pc: Pc, ok: bool, past: Past)
    requires TermOk(sh, pc) && PathsFollow(sh, pc, StepOf(sh, p, job, pc, ok, past).pc)
    requires LocalOk(StepOf(sh, p, job, pc, ok, past).sh, StepOf(sh, p, job, pc, ok, past).pc)
    requires GlobalOk(StepOf(sh, p, job, pc, ok, past).sh)
    ensures var step := StepOf(sh, p, job, pc, ok, past); TermOk(step.sh, step.pc)
  {
    match pc {
      case Check(loads, ret) =>
      case Done(outcome) =>
      case _ => hide StepOf;
    }
  }

  lemma FreshTerm(sh: Shared)
    ensures TermOk(sh, Work(Start)) && forall r: Request :: TermOk(sh, StartPc(r))
  {
  }

  lemma MoverTerm(s: State, p: Pid, ok: bool)
    requires Inv(s) && p in s.procs && CanStep(s, p, s.procs[p]) && TermOk(s.sh, s.procs[p])
    ensures TermOk(StepAt(s, p, ok).sh, StepAt(s, p, ok).pc)
  {
    hide Inv, StepOf, CanStep, JobAt, FramesFollow, GaugesFollow, JobFollows, CountersFollow, QueueFollows,
      CustodyFollows, WatchFollows, Subject, PathsFollow, LifeFollows, LocalOk, GlobalOk, TermOk, PastOf;
    StepFollows(s, p, ok);
    TermOfStep(s.sh, p, JobAt(s, p), s.procs[p], ok, PastOf(s));
  }

  lemma NextTerms(s: State, e: Event, t: State)
    requires Inv(s) && TermsOk(s) && Next(s, e, t)
    ensures TermsOk(t)
  {
    hide Inv, StepAt, CanStep, Subject, StartPc, TermOk, JobAt;
    if e.Act? {
      MoverTerm(s, e.p, e.ok);
    }
    FreshTerm(t.sh);
    forall p | p in t.procs && (e.Act? ==> p != e.p)
      ensures TermOk(t.sh, t.procs[p])
    {
      if p in s.procs {
        TermStays(s, e, t, s.procs[p]);
      }
    }
  }

  lemma {:induction false} AlwaysTerms(b: Behavior, i: nat)
    requires b.Valid() && i < |b.states|
    ensures TermsOk(b.states[i])
  {
    hide Inv, TermsOk, Next;
    if i == 0 {
      NoTermsAtStart(b);
    } else {
      AlwaysTerms(b, i - 1);
      Consecutive(b, i);
      NextTerms(b.states[i - 1], b.events[i - 1], b.states[i]);
    }
  }

  lemma NoTermsAtStart(b: Behavior)
    requires b.Valid()
    ensures TermsOk(b.states[0])
  {
    hide Next;
    FreshTerm(b.states[0].sh);
  }

  // ----- The theorems.

  /** Once terminated, terminated for good. */
  lemma {:induction false} TerminationIsPermanent(b: Behavior, i: nat, k: nat)
    requires b.Valid() && i <= k < |b.states| && Terminal(b.states[i].sh)
    ensures Terminal(b.states[k].sh)
  {
    hide Inv, Terminal, Next;
    if k > i {
      TerminationIsPermanent(b, i, k - 1);
      Consecutive(b, k);
      TerminalStays(b.states[k - 1], b.events[k - 1], b.states[k]);
    }
  }

  /** The check, whose loads happen at different moments, says yes at its last load exactly when all its conditions hold
      at that one moment. */
  lemma CheckSeesTermination(b: Behavior, i: nat, p: Pid)
    requires b.Valid() && i < |b.states| && p in b.states[i].procs && b.states[i].procs[p].Check?
    requires b.states[i].procs[p].loads.Load3? && b.states[i].procs[p].ret.RetTerm?
    ensures b.states[i].sh.acct.cancelling == 0 <==> Terminal(b.states[i].sh)
  {
    hide Behavior.Valid;
    AlwaysTerms(b, i);
    assert TermOk(b.states[i].sh, b.states[i].procs[p]);
  }

  /** A wait that reported termination was right, then and for ever; nothing is left: every task submitted is completed
      or cancelled, the queue is empty, no worker is live and no stop hook is still to run. */
  lemma ReportedTermination(b: Behavior, i: nat, k: nat, p: Pid)
    requires b.Valid() && i <= k < |b.states|
    requires p in b.states[i].procs && b.states[i].procs[p] == Done(SawTermination)
    ensures var s := b.states[k];
            && Terminal(s.sh) && s.sh.acct.submitted == s.sh.acct.completed + s.sh.acct.cancelled
            && s.sh.queue.items == []
            && (forall j :: j in s.jobs ==> s.jobs[j].stage.New? || IsEnd(s.jobs[j].stage))
            && (forall q :: q in s.procs ==> !LiveWorker(s.procs[q]))
  {
    hide Behavior.Valid, Inv, LiveWorker;
    AlwaysTerms(b, i);
    assert TermOk(b.states[i].sh, b.states[i].procs[p]);
    TerminationIsPermanent(b, i, k);
    AlwaysInv(b, k);
    IdleIsExact(b.states[k]);
    forall q | q in b.states[k].procs
      ensures !LiveWorker(b.states[k].procs[q])
    {
      NoLiveWorker(b.states[k], q);
    }
  }

  /** At any moment at which the pool is idle, every task submitted is accounted for. */
  lemma IdleIsExact(s: State)
    requires Inv(s) && IdleNow(s.sh)
    ensures s.sh.acct.submitted == s.sh.acct.completed + s.sh.acct.cancelled && s.sh.queue.items == []
    ensures forall j :: j in s.jobs ==> s.jobs[j].stage.New? || IsEnd(s.jobs[j].stage)
  {
    assert s.sh.queue.items != [] ==> s.sh.queue.items[0] in s.sh.queue.items;
    NoneCounted(s, Slots);
    NoneCounted(s, RunningTasks);
    NoneCounted(s, CancellingTasks);
    InvParts(s);
    hide Inv, RolesOk, MonitorOk, SleepersOk, HandsOk, HeldOk, JobsOk, GaugesOk, KnowledgeOk, Adds;
    forall j | j in s.jobs
      ensures (s.jobs[j].stage.New? || IsEnd(s.jobs[j].stage)) && j !in s.sh.queue.items
      ensures Adds(SubmittedTasks, s.jobs[j].stage)
              <==> Adds(CompletedTasks, s.jobs[j].stage) || Adds(CancelledTasks, s.jobs[j].stage)
      ensures !(Adds(CompletedTasks, s.jobs[j].stage) && Adds(CancelledTasks, s.jobs[j].stage))
    {
      Settled(s.jobs[j].stage);
    }
    var sub, com, can := (job: Job) => Adds(SubmittedTasks, job.stage), (job: Job) => Adds(CompletedTasks, job.stage),
                         (job: Job) => Adds(CancelledTasks, job.stage);
    HowManySplit(s.jobs, sub, com, can);
    assert s.sh.acct.Get(SubmittedTasks) == HowMany(s.jobs, sub)
           && s.sh.acct.Get(CompletedTasks) == HowMany(s.jobs, com);
    assert s.sh.acct.Get(CancelledTasks) == HowMany(s.jobs, can);
  }
}
