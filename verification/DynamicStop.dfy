/** After a stop has drained the queue nothing is ever claimed or published again. */
module DynamicStop {
  import opened PoolTypes
  import opened PoolAccounting
  import opened PoolShared
  import opened DynamicPool
  import opened DynamicRun
  import opened DynamicFacts
  import opened DynamicInvariant
  import opened DynamicStepJobs
  import opened DynamicLifecycle
  import opened DynamicRetire
  import opened DynamicTermination
  import opened DynamicShutdown
  import opened DynamicTickets

  /** Not on the way into the queue, in it, or on the way out of it into a worker's or a canceller's hands. */
  predicate OutOfQueue(st: Stage) {
    st.New? || IsEnd(st) || OwnedByWorker(st) || (BeingCancelled(st) && !st.Uncounted?)
  }

  /** Admission closed, nobody in flight, and no job anywhere near the queue. */
  ghost predicate Sealed(s: State) {
    Emptied(1, s.sh) && forall j :: j in s.jobs ==> OutOfQueue(s.jobs[j].stage)
  }

  /** A stop that has seen the last submitter leave. */
  predicate PastWait(pc: Pc) {
    pc.Purge? || (pc.Stop? && (pc.stop.StopWaitSub? || pc.stop.StopRunning? || pc.stop.StopQueueLock?))
  }

  /** A stop that has drained the queue. */
  predicate PastDrain(pc: Pc) {
    match pc
    case Stop(stop) => stop.StopNotify?
    case Fin(_, _, ret) => ret.RetStop?
    case Check(_, ret) => ret.RetStop?
    case NotifyLock(ret) => ret.RetStop? || ret.RetStopEnd?
    case NotifyAll(ret) => ret.RetStop? || ret.RetStopEnd?
    case Done(outcome) => outcome.Stopped?
    case _ => false
  }

  ghost predicate StopOk(s: State, pc: Pc) {
    && (PastWait(pc) ==> Emptied(1, s.sh))
    && (PastDrain(pc) ==> Sealed(s))
  }

  ghost predicate StopsOk(s: State) { forall p :: p in s.procs ==> StopOk(s, s.procs[p]) }

  // ----- sealing

  /** Whoever holds a job near the queue owns the queue lock. */
  lemma NearQueueHoldsLock(h: Pid, pc: Pc)
    ensures HandStage(pc).Some? && !OutOfQueue(HandStage(pc).value) && !Unpublished(HandStage(pc).value) ==>
            HoldsQueue(pc)
  {
  }

  /** The stop that finds the queue empty, with nobody in flight, has sealed it. */
  lemma EmptyQueueSeals(s: State, p: Pid)
    requires Inv(s) && Emptied(1, s.sh) && s.sh.queue.items == []
    requires p in s.procs && HoldsQueue(s.procs[p]) && HandStage(s.procs[p]).None?
    ensures Sealed(s)
  {
    NobodyInFlight(s);
    InvParts(s);
    hide Inv, RolesOk, SleepersOk, FindsOk, OwnJobsOk, CountersOk, GaugesOk, HandStage, HoldsQueue, Backlog, Target,
      EntryOk, HoldsMonitor, HoldsEntry, LocksOk;
    forall j | j in s.jobs
      ensures OutOfQueue(s.jobs[j].stage)
    {
      assert JobOk(s.jobs[j]);
      if !OutOfQueue(s.jobs[j].stage) {
        var h := s.jobs[j].holder.value;
        assert InHands(h, s.procs[h], j) && HandOk(s.jobs, h, s.procs[h]);
        NearQueueHoldsLock(h, s.procs[h]);
        OneQueueOwner(s, p, h);
      }
    }
  }

  lemma OneQueueOwner(s: State, p: Pid, h: Pid)
    requires LocksOk(s) && p in s.procs && h in s.procs && HoldsQueue(s.procs[p]) && HoldsQueue(s.procs[h])
    ensures p == h
  {
    assert s.sh.queue.owner == Some(p) && s.sh.queue.owner == Some(h);
  }

  lemma OutOfQueueStays(before: Stage, after: Stage)
    requires OutOfQueue(before) && StageEdge(before, after)
    ensures OutOfQueue(after) || (before.New? && after.Reserved?)
  {
  }

  lemma SealedStays(s: State, e: Event, t: State)
    requires Inv(s) && KnowledgeOk(s) && Next(s, e, t) && Sealed(s)
    ensures Sealed(t)
  {
    hide Inv, KnowledgeOk, Next, Emptied;
    EmptiedStays(s, e, t, 1);
    forall j | j in t.jobs
      ensures OutOfQueue(t.jobs[j].stage)
    {
      if j in s.jobs {
        StageMoves(s, e, t, j);
        OutOfQueueStays(s.jobs[j].stage, t.jobs[j].stage);
        if t.jobs[j].stage.Reserved? {
          NoReservation(s, e, t, j);
        }
      } else {
        NewJobOut(s, e, t, j);
      }
    }
  }

  lemma NoReservation(s: State, e: Event, t: State, j: Pid)
    requires Inv(s) && KnowledgeOk(s) && Next(s, e, t) && Emptied(1, s.sh) && j in s.jobs && j in t.jobs
    ensures !(s.jobs[j].stage.New? && t.jobs[j].stage.Reserved?)
  {
    hide Inv, KnowledgeOk, StartPc, CanStep, StepAt, Subject;
    if s.jobs[j].stage.New? && t.jobs[j].stage.Reserved? {
      ReservedByMover(s, e.p, e.ok, e.worker, t, j);
      ReservesUnderMonitor(s, e.p, e.ok);
      InFlightCounted(s, e.p);
    }
  }

  lemma NewJobOut(s: State, e: Event, t: State, j: Pid)
    requires Inv(s) && Next(s, e, t) && j in t.jobs && j !in s.jobs
    ensures t.jobs[j].stage.New?
  {
    InvParts(s);
    hide Inv, StartPc, CanStep, StepAt, Asleep;
    if e.Act? {
      NotFinished(s, e.p);
      MoverReady(s, e.p);
    }
    hide Subject;
  }

  // ----- every stop

  /** How a stop gets past its wait and past its drain. */
  lemma StopPaths(sh: Shared, p: Pid, job: Job, pc: Pc, ok: bool, past: Past)
    requires RoleOf(pc).Stopper? && RetOk(p, pc) && LocalOk(sh, pc)
    ensures var next := StepOf(sh, p, job, pc, ok, past).pc;
            && (PastWait(next) ==> PastWait(pc) || (sh.gate.closed && sh.gate.inflight <= 0))
            && (PastDrain(next) ==>
                  PastDrain(pc) || (PastWait(pc) && sh.queue.items == [] && HoldsQueue(pc) && HandStage(pc).None?))
  {
    match pc {
      case Purge(g, list, j) =>
      case Stop(g) =>
      case _ =>
    }
  }

  lemma StopsAreStoppers(pc: Pc)
    ensures PastWait(pc) || PastDrain(pc) ==> RoleOf(pc).Stopper?
  {
  }

  lemma MoverStops(s: State, p: Pid, ok: bool)
    requires Inv(s) && KnowledgeOk(s) && p in s.procs && StopOk(s, s.procs[p]) && CanStep(s, p, s.procs[p])
    ensures StopOk(s, StepAt(s, p, ok).pc)
  {
    hide Inv, CanStep, StepOf, JobAt, LocalOk, Sealed, RoleOf, PastWait, PastDrain, RetOk, HandStage, HoldsQueue;
    var next := StepAt(s, p, ok).pc;
    StopsAreStoppers(next);
    RoleKept(s, p, ok);
    NotFinished(s, p);
    MoverReady(s, p);
    InFlightNatural(s);
    if RoleOf(s.procs[p]).Stopper? {
      assert LocalOk(s.sh, s.procs[p]);
      StopPaths(s.sh, p, JobAt(s, p), s.procs[p], ok, PastOf(s));
      if PastDrain(next) && !PastDrain(s.procs[p]) {
        EmptyQueueSeals(s, p);
      }
    }
  }

  lemma StopStays(s: State, e: Event, t: State, pc: Pc)
    requires Inv(s) && KnowledgeOk(s) && Next(s, e, t) && StopOk(s, pc)
    ensures StopOk(t, pc)
  {
    hide Inv, KnowledgeOk, Next, Emptied, PastWait, PastDrain, Sealed;
    if PastWait(pc) {
      EmptiedStays(s, e, t, 1);
    }
    if PastDrain(pc) {
      SealedStays(s, e, t);
    }
  }

  lemma FreshStop(s: State)
    ensures StopOk(s, Work(Start)) && StopOk(s, Idle(Parked(true, true))) && forall r: Request :: StopOk(s, StartPc(r))
  {
  }

  lemma NextStops(s: State, e: Event, t: State)
    requires Inv(s) && KnowledgeOk(s) && StopsOk(s) && Next(s, e, t)
    ensures StopsOk(t)
  {
    hide Inv, KnowledgeOk, StopOk, StepAt, StartPc, Asleep, CanStep, Subject, JobAt;
    if e.Act? {
      MoverStops(s, e.p, e.ok);
    }
    FreshStop(s);
    forall p | p in t.procs
      ensures StopOk(t, t.procs[p])
    {
      assert StopOk(s, t.procs[p]);
      StopStays(s, e, t, t.procs[p]);
    }
  }

  lemma NoStopsAtStart(b: Behavior)
    requires b.Valid()
    ensures StopsOk(b.states[0])
  {
    hide Next;
  }

  lemma {:induction false} AlwaysStops(b: Behavior, i: nat)
    requires b.Valid() && i < |b.states|
    ensures StopsOk(b.states[i])
  {
    hide Inv, KnowledgeOk, StopsOk, Next;
    if i == 0 {
      NoStopsAtStart(b);
    } else {
      AlwaysStops(b, i - 1);
      AlwaysKnowledge(b, i - 1);
      NextStops(b.states[i - 1], b.events[i - 1], b.states[i]);
    }
  }

  // ----- nothing moves any more

  /** A sealed queue is touched by no step. */
  lemma SealedQueueStill(s: State, e: Event, t: State)
    requires Inv(s) && KnowledgeOk(s) && Next(s, e, t) && Sealed(s)
    ensures t.sh.queue.pushed == s.sh.queue.pushed && t.sh.queue.claimed == s.sh.queue.claimed
  {
    hide Inv, KnowledgeOk, StartPc, Asleep, CanStep, JobAt, Spawns, StepAt, Subject, Sealed, LineFollows;
    if e.Act? {
      NothingAtHand(s, e.p);
      StepRespects(s, e.p, e.ok);
      StillLine(s.sh, e.p, s.procs[e.p], StepAt(s, e.p, e.ok));
    }
  }

  lemma StillLine(sh: Shared, p: Pid, pc: Pc, step: Step)
    requires LineFollows(sh, p, pc, step) && pc != Pub(Push) && !(pc.Work? && pc.work.ClaimRun?)
    ensures step.sh.queue.pushed == sh.queue.pushed && step.sh.queue.claimed == sh.queue.claimed
  {
  }

  lemma NothingAtHand(s: State, p: Pid)
    requires Inv(s) && Sealed(s) && p in s.procs
    ensures s.procs[p] != Pub(Push) && !(s.procs[p].Work? && s.procs[p].work.ClaimRun?)
  {
    InvParts(s);
    hide Inv, RolesOk, LocksOk, SleepersOk, HeldOk, QueueOk, FindsOk, JobsOk, OwnJobsOk, CountersOk, GaugesOk,
      HandStage, Backlog, Target;
    assert HandOk(s.jobs, p, s.procs[p]);
    NearQueuePositions(s.procs[p]);
  }

  lemma NearQueuePositions(pc: Pc)
    ensures pc == Pub(Push) || (pc.Work? && pc.work.ClaimRun?) ==>
            HandStage(pc).Some? && !OutOfQueue(HandStage(pc).value)
  {
  }

  /** From the moment a stop has drained the queue, and for ever after it has returned: admission is closed, the
      queue is empty, and no job is published or claimed again. */
  lemma {:induction false} StopIsComplete(b: Behavior, i: nat, k: nat, p: Pid)
    requires b.Valid() && i <= k < |b.states| && p in b.states[i].procs && PastDrain(b.states[i].procs[p])
    ensures Sealed(b.states[k]) && b.states[k].sh.queue.items == []
    ensures b.states[k].sh.queue.pushed == b.states[i].sh.queue.pushed
    ensures b.states[k].sh.queue.claimed == b.states[i].sh.queue.claimed
  {
    hide Inv, KnowledgeOk, Sealed, Next, PastDrain, StopsOk, PastWait;
    AlwaysKnowledge(b, k);
    if k == i {
      AlwaysStops(b, i);
      StopAt(b.states[i], p);
    } else {
      StopIsComplete(b, i, k - 1, p);
      AlwaysKnowledge(b, k - 1);
      SealedStays(b.states[k - 1], b.events[k - 1], b.states[k]);
      SealedQueueStill(b.states[k - 1], b.events[k - 1], b.states[k]);
    }
    SealedIsEmpty(b.states[k]);
  }

  lemma StopAt(s: State, p: Pid)
    requires StopsOk(s) && p in s.procs && PastDrain(s.procs[p])
    ensures Sealed(s)
  {
    hide Sealed, PastDrain;
    assert StopOk(s, s.procs[p]);
  }

  lemma SealedIsEmpty(s: State)
    requires Inv(s) && Sealed(s)
    ensures s.sh.queue.items == []
  {
    hide Inv, Sealed;
    assert s.sh.queue.items != [] ==> s.sh.queue.items[0] in s.sh.queue.items;
    NoneQueued(s);
  }

  lemma NoneQueued(s: State)
    requires Inv(s) && Sealed(s)
    ensures forall j :: j !in s.sh.queue.items
  {
    InvParts(s);
    hide Inv;
  }

  // ----- the fate of every accepted job

  predicate WasClaimed(st: Stage) { st.ClaimRunning? || OwnedByWorker(st) || st.Completed? }

  /** The record of claims lists exactly the jobs a worker has claimed. */
  ghost predicate ClaimsOk(s: State) {
    forall j :: j in s.sh.queue.claimed <==> j in s.jobs && WasClaimed(s.jobs[j].stage)
  }

  lemma NewlyClaimed(before: Stage, after: Stage)
    requires StageEdge(before, after)
    ensures WasClaimed(after) <==> WasClaimed(before) || (before.ClaimUncounted? && after.ClaimRunning?)
  {
  }

  lemma ClaimInHandIs(pc: Pc)
    ensures HandStage(pc) == Some(ClaimUncounted) <==> pc.Work? && pc.work.ClaimRun?
    ensures pc.Work? && pc.work.ClaimRun? ==> ClaimInHand(pc) == [pc.work.j]
  {
  }

  /** A job becomes claimed exactly in the step that records its claim. */
  lemma ClaimRecorded(sh: Shared, p: Pid, job: Job, pc: Pc, ok: bool, past: Past)
    requires StageReady(sh, p, job, pc) && OthersKept(job, pc, StepOf(sh, p, job, pc, ok, past))
    requires CustodyFollows(p, Subject(sh, p, pc), job, pc, StepOf(sh, p, job, pc, ok, past))
    ensures var after := StepOf(sh, p, job, pc, ok, past).job.stage;
            (job.stage.ClaimUncounted? && after.ClaimRunning?) <==> pc.Work? && pc.work.ClaimRun?
  {
    ClaimInHandIs(pc);
    if !(pc.Work? && pc.work.ClaimRun?) {
      hide StepOf, HandStage, Backlog, Subject;
    }
  }

  lemma ActClaims(s: State, p: Pid, ok: bool, worker: Pid, t: State)
    requires Inv(s) && KnowledgeOk(s) && ClaimsOk(s) && Acts(s, p, ok, worker, t)
    ensures ClaimsOk(t)
  {
    hide Inv, KnowledgeOk, CanStep, Spawns, StepAt, Subject, StageEdge, WasClaimed;
    var pc, step, job := s.procs[p], StepAt(s, p, ok), JobAt(s, p);
    StepStages(s, p, ok);
    ClaimStep(s, p, ok);
    NewlyClaimed(job.stage, step.job.stage);
  }

  lemma ClaimStep(s: State, p: Pid, ok: bool)
    requires Inv(s) && KnowledgeOk(s) && p in s.procs && CanStep(s, p, s.procs[p])
    ensures var pc, step, job := s.procs[p], StepAt(s, p, ok), JobAt(s, p);
            if job.stage.ClaimUncounted? && step.job.stage.ClaimRunning? then
              Subject(s.sh, p, pc).Some? && step.sh.queue.claimed == s.sh.queue.claimed + [Subject(s.sh, p, pc).value]
            else step.sh.queue.claimed == s.sh.queue.claimed
  {
    hide Inv, KnowledgeOk, CanStep, StepOf, StageReady, OthersKept, CustodyFollows, LineFollows, JobAt;
    StepRespects(s, p, ok);
    NotFinished(s, p);
    MoverReady(s, p);
    ClaimRecorded(s.sh, p, JobAt(s, p), s.procs[p], ok, PastOf(s));
    ClaimInHandIs(s.procs[p]);
    ClaimedLine(s.sh, p, s.procs[p], StepAt(s, p, ok));
  }

  lemma ClaimedLine(sh: Shared, p: Pid, pc: Pc, step: Step)
    requires LineFollows(sh, p, pc, step)
    ensures step.sh.queue.claimed
            == if pc.Work? && pc.work.ClaimRun? then sh.queue.claimed + [pc.work.j] else sh.queue.claimed
    ensures pc.Work? && pc.work.ClaimRun? ==> Subject(sh, p, pc) == Some(pc.work.j)
  {
  }

  lemma QuietQueue(s: State, e: Event, t: State)
    requires Next(s, e, t) && !e.Act?
    ensures t.sh.queue == s.sh.queue
  {
    hide StartPc, Asleep, AwaitsEntry;
  }

  lemma ArriveClaims(s: State, p: Pid, r: Request, t: State)
    requires ClaimsOk(s) && Arrives(s, p, r, t)
    ensures ClaimsOk(t)
  {
    hide StartPc;
  }

  lemma QuietClaims(s: State, e: Event, t: State)
    requires Inv(s) && ClaimsOk(s) && Next(s, e, t) && !e.Act?
    ensures ClaimsOk(t)
  {
    hide Inv, Arrives, WakesSpuriously, TimesOut, WasClaimed, RolesOk;
    QuietQueue(s, e, t);
    InvRoles(s);
    if e.Arrive? {
      ArriveClaims(s, e.p, e.request, t);
    } else {
      SleeperRecords(s, e, t);
    }
  }

  lemma NoClaimsAtStart(b: Behavior)
    requires b.Valid()
    ensures ClaimsOk(b.states[0])
  {
    hide Next;
  }

  lemma {:induction false} AlwaysClaims(b: Behavior, i: nat)
    requires b.Valid() && i < |b.states|
    ensures ClaimsOk(b.states[i])
  {
    hide Inv, KnowledgeOk, ClaimsOk, Acts, Arrives, TimesOut, WakesSpuriously, Behavior.Valid;
    if i == 0 {
      NoClaimsAtStart(b);
    } else {
      Consecutive(b, i);
      AlwaysClaims(b, i - 1);
      match b.events[i - 1] {
        case Act(p, ok, worker) => ActClaims(b.states[i - 1], p, ok, worker, b.states[i]);
        case _ => QuietClaims(b.states[i - 1], b.events[i - 1], b.states[i]);
      }
    }
  }

  lemma SealedFates(st: Stage)
    ensures OutOfQueue(st) && Adds(SubmittedTasks, st) ==> (WasClaimed(st) <==> !BeingCancelled(st) && !st.Cancelled?)
  {
  }

  /** Once a stop has drained the queue, every accepted job was either claimed by a worker before, or is credited to
      one ticket of that job or to one stop, never both. */
  lemma FateAfterStop(b: Behavior, i: nat, p: Pid, j: Pid)
    requires b.Valid() && i < |b.states| && p in b.states[i].procs && PastDrain(b.states[i].procs[p])
    requires j in b.states[i].jobs && Adds(SubmittedTasks, b.states[i].jobs[j].stage)
    ensures var s, job := b.states[i], b.states[i].jobs[j];
            && (j in s.sh.queue.claimed <==> job.cancelledBy.None?)
            && (job.cancelledBy.Some? ==>
                  var q := job.cancelledBy.value;
                  q in s.procs && (RoleOf(s.procs[q]).Stopper?
                                   || (RoleOf(s.procs[q]).Canceller? && CreditJob(q, s.procs[q]) == Some(j))))
  {
    hide Behavior.Valid, Inv, CreditJob, RoleOf, Adds, WasClaimed, PastDrain, OutOfQueue, StopsOk, CreditPlacesOk;
    var s := b.states[i];
    AlwaysClaims(b, i);
    AlwaysTickets(b, i);
    AlwaysStops(b, i);
    StopAt(s, p);
    assert CreditOk(s.jobs[j]) && CreditorsOk(s);
    SealedFates(s.jobs[j].stage);
    SealedCredit(s.jobs[j]);
    if s.jobs[j].cancelledBy.Some? {
      assert CreditorOk(s, j, s.jobs[j].cancelledBy.value);
    }
  }

  lemma SealedCredit(job: Job)
    requires CreditOk(job) && OutOfQueue(job.stage)
    ensures job.cancelledBy.Some? <==> BeingCancelled(job.stage) || job.stage.Cancelled?
  {
  }
}
