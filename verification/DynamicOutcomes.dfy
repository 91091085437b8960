/** One outcome for every job, conservation of the counters, and the removable FIFO. */
module DynamicOutcomes {
  import opened PoolTypes
  import opened PoolAccounting
  import opened PoolShared
  import opened Counting
  import opened DynamicPool
  import opened DynamicRun
  import opened DynamicFacts
  import opened DynamicInvariant
  import opened DynamicStepJobs
  import opened DynamicLifecycle
  import opened DynamicRetire
  import opened DynamicTermination

  // ----- one outcome

  /** At most one acceptance call, at most one of run and cancel, either only after acceptance; every end says
      which of the three outcomes it was. */
  lemma OneOutcome(b: Behavior, i: nat, j: Pid)
    requires b.Valid() && i < |b.states| && j in b.states[i].jobs
    ensures var job := b.states[i].jobs[j];
            && job.accepts <= 1 && job.runs + job.cancels <= job.accepts
            && (job.stage.Completed? ==> job.runs == 1 && job.cancels == 0)
            && (job.stage.Cancelled? ==> job.runs == 0 && job.cancels == 1)
            && (job.stage.Rejected? ==> job.accepts == 0)
            && (job.stage.Refused? ==> job.accepts == 1 && job.runs == 0 && job.cancels == 0)
  {
    AlwaysInv(b, i);
    InvParts(b.states[i]);
    hide Inv;
    assert JobOk(b.states[i].jobs[j]);
    hide EntryOk;
  }

  /** A job that has ended stays as it ended, whatever workers, stops and tickets still do. */
  lemma {:induction false} EndIsFinal(b: Behavior, i: nat, k: nat, j: Pid)
    requires b.Valid() && i <= k < |b.states|
    requires j in b.states[i].jobs && IsEnd(b.states[i].jobs[j].stage)
    ensures j in b.states[k].jobs && b.states[k].jobs[j].stage == b.states[i].jobs[j].stage
  {
    hide Inv, KnowledgeOk, Next;
    if k > i {
      EndIsFinal(b, i, k - 1, j);
      AlwaysKnowledge(b, k - 1);
      StageMoves(b.states[k - 1], b.events[k - 1], b.states[k], j);
    }
  }

  // ----- entries

  /** In every step every entry stays as it is or makes one of its moves. */
  lemma EntriesMove(s: State, e: Event, t: State, j: Pid)
    requires Inv(s) && KnowledgeOk(s) && Next(s, e, t) && j in s.jobs
    ensures j in t.jobs && EntryEdge(s.jobs[j].entry, t.jobs[j].entry)
  {
    hide Inv, KnowledgeOk, StepOf, Subject, StartPc, EntryEdge, Asleep, CanStep;
    if e.Act? {
      MoverEntry(s, e.p, e.ok);
    }
    SameEntry(s.jobs[j].entry);
  }

  lemma SameEntry(entry: Entry)
    ensures EntryEdge(entry, entry)
  {
  }

  lemma MoverEntry(s: State, p: Pid, ok: bool)
    requires p in s.procs && CanStep(s, p, s.procs[p]) && Inv(s) && KnowledgeOk(s)
    ensures SubjectKnown(s, p) && EntryEdge(JobAt(s, p).entry, StepAt(s, p, ok).job.entry)
  {
    hide Inv, KnowledgeOk, CanStep, StepOf, JobAt, StageReady, OwnReady, EntryOk, CallsOk, LocksReady, EntryEdge,
      Subject, SubjectKnown, EntryWatchFollows;
    StepStages(s, p, ok);
    Unfinished(s, p);
    MoverReady(s, p);
    EntryOfStep(s.sh, p, JobAt(s, p), s.procs[p], ok, PastOf(s));
  }

  lemma Unfinished(s: State, p: Pid)
    requires p in s.procs && CanStep(s, p, s.procs[p])
    ensures !Finished(s.procs[p])
  {
  }

  /** The callbacks of a ticketed job leave its entry once and for all: a taken entry stays taken, one withheld for a
      ticket is never queued, and a rejected or cancelled one stays so. */
  lemma {:induction false} EntriesAreOneWay(b: Behavior, i: nat, k: nat, j: Pid)
    requires b.Valid() && i <= k < |b.states| && j in b.states[i].jobs
    ensures j in b.states[k].jobs
    ensures var before, after := b.states[i].jobs[j].entry, b.states[k].jobs[j].entry;
            && (before.EntryTaken? || before.EntryRejected? || before.EntryCancelled? ==> after == before)
            && (before.EntryCancelling? ==> after.EntryCancelling? || after.EntryCancelled?)
            && (before.Accepting? && before.requested ==>
                  after == before || after.EntryCancelling? || after.EntryCancelled? || after.EntryRejected?)
  {
    hide Inv, KnowledgeOk, Next;
    if k > i {
      EntriesAreOneWay(b, i, k - 1, j);
      AlwaysKnowledge(b, k - 1);
      EntriesMove(b.states[k - 1], b.events[k - 1], b.states[k], j);
    }
  }

  // ----- conservation

  // Slots: reserved and not in the queued count yet, queued, and on the way out of the queue.
  predicate HoldsSlot(job: Job) { Adds(Slots, job.stage) }
  predicate Reserving(job: Job) { Unpublished(job.stage) && !job.stage.Counted? }
  predicate Entered(job: Job) { HoldsSlot(job) && !Reserving(job) }
  predicate InQueuedCount(job: Job) { Adds(Queued, job.stage) }
  predicate Outgoing(job: Job) { InClaim(job) || InCancellation(job) }
  predicate InClaim(job: Job) { Claiming(job.stage) }
  predicate InCancellation(job: Job) { BeingCancelled(job.stage) }

  // Submitted tasks: still under way, completed and cancelled.
  predicate CountsSubmitted(job: Job) { Adds(SubmittedTasks, job.stage) }
  predicate CountsCompleted(job: Job) { Adds(CompletedTasks, job.stage) }
  predicate CountsCancelled(job: Job) { Adds(CancelledTasks, job.stage) }
  predicate HasOutcome(job: Job) { CountsCompleted(job) || CountsCancelled(job) }
  predicate Underway(job: Job) { CountsSubmitted(job) && !HasOutcome(job) }

  lemma SlotShares(job: Job)
    ensures HoldsSlot(job) <==> Reserving(job) || Entered(job)
    ensures Entered(job) <==> InQueuedCount(job) || Outgoing(job)
    ensures !(InQueuedCount(job) && Outgoing(job)) && !(InClaim(job) && InCancellation(job))
  {
  }

  lemma OutcomeShares(job: Job)
    ensures CountsSubmitted(job) <==> Underway(job) || HasOutcome(job)
    ensures !(CountsCompleted(job) && CountsCancelled(job))
  {
  }

  lemma SlotsSplit(jobs: map<Pid, Job>)
    ensures HowMany(jobs, HoldsSlot)
            == HowMany(jobs, Reserving) + HowMany(jobs, InQueuedCount) + HowMany(jobs, InClaim)
               + HowMany(jobs, InCancellation)
  {
    forall j | j in jobs
      ensures HoldsSlot(jobs[j]) <==> Reserving(jobs[j]) || Entered(jobs[j])
      ensures Entered(jobs[j]) <==> InQueuedCount(jobs[j]) || Outgoing(jobs[j])
      ensures !(InQueuedCount(jobs[j]) && Outgoing(jobs[j])) && !(InClaim(jobs[j]) && InCancellation(jobs[j]))
    {
      SlotShares(jobs[j]);
    }
    hide HowMany, HoldsSlot, Reserving, InQueuedCount, InClaim, InCancellation;
    HowManySplit(jobs, HoldsSlot, Reserving, Entered);
    HowManySplit(jobs, Entered, InQueuedCount, Outgoing);
    HowManySplit(jobs, Outgoing, InClaim, InCancellation);
  }

  lemma OutcomesSplit(jobs: map<Pid, Job>)
    ensures HowMany(jobs, CountsSubmitted)
            == HowMany(jobs, Underway) + HowMany(jobs, CountsCompleted) + HowMany(jobs, CountsCancelled)
  {
    forall j | j in jobs
      ensures CountsSubmitted(jobs[j]) <==> Underway(jobs[j]) || HasOutcome(jobs[j])
      ensures !(CountsCompleted(jobs[j]) && CountsCancelled(jobs[j]))
    {
      OutcomeShares(jobs[j]);
    }
    hide HowMany, CountsSubmitted, CountsCompleted, CountsCancelled;
    HowManySplit(jobs, CountsSubmitted, Underway, HasOutcome);
    HowManySplit(jobs, HasOutcome, CountsCompleted, CountsCancelled);
  }

  lemma CountersRead(s: State)
    requires CountersOk(s)
    ensures s.sh.acct.slots == HowMany(s.jobs, HoldsSlot) && s.sh.acct.queued == HowMany(s.jobs, InQueuedCount)
    ensures s.sh.acct.submitted == HowMany(s.jobs, CountsSubmitted)
    ensures s.sh.acct.completed == HowMany(s.jobs, CountsCompleted)
    ensures s.sh.acct.cancelled == HowMany(s.jobs, CountsCancelled)
  {
    hide HowMany, Adds;
    CounterReads(s, Slots, HoldsSlot);
    CounterReads(s, Queued, InQueuedCount);
    CounterReads(s, SubmittedTasks, CountsSubmitted);
    CounterReads(s, CompletedTasks, CountsCompleted);
    CounterReads(s, CancelledTasks, CountsCancelled);
  }

  lemma CounterReads(s: State, c: Counter, f: Job -> bool)
    requires CountersOk(s) && forall job: Job :: f(job) <==> Adds(c, job.stage)
    ensures s.sh.acct.Get(c) == HowMany(s.jobs, f)
  {
    hide Adds;
    var g := (job: Job) => Adds(c, job.stage);
    assert s.sh.acct.Get(c) == HowMany(s.jobs, g);
    assert Chosen(s.jobs, f) == Chosen(s.jobs, g);
  }

  /** After every atomic step the slots are those of submissions not yet queued, of queued tasks, of claims not
      yet released and of cancellations at work; a submitted task is completed, cancelled or under way. */
  lemma CountersConserved(b: Behavior, i: nat)
    requires b.Valid() && i < |b.states|
    ensures var s, acct := b.states[i], b.states[i].sh.acct;
            && acct.slots == HowMany(s.jobs, Reserving) + acct.queued + HowMany(s.jobs, InClaim)
                              + HowMany(s.jobs, InCancellation)
            && acct.submitted == acct.completed + acct.cancelled + HowMany(s.jobs, Underway)
  {
    hide Behavior.Valid, Inv, HowMany;
    AlwaysInv(b, i);
    InvParts(b.states[i]);
    hide CountersOk;
    CountersRead(b.states[i]);
    SlotsSplit(b.states[i].jobs);
    OutcomesSplit(b.states[i].jobs);
  }

  /** No count of tasks or threads is ever below zero: no decrement of the pool underflows. */
  lemma NothingUnderflows(b: Behavior, i: nat)
    requires b.Valid() && i < |b.states|
    ensures forall c: Counter :: b.states[i].sh.acct.Get(c) >= 0
    ensures forall g: Gauge :: Reading(g, b.states[i].sh) >= 0
  {
    AlwaysInv(b, i);
    InvParts(b.states[i]);
    hide Inv;
    NonNegative(b.states[i]);
  }

  // ----- capacity

  /** A slot taken against the capacity, not handed to a worker spawned for it. */
  predicate Ordinary(job: Job) { Adds(Slots, job.stage) && !job.handoff }

  ghost predicate WithinCapacity(s: State) {
    s.sh.cfg.capacity.Some? ==> HowMany(s.jobs, Ordinary) <= s.sh.cfg.capacity.value
  }

  lemma OrdinaryAtMostSlots(s: State)
    requires CountersOk(s)
    ensures HowMany(s.jobs, Ordinary) <= s.sh.acct.slots
  {
    var f := (job: Job) => Adds(Slots, job.stage);
    assert s.sh.acct.Get(Slots) == HowMany(s.jobs, f);
    assert Chosen(s.jobs, Ordinary) <= Chosen(s.jobs, f);
    SubsetSize(Chosen(s.jobs, Ordinary), Chosen(s.jobs, f));
  }

  lemma SubsetSize(small: set<Pid>, large: set<Pid>)
    requires small <= large
    ensures |small| <= |large|
  {
    assert large == small + (large - small);
  }

  /** Only a submitter that has just seen room takes an ordinary slot. */
  lemma OrdinaryHasRoom(sh: Shared, p: Pid, job: Job, pc: Pc, ok: bool, past: Past)
    requires job.stage.New? && !StepOf(sh, p, job, pc, ok, past).job.handoff
    requires StepOf(sh, p, job, pc, ok, past).job.stage.Reserved? && (pc.Sub? || pc.Grow?)
    ensures sh.acct.HasRoom(sh.cfg.capacity)
  {
  }

  lemma ActCapacity(s: State, p: Pid, ok: bool, worker: Pid, t: State)
    requires Inv(s) && KnowledgeOk(s) && WithinCapacity(s) && Acts(s, p, ok, worker, t)
    ensures WithinCapacity(t)
  {
    hide Inv, KnowledgeOk, StepAt, CanStep, Subject, StageEdge, PathsFollow, Ordinary;
    var step, job, subject := StepAt(s, p, ok), JobAt(s, p), Subject(s.sh, p, s.procs[p]);
    StepStages(s, p, ok);
    ConfigKept(s, p, ok);
    if subject.Some? {
      HowManyUpdated(s.jobs, subject.value, step.job, Ordinary);
      NewlyOrdinary(s, p, ok);
      InvParts(s);
      OrdinaryAtMostSlots(s);
    }
  }

  lemma ConfigKept(s: State, p: Pid, ok: bool)
    requires Inv(s) && KnowledgeOk(s) && p in s.procs && CanStep(s, p, s.procs[p])
    ensures StepAt(s, p, ok).sh.cfg == s.sh.cfg
  {
    hide Inv, KnowledgeOk, StepAt, CanStep, JobAt, StageEdge, WatchFollows, PathsFollow;
    StepRespects(s, p, ok);
    FramesKeepConfig(s.sh, p, s.procs[p], StepAt(s, p, ok));
  }

  lemma NewlyOrdinary(s: State, p: Pid, ok: bool)
    requires Inv(s) && KnowledgeOk(s) && p in s.procs && CanStep(s, p, s.procs[p])
    ensures Ordinary(StepAt(s, p, ok).job) && !Ordinary(JobAt(s, p)) ==> s.sh.acct.HasRoom(s.sh.cfg.capacity)
  {
    hide Inv, KnowledgeOk, StepOf, CanStep, JobAt, StageEdge, PathsFollow, Adds;
    var step := StepAt(s, p, ok);
    StepStages(s, p, ok);
    NewlyCounted(JobAt(s, p).stage, step.job.stage);
    if Ordinary(step.job) && !Ordinary(JobAt(s, p)) {
      assert Reserves(s, p, step);
      ReservesUnderMonitor(s, p, ok);
      OrdinaryHasRoom(s.sh, p, JobAt(s, p), s.procs[p], ok, PastOf(s));
    }
  }

  lemma QuietCapacity(s: State, e: Event, t: State)
    requires WithinCapacity(s) && Next(s, e, t) && !e.Act? && RolesOk(s)
    ensures WithinCapacity(t)
  {
    match e {
      case Arrive(p, r) =>
        if r.NewSubmit? {
          HowManyUpdated(s.jobs, p, NewJob(r.ticketed, r.thread, p), Ordinary);
        }
      case Spurious(p) =>
        if AwaitsEntry(s.procs[p]) {
          var j := s.procs[p].target;
          assert Target(p, s.procs[p]) == Some(j);
          HowManyUpdated(s.jobs, j, JobOf(s.jobs, j).(entryParked := JobOf(s.jobs, j).entryParked - {p}), Ordinary);
        }
      case _ =>
    }
  }

  /** Ordinary slots never exceed the configured capacity. */
  lemma {:induction false} CapacityHolds(b: Behavior, i: nat)
    requires b.Valid() && i < |b.states|
    ensures WithinCapacity(b.states[i])
  {
    hide Inv, KnowledgeOk, WithinCapacity, Acts, Arrives, TimesOut, WakesSpuriously;
    if i == 0 {
      RoomAtStart(b);
    } else {
      CapacityHolds(b, i - 1);
      AlwaysKnowledge(b, i - 1);
      InvParts(b.states[i - 1]);
      match b.events[i - 1] {
        case Act(p, ok, worker) => ActCapacity(b.states[i - 1], p, ok, worker, b.states[i]);
        case _ => QuietCapacity(b.states[i - 1], b.events[i - 1], b.states[i]);
      }
    }
  }

  lemma RoomAtStart(b: Behavior)
    requires b.Valid()
    ensures WithinCapacity(b.states[0])
  {
    hide Next;
    HowManyNone<Job>(Ordinary);
  }
}
