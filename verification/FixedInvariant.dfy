/** The base invariant of the fixed pool: monitor, custody, injector, counters, lifecycle. */
module FixedInvariant {
  import opened PoolTypes
  import opened PoolAccounting
  import opened PoolShared
  import opened Counting
  import opened FixedPool
  import opened FixedFacts
  import opened FixedSteps

  ghost predicate RolesOk(s: State) {
    && (forall p :: p in s.procs ==> RetOk(s.procs[p]))
    && (forall p :: p in s.jobs ==> p in s.procs)
    && (forall p :: p in s.procs && Submitter(s.procs[p]) ==> p in s.jobs)
  }

  ghost predicate MonitorOk(s: State) {
    forall p :: s.sh.mon.owner == Some(p) <==> p in s.procs && HoldsMonitor(s.procs[p])
  }

  ghost predicate SleepersOk(s: State) {
    forall p :: p in s.sh.mon.parked ==> p in s.procs && ParksAt(s.procs[p])
  }

  /** What thread `p` at `pc` has in its hands is recorded as its own. */
  ghost predicate HandOk(jobs: map<Pid, Job>, p: Pid, pc: Pc) {
    && Distinct(Stock(pc))
    && (forall j :: StageInHand(p, pc, j).Some? ==>
          j in jobs && jobs[j].holder == Some(p) && jobs[j].stage == StageInHand(p, pc, j).value)
  }

  ghost predicate HandsOk(s: State) {
    forall p {:trigger HandOk(s.jobs, p, s.procs[p])} :: p in s.procs ==> HandOk(s.jobs, p, s.procs[p])
  }

  /** Every job recorded as held is in the hands of its holder. */
  ghost predicate HeldOk(s: State) {
    forall j :: j in s.jobs && s.jobs[j].holder.Some? ==>
      var p := s.jobs[j].holder.value; p in s.procs && StageInHand(p, s.procs[p], j).Some?
  }

  ghost predicate QueueOk(s: State) {
    && Distinct(s.sh.queue.items)
    && (forall j :: j in s.sh.queue.items <==> j in s.jobs && s.jobs[j].stage.InQueue?)
  }

  ghost predicate JobsOk(s: State) { forall j :: j in s.jobs ==> JobOk(s.jobs[j]) }

  ghost predicate CountersOk(s: State) {
    forall c: Counter :: s.sh.acct.Get(c) == HowMany(s.jobs, (job: Job) => Adds(c, job.stage))
  }

  ghost predicate GaugesOk(s: State) {
    forall g: Gauge :: Reading(g, s.sh) == HowMany(s.procs, (pc: Pc) => Weighs(g, pc))
  }

  ghost predicate KnowledgeOk(s: State) {
    GlobalOk(s.sh) && forall p :: p in s.procs ==> LocalOk(s.sh, s.procs[p])
  }

  ghost predicate Inv(s: State) {
    && RolesOk(s) && MonitorOk(s) && SleepersOk(s) && HandsOk(s) && HeldOk(s) && QueueOk(s) && JobsOk(s)
    && CountersOk(s) && GaugesOk(s) && KnowledgeOk(s)
  }

  lemma InvParts(s: State)
    requires Inv(s)
    ensures RolesOk(s) && MonitorOk(s) && SleepersOk(s) && HandsOk(s) && HeldOk(s) && QueueOk(s) && JobsOk(s)
    ensures CountersOk(s) && GaugesOk(s) && KnowledgeOk(s)
  {
    hide RolesOk, MonitorOk, SleepersOk, HandsOk, HeldOk, QueueOk, JobsOk, CountersOk, GaugesOk, KnowledgeOk;
  }

  // ----- what the mover can rely on

  ghost predicate SubjectKnown(s: State, p: Pid)
    requires p in s.procs
  {
    Subject(s.sh, p, s.procs[p]).Some? ==> Subject(s.sh, p, s.procs[p]).value in s.jobs
  }

  /** A thread works on a job in its hands, on its own submission, or on the job it is about to steal. */
  lemma SubjectPlaces(sh: Shared, p: Pid, pc: Pc)
    ensures Subject(sh, p, pc).Some? ==>
              || StageInHand(p, pc, Subject(sh, p, pc).value).Some?
              || (Submitter(pc) && Subject(sh, p, pc) == Some(p))
              || (Steals(pc) && sh.queue.items != [] && Subject(sh, p, pc) == Some(sh.queue.items[0]))
    ensures Steals(pc) && sh.queue.items != [] ==> Subject(sh, p, pc) == Some(sh.queue.items[0])
    ensures pc == Sub(Push) ==> Subject(sh, p, pc) == Some(p)
  {
  }

  lemma MoverReady(s: State, p: Pid)
    requires p in s.procs && RolesOk(s) && HandsOk(s) && HeldOk(s) && QueueOk(s) && JobsOk(s)
    ensures SubjectKnown(s, p) && StageReady(s.sh, p, JobAt(s, p), s.procs[p])
  {
    var pc, subject := s.procs[p], Subject(s.sh, p, s.procs[p]);
    assert HandOk(s.jobs, p, pc);
    SubjectPlaces(s.sh, p, pc);
    assert s.sh.queue.items != [] ==> s.sh.queue.items[0] in s.sh.queue.items;
    assert JobOk(NO_JOB);
    hide StageInHand, Subject, JobOk, RetOk, Stock, Submitter, Steals;
  }

  lemma NonNegative(s: State)
    requires CountersOk(s) && GaugesOk(s)
    ensures s.sh.acct.slots >= 0 && s.sh.acct.queued >= 0 && s.sh.acct.running >= 0 && s.sh.acct.cancelling >= 0
    ensures s.sh.gate.inflight >= 0 && s.sh.mon.pool.live >= 0 && s.sh.wake.idle >= 0 && s.sh.tally.idleWaiters >= 0
  {
    assert s.sh.acct.Get(Slots) >= 0 && s.sh.acct.Get(Queued) >= 0 && s.sh.acct.Get(RunningTasks) >= 0;
    assert s.sh.acct.Get(CancellingTasks) >= 0 && Reading(InFlightGauge, s.sh) >= 0 && Reading(LiveGauge, s.sh) >= 0;
    assert Reading(IdleGauge, s.sh) >= 0 && Reading(JoinGauge, s.sh) >= 0;
  }

  lemma CountedJob(s: State, c: Counter, j: Pid)
    requires CountersOk(s) && j in s.jobs
    ensures s.sh.acct.Get(c) >= B(Adds(c, s.jobs[j].stage))
  {
    var f := (job: Job) => Adds(c, job.stage);
    assert s.sh.acct.Get(c) == HowMany(s.jobs, f);
    if Adds(c, s.jobs[j].stage) {
      HowManyPositive(s.jobs, f, j);
    }
  }

  lemma CountedThread(s: State, g: Gauge, p: Pid)
    requires GaugesOk(s) && p in s.procs
    ensures Reading(g, s.sh) >= B(Weighs(g, s.procs[p]))
  {
    var f := (pc: Pc) => Weighs(g, pc);
    assert Reading(g, s.sh) == HowMany(s.procs, f);
    if Weighs(g, s.procs[p]) {
      HowManyPositive(s.procs, f, p);
    }
  }

  lemma MoverFelt(s: State, p: Pid)
    requires p in s.procs && CountersOk(s) && GaugesOk(s) && SubjectKnown(s, p)
    ensures Felt(s.sh, JobAt(s, p), s.procs[p])
  {
    hide CountersOk, GaugesOk, Subject, Adds, InFlight;
    NonNegative(s);
    CountedThread(s, InFlightGauge, p);
    var subject := Subject(s.sh, p, s.procs[p]);
    if subject.Some? {
      CountedJob(s, Slots, subject.value);
      CountedJob(s, RunningTasks, subject.value);
      CountedJob(s, CancellingTasks, subject.value);
    } else {
      assert forall c: Counter :: !Adds(c, New) by { NewCountsNothing(); }
    }
  }

  lemma NewCountsNothing()
    ensures forall c: Counter :: !Adds(c, New)
  {
  }

  // ----- one step

  ghost predicate Follows(s: State, p: Pid, step: Step)
    requires p in s.procs
  {
    var sh, pc, subject, job := s.sh, s.procs[p], Subject(s.sh, p, s.procs[p]), JobAt(s, p);
    && SubjectKnown(s, p) && !pc.Done? && (subject.None? ==> step.job == NO_JOB)
    && (WantsMonitor(pc) ==> sh.mon.owner.None?) && p !in sh.mon.parked
    && FramesFollow(sh, p, pc, step) && PathsFollow(sh, pc, step.pc) && GaugesFollow(sh, pc, step)
    && JobFollows(sh, job, pc, step)
    && CountersFollow(sh, job, step) && QueueFollows(sh, p, job, pc, step) && CustodyFollows(p, subject, job, pc, step)
    && WatchFollows(sh, pc, step) && LifeFollows(sh, pc, step)
    && GlobalOk(step.sh) && LocalOk(step.sh, step.pc)
  }

  lemma NoSubject(s: State, p: Pid, ok: bool)
    requires p in s.procs && Subject(s.sh, p, s.procs[p]).None?
    ensures StepAt(s, p, ok).job == NO_JOB
  {
  }

  lemma StepFollows(s: State, p: Pid, ok: bool)
    requires p in s.procs && CanStep(s, p, s.procs[p]) && Inv(s)
    ensures Follows(s, p, StepAt(s, p, ok))
  {
    hide RolesOk, SleepersOk, HandsOk, HeldOk, QueueOk, JobsOk, CountersOk, GaugesOk, StepOf, StageReady, Felt, JobAt,
      Subject, PastOf, WantsMonitor, LocalOk, GlobalOk, FramesFollow, GaugesFollow, JobFollows, CountersFollow,
      QueueFollows, CustodyFollows, WatchFollows, LifeFollows, PathsFollow, SubjectKnown, Inv, RetOk, HoldsMonitor,
      MonitorOk;
    var pc, job, past := s.procs[p], JobAt(s, p), PastOf(s);
    InvParts(s);
    MoverReady(s, p);
    MoverFelt(s, p);
    NonNegative(s);
    MoverOwns(s, p);
    MoverKnows(s, p);
    if Subject(s.sh, p, pc).None? {
      NoSubject(s, p, ok);
    }
    FramesOfStep(s.sh, p, job, pc, ok, past);
    GaugesOfStep(s.sh, p, job, pc, ok, past);
    JobOfStep(s.sh, p, job, pc, ok, past);
    CountersOfStep(s.sh, p, job, pc, ok, past);
    QueueOfStep(s.sh, p, job, pc, ok, past);
    CustodyOfStep(s.sh, p, job, pc, ok, past);
    WatchOfStep(s.sh, p, job, pc, ok, past);
    LocalOfStep(s.sh, p, job, pc, ok, past);
  }

  lemma MoverOwns(s: State, p: Pid)
    requires p in s.procs && MonitorOk(s)
    ensures HoldsMonitor(s.procs[p]) ==> s.sh.mon.owner == Some(p)
  {
  }

  lemma MoverKnows(s: State, p: Pid)
    requires p in s.procs && KnowledgeOk(s) && RolesOk(s)
    ensures GlobalOk(s.sh) && LocalOk(s.sh, s.procs[p]) && RetOk(s.procs[p])
  {
  }

  lemma ActCounters(s: State, p: Pid, step: Step, t: State)
    requires p in s.procs && Moves(s, p, step, t) && CountersOk(s) && Follows(s, p, step)
    ensures CountersOk(t)
  {
    hide Subject, FramesFollow, GaugesFollow, JobFollows, QueueFollows, CustodyFollows, WatchFollows, LocalOk,
      GlobalOk, LifeFollows, PathsFollow, Adds;
    forall c: Counter
      ensures t.sh.acct.Get(c) == HowMany(t.jobs, (job: Job) => Adds(c, job.stage))
    {
      var f := (job: Job) => Adds(c, job.stage);
      var subject := Subject(s.sh, p, s.procs[p]);
      if subject.Some? {
        HowManyUpdated(s.jobs, subject.value, step.job, f);
      }
      assert s.sh.acct.Get(c) == HowMany(s.jobs, f);
      assert t.sh.acct.Get(c) == HowMany(t.jobs, f);
    }
  }

  lemma ActGauges(s: State, p: Pid, step: Step, t: State)
    requires p in s.procs && Moves(s, p, step, t) && GaugesOk(s) && Follows(s, p, step)
    ensures GaugesOk(t)
  {
    hide Subject, FramesFollow, CountersFollow, JobFollows, QueueFollows, CustodyFollows, WatchFollows, LocalOk,
      GlobalOk, LifeFollows, PathsFollow, Weighs;
    forall g: Gauge
      ensures Reading(g, t.sh) == HowMany(t.procs, (pc: Pc) => Weighs(g, pc))
    {
      var f := (pc: Pc) => Weighs(g, pc);
      HowManyUpdated(s.procs, p, step.pc, f);
      assert Reading(g, s.sh) == HowMany(s.procs, f);
      assert Reading(g, t.sh) == HowMany(t.procs, f);
    }
  }

  lemma ActThreads(s: State, p: Pid, step: Step, t: State)
    requires p in s.procs && Moves(s, p, step, t) && RolesOk(s) && MonitorOk(s) && SleepersOk(s) && Follows(s, p, step)
    ensures RolesOk(t) && MonitorOk(t) && SleepersOk(t)
  {
    hide Subject, GaugesFollow, CountersFollow, JobFollows, QueueFollows, CustodyFollows, WatchFollows, LocalOk,
      GlobalOk, LifeFollows, PathsFollow, RetOk, Submitter, HoldsMonitor, WantsMonitor, ParksAt, NotifiesAll, JobAt;
    assert t.jobs.Keys == s.jobs.Keys;
    forall q
      ensures t.sh.mon.owner == Some(q) <==> q in t.procs && HoldsMonitor(t.procs[q])
    {
      assert s.sh.mon.owner == Some(q) <==> q in s.procs && HoldsMonitor(s.procs[q]);
      assert s.sh.mon.owner == Some(p) <==> HoldsMonitor(s.procs[p]);
    }
  }

  lemma ActKnowledge(s: State, p: Pid, step: Step, t: State)
    requires p in s.procs && Moves(s, p, step, t) && MonitorOk(s) && KnowledgeOk(s) && Follows(s, p, step)
    ensures KnowledgeOk(t)
  {
    hide Subject, GaugesFollow, CountersFollow, JobFollows, QueueFollows, CustodyFollows, WatchFollows, HoldsMonitor,
      JobAt, LocalOk, FramesFollow, LifeFollows, PathsFollow, GlobalOk;
    forall q | q in t.procs && q != p
      ensures LocalOk(t.sh, t.procs[q])
    {
      assert s.sh.mon.owner == Some(q) <==> HoldsMonitor(s.procs[q]);
      assert s.sh.mon.owner == Some(p) <==> HoldsMonitor(s.procs[p]);
      KnowledgeStable(s.sh, p, s.procs[p], step, s.procs[q]);
    }
  }

  lemma KnowledgeStable(sh: Shared, p: Pid, pc: Pc, step: Step, other: Pc)
    requires LocalOk(sh, other) && GlobalOk(sh) && GlobalOk(step.sh)
    requires FramesFollow(sh, p, pc, step) && LifeFollows(sh, pc, step)
    requires HoldsMonitor(other) ==> !HoldsMonitor(pc)
    ensures LocalOk(step.sh, other)
  {
    assert HoldsMonitor(other) ==> step.sh.mon.pool == sh.mon.pool;
  }

  lemma ActJobs(s: State, p: Pid, step: Step, t: State)
    requires p in s.procs && Moves(s, p, step, t) && JobsOk(s) && Follows(s, p, step)
    ensures JobsOk(t)
  {
    hide Subject, GaugesFollow, CountersFollow, FramesFollow, QueueFollows, CustodyFollows, WatchFollows, LocalOk,
      GlobalOk, LifeFollows, PathsFollow, JobOk, StageEdge;
  }

  lemma ActQueue(s: State, p: Pid, step: Step, t: State)
    requires p in s.procs && Moves(s, p, step, t) && QueueOk(s) && Follows(s, p, step)
    ensures QueueOk(t)
  {
    SubjectPlaces(s.sh, p, s.procs[p]);
    hide Subject, GaugesFollow, CountersFollow, FramesFollow, JobFollows, CustodyFollows, WatchFollows, LocalOk,
      GlobalOk, LifeFollows, PathsFollow, StageInHand, Steals, JobOk, WantsMonitor, StageEdge, Distinct;
    NextItems(s.sh.queue.items, p, s.procs[p] == Sub(Push), 
              Steals(s.procs[p]) && s.sh.queue.items != [], step.sh.queue.items);
  }

  lemma NextItems(items: seq<Pid>, p: Pid, pushes: bool, steals: bool, next: seq<Pid>)
    requires Distinct(items) && (pushes ==> p !in items && !steals) && (steals ==> items != [])
    requires next == if pushes then items + [p] else if steals then items[1..] else items
    ensures Distinct(next)
    ensures forall j :: j in next <==> if pushes then j in items || j == p else j in items && !(steals && j == items[0])
  {
    assert items != [] ==> items == [items[0]] + items[1..];
  }

  /** What another thread has in its hands is not taken from it. */
  lemma ActHands(s: State, p: Pid, step: Step, t: State)
    requires p in s.procs && Moves(s, p, step, t) && HandsOk(s) && HeldOk(s) && JobsOk(s) && Follows(s, p, step)
    ensures HandsOk(t)
  {
    hide Subject, GaugesFollow, CountersFollow, FramesFollow, JobFollows, QueueFollows, WatchFollows, LocalOk,
      GlobalOk, LifeFollows, PathsFollow, StageInHand, Stock, Distinct;
    assert HandOk(s.jobs, p, s.procs[p]);
    forall q | q in t.procs
      ensures HandOk(t.jobs, q, t.procs[q])
    {
      assert HandOk(s.jobs, q, s.procs[q]);
      HandKept(s, p, step, t, q);
    }
  }

  lemma HandKept(s: State, p: Pid, step: Step, t: State, q: Pid)
    requires p in s.procs && Moves(s, p, step, t) && JobsOk(s) && Follows(s, p, step) && q in s.procs
    requires HandOk(s.jobs, p, s.procs[p]) && HandOk(s.jobs, q, s.procs[q])
    ensures HandOk(t.jobs, q, t.procs[q])
  {
    hide Subject, GaugesFollow, CountersFollow, FramesFollow, JobFollows, QueueFollows, WatchFollows, LocalOk,
      GlobalOk, LifeFollows, PathsFollow, StageInHand, Stock, Distinct;
    var subject := Subject(s.sh, p, s.procs[p]);
    forall j | StageInHand(q, t.procs[q], j).Some?
      ensures j in t.jobs && t.jobs[j].holder == Some(q) && t.jobs[j].stage == StageInHand(q, t.procs[q], j).value
    {
      if subject == Some(j) {
        assert JobOk(s.jobs[j]);
      }
    }
  }

  lemma ActHeld(s: State, p: Pid, step: Step, t: State)
    requires p in s.procs && Moves(s, p, step, t) && HeldOk(s) && Follows(s, p, step)
    ensures HeldOk(t)
  {
    hide Subject, GaugesFollow, CountersFollow, FramesFollow, JobFollows, QueueFollows, WatchFollows, LocalOk,
      GlobalOk, LifeFollows, PathsFollow, StageInHand, Stock, Distinct;
    forall j | j in t.jobs && t.jobs[j].holder.Some?
      ensures var h := t.jobs[j].holder.value; h in t.procs && StageInHand(h, t.procs[h], j).Some?
    {
      assert j in s.jobs;
    }
  }

  lemma ActInv(s: State, p: Pid, ok: bool, t: State)
    requires p in s.procs && CanStep(s, p, s.procs[p]) && Moves(s, p, StepAt(s, p, ok), t) && Inv(s)
    ensures Inv(t)
  {
    hide RolesOk, MonitorOk, SleepersOk, HandsOk, HeldOk, QueueOk, JobsOk, CountersOk, GaugesOk, KnowledgeOk, Follows,
      Moves, StepAt, CanStep;
    var step := StepAt(s, p, ok);
    StepFollows(s, p, ok);
    ActCounters(s, p, step, t);
    ActGauges(s, p, step, t);
    ActThreads(s, p, step, t);
    ActKnowledge(s, p, step, t);
    ActJobs(s, p, step, t);
    ActQueue(s, p, step, t);
    ActHands(s, p, step, t);
    ActHeld(s, p, step, t);
  }

  // ----- the other events

  lemma NewThread(p: Pid, r: Request)
    ensures var pc := StartPc(r);
            && RetOk(pc) && !HoldsMonitor(pc) && !ParksAt(pc) && Stock(pc) == [] && (Submitter(pc) <==> r.NewSubmit?)
            && (forall j :: StageInHand(p, pc, j) == if r.NewSubmit? && j == p then Some(New) else None)
            && (forall g: Gauge :: !Weighs(g, pc)) && (forall sh :: LocalOk(sh, pc))
  {
  }

  lemma ArriveInv(s: State, p: Pid, r: Request, t: State)
    requires Inv(s) && Next(s, Arrive(p, r), t)
    ensures Inv(t)
  {
    NewThread(p, r);
    InvParts(s);
    assert JobOk(NewJob(p));
    hide Inv, StartPc, HoldsMonitor, RetOk, ParksAt, Stock, Submitter, StageInHand, Weighs, LocalOk, GlobalOk, JobOk;
    ArriveCounts(s, p, r, t);
    ArriveHands(s, p, r, t);
    ArriveRest(s, p, r, t);
    hide RolesOk, MonitorOk, SleepersOk, HandsOk, HeldOk, QueueOk, JobsOk, CountersOk, GaugesOk, KnowledgeOk;
    assert Inv(t) by { InvFrom(t); }
  }

  lemma InvFrom(s: State)
    requires RolesOk(s) && MonitorOk(s) && SleepersOk(s) && HandsOk(s) && HeldOk(s) && QueueOk(s) && JobsOk(s)
    requires CountersOk(s) && GaugesOk(s) && KnowledgeOk(s)
    ensures Inv(s)
  {
    hide RolesOk, MonitorOk, SleepersOk, HandsOk, HeldOk, QueueOk, JobsOk, CountersOk, GaugesOk, KnowledgeOk;
  }

  lemma ArriveCounts(s: State, p: Pid, r: Request, t: State)
    requires CountersOk(s) && GaugesOk(s) && Next(s, Arrive(p, r), t)
    ensures CountersOk(t) && GaugesOk(t)
  {
    NewThread(p, r);
    NewCountsNothing();
    hide StartPc, Weighs, Adds;
    forall c: Counter
      ensures t.sh.acct.Get(c) == HowMany(t.jobs, (job: Job) => Adds(c, job.stage))
    {
      var f := (job: Job) => Adds(c, job.stage);
      assert s.sh.acct.Get(c) == HowMany(s.jobs, f);
      if r.NewSubmit? {
        HowManyUpdated(s.jobs, p, NewJob(p), f);
      }
      assert t.sh.acct.Get(c) == HowMany(t.jobs, f);
    }
    forall g: Gauge
      ensures Reading(g, t.sh) == HowMany(t.procs, (pc: Pc) => Weighs(g, pc))
    {
      var f := (pc: Pc) => Weighs(g, pc);
      assert Reading(g, s.sh) == HowMany(s.procs, f);
      HowManyUpdated(s.procs, p, StartPc(r), f);
      assert Reading(g, t.sh) == HowMany(t.procs, f);
    }
  }

  lemma ArriveHands(s: State, p: Pid, r: Request, t: State)
    requires HandsOk(s) && HeldOk(s) && Next(s, Arrive(p, r), t)
    ensures HandsOk(t) && HeldOk(t)
  {
    NewThread(p, r);
    hide StartPc, StageInHand, Stock, Weighs, LocalOk;
    forall q | q in t.procs
      ensures HandOk(t.jobs, q, t.procs[q])
    {
      if q in s.procs {
        assert HandOk(s.jobs, q, s.procs[q]);
      }
    }
  }

  lemma ArriveRest(s: State, p: Pid, r: Request, t: State)
    requires RolesOk(s) && MonitorOk(s) && SleepersOk(s) && QueueOk(s) && JobsOk(s) && KnowledgeOk(s)
    requires Next(s, Arrive(p, r), t)
    ensures RolesOk(t) && MonitorOk(t) && SleepersOk(t) && QueueOk(t) && JobsOk(t) && KnowledgeOk(t)
  {
    NewThread(p, r);
    assert JobOk(NewJob(p));
    hide StartPc, HoldsMonitor, RetOk, ParksAt, Submitter, StageInHand, Weighs, Stock, LocalOk, GlobalOk, JobOk;
    assert p !in s.sh.queue.items && s.sh.mon.owner != Some(p);
  }

  lemma SpuriousInv(s: State, p: Pid, t: State)
    requires Inv(s) && Next(s, Spurious(p), t)
    ensures Inv(t)
  {
    InvParts(s);
    hide Inv;
    SpuriousReads(s, p, t);
    SpuriousKnows(s, p, t);
    hide HandsOk, HeldOk, QueueOk, JobsOk, CountersOk, GaugesOk, KnowledgeOk;
    InvFrom(t);
  }

  lemma SpuriousReads(s: State, p: Pid, t: State)
    requires CountersOk(s) && GaugesOk(s) && HandsOk(s) && HeldOk(s) && QueueOk(s) && JobsOk(s)
             && Next(s, Spurious(p), t)
    ensures CountersOk(t) && GaugesOk(t) && HandsOk(t) && HeldOk(t) && QueueOk(t) && JobsOk(t)
  {
    assert forall g: Gauge :: Reading(g, t.sh) == Reading(g, s.sh);
    hide HandOk;
  }

  lemma SpuriousKnows(s: State, p: Pid, t: State)
    requires KnowledgeOk(s) && Next(s, Spurious(p), t)
    ensures KnowledgeOk(t)
  {
    forall q | q in t.procs
      ensures LocalOk(t.sh, t.procs[q])
    {
      assert LocalOk(s.sh, s.procs[q]);
    }
  }

  lemma NextInv(s: State, e: Event, t: State)
    requires Inv(s) && Next(s, e, t)
    ensures Inv(t)
  {
    hide Inv, CanStep, Moves, StepAt;
    match e {
      case Arrive(p, r) => ArriveInv(s, p, r, t);
      case Act(p, ok) => ActInv(s, p, ok, t);
      case Spurious(p) => SpuriousInv(s, p, t);
    }
  }

  lemma InitInv(s: State)
    requires Init(s)
    ensures Inv(s)
  {
    forall c: Counter
      ensures s.sh.acct.Get(c) == HowMany(s.jobs, (job: Job) => Adds(c, job.stage))
    {
      HowManyNone((job: Job) => Adds(c, job.stage));
    }
    InitGauges(s);
  }

  lemma InitGauges(s: State)
    requires Init(s)
    ensures GaugesOk(s)
  {
    forall g: Gauge
      ensures Reading(g, s.sh) == HowMany(s.procs, (pc: Pc) => Weighs(g, pc))
    {
      var f := (pc: Pc) => Weighs(g, pc);
      assert Chosen(s.procs, f) == if g.LiveGauge? then s.procs.Keys else {};
    }
  }

  lemma {:induction false} AlwaysInv(b: Behavior, i: nat)
    requires b.Valid() && i < |b.states|
    ensures Inv(b.states[i])
  {
    hide Inv, Next;
    if i == 0 {
      InitInv(b.states[0]);
    } else {
      AlwaysInv(b, i - 1);
      NextInv(b.states[i - 1], b.events[i - 1], b.states[i]);
    }
  }

  /** Two consecutive states of a run. */
  lemma Consecutive(b: Behavior, i: nat)
    requires b.Valid() && 0 < i < |b.states|
    ensures i <= |b.events| && Next(b.states[i - 1], b.events[i - 1], b.states[i]) && Inv(b.states[i - 1])
  {
    hide Inv, Next;
    AlwaysInv(b, i - 1);
  }
}
