/** The base invariant of the dynamic pool: locks, custody, queue, entries, counters. */
module DynamicInvariant {
  import opened PoolTypes
  import opened PoolAccounting
  import opened PoolShared
  import opened Counting
  import opened DynamicPool
  import opened DynamicRun
  import opened DynamicFacts
  import opened DynamicStepLocks
  import opened DynamicStepJobs
  import opened DynamicStepCounts

  ghost predicate RolesOk(s: State) {
    && (forall p :: p in s.procs ==> RetOk(p, s.procs[p]))
    && (forall p :: p in s.jobs ==> p in s.procs && RoleOf(s.procs[p]).Submitter?)
    && (forall p {:trigger RoleOf(s.procs[p])} :: p in s.procs && RoleOf(s.procs[p]).Submitter? ==> p in s.jobs)
    && (forall p {:trigger Target(p, s.procs[p])} ::
          p in s.procs && Target(p, s.procs[p]).Some? ==> Target(p, s.procs[p]).value in s.jobs)
  }

  ghost predicate LocksOk(s: State) {
    && (forall p :: s.sh.mon.owner == Some(p) <==> p in s.procs && HoldsMonitor(s.procs[p]))
    && (forall p :: s.sh.queue.owner == Some(p) <==> p in s.procs && HoldsQueue(s.procs[p]))
    && (forall p, j :: j in s.jobs ==>
          (s.jobs[j].entryLock == Some(p)
           <==> p in s.procs && HoldsEntry(s.procs[p]) && Target(p, s.procs[p]) == Some(j)))
  }

  ghost predicate SleepersOk(s: State) {
    && (forall p :: p in s.sh.mon.parked ==> p in s.procs && ParksAt(s.procs[p]))
    && (forall p, j :: j in s.jobs && p in s.jobs[j].entryParked ==>
          p in s.procs && AwaitsEntry(s.procs[p]) && s.procs[p].target == j)
  }

  /** What thread `p` at `pc` has in its hands is recorded as its own. */
  ghost predicate HandOk(jobs: map<Pid, Job>, p: Pid, pc: Pc) {
    && (HandStage(pc).Some? ==>
          Target(p, pc).Some?
          && var j := Target(p, pc).value;
             j in jobs && jobs[j].holder == Some(p) && jobs[j].stage == HandStage(pc).value)
    && (forall j :: j in Backlog(pc) ==> j in jobs && jobs[j].holder == Some(p) && jobs[j].stage.Cancelling?)
    && Distinct(Backlog(pc))
    && (HandStage(pc).Some? && Target(p, pc).Some? ==> Target(p, pc).value !in Backlog(pc))
  }

  ghost predicate HandsOk(s: State) {
    forall p {:trigger HandOk(s.jobs, p, s.procs[p])} :: p in s.procs ==> HandOk(s.jobs, p, s.procs[p])
  }

  /** Every job recorded as held is in the hands of its holder. */
  ghost predicate HeldOk(s: State) {
    forall j :: j in s.jobs && s.jobs[j].holder.Some? ==>
      var p := s.jobs[j].holder.value; p in s.procs && InHands(p, s.procs[p], j)
  }

  ghost predicate QueueOk(s: State) {
    && Distinct(s.sh.queue.items)
    && (forall j :: j in s.sh.queue.items <==> j in s.jobs && s.jobs[j].stage.InQueue?)
  }

  ghost predicate FindsOk(s: State) {
    forall p :: p in s.procs && Finding(s.procs[p]) ==> s.procs[p].target in s.sh.queue.items
  }

  ghost predicate JobsOk(s: State) {
    forall j :: j in s.jobs ==> JobOk(s.jobs[j])
  }

  ghost predicate OwnJobsOk(s: State) {
    forall j :: j in s.jobs ==> j in s.procs && OwnJobAt(s.procs[j], s.jobs[j])
  }

  ghost predicate CountersOk(s: State) {
    forall c: Counter :: s.sh.acct.Get(c) == HowMany(s.jobs, (job: Job) => Adds(c, job.stage))
  }

  ghost predicate GaugesOk(s: State) {
    forall g: Gauge :: Reading(g, s.sh) == HowMany(s.procs, (pc: Pc) => Weighs(g, pc))
  }

  ghost predicate Inv(s: State) {
    && RolesOk(s) && LocksOk(s) && SleepersOk(s) && HandsOk(s) && HeldOk(s) && QueueOk(s) && FindsOk(s)
    && JobsOk(s) && OwnJobsOk(s) && CountersOk(s) && GaugesOk(s)
  }

  lemma InvParts(s: State)
    requires Inv(s)
    ensures RolesOk(s) && LocksOk(s) && SleepersOk(s) && HandsOk(s) && HeldOk(s) && QueueOk(s) && FindsOk(s)
    ensures JobsOk(s) && OwnJobsOk(s) && CountersOk(s) && GaugesOk(s)
  {
    hide RolesOk, LocksOk, SleepersOk, HandsOk, HeldOk, QueueOk, FindsOk, JobsOk, OwnJobsOk, CountersOk, GaugesOk;
  }

  // ----- one step of one thread

  ghost predicate SubjectKnown(s: State, p: Pid)
    requires p in s.procs
  {
    Subject(s.sh, p, s.procs[p]).Some? ==> Subject(s.sh, p, s.procs[p]).value in s.jobs
  }

  /** A thread just created holds nothing and counts only as a live worker. */
  lemma NewThread(p: Pid, pc: Pc)
    requires pc == Work(Start) || (exists r: Request :: pc == StartPc(r))
    ensures !HoldsMonitor(pc) && !HoldsQueue(pc) && !HoldsEntry(pc) && RetOk(p, pc)
    ensures Backlog(pc) == [] && (HandStage(pc).Some? ==> pc == Sub(Enter) && HandStage(pc) == Some(New))
    ensures !ParksAt(pc) && !AwaitsEntry(pc) && !Finding(pc)
    ensures forall g: Gauge :: Weighs(g, pc) ==> g.LiveGauge? && pc == Work(Start)
    ensures Target(p, pc).Some? ==> (pc == Sub(Enter) && Target(p, pc) == Some(p)) || pc.Look?
    ensures RoleOf(pc).Submitter? <==> pc == Sub(Enter)
  {
  }

  lemma ActCounters(s: State, p: Pid, step: Step, spawns: bool, worker: Pid, t: State)
    requires p in s.procs && Moves(s, p, step, spawns, worker, t)
    requires CountersOk(s) && SubjectKnown(s, p)
    requires Subject(s.sh, p, s.procs[p]).None? ==> step.job == NO_JOB
    requires CountersFollow(s.sh, JobAt(s, p), step)
    ensures CountersOk(t)
  {
    forall c: Counter
      ensures t.sh.acct.Get(c) == HowMany(t.jobs, (job: Job) => Adds(c, job.stage))
    {
      var f := (job: Job) => Adds(c, job.stage);
      var subject := Subject(s.sh, p, s.procs[p]);
      if subject.Some? {
        HowManyUpdated(s.jobs, subject.value, step.job, f);
      }
      assert s.sh.acct.Get(c) == HowMany(s.jobs, f);
      assert t.sh.acct.Get(c) == HowMany(t.jobs, f);
    }
  }

  lemma ActGauges(s: State, p: Pid, step: Step, spawns: bool, worker: Pid, t: State)
    requires p in s.procs && Moves(s, p, step, spawns, worker, t)
    requires GaugesOk(s)
    requires GaugesFollow(s.sh, s.procs[p], step, spawns)
    ensures GaugesOk(t)
  {
    forall g: Gauge
      ensures Reading(g, t.sh) == HowMany(t.procs, (pc: Pc) => Weighs(g, pc))
    {
      var f := (pc: Pc) => Weighs(g, pc);
      assert Reading(g, s.sh) == HowMany(s.procs, f);
      HowManyUpdated(s.procs, p, step.pc, f);
      if spawns {
        HowManyUpdated(s.procs[p := step.pc], worker, Work(Start), f);
      }
      assert Reading(g, t.sh) == HowMany(t.procs, f);
    }
  }

  /** Locks newly held were free; an entry lock is kept on the same job. */
  ghost predicate TakesFree(s: State, p: Pid, step: Step)
    requires p in s.procs
  {
    var pc := s.procs[p];
    && (HoldsMonitor(step.pc) && !HoldsMonitor(pc) ==> s.sh.mon.owner.None?)
    && (HoldsQueue(step.pc) && !HoldsQueue(pc) ==> s.sh.queue.owner.None?)
    && (HoldsEntry(step.pc) ==> Target(p, step.pc).Some? && Target(p, step.pc) == Target(p, pc))
    && (HoldsEntry(step.pc) && !HoldsEntry(pc) ==> JobOf(s.jobs, Target(p, pc).value).entryLock.None?)
  }

  lemma ActLocks(s: State, p: Pid, step: Step, spawns: bool, worker: Pid, t: State)
    requires p in s.procs && Moves(s, p, step, spawns, worker, t)
    requires LocksOk(s) && SubjectKnown(s, p)
    requires LocksFollow(s.sh, p, JobAt(s, p), s.procs[p], step) && TakesFree(s, p, step)
    ensures LocksOk(t)
  {
    hide HoldsMonitor, HoldsQueue, HoldsEntry, Target, Subject, JobAt;
    NewThread(worker, Work(Start));
    ActMonitorLock(s, p, step, spawns, worker, t);
    ActQueueLock(s, p, step, spawns, worker, t);
    ActEntryLocks(s, p, step, spawns, worker, t);
  }

  lemma ActMonitorLock(s: State, p: Pid, step: Step, spawns: bool, worker: Pid, t: State)
    requires p in s.procs && Moves(s, p, step, spawns, worker, t) && LocksOk(s) && TakesFree(s, p, step)
    requires LocksFollow(s.sh, p, JobAt(s, p), s.procs[p], step)
    ensures forall q :: t.sh.mon.owner == Some(q) <==> q in t.procs && HoldsMonitor(t.procs[q])
  {
    NewThread(worker, Work(Start));
    hide HoldsMonitor, HoldsQueue, HoldsEntry, Target, Subject, JobAt;
    assert s.sh.mon.owner == Some(p) <==> HoldsMonitor(s.procs[p]);
    forall q
      ensures t.sh.mon.owner == Some(q) <==> q in t.procs && HoldsMonitor(t.procs[q])
    {
      assert s.sh.mon.owner == Some(q) <==> q in s.procs && HoldsMonitor(s.procs[q]);
    }
  }

  lemma ActQueueLock(s: State, p: Pid, step: Step, spawns: bool, worker: Pid, t: State)
    requires p in s.procs && Moves(s, p, step, spawns, worker, t) && LocksOk(s) && TakesFree(s, p, step)
    requires LocksFollow(s.sh, p, JobAt(s, p), s.procs[p], step)
    ensures forall q :: t.sh.queue.owner == Some(q) <==> q in t.procs && HoldsQueue(t.procs[q])
  {
    NewThread(worker, Work(Start));
    hide HoldsMonitor, HoldsQueue, HoldsEntry, Target, Subject, JobAt;
    assert s.sh.queue.owner == Some(p) <==> HoldsQueue(s.procs[p]);
    forall q
      ensures t.sh.queue.owner == Some(q) <==> q in t.procs && HoldsQueue(t.procs[q])
    {
      assert s.sh.queue.owner == Some(q) <==> q in s.procs && HoldsQueue(s.procs[q]);
    }
  }

  lemma ActEntryLocks(s: State, p: Pid, step: Step, spawns: bool, worker: Pid, t: State)
    requires p in s.procs && Moves(s, p, step, spawns, worker, t)
    requires LocksOk(s) && SubjectKnown(s, p)
    requires LocksFollow(s.sh, p, JobAt(s, p), s.procs[p], step) && TakesFree(s, p, step)
    ensures forall q, j :: j in t.jobs ==>
              (t.jobs[j].entryLock == Some(q)
               <==> q in t.procs && HoldsEntry(t.procs[q]) && Target(q, t.procs[q]) == Some(j))
  {
    var pc := s.procs[p];
    NewThread(worker, Work(Start));
    hide HoldsMonitor, HoldsQueue, HoldsEntry, Target;
    forall q, j | j in t.jobs
      ensures t.jobs[j].entryLock == Some(q)
              <==> q in t.procs && HoldsEntry(t.procs[q]) && Target(q, t.procs[q]) == Some(j)
    {
      assert s.jobs[j].entryLock == Some(q)
             <==> q in s.procs && HoldsEntry(s.procs[q]) && Target(q, s.procs[q]) == Some(j);
      assert s.jobs[j].entryLock == Some(p) <==> HoldsEntry(pc) && Target(p, pc) == Some(j);
    }
  }

  lemma ActRoles(s: State, p: Pid, step: Step, spawns: bool, worker: Pid, t: State)
    requires p in s.procs && Moves(s, p, step, spawns, worker, t)
    requires RolesOk(s) && HandsOk(s) && SubjectKnown(s, p)
    requires RolesFollow(s.sh, p, JobAt(s, p), s.procs[p], step)
    requires CustodyFollows(p, Subject(s.sh, p, s.procs[p]), JobAt(s, p), s.procs[p], step)
    ensures RolesOk(t)
  {
    NewThread(worker, Work(Start));
    NewTarget(s, p, step);
    hide RoleOf, RetOk, Target, HandStage, CustodyFollows, HandOk;
    assert t.jobs.Keys == s.jobs.Keys;
  }

  lemma NewTarget(s: State, p: Pid, step: Step)
    requires p in s.procs
    requires RolesOk(s) && HandsOk(s) && SubjectKnown(s, p)
    requires RolesFollow(s.sh, p, JobAt(s, p), s.procs[p], step)
    requires CustodyFollows(p, Subject(s.sh, p, s.procs[p]), JobAt(s, p), s.procs[p], step)
    ensures Target(p, step.pc).Some? ==> Target(p, step.pc).value in s.jobs
  {
    assert HandOk(s.jobs, p, s.procs[p]);
    hide RoleOf, RetOk, Target, HandStage, Backlog, Subject, Drains, BeginsNext;
  }

  lemma ActSleepers(s: State, p: Pid, step: Step, spawns: bool, worker: Pid, t: State)
    requires p in s.procs && Moves(s, p, step, spawns, worker, t)
    requires SleepersOk(s) && SubjectKnown(s, p)
    requires RolesFollow(s.sh, p, JobAt(s, p), s.procs[p], step)
    ensures SleepersOk(t)
  {
    hide RoleOf, RetOk, HandStage, Backlog, HoldsMonitor;
    assert AwaitsEntry(s.procs[p]) ==> Target(p, s.procs[p]) == Some(s.procs[p].target);
    assert AwaitsEntry(step.pc) ==> Target(p, step.pc) == Some(step.pc.target);
    assert !(ParksAt(s.procs[p]) && AwaitsEntry(s.procs[p]));
    forall q | q in t.sh.mon.parked ensures q in t.procs && ParksAt(t.procs[q]) {
      assert q != p ==> q in s.sh.mon.parked;
    }
    forall q, j | j in t.jobs && q in t.jobs[j].entryParked
      ensures q in t.procs && AwaitsEntry(t.procs[q]) && t.procs[q].target == j
    {
      assert q != p ==> q in s.jobs[j].entryParked;
    }
  }

  /** `after` is `before` with the record of `subject`, if any, replaced by `job`. */
  predicate Rewrites(before: map<Pid, Job>, subject: Option<Pid>, job: Job, after: map<Pid, Job>) {
    after == if subject.Some? then before[subject.value := job] else before
  }

  /** A job no longer in the hands of anyone but the mover keeps its holder. */
  lemma OnlyMoverHolds(jobs: map<Pid, Job>, p: Pid, pc: Pc, subject: Option<Pid>, step: Step, q: Pid)
    requires HandOk(jobs, p, pc) && (subject.Some? ==> subject.value in jobs && JobOk(jobs[subject.value]))
    requires subject.Some? && q != p && jobs[subject.value].holder == Some(q)
    requires HandStage(pc).Some? ==> Target(p, pc) == subject
    requires CustodyFollows(p, subject, jobs[subject.value], pc, step) && OthersKept(jobs[subject.value], pc, step)
    ensures step.job.holder == Some(q) && step.job.stage == jobs[subject.value].stage
  {
    hide RoleOf, RetOk, Backlog, EntryOk, HandStage, Target;
  }

  lemma MoverHand(jobs: map<Pid, Job>, p: Pid, pc: Pc, subject: Option<Pid>, job: Job, step: Step, after: map<Pid, Job>)
    requires HandOk(jobs, p, pc)
    requires subject.Some? ==> subject.value in jobs && job == jobs[subject.value] && JobOk(job)
    requires HandStage(pc).Some? ==> Target(p, pc) == subject
    requires CustodyFollows(p, subject, job, pc, step) && OthersKept(job, pc, step)
    requires Rewrites(jobs, subject, step.job, after)
    ensures HandOk(after, p, step.pc)
  {
    hide RoleOf, RetOk, Backlog, HandStage, Target, JobOk, Drains, BeginsNext;
    DrainsFromHand(pc);
    if subject.Some? {
      QueuedUnheld(job);
    }
  }

  lemma DrainsFromHand(pc: Pc)
    ensures Drains(pc) ==> HandStage(pc).Some?
  {
  }

  lemma QueuedUnheld(job: Job)
    requires JobOk(job)
    ensures job.stage.InQueue? ==> job.holder.None?
  {
  }

  /** What another thread has in its hands is not taken from it. */
  lemma OtherHand(jobs: map<Pid, Job>, p: Pid, pc: Pc, subject: Option<Pid>, step: Step, after: map<Pid, Job>,
                  q: Pid, own: Pc)
    requires HandOk(jobs, p, pc) && HandOk(jobs, q, own) && q != p
    requires subject.Some? ==> subject.value in jobs && JobOk(jobs[subject.value])
    requires HandStage(pc).Some? ==> Target(p, pc) == subject
    requires subject.Some? ==> CustodyFollows(p, subject, jobs[subject.value], pc, step)
    requires subject.Some? ==> OthersKept(jobs[subject.value], pc, step)
    requires Rewrites(jobs, subject, step.job, after)
    ensures HandOk(after, q, own)
  {
    if subject.Some? && jobs[subject.value].holder == Some(q) {
      OnlyMoverHolds(jobs, p, pc, subject, step, q);
    }
    hide RoleOf, RetOk, Backlog, HandStage, Target, JobOk, CustodyFollows, OthersKept;
  }

  lemma ActHands(s: State, p: Pid, step: Step, spawns: bool, worker: Pid, t: State)
    requires p in s.procs && Moves(s, p, step, spawns, worker, t)
    requires HandsOk(s) && JobsOk(s) && SubjectKnown(s, p)
    requires CustodyFollows(p, Subject(s.sh, p, s.procs[p]), JobAt(s, p), s.procs[p], step)
    requires OthersKept(JobAt(s, p), s.procs[p], step)
    ensures HandsOk(t)
  {
    var pc, subject, job := s.procs[p], Subject(s.sh, p, s.procs[p]), JobAt(s, p);
    NewThread(worker, Work(Start));
    MoverHand(s.jobs, p, pc, subject, job, step, t.jobs);
    assert HandStage(pc).Some? ==> Target(p, pc) == subject;
    hide RoleOf, RetOk, Backlog, HandStage, Target, JobOk, Subject, CustodyFollows, OthersKept;
    forall q | q in t.procs && q != p && q in s.procs
      ensures HandOk(t.jobs, q, t.procs[q])
    {
      OtherHand(s.jobs, p, pc, subject, step, t.jobs, q, s.procs[q]);
    }
  }

  /** What the mover's step leaves in its hands is exactly what the records say it holds. */
  lemma MoverHolds(jobs: map<Pid, Job>, p: Pid, pc: Pc, subject: Option<Pid>, job: Job, step: Step,
                   after: map<Pid, Job>, j: Pid)
    requires subject.Some? ==> subject.value in jobs && job == jobs[subject.value]
    requires HandStage(pc).Some? ==> Target(p, pc) == subject
    requires CustodyFollows(p, subject, job, pc, step) && OthersKept(job, pc, step)
    requires Rewrites(jobs, subject, step.job, after)
    requires j in after && after[j].holder == Some(p)
    requires j in jobs && jobs[j].holder == Some(p) ==> InHands(p, pc, j)
    ensures InHands(p, step.pc, j)
  {
    assert Drains(pc) ==> HandStage(pc).Some?;
    hide RoleOf, RetOk, Backlog, EntryOk, HandStage, Target, Drains, BeginsNext;
  }

  lemma ActHeld(s: State, p: Pid, step: Step, spawns: bool, worker: Pid, t: State)
    requires p in s.procs && Moves(s, p, step, spawns, worker, t)
    requires HandsOk(s) && HeldOk(s) && JobsOk(s) && SubjectKnown(s, p)
    requires CustodyFollows(p, Subject(s.sh, p, s.procs[p]), JobAt(s, p), s.procs[p], step)
    requires OthersKept(JobAt(s, p), s.procs[p], step)
    ensures HeldOk(t)
  {
    var pc, subject, job := s.procs[p], Subject(s.sh, p, s.procs[p]), JobAt(s, p);
    assert HandOk(s.jobs, p, pc);
    assert HandStage(pc).Some? ==> Target(p, pc) == subject;
    forall j | j in t.jobs && t.jobs[j].holder.Some?
      ensures var q := t.jobs[j].holder.value; q in t.procs && InHands(q, t.procs[q], j)
    {
      var q := t.jobs[j].holder.value;
      if q == p {
        MoverHolds(s.jobs, p, pc, subject, job, step, t.jobs, j);
      } else {
        hide RoleOf, RetOk, Backlog, EntryOk, HandStage, Target, Subject, InHands;
        assert s.jobs[j].holder == Some(q);
      }
    }
  }

  lemma RemoveFirstOk(items: seq<Pid>, j: Pid)
    requires Distinct(items) && j in items
    ensures Distinct(RemoveFirst(items, j))
    ensures forall k :: k in RemoveFirst(items, j) <==> k in items && k != j
  {
    assert items == [items[0]] + items[1..];
    if items[0] != j {
      RemoveFirstOk(items[1..], j);
      assert items[0] !in RemoveFirst(items[1..], j);
    }
  }

  /** The queue holds exactly the jobs at stage InQueue, each once. */
  ghost predicate QueueHolds(items: seq<Pid>, jobs: map<Pid, Job>) {
    && Distinct(items)
    && (forall j :: j in items <==> j in jobs && jobs[j].stage.InQueue?)
  }

  lemma QueueChanges(before: seq<Pid>, after: seq<Pid>, jobs: map<Pid, Job>, j: Pid, job: Job)
    requires QueueHolds(before, jobs) && j in jobs
    requires (after == before + [j] && !jobs[j].stage.InQueue? && job.stage.InQueue?)
             || (before != [] && j == before[0] && after == before[1..] && !job.stage.InQueue?)
             || (j in before && after == RemoveFirst(before, j) && !job.stage.InQueue?)
             || (after == before && (job.stage.InQueue? <==> jobs[j].stage.InQueue?))
    ensures QueueHolds(after, jobs[j := job])
  {
    if before != [] && j == before[0] && after == before[1..] {
      assert before == [before[0]] + after;
    } else if j in before && after == RemoveFirst(before, j) {
      RemoveFirstOk(before, j);
    }
  }

  lemma QueueSubjects(s: State, p: Pid, pc: Pc)
    ensures pc == Pub(Push) ==> Subject(s.sh, p, pc) == Some(p)
    ensures pc.Find? && pc.find.TicketTake? ==> Subject(s.sh, p, pc) == Some(pc.target) && Finding(pc)
    ensures Pops(pc) && s.sh.queue.items != [] ==> Subject(s.sh, p, pc) == Some(s.sh.queue.items[0])
  {
  }

  lemma ActQueue(s: State, p: Pid, step: Step, spawns: bool, worker: Pid, t: State)
    requires p in s.procs && Moves(s, p, step, spawns, worker, t)
    requires QueueOk(s) && FindsOk(s) && SubjectKnown(s, p)
    requires QueueFollows(s.sh, p, JobAt(s, p), s.procs[p], step)
    ensures QueueOk(t)
  {
    hide HoldsQueue, Subject, Pops, Distinct, RemoveFirst, Finding;
    var pc, subject := s.procs[p], Subject(s.sh, p, s.procs[p]);
    QueueSubjects(s, p, pc);
    assert QueueHolds(s.sh.queue.items, s.jobs);
    if subject.Some? {
      QueueChanges(s.sh.queue.items, t.sh.queue.items, s.jobs, subject.value, step.job);
    }
  }

  lemma ActFinds(s: State, p: Pid, step: Step, spawns: bool, worker: Pid, t: State)
    requires p in s.procs && Moves(s, p, step, spawns, worker, t)
    requires LocksOk(s) && FindsOk(s)
    requires QueueFollows(s.sh, p, JobAt(s, p), s.procs[p], step)
    ensures FindsOk(t)
  {
    forall q | q in t.procs && Finding(t.procs[q])
      ensures t.procs[q].target in t.sh.queue.items
    {
      if q != p {
        assert q in s.procs && HoldsQueue(s.procs[q]);
        assert s.sh.queue.owner == Some(q);
      }
    }
  }

  /** A submission that has let go of its job, still alive elsewhere, expects nothing of its record. */
  lemma LetGo(pc: Pc, job: Job, next: Job)
    requires OwnJobAt(pc, job) && JobOk(job) && HandStage(pc).None? && !IsEnd(job.stage)
    ensures OwnJobAt(pc, next)
  {
  }

  lemma ActOwnJobs(s: State, p: Pid, step: Step, spawns: bool, worker: Pid, t: State)
    requires p in s.procs && !Finished(s.procs[p]) && Moves(s, p, step, spawns, worker, t)
    requires RolesOk(s) && HandsOk(s) && OwnJobsOk(s) && JobsOk(s) && SubjectKnown(s, p)
    requires CustodyFollows(p, Subject(s.sh, p, s.procs[p]), JobAt(s, p), s.procs[p], step)
    requires OwnJobFollows(s.procs[p], step) && ForeignFollows(JobAt(s, p), s.procs[p], step)
    requires OthersKept(JobAt(s, p), s.procs[p], step)
    ensures OwnJobsOk(t)
  {
    var pc, subject := s.procs[p], Subject(s.sh, p, s.procs[p]);
    assert HandOk(s.jobs, p, pc);
    forall j | j in t.jobs
      ensures j in t.procs && OwnJobAt(t.procs[j], t.jobs[j])
    {
      OwnJobKept(s, p, step, spawns, worker, t, j);
    }
  }

  lemma OwnJobKept(s: State, p: Pid, step: Step, spawns: bool, worker: Pid, t: State, j: Pid)
    requires p in s.procs && !Finished(s.procs[p]) && Moves(s, p, step, spawns, worker, t)
    requires RolesOk(s) && HandsOk(s) && OwnJobsOk(s) && JobsOk(s) && SubjectKnown(s, p)
    requires CustodyFollows(p, Subject(s.sh, p, s.procs[p]), JobAt(s, p), s.procs[p], step)
    requires OwnJobFollows(s.procs[p], step) && ForeignFollows(JobAt(s, p), s.procs[p], step)
    requires OthersKept(JobAt(s, p), s.procs[p], step)
    requires j in t.jobs
    ensures j in t.procs && OwnJobAt(t.procs[j], t.jobs[j])
  {
    OwnSubject(s, p);
    hide HandOk, EntryOk, OwnJobFollows, ForeignFollows, OthersKept, RoleOf, RetOk, HandStage, Backlog, Target,
      Subject, Drains, BeginsNext, JobOk, CustodyFollows, OwnJobAt;
    var pc, subject := s.procs[p], Subject(s.sh, p, s.procs[p]);
    assert j in s.jobs && RoleOf(s.procs[j]).Submitter?;
    assert OwnJobAt(s.procs[j], s.jobs[j]);
    if j != p && subject == Some(j) {
      assert HandOk(s.jobs, p, pc) && HandOk(s.jobs, j, s.procs[j]);
      ForeignStep(s.jobs, p, pc, j, s.procs[j], step);
    }
  }

  lemma ForeignStep(jobs: map<Pid, Job>, p: Pid, pc: Pc, j: Pid, own: Pc, step: Step)
    requires p != j && j in jobs && JobOk(jobs[j]) && HandOk(jobs, p, pc) && HandOk(jobs, j, own)
    requires HandStage(pc).Some? ==> Target(p, pc) == Some(j)
    requires RoleOf(own).Submitter? && RetOk(j, own) && !RoleOf(pc).Submitter? && OwnJobAt(own, jobs[j])
    requires CustodyFollows(p, Some(j), jobs[j], pc, step)
    requires ForeignFollows(jobs[j], pc, step) && OthersKept(jobs[j], pc, step)
    ensures OwnJobAt(own, step.job)
  {
    assert HandStage(own).Some? ==> Target(j, own) == Some(j);
    hide RoleOf, OwnJobAt, EntryOk, HandStage, Backlog, Target, Drains, BeginsNext;
    if HandStage(pc).Some? || HandStage(step.pc).Some? {
      LetGo(own, jobs[j], step.job);
    } else {
      EntryPassedBy(own, jobs[j], step.job);
    }
  }

  lemma OwnSubject(s: State, p: Pid)
    requires p in s.procs && RolesOk(s)
    ensures RoleOf(s.procs[p]).Submitter? && !Finished(s.procs[p]) ==> Subject(s.sh, p, s.procs[p]) == Some(p)
  {
  }

  lemma EntryPassedBy(pc: Pc, job: Job, next: Job)
    requires OwnJobAt(pc, job) && next.ticketed == job.ticketed && next.stage == job.stage
    requires next.entry == job.entry || (job.entry.Accepting? && next.entry.Accepting?)
    ensures OwnJobAt(pc, next)
  {
  }

  lemma ActJobs(s: State, p: Pid, step: Step, spawns: bool, worker: Pid, t: State)
    requires p in s.procs && Moves(s, p, step, spawns, worker, t)
    requires JobsOk(s) && JobOk(step.job)
    ensures JobsOk(t)
  {
  }

  /** The invariant gives the mover what its step needs. */
  lemma MoverReady(s: State, p: Pid)
    requires Inv(s) && p in s.procs && !Finished(s.procs[p])
    ensures SubjectKnown(s, p) && JobOk(JobAt(s, p)) && RetOk(p, s.procs[p])
    ensures LocksReady(s.sh, p, JobAt(s, p), s.procs[p])
    ensures StageReady(s.sh, p, JobAt(s, p), s.procs[p]) && OwnReady(s.procs[p], JobAt(s, p))
    ensures HandStage(s.procs[p]).Some? ==> JobAt(s, p).holder == Some(p)
  {
    InvParts(s);
    hide Inv, LocksOk, SleepersOk, HeldOk, CountersOk, GaugesOk, JobOk, LocksReady, StageReady, OwnReady, HandStage,
      Subject, RetOk;
    MoverSubject(s, p);
    MoverStage(s, p);
    MoverOwn(s, p);
    MoverLocks(s, p);
  }

  lemma MoverSubject(s: State, p: Pid)
    requires RolesOk(s) && QueueOk(s) && FindsOk(s) && JobsOk(s) && p in s.procs && !Finished(s.procs[p])
    ensures SubjectKnown(s, p) && JobOk(JobAt(s, p)) && RetOk(p, s.procs[p])
  {
    assert Pops(s.procs[p]) && s.sh.queue.items != [] ==> s.sh.queue.items[0] in s.sh.queue.items;
  }

  lemma MoverStage(s: State, p: Pid)
    requires RolesOk(s) && HandsOk(s) && QueueOk(s) && FindsOk(s) && p in s.procs && SubjectKnown(s, p)
    ensures StageReady(s.sh, p, JobAt(s, p), s.procs[p])
    ensures HandStage(s.procs[p]).Some? ==> JobAt(s, p).holder == Some(p)
  {
    assert HandOk(s.jobs, p, s.procs[p]);
    assert Pops(s.procs[p]) && s.sh.queue.items != [] ==> s.sh.queue.items[0] in s.sh.queue.items;
  }

  lemma MoverOwn(s: State, p: Pid)
    requires RolesOk(s) && OwnJobsOk(s) && p in s.procs && !Finished(s.procs[p])
    ensures OwnReady(s.procs[p], JobAt(s, p))
  {
    OwnSubject(s, p);
    hide OwnJobAt, Subject, RetOk;
  }

  lemma MoverLocks(s: State, p: Pid)
    requires Inv(s) && p in s.procs && !Finished(s.procs[p]) && SubjectKnown(s, p)
    ensures LocksReady(s.sh, p, JobAt(s, p), s.procs[p])
  {
    var pc := s.procs[p];
    assert HoldsMonitor(pc) ==> s.sh.mon.owner == Some(p);
    assert HoldsQueue(pc) ==> s.sh.queue.owner == Some(p);
    assert HoldsEntry(pc) ==> Target(p, pc).Some? && !Pops(pc);
  }

  lemma NoSubject(s: State, p: Pid, ok: bool)
    requires p in s.procs && Subject(s.sh, p, s.procs[p]).None?
    ensures StepAt(s, p, ok).job == NO_JOB
  {
  }

  /** Everything a step must respect to keep the invariant. */
  ghost predicate Follows(s: State, p: Pid, step: Step, spawns: bool)
    requires p in s.procs
  {
    var sh, pc, subject, job := s.sh, s.procs[p], Subject(s.sh, p, s.procs[p]), JobAt(s, p);
    && SubjectKnown(s, p) && !Finished(pc)
    && (subject.None? ==> step.job == NO_JOB)
    && LocksFollow(sh, p, job, pc, step) && TakesFree(s, p, step)
    && RolesFollow(sh, p, job, pc, step)
    && JobOk(step.job) && OwnJobFollows(pc, step)
    && CustodyFollows(p, subject, job, pc, step) && OthersKept(job, pc, step) && ForeignFollows(job, pc, step)
    && QueueFollows(sh, p, job, pc, step)
    && CountersFollow(sh, job, step) && GaugesFollow(sh, pc, step, spawns)
  }

  lemma MoveInv(s: State, p: Pid, step: Step, spawns: bool, worker: Pid, t: State)
    requires p in s.procs && Moves(s, p, step, spawns, worker, t)
    requires Inv(s) && Follows(s, p, step, spawns)
    ensures Inv(t)
  {
    hide StepOf, LocksFollow, RolesFollow, EntryOk, CallsOk, OwnJobFollows, TakesFree, CustodyFollows, OthersKept,
      ForeignFollows, QueueFollows, CountersFollow, GaugesFollow, LocksReady, StageReady, OwnReady, RolesOk, LocksOk,
      HandStage, Wants, Subject, HandsOk, HeldOk, JobsOk, OwnJobsOk, CountersOk, GaugesOk, QueueOk, SleepersOk;
    ActLocks(s, p, step, spawns, worker, t);
    ActRoles(s, p, step, spawns, worker, t);
    ActSleepers(s, p, step, spawns, worker, t);
    ActHands(s, p, step, spawns, worker, t);
    ActHeld(s, p, step, spawns, worker, t);
    ActQueue(s, p, step, spawns, worker, t);
    ActFinds(s, p, step, spawns, worker, t);
    ActJobs(s, p, step, spawns, worker, t);
    ActOwnJobs(s, p, step, spawns, worker, t);
    ActCounters(s, p, step, spawns, worker, t);
    ActGauges(s, p, step, spawns, worker, t);
  }

  lemma StepFollows(s: State, p: Pid, ok: bool)
    requires Inv(s) && p in s.procs && CanStep(s, p, s.procs[p])
    ensures Follows(s, p, StepAt(s, p, ok), Spawns(s.procs[p], ok))
  {
    var pc, job, past := s.procs[p], JobAt(s, p), PastOf(s);
    MoverReady(s, p);
    MoverAwake(s, p);
    if Subject(s.sh, p, pc).None? {
      NoSubject(s, p, ok);
    }
    MoverTakesFree(s, p, ok);
    hide StepOf, LocksFollow, RolesFollow, EntryOk, CallsOk, OwnJobFollows, TakesFree, CustodyFollows, OthersKept,
      ForeignFollows, QueueFollows, CountersFollow, GaugesFollow, LocksReady, StageReady, OwnReady, RolesOk, LocksOk,
      HandStage, Wants, Subject, HandsOk, HeldOk, JobsOk, OwnJobsOk, CountersOk, GaugesOk, QueueOk, SleepersOk;
    LocksOfStep(s.sh, p, job, pc, ok, past);
    RolesOfStep(s.sh, p, job, pc, ok, past);
    EntryOfStep(s.sh, p, job, pc, ok, past);
    StagesOfStep(s.sh, p, job, pc, ok, past);
    OwnOfStep(s.sh, p, job, pc, ok, past);
    CustodyOfStep(s.sh, p, job, pc, ok, past);
    KeptOfStep(s.sh, p, job, pc, ok, past);
    QueueOfStep(s.sh, p, job, pc, ok, past);
    CountersOfStep(s.sh, p, job, pc, ok, past);
    GaugesOfStep(s.sh, p, job, pc, ok, past);
  }

  lemma MoverAwake(s: State, p: Pid)
    requires SleepersOk(s) && p in s.procs && CanStep(s, p, s.procs[p]) && SubjectKnown(s, p)
    ensures Awake(s.sh, p, JobAt(s, p))
  {
    assert ParksAt(s.procs[p]) ==> !AwaitsEntry(s.procs[p]);
    hide ParksAt, HoldsMonitor, Wants;
  }

  lemma MoverTakesFree(s: State, p: Pid, ok: bool)
    requires p in s.procs && CanStep(s, p, s.procs[p]) && LocksReady(s.sh, p, JobAt(s, p), s.procs[p])
    ensures TakesFree(s, p, StepAt(s, p, ok))
  {
    hide StepOf, HoldsMonitor, HoldsQueue, HoldsEntry, Wants, Target, LocksReady;
    LocksOfStep(s.sh, p, JobAt(s, p), s.procs[p], ok, PastOf(s));
  }

  // ----- the other events

  lemma ArriveCounts(s: State, p: Pid, r: Request, t: State)
    requires CountersOk(s) && GaugesOk(s) && Arrives(s, p, r, t)
    ensures CountersOk(t) && GaugesOk(t)
  {
    hide StartPc, Weighs, Adds;
    NewcomerWeighsNothing(r);
    forall c: Counter
      ensures t.sh.acct.Get(c) == HowMany(t.jobs, (job: Job) => Adds(c, job.stage))
    {
      var f := (job: Job) => Adds(c, job.stage);
      assert s.sh.acct.Get(c) == HowMany(s.jobs, f);
      if r.NewSubmit? {
        HowManyUpdated(s.jobs, p, NewJob(r.ticketed, r.thread, p), f);
      }
      assert t.sh.acct.Get(c) == HowMany(t.jobs, f);
    }
    forall g: Gauge
      ensures Reading(g, t.sh) == HowMany(t.procs, (pc: Pc) => Weighs(g, pc))
    {
      var f := (pc: Pc) => Weighs(g, pc);
      assert Reading(g, s.sh) == HowMany(s.procs, f);
      HowManyUpdated(s.procs, p, StartPc(r), f);
      assert Reading(g, t.sh) == HowMany(t.procs, f);
    }
  }

  lemma NewcomerWeighsNothing(r: Request)
    ensures forall c: Counter :: !Adds(c, New)
    ensures forall g: Gauge :: !Weighs(g, StartPc(r))
  {
  }

  lemma ArriveHands(s: State, p: Pid, r: Request, t: State)
    requires HandsOk(s) && Arrives(s, p, r, t)
    ensures HandsOk(t)
  {
    NewThread(p, StartPc(r));
    assert StartPc(r) == Sub(Enter) <==> r.NewSubmit?;
    hide StartPc, RoleOf, RetOk, HandStage, Backlog, Target, InHands;
    forall q | q in t.procs
      ensures HandOk(t.jobs, q, t.procs[q])
    {
      if q in s.procs {
        assert HandOk(s.jobs, q, s.procs[q]);
      }
    }
  }

  lemma ArriveHeld(s: State, p: Pid, r: Request, t: State)
    requires HeldOk(s) && Arrives(s, p, r, t)
    ensures HeldOk(t)
  {
    assert r.NewSubmit? ==> InHands(p, StartPc(r), p);
    hide StartPc, InHands;
  }

  lemma ArriveQueue(s: State, p: Pid, r: Request, t: State)
    requires QueueOk(s) && Arrives(s, p, r, t)
    ensures QueueOk(t)
  {
    assert p !in s.sh.queue.items;
    hide StartPc;
  }

  lemma ArriveJobs(s: State, p: Pid, r: Request, t: State)
    requires RolesOk(s) && JobsOk(s) && OwnJobsOk(s) && Arrives(s, p, r, t)
    ensures JobsOk(t) && OwnJobsOk(t)
  {
    if r.NewSubmit? {
      var job := NewJob(r.ticketed, r.thread, p);
      assert JobOk(job) && OwnJobAt(Sub(Enter), job);
      hide JobOk, OwnJobAt, RoleOf, RetOk;
    }
  }

  lemma ArriveRoles(s: State, p: Pid, r: Request, t: State)
    requires RolesOk(s) && Arrives(s, p, r, t)
    ensures RolesOk(t)
  {
    NewThread(p, StartPc(r));
    assert StartPc(r) == Sub(Enter) <==> r.NewSubmit?;
    assert StartPc(r).Look? ==> r.NewCancel? && Target(p, StartPc(r)) == Some(r.j);
    hide StartPc, RoleOf, RetOk, HandStage, Backlog, Target, Weighs;
  }

  lemma ArriveLocks(s: State, p: Pid, r: Request, t: State)
    requires RolesOk(s) && LocksOk(s) && Arrives(s, p, r, t)
    ensures LocksOk(t)
  {
    hide StartPc, RolesOk, HoldsMonitor, HoldsQueue, HoldsEntry, Target, HandStage, Backlog, ParksAt, Weighs, RetOk,
      RoleOf, Finding, AwaitsEntry;
    NewThread(p, StartPc(r));
    assert s.sh.mon.owner != Some(p) && s.sh.queue.owner != Some(p);
    forall q, j | j in t.jobs
      ensures t.jobs[j].entryLock == Some(q)
              <==> q in t.procs && HoldsEntry(t.procs[q]) && Target(q, t.procs[q]) == Some(j)
    {
      ArriveEntryLock(s, p, r, t, q, j);
    }
  }

  lemma ArriveEntryLock(s: State, p: Pid, r: Request, t: State, q: Pid, j: Pid)
    requires RolesOk(s) && LocksOk(s) && Arrives(s, p, r, t) && j in t.jobs && !HoldsEntry(StartPc(r))
    ensures t.jobs[j].entryLock == Some(q)
            <==> q in t.procs && HoldsEntry(t.procs[q]) && Target(q, t.procs[q]) == Some(j)
  {
    hide StartPc, RolesOk, HoldsMonitor, HoldsQueue, HoldsEntry, Target;
    if j in s.jobs {
      assert s.jobs[j].entryLock == Some(q)
             <==> q in s.procs && HoldsEntry(s.procs[q]) && Target(q, s.procs[q]) == Some(j);
    } else if q in s.procs {
      TargetsAreJobs(s, q, j);
    }
  }

  lemma TargetsAreJobs(s: State, q: Pid, j: Pid)
    requires RolesOk(s) && q in s.procs && j !in s.jobs
    ensures Target(q, s.procs[q]) != Some(j)
  {
    hide Target, RoleOf, RetOk;
  }

  lemma ArriveSleepers(s: State, p: Pid, r: Request, t: State)
    requires SleepersOk(s) && FindsOk(s) && Arrives(s, p, r, t)
    ensures SleepersOk(t) && FindsOk(t)
  {
    NewThread(p, StartPc(r));
    hide StartPc, HandStage, Backlog, ParksAt, Target, Weighs;
  }

  lemma ArriveInv(s: State, p: Pid, r: Request, t: State)
    requires Inv(s) && Arrives(s, p, r, t)
    ensures Inv(t)
  {
    ArriveCounts(s, p, r, t);
    ArriveHands(s, p, r, t);
    ArriveHeld(s, p, r, t);
    ArriveQueue(s, p, r, t);
    ArriveJobs(s, p, r, t);
    ArriveRoles(s, p, r, t);
    ArriveLocks(s, p, r, t);
    ArriveSleepers(s, p, r, t);
  }

  /** A wake-up without a step: the thread leaves its wait set. */
  function WakeStep(s: State, p: Pid, next: Pc): Step
    requires p in s.procs
  {
    Step(s.sh.(mon := s.sh.mon.(parked := s.sh.mon.parked - {p})),
         JobAt(s, p).(entryParked := JobAt(s, p).entryParked - {p}), next)
  }

  lemma WakeFollows(s: State, p: Pid, next: Pc)
    requires Inv(s) && p in s.procs && ParksAt(s.procs[p])
    requires next == s.procs[p] || (s.procs[p].Idle? && s.procs[p].idle.Parked? && next == Idle(Parked(true, true)))
    ensures Follows(s, p, WakeStep(s, p, next), false)
  {
    var pc := s.procs[p];
    SleeperPlain(p, pc, next);
    assert Subject(s.sh, p, pc).None?;
    assert RetOk(p, pc) && RetOk(p, next);
    WakeStepFollows(s.sh, p, Subject(s.sh, p, pc), JobAt(s, p), pc, WakeStep(s, p, next));
  }

  lemma WakeEntryFollows(s: State, p: Pid)
    requires Inv(s) && p in s.procs && AwaitsEntry(s.procs[p])
    ensures Follows(s, p, WakeStep(s, p, s.procs[p]), false)
  {
    var pc := s.procs[p];
    MoverReady(s, p);
    SleeperPlain(p, pc, pc);
    WakeStepFollows(s.sh, p, Subject(s.sh, p, pc), JobAt(s, p), pc, WakeStep(s, p, pc));
  }

  /** A sleeping thread holds no lock and no job. */
  lemma SleeperPlain(p: Pid, pc: Pc, next: Pc)
    requires ParksAt(pc) || AwaitsEntry(pc)
    requires next == pc || (pc.Idle? && pc.idle.Parked? && next == Idle(Parked(true, true)))
    ensures !HoldsMonitor(next) && !HoldsQueue(next) && !HoldsEntry(next) && !Finding(next)
    ensures !HoldsMonitor(pc) && !HoldsQueue(pc) && !HoldsEntry(pc) && !Finding(pc) && !Pops(pc) && !Finished(pc)
    ensures HandStage(next).None? && HandStage(pc).None? && Backlog(pc) == Backlog(next) == []
    ensures RoleOf(next) == RoleOf(pc) && !RoleOf(pc).Submitter? && Target(p, next) == Target(p, pc)
    ensures (ParksAt(pc) <==> Target(p, pc).None?) && !Drains(pc) && !BeginsNext(pc, next) && RetOk(p, next)
    ensures pc != Pub(Push) && !(pc.Find? && pc.find.TicketTake?)
    ensures forall g: Gauge :: Weighs(g, next) == Weighs(g, pc)
  {
  }

  lemma WakeStepFollows(sh: Shared, p: Pid, subject: Option<Pid>, job: Job, pc: Pc, step: Step)
    requires ParksAt(pc) || AwaitsEntry(pc)
    requires step.pc == pc || (pc.Idle? && pc.idle.Parked? && step.pc == Idle(Parked(true, true)))
    requires step.sh == sh.(mon := sh.mon.(parked := sh.mon.parked - {p})) && JobOk(job)
    requires step.job == job.(entryParked := job.entryParked - {p})
    ensures LocksFollow(sh, p, job, pc, step) && RolesFollow(sh, p, job, pc, step)
    ensures JobOk(step.job) && OwnJobFollows(pc, step)
    ensures CustodyFollows(p, subject, job, pc, step) && OthersKept(job, pc, step) && ForeignFollows(job, pc, step)
    ensures QueueFollows(sh, p, job, pc, step)
    ensures CountersFollow(sh, job, step) && GaugesFollow(sh, pc, step, false)
  {
    SleeperPlain(p, pc, step.pc);
    assert EntryOk(step.job);
    hide HoldsMonitor, HoldsQueue, HoldsEntry, HandStage, Backlog, RoleOf, Target, Weighs, RetOk, EntryOk, Drains,
      BeginsNext;
  }

  lemma TimeoutInv(s: State, p: Pid, t: State)
    requires Inv(s) && TimesOut(s, p, t)
    ensures Inv(t)
  {
    WakeFollows(s, p, Idle(Parked(true, true)));
    MoveInv(s, p, WakeStep(s, p, Idle(Parked(true, true))), false, 0, t);
  }

  /** Waking without a notification is the wake-up step of the sleeper. */
  lemma SpuriousMoves(s: State, p: Pid, t: State)
    requires SleepersOk(s) && WakesSpuriously(s, p, t)
    ensures Moves(s, p, WakeStep(s, p, s.procs[p]), false, 0, t)
  {
    assert s.procs == s.procs[p := s.procs[p]];
    if AwaitsEntry(s.procs[p]) {
      assert p !in s.sh.mon.parked;
      assert s.sh.mon.parked - {p} == s.sh.mon.parked;
    } else {
      assert Subject(s.sh, p, s.procs[p]).None?;
    }
  }

  lemma SpuriousInv(s: State, p: Pid, t: State)
    requires Inv(s) && WakesSpuriously(s, p, t)
    ensures Inv(t)
  {
    SpuriousMoves(s, p, t);
    hide Moves, Follows, ParksAt;
    if AwaitsEntry(s.procs[p]) {
      WakeEntryFollows(s, p);
    } else {
      WakeFollows(s, p, s.procs[p]);
    }
    hide Inv;
    MoveInv(s, p, WakeStep(s, p, s.procs[p]), false, 0, t);
  }

  // ----- whole behaviours

  lemma NextInv(s: State, e: Event, t: State)
    requires Inv(s) && Next(s, e, t)
    ensures Inv(t)
  {
    hide Inv;
    match e {
      case Arrive(p, r) => ArriveInv(s, p, r, t);
      case Act(p, ok, worker) =>
        StepFollows(s, p, ok);
        MoveInv(s, p, StepAt(s, p, ok), Spawns(s.procs[p], ok), worker, t);
      case Spurious(p) => SpuriousInv(s, p, t);
      case Timeout(p) => TimeoutInv(s, p, t);
    }
  }

  lemma InitInv(s: State)
    requires Init(s)
    ensures Inv(s)
  {
    forall c: Counter
      ensures s.sh.acct.Get(c) == HowMany(s.jobs, (job: Job) => Adds(c, job.stage))
    {
      HowManyNone((job: Job) => Adds(c, job.stage));
    }
    forall g: Gauge
      ensures Reading(g, s.sh) == HowMany(s.procs, (pc: Pc) => Weighs(g, pc))
    {
      HowManyNone((pc: Pc) => Weighs(g, pc));
    }
  }

  /** The base invariant holds in every state of every behaviour. */
  lemma {:induction false} AlwaysInv(b: Behavior, i: nat)
    requires b.Valid() && i < |b.states|
    ensures Inv(b.states[i])
  {
    if i == 0 {
      InitInv(b.states[0]);
    } else {
      AlwaysInv(b, i - 1);
      NextInv(b.states[i - 1], b.events[i - 1], b.states[i]);
    }
  }
}
