/** The removable FIFO against the entries and against the order of publication; lock order; callbacks. */
module DynamicFifo {
  import opened PoolTypes
  import opened PoolAccounting
  import opened PoolShared
  import opened DynamicPool
  import opened DynamicRun
  import opened DynamicFacts
  import opened DynamicInvariant
  import opened DynamicStepJobs
  import opened DynamicLifecycle

  // ----- queue and entries

  /** Whoever holds a counted or popped job whose entry says queued owns the queue lock. */
  lemma HolderOwnsQueue(pc: Pc, job: Job)
    requires HandStage(pc).Some? && HandStage(pc).value == job.stage && (job.stage.Counted? || job.stage.Popped?)
    ensures HoldsQueue(pc)
  {
  }

  lemma QueueOwned(s: State, h: Pid)
    requires LocksOk(s) && h in s.procs && HoldsQueue(s.procs[h])
    ensures s.sh.queue.owner == Some(h)
  {
  }

  lemma QueuedAtRest(s: State, j: Pid)
    requires JobsOk(s) && HeldOk(s) && HandsOk(s) && LocksOk(s)
    requires s.sh.queue.owner.None? && j in s.jobs && s.jobs[j].entry.EntryQueued?
    ensures s.jobs[j].stage.InQueue?
  {
    hide HandStage, HoldsQueue, Backlog, HoldsMonitor, HoldsEntry, LocksOk;
    assert JobOk(s.jobs[j]);
    if !s.jobs[j].stage.InQueue? {
      var h := s.jobs[j].holder.value;
      assert InHands(h, s.procs[h], j) && HandOk(s.jobs, h, s.procs[h]);
      HolderOwnsQueue(s.procs[h], s.jobs[j]);
      QueueOwned(s, h);
    }
  }

  lemma QueuedEntry(job: Job)
    requires EntryOk(job) && job.stage.InQueue?
    ensures job.entry.EntryQueued?
  {
  }

  /** Whenever the queue lock is free, the queue lists each job at most once, and exactly those whose entry says
      queued. */
  lemma QueueIsQueuedEntries(b: Behavior, i: nat)
    requires b.Valid() && i < |b.states| && b.states[i].sh.queue.owner.None?
    ensures Distinct(b.states[i].sh.queue.items)
    ensures forall j ::
              j in b.states[i].sh.queue.items <==> j in b.states[i].jobs && b.states[i].jobs[j].entry.EntryQueued?
  {
    hide Behavior.Valid, Inv, RolesOk, SleepersOk, FindsOk, OwnJobsOk, CountersOk, GaugesOk, HandsOk, HeldOk, LocksOk,
      EntryOk, CallsOk;
    var s := b.states[i];
    AlwaysInv(b, i);
    InvParts(s);
    forall j
      ensures j in s.sh.queue.items <==> j in s.jobs && s.jobs[j].entry.EntryQueued?
    {
      if j in s.jobs && s.jobs[j].stage.InQueue? {
        assert JobOk(s.jobs[j]);
        QueuedEntry(s.jobs[j]);
      } else if j in s.jobs && s.jobs[j].entry.EntryQueued? {
        QueuedAtRest(s, j);
      }
    }
  }

  predicate TakesEntry(pc: Pc) {
    (pc.Work? && pc.work.TakeEntry?) || (pc.Purge? && pc.purge.StopEntry?) || (pc.Find? && pc.find.TicketTake?)
  }

  lemma TakesQueued(sh: Shared, p: Pid, pc: Pc, job: Job)
    requires TakesEntry(pc) && StageReady(sh, p, job, pc) && EntryOk(job)
    ensures job.entry.EntryQueued? && Subject(sh, p, pc) == Target(p, pc) && Target(p, pc).Some?
  {
  }

  /** A worker, a stop or a ticket that has popped or found an entry and locked it always finds it queued: no
      popped entry is ever dropped. */
  lemma TakeAlwaysFindsQueued(b: Behavior, i: nat, p: Pid)
    requires b.Valid() && i < |b.states| && p in b.states[i].procs && TakesEntry(b.states[i].procs[p])
    ensures var s := b.states[i];
            Target(p, s.procs[p]).Some? && Target(p, s.procs[p]).value in s.jobs
            && s.jobs[Target(p, s.procs[p]).value].entry.EntryQueued?
  {
    hide Behavior.Valid, Inv, LocksReady, OwnReady, CallsOk, EntryOk, Subject, StageReady, Target;
    AlwaysInv(b, i);
    MoverReady(b.states[i], p);
    TakesQueued(b.states[i].sh, p, b.states[i].procs[p], JobAt(b.states[i], p));
  }

  // ----- claim order

  /** `a` is what is left of `b` after leaving out some of its elements. */
  ghost predicate Subsequence(a: seq<Pid>, b: seq<Pid>)
    decreases |b|
  {
    a == [] || (b != [] && (Subsequence(a, b[..|b| - 1])
                            || (a[|a| - 1] == b[|b| - 1] && Subsequence(a[..|a| - 1], b[..|b| - 1]))))
  }

  lemma {:induction false} SubsequenceSelf(a: seq<Pid>)
    ensures Subsequence(a, a)
  {
    if a != [] {
      SubsequenceSelf(a[..|a| - 1]);
    }
  }

  lemma SubsequenceGrows(a: seq<Pid>, b: seq<Pid>, x: Pid)
    requires Subsequence(a, b)
    ensures Subsequence(a + [x], b + [x])
  {
    assert (a + [x])[..|a|] == a && (b + [x])[..|b|] == b;
  }

  /** Leaving out one more element. */
  lemma {:induction false} SubsequenceDrops(a: seq<Pid>, b: seq<Pid>, k: nat)
    requires Subsequence(a, b) && k < |a|
    ensures Subsequence(a[..k] + a[k + 1..], b)
    decreases |b|
  {
    var rest, front := a[..k] + a[k + 1..], b[..|b| - 1];
    if Subsequence(a, front) {
      SubsequenceDrops(a, front, k);
    } else if k == |a| - 1 {
      assert rest == a[..|a| - 1];
    } else {
      var init := a[..|a| - 1];
      SubsequenceDrops(init, front, k);
      assert rest[..|rest| - 1] == init[..k] + init[k + 1..];
    }
  }

  /** Jobs claimed so far, the one being claimed, and those queued, in order. */
  function Line(sh: Shared, inHand: seq<Pid>): seq<Pid> { sh.queue.claimed + inHand + sh.queue.items }

  /** The job popped by the worker that owns the queue lock and not yet recorded as claimed. */
  function BeingClaimed(s: State): seq<Pid> {
    if s.sh.queue.owner.Some? && s.sh.queue.owner.value in s.procs then
      ClaimInHand(s.procs[s.sh.queue.owner.value])
    else
      []
  }

  /** Claims and the queue keep the order of publication. */
  ghost predicate LineOk(s: State) { Subsequence(Line(s.sh, BeingClaimed(s)), s.sh.queue.pushed) }

  lemma {:induction false} RemoveFirstAt(items: seq<Pid>, j: Pid) returns (k: nat)
    requires j in items
    ensures k < |items| && RemoveFirst(items, j) == items[..k] + items[k + 1..]
  {
    if items[0] == j {
      k := 0;
    } else {
      assert items == [items[0]] + items[1..];
      k := RemoveFirstAt(items[1..], j);
      k := k + 1;
    }
  }

  lemma ClaimHoldsQueue(pc: Pc)
    ensures !HoldsQueue(pc) ==> ClaimInHand(pc) == []
    ensures Pops(pc) || pc == Pub(Push) || (pc.Find? && pc.find.TicketTake?) || (pc.Work? && pc.work.ClaimRun?) ==>
            HoldsQueue(pc)
    ensures ClaimInHand(pc) != [] ==> pc.Work? && !Pops(pc)
  {
  }

  lemma LineLosesOne(claimed: seq<Pid>, items: seq<Pid>, j: Pid, pushed: seq<Pid>)
    requires j in items && Subsequence(claimed + items, pushed)
    ensures Subsequence(claimed + RemoveFirst(items, j), pushed)
  {
    hide Subsequence;
    var k := RemoveFirstAt(items, j);
    var before := claimed + items;
    assert before[..|claimed| + k] + before[|claimed| + k + 1..] == claimed + (items[..k] + items[k + 1..]);
    SubsequenceDrops(before, pushed, |claimed| + k);
  }

  lemma LineStep(sh: Shared, p: Pid, job: Job, pc: Pc, step: Step)
    requires QueueFollows(sh, p, job, pc, step) && LineFollows(sh, p, pc, step)
    requires pc.Find? && pc.find.TicketTake? ==> pc.target in sh.queue.items
    requires Subsequence(Line(sh, ClaimInHand(pc)), sh.queue.pushed)
    ensures Subsequence(Line(step.sh, ClaimInHand(step.pc)), step.sh.queue.pushed)
  {
    ClaimHoldsQueue(pc);
    var before, after := Line(sh, ClaimInHand(pc)), Line(step.sh, ClaimInHand(step.pc));
    var items, claimed := sh.queue.items, sh.queue.claimed;
    hide ClaimInHand, HoldsQueue, Subsequence;
    if pc == Pub(Push) {
      assert after == before + [p];
      SubsequenceGrows(before, sh.queue.pushed, p);
    } else if pc.Purge? && Pops(pc) && items != [] {
      assert before == claimed + items && after == claimed + items[1..];
      assert before[..|claimed|] + before[|claimed| + 1..] == after;
      SubsequenceDrops(before, sh.queue.pushed, |claimed|);
    } else if pc.Find? && pc.find.TicketTake? {
      assert before == claimed + items && after == claimed + RemoveFirst(items, pc.target);
      LineLosesOne(claimed, items, pc.target, sh.queue.pushed);
    } else {
      assert after == before;
    }
  }

  /** A thread that does not own the queue lock leaves the line alone. */
  lemma LineKept(s: State, p: Pid, step: Step, spawns: bool, worker: Pid, t: State)
    requires p in s.procs && Moves(s, p, step, spawns, worker, t) && LocksOk(s) && LineOk(s) && !HoldsQueue(s.procs[p])
    requires LocksFollow(s.sh, p, JobAt(s, p), s.procs[p], step) && TakesFree(s, p, step)
    requires QueueFollows(s.sh, p, JobAt(s, p), s.procs[p], step) && LineFollows(s.sh, p, s.procs[p], step)
    ensures LineOk(t)
  {
    ClaimHoldsQueue(s.procs[p]);
    QueueLeftAlone(s.sh, p, JobAt(s, p), s.procs[p], step);
    hide Subsequence, ClaimInHand, HoldsQueue, QueueFollows, HoldsMonitor, HoldsEntry, Subject, JobAt, Target;
    var owner := s.sh.queue.owner;
    assert owner.Some? ==> owner.value in s.procs && owner.value != p;
    assert ClaimInHand(step.pc) == [];
    assert BeingClaimed(t) == BeingClaimed(s);
  }

  lemma QueueLeftAlone(sh: Shared, p: Pid, job: Job, pc: Pc, step: Step)
    requires QueueFollows(sh, p, job, pc, step) && LineFollows(sh, p, pc, step) && !HoldsQueue(pc)
    ensures step.sh.queue.items == sh.queue.items && step.sh.queue.pushed == sh.queue.pushed
    ensures step.sh.queue.claimed == sh.queue.claimed && ClaimInHand(step.pc) == []
  {
    ClaimHoldsQueue(pc);
    hide HoldsQueue, ClaimInHand;
  }

  lemma LineReady(s: State, p: Pid, ok: bool)
    requires Inv(s) && KnowledgeOk(s) && p in s.procs && CanStep(s, p, s.procs[p])
    ensures var pc, step := s.procs[p], StepAt(s, p, ok);
            && LocksOk(s) && LocksFollow(s.sh, p, JobAt(s, p), pc, step) && TakesFree(s, p, step)
            && QueueFollows(s.sh, p, JobAt(s, p), pc, step) && LineFollows(s.sh, p, pc, step)
            && (pc.Find? && pc.find.TicketTake? ==> pc.target in s.sh.queue.items)
  {
    hide Inv, KnowledgeOk, StepAt, JobAt, StageEdge, PathsFollow, FramesFollow, WatchFollows, Subject, QueueFollows,
      LineFollows, CanStep, LocksFollow, TakesFree, LocksOk;
    StepRespects(s, p, ok);
    InvParts(s);
    assert FindsOk(s) && (s.procs[p].Find? && s.procs[p].find.TicketTake? ==> Finding(s.procs[p]));
  }

  lemma ActLine(s: State, p: Pid, ok: bool, worker: Pid, t: State)
    requires Inv(s) && KnowledgeOk(s) && LineOk(s) && Acts(s, p, ok, worker, t)
    ensures LineOk(t)
  {
    var pc, step := s.procs[p], StepAt(s, p, ok);
    hide Inv, KnowledgeOk, StepAt, JobAt, Subject, Subsequence, ClaimInHand, HoldsQueue, QueueFollows, LineFollows,
      CanStep, Spawns, TakesFree, HoldsMonitor, HoldsEntry;
    LineReady(s, p, ok);
    ClaimHoldsQueue(step.pc);
    if HoldsQueue(pc) {
      assert s.sh.queue.owner == Some(p);
      assert BeingClaimed(s) == ClaimInHand(pc) && BeingClaimed(t) == ClaimInHand(step.pc);
      LineStep(s.sh, p, JobAt(s, p), pc, step);
    } else {
      hide LocksFollow, LocksOk, LineOk;
      LineKept(s, p, step, Spawns(pc, ok), worker, t);
    }
  }

  lemma QuietLine(s: State, e: Event, t: State)
    requires LineOk(s) && Next(s, e, t) && !e.Act? && RolesOk(s) && LocksOk(s)
    ensures LineOk(t)
  {
    hide Subsequence, StartPc;
    assert t.sh.queue == s.sh.queue;
    assert BeingClaimed(t) == BeingClaimed(s);
  }

  lemma LineAtStart(b: Behavior)
    requires b.Valid()
    ensures LineOk(b.states[0])
  {
    hide Next;
  }

  /** In every run, the order in which jobs are claimed, followed by those still queued, is the order in which
      they were published, some being left out by tickets and stops. */
  lemma {:induction false} ClaimsKeepOrder(b: Behavior, i: nat)
    requires b.Valid() && i < |b.states|
    ensures LineOk(b.states[i])
  {
    hide Inv, KnowledgeOk, LineOk, Acts, Arrives, TimesOut, WakesSpuriously;
    if i == 0 {
      LineAtStart(b);
    } else {
      ClaimsKeepOrder(b, i - 1);
      AlwaysKnowledge(b, i - 1);
      InvParts(b.states[i - 1]);
      match b.events[i - 1] {
        case Act(p, ok, worker) => ActLine(b.states[i - 1], p, ok, worker, b.states[i]);
        case _ => QuietLine(b.states[i - 1], b.events[i - 1], b.states[i]);
      }
    }
  }

  // ----- lock order

  function Rank(l: LockName): nat {
    match l
    case MonitorLock => 0
    case FifoLock => 1
    case JobLock(_) => 2
  }

  /** The highest rank of the locks a thread owns, if it owns any. */
  function HighestHeld(pc: Pc): Option<nat> {
    if HoldsEntry(pc) then Some(2) else if HoldsQueue(pc) then Some(1) else if HoldsMonitor(pc) then Some(0) else None
  }

  lemma WantsAboveHeld(p: Pid, pc: Pc)
    requires RetOk(p, pc) && Wants(p, pc).Some?
    ensures HighestHeld(pc).Some? ==> HighestHeld(pc).value < Rank(Wants(p, pc).value)
  {
  }

  /** An owned lock is held at its owner's position, and the highest lock held there is owned. */
  lemma OwnedIsHeld(s: State, l: LockName, p: Pid)
    requires LocksOk(s) && Owner(s, l) == Some(p)
    ensures p in s.procs && HighestHeld(s.procs[p]).Some? && HighestHeld(s.procs[p]).value >= Rank(l)
  {
  }

  function HeldLock(p: Pid, pc: Pc): LockName
    requires HighestHeld(pc).Some?
  {
    if HoldsEntry(pc) then JobLock(if Target(p, pc).Some? then Target(p, pc).value else p)
    else if HoldsQueue(pc) then FifoLock
    else MonitorLock
  }

  lemma HeldIsOwned(s: State, p: Pid)
    requires RolesOk(s) && LocksOk(s) && p in s.procs && HighestHeld(s.procs[p]).Some?
    ensures Owner(s, HeldLock(p, s.procs[p])) == Some(p)
  {
    HeldEntry(p, s.procs[p]);
    hide HoldsEntry, HoldsQueue, HoldsMonitor, Target;
  }

  lemma HeldEntry(p: Pid, pc: Pc)
    ensures HoldsEntry(pc) ==> Target(p, pc).Some?
  {
  }

  /** In every run locks are taken in the order state, queue, entry: a thread that owns a lock and waits for another
      waits for one of higher rank. */
  lemma LocksInOrder(b: Behavior, i: nat, p: Pid, owned: LockName)
    requires b.Valid() && i < |b.states| && Owner(b.states[i], owned) == Some(p)
    ensures p in b.states[i].procs
    ensures var wanted := Wants(p, b.states[i].procs[p]); wanted.Some? ==> Rank(owned) < Rank(wanted.value)
  {
    hide Behavior.Valid, Inv, Wants, HighestHeld, Owner, Rank;
    AlwaysInv(b, i);
    InvParts(b.states[i]);
    hide LocksOk, SleepersOk, HandsOk, HeldOk, QueueOk, FindsOk, JobsOk, OwnJobsOk, CountersOk, GaugesOk;
    OwnedIsHeld(b.states[i], owned, p);
    if Wants(p, b.states[i].procs[p]).Some? {
      WantsAboveHeld(p, b.states[i].procs[p]);
    }
  }

  /** User code: acceptance, run, cancellation, discarding a rejected job, worker start and stop hooks. */
  predicate RunsUserCode(pc: Pc) {
    match pc
    case Sub(sub) => sub.Discard?
    case Acc(acc) => acc.Call?
    case Run(run, _) => run.RunCall?
    case Fin(fin, _, _) => fin.CancelCall?
    case Work(work) => work.Start?
    case Exit(exit) => exit.Hook?
    case _ => false
  }

  lemma UserCodePositions(pc: Pc)
    requires RunsUserCode(pc)
    ensures HighestHeld(pc).None?
  {
  }

  /** In every run a thread inside user code owns none of the pool's locks. */
  lemma UserCodeHoldsNoLock(b: Behavior, i: nat, p: Pid, l: LockName)
    requires b.Valid() && i < |b.states| && p in b.states[i].procs && RunsUserCode(b.states[i].procs[p])
    ensures Owner(b.states[i], l) != Some(p)
  {
    hide Behavior.Valid, Inv, HighestHeld, RunsUserCode, Owner;
    AlwaysInv(b, i);
    InvParts(b.states[i]);
    UserCodePositions(b.states[i].procs[p]);
    if Owner(b.states[i], l) == Some(p) {
      OwnedIsHeld(b.states[i], l, p);
    }
  }

  /** A thread that owns a lock has not finished and is not asleep. */
  lemma OwnerActive(s: State, p: Pid)
    requires SleepersOk(s) && p in s.procs && HighestHeld(s.procs[p]).Some?
    requires AwaitsEntry(s.procs[p]) ==> s.procs[p].target in s.jobs
    ensures !Finished(s.procs[p]) && !Asleep(s, p, s.procs[p])
  {
  }

  ghost predicate HoldsAbove(s: State, rank: nat, x: Pid) {
    x in s.procs && HighestHeld(s.procs[x]).Some? && HighestHeld(s.procs[x]).value > rank
  }

  lemma OwnerHolds(s: State, l: LockName, rank: nat)
    requires LocksOk(s) && (l.JobLock? ==> l.j in s.jobs) && Owner(s, l).Some? && rank < Rank(l)
    ensures HoldsAbove(s, rank, Owner(s, l).value)
  {
  }

  lemma HighestCanStep(s: State, p: Pid, rank: nat)
    requires Inv(s) && p in s.procs && HighestHeld(s.procs[p]) == Some(rank)
    requires forall x :: !HoldsAbove(s, rank, x)
    ensures CanStep(s, p, s.procs[p])
  {
    InvParts(s);
    hide Inv, HandsOk, HeldOk, QueueOk, FindsOk, JobsOk, OwnJobsOk, CountersOk, GaugesOk;
    assert AwaitsEntry(s.procs[p]) ==> Target(p, s.procs[p]) == Some(s.procs[p].target);
    hide Target, RoleOf;
    OwnerActive(s, p);
    var wanted := Wants(p, s.procs[p]);
    if wanted.Some? {
      WantsAboveHeld(p, s.procs[p]);
      WantedKnown(s, p);
      hide HighestHeld, Wants, LocksOk, RolesOk, SleepersOk, Asleep, Finished, Owner;
      if Owner(s, wanted.value).Some? {
        OwnerHolds(s, wanted.value, rank);
      }
    }
  }

  /** Whenever a lock is owned, the owner of the highest lock in use can take its next step: the internal locks cannot
      deadlock. */
  lemma NoDeadlock(b: Behavior, i: nat, p: Pid, l: LockName) returns (q: Pid, m: LockName)
    requires b.Valid() && i < |b.states| && Owner(b.states[i], l) == Some(p)
    ensures Owner(b.states[i], m) == Some(q) && q in b.states[i].procs && CanStep(b.states[i], q, b.states[i].procs[q])
  {
    hide Behavior.Valid, Inv, HighestHeld, HeldLock, CanStep, Owner;
    AlwaysInv(b, i);
    InvParts(b.states[i]);
    OwnedIsHeld(b.states[i], l, p);
    q := HighestSteps(b, i, p);
    m := HeldLock(q, b.states[i].procs[q]);
    HeldIsOwned(b.states[i], q);
  }

  lemma {:induction false} HighestSteps(b: Behavior, i: nat, p: Pid) returns (q: Pid)
    requires b.Valid() && i < |b.states| && p in b.states[i].procs && HighestHeld(b.states[i].procs[p]).Some?
    ensures q in b.states[i].procs && HighestHeld(b.states[i].procs[q]).Some?
    ensures CanStep(b.states[i], q, b.states[i].procs[q])
    decreases 2 - HighestHeld(b.states[i].procs[p]).value
  {
    var s, rank := b.states[i], HighestHeld(b.states[i].procs[p]).value;
    if x :| HoldsAbove(s, rank, x) {
      q := HighestSteps(b, i, x);
    } else {
      q := p;
      AlwaysInv(b, i);
      hide Behavior.Valid;
      HighestCanStep(s, p, rank);
    }
  }

  lemma WantedKnown(s: State, p: Pid)
    requires RolesOk(s) && p in s.procs && Wants(p, s.procs[p]).Some?
    ensures Wants(p, s.procs[p]).value.JobLock? ==> Wants(p, s.procs[p]).value.j in s.jobs
  {
    assert Wants(p, s.procs[p]).value.JobLock? ==> Target(p, s.procs[p]) == Some(Wants(p, s.procs[p]).value.j);
  }
}
