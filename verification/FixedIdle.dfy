/** The fixed pool's idle check reads four counters at four moments, and is still right about all earlier work. */
module FixedIdle {
  import opened PoolTypes
  import opened PoolAccounting
  import opened PoolShared
  import opened Counting
  import opened FixedPool
  import opened FixedFacts
  import opened FixedInvariant
  import opened FixedOutcomes
  import opened FixedShutdown

  ghost predicate AllLate(jobs: map<Pid, Job>, seen: set<Pid>, k: nat) {
    forall j :: j in seen ==> j in jobs && Late(k, jobs[j].stage)
  }

  /** The submissions a check has seen, and how many of its loads have read zero since. */
  function Seen(pc: Pc): Option<(set<Pid>, nat)> {
    match pc
    case Check(Load1(seen), _) => Some((seen, 1))
    case Check(Load2(seen), _) => Some((seen, 2))
    case Check(Load3(seen), _) => Some((seen, 3))
    case Wait(JoinSub(seen)) => Some((seen, 3))
    case Done(Joined(seen)) => Some((seen, 3))
    case _ => None
  }

  ghost predicate SeenOk(jobs: map<Pid, Job>, pc: Pc) {
    Seen(pc).Some? ==> AllLate(jobs, Seen(pc).value.0, Seen(pc).value.1)
  }

  ghost predicate ChecksOk(s: State) { forall p :: p in s.procs ==> SeenOk(s.jobs, s.procs[p]) }

  lemma SeenStays(s: State, e: Event, t: State, pc: Pc)
    requires Inv(s) && Next(s, e, t) && SeenOk(s.jobs, pc)
    ensures SeenOk(t.jobs, pc)
  {
    hide Inv, Next, Late, Seen;
    if Seen(pc).Some? {
      forall j | j in Seen(pc).value.0
        ensures j in t.jobs && Late(Seen(pc).value.1, t.jobs[j].stage)
      {
        JobMoves(s, e, t, j);
        LateStays(Seen(pc).value.1, s.jobs[j].stage, t.jobs[j].stage);
      }
    }
  }

  lemma NoneCounted(s: State, c: Counter)
    requires Inv(s) && s.sh.acct.Get(c) == 0
    ensures forall j :: j in s.jobs ==> !Adds(c, s.jobs[j].stage)
  {
    InvParts(s);
    hide Inv, RolesOk, MonitorOk, SleepersOk, HandsOk, HeldOk, QueueOk, JobsOk, GaugesOk, KnowledgeOk;
    forall j | j in s.jobs
      ensures !Adds(c, s.jobs[j].stage)
    {
      CountedJob(s, c, j);
    }
  }

  /** Nobody in flight: every submission past its admission test holds no unpublished slot. */
  lemma FirstLoad(s: State)
    requires Inv(s) && s.sh.gate.inflight == 0
    ensures AllLate(s.jobs, Begun(s), 1)
  {
    hide Inv, InFlight;
    forall j | j in Begun(s)
      ensures j in s.jobs && Late(1, s.jobs[j].stage)
    {
      if s.jobs[j].stage.New? {
        NewInFlight(s, j);
      }
      NothingUnpublished(s, j);
    }
  }

  lemma NewInFlight(s: State, j: Pid)
    requires Inv(s) && j in Begun(s) && s.jobs[j].stage.New?
    ensures s.sh.gate.inflight >= 1
  {
    InvParts(s);
    UnpublishedInFlight(s, j);
    CountedThread(s, InFlightGauge, j);
  }

  /** No slot in use, then no task running: nothing earlier is left. */
  lemma NextLoad(s: State, seen: set<Pid>, k: nat)
    requires Inv(s) && AllLate(s.jobs, seen, k) && 1 <= k <= 2
    requires s.sh.acct.Get(if k == 1 then Slots else RunningTasks) == 0
    ensures AllLate(s.jobs, seen, k + 1)
  {
    NoneCounted(s, if k == 1 then Slots else RunningTasks);
    hide Inv;
  }

  /** How a check reaches each of its loads. */
  lemma SeenBefore(sh: Shared, p: Pid, job: Job, pc: Pc, ok: bool, past: Past)
    requires PathsFollow(sh, pc, StepOf(sh, p, job, pc, ok, past).pc)
    ensures var now, next := Seen(pc), Seen(StepOf(sh, p, job, pc, ok, past).pc);
            next.Some? ==>
              || (next.value == (past.begun, 1) && sh.gate.inflight == 0)
              || (now.Some? && next.value == now.value)
              || (now.Some? && next.value == (now.value.0, now.value.1 + 1) && 1 <= now.value.1 <= 2
                  && sh.acct.Get(if now.value.1 == 1 then Slots else RunningTasks) == 0)
  {
    match pc {
      case Check(loads, ret) =>
      case Wait(g) =>
      case Done(outcome) =>
      case _ => hide StepOf;
    }
  }

  lemma StepPaths(s: State, p: Pid, ok: bool)
    requires Inv(s) && p in s.procs && CanStep(s, p, s.procs[p])
    ensures PathsFollow(s.sh, s.procs[p], StepAt(s, p, ok).pc) && StepAt(s, p, ok).pc != Sub(Enter)
  {
    hide Inv, StepAt, CanStep, JobAt, GaugesFollow, JobFollows, CountersFollow, QueueFollows, CustodyFollows,
      WatchFollows, Subject, PathsFollow, LifeFollows, LocalOk, GlobalOk;
    StepFollows(s, p, ok);
  }

  lemma MoverSeen(s: State, p: Pid, ok: bool)
    requires Inv(s) && p in s.procs && CanStep(s, p, s.procs[p]) && SeenOk(s.jobs, s.procs[p])
    ensures SeenOk(s.jobs, StepAt(s, p, ok).pc)
  {
    hide Inv, CanStep, JobAt, StepOf, PathsFollow, AllLate, Begun, Departed, Published, Seen;
    StepPaths(s, p, ok);
    SeenBefore(s.sh, p, JobAt(s, p), s.procs[p], ok, PastOf(s));
    var now, next := Seen(s.procs[p]), Seen(StepAt(s, p, ok).pc);
    if next.Some? {
      if s.sh.gate.inflight == 0 {
        FirstLoad(s);
      }
      if now.Some? && next.value.1 == now.value.1 + 1 && 1 <= now.value.1 <= 2
         && s.sh.acct.Get(if now.value.1 == 1 then Slots else RunningTasks) == 0 {
        NextLoad(s, now.value.0, now.value.1);
      }
    }
  }

  lemma FreshUnseen()
    ensures Seen(Work(Start)).None? && forall r: Request :: Seen(StartPc(r)).None?
  {
  }

  lemma NextChecks(s: State, e: Event, t: State)
    requires Inv(s) && ChecksOk(s) && Next(s, e, t)
    ensures ChecksOk(t)
  {
    hide Inv, AllLate, Seen, StepAt, JobAt, StartPc, CanStep, Subject;
    if e.Act? {
      MoverSeen(s, e.p, e.ok);
    }
    FreshUnseen();
    forall p | p in t.procs
      ensures SeenOk(t.jobs, t.procs[p])
    {
      assert SeenOk(s.jobs, t.procs[p]);
      SeenStays(s, e, t, t.procs[p]);
    }
  }

  lemma {:induction false} AlwaysChecks(b: Behavior, i: nat)
    requires b.Valid() && i < |b.states|
    ensures ChecksOk(b.states[i])
  {
    hide Inv, ChecksOk, Next;
    if i == 0 {
      NoChecksAtStart(b);
    } else {
      AlwaysChecks(b, i - 1);
      Consecutive(b, i);
      NextChecks(b.states[i - 1], b.events[i - 1], b.states[i]);
    }
  }

  lemma NoChecksAtStart(b: Behavior)
    requires b.Valid()
    ensures ChecksOk(b.states[0])
  {
    hide Next;
    FreshUnseen();
  }

  // ----- The theorems.

  /** At the last load of any idle check, three having read zero, every submission that had begun when its first load
      did so is completed, cancelled, rejected or refused, whatever the other counters have done in between. */
  lemma IdleCheckSound(b: Behavior, i: nat, p: Pid)
    requires b.Valid() && i < |b.states|
    requires p in b.states[i].procs && b.states[i].procs[p].Check? && b.states[i].procs[p].loads.Load3?
    ensures forall j :: j in b.states[i].procs[p].loads.seen ==>
              j in b.states[i].jobs && IsEnd(b.states[i].jobs[j].stage)
  {
    hide Behavior.Valid;
    AlwaysChecks(b, i);
    assert SeenOk(b.states[i].jobs, b.states[i].procs[p]);
  }

  lemma BegunStays(s: State, e: Event, t: State)
    requires Inv(s) && Next(s, e, t)
    ensures Begun(s) <= Begun(t)
  {
    hide Inv, Next;
    forall j | j in Begun(s)
      ensures j in Begun(t)
    {
      JobMoves(s, e, t, j);
      PastEntry(s, e, t, j);
    }
  }

  lemma PastEntry(s: State, e: Event, t: State, p: Pid)
    requires Inv(s) && Next(s, e, t) && p in s.procs && s.procs[p] != Sub(Enter)
    ensures p in t.procs && t.procs[p] != Sub(Enter)
  {
    hide Inv, StepAt, StartPc, JobAt, Subject, CanStep, PathsFollow;
    if e.Act? {
      StepPaths(s, e.p, e.ok);
    }
  }

  /** Thread `p` has not begun its check, or its check knows about `j`. */
  ghost predicate Includes(s: State, p: Pid, j: Pid) {
    p in s.procs && Seen(s.procs[p]).Some? ==> j in Seen(s.procs[p]).value.0
  }

  lemma IncludesStays(s: State, e: Event, t: State, p: Pid, j: Pid)
    requires Inv(s) && Next(s, e, t) && Includes(s, p, j) && j in Begun(s)
    ensures Includes(t, p, j)
  {
    hide Inv, StepOf, StartPc, JobAt, Subject, CanStep, Seen, Begun, Departed, Published, PathsFollow;
    FreshUnseen();
    if e.Act? {
      StepPaths(s, e.p, e.ok);
      SeenBefore(s.sh, e.p, JobAt(s, e.p), s.procs[e.p], e.ok, PastOf(s));
    }
  }

  lemma {:induction false} CheckIncludesEarlier(b: Behavior, i: nat, k: nat, p: Pid, j: Pid)
    requires b.Valid() && i <= k < |b.states|
    requires p !in b.states[i].procs && j in Begun(b.states[i])
    ensures Includes(b.states[k], p, j) && j in Begun(b.states[k])
  {
    hide Inv, Next, Begun;
    if k > i {
      CheckIncludesEarlier(b, i, k - 1, p, j);
      Consecutive(b, k);
      BegunStays(b.states[k - 1], b.events[k - 1], b.states[k]);
      IncludesStays(b.states[k - 1], b.events[k - 1], b.states[k], p, j);
    }
  }

  /** A `join` of the fixed pool that has returned left no submission unfinished that had passed its admission test
      before the join was called. */
  lemma JoinWaitsForEarlierWork(b: Behavior, i: nat, k: nat, p: Pid, j: Pid)
    requires b.Valid() && i <= k < |b.states|
    requires p !in b.states[i].procs && j in Begun(b.states[i])
    requires p in b.states[k].procs && b.states[k].procs[p].Done? && b.states[k].procs[p].outcome.Joined?
    ensures j in b.states[k].jobs && IsEnd(b.states[k].jobs[j].stage)
  {
    hide Behavior.Valid, Begun;
    CheckIncludesEarlier(b, i, k, p, j);
    AlwaysChecks(b, k);
    assert SeenOk(b.states[k].jobs, b.states[k].procs[p]);
    assert Late(3, b.states[k].jobs[j].stage);
  }
}
