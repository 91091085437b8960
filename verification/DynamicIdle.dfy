/** The idle check reads four counters at four moments, and is still right about all earlier work. */
module DynamicIdle {
  import opened PoolTypes
  import opened PoolAccounting
  import opened PoolShared
  import opened Counting
  import opened DynamicPool
  import opened DynamicRun
  import opened DynamicFacts
  import opened DynamicInvariant
  import opened DynamicLifecycle
  import opened DynamicRetire

  ghost predicate AllLate(jobs: map<Pid, Job>, seen: set<Pid>, k: nat) {
    forall j :: j in seen ==> j in jobs && Late(k, jobs[j].stage)
  }

  /** The submissions a check has seen, and how many of its loads have read zero since. */
  function Seen(pc: Pc): Option<(set<Pid>, nat)> {
    match pc
    case Check(Load1(seen), _) => Some((seen, 1))
    case Check(Load2(seen), _) => Some((seen, 2))
    case Check(Load3(seen), _) => Some((seen, 3))
    case Wait(JoinSub(seen)) => Some((seen, 3))
    case Done(Joined(seen)) => Some((seen, 3))
    case _ => None
  }

  ghost predicate SeenOk(jobs: map<Pid, Job>, pc: Pc) {
    Seen(pc).Some? ==> AllLate(jobs, Seen(pc).value.0, Seen(pc).value.1)
  }

  ghost predicate ChecksOk(s: State) { forall p :: p in s.procs ==> SeenOk(s.jobs, s.procs[p]) }

  lemma SeenStays(s: State, e: Event, t: State, pc: Pc)
    requires Inv(s) && KnowledgeOk(s) && Next(s, e, t) && SeenOk(s.jobs, pc)
    ensures SeenOk(t.jobs, pc)
  {
    hide Inv, KnowledgeOk, Next, Late, Seen;
    if Seen(pc).Some? {
      forall j | j in Seen(pc).value.0
        ensures j in t.jobs && Late(Seen(pc).value.1, t.jobs[j].stage)
      {
        StageMoves(s, e, t, j);
        LateStays(Seen(pc).value.1, s.jobs[j].stage, t.jobs[j].stage);
      }
    }
  }

  // ----- what each load shows

  lemma NoneCounted(s: State, c: Counter)
    requires Inv(s) && s.sh.acct.Get(c) == 0
    ensures forall j :: j in s.jobs ==> !Adds(c, s.jobs[j].stage)
  {
    InvParts(s);
    hide Inv;
    var f := (job: Job) => Adds(c, job.stage);
    assert s.sh.acct.Get(c) == HowMany(s.jobs, f);
    forall j | j in s.jobs
      ensures !Adds(c, s.jobs[j].stage)
    {
      HowManyZero(s.jobs, f, j);
    }
  }

  /** Nobody in flight: every submission past its admission test holds no unpublished slot. */
  lemma FirstLoad(s: State)
    requires Inv(s) && s.sh.gate.inflight == 0
    ensures AllLate(s.jobs, Begun(s), 1)
  {
    forall j | j in Begun(s)
      ensures j in s.jobs && Late(1, s.jobs[j].stage)
    {
      if s.jobs[j].stage.New? || Unpublished(s.jobs[j].stage) {
        hide Inv;
        UnpublishedInFlight(s, j);
        InFlightCounted(s, j);
      }
    }
  }

  /** No slot in use, then no task running: nothing earlier is left. */
  lemma NextLoad(s: State, seen: set<Pid>, k: nat)
    requires Inv(s) && AllLate(s.jobs, seen, k) && 1 <= k <= 2
    requires s.sh.acct.Get(if k == 1 then Slots else RunningTasks) == 0
    ensures AllLate(s.jobs, seen, k + 1)
  {
    NoneCounted(s, if k == 1 then Slots else RunningTasks);
  }

  /** How a check reaches each of its loads. */
  lemma SeenBefore(sh: Shared, p: Pid, job: Job, pc: Pc, ok: bool, past: Past)
    requires PathsFollow(pc, StepOf(sh, p, job, pc, ok, past).pc)
    ensures var now, next := Seen(pc), Seen(StepOf(sh, p, job, pc, ok, past).pc);
            next.Some? ==>
              || (next.value == (past.begun, 1) && sh.gate.inflight == 0)
              || (now.Some? && next.value == now.value)
              || (now.Some? && next.value == (now.value.0, now.value.1 + 1) && 1 <= now.value.1 <= 2
                  && sh.acct.Get(if now.value.1 == 1 then Slots else RunningTasks) == 0)
  {
    match pc {
      case Check(loads, ret) =>
      case Wait(g) =>
      case _ => hide StepOf;
    }
  }

  lemma MoverSeen(s: State, p: Pid, ok: bool)
    requires Inv(s) && p in s.procs && SeenOk(s.jobs, s.procs[p]) && PathsFollow(s.procs[p], StepAt(s, p, ok).pc)
    ensures SeenOk(s.jobs, StepAt(s, p, ok).pc)
  {
    hide Inv, JobAt, StepOf, PathsFollow, AllLate, Begun, Departed, Published, Seen;
    SeenBefore(s.sh, p, JobAt(s, p), s.procs[p], ok, PastOf(s));
    var now, next := Seen(s.procs[p]), Seen(StepAt(s, p, ok).pc);
    if next.Some? {
      if s.sh.gate.inflight == 0 {
        FirstLoad(s);
      }
      if now.Some? && next.value.1 == now.value.1 + 1 && 1 <= now.value.1 <= 2
         && s.sh.acct.Get(if now.value.1 == 1 then Slots else RunningTasks) == 0 {
        NextLoad(s, now.value.0, now.value.1);
      }
    }
  }

  lemma FreshSeen(jobs: map<Pid, Job>)
    ensures SeenOk(jobs, Work(Start)) && SeenOk(jobs, Idle(Parked(true, true)))
    ensures forall r: Request :: SeenOk(jobs, StartPc(r))
  {
  }

  lemma NextChecks(s: State, e: Event, t: State)
    requires Inv(s) && KnowledgeOk(s) && ChecksOk(s) && Next(s, e, t)
    ensures ChecksOk(t)
  {
    hide Inv, KnowledgeOk, SeenOk, StepAt, JobAt, PathsFollow, StartPc, Asleep;
    if e.Act? {
      StepStages(s, e.p, e.ok);
      MoverSeen(s, e.p, e.ok);
    }
    FreshSeen(s.jobs);
    forall p | p in t.procs
      ensures SeenOk(t.jobs, t.procs[p])
    {
      assert SeenOk(s.jobs, t.procs[p]);
      SeenStays(s, e, t, t.procs[p]);
    }
  }

  lemma {:induction false} AlwaysChecks(b: Behavior, i: nat)
    requires b.Valid() && i < |b.states|
    ensures ChecksOk(b.states[i])
  {
    hide Inv, KnowledgeOk, ChecksOk, Next;
    if i == 0 {
      NoChecksAtStart(b);
    } else {
      AlwaysChecks(b, i - 1);
      AlwaysKnowledge(b, i - 1);
      NextChecks(b.states[i - 1], b.events[i - 1], b.states[i]);
    }
  }

  lemma NoChecksAtStart(b: Behavior)
    requires b.Valid()
    ensures ChecksOk(b.states[0])
  {
    hide Next;
  }

  // ----- the theorems

  /** At the last load of any idle check, three having read zero, every submission that had begun when its first load
      did so is completed, cancelled, rejected or refused, whatever the other counters have done in between. */
  lemma IdleCheckSound(b: Behavior, i: nat, p: Pid)
    requires b.Valid() && i < |b.states|
    requires p in b.states[i].procs && b.states[i].procs[p].Check? && b.states[i].procs[p].loads.Load3?
    ensures forall j :: j in b.states[i].procs[p].loads.seen ==>
              j in b.states[i].jobs && IsEnd(b.states[i].jobs[j].stage)
  {
    AlwaysChecks(b, i);
    assert SeenOk(b.states[i].jobs, b.states[i].procs[p]);
  }

  lemma BegunStays(s: State, e: Event, t: State)
    requires Inv(s) && KnowledgeOk(s) && Next(s, e, t)
    ensures Begun(s) <= Begun(t)
  {
    hide Inv, KnowledgeOk, Next;
    forall j | j in Begun(s)
      ensures j in Begun(t)
    {
      StageMoves(s, e, t, j);
      PastEntry(s, e, t, j);
    }
  }

  lemma PastEntry(s: State, e: Event, t: State, p: Pid)
    requires Inv(s) && KnowledgeOk(s) && Next(s, e, t) && p in s.procs && s.procs[p] != Sub(Enter)
    ensures p in t.procs && t.procs[p] != Sub(Enter)
  {
    hide Inv, KnowledgeOk, StepAt, StartPc, JobAt, StageEdge, Asleep, Subject, CanStep;
    if e.Act? {
      StepStages(s, e.p, e.ok);
    }
  }

  /** Thread `p` has not begun its check, or its check knows about `j`. */
  ghost predicate Includes(s: State, p: Pid, j: Pid) {
    p in s.procs && Seen(s.procs[p]).Some? ==> j in Seen(s.procs[p]).value.0
  }

  lemma IncludesStays(s: State, e: Event, t: State, p: Pid, j: Pid)
    requires Inv(s) && KnowledgeOk(s) && Next(s, e, t) && Includes(s, p, j) && j in Begun(s)
    ensures Includes(t, p, j)
  {
    hide Inv, KnowledgeOk, StepOf, StartPc, JobAt, Asleep, Subject, CanStep, Seen, Begun, Departed, Published,
      StageEdge;
    FreshUnseen();
    if e.Act? {
      StepStages(s, e.p, e.ok);
      SeenBefore(s.sh, e.p, JobAt(s, e.p), s.procs[e.p], e.ok, PastOf(s));
    }
  }

  lemma FreshUnseen()
    ensures Seen(Work(Start)).None? && Seen(Idle(Parked(true, true))).None?
    ensures forall r: Request :: Seen(StartPc(r)).None?
  {
  }

  lemma {:induction false} CheckIncludesEarlier(b: Behavior, i: nat, k: nat, p: Pid, j: Pid)
    requires b.Valid() && i <= k < |b.states|
    requires p !in b.states[i].procs && j in Begun(b.states[i])
    ensures Includes(b.states[k], p, j) && j in Begun(b.states[k])
  {
    hide Inv, KnowledgeOk, Next, Begun;
    if k > i {
      CheckIncludesEarlier(b, i, k - 1, p, j);
      AlwaysKnowledge(b, k - 1);
      BegunStays(b.states[k - 1], b.events[k - 1], b.states[k]);
      IncludesStays(b.states[k - 1], b.events[k - 1], b.states[k], p, j);
    }
  }

  /** A `join` that has returned left no submission unfinished that had passed its admission test before the
      join was called. */
  lemma JoinWaitsForEarlierWork(b: Behavior, i: nat, k: nat, p: Pid, j: Pid)
    requires b.Valid() && i <= k < |b.states|
    requires p !in b.states[i].procs && j in Begun(b.states[i])
    requires p in b.states[k].procs && b.states[k].procs[p].Done? && b.states[k].procs[p].outcome.Joined?
    ensures j in b.states[k].jobs && IsEnd(b.states[k].jobs[j].stage)
  {
    CheckIncludesEarlier(b, i, k, p, j);
    AlwaysChecks(b, k);
    assert SeenOk(b.states[k].jobs, b.states[k].procs[p]);
    assert Late(3, b.states[k].jobs[j].stage);
  }
}
