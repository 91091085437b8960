/** Tickets: cancellation reserved during acceptance, direct cancellation, and who is credited. */
module DynamicTickets {
  import opened PoolTypes
  import opened PoolAccounting
  import opened PoolShared
  import opened DynamicPool
  import opened DynamicRun
  import opened DynamicFacts
  import opened DynamicInvariant
  import opened DynamicStepJobs
  import opened DynamicLifecycle

  ghost predicate CreditsOk(s: State) { forall j :: j in s.jobs ==> CreditOk(s.jobs[j]) }

  ghost predicate CreditPlaceOk(jobs: map<Pid, Job>, p: Pid, pc: Pc) {
    CreditJob(p, pc).Some? ==> CreditJob(p, pc).value in jobs && CreditAt(p, pc, jobs[CreditJob(p, pc).value])
  }

  ghost predicate CreditPlacesOk(s: State) {
    forall p {:trigger CreditPlaceOk(s.jobs, p, s.procs[p])} :: p in s.procs ==> CreditPlaceOk(s.jobs, p, s.procs[p])
  }

  /** Whoever reserved or was credited with the cancellation of `j` is a ticket of that job, or a stop. */
  ghost predicate CreditorOk(s: State, j: Pid, q: Pid) {
    j in s.jobs && (Credited(s.jobs[j], q) || ReservedFor(s.jobs[j], q)) ==>
      q in s.procs
      && ((RoleOf(s.procs[q]).Canceller? && CreditJob(q, s.procs[q]) == Some(j))
          || (RoleOf(s.procs[q]).Stopper? && !ReservedFor(s.jobs[j], q)))
  }

  ghost predicate CreditorsOk(s: State) { forall j, q :: CreditorOk(s, j, q) }

  ghost predicate TicketsOk(s: State) { CreditsOk(s) && CreditPlacesOk(s) && CreditorsOk(s) }

  // ----- one step

  /** Another thread's knowledge survives a change of the record by the mover. */
  lemma CreditStable(p: Pid, q: Pid, own: Pc, job: Job, next: Job)
    requires p != q && CreditAt(q, own, job) && CreditMoves(p, job, next) && StageEdge(job.stage, next.stage)
    requires own.Work? ==> job.stage.Taken?
    ensures CreditAt(q, own, next)
  {
    hide StageEdge, Successors;
    assert job.stage.Cancelled? || job.stage.Refused? ==>
           next.stage == job.stage by { EndStays(job.stage, next.stage); }
  }

  lemma EndStays(before: Stage, after: Stage)
    requires StageEdge(before, after)
    ensures IsEnd(before) ==> after == before
  {
  }

  lemma StepCredit(s: State, p: Pid, ok: bool)
    requires Inv(s) && TicketsOk(s) && p in s.procs && CanStep(s, p, s.procs[p])
    ensures CreditFollows(s.sh, p, JobAt(s, p), s.procs[p], StepAt(s, p, ok))
  {
    hide Inv, CanStep, StepOf, CreditFollows, CreditJob, CreditAt, CreditOk, StageReady, OwnReady, EntryOk, CallsOk,
      CreditorsOk, LocksReady, Subject;
    NotFinished(s, p);
    MoverReady(s, p);
    assert CreditPlaceOk(s.jobs, p, s.procs[p]);
    assert CreditOk(JobAt(s, p)) by { CreditOkNone(); }
    CreditOfStep(s.sh, p, JobAt(s, p), s.procs[p], ok, PastOf(s));
  }

  lemma CreditOkNone()
    ensures CreditOk(NO_JOB)
  {
  }

  lemma NotFinished(s: State, p: Pid)
    requires p in s.procs && CanStep(s, p, s.procs[p])
    ensures !Finished(s.procs[p])
  {
  }

  ghost predicate CreditReady(s: State, p: Pid, step: Step, spawns: bool, worker: Pid, t: State) {
    && p in s.procs && Moves(s, p, step, spawns, worker, t) && TicketsOk(s) && RolesOk(s) && HandsOk(s)
    && SubjectKnown(s, p) && (Subject(s.sh, p, s.procs[p]).None? ==> step.job == NO_JOB)
    && StageEdge(JobAt(s, p).stage, step.job.stage) && CreditFollows(s.sh, p, JobAt(s, p), s.procs[p], step)
    && RoleOf(step.pc) == RoleOf(s.procs[p])
  }

  lemma MoverCredit(s: State, p: Pid, step: Step, spawns: bool, worker: Pid, t: State)
    requires CreditReady(s, p, step, spawns, worker, t)
    ensures CreditPlaceOk(t.jobs, p, step.pc)
  {
    hide Subject, JobAt, StageEdge, CreditOk, RolesOk, HandsOk, CreditorsOk, RoleOf, CreditJob;
    assert CreditPlaceOk(s.jobs, p, s.procs[p]);
  }

  lemma OtherCredit(s: State, p: Pid, step: Step, spawns: bool, worker: Pid, t: State, q: Pid)
    requires CreditReady(s, p, step, spawns, worker, t) && q in s.procs && q != p
    ensures CreditPlaceOk(t.jobs, q, s.procs[q])
  {
    var own, subject := s.procs[q], Subject(s.sh, p, s.procs[p]);
    assert CreditPlaceOk(s.jobs, q, own) && HandOk(s.jobs, q, own);
    ClaimingHolds(q, own);
    hide Subject, StageEdge, CreditOk, RolesOk, HandsOk, CreditorsOk, RoleOf, CreditAt, CreditJob, HandStage, Target,
      Backlog, CreditMoves;
    if CreditJob(q, own).Some? && subject == CreditJob(q, own) {
      CreditStable(p, q, own, s.jobs[subject.value], step.job);
    }
  }

  lemma ClaimingHolds(q: Pid, own: Pc)
    ensures CreditJob(q, own).Some? && own.Work? ==>
            HandStage(own) == Some(Taken) && Target(q, own) == CreditJob(q, own)
  {
  }

  lemma CreditorKept(s: State, p: Pid, step: Step, spawns: bool, worker: Pid, t: State, j: Pid, q: Pid)
    requires CreditReady(s, p, step, spawns, worker, t)
    ensures CreditorOk(t, j, q)
  {
    assert CreditorOk(s, j, q) && CreditorOk(s, j, p);
    assert forall x :: x in s.procs && x != p ==> t.procs[x] == s.procs[x];
    hide Subject, StageEdge, CreditOk, RolesOk, HandsOk, RoleOf, CreditAt, CreditJob, CreditorsOk, CreditPlacesOk;
  }

  lemma ActTickets(s: State, p: Pid, ok: bool, worker: Pid, t: State)
    requires Inv(s) && KnowledgeOk(s) && TicketsOk(s) && Acts(s, p, ok, worker, t)
    ensures TicketsOk(t)
  {
    var step, spawns := StepAt(s, p, ok), Spawns(s.procs[p], ok);
    ActCreditReady(s, p, ok, worker, t);
    hide Inv, KnowledgeOk, CreditReady, StepAt, Subject, CreditPlaceOk, CreditorOk, CanStep, JobAt;
    assert CreditsOk(t) by { CreditsKept(s, p, step, spawns, worker, t); }
    forall q | q in t.procs
      ensures CreditPlaceOk(t.jobs, q, t.procs[q])
    {
      if q == p {
        MoverCredit(s, p, step, spawns, worker, t);
      } else if q in s.procs {
        OtherCredit(s, p, step, spawns, worker, t, q);
      } else {
        FreshCredit(t.jobs, q);
      }
    }
    forall j, q
      ensures CreditorOk(t, j, q)
    {
      CreditorKept(s, p, step, spawns, worker, t, j, q);
    }
  }

  lemma CreditsKept(s: State, p: Pid, step: Step, spawns: bool, worker: Pid, t: State)
    requires CreditReady(s, p, step, spawns, worker, t)
    ensures CreditsOk(t)
  {
    hide Subject, StageEdge, CreditOk, RolesOk, HandsOk, CreditorsOk, CreditPlacesOk, JobAt;
  }

  lemma FreshCredit(jobs: map<Pid, Job>, q: Pid)
    ensures CreditPlaceOk(jobs, q, Work(Start)) && CreditPlaceOk(jobs, q, Idle(Parked(true, true)))
  {
  }

  lemma ActCreditReady(s: State, p: Pid, ok: bool, worker: Pid, t: State)
    requires Inv(s) && KnowledgeOk(s) && TicketsOk(s) && Acts(s, p, ok, worker, t)
    ensures CreditReady(s, p, StepAt(s, p, ok), Spawns(s.procs[p], ok), worker, t)
  {
    hide Inv, KnowledgeOk, StepAt, Subject, JobAt, CanStep, Moves, TicketsOk, StageEdge, CreditFollows, RolesOk,
      HandsOk, PathsFollow, Spawns, SubjectKnown;
    StepStages(s, p, ok);
    StepCredit(s, p, ok);
    InvParts(s);
    RoleKept(s, p, ok);
  }

  lemma RoleKept(s: State, p: Pid, ok: bool)
    requires Inv(s) && KnowledgeOk(s) && p in s.procs && CanStep(s, p, s.procs[p])
    ensures RoleOf(StepAt(s, p, ok).pc) == RoleOf(s.procs[p])
  {
    hide Inv, KnowledgeOk, StepAt, JobAt, CanStep, RoleOf;
    StepRespects(s, p, ok);
  }

  lemma ArriveTickets(s: State, p: Pid, r: Request, t: State)
    requires TicketsOk(s) && Arrives(s, p, r, t)
    ensures TicketsOk(t)
  {
    NewCanceller(s, p, r);
    FreshJobCredit();
    hide CreditOk, CreditAt, CreditJob, RoleOf, StartPc, NewJob, CreditPlacesOk, CreditorsOk;
    ArriveCreditors(s, p, r, t);
    ArrivePlaces(s, p, r, t);
  }

  lemma FreshJobCredit()
    ensures forall ticketed, thread, p :: CreditOk(NewJob(ticketed, thread, p))
  {
  }

  lemma ArriveCreditors(s: State, p: Pid, r: Request, t: State)
    requires CreditorsOk(s) && Arrives(s, p, r, t)
    ensures CreditorsOk(t)
  {
    hide CreditJob, RoleOf, StartPc;
    forall j, q
      ensures CreditorOk(t, j, q)
    {
      assert CreditorOk(s, j, q);
    }
  }

  lemma ArrivePlaces(s: State, p: Pid, r: Request, t: State)
    requires CreditPlacesOk(s) && Arrives(s, p, r, t)
    requires CreditJob(p, StartPc(r)).Some? ==> r.NewCancel? && CreditJob(p, StartPc(r)) == Some(r.j)
    requires r.NewCancel? ==> CreditAt(p, StartPc(r), s.jobs[r.j])
    ensures CreditPlacesOk(t)
  {
    hide CreditAt, CreditJob, StartPc;
    forall q | q in t.procs
      ensures CreditPlaceOk(t.jobs, q, t.procs[q])
    {
      if q in s.procs {
        assert CreditPlaceOk(s.jobs, q, s.procs[q]);
      }
    }
  }

  /** A ticket that has just been asked to cancel is nobody's creditor yet. */
  lemma NewCanceller(s: State, p: Pid, r: Request)
    requires CreditorsOk(s) && p !in s.procs
    requires r.NewCancel? ==> r.j in s.jobs
    ensures CreditJob(p, StartPc(r)).Some? ==> r.NewCancel? && CreditJob(p, StartPc(r)) == Some(r.j)
    ensures r.NewCancel? ==> CreditAt(p, StartPc(r), s.jobs[r.j])
  {
    if r.NewCancel? {
      assert CreditorOk(s, r.j, p);
    }
  }

  /** Waking up touches no entry, no stage and no credit. */
  lemma WakeTickets(s: State, e: Event, t: State)
    requires RolesOk(s) && TicketsOk(s) && Next(s, e, t) && (e.Spurious? || e.Timeout?)
    ensures TicketsOk(t)
  {
    hide CreditsOk, CreditPlacesOk, CreditorsOk, RolesOk, Next, SameCredit;
    SleeperRecords(s, e, t);
    SleeperCredit(s, e, t);
    WakeCredits(s, t);
  }

  /** Two states that differ only in who is awake. */
  ghost predicate SameCredit(s: State, t: State) {
    && t.jobs.Keys == s.jobs.Keys
    && forall j :: j in s.jobs ==> (
         && t.jobs[j].stage == s.jobs[j].stage && t.jobs[j].entry == s.jobs[j].entry
         && t.jobs[j].cancelledBy == s.jobs[j].cancelledBy && t.jobs[j].reservedBy == s.jobs[j].reservedBy)
  }

  lemma SleeperRecords(s: State, e: Event, t: State)
    requires RolesOk(s) && Next(s, e, t) && (e.Spurious? || e.Timeout?)
    ensures SameCredit(s, t)
  {
    hide RolesOk, Asleep;
    SleeperTarget(s, e.p);
  }

  lemma WakeCredits(s: State, t: State)
    requires TicketsOk(s) && SameCredit(s, t) && t.procs.Keys == s.procs.Keys
    requires forall q :: q in s.procs ==>
               RoleOf(t.procs[q]) == RoleOf(s.procs[q]) && CreditJob(q, t.procs[q]) == CreditJob(q, s.procs[q])
    requires forall q :: q in s.procs && CreditJob(q, s.procs[q]).Some? ==> t.procs[q] == s.procs[q]
    ensures TicketsOk(t)
  {
    hide RoleOf, CreditJob;
    forall j, q
      ensures CreditorOk(t, j, q)
    {
      assert CreditorOk(s, j, q);
    }
    forall q | q in t.procs
      ensures CreditPlaceOk(t.jobs, q, t.procs[q])
    {
      assert CreditPlaceOk(s.jobs, q, s.procs[q]);
    }
  }

  lemma SleeperTarget(s: State, p: Pid)
    requires RolesOk(s)
    ensures p in s.procs && AwaitsEntry(s.procs[p]) ==> s.procs[p].target in s.jobs
  {
    assert p in s.procs && AwaitsEntry(s.procs[p]) ==> Target(p, s.procs[p]) == Some(s.procs[p].target);
  }

  lemma SleeperCredit(s: State, e: Event, t: State)
    requires Next(s, e, t) && (e.Spurious? || e.Timeout?)
    ensures t.procs.Keys == s.procs.Keys
    ensures forall q :: q in s.procs ==>
              RoleOf(t.procs[q]) == RoleOf(s.procs[q]) && CreditJob(q, t.procs[q]) == CreditJob(q, s.procs[q])
    ensures forall q :: q in s.procs && CreditJob(q, s.procs[q]).Some? ==> t.procs[q] == s.procs[q]
  {
  }

  lemma TicketsAtStart(b: Behavior)
    requires b.Valid()
    ensures TicketsOk(b.states[0])
  {
    hide Next;
  }

  lemma {:induction false} AlwaysTickets(b: Behavior, i: nat)
    requires b.Valid() && i < |b.states|
    ensures TicketsOk(b.states[i])
  {
    hide Inv, KnowledgeOk, TicketsOk, Acts, Arrives, TimesOut, WakesSpuriously;
    if i == 0 {
      TicketsAtStart(b);
    } else {
      AlwaysTickets(b, i - 1);
      AlwaysKnowledge(b, i - 1);
      InvParts(b.states[i - 1]);
      match b.events[i - 1] {
        case Act(p, ok, worker) => ActTickets(b.states[i - 1], p, ok, worker, b.states[i]);
        case Arrive(p, r) => ArriveTickets(b.states[i - 1], p, r, b.states[i]);
        case _ => WakeTickets(b.states[i - 1], b.events[i - 1], b.states[i]);
      }
    }
  }

  // ----- the theorems

  /** A job whose cancellation a ticket reserved during acceptance never enters the queue, is never claimed and
      never run. */
  lemma ReservedNeverQueued(b: Behavior, i: nat, j: Pid)
    requires b.Valid() && i < |b.states| && j in b.states[i].jobs && b.states[i].jobs[j].reservedBy.Some?
    ensures var job := b.states[i].jobs[j];
            && (Unpublished(job.stage) || job.stage.Refused? || BeingCancelled(job.stage) || job.stage.Cancelled?)
            && job.runs == 0 && j !in b.states[i].sh.queue.items
  {
    hide Behavior.Valid, Inv, RolesOk, LocksOk, SleepersOk, HandsOk, HeldOk, FindsOk, OwnJobsOk, CountersOk, GaugesOk;
    AlwaysInv(b, i);
    InvParts(b.states[i]);
    assert JobOk(b.states[i].jobs[j]);
  }

  /** The ticket that reserved the cancellation answers true exactly when acceptance succeeded, and then only
      after the cancel callback and the accounting; it answers false exactly when acceptance failed. */
  lemma ReservedTicketAnswer(b: Behavior, i: nat, p: Pid, j: Pid, won: bool)
    requires b.Valid() && i < |b.states| && p in b.states[i].procs && b.states[i].procs[p] == Done(Ticket(won, j))
    requires j in b.states[i].jobs && ReservedFor(b.states[i].jobs[j], p)
    ensures var job := b.states[i].jobs[j];
            && job.accepts == 1
            && (won <==> job.stage.Cancelled?) && (won ==> job.cancels == 1)
            && (!won <==> job.stage.Refused?) && (!won ==> job.cancels == 0)
  {
    hide Behavior.Valid, Inv, RolesOk, LocksOk, SleepersOk, HandsOk, HeldOk, FindsOk, OwnJobsOk, CountersOk, GaugesOk,
      QueueOk, EntryOk, CreditsOk, CreditorsOk;
    AlwaysInv(b, i);
    AlwaysTickets(b, i);
    InvParts(b.states[i]);
    assert JobOk(b.states[i].jobs[j]);
    assert CreditPlaceOk(b.states[i].jobs, p, b.states[i].procs[p]);
  }

  /** Any ticket that answered true had its job cancelled, callback and accounting included, and no other ticket
      of that job ever answers true. */
  lemma TrueTicketIsUnique(b: Behavior, i: nat, p: Pid, q: Pid, j: Pid)
    requires b.Valid() && i < |b.states| && p in b.states[i].procs && q in b.states[i].procs
    requires b.states[i].procs[p] == Done(Ticket(true, j)) && b.states[i].procs[q] == Done(Ticket(true, j))
    ensures p == q && j in b.states[i].jobs && b.states[i].jobs[j].stage.Cancelled? && b.states[i].jobs[j].cancels == 1
  {
    hide Behavior.Valid, Inv, RolesOk, LocksOk, SleepersOk, HandsOk, HeldOk, FindsOk, OwnJobsOk, CountersOk, GaugesOk,
      QueueOk, EntryOk, CreditsOk, CreditorsOk;
    AlwaysInv(b, i);
    AlwaysTickets(b, i);
    InvParts(b.states[i]);
    assert CreditPlaceOk(b.states[i].jobs, p, b.states[i].procs[p])
           && CreditPlaceOk(b.states[i].jobs, q, b.states[i].procs[q]);
    assert JobOk(b.states[i].jobs[j]);
  }

  // ----- waiting tickets

  /** A ticket asleep on an entry waits for a decision, or the submitter is about to wake it. */
  ghost predicate EntrySleepersOk(s: State) {
    forall j, p :: j in s.jobs && p in s.jobs[j].entryParked ==>
      Undecided(s.jobs[j].entry) || (j in s.procs && AboutToNotify(s.procs[j]))
  }

  lemma EntrySleeperKept(s: State, p: Pid, step: Step, spawns: bool, worker: Pid, t: State, j: Pid, q: Pid)
    requires p in s.procs && Moves(s, p, step, spawns, worker, t) && SubjectKnown(s, p) && EntrySleepersOk(s)
    requires EntryWatchFollows(s.sh, p, JobAt(s, p), s.procs[p], step) && EntryEdge(JobAt(s, p).entry, step.job.entry)
    requires JobAt(s, p).entryParked != {} && JobAt(s, p).entry.Accepting? ==> JobAt(s, p).entry.requested
    requires j in t.jobs && q in t.jobs[j].entryParked
    ensures Undecided(t.jobs[j].entry) || (j in t.procs && AboutToNotify(t.procs[j]))
  {
    hide Subject, AwaitsEntry, AboutToNotify;
    if Subject(s.sh, p, s.procs[p]) == Some(j) {
      if q in s.jobs[j].entryParked && !Undecided(step.job.entry) {
        assert j != p && !Undecided(s.jobs[j].entry) ==> t.procs[j] == s.procs[j];
      }
    } else {
      assert j == p ==> !AboutToNotify(s.procs[p]);
    }
  }

  lemma ActEntrySleepers(s: State, p: Pid, ok: bool, worker: Pid, t: State)
    requires Acts(s, p, ok, worker, t) && Inv(s) && KnowledgeOk(s) && TicketsOk(s) && EntrySleepersOk(s)
    ensures EntrySleepersOk(t)
  {
    hide Inv, KnowledgeOk, StepAt, Subject, JobAt, CanStep, TicketsOk, CreditFollows, EntryWatchFollows, EntryEdge,
      Spawns, Undecided, AboutToNotify, SubjectKnown, Moves;
    var step, spawns := StepAt(s, p, ok), Spawns(s.procs[p], ok);
    EntryStep(s, p, ok);
    SleepersRequested(s, p);
    forall j, q | j in t.jobs && q in t.jobs[j].entryParked
      ensures Undecided(t.jobs[j].entry) || (j in t.procs && AboutToNotify(t.procs[j]))
    {
      EntrySleeperKept(s, p, step, spawns, worker, t, j, q);
    }
  }

  lemma EntryStep(s: State, p: Pid, ok: bool)
    requires p in s.procs && CanStep(s, p, s.procs[p]) && Inv(s)
    ensures SubjectKnown(s, p) && EntryEdge(JobAt(s, p).entry, StepAt(s, p, ok).job.entry)
    ensures EntryWatchFollows(s.sh, p, JobAt(s, p), s.procs[p], StepAt(s, p, ok))
  {
    hide Inv, CanStep, StepOf, JobAt, StageReady, OwnReady, EntryOk, CallsOk, EntryWatchFollows, LocksReady, EntryEdge,
      Subject, SubjectKnown;
    NotFinished(s, p);
    MoverReady(s, p);
    EntryOfStep(s.sh, p, JobAt(s, p), s.procs[p], ok, PastOf(s));
  }

  /** Whoever sleeps on an entry in acceptance has reserved its cancellation. */
  lemma SleepersRequested(s: State, p: Pid)
    requires p in s.procs && Inv(s) && TicketsOk(s)
    ensures JobAt(s, p).entryParked != {} && JobAt(s, p).entry.Accepting? ==> JobAt(s, p).entry.requested
  {
    hide Inv, RolesOk, LocksOk, HandsOk, HeldOk, QueueOk, FindsOk, OwnJobsOk, CountersOk, GaugesOk, JobsOk, SleepersOk,
      Subject, CreditsOk, CreditorsOk, CreditPlacesOk;
    InvParts(s);
    var subject := Subject(s.sh, p, s.procs[p]);
    if subject.Some? && subject.value in s.jobs && JobAt(s, p).entryParked != {} {
      var q :| q in s.jobs[subject.value].entryParked;
      SleeperRequested(s, subject.value, q);
    }
  }

  lemma SleeperRequested(s: State, j: Pid, q: Pid)
    requires SleepersOk(s) && CreditPlacesOk(s) && JobsOk(s) && j in s.jobs && q in s.jobs[j].entryParked
    ensures s.jobs[j].entry.Accepting? ==> s.jobs[j].entry.requested
  {
    assert AwaitsEntry(s.procs[q]) && CreditPlaceOk(s.jobs, q, s.procs[q]);
    assert JobOk(s.jobs[j]);
    hide CallsOk;
  }

  lemma QuietEntrySleepers(s: State, e: Event, t: State)
    requires Inv(s) && EntrySleepersOk(s) && Next(s, e, t) && !e.Act?
    ensures EntrySleepersOk(t)
  {
    InvRoles(s);
    hide Inv, StartPc, RolesOk, Asleep, AboutToNotify, Undecided;
    SleeperAboutToNotify(s, e, t);
    match e {
      case Spurious(p) => SpuriousEntrySleepers(s, p, t);
      case _ =>
    }
  }

  lemma SpuriousEntrySleepers(s: State, p: Pid, t: State)
    requires RolesOk(s) && EntrySleepersOk(s) && Next(s, Spurious(p), t)
    ensures EntrySleepersOk(t)
  {
    SleeperTarget(s, p);
    hide RolesOk, Asleep, AboutToNotify, Undecided;
  }

  lemma SleeperAboutToNotify(s: State, e: Event, t: State)
    requires Next(s, e, t) && !e.Act?
    ensures forall j :: j in s.procs && AboutToNotify(s.procs[j]) ==> j in t.procs && AboutToNotify(t.procs[j])
  {
    hide StartPc, Asleep;
  }

  lemma InvRoles(s: State)
    requires Inv(s)
    ensures RolesOk(s)
  {
    hide RolesOk;
  }

  lemma NoEntrySleepersAtStart(b: Behavior)
    requires b.Valid()
    ensures EntrySleepersOk(b.states[0])
  {
    hide Next;
  }

  lemma {:induction false} AlwaysEntrySleepers(b: Behavior, i: nat)
    requires b.Valid() && i < |b.states|
    ensures EntrySleepersOk(b.states[i])
  {
    hide Inv, KnowledgeOk, TicketsOk, EntrySleepersOk, Acts, Arrives, TimesOut, WakesSpuriously, Behavior.Valid;
    if i == 0 {
      NoEntrySleepersAtStart(b);
    } else {
      Consecutive(b, i);
      AlwaysEntrySleepers(b, i - 1);
      AlwaysTickets(b, i - 1);
      match b.events[i - 1] {
        case Act(p, ok, worker) => ActEntrySleepers(b.states[i - 1], p, ok, worker, b.states[i]);
        case _ => QuietEntrySleepers(b.states[i - 1], b.events[i - 1], b.states[i]);
      }
    }
  }

  /** A ticket that sleeps until its reserved cancellation is decided is not forgotten: once the entry has been
      settled, the submitter of that job is on the very step that wakes it. */
  lemma NoTicketForgotten(b: Behavior, i: nat, p: Pid, j: Pid)
    requires b.Valid() && i < |b.states| && j in b.states[i].jobs && p in b.states[i].jobs[j].entryParked
    requires b.states[i].jobs[j].entry.EntryCancelled? || b.states[i].jobs[j].entry.EntryRejected?
    ensures j in b.states[i].procs && AboutToNotify(b.states[i].procs[j])
  {
    hide Behavior.Valid, AboutToNotify;
    AlwaysEntrySleepers(b, i);
  }
}
