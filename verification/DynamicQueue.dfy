/** The regions of the dynamic pool that run under the queue lock, as the source writes them. */
module DynamicQueue {
  import opened PoolTypes
  import opened PoolShared
  import opened DynamicPool
  import opened DynamicFacts
  import opened DynamicInvariant
  import opened DynamicRun
  import Accounting = PoolAccounting

  /** The entries of `drained` have given up their callbacks, all others are as before. */
  ghost predicate TookAll(before: map<Pid, Entry>, drained: seq<Pid>, after: map<Pid, Entry>) {
    && after.Keys == before.Keys
    && forall j :: j in before ==> after[j] == if j in drained then EntryTaken else before[j]
  }

  /** The counters after `n` queued jobs have begun to be cancelled. */
  function BegunCancelling(a: Accounting.Acct, n: nat): Accounting.Acct {
    a.(queued := a.queued - n, cancelling := a.cancelling + n)
  }

  lemma OneMoreCancelling(a: Accounting.Acct, n: nat)
    ensures Accounting.Transfer(BegunCancelling(a, n), Taken, Cancelling) == BegunCancelling(a, n + 1)
  {
  }

  /** The FIFO, the entries it lists, the stop flag and the accounting. */
  class RemovableQueue {
    var items: seq<Pid>
    var entries: map<Pid, Entry>
    var stopNow: bool
    const accounting: Accounting.PoolAccounting

    ghost predicate Valid()
      reads this, accounting
    {
      && Distinct(items) && (forall j :: j in items ==> j in entries && entries[j].EntryQueued?)
      && accounting.queued >= |items| && accounting.slots >= |items| && accounting.cancelling >= 0
    }

    constructor (accounting: Accounting.PoolAccounting)
      requires accounting.Value() == Accounting.ZERO
      ensures Valid() && items == [] && entries == map[] && !stopNow && this.accounting == accounting
    {
      items, entries, stopNow := [], map[], false;
      this.accounting := accounting;
    }

    /** `take_queued` on one entry. */
    method TakeEntry(j: Pid) returns (taken: bool)
      requires j in entries
      modifies this`entries
      ensures taken <==> old(entries[j]).EntryQueued?
      ensures entries == if taken then old(entries)[j := EntryTaken] else old(entries)
    {
      taken := entries[j].EntryQueued?;
      if taken {
        entries := entries[j := EntryTaken];
      }
    }

    /** `try_take_queued_job`: nothing after a stop; otherwise the head, its callbacks, and its accounting. */
    method TryTake() returns (job: Option<Pid>)
      requires Valid()
      modifies this`items, this`entries, accounting
      ensures Valid()
      ensures job.Some? <==> !stopNow && old(items) != []
      ensures job.None? ==>
                items == old(items) && entries == old(entries) && accounting.Value() == old(accounting.Value())
      ensures job.Some? ==>
                job.value == old(items)[0] && items == old(items)[1..]
                && entries == old(entries)[job.value := EntryTaken]
                && accounting.Value() == Accounting.Transfer(old(accounting.Value()), Taken, Held)
    {
      if stopNow || items == [] {
        return None;
      }
      var head := items[0];
      assert items == [head] + items[1..];
      items := items[1..];
      var taken := TakeEntry(head);
      accounting.ClaimQueuedJob();
      job := Some(head);
    }

    /** `cancel_queued_entry`: find the entry, take it, remove it, and carry the cancellation through. */
    method CancelQueued(j: Pid) returns (won: bool)
      requires Valid()
      modifies this`items, this`entries, accounting
      ensures Valid()
      ensures won <==> j in old(items)
      ensures items == RemoveFirst(old(items), j)
      ensures entries == if won then old(entries)[j := EntryTaken] else old(entries)
      ensures accounting.Value()
              == if won then Accounting.Transfer(old(accounting.Value()), Taken, Cancelled) else old(accounting.Value())
    {
      var position := 0;
      while position < |items| && items[position] != j
        invariant 0 <= position <= |items| && j !in items[..position]
      {
        position := position + 1;
      }
      RemoveAt(items, j, position);
      if position == |items| {
        return false;
      }
      won := TakeEntry(j);
      items := items[..position] + items[position + 1..];
      accounting.BeginCancelQueuedJob();
      Accounting.TransfersCompose(old(accounting.Value()), Taken, Cancelling, Cancelled);
      // The cancel callback runs here, outside the lock.
      accounting.FinishCancelledJob();
      CancelledAfterCall(old(accounting.Value()));
      RemoveFirstOk(old(items), j);
    }

    /** `drain_visible_queued_jobs`: every entry still queued begins its cancellation, in order. */
    method DrainVisible() returns (jobs: seq<Pid>)
      requires Valid()
      modifies this`items, this`entries, accounting
      ensures Valid()
      ensures items == [] && jobs == old(items)
      ensures TookAll(old(entries), jobs, entries)
      ensures accounting.Value() == BegunCancelling(old(accounting.Value()), |jobs|)
    {
      jobs := [];
      while items != []
        invariant Valid() && jobs + items == old(items) && TookAll(old(entries), jobs, entries)
        invariant accounting.Value() == BegunCancelling(old(accounting.Value()), |jobs|)
        decreases |items|
      {
        var head := items[0];
        assert items == [head] + items[1..];
        items := items[1..];
        var taken := TakeEntry(head);
        if taken {
          accounting.BeginCancelQueuedJob();
          OneMoreCancelling(old(accounting.Value()), |jobs|);
          jobs := jobs + [head];
        }
      }
    }
  }

  lemma CancelledAfterCall(a: Accounting.Acct)
    ensures Accounting.Transfer(Accounting.Transfer(a, Taken, Cancelling), CancelCalled, Cancelled)
            == Accounting.Transfer(a, Taken, Cancelled)
  {
  }

  /** Cutting out the first occurrence is what `RemoveFirst` does; without one nothing is cut. */
  lemma {:induction false} RemoveAt(items: seq<Pid>, j: Pid, k: nat)
    requires k <= |items| && j !in items[..k] && (k < |items| ==> items[k] == j)
    ensures k < |items| ==> RemoveFirst(items, j) == items[..k] + items[k + 1..] && j in items
    ensures k == |items| ==> RemoveFirst(items, j) == items && j !in items
  {
    if k > 0 {
      var rest := items[1..];
      assert items[0] == items[..k][0];
      assert rest[..k - 1] == items[..k][1..];
      RemoveAt(rest, j, k - 1);
      assert items == [items[0]] + rest;
      if k < |items| {
        assert rest[k..] == items[k + 1..];
        assert items[..k] == [items[0]] + rest[..k - 1];
        assert items[k] in items;
      }
    }
  }

  // ----- the same regions in atomic steps

  /** The next step of a worker in its claim, if it is still there. */
  function Claim(step: Step, p: Pid): Step {
    if step.pc.Work? then TakeStep(step.sh, p, step.job, step.pc.work) else step
  }

  /** Popping the head and taking its callbacks. */
  lemma TakeRegion(sh: Shared, p: Pid, job: Job)
    requires !sh.stop && sh.queue.items != [] && job.entry.EntryQueued?
    ensures var r := Claim(Claim(Claim(Claim(Step(sh, job, Work(TakeStop)), p), p), p), p);
            r == Step(PopQueue(sh), TakeQueued(job, p), Work(ClaimQueued(sh.queue.items[0])))
  {
  }

  /** Accounting for the claim and releasing the queue lock. */
  lemma CountRegion(sh: Shared, p: Pid, job: Job, j: Pid)
    ensures var r := Claim(Claim(Claim(Claim(Step(sh, job, Work(ClaimQueued(j))), p), p), p), p);
            && r.sh.acct == Accounting.Transfer(sh.acct, Taken, Held)
            && r.sh.queue == sh.queue.(owner := None, claimed := sh.queue.claimed + [j])
            && r.job == job.(stage := Held) && r.pc == Run(RunCall, j)
  {
  }

  /** Uninterrupted, a worker's steps under the queue lock do to queue, entry and counters what `TryTake` does. */
  lemma ClaimRegion(sh: Shared, p: Pid, job: Job)
    requires !sh.stop && sh.queue.items != [] && job.entry.EntryQueued?
    ensures var taken := Claim(Claim(Claim(Claim(Step(sh, job, Work(TakeStop)), p), p), p), p);
            var r := Claim(Claim(Claim(Claim(taken, p), p), p), p);
            && r.sh.queue.items == sh.queue.items[1..] && r.job.entry.EntryTaken?
            && r.sh.acct == Accounting.Transfer(sh.acct, Taken, Held)
            && r.sh.queue.claimed == sh.queue.claimed + [sh.queue.items[0]] && r.sh.queue.owner.None?
            && r.pc == Run(RunCall, sh.queue.items[0])
  {
    hide Claim, Accounting.Transfer;
    TakeRegion(sh, p, job);
    CountRegion(PopQueue(sh), p, TakeQueued(job, p), sh.queue.items[0]);
  }

  /** The next step of a ticket under the queue lock. */
  function Seek(step: Step, p: Pid): Step {
    if step.pc.Find? then FindStep(step.sh, p, step.job, step.pc.find, step.pc.target) else step
  }

  /** Finding the entry, taking its callbacks and removing it. */
  lemma FoundRegion(sh: Shared, p: Pid, job: Job, j: Pid)
    requires j in sh.queue.items && job.entry.EntryQueued?
    ensures Seek(Seek(Seek(Step(sh, job, Find(FindEntry, j)), p), p), p)
            == Step(sh.(queue := sh.queue.(items := RemoveFirst(sh.queue.items, j))),
                    TakeQueued(job, p).(cancelledBy := Some(p)), Find(TicketUncount, j))
  {
    hide RemoveFirst;
  }

  /** Accounting for the cancellation and releasing the queue lock. */
  lemma UncountRegion(sh: Shared, p: Pid, job: Job, j: Pid)
    ensures var r := Seek(Seek(Step(sh, job, Find(TicketUncount, j)), p), p);
            && r.sh.acct == Accounting.Transfer(sh.acct, Taken, Cancelling) && r.sh.queue == sh.queue.(owner := None)
            && r.job == job.(stage := Cancelling) && r.pc == Fin(CancelCall, j, RetTicket(j))
  {
  }

  /** Uninterrupted, a ticket's steps under the queue lock do what `CancelQueued` does before its callback. */
  lemma SeekRegion(sh: Shared, p: Pid, job: Job, j: Pid)
    requires j in sh.queue.items && job.entry.EntryQueued?
    ensures var taken := Seek(Seek(Seek(Step(sh, job, Find(FindEntry, j)), p), p), p);
            var r := Seek(Seek(taken, p), p);
            && r.sh.queue.items == RemoveFirst(sh.queue.items, j) && r.job.entry.EntryTaken?
                && r.job.cancelledBy == Some(p)
            && r.sh.acct == Accounting.Transfer(sh.acct, Taken, Cancelling) && r.sh.queue.owner.None?
            && r.pc == Fin(CancelCall, j, RetTicket(j))
  {
    hide Seek, Accounting.Transfer, RemoveFirst;
    FoundRegion(sh, p, job, j);
    UncountRegion(sh.(queue := sh.queue.(items := RemoveFirst(sh.queue.items, j))), p,
                  TakeQueued(job, p).(cancelledBy := Some(p)), j);
  }

  /** In every reachable step the counters move as the job moves along its stages. */
  lemma StepsTransfer(s: State, p: Pid, ok: bool)
    requires p in s.procs && CanStep(s, p, s.procs[p]) && Inv(s)
    ensures StepAt(s, p, ok).sh.acct == Accounting.Transfer(s.sh.acct, JobAt(s, p).stage, StepAt(s, p, ok).job.stage)
  {
    hide Inv, CanStep, StepAt, JobAt, LocksFollow, RolesFollow, CustodyFollows, OthersKept, ForeignFollows,
      QueueFollows, GaugesFollow, JobOk, OwnJobFollows, TakesFree, Adds;
    StepFollows(s, p, ok);
    var before, step := JobAt(s, p).stage, StepAt(s, p, ok);
    forall c: Counter
      ensures step.sh.acct.Get(c) == Accounting.Transfer(s.sh.acct, before, step.job.stage).Get(c)
    {
      Accounting.TransferGet(s.sh.acct, before, step.job.stage, c);
    }
    Accounting.SameAcct(step.sh.acct, Accounting.Transfer(s.sh.acct, before, step.job.stage));
  }
}
