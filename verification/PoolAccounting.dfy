/** Task counters shared by both pools (src/internal/pool_accounting.rs). */
module PoolAccounting {
  import opened PoolTypes

  /** The counters as a value; every function on it is one atomic operation of the source. */
  datatype Acct = Acct(slots: int, queued: int, running: int, cancelling: int,
                       submitted: int, completed: int, cancelled: int)
  {
    function Get(c: Counter): int {
      match c
      case Slots => slots
      case Queued => queued
      case RunningTasks => running
      case CancellingTasks => cancelling
      case SubmittedTasks => submitted
      case CompletedTasks => completed
      case CancelledTasks => cancelled
    }

    function Add(c: Counter, d: int): Acct {
      match c
      case Slots => this.(slots := slots + d)
      case Queued => this.(queued := queued + d)
      case RunningTasks => this.(running := running + d)
      case CancellingTasks => this.(cancelling := cancelling + d)
      case SubmittedTasks => this.(submitted := submitted + d)
      case CompletedTasks => this.(completed := completed + d)
      case CancelledTasks => this.(cancelled := cancelled + d)
    }

    /** The conditional update inside `try_reserve_bounded_slot`. */
    predicate HasRoom(capacity: Option<nat>) {
      capacity.None? || slots < capacity.value
    }
  }

  const ZERO := Acct(0, 0, 0, 0, 0, 0, 0)

  // ----- what a transition counts

  function Change(c: Counter, from: Stage, to: Stage): int { B(Adds(c, to)) - B(Adds(c, from)) }

  /** The counters after one job has gone from one stage to another: each counter loses it where it counted it
      before and gains it where it counts it now. */
  function Transfer(a: Acct, from: Stage, to: Stage): Acct {
    Acct(a.slots + Change(Slots, from, to), a.queued + Change(Queued, from, to),
         a.running + Change(RunningTasks, from, to), a.cancelling + Change(CancellingTasks, from, to),
         a.submitted + Change(SubmittedTasks, from, to), a.completed + Change(CompletedTasks, from, to),
         a.cancelled + Change(CancelledTasks, from, to))
  }

  lemma TransferGet(a: Acct, from: Stage, to: Stage, c: Counter)
    ensures Transfer(a, from, to).Get(c) == a.Get(c) + Change(c, from, to)
  {
  }

  /** Counters that agree one by one are equal. */
  lemma SameAcct(a: Acct, b: Acct)
    requires forall c: Counter :: a.Get(c) == b.Get(c)
    ensures a == b
  {
    assert a.Get(Slots) == b.Get(Slots) && a.Get(Queued) == b.Get(Queued) && a.Get(RunningTasks) == b.Get(RunningTasks);
    assert a.Get(CancellingTasks) == b.Get(CancellingTasks) && a.Get(SubmittedTasks) == b.Get(SubmittedTasks);
    assert a.Get(CompletedTasks) == b.Get(CompletedTasks) && a.Get(CancelledTasks) == b.Get(CancelledTasks);
  }

  /** Consecutive transfers of one job add up: a whole life leaves only what it should behind. */
  lemma TransfersCompose(a: Acct, x: Stage, y: Stage, z: Stage)
    ensures Transfer(Transfer(a, x, y), y, z) == Transfer(a, x, z)
  {
    hide Adds;
  }

  /** The source's object. Its methods are sequences of atomic operations; between any two of them other threads
      may act, which the pool machines model step by step. */
  class PoolAccounting {
    const capacity: Option<nat>
    var slots: int
    var queued: int
    var running: int
    var cancelling: int
    var submitted: int
    var completed: int
    var cancelled: int

    function Value(): Acct
      reads this
    {
      Acct(slots, queued, running, cancelling, submitted, completed, cancelled)
    }

    /** The source's counters are unsigned. */
    predicate Natural()
      reads this
    {
      && slots >= 0 && queued >= 0 && running >= 0 && cancelling >= 0
      && submitted >= 0 && completed >= 0 && cancelled >= 0
    }

    constructor (capacity: Option<nat>)
      ensures Value() == ZERO && this.capacity == capacity
    {
      this.capacity := capacity;
      slots, queued, running, cancelling, submitted, completed, cancelled := 0, 0, 0, 0, 0, 0, 0;
    }

    method TryReserveBoundedSlot() returns (reserved: bool)
      modifies this
      ensures reserved <==> (capacity.Some? ==> old(slots) < capacity.value)
      ensures Value() == if reserved then Transfer(old(Value()), New, Reserved) else old(Value())
    {
      if capacity.Some? {
        reserved := slots < capacity.value;
        if reserved {
          slots := slots + 1;
        }
        return;
      }
      ReserveWorkerHandoffSlot();
      reserved := true;
    }

    method ReserveWorkerHandoffSlot()
      modifies this
      ensures Value() == Transfer(old(Value()), New, Reserved)
    {
      slots := slots + 1;
    }

    method RollbackReservedSlot()
      requires slots > 0
      modifies this
      ensures Value() == Transfer(old(Value()), AcceptFailed, Refused)
    {
      slots := slots - 1;
    }

    method PublishAcceptedJob()
      modifies this
      ensures Value() == Transfer(old(Value()), AcceptedOk, InQueue)
    {
      submitted := submitted + 1;
      queued := queued + 1;
    }

    method ClaimQueuedJob()
      requires queued > 0 && slots > 0
      modifies this
      ensures Value() == Transfer(old(Value()), Taken, Held)
    {
      queued := queued - 1;
      running := running + 1;
      slots := slots - 1;
    }

    method BeginCancelQueuedJob()
      requires queued > 0
      modifies this
      ensures Value() == Transfer(old(Value()), Taken, Cancelling)
    {
      queued := queued - 1;
      cancelling := cancelling + 1;
    }

    method FinishCancelledJob()
      requires cancelling > 0 && slots > 0
      modifies this
      ensures Value() == Transfer(old(Value()), CancelCalled, Cancelled)
    {
      cancelled := cancelled + 1;
      cancelling := cancelling - 1;
      slots := slots - 1;
    }

    method FinishRunningJob()
      requires running > 0
      modifies this
      ensures Value() == Transfer(old(Value()), Ran, Completed)
    {
      completed := completed + 1;
      running := running - 1;
    }
  }

  lemma ReservingCounts(a: Acct)
    ensures Transfer(a, New, Reserved) == a.Add(Slots, 1)
    ensures Transfer(a.Add(Slots, 1), AcceptFailed, Refused) == a
  {
  }

  lemma PublishingCounts(a: Acct)
    ensures Transfer(a, AcceptedOk, InQueue) == a.Add(SubmittedTasks, 1).Add(Queued, 1)
  {
  }

  lemma RunningCounts(a: Acct)
    ensures Transfer(a, Taken, Held) == a.Add(Queued, -1).Add(RunningTasks, 1).Add(Slots, -1)
  {
  }

  lemma CompletingCounts(a: Acct)
    ensures Transfer(a, Ran, Completed) == a.Add(CompletedTasks, 1).Add(RunningTasks, -1)
  {
  }

  lemma CancellingCounts(a: Acct)
    ensures Transfer(a, Taken, Cancelling) == a.Add(Queued, -1).Add(CancellingTasks, 1)
  {
  }

  lemma CancelledCounts(a: Acct)
    ensures Transfer(a, CancelCalled, Cancelled) == a.Add(CancelledTasks, 1).Add(CancellingTasks, -1).Add(Slots, -1)
  {
  }

  /** Reserving, publishing, claiming and running one job on `counts` leaves one more submitted and completed job behind
      and every other counter as it was; without room nothing is touched. */
  method WholeRun(counts: PoolAccounting) returns (accepted: bool)
    requires counts.Natural()
    modifies counts
    ensures accepted <==> old(counts.Value()).HasRoom(counts.capacity)
    ensures counts.Value() == if accepted then old(counts.Value()).Add(SubmittedTasks, 1).Add(CompletedTasks, 1)
                              else old(counts.Value())
  {
    hide Transfer;
    ReservingCounts(counts.Value());
    accepted := counts.TryReserveBoundedSlot();
    if accepted {
      PublishingCounts(counts.Value());
      counts.PublishAcceptedJob();
      RunningCounts(counts.Value());
      counts.ClaimQueuedJob();
      CompletingCounts(counts.Value());
      counts.FinishRunningJob();
    }
  }

  /** Cancelling it from the queue instead leaves one more submitted and cancelled job behind. */
  method WholeCancellation(counts: PoolAccounting) returns (accepted: bool)
    requires counts.Natural()
    modifies counts
    ensures accepted <==> old(counts.Value()).HasRoom(counts.capacity)
    ensures counts.Value() == if accepted then old(counts.Value()).Add(SubmittedTasks, 1).Add(CancelledTasks, 1)
                              else old(counts.Value())
  {
    hide Transfer;
    ReservingCounts(counts.Value());
    accepted := counts.TryReserveBoundedSlot();
    if accepted {
      PublishingCounts(counts.Value());
      counts.PublishAcceptedJob();
      CancellingCounts(counts.Value());
      counts.BeginCancelQueuedJob();
      CancelledCounts(counts.Value());
      counts.FinishCancelledJob();
    }
  }

  /** A submission whose acceptance fails leaves nothing behind, whichever way it reserved its slot. */
  method FailedSubmission(counts: PoolAccounting, handoff: bool) returns (reserved: bool)
    requires counts.Natural()
    modifies counts
    ensures reserved <==> handoff || old(counts.Value()).HasRoom(counts.capacity)
    ensures counts.Value() == old(counts.Value())
  {
    hide Transfer;
    ReservingCounts(counts.Value());
    if handoff {
      counts.ReserveWorkerHandoffSlot();
      reserved := true;
    } else {
      reserved := counts.TryReserveBoundedSlot();
    }
    if reserved {
      counts.RollbackReservedSlot();
    }
  }
}
