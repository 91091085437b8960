/** The entry that owns a queued job's callbacks (src/pool_job/internal/queued_job.rs). */
module QueuedJob {
  import opened PoolTypes
  import opened DynamicPool
  import opened DynamicFacts

  /** The source's object: the state behind the entry's mutex. */
  class QueuedJob {
    var state: Entry

    constructor Prepare()
      ensures state == Prepared
    {
      state := Prepared;
    }

    constructor Wrap()
      ensures state == EntryQueued
    {
      state := EntryQueued;
    }

    /** Hands the callbacks out once: the state is replaced first and written back if nothing was queued. */
    method TakeQueued() returns (taken: bool)
      modifies this
      ensures taken <==> old(state).EntryQueued?
      ensures state == if taken then EntryTaken else old(state)
      ensures EntryEdge(old(state), state)
    {
      var previous := state;
      state := EntryTaken;
      match previous {
        case EntryQueued => taken := true;
        case _ =>
          state := previous;
          taken := false;
      }
    }

    /** A ticket asks for cancellation while acceptance runs; at most one request is granted, and never to the
        thread that runs the acceptance callback. */
    method Reserve(thread: nat) returns (granted: bool)
      modifies this
      ensures granted <==> old(state).Accepting? && !old(state).requested && old(state).owner != thread
      ensures state == if granted then Accepting(old(state).owner, true) else old(state)
      ensures EntryEdge(old(state), state)
    {
      granted := false;
      if state.Accepting? {
        if state.owner != thread && !state.requested {
          state := Accepting(state.owner, true);
          granted := true;
        }
      }
    }

    /** After a successful acceptance the entry is published, or withheld for the ticket that asked. */
    method Settle() returns (withheld: bool)
      requires state.Accepting?
      modifies this
      ensures withheld <==> old(state).requested
      ensures state == if withheld then EntryCancelling else EntryQueued
      ensures EntryEdge(old(state), state)
    {
      withheld := state.requested;
      state := if withheld then EntryCancelling else EntryQueued;
    }
  }

  /** No sequence of moves hands the callbacks of an entry out twice, or queues an entry withheld for a ticket. */
  lemma {:induction false} TakenOnce(history: seq<Entry>, i: nat, k: nat)
    requires forall n :: 0 <= n < |history| - 1 ==> EntryEdge(history[n], history[n + 1])
    requires i <= k < |history|
    ensures history[i].EntryTaken? ==> history[k].EntryTaken?
    ensures history[i].EntryCancelling? ==> history[k].EntryCancelling? || history[k].EntryCancelled?
    ensures history[i].EntryRejected? || history[i].EntryCancelled? ==> history[k] == history[i]
  {
    if k > i {
      TakenOnce(history, i, k - 1);
      assert EntryEdge(history[k - 1], history[k]);
    }
  }
}
