/** Vocabulary shared by both pools: identities, lifecycle, and the life of one job. */
module PoolTypes {

  datatype Option<+T> = None | Some(value: T)

  // A thread of the model: a worker, or one call of a public operation.
  // A job is named by the submit call that carries it.
  type Pid = nat

  datatype Lifecycle = Running | ShuttingDown | Stopping | Terminated

  datatype SubmitResult = Pending | Accepted | Shutdown | Saturated | SpawnFailed | AcceptancePanicked

  /** How far one job has travelled, split at every counter update. History only:
      no step of either pool tests it. */
  datatype Stage =
    | New             // submitted by nobody yet, or no slot reserved
    | Reserved        // slot reserved, acceptance not yet run
    | AcceptedOk      // acceptance succeeded
    | AcceptFailed    // acceptance failed, slot still reserved
    | Rejected        // end: never accepted
    | Refused         // end: acceptance failed, slot released
    | Submitted       // submitted counter bumped
    | Counted         // queued counter bumped, entry not yet visible
    | InQueue         // visible in the queue
    | Popped          // removed from the queue, entry not yet taken
    | Taken           // callbacks owned by a worker, a stop or a ticket
    | ClaimUncounted  // worker claim: queued decremented
    | ClaimRunning    // worker claim: running incremented, slot still held
    | Held            // worker claim finished
    | Ran             // run callback returned
    | RanCounted      // completed incremented
    | Completed       // end
    | Uncounted       // cancellation: queued decremented
    | Cancelling      // cancelling incremented
    | CancelCalled    // cancel callback returned
    | CancelCounted   // cancelled incremented
    | CancelClosed    // cancelling decremented
    | Cancelled       // end

  datatype Counter = Slots | Queued | RunningTasks | CancellingTasks | SubmittedTasks | CompletedTasks | CancelledTasks

  predicate IsEnd(st: Stage) {
    st.Rejected? || st.Refused? || st.Completed? || st.Cancelled?
  }

  predicate BeforePublication(st: Stage) {
    st.New? || st.Reserved? || st.AcceptedOk? || st.AcceptFailed? || st.Submitted? || st.Counted?
  }

  /** A reserved slot whose job is not yet visible to workers. */
  predicate Unpublished(st: Stage) {
    st.Reserved? || st.AcceptedOk? || st.AcceptFailed? || st.Submitted? || st.Counted?
  }

  predicate Claiming(st: Stage) {
    st.ClaimUncounted? || st.ClaimRunning?
  }

  predicate BeingCancelled(st: Stage) {
    st.Uncounted? || st.Cancelling? || st.CancelCalled? || st.CancelCounted? || st.CancelClosed?
  }

  predicate OwnedByWorker(st: Stage) {
    st.Held? || st.Ran? || st.RanCounted?
  }

  /** Whether a job at stage `st` is one of those counter `c` is counting. */
  predicate Adds(c: Counter, st: Stage) {
    match c
    case Slots =>
      Unpublished(st) || st.InQueue? || st.Popped? || st.Taken? || Claiming(st) || BeingCancelled(st)
    case Queued => st.Counted? || st.InQueue? || st.Popped? || st.Taken?
    case RunningTasks => st.ClaimRunning? || OwnedByWorker(st)
    case CancellingTasks => st.Cancelling? || st.CancelCalled? || st.CancelCounted?
    case SubmittedTasks => st.Submitted? || st.Counted? || (!BeforePublication(st) && !st.Rejected? && !st.Refused?)
    case CompletedTasks => st.RanCounted? || st.Completed?
    case CancelledTasks => st.CancelCounted? || st.CancelClosed? || st.Cancelled?
  }

  /** Times the acceptance callback has returned for a job at stage `st`. */
  function AcceptCalls(st: Stage): nat {
    if st.New? || st.Reserved? || st.Rejected? then 0 else 1
  }

  function RunCalls(st: Stage): nat {
    if st.Ran? || st.RanCounted? || st.Completed? then 1 else 0
  }

  function CancelCalls(st: Stage): nat {
    if st.CancelCalled? || st.CancelCounted? || st.CancelClosed? || st.Cancelled? then 1 else 0
  }

  /** The stages a job can go to next. */
  function Successors(st: Stage): set<Stage> {
    match st
    case New => {Reserved, Rejected}
    case Reserved => {AcceptedOk, AcceptFailed}
    case AcceptedOk => {Submitted}
    case AcceptFailed => {Refused}
    case Submitted => {Counted}
    case Counted => {InQueue, Uncounted}
    case InQueue => {Popped, Taken}
    case Popped => {Taken}
    case Taken => {ClaimUncounted, Uncounted}
    case ClaimUncounted => {ClaimRunning}
    case ClaimRunning => {Held}
    case Held => {Ran}
    case Ran => {RanCounted}
    case RanCounted => {Completed}
    case Uncounted => {Cancelling}
    case Cancelling => {CancelCalled}
    case CancelCalled => {CancelCounted}
    case CancelCounted => {CancelClosed}
    case CancelClosed => {Cancelled}
    case _ => {}
  }

  predicate StageEdge(before: Stage, after: Stage) { after == before || after in Successors(before) }

  function B(b: bool): int { if b then 1 else 0 }

  /** How far a job begun before the check must have come after `k` loads read zero. */
  predicate Late(k: nat, st: Stage) {
    && !st.New? && !Unpublished(st)
    && (k >= 2 ==> !Adds(Slots, st))
    && (k >= 3 ==> IsEnd(st))
  }

  lemma LateStays(k: nat, before: Stage, after: Stage)
    requires Late(k, before) && StageEdge(before, after)
    ensures Late(k, after)
  {
  }

  /** Stages at which a counter starts to count a job that held no slot before. */
  lemma NewlyCounted(before: Stage, after: Stage)
    requires StageEdge(before, after)
    ensures Adds(Slots, after) && !Adds(Slots, before) ==> before.New? && after.Reserved?
    ensures Adds(RunningTasks, after) && !Adds(RunningTasks, before) ==> Adds(Slots, before)
    ensures Adds(CancellingTasks, after) && !Adds(CancellingTasks, before) ==> Adds(Slots, before)
  {
  }

  predicate WasPublished(st: Stage) { Adds(SubmittedTasks, st) && !st.Submitted? }

  /** Past its time in the queue, or never to get there. */
  predicate Behind(st: Stage) {
    !st.New? && !Unpublished(st) && !st.InQueue? && !st.Popped? && !st.Taken?
  }

  lemma BehindStays(before: Stage, after: Stage)
    requires StageEdge(before, after) && Behind(before)
    ensures Behind(after)
  {
  }

  lemma PublishedBehind(st: Stage)
    ensures !Adds(Queued, st) && (WasPublished(st) || (!st.New? && !Unpublished(st))) ==> Behind(st)
    ensures WasPublished(st) && !Adds(Queued, st) ==> !st.New? && !Unpublished(st)
  {
  }

  /** A job that holds no slot, does not run and is not being cancelled has ended or was never submitted. */
  lemma Settled(st: Stage)
    requires !Adds(Slots, st) && !Adds(RunningTasks, st) && !Adds(CancellingTasks, st)
    ensures (st.New? || IsEnd(st)) && !(Adds(CompletedTasks, st) && Adds(CancelledTasks, st)) && !st.InQueue?
    ensures Adds(SubmittedTasks, st) <==> Adds(CompletedTasks, st) || Adds(CancelledTasks, st)
  {
  }
}
