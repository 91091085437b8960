/** State shared by the threads of a pool, and the atomic steps on it. */
module PoolShared {
  import opened PoolTypes
  import opened PoolAccounting

  datatype Gate = Gate(closed: bool, inflight: int)

  /** Monitor-protected state (src/dynamic/thread_pool_state.rs). */
  datatype PoolState = PoolState(
    life: Lifecycle, live: int, exiting: int, idle: int,
    core: nat, max: nat, coreTimeout: bool)
  {
    predicate WaitIsTimed() { coreTimeout || live > core }

    predicate IdleCanRetire() {
      live > max || (WaitIsTimed() && (live > core || coreTimeout))
    }

    /** The part of `is_terminated_locked` that the monitor protects. */
    predicate Quiet() { life != Running && live == 0 && exiting == 0 }
  }

  datatype Config = Config(
    capacity: Option<nat>,
    inflightFirst: bool)       // false in the source: order of the two loads of the ShuttingDown exit test

  /** Lock-free wake-up state: `idle_worker_count` and `pending_worker_wakes`. */
  datatype WakeState = WakeState(idle: int, pending: int)

  /** `live_worker_count`, `submit_waiter_count`, `idle_waiter_count`. */
  datatype Tally = Tally(live: int, submitWaiters: int, idleWaiters: int)

  datatype Monitor = Monitor(owner: Option<Pid>, parked: set<Pid>, pool: PoolState)
  {
    function Unlock(): Monitor { this.(owner := None) }
    function NotifyUnlock(): Monitor { this.(owner := None, parked := {}) }
    function ParkUnlock(p: Pid): Monitor { this.(owner := None, parked := parked + {p}) }
  }

  /** The removable FIFO under its lock; `pushed` and `claimed` record the orders so far. */
  datatype Fifo = Fifo(owner: Option<Pid>, items: seq<Pid>, pushed: seq<Pid>, claimed: seq<Pid>)

  datatype Shared = Shared(
    cfg: Config, gate: Gate, acct: Acct, wake: WakeState, tally: Tally, stop: bool, mon: Monitor, queue: Fifo)

  /** Progress of `is_idle`; `seen` is the set of submissions begun before its first load. */
  datatype Loads = Load0 | Load1(seen: set<Pid>) | Load2(seen: set<Pid>) | Load3(seen: set<Pid>)

  /** History a step may record: submissions begun and departed, jobs published. */
  datatype Past = Past(begun: set<Pid>, departed: set<Pid>, published: set<Pid>)

  // ----- single steps

  function Count(sh: Shared, c: Counter, d: int): Shared { sh.(acct := sh.acct.Add(c, d)) }

  function Lock(sh: Shared, p: Pid): Shared { sh.(mon := sh.mon.(owner := Some(p))) }

  function Unlock(sh: Shared): Shared { sh.(mon := sh.mon.Unlock()) }

  function NotifyUnlock(sh: Shared): Shared { sh.(mon := sh.mon.NotifyUnlock()) }

  function ParkUnlock(sh: Shared, p: Pid): Shared { sh.(mon := sh.mon.ParkUnlock(p)) }

  function SetPool(sh: Shared, pool: PoolState): Shared { sh.(mon := sh.mon.(pool := pool)) }

  function LockQueue(sh: Shared, p: Pid): Shared { sh.(queue := sh.queue.(owner := Some(p))) }

  function UnlockQueue(sh: Shared): Shared { sh.(queue := sh.queue.(owner := None)) }

  function PopQueue(sh: Shared): Shared
    requires sh.queue.items != []
  {
    sh.(queue := sh.queue.(items := sh.queue.items[1..]))
  }

  function MarkIdleAt(sh: Shared, d: int): Shared {
    sh.(mon := sh.mon.(pool := sh.mon.pool.(idle := sh.mon.pool.idle + d)), wake := sh.wake.(idle := sh.wake.idle + d))
  }

  function AfterStop(life: Lifecycle): Lifecycle {
    if life.Running? || life.ShuttingDown? then Stopping else life
  }

  // ----- conditions waited for

  /** What threads asleep on the monitor wait for. */
  datatype Awaited =
    | NoSubmitters   // stop, and a worker draining after shutdown
    | AllIdle        // join
    | AllGone        // termination waits

  predicate IdleNow(sh: Shared) {
    sh.gate.inflight == 0 && sh.acct.slots == 0 && sh.acct.running == 0 && sh.acct.cancelling == 0
  }

  predicate Meets(a: Awaited, sh: Shared) {
    match a
    case NoSubmitters => sh.gate.inflight == 0
    case AllIdle => IdleNow(sh)
    case AllGone => IdleNow(sh) && sh.mon.pool.Quiet()
  }

  predicate Distinct(s: seq<Pid>) {
    forall a, b :: 0 <= a < b < |s| ==> s[a] != s[b]
  }

  // ----- Termination.

  /** A closed pool of which the first `k` counts of the idle check are zero. */
  predicate Emptied(k: nat, sh: Shared) {
    && sh.gate.closed
    && (k >= 1 ==> sh.gate.inflight == 0)
    && (k >= 2 ==> sh.acct.slots == 0)
    && (k >= 3 ==> sh.acct.running == 0)
    && (k >= 4 ==> sh.acct.cancelling == 0)
  }

  /** What `is_terminated_locked` tests, all at one moment. */
  predicate Terminal(sh: Shared) { Emptied(4, sh) && sh.mon.pool.Quiet() }

  lemma EmptiedReads(k: nat, sh: Shared, next: Shared)
    requires Emptied(k, sh) && next.gate == sh.gate && next.acct == sh.acct
    ensures Emptied(k, next)
  {
  }

  function LoadsDone(loads: Loads): nat {
    match loads
    case Load0 => 0
    case Load1(_) => 1
    case Load2(_) => 2
    case Load3(_) => 3
  }
}
