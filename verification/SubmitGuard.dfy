/** Leaving admission when a submission ends, in either pool. */
module SubmitGuard {
  import opened PoolTypes
  import opened PoolShared
  import opened DynamicPool
  import Gate = AdmissionGate

  /** The guard's `drop`: leave, and notify if nobody is left and somebody may be waiting for that. */
  method Depart(gate: Gate.AdmissionGate, idleWaiters: nat) returns (notify: bool)
    requires gate.InflightCount() > 0
    modifies gate
    ensures gate.IsOpen() == old(gate.IsOpen()) && gate.InflightCount() == old(gate.InflightCount()) - 1
    ensures notify <==> gate.InflightCount() == 0 && (!gate.IsOpen() || idleWaiters > 0)
  {
    notify := false;
    var last := gate.Leave();
    if last {
      notify := !gate.IsOpen() || idleWaiters > 0;
    }
  }

  function Departs(step: Step, p: Pid): Step {
    if step.pc.Sub? then SubStep(step.sh, p, step.job, step.pc.sub) else step
  }

  /** Uninterrupted, the departure steps of the dynamic pool do the same. */
  lemma DepartRegion(sh: Shared, p: Pid, job: Job)
    ensures var r := Departs(Departs(SubStep(sh, p, job, Leave), p), p);
            && r.sh == sh.(gate := sh.gate.(inflight := sh.gate.inflight - 1)) && r.job == job
            && (r.pc == NotifyLock(RetDepart) <==>
                  sh.gate.inflight == 1 && (sh.gate.closed || sh.tally.idleWaiters > 0))
            && (r.pc == NotifyLock(RetDepart) || r.pc == Done(Submit))
  {
  }
}
