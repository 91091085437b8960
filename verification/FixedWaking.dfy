/** The fixed pool loses no wake-up of its workers. */
module FixedWaking {
  import opened PoolTypes
  import opened PoolAccounting
  import opened PoolShared
  import opened FixedPool
  import opened FixedFacts
  import opened FixedInvariant
  import opened FixedOutcomes

  // ----- workers

  predicate PreWake(pc: Pc) { pc.Sub? && (pc.sub.WakeLoad? || pc.sub.WakeToken?) }

  predicate Bumper(pc: Pc) { (pc.NotifyLock? || pc.NotifyAll?) && pc.ret.RetWake? }

  ghost predicate Resolved(s: State, w: Pid) {
    w in s.procs && (s.procs[w] == Idle(Park) || (s.procs[w] == Idle(Parked) && w in s.sh.mon.parked))
  }

  ghost predicate Resting(s: State, w: Pid) {
    Resolved(s, w) || (w in s.procs && s.procs[w] == Idle(SeePending))
  }

  ghost predicate SomeoneBumps(s: State) { exists x :: x in s.procs && Bumper(s.procs[x]) }

  ghost predicate Announced(s: State, j: Pid) {
    (j in s.procs && PreWake(s.procs[j])) || SomeoneBumps(s) || s.sh.wake.pending > 0
  }

  ghost predicate WakeOk(s: State) {
    && (forall w :: Resolved(s, w) && s.sh.wake.pending > 0 ==> SomeoneBumps(s))
    && (forall w, j :: Resting(s, w) && j in s.sh.queue.items ==> Announced(s, j))
  }

  predicate WakeFollows(sh: Shared, pc: Pc, step: Step) {
    && (Bumper(pc) ==> Bumper(step.pc) || Notifies(pc))
    && (step.pc == Idle(Park) ==> pc == Idle(SeePending) && sh.wake.pending <= 0)
    && (step.pc == Idle(Parked) ==> pc == Idle(Park))
    && (step.pc == Idle(SeePending) ==> sh.acct.queued <= 0)
    && (step.pc == Idle(Park) || step.pc == Idle(Parked) || step.pc == Idle(SeePending) ==>
          step.sh.wake == sh.wake && step.sh.queue == sh.queue)
    && (PreWake(pc) && sh.wake.idle > 0 ==> PreWake(step.pc) || Bumper(step.pc) || step.sh.wake.pending > 0)
    && (pc == Sub(Push) ==> PreWake(step.pc))
    && (pc == Idle(Park) || pc == Idle(Parked) || pc == Idle(SeePending) ==> !PreWake(pc) && !Bumper(pc))
  }

  lemma WakeOfIdle(sh: Shared, p: Pid, job: Job, g: IdlePc, ok: bool, past: Past)
    ensures WakeFollows(sh, Idle(g), WithJob(IdleStep(sh, p, g, ok, past), job))
  {
  }

  lemma WakeOfStep(sh: Shared, p: Pid, job: Job, pc: Pc, ok: bool, past: Past)
    requires LocalOk(sh, pc)
    ensures WakeFollows(sh, pc, StepOf(sh, p, job, pc, ok, past))
  {
    match pc {
      case Idle(g) => WakeOfIdle(sh, p, job, g, ok, past);
      case _ => hide IdleStep;
    }
  }

  lemma RestingMarked(s: State, w: Pid)
    requires Inv(s) && Resting(s, w)
    ensures s.sh.wake.idle > 0 && (s.procs[w] != Idle(Parked) ==> HoldsMonitor(s.procs[w]))
  {
    InvParts(s);
    hide Inv;
    CountedThread(s, IdleGauge, w);
  }

  lemma NothingQueued(s: State)
    requires Inv(s) && s.sh.acct.queued <= 0
    ensures s.sh.queue.items == []
  {
    InvParts(s);
    hide Inv;
    if s.sh.queue.items != [] {
      var j := s.sh.queue.items[0];
      assert j in s.sh.queue.items;
      CountedJob(s, Queued, j);
    }
  }

  /** What one step gives the wake-up proof. */
  ghost predicate WakeReady(s: State, p: Pid, step: Step, t: State) {
    && p in s.procs && Moves(s, p, step, t) && Inv(s) && WakeOk(s)
    && WakeFollows(s.sh, s.procs[p], step) && FramesFollow(s.sh, p, s.procs[p], step)
    && QueueFollows(s.sh, p, JobAt(s, p), s.procs[p], step) && p !in s.sh.mon.parked
    && (step.pc == Idle(SeePending) ==> s.sh.queue.items == [])
  }

  /** A resting thread other than the mover was resting before, and keeps the monitor to itself unless asleep. */
  lemma RestsOn(s: State, p: Pid, step: Step, t: State, w: Pid)
    requires WakeReady(s, p, step, t) && w != p && Resting(t, w)
    ensures Resting(s, w) && (Resolved(t, w) ==> Resolved(s, w)) && s.sh.wake.idle > 0
    ensures HoldsMonitor(s.procs[p]) ==> Resolved(s, w) && s.procs[w] == Idle(Parked)
  {
    hide Inv, QueueFollows, WakeFollows, WakeOk, JobAt, Subject;
    RestingMarked(s, w);
    if s.procs[w] != Idle(Parked) {
      MonitorElsewhere(s, p, w);
    }
  }

  lemma MonitorElsewhere(s: State, p: Pid, w: Pid)
    requires Inv(s) && p in s.procs && w in s.procs && HoldsMonitor(s.procs[w]) && w != p
    ensures !HoldsMonitor(s.procs[p])
  {
    InvParts(s);
    hide Inv, HoldsMonitor;
    assert s.sh.mon.owner == Some(w);
    assert s.sh.mon.owner == Some(p) <==> HoldsMonitor(s.procs[p]);
  }

  lemma BumperStays(s: State, p: Pid, step: Step, t: State, w: Pid)
    requires WakeReady(s, p, step, t) && SomeoneBumps(s) && w != p && Resting(t, w)
    ensures SomeoneBumps(t)
  {
    RestsOn(s, p, step, t, w);
    hide Inv, QueueFollows, WakeOk, JobAt, Subject, Bumper, HoldsMonitor, PreWake;
    var x :| x in s.procs && Bumper(s.procs[x]);
    assert x in t.procs && t.procs[x] == if x == p then step.pc else s.procs[x];
  }

  lemma KeptBumper(s: State, p: Pid, step: Step, t: State)
    requires p in s.procs && Moves(s, p, step, t) && SomeoneBumps(s) && !Bumper(s.procs[p])
    ensures SomeoneBumps(t)
  {
    hide Bumper, Subject;
    var x :| x in s.procs && Bumper(s.procs[x]);
    assert x in t.procs && t.procs[x] == s.procs[x];
  }

  lemma TokensKept(s: State, p: Pid, step: Step, t: State, w: Pid)
    requires WakeReady(s, p, step, t) && Resolved(t, w) && t.sh.wake.pending > 0
    ensures SomeoneBumps(t)
  {
    hide Inv, QueueFollows, JobAt, Subject, HoldsMonitor;
    if w == p {
      assert s.procs[p] == Idle(Park) && Resolved(s, p);
      KeptBumper(s, p, step, t);
    } else {
      RestsOn(s, p, step, t, w);
      if s.sh.wake.pending > 0 {
        BumperStays(s, p, step, t, w);
      } else {
        assert t.procs[p] == step.pc && Bumper(t.procs[p]);
      }
    }
  }

  lemma AnnouncementKept(s: State, p: Pid, step: Step, t: State, w: Pid, j: Pid)
    requires WakeReady(s, p, step, t) && Resting(t, w) && j in t.sh.queue.items
    ensures Announced(t, j)
  {
    hide Inv, JobAt, Subject, HoldsMonitor, FramesFollow, QueueFollows, WakeOk, PreWake, Bumper;
    if w == p {
      OwnAnnouncement(s, p, step, t, j);
    } else {
      RestsOn(s, p, step, t, w);
      QueuedBefore(s, p, step, t, j);
      if j == p && s.procs[p] == Sub(Push) {
        assert t.procs[p] == step.pc;
      } else {
        WakeOkAt(s, w, j);
        if SomeoneBumps(s) {
          BumperStays(s, p, step, t, w);
        } else if s.sh.wake.pending > 0 {
          TokenStays(s, p, step, t, w);
        } else {
          assert t.procs[j] == if j == p then step.pc else s.procs[j];
          assert j == p && Bumper(step.pc) ==> SomeoneBumps(t);
        }
      }
    }
  }

  lemma WakeOkAt(s: State, w: Pid, j: Pid)
    requires WakeOk(s) && Resting(s, w) && j in s.sh.queue.items
    ensures Announced(s, j)
  {
  }

  lemma OwnAnnouncement(s: State, p: Pid, step: Step, t: State, j: Pid)
    requires WakeReady(s, p, step, t) && Resting(t, p) && j in t.sh.queue.items
    ensures Announced(t, j)
  {
    hide Inv, JobAt, Subject, HoldsMonitor, FramesFollow, QueueFollows;
    assert Resting(s, p) && Announced(s, j);
    if SomeoneBumps(s) {
      KeptBumper(s, p, step, t);
    } else if j in s.procs && PreWake(s.procs[j]) {
      assert t.procs[j] == s.procs[j];
    }
  }

  lemma QueuedBefore(s: State, p: Pid, step: Step, t: State, j: Pid)
    requires WakeReady(s, p, step, t) && j in t.sh.queue.items
    ensures j in s.sh.queue.items || (j == p && s.procs[p] == Sub(Push))
  {
    hide Inv, JobAt, Subject, HoldsMonitor, FramesFollow, WakeFollows, WakeOk, Steals;
    var items := s.sh.queue.items;
    assert items != [] ==> items == [items[0]] + items[1..];
  }

  /** The token is consumed only under the monitor. */
  lemma TokenStays(s: State, p: Pid, step: Step, t: State, w: Pid)
    requires WakeReady(s, p, step, t) && w != p && Resting(t, w) && s.sh.wake.pending > 0 && !SomeoneBumps(s)
    ensures t.sh.wake.pending > 0
  {
    RestsOn(s, p, step, t, w);
    hide Inv, JobAt, Subject, HoldsMonitor, QueueFollows, WakeFollows;
  }

  lemma ActWake(s: State, p: Pid, ok: bool, t: State)
    requires p in s.procs && CanStep(s, p, s.procs[p]) && Moves(s, p, StepAt(s, p, ok), t) && Inv(s) && WakeOk(s)
    ensures WakeOk(t)
  {
    hide Inv, JobAt, Subject, CanStep, StepOf, WakeFollows, FramesFollow, QueueFollows, JobFollows, CountersFollow,
      GaugesFollow, CustodyFollows, WatchFollows, LifeFollows, PathsFollow, LocalOk, GlobalOk, Resting, Resolved,
      Announced, SomeoneBumps, Moves, WakeOk;
    var step := StepAt(s, p, ok);
    WakeReadyAt(s, p, ok, t);
    forall w | Resolved(t, w) && t.sh.wake.pending > 0
      ensures SomeoneBumps(t)
    {
      TokensKept(s, p, step, t, w);
    }
    forall w, j | Resting(t, w) && j in t.sh.queue.items
      ensures Announced(t, j)
    {
      AnnouncementKept(s, p, step, t, w, j);
    }
    WakeOkFrom(t);
  }

  lemma WakeOkFrom(s: State)
    requires forall w :: Resolved(s, w) && s.sh.wake.pending > 0 ==> SomeoneBumps(s)
    requires forall w, j :: Resting(s, w) && j in s.sh.queue.items ==> Announced(s, j)
    ensures WakeOk(s)
  {
  }

  lemma WakeReadyAt(s: State, p: Pid, ok: bool, t: State)
    requires p in s.procs && CanStep(s, p, s.procs[p]) && Moves(s, p, StepAt(s, p, ok), t) && Inv(s) && WakeOk(s)
    ensures WakeReady(s, p, StepAt(s, p, ok), t)
  {
    hide Inv, JobAt, Subject, CanStep, StepOf, FramesFollow, QueueFollows, WakeOk, JobFollows, CountersFollow,
      GaugesFollow, CustodyFollows, WatchFollows, LifeFollows, PathsFollow, GlobalOk, Moves, LocalOk;
    InvParts(s);
    MoverKnows(s, p);
    StepFollows(s, p, ok);
    WakeOfStep(s.sh, p, JobAt(s, p), s.procs[p], ok, PastOf(s));
    if s.sh.acct.queued <= 0 {
      NothingQueued(s);
    }
  }

  lemma QuietWake(s: State, e: Event, t: State)
    requires WakeOk(s) && Next(s, e, t) && !e.Act?
    ensures WakeOk(t)
  {
    assert forall r: Request ::
        StartPc(r) != Idle(Park) && StartPc(r) != Idle(Parked) && StartPc(r) != Idle(SeePending);
    hide StartPc, PreWake, Bumper;
    assert t.sh.wake == s.sh.wake && t.sh.queue == s.sh.queue;
    assert forall x :: x in s.procs ==> x in t.procs && t.procs[x] == s.procs[x];
    assert forall w :: Resolved(t, w) ==> Resolved(s, w);
    assert forall w :: Resting(t, w) ==> Resting(s, w);
    assert SomeoneBumps(s) ==> SomeoneBumps(t);
    assert forall j :: Announced(s, j) ==> Announced(t, j);
  }

  lemma NobodyResting(b: Behavior)
    requires b.Valid()
    ensures WakeOk(b.states[0])
  {
    hide Next;
  }

  lemma {:induction false} AlwaysWake(b: Behavior, i: nat)
    requires b.Valid() && i < |b.states|
    ensures WakeOk(b.states[i])
  {
    hide Inv, WakeOk, CanStep, Moves, StepAt, StartPc;
    if i == 0 {
      NobodyResting(b);
    } else {
      AlwaysWake(b, i - 1);
      AlwaysInv(b, i - 1);
      assert Next(b.states[i - 1], b.events[i - 1], b.states[i]);
      hide Behavior.Valid;
      match b.events[i - 1] {
        case Act(p, ok) => ActWake(b.states[i - 1], p, ok, b.states[i]);
        case _ => QuietWake(b.states[i - 1], b.events[i - 1], b.states[i]);
      }
    }
  }

  /** While a worker of the fixed pool sleeps and a job is queued, some submitter has left a token and is about to
      notify, or there is no token and the submitter of that job has yet to decide, and will see an idle worker. */
  lemma NoLostWorkerWakeup(b: Behavior, i: nat, w: Pid, j: Pid)
    requires b.Valid() && i < |b.states| && w in b.states[i].procs && b.states[i].procs[w] == Idle(Parked)
    requires w in b.states[i].sh.mon.parked && j in b.states[i].sh.queue.items
    ensures SomeoneBumps(b.states[i])
            || (b.states[i].sh.wake.pending <= 0 && b.states[i].sh.wake.idle > 0
                && j in b.states[i].procs && PreWake(b.states[i].procs[j]))
  {
    hide Behavior.Valid, Inv;
    AlwaysWake(b, i);
    AlwaysInv(b, i);
    assert Resolved(b.states[i], w) && Resting(b.states[i], w) && Announced(b.states[i], j);
    RestingMarked(b.states[i], w);
  }
}
