/**
 Fair runs: a worker, a caller or a notification that is able to move again and again does move.
 Once only jobs of the wide lane are pushed and nobody holds the queue, the watermark reaches
 everything pushed before, so every `drain_to` returns, however many such jobs still come. Once
 nothing is pushed the queue empties, and every barrier returns; and a pusher gets its push.
 */
module ApplyFair {
  import opened Jobs
  import opened Queue
  import opened QueueLanes
  import opened QueueInvariant
  import QueueGraph
  import opened ApplySystem
  import opened ApplyWork
  import ApplyStore
  import opened ApplyWake
  import opened ApplyRuns
  import opened ApplyLiveness

  // ----- Fairness -----

  /** Who the scheduler must not leave behind: a thread, or a notification on its way. */
  datatype Agent = TheWorker(worker: nat) | TheCaller(caller: nat) | OneNotice | AllNotice

  predicate Of(agent: Agent, step: Step) {
    match agent
    case TheWorker(w) =>
      (step.PickUp? || step.Act? || step.Repay? || step.Complete? || step.Announce?) && step.worker == w
    case TheCaller(c) => (step.Sleep? || step.Return? || step.PushJob?) && step.caller == c
    case OneNotice => step.NotifyOne?
    case AllNotice => step.NotifyAll?
  }

  ghost predicate Able(cfg: Settings, s: System, agent: Agent) {
    exists step, s' :: Of(agent, step) && Next(cfg, s, step, s')
  }

  ghost predicate NeverAble(cfg: Settings, run: Trace, agent: Agent, t: nat) {
    forall v: nat :: v >= t ==> !Able(cfg, run.state(v), agent)
  }

  ghost predicate Acts(run: Trace, agent: Agent, t: nat) {
    exists u: nat :: u >= t && Of(agent, run.step(u))
  }

  /** Whoever is able again and again acts again and again. */
  ghost predicate Fair(cfg: Settings, run: Trace) {
    forall agent, t: nat :: Acts(run, agent, t) || exists u: nat :: u >= t && NeverAble(cfg, run, agent, u)
  }

  /** An endless fair run of a queue with room in its bounded lane. */
  ghost predicate FairRun(cfg: Settings, init: Store, workers: nat, run: Trace) {
    (forall n: nat :: IsRun(cfg, init, workers, run, n)) && Fair(cfg, run) && cfg.width >= 1
  }

  /** From `t` on nobody holds the queue. */
  ghost predicate Unheld(run: Trace, t: nat) {
    !run.state(t).q.held && forall i: nat :: i >= t ==> !run.step(i).HoldQueue?
  }

  lemma At(cfg: Settings, init: Store, workers: nat, run: Trace, i: nat)
    requires FairRun(cfg, init, workers, run)
    ensures WorkInv(cfg, run.state(i)) && WakeInv(cfg, run.state(i)) && NextAt(cfg, run, i)
  {
    assert IsRun(cfg, init, workers, run, i + 1) && IsRun(cfg, init, workers, run, i);
    RunKeeps(cfg, init, workers, run, i);
    GoodWork(cfg, init, run.state(i));
    GoodWake(cfg, init, run.state(i));
  }

  lemma {:induction false} StaysUnheld(cfg: Settings, init: Store, workers: nat, run: Trace, t: nat, u: nat)
    requires FairRun(cfg, init, workers, run) && Unheld(run, t) && u >= t
    ensures Unheld(run, u)
    decreases u
  {
    if u > t {
      StaysUnheld(cfg, init, workers, run, t, u - 1);
      At(cfg, init, workers, run, u - 1);
      StepUnheld(cfg, run.state(u - 1), run.step(u - 1), run.state(u));
    }
  }

  lemma StepUnheld(cfg: Settings, s: System, step: Step, s': System)
    requires Next(cfg, s, step, s') && !step.HoldQueue? && !s.q.held
    ensures !s'.q.held
  {
  }

  /** The first act of an agent that is able again and again. */
  lemma FirstAct(cfg: Settings, init: Store, workers: nat, run: Trace, agent: Agent, t: nat) returns (u: nat)
    requires FairRun(cfg, init, workers, run)
    requires forall v: nat :: v >= t ==> !NeverAble(cfg, run, agent, v)
    ensures u >= t && Of(agent, run.step(u)) && forall i: nat :: t <= i < u ==> !Of(agent, run.step(i))
  {
    assert Acts(run, agent, t);
    var x: nat :| x >= t && Of(agent, run.step(x));
    u := Earliest(run, agent, t, x);
  }

  lemma {:induction false} Earliest(run: Trace, agent: Agent, t: nat, x: nat) returns (u: nat)
    requires x >= t && Of(agent, run.step(x))
    ensures t <= u <= x && Of(agent, run.step(u)) && forall i: nat :: t <= i < u ==> !Of(agent, run.step(i))
    decreases x - t
  {
    if Of(agent, run.step(t)) {
      u := t;
    } else {
      u := Earliest(run, agent, t + 1, x);
    }
  }

  lemma {:induction false} LastBefore(p: nat -> bool, u: nat, v: nat) returns (w: nat)
    requires u <= v && p(u) && !p(v)
    ensures u <= w < v && p(w) && !p(w + 1)
    decreases v - u
  {
    if p(u + 1) {
      w := LastBefore(p, u + 1, v);
    } else {
      w := u;
    }
  }

  // ----- The lock comes free -----

  lemma HolderWaits(cfg: Settings, s: System, step: Step, s': System, c: nat)
    requires DoesWait(cfg, s, step, s') && OneHolder(s)
    requires IsCaller(s, c, Resolved) && !IsCaller(s', c, Resolved)
    ensures LockFree(s') && step == Sleep(c)
  {
  }

  lemma HolderStays(cfg: Settings, s: System, step: Step, s': System, c: nat)
    requires Next(cfg, s, step, s') && !DoesWait(cfg, s, step, s') && IsCaller(s, c, Resolved)
    ensures IsCaller(s', c, Resolved)
  {
  }

  /** A caller that holds the lock lets it go only by sleeping. */
  lemma HolderSleeps(cfg: Settings, s: System, step: Step, s': System, c: nat)
    requires Next(cfg, s, step, s') && OneHolder(s)
    requires IsCaller(s, c, Resolved) && !IsCaller(s', c, Resolved)
    ensures LockFree(s') && step == Sleep(c)
  {
    if DoesWait(cfg, s, step, s') {
      HolderWaits(cfg, s, step, s', c);
    } else {
      HolderStays(cfg, s, step, s', c);
    }
  }

  lemma HolderAble(cfg: Settings, s: System, c: nat)
    requires IsCaller(s, c, Resolved)
    ensures Able(cfg, s, TheCaller(c))
  {
    assert Next(cfg, s, Sleep(c), s.(callers := s.callers[c := s.callers[c].(phase := Sleeping)]));
  }

  lemma HolderActs(cfg: Settings, s: System, step: Step, s': System, c: nat)
    requires Next(cfg, s, step, s') && IsCaller(s, c, Resolved) && Of(TheCaller(c), step)
    ensures !IsCaller(s', c, Resolved)
  {
  }

  lemma HolderLetsGo(cfg: Settings, init: Store, workers: nat, run: Trace, u: nat, c: nat) returns (x: nat)
    requires FairRun(cfg, init, workers, run)
    ensures x >= u && !IsCaller(run.state(x), c, Resolved)
  {
    x := u;
    if exists v: nat :: v >= u && !IsCaller(run.state(v), c, Resolved) {
      x :| x >= u && !IsCaller(run.state(x), c, Resolved);
    } else {
      forall v: nat | v >= u
        ensures !NeverAble(cfg, run, TheCaller(c), v)
      {
        HolderAble(cfg, run.state(v), c);
      }
      var y := FirstAct(cfg, init, workers, run, TheCaller(c), u);
      At(cfg, init, workers, run, y);
      HolderActs(cfg, run.state(y), run.step(y), run.state(y + 1), c);
      assert false;
    }
  }

  /** When a caller that holds the lock sleeps. */
  lemma HolderSleepsAt(cfg: Settings, init: Store, workers: nat, run: Trace, u: nat, c: nat) returns (y: nat)
    requires FairRun(cfg, init, workers, run) && IsCaller(run.state(u), c, Resolved)
    ensures y >= u && IsCaller(run.state(y), c, Resolved) && run.step(y) == Sleep(c) && LockFree(run.state(y + 1))
  {
    var x := HolderLetsGo(cfg, init, workers, run, u, c);
    y := LastBefore((i: nat) => IsCaller(run.state(i), c, Resolved), u, x);
    SleepsHere(cfg, init, workers, run, y, c);
  }

  lemma SleepsHere(cfg: Settings, init: Store, workers: nat, run: Trace, y: nat, c: nat)
    requires FairRun(cfg, init, workers, run)
    requires IsCaller(run.state(y), c, Resolved) && !IsCaller(run.state(y + 1), c, Resolved)
    ensures run.step(y) == Sleep(c) && LockFree(run.state(y + 1))
  {
    At(cfg, init, workers, run, y);
    HolderSleeps(cfg, run.state(y), run.step(y), run.state(y + 1), c);
  }

  /** A caller between looking and sleeping does not keep the lock for ever. */
  lemma LockComesFree(cfg: Settings, init: Store, workers: nat, run: Trace, u: nat) returns (v: nat)
    requires FairRun(cfg, init, workers, run)
    ensures v >= u && LockFree(run.state(v))
  {
    if LockFree(run.state(u)) {
      v := u;
    } else {
      var c :| c in run.state(u).callers && run.state(u).callers[c].phase.Resolved?;
      var y := HolderSleepsAt(cfg, init, workers, run, u, c);
      v := y + 1;
    }
  }

  // ----- A worker does its own work -----

  ghost predicate Busy(s: System, w: nat) {
    w < |s.workers| && (s.workers[w].Running? || s.workers[w].Finishing? || s.workers[w].Settling?)
  }

  /** Where a worker is, and how far its job has come, are its own. */
  ghost predicate SamePlace(s: System, s': System, w: nat) {
    && |s'.workers| == |s.workers| && w < |s.workers| && s'.workers[w] == s.workers[w]
    && (s.workers[w].Running? && s.workers[w].seqno in s.running ==>
          s.workers[w].seqno in s'.running && s'.running[s.workers[w].seqno] == s.running[s.workers[w].seqno])
    && s.log <= s'.log
  }

  lemma OthersPush(cfg: Settings, s: System, c: nat, s': System, w: nat)
    requires DoesPush(cfg, s, c, s') && w < |s.workers|
    ensures SamePlace(s, s', w)
  {
  }

  lemma OthersPick(cfg: Settings, s: System, v: nat, s': System, w: nat)
    requires WorkInv(cfg, s) && DoesPickUp(cfg, s, v, s') && Busy(s, w)
    ensures SamePlace(s, s', w)
  {
    PickedWaits(cfg, s, Choose(cfg, s.q.lanes).1);
  }

  lemma OthersAct(cfg: Settings, s: System, v: nat, s': System, w: nat)
    requires WorkInv(cfg, s) && DoesAct(s, v, s') && v != w && Busy(s, w)
    ensures SamePlace(s, s', w)
  {
    assert Holds(TheStaff, cfg, s);
  }

  lemma OthersComplete(cfg: Settings, s: System, v: nat, x: nat, s': System, w: nat)
    requires WorkInv(cfg, s) && DoesComplete(cfg, s, v, x, s') && v != w && Busy(s, w)
    ensures SamePlace(s, s', w)
  {
    WokenByLength(cfg, s, s.workers[v].seqno, x);
    assert Holds(TheStaff, cfg, s);
  }

  lemma OthersQuiet(cfg: Settings, s: System, step: Step, s': System, w: nat)
    requires (DoesWait(cfg, s, step, s') || DoesWake(cfg, s, step, s')) && Busy(s, w) && step != Announce(w)
    ensures SamePlace(s, s', w)
  {
  }

  lemma OthersLeave(cfg: Settings, s: System, step: Step, s': System, w: nat)
    requires WorkInv(cfg, s) && Next(cfg, s, step, s') && Busy(s, w) && !Of(TheWorker(w), step)
    ensures SamePlace(s, s', w)
  {
    match step
    case PushJob(c) => OthersPush(cfg, s, c, s', w);
    case PickUp(v) => OthersPick(cfg, s, v, s', w);
    case Act(v) => OthersAct(cfg, s, v, s', w);
    case Repay(v) =>
    case Complete(v, x) => OthersComplete(cfg, s, v, x, s', w);
    case _ => OthersQuiet(cfg, s, step, s', w);
  }

  lemma {:induction false} StaysBusy(cfg: Settings, init: Store, workers: nat, run: Trace, t: nat, u: nat, w: nat)
    requires FairRun(cfg, init, workers, run) && t <= u && Busy(run.state(t), w)
    requires forall i: nat :: t <= i < u ==> !Of(TheWorker(w), run.step(i))
    ensures SamePlace(run.state(t), run.state(u), w)
    decreases u
  {
    if t < u {
      StaysBusy(cfg, init, workers, run, t, u - 1, w);
      At(cfg, init, workers, run, u - 1);
      OthersLeave(cfg, run.state(u - 1), run.step(u - 1), run.state(u), w);
    }
  }

  lemma Wakeable(workers: seq<Worker>) returns (x: nat)
    ensures MayWake(workers, x)
  {
    x := 0;
    if !AllBusy(workers) {
      x :| x < |workers| && workers[x].Asleep?;
    }
  }

  /** A busy worker is able to go on, once the lock is free if it completes. */
  lemma BusyAble(cfg: Settings, s: System, w: nat)
    requires WorkInv(cfg, s) && Busy(s, w) && LockFree(s)
    ensures Able(cfg, s, TheWorker(w))
  {
    if s.workers[w].Settling? {
      assert Next(cfg, s, Announce(w), s.(workers := s.workers[w := Idle], callers := WakeCallers(s.callers)));
    } else if s.workers[w].Finishing? {
      CompleteNeverPanics(cfg, s, w);
      var x := Wakeable(s.workers);
      assert Next(cfg, s, Complete(w, x), Completed(cfg, s, w, x));
    } else {
      RunningAble(cfg, s, w);
    }
  }

  lemma RunningAble(cfg: Settings, s: System, w: nat)
    requires WorkInv(cfg, s) && w < |s.workers| && s.workers[w].Running?
    ensures Able(cfg, s, TheWorker(w))
  {
    assert Works(s, w) by {
      assert Holds(TheStaff, cfg, s);
    }
    if CanAct(s, w) {
      assert Next(cfg, s, Act(w), Acted(s, w));
    } else {
      RepayNeverWraps(cfg, s, w);
      assert Next(cfg, s, Repay(w), Repaid(s, w));
    }
  }

  /** A busy worker's next step, from where it is. */
  lemma BusyActs(cfg: Settings, init: Store, workers: nat, run: Trace, t: nat, w: nat) returns (u: nat)
    requires FairRun(cfg, init, workers, run) && Busy(run.state(t), w)
    ensures u >= t && Of(TheWorker(w), run.step(u)) && SamePlace(run.state(t), run.state(u), w)
  {
    if !Acts(run, TheWorker(w), t) {
      forall v: nat | v >= t
        ensures !NeverAble(cfg, run, TheWorker(w), v)
      {
        var x := LockComesFree(cfg, init, workers, run, v);
        StaysBusy(cfg, init, workers, run, t, x, w);
        At(cfg, init, workers, run, x);
        BusyAble(cfg, run.state(x), w);
      }
      u := FirstAct(cfg, init, workers, run, TheWorker(w), t);
      assert false;
    } else {
      var x: nat :| x >= t && Of(TheWorker(w), run.step(x));
      u := Earliest(run, TheWorker(w), t, x);
      StaysBusy(cfg, init, workers, run, t, u, w);
    }
  }

  /** How many steps a worker has to the end of its job's completion. */
  ghost function ToGo(s: System, w: nat): nat {
    if w < |s.workers| && s.workers[w].Running? && IsJob(s, s.workers[w].seqno) then
      |s.log[s.workers[w].seqno - 1].effects| - s.running[s.workers[w].seqno].done + 2
    else if w < |s.workers| && s.workers[w].Finishing? then 1
    else 0
  }

  lemma WorkerStep(cfg: Settings, s: System, step: Step, s': System, w: nat)
    requires WorkInv(cfg, s) && Next(cfg, s, step, s') && Busy(s, w) && Of(TheWorker(w), step)
    ensures if s.workers[w].Settling? then step == Announce(w) && IsWorker(s', w, Idle)
            else Busy(s', w) && ToGo(s', w) < ToGo(s, w) && IsWork(step) && JobOf(cfg, s, step) == s.workers[w].seqno
  {
  }

  lemma SamePlaceToGo(s: System, s': System, w: nat)
    requires SamePlace(s, s', w) && Busy(s, w) && StaffInv(s)
    ensures ToGo(s', w) == ToGo(s, w) && Busy(s', w)
  {
  }

  /** A busy worker's next step takes it nearer the end of its job, or is the announcement of it. */
  lemma BusyAdvances(cfg: Settings, init: Store, workers: nat, run: Trace, t: nat, w: nat) returns (u: nat)
    requires FairRun(cfg, init, workers, run) && Busy(run.state(t), w)
    ensures u >= t && Of(TheWorker(w), run.step(u)) && SamePlace(run.state(t), run.state(u), w)
    ensures if run.state(t).workers[w].Settling? then run.step(u) == Announce(w) && IsWorker(run.state(u + 1), w, Idle)
            else
              && Busy(run.state(u + 1), w) && ToGo(run.state(u + 1), w) < ToGo(run.state(t), w)
              && IsWork(run.step(u)) && JobOf(cfg, run.state(u), run.step(u)) == run.state(t).workers[w].seqno
  {
    u := BusyActs(cfg, init, workers, run, t, w);
    At(cfg, init, workers, run, t);
    assert StaffInv(run.state(t)) by {
      assert Holds(TheStaff, cfg, run.state(t));
    }
    SamePlaceToGo(run.state(t), run.state(u), w);
    At(cfg, init, workers, run, u);
    WorkerStep(cfg, run.state(u), run.step(u), run.state(u + 1), w);
  }

  lemma {:induction false} BusySettles(cfg: Settings, init: Store, workers: nat, run: Trace, t: nat, w: nat) returns (u: nat)
    requires FairRun(cfg, init, workers, run) && Busy(run.state(t), w)
    ensures u >= t && run.step(u) == Announce(w) && IsWorker(run.state(u + 1), w, Idle)
    decreases ToGo(run.state(t), w)
  {
    u := BusyAdvances(cfg, init, workers, run, t, w);
    if !run.state(t).workers[w].Settling? {
      u := BusySettles(cfg, init, workers, run, u + 1, w);
    }
  }

  // ----- Somebody picks -----

  /** From `t` on a worker that looks finds a job. */
  ghost predicate AlwaysPickable(cfg: Settings, run: Trace, t: nat) {
    forall v: nat :: v >= t ==> !run.state(v).q.held && Pickable(cfg, run.state(v).q.lanes)
  }

  lemma IdleStep(cfg: Settings, s: System, step: Step, s': System, w: nat)
    requires Next(cfg, s, step, s') && IsWorker(s, w, Idle) && !s.q.held && Pickable(cfg, s.q.lanes)
    ensures IsWorker(s', w, Idle) || step == PickUp(w)
    ensures Of(TheWorker(w), step) ==> step == PickUp(w)
  {
    if step.Complete? {
      WokenByLength(cfg, s, s.workers[step.worker].seqno, step.woken);
    }
  }

  lemma {:induction false} StaysIdle(cfg: Settings, init: Store, workers: nat, run: Trace, t: nat, u: nat, w: nat)
    requires FairRun(cfg, init, workers, run) && AlwaysPickable(cfg, run, t) && t <= u && IsWorker(run.state(t), w, Idle)
    requires forall i: nat :: t <= i < u ==> run.step(i) != PickUp(w)
    ensures IsWorker(run.state(u), w, Idle)
    decreases u
  {
    if t < u {
      StaysIdle(cfg, init, workers, run, t, u - 1, w);
      At(cfg, init, workers, run, u - 1);
      IdleStep(cfg, run.state(u - 1), run.step(u - 1), run.state(u), w);
    }
  }

  lemma IdleAble(cfg: Settings, s: System, w: nat)
    requires WorkInv(cfg, s) && CanPickUp(cfg, s, w)
    ensures Able(cfg, s, TheWorker(w))
  {
    PickNeverPanics(cfg, s, w);
    assert Next(cfg, s, PickUp(w), PickedUp(cfg, s, w));
  }

  lemma IdlePicks(cfg: Settings, init: Store, workers: nat, run: Trace, t: nat, w: nat) returns (u: nat)
    requires FairRun(cfg, init, workers, run) && AlwaysPickable(cfg, run, t) && IsWorker(run.state(t), w, Idle)
    ensures u >= t && run.step(u) == PickUp(w)
  {
    if exists v: nat :: v >= t && run.step(v) == PickUp(w) {
      u :| u >= t && run.step(u) == PickUp(w);
    } else {
      forall v: nat | v >= t
        ensures !NeverAble(cfg, run, TheWorker(w), v)
      {
        var x := LockComesFree(cfg, init, workers, run, v);
        StaysIdle(cfg, init, workers, run, t, x, w);
        At(cfg, init, workers, run, x);
        IdleAble(cfg, run.state(x), w);
      }
      u := FirstAct(cfg, init, workers, run, TheWorker(w), t);
      StaysIdle(cfg, init, workers, run, t, u, w);
      At(cfg, init, workers, run, u);
      IdleStep(cfg, run.state(u), run.step(u), run.state(u + 1), w);
    }
  }

  lemma LaterPickable(cfg: Settings, run: Trace, t: nat, u: nat)
    requires AlwaysPickable(cfg, run, t) && t <= u
    ensures AlwaysPickable(cfg, run, u)
  {
  }

  lemma AwakePicks(cfg: Settings, init: Store, workers: nat, run: Trace, t: nat, w: nat) returns (u: nat)
    requires FairRun(cfg, init, workers, run) && AlwaysPickable(cfg, run, t)
    requires w < |run.state(t).workers| && !run.state(t).workers[w].Asleep?
    ensures u >= t && run.step(u) == PickUp(w)
  {
    if run.state(t).workers[w].Idle? {
      u := IdlePicks(cfg, init, workers, run, t, w);
    } else {
      var x := BusySettles(cfg, init, workers, run, t, w);
      LaterPickable(cfg, run, t, x + 1);
      u := IdlePicks(cfg, init, workers, run, x + 1, w);
    }
  }

  lemma NoticeAble(cfg: Settings, s: System)
    requires s.oweOne > 0
    ensures Able(cfg, s, OneNotice)
  {
    var x := Wakeable(s.workers);
    assert Next(cfg, s, NotifyOne(x), s.(workers := WakeOne(s.workers, x), oweOne := s.oweOne - 1));
  }

  lemma NoticesAble(cfg: Settings, s: System)
    requires s.oweAll > 0
    ensures Able(cfg, s, AllNotice)
  {
    assert Next(cfg, s, NotifyAll, s.(workers := WakeAll(s.workers), oweAll := s.oweAll - 1));
  }

  lemma NoticeStep(cfg: Settings, s: System, step: Step, s': System)
    requires Next(cfg, s, step, s')
    ensures s.oweOne > 0 && !step.NotifyOne? ==> s'.oweOne > 0
    ensures s.oweAll > 0 && !step.NotifyAll? ==> s'.oweAll > 0
  {
  }

  lemma NoticeWakes(cfg: Settings, s: System, step: Step, s': System) returns (w: nat)
    requires Next(cfg, s, step, s') && (step.NotifyOne? || step.NotifyAll?) && |s.workers| >= 1
    ensures w < |s'.workers| && !s'.workers[w].Asleep?
  {
    w := if step.NotifyOne? && step.worker < |s.workers| && s.workers[step.worker].Asleep? then step.worker else 0;
  }

  lemma {:induction false} NoticeLasts(cfg: Settings, init: Store, workers: nat, run: Trace, t: nat, u: nat)
    requires FairRun(cfg, init, workers, run) && t <= u
    requires forall i: nat :: t <= i < u ==> !run.step(i).NotifyOne? && !run.step(i).NotifyAll?
    ensures run.state(t).oweOne > 0 ==> run.state(u).oweOne > 0
    ensures run.state(t).oweAll > 0 ==> run.state(u).oweAll > 0
    decreases u
  {
    if t < u {
      NoticeLasts(cfg, init, workers, run, t, u - 1);
      At(cfg, init, workers, run, u - 1);
      NoticeStep(cfg, run.state(u - 1), run.step(u - 1), run.state(u));
    }
  }

  lemma NoticeArrives(cfg: Settings, init: Store, workers: nat, run: Trace, t: nat) returns (u: nat)
    requires FairRun(cfg, init, workers, run) && (run.state(t).oweOne > 0 || run.state(t).oweAll > 0)
    ensures u >= t && (run.step(u).NotifyOne? || run.step(u).NotifyAll?)
  {
    if u' :| u' >= t && (run.step(u').NotifyOne? || run.step(u').NotifyAll?) {
      u := u';
    } else {
      var agent := if run.state(t).oweOne > 0 then OneNotice else AllNotice;
      forall v: nat | v >= t
        ensures !NeverAble(cfg, run, agent, v)
      {
        NoticeLasts(cfg, init, workers, run, t, v);
        if agent.OneNotice? {
          NoticeAble(cfg, run.state(v));
        } else {
          NoticesAble(cfg, run.state(v));
        }
      }
      u := FirstAct(cfg, init, workers, run, agent, t);
      assert false;
    }
  }

  /** While there is always a job to find, jobs are picked again and again. */
  lemma SomebodyPicks(cfg: Settings, init: Store, workers: nat, run: Trace, t: nat) returns (u: nat, w: nat)
    requires FairRun(cfg, init, workers, run) && AlwaysPickable(cfg, run, t)
    ensures u >= t && run.step(u) == PickUp(w)
  {
    var s := run.state(t);
    At(cfg, init, workers, run, t);
    assert Attended(s.workers, s.oweOne, s.oweAll);
    if s.oweOne > 0 || s.oweAll > 0 {
      var x := NoticeArrives(cfg, init, workers, run, t);
      At(cfg, init, workers, run, x);
      w := NoticeWakes(cfg, run.state(x), run.step(x), run.state(x + 1));
      LaterPickable(cfg, run, t, x + 1);
      u := AwakePicks(cfg, init, workers, run, x + 1, w);
    } else {
      w :| 0 <= w < |s.workers| && !s.workers[w].Asleep?;
      u := AwakePicks(cfg, init, workers, run, t, w);
    }
  }

  // ----- The jobs there were -----

  /** What a step pushes, if it pushes, goes to the wide lane. */
  ghost predicate WidePush(cfg: Settings, s: System, step: Step) {
    step.PushJob? && step.caller in s.callers && s.callers[step.caller].wish.ToPush? ==>
      LaneOf(cfg, s.callers[step.caller].wish.job.kind) == Wide
  }

  /** From `t` on nobody holds the queue, and nothing is pushed but to the wide lane. */
  ghost predicate OnlyWide(cfg: Settings, run: Trace, t: nat) {
    Unheld(run, t) && forall i: nat :: i >= t ==> WidePush(cfg, run.state(i), run.step(i))
  }

  /** Every job after the first `n` is of the wide lane. */
  ghost predicate WideAfter(cfg: Settings, log: seq<Job>, n: nat) {
    n <= |log| && forall i: nat :: n < i <= |log| ==> LaneAt(cfg, log, i) == Wide
  }

  lemma PushStaysWide(cfg: Settings, log: seq<Job>, job: Job, n: nat)
    requires WideAfter(cfg, log, n) && LaneOf(cfg, job.kind) == Wide
    ensures WideAfter(cfg, log + [job], n)
  {
    forall i: nat | n < i <= |log| + 1
      ensures LaneAt(cfg, log + [job], i) == Wide
    {
      assert i <= |log| ==> LaneAt(cfg, log + [job], i) == LaneAt(cfg, log, i);
    }
  }

  lemma StepStaysWide(cfg: Settings, s: System, step: Step, s': System, n: nat)
    requires Next(cfg, s, step, s') && WidePush(cfg, s, step) && WideAfter(cfg, s.log, n)
    ensures WideAfter(cfg, s'.log, n)
  {
    if step.PushJob? {
      PushStaysWide(cfg, s.log, s.callers[step.caller].wish.job, n);
    } else {
      LogStays(cfg, s, step, s');
    }
  }

  lemma LogStays(cfg: Settings, s: System, step: Step, s': System)
    requires Next(cfg, s, step, s') && !step.PushJob?
    ensures s'.log == s.log
  {
  }

  lemma {:induction false} StaysWide(cfg: Settings, init: Store, workers: nat, run: Trace, t: nat, u: nat)
    requires FairRun(cfg, init, workers, run) && OnlyWide(cfg, run, t) && t <= u
    ensures WideAfter(cfg, run.state(u).log, |run.state(t).log|)
    decreases u
  {
    if t < u {
      StaysWide(cfg, init, workers, run, t, u - 1);
      At(cfg, init, workers, run, u - 1);
      StepStaysWide(cfg, run.state(u - 1), run.step(u - 1), run.state(u), |run.state(t).log|);
    }
  }

  /** Some step from `t` on works on one of the first `k` jobs. */
  ghost predicate OldMoves(cfg: Settings, run: Trace, k: nat, t: nat) {
    exists u: nat :: u >= t && WorksOn(cfg, run.state(u), run.step(u), k)
  }

  /** The first `k` jobs are as they were: unfinished or not, running or not. */
  ghost predicate OldSame(s: System, s': System, k: nat) {
    forall i: nat :: i <= k ==> (i in s.q.graph.incomplete <==> i in s'.q.graph.incomplete) && (i in s.running <==> i in s'.running)
  }

  lemma PushLeavesOld(cfg: Settings, s: System, c: nat, s': System, k: nat)
    requires DoesPush(cfg, s, c, s') && k <= s.q.pushed
    ensures OldSame(s, s', k)
  {
  }

  lemma StepLeavesOld(cfg: Settings, s: System, step: Step, s': System, k: nat)
    requires Next(cfg, s, step, s') && !WorksOn(cfg, s, step, k) && k <= s.q.pushed
    ensures OldSame(s, s', k)
  {
    match step
    case PushJob(c) => PushLeavesOld(cfg, s, c, s', k);
    case PickUp(w) => PickedUpParts(cfg, s, w, s');
    case Complete(w, x) => CompletedLeaves(cfg, s, w, x, s');
    case Act(w) =>
    case Repay(w) =>
    case _ => QuietSteps(cfg, s, step, s');
  }

  lemma PushedIsLog(cfg: Settings, s: System)
    requires WorkInv(cfg, s)
    ensures s.q.pushed == |s.log|
    ensures if s.q.graph.incomplete == {} then s.q.applied == |s.log| else IsLeast(s.q.graph.incomplete, s.q.applied + 1)
  {
    TheQueueIs(cfg, s);
  }

  lemma {:induction false} OldStays(cfg: Settings, init: Store, workers: nat, run: Trace, t: nat, u: nat, k: nat)
    requires FairRun(cfg, init, workers, run) && !OldMoves(cfg, run, k, t) && t <= u && k <= |run.state(t).log|
    ensures OldSame(run.state(t), run.state(u), k) && k <= |run.state(u).log|
    decreases u
  {
    if t < u {
      OldStays(cfg, init, workers, run, t, u - 1, k);
      At(cfg, init, workers, run, u - 1);
      PushedIsLog(cfg, run.state(u - 1));
      assert !WorksOn(cfg, run.state(u - 1), run.step(u - 1), k);
      StepLeavesOld(cfg, run.state(u - 1), run.step(u - 1), run.state(u), k);
      StepRaises(cfg, run.state(u - 1), run.step(u - 1), run.state(u));
    }
  }

  // ----- An old job that runs goes on -----

  lemma RunnerOf(cfg: Settings, s: System, n: nat) returns (w: nat)
    requires WorkInv(cfg, s) && n in s.running
    ensures w < |s.workers| && s.workers[w].Holds(n)
  {
    assert Holds(TheStaff, cfg, s);
    w := s.running[n].worker;
  }

  lemma OldRunnerMoves(cfg: Settings, init: Store, workers: nat, run: Trace, t: nat, k: nat, n: nat)
    requires FairRun(cfg, init, workers, run) && n in run.state(t).running && n <= k
    ensures OldMoves(cfg, run, k, t)
  {
    At(cfg, init, workers, run, t);
    var w := RunnerOf(cfg, run.state(t), n);
    var u := BusyAdvances(cfg, init, workers, run, t, w);
    assert WorksOn(cfg, run.state(u), run.step(u), k);
  }

  // ----- An old job that waits is picked -----

  ghost predicate NoneRuns(s: System, k: nat) {
    forall i: nat :: i <= k ==> i !in s.running
  }

  /** With none of the old jobs running, only jobs of the wide lane run. */
  lemma OnlyWideRun(cfg: Settings, s: System, k: nat, lane: Lane)
    requires StaffInv(s) && WideAfter(cfg, s.log, k) && NoneRuns(s, k) && lane != Wide
    ensures Runners(cfg, s.log, ViewOf(s.q.graph.slots), lane) == {}
  {
    var v := ViewOf(s.q.graph.slots);
    assert forall i: nat :: i in Runners(cfg, s.log, v, lane) ==> i in s.running && LaneAt(cfg, s.log, i) != Wide;
  }

  lemma LanesFree(cfg: Settings, log: seq<Job>, v: View, l: Lanes)
    requires LaneInv(cfg, log, v, l) && Runners(cfg, log, v, Serial) == {} && Runners(cfg, log, v, Bounded) == {}
    ensures !l.serialRunning && l.bounded.count == 0
  {
    assert l.bounded.running == {};
  }

  lemma ReadyIsListed(cfg: Settings, log: seq<Job>, v: View, l: Lanes, n: nat)
    requires LaneInv(cfg, log, v, l) && n in v && v[n].ReadyAt?
    requires !l.serialRunning && l.bounded.count == 0 && cfg.width >= 1
    ensures Pickable(cfg, l) && (LaneAt(cfg, log, n) == Wide ==> n in l.readyClones)
  {
    assert ReadyIn(cfg, log, v, LaneAt(cfg, log, n), n);
  }

  /** What is picked then is old, unless only the wide lane has anything ready. */
  lemma ChoiceIsOldOrClone(cfg: Settings, log: seq<Job>, v: View, l: Lanes, k: nat)
    requires LaneInv(cfg, log, v, l) && CanChoose(cfg, l) && !l.serialRunning && l.bounded.count == 0 && cfg.width >= 1
    requires WideAfter(cfg, log, k) && 1 <= Choose(cfg, l).1 <= |log|
    ensures Choose(cfg, l).1 <= k || (l.ready == [] && l.bounded.readyKeys == [] && Choose(cfg, l) == (l.(readyClones := l.readyClones[1..]), l.readyClones[0]))
    ensures forall n: nat :: n in v && v[n].ReadyAt? && LaneAt(cfg, log, n) != Wide ==> Choose(cfg, l).1 <= k
  {
    ChosenIsReady(cfg, log, v, l);
    forall n: nat | n in v && v[n].ReadyAt? && LaneAt(cfg, log, n) != Wide
      ensures l.ready != [] || l.bounded.readyKeys != []
    {
      assert ReadyIn(cfg, log, v, LaneAt(cfg, log, n), n);
    }
  }

  /** The oldest job is ready if it does not run. */
  lemma OldestIsReady(cfg: Settings, q: State, log: seq<Job>)
    requires Inv(cfg, q, log) && q.graph.incomplete != {} && q.graph.slots[Least(q.graph.incomplete)].job.Some?
    ensures var n := Least(q.graph.incomplete); n in ViewOf(q.graph.slots) && ViewOf(q.graph.slots)[n].ReadyAt?
  {
    QueueGraph.OldestWaitsForNothing(cfg, q.graph, log);
  }

  /** The state while an old job waits and none of them runs. */
  ghost predicate Stuck(cfg: Settings, s: System, k: nat) {
    WorkInv(cfg, s) && WideAfter(cfg, s.log, k) && NoneRuns(s, k) && s.q.applied < k && cfg.width >= 1
  }

  lemma StuckLanes(cfg: Settings, s: System, k: nat) returns (n: nat)
    requires Stuck(cfg, s, k)
    ensures n == s.q.applied + 1 && IsLeast(s.q.graph.incomplete, n)
    ensures LaneInv(cfg, s.log, ViewOf(s.q.graph.slots), s.q.lanes) && !s.q.lanes.serialRunning && s.q.lanes.bounded.count == 0
    ensures n in ViewOf(s.q.graph.slots) && ViewOf(s.q.graph.slots)[n].ReadyAt?
  {
    n := s.q.applied + 1;
    PushedIsLog(cfg, s);
    assert Inv(cfg, s.q, s.log) by {
      TheQueueIs(cfg, s);
    }
    LeastIs(s.q.graph.incomplete, n);
    assert StaffInv(s) by {
      assert Holds(TheStaff, cfg, s);
    }
    OnlyWideRun(cfg, s, k, Serial);
    OnlyWideRun(cfg, s, k, Bounded);
    LanesFree(cfg, s.log, ViewOf(s.q.graph.slots), s.q.lanes);
    OldestIsReady(cfg, s.q, s.log);
  }

  /** Then there is something to pick, and what is picked is old, or goes before the oldest in the wide lane's list. */
  lemma StuckPicks(cfg: Settings, s: System, k: nat)
    requires Stuck(cfg, s, k)
    ensures PickSafe(cfg, s)
    ensures Choose(cfg, s.q.lanes).1 <= k || s.q.applied + 1 in s.q.lanes.readyClones
    ensures Choose(cfg, s.q.lanes).1 <= k || (Choose(cfg, s.q.lanes).1 == s.q.lanes.readyClones[0] && Choose(cfg, s.q.lanes).0.readyClones == s.q.lanes.readyClones[1..])
  {
    var n := StuckLanes(cfg, s, k);
    var v := ViewOf(s.q.graph.slots);
    ReadyIsListed(cfg, s.log, v, s.q.lanes, n);
    StuckChoice(cfg, s);
    ChoiceIsOldOrClone(cfg, s.log, v, s.q.lanes, k);
  }

  lemma StuckChoice(cfg: Settings, s: System)
    requires WorkInv(cfg, s) && Pickable(cfg, s.q.lanes)
    ensures PickSafe(cfg, s) && 1 <= Choose(cfg, s.q.lanes).1 <= |s.log|
  {
    assert PickSafe(cfg, s) by {
      TheQueueIs(cfg, s);
      PickDefined(cfg, s.q, s.log);
    }
    PickedWaits(cfg, s, Choose(cfg, s.q.lanes).1);
  }

  // ----- The wide lane is a line -----

  /** How many stand before `n`. */
  ghost function Ahead(line: seq<nat>, n: nat): nat {
    if line == [] || line[0] == n then 0 else 1 + Ahead(line[1..], n)
  }

  lemma {:induction false} AheadOfMore(line: seq<nat>, more: seq<nat>, n: nat)
    requires line <= more && n in line
    ensures Ahead(more, n) == Ahead(line, n) && n in more
  {
    if line[0] != n {
      assert n in line[1..];
      AheadOfMore(line[1..], more[1..], n);
    }
  }

  /** The line grows at its end, and gets shorter only at its front, by a pick. */
  ghost predicate LineMoves(cfg: Settings, s: System, step: Step, s': System) {
    if step.PickUp? then CanChoose(cfg, s.q.lanes) && s'.q.lanes == Choose(cfg, s.q.lanes).0
    else s.q.lanes.readyClones <= s'.q.lanes.readyClones
  }

  lemma {:induction false} ReleasedGrowLine(cfg: Settings, l: Lanes, slots: map<nat, Slot>, nexts: seq<nat>)
    requires forall i :: i in nexts ==> i in slots
    ensures l.readyClones <= ListReleased(cfg, l, slots, nexts).readyClones
  {
    if nexts != [] {
      ReleasedGrowLine(cfg, l, slots, nexts[..|nexts| - 1]);
    }
  }

  lemma CompleteGrowsLine(cfg: Settings, q: State, n: nat, job: Job)
    requires CanFinish(cfg, q, n, job)
    ensures q.lanes.readyClones <= Finish(cfg, q, n, job).lanes.readyClones
  {
    var l := Leave(q.lanes, LaneOf(cfg, job.kind), q.graph.slots[n].laneKey);
    ReleasedGrowLine(cfg, l, Drop(q.graph, n, job.keys).slots, q.graph.slots[n].successors);
  }

  lemma StepMovesLine(cfg: Settings, s: System, step: Step, s': System)
    requires Next(cfg, s, step, s') && (step.PickUp? ==> CanChoose(cfg, s.q.lanes))
    ensures LineMoves(cfg, s, step, s')
  {
    match step
    case Complete(w, x) =>
      CompletesOne(cfg, s, w, x, s');
      CompleteGrowsLine(cfg, s.q, s.workers[w].seqno, s.log[s.workers[w].seqno - 1]);
    case PushJob(c) =>
    case PickUp(w) =>
    case Act(w) =>
    case Repay(w) =>
    case _ => QuietSteps(cfg, s, step, s');
  }

  /** From `t` on, an old job waits and none moves. */
  ghost predicate StuckFrom(cfg: Settings, run: Trace, k: nat, t: nat) {
    !OldMoves(cfg, run, k, t) && Unheld(run, t) && forall v: nat :: v >= t ==> Stuck(cfg, run.state(v), k)
  }

  lemma NeverOld(cfg: Settings, run: Trace, k: nat, t: nat, v: nat)
    requires StuckFrom(cfg, run, k, t) && v >= t && run.step(v).PickUp?
    ensures Choose(cfg, run.state(v).q.lanes).1 > k
  {
    StuckPicks(cfg, run.state(v), k);
    assert !WorksOn(cfg, run.state(v), run.step(v), k);
  }

  lemma StuckIsPickable(cfg: Settings, init: Store, workers: nat, run: Trace, k: nat, t: nat)
    requires FairRun(cfg, init, workers, run) && StuckFrom(cfg, run, k, t)
    ensures AlwaysPickable(cfg, run, t)
  {
    forall v: nat | v >= t
      ensures !run.state(v).q.held && Pickable(cfg, run.state(v).q.lanes)
    {
      StaysUnheld(cfg, init, workers, run, t, v);
      StuckPicks(cfg, run.state(v), k);
    }
  }

  /** The oldest job moves up the line with every pick, and never back. */
  lemma LineStep(cfg: Settings, init: Store, workers: nat, run: Trace, k: nat, t: nat, v: nat, n: nat)
    requires FairRun(cfg, init, workers, run) && StuckFrom(cfg, run, k, t) && t <= v && n <= k
    requires n in run.state(v).q.lanes.readyClones
    ensures n in run.state(v + 1).q.lanes.readyClones
    ensures Ahead(run.state(v + 1).q.lanes.readyClones, n) + (if run.step(v).PickUp? then 1 else 0) == Ahead(run.state(v).q.lanes.readyClones, n)
  {
    var s, s' := run.state(v), run.state(v + 1);
    At(cfg, init, workers, run, v);
    StuckPicks(cfg, s, k);
    StepMovesLine(cfg, s, run.step(v), s');
    if run.step(v).PickUp? {
      NeverOld(cfg, run, k, t, v);
    } else {
      AheadOfMore(s.q.lanes.readyClones, s'.q.lanes.readyClones, n);
    }
  }

  lemma {:induction false} LineShortens(cfg: Settings, init: Store, workers: nat, run: Trace, k: nat, t: nat, u: nat, v: nat, n: nat)
    requires FairRun(cfg, init, workers, run) && StuckFrom(cfg, run, k, t) && t <= u <= v && n <= k
    requires n in run.state(u).q.lanes.readyClones
    ensures n in run.state(v).q.lanes.readyClones
    ensures Ahead(run.state(v).q.lanes.readyClones, n) <= Ahead(run.state(u).q.lanes.readyClones, n)
    decreases v
  {
    if u < v {
      LineShortens(cfg, init, workers, run, k, t, u, v - 1, n);
      LineStep(cfg, init, workers, run, k, t, v - 1, n);
    }
  }

  /** No line is endless. */
  lemma {:induction false} LineEnds(cfg: Settings, init: Store, workers: nat, run: Trace, k: nat, t: nat, v: nat, n: nat)
    requires FairRun(cfg, init, workers, run) && t <= v && n <= k && n in run.state(v).q.lanes.readyClones
    ensures !StuckFrom(cfg, run, k, t)
    decreases Ahead(run.state(v).q.lanes.readyClones, n)
  {
    if StuckFrom(cfg, run, k, t) {
      StuckIsPickable(cfg, init, workers, run, k, t);
      LaterPickable(cfg, run, t, v);
      var u, w := SomebodyPicks(cfg, init, workers, run, v);
      LineShortens(cfg, init, workers, run, k, t, v, u, n);
      LineStep(cfg, init, workers, run, k, t, u, n);
      LineEnds(cfg, init, workers, run, k, t, u + 1, n);
    }
  }

  lemma NotStuckForever(cfg: Settings, init: Store, workers: nat, run: Trace, k: nat, t: nat)
    requires FairRun(cfg, init, workers, run)
    ensures !StuckFrom(cfg, run, k, t)
  {
    if StuckFrom(cfg, run, k, t) {
      StuckIsPickable(cfg, init, workers, run, k, t);
      var u, w := SomebodyPicks(cfg, init, workers, run, t);
      NeverOld(cfg, run, k, t, u);
      StuckPicks(cfg, run.state(u), k);
      LineEnds(cfg, init, workers, run, k, t, u, run.state(u).q.applied + 1);
    }
  }

  // ----- The watermark catches up -----

  lemma StuckOrMoves(cfg: Settings, init: Store, workers: nat, run: Trace, t: nat, u: nat)
    requires FairRun(cfg, init, workers, run) && OnlyWide(cfg, run, t) && t <= u
    requires run.state(u).q.applied < |run.state(t).log|
    ensures OldMoves(cfg, run, |run.state(t).log|, u)
  {
    var k := |run.state(t).log|;
    StaysWide(cfg, init, workers, run, t, u);
    if n :| n in run.state(u).running && n <= k {
      OldRunnerMoves(cfg, init, workers, run, u, k, n);
    } else if !OldMoves(cfg, run, k, u) {
      forall v: nat | v >= u
        ensures Stuck(cfg, run.state(v), k)
      {
        StillStuck(cfg, init, workers, run, t, u, v);
      }
      StaysUnheld(cfg, init, workers, run, t, u);
      NotStuckForever(cfg, init, workers, run, k, u);
    }
  }

  lemma StillStuck(cfg: Settings, init: Store, workers: nat, run: Trace, t: nat, u: nat, v: nat)
    requires FairRun(cfg, init, workers, run) && OnlyWide(cfg, run, t) && t <= u <= v
    requires run.state(u).q.applied < |run.state(t).log| && NoneRuns(run.state(u), |run.state(t).log|)
    requires !OldMoves(cfg, run, |run.state(t).log|, u)
    ensures Stuck(cfg, run.state(v), |run.state(t).log|)
  {
    var k := |run.state(t).log|;
    StaysWide(cfg, init, workers, run, t, u);
    StaysWide(cfg, init, workers, run, t, v);
    At(cfg, init, workers, run, u);
    At(cfg, init, workers, run, v);
    OldStays(cfg, init, workers, run, u, v, k);
    PushedIsLog(cfg, run.state(u));
    PushedIsLog(cfg, run.state(v));
    assert run.state(u).q.applied + 1 in run.state(v).q.graph.incomplete;
  }

  lemma {:induction false} OldWorkFalls(cfg: Settings, init: Store, workers: nat, run: Trace, t: nat, u: nat, k: nat)
    requires FairRun(cfg, init, workers, run) && t <= u && k <= |run.state(t).log|
    ensures WorkUpTo(run.state(u), k) <= WorkUpTo(run.state(t), k) && k <= |run.state(u).log|
    decreases u
  {
    if t < u {
      OldWorkFalls(cfg, init, workers, run, t, u - 1, k);
      At(cfg, init, workers, run, u - 1);
      StepWork(cfg, run.state(u - 1), run.step(u - 1), run.state(u), k);
    }
  }

  lemma MoveTakesOne(cfg: Settings, init: Store, workers: nat, run: Trace, t: nat, u: nat, k: nat)
    requires FairRun(cfg, init, workers, run) && t <= u && k <= |run.state(t).log| && WorksOn(cfg, run.state(u), run.step(u), k)
    ensures WorkUpTo(run.state(u + 1), k) < WorkUpTo(run.state(t), k)
  {
    OldWorkFalls(cfg, init, workers, run, t, u, k);
    At(cfg, init, workers, run, u);
    StepWork(cfg, run.state(u), run.step(u), run.state(u + 1), k);
  }

  lemma {:induction false} CatchesUpFrom(cfg: Settings, init: Store, workers: nat, run: Trace, t: nat, u: nat) returns (v: nat)
    requires FairRun(cfg, init, workers, run) && OnlyWide(cfg, run, t) && t <= u
    ensures v >= u && run.state(v).q.applied >= |run.state(t).log|
    decreases WorkUpTo(run.state(u), |run.state(t).log|)
  {
    var k := |run.state(t).log|;
    if run.state(u).q.applied >= k {
      v := u;
    } else {
      StuckOrMoves(cfg, init, workers, run, t, u);
      var x: nat :| x >= u && WorksOn(cfg, run.state(x), run.step(x), k);
      StaysWide(cfg, init, workers, run, t, u);
      MoveTakesOne(cfg, init, workers, run, u, x, k);
      v := CatchesUpFrom(cfg, init, workers, run, t, x + 1);
    }
  }

  /** Though jobs of the wide lane may still come for ever, the watermark reaches everything pushed before them. */
  lemma CatchesUp(cfg: Settings, init: Store, workers: nat, run: Trace, t: nat) returns (u: nat)
    requires FairRun(cfg, init, workers, run) && OnlyWide(cfg, run, t)
    ensures u >= t && run.state(u).q.applied >= run.state(t).q.pushed
  {
    At(cfg, init, workers, run, t);
    PushedIsLog(cfg, run.state(t));
    u := CatchesUpFrom(cfg, init, workers, run, t, t);
  }

  // ----- Whoever waits gets on -----

  ghost predicate Waits(s: System, c: nat, wish: Wish) {
    c in s.callers && s.callers[c].wish == wish
  }

  /** From `t` on there is nothing for the caller to wait for. */
  ghost predicate NeverBlocked(cfg: Settings, run: Trace, wish: Wish, t: nat) {
    forall v: nat :: v >= t ==> !Blocked(cfg, run.state(v), wish)
  }

  /** The caller has what it came for. */
  ghost predicate Leaves(step: Step, c: nat) {
    step == Return(c) || step == PushJob(c)
  }

  ghost predicate LeavesFrom(run: Trace, c: nat, t: nat) {
    exists u: nat :: u >= t && Leaves(run.step(u), c)
  }

  lemma WaitStep(cfg: Settings, s: System, step: Step, s': System, c: nat, wish: Wish)
    requires Next(cfg, s, step, s') && Waits(s, c, wish) && !Leaves(step, c)
    ensures Waits(s', c, wish)
  {
  }

  lemma LookStep(cfg: Settings, s: System, step: Step, s': System, c: nat, wish: Wish)
    requires Next(cfg, s, step, s') && Waits(s, c, wish) && !Leaves(step, c) && !Blocked(cfg, s, wish) && IsCaller(s, c, Looking)
    ensures IsCaller(s', c, Looking)
  {
  }

  lemma {:induction false} WaitsOn(cfg: Settings, init: Store, workers: nat, run: Trace, t: nat, v: nat, c: nat, wish: Wish)
    requires FairRun(cfg, init, workers, run) && Waits(run.state(t), c, wish) && !LeavesFrom(run, c, t) && v >= t
    ensures Waits(run.state(v), c, wish)
    decreases v
  {
    if v > t {
      WaitsOn(cfg, init, workers, run, t, v - 1, c, wish);
      At(cfg, init, workers, run, v - 1);
      assert !Leaves(run.step(v - 1), c);
      WaitStep(cfg, run.state(v - 1), run.step(v - 1), run.state(v), c, wish);
    }
  }

  lemma {:induction false} LooksOn(cfg: Settings, init: Store, workers: nat, run: Trace, t: nat, v: nat, c: nat, wish: Wish)
    requires FairRun(cfg, init, workers, run) && Waits(run.state(t), c, wish) && !LeavesFrom(run, c, t) && v >= t
    requires NeverBlocked(cfg, run, wish, t) && IsCaller(run.state(t), c, Looking)
    ensures IsCaller(run.state(v), c, Looking) && Waits(run.state(v), c, wish)
    decreases v
  {
    WaitsOn(cfg, init, workers, run, t, v, c, wish);
    if v > t {
      LooksOn(cfg, init, workers, run, t, v - 1, c, wish);
      At(cfg, init, workers, run, v - 1);
      assert !Leaves(run.step(v - 1), c);
      LookStep(cfg, run.state(v - 1), run.step(v - 1), run.state(v), c, wish);
    }
  }

  lemma LeavingAble(cfg: Settings, s: System, c: nat, wish: Wish)
    requires Waits(s, c, wish) && IsCaller(s, c, Looking) && !Blocked(cfg, s, wish) && LockFree(s)
    ensures Able(cfg, s, TheCaller(c))
  {
    if wish.ToPush? {
      assert Next(cfg, s, PushJob(c), Pushed(cfg, s, c));
    } else {
      assert Next(cfg, s, Return(c), s.(callers := s.callers - {c}));
    }
  }

  lemma LookingActs(cfg: Settings, s: System, step: Step, s': System, c: nat)
    requires Next(cfg, s, step, s') && IsCaller(s, c, Looking) && Of(TheCaller(c), step)
    ensures Leaves(step, c)
  {
  }

  /** A caller that looks, with nothing to wait for, gets on. */
  lemma LookingLeaves(cfg: Settings, init: Store, workers: nat, run: Trace, t: nat, c: nat, wish: Wish)
    requires FairRun(cfg, init, workers, run) && Waits(run.state(t), c, wish)
    requires NeverBlocked(cfg, run, wish, t) && IsCaller(run.state(t), c, Looking)
    ensures LeavesFrom(run, c, t)
  {
    if !LeavesFrom(run, c, t) {
      forall v: nat | v >= t
        ensures !NeverAble(cfg, run, TheCaller(c), v)
      {
        var x := LockComesFree(cfg, init, workers, run, v);
        LooksOn(cfg, init, workers, run, t, x, c, wish);
        LeavingAble(cfg, run.state(x), c, wish);
      }
      var u := FirstAct(cfg, init, workers, run, TheCaller(c), t);
      LooksOn(cfg, init, workers, run, t, u, c, wish);
      At(cfg, init, workers, run, u);
      LookingActs(cfg, run.state(u), run.step(u), run.state(u + 1), c);
    }
  }

  lemma AnnounceWakes(cfg: Settings, s: System, w: nat, s': System, c: nat)
    requires Next(cfg, s, Announce(w), s') && c in s'.callers
    ensures !s'.callers[c].phase.Sleeping?
  {
  }

  /** A caller asleep with nothing to wait for is owed an announcement, and gets it. */
  lemma SleeperWakes(cfg: Settings, init: Store, workers: nat, run: Trace, t: nat, c: nat, wish: Wish) returns (u: nat)
    requires FairRun(cfg, init, workers, run) && Waits(run.state(t), c, wish) && !LeavesFrom(run, c, t)
    requires NeverBlocked(cfg, run, wish, t) && IsCaller(run.state(t), c, Sleeping)
    ensures u >= t && Waits(run.state(u), c, wish) && !run.state(u).callers[c].phase.Sleeping?
  {
    var s := run.state(t);
    At(cfg, init, workers, run, t);
    assert CallerOk(cfg, s, s.callers[c]);
    var w :| 0 <= w < |s.workers| && Owes(s.workers[w], wish, true);
    var x := BusySettles(cfg, init, workers, run, t, w);
    u := x + 1;
    WaitsOn(cfg, init, workers, run, t, u, c, wish);
    At(cfg, init, workers, run, x);
    AnnounceWakes(cfg, run.state(x), w, run.state(u), c);
  }

  lemma SleepSleeps(cfg: Settings, s: System, c: nat, s': System)
    requires Next(cfg, s, Sleep(c), s')
    ensures IsCaller(s', c, Sleeping)
  {
  }

  /** Nobody holds the lock over something that came true before it looked. */
  lemma NotResolvedTwice(cfg: Settings, init: Store, workers: nat, run: Trace, t: nat, u: nat, c: nat, wish: Wish)
    requires FairRun(cfg, init, workers, run) && Waits(run.state(t), c, wish) && !LeavesFrom(run, c, t)
    requires NeverBlocked(cfg, run, wish, t) && !IsCaller(run.state(t), c, Resolved) && u >= t
    ensures !IsCaller(run.state(u), c, Resolved)
    decreases u
  {
    if u > t {
      NotResolvedTwice(cfg, init, workers, run, t, u - 1, c, wish);
      WaitsOn(cfg, init, workers, run, t, u - 1, c, wish);
      At(cfg, init, workers, run, u - 1);
      NotResolvedStep(cfg, run.state(u - 1), run.step(u - 1), run.state(u), c, wish);
    }
  }

  lemma NotResolvedStep(cfg: Settings, s: System, step: Step, s': System, c: nat, wish: Wish)
    requires Next(cfg, s, step, s') && Waits(s, c, wish) && !Blocked(cfg, s, wish) && !IsCaller(s, c, Resolved)
    ensures !IsCaller(s', c, Resolved)
  {
  }

  lemma LooksOrSleeps(cfg: Settings, init: Store, workers: nat, run: Trace, t: nat, c: nat, wish: Wish) returns (u: nat)
    requires FairRun(cfg, init, workers, run) && Waits(run.state(t), c, wish) && !LeavesFrom(run, c, t)
    requires NeverBlocked(cfg, run, wish, t)
    ensures u >= t && Waits(run.state(u), c, wish) && !IsCaller(run.state(u), c, Resolved)
  {
    u := t;
    if IsCaller(run.state(t), c, Resolved) {
      var y := HolderSleepsAt(cfg, init, workers, run, t, c);
      At(cfg, init, workers, run, y);
      SleepSleeps(cfg, run.state(y), c, run.state(y + 1));
      u := y + 1;
      WaitsOn(cfg, init, workers, run, t, u, c, wish);
    }
  }

  lemma LaterUnblocked(cfg: Settings, run: Trace, c: nat, wish: Wish, t: nat, u: nat)
    requires NeverBlocked(cfg, run, wish, t) && !LeavesFrom(run, c, t) && t <= u
    ensures NeverBlocked(cfg, run, wish, u) && !LeavesFrom(run, c, u)
  {
  }

  /** A caller that has nothing to wait for, however it stands, gets on. */
  lemma UnblockedLeaves(cfg: Settings, init: Store, workers: nat, run: Trace, t: nat, c: nat, wish: Wish)
    requires FairRun(cfg, init, workers, run) && Waits(run.state(t), c, wish) && NeverBlocked(cfg, run, wish, t)
    ensures LeavesFrom(run, c, t)
  {
    if !LeavesFrom(run, c, t) {
      var u := LooksOrSleeps(cfg, init, workers, run, t, c, wish);
      LaterUnblocked(cfg, run, c, wish, t, u);
      var x := u;
      if IsCaller(run.state(u), c, Sleeping) {
        x := SleeperWakes(cfg, init, workers, run, u, c, wish);
        NotResolvedTwice(cfg, init, workers, run, u, x, c, wish);
        LaterUnblocked(cfg, run, c, wish, u, x);
      }
      LookingLeaves(cfg, init, workers, run, x, c, wish);
    }
  }

  lemma LeavesByReturning(cfg: Settings, init: Store, workers: nat, run: Trace, t: nat, c: nat, wish: Wish) returns (u: nat)
    requires FairRun(cfg, init, workers, run) && Waits(run.state(t), c, wish) && LeavesFrom(run, c, t)
    ensures u >= t && run.step(u) == if wish.ToPush? then PushJob(c) else Return(c)
  {
    var x: nat :| x >= t && Leaves(run.step(x), c);
    u := FirstLeave(run, c, t, x);
    StillWaits(cfg, init, workers, run, t, u, c, wish);
    At(cfg, init, workers, run, u);
  }

  lemma {:induction false} FirstLeave(run: Trace, c: nat, t: nat, x: nat) returns (u: nat)
    requires x >= t && Leaves(run.step(x), c)
    ensures t <= u <= x && Leaves(run.step(u), c) && forall i: nat :: t <= i < u ==> !Leaves(run.step(i), c)
    decreases x - t
  {
    if Leaves(run.step(t), c) {
      u := t;
    } else {
      u := FirstLeave(run, c, t + 1, x);
    }
  }

  lemma {:induction false} StillWaits(cfg: Settings, init: Store, workers: nat, run: Trace, t: nat, v: nat, c: nat, wish: Wish)
    requires FairRun(cfg, init, workers, run) && Waits(run.state(t), c, wish) && v >= t
    requires forall i: nat :: t <= i < v ==> !Leaves(run.step(i), c)
    ensures Waits(run.state(v), c, wish)
    decreases v
  {
    if v > t {
      StillWaits(cfg, init, workers, run, t, v - 1, c, wish);
      At(cfg, init, workers, run, v - 1);
      WaitStep(cfg, run.state(v - 1), run.step(v - 1), run.state(v), c, wish);
    }
  }

  // ----- Every fair run -----

  /** Under an endless storm of jobs of the wide lane, every `drain_to` returns. */
  lemma EveryDrainReturns(cfg: Settings, init: Store, workers: nat, run: Trace, t: nat, c: nat, seqno: nat) returns (u: nat)
    requires FairRun(cfg, init, workers, run) && OnlyWide(cfg, run, t) && Waits(run.state(t), c, ToDrain(seqno))
    ensures u >= t && run.step(u) == Return(c)
  {
    At(cfg, init, workers, run, t);
    assert WishOk(run.state(t).callers[c].wish, run.state(t).q.pushed);
    var x := CatchesUp(cfg, init, workers, run, t);
    if !LeavesFrom(run, c, t) {
      WaitsOn(cfg, init, workers, run, t, x, c, ToDrain(seqno));
      forall v: nat | v >= x
        ensures !Blocked(cfg, run.state(v), ToDrain(seqno))
      {
        assert IsRun(cfg, init, workers, run, v);
        WatermarkNeverFalls(cfg, init, workers, run, x, v);
      }
      UnblockedLeaves(cfg, init, workers, run, x, c, ToDrain(seqno));
    }
    u := LeavesByReturning(cfg, init, workers, run, t, c, ToDrain(seqno));
  }

  /** From `t` on nobody holds the queue and nothing is pushed. */
  ghost predicate Calm(run: Trace, t: nat) {
    Unheld(run, t) && forall i: nat :: i >= t ==> !run.step(i).PushJob?
  }

  lemma CaughtUpIsEmpty(cfg: Settings, s: System)
    requires WorkInv(cfg, s) && s.q.applied >= |s.log|
    ensures s.q.graph.incomplete == {}
  {
    TheQueueIs(cfg, s);
  }

  /** Once pushes stop every fair run empties the queue, in exactly as many completions as jobs were incomplete. */
  lemma EveryFairRunEmpties(cfg: Settings, init: Store, workers: nat, run: Trace, t: nat) returns (u: nat)
    requires FairRun(cfg, init, workers, run) && Calm(run, t)
    ensures u >= t && run.state(u).q.graph.incomplete == {}
    ensures Count(run, (s: Step) => s.Complete?, t, u) == |run.state(t).q.graph.incomplete|
    ensures run.state(u).store == ApplyStore.Serially(init, run.state(t).log)
  {
    u := CatchesUp(cfg, init, workers, run, t);
    assert IsRun(cfg, init, workers, run, u);
    WorkConserved(cfg, init, workers, run, t, u);
    At(cfg, init, workers, run, t);
    PushedIsLog(cfg, run.state(t));
    At(cfg, init, workers, run, u);
    CaughtUpIsEmpty(cfg, run.state(u));
    Serializable(cfg, init, workers, run, u);
  }

  lemma EmptyStep(cfg: Settings, s: System, step: Step, s': System)
    requires WorkInv(cfg, s) && Next(cfg, s, step, s') && !step.PushJob? && s.q.graph.incomplete == {}
    ensures s'.q.graph.incomplete == {}
  {
    StepCompletes(cfg, s, step, s');
  }

  lemma {:induction false} StaysEmpty(cfg: Settings, init: Store, workers: nat, run: Trace, t: nat, u: nat)
    requires FairRun(cfg, init, workers, run) && run.state(t).q.graph.incomplete == {} && t <= u
    requires forall i: nat :: t <= i < u ==> !run.step(i).PushJob?
    ensures run.state(u).q.graph.incomplete == {}
    decreases u
  {
    if t < u {
      StaysEmpty(cfg, init, workers, run, t, u - 1);
      At(cfg, init, workers, run, u - 1);
      EmptyStep(cfg, run.state(u - 1), run.step(u - 1), run.state(u));
    }
  }

  /** Once pushes stop, whoever waits gets on: no `push`, `drain_to` or `wait_while` sleeps for ever. */
  lemma CalmLeaves(cfg: Settings, init: Store, workers: nat, run: Trace, t: nat, c: nat, wish: Wish)
    requires FairRun(cfg, init, workers, run) && Calm(run, t) && Waits(run.state(t), c, wish)
    ensures LeavesFrom(run, c, t)
  {
    if !LeavesFrom(run, c, t) {
      var u := EveryFairRunEmpties(cfg, init, workers, run, t);
      WaitsOn(cfg, init, workers, run, t, u, c, wish);
      forall v: nat | v >= u
        ensures !Blocked(cfg, run.state(v), wish)
      {
        StaysEmpty(cfg, init, workers, run, u, v);
        WaitsOn(cfg, init, workers, run, t, v, c, wish);
        At(cfg, init, workers, run, v);
        assert WishOk(run.state(v).callers[c].wish, run.state(v).q.pushed);
        EmptyUnblocks(cfg, run.state(v), wish);
      }
      UnblockedLeaves(cfg, init, workers, run, u, c, wish);
    }
  }

  /** Once pushes stop, every barrier returns. */
  lemma EveryBarrierReturns(cfg: Settings, init: Store, workers: nat, run: Trace, t: nat, c: nat, wish: Wish) returns (u: nat)
    requires FairRun(cfg, init, workers, run) && Calm(run, t) && Waits(run.state(t), c, wish) && !wish.ToPush?
    ensures u >= t && run.step(u) == Return(c)
  {
    CalmLeaves(cfg, init, workers, run, t, c, wish);
    u := LeavesByReturning(cfg, init, workers, run, t, c, wish);
  }

  /** A pusher blocked on the window or the byte cap pushes, once nobody else does. */
  lemma EveryPusherPushes(cfg: Settings, init: Store, workers: nat, run: Trace, t: nat, c: nat, job: Job) returns (u: nat)
    requires FairRun(cfg, init, workers, run) && Unheld(run, t) && Waits(run.state(t), c, ToPush(job))
    requires forall i: nat :: i >= t && run.step(i).PushJob? ==> run.step(i).caller == c
    ensures u >= t && run.step(u) == PushJob(c)
  {
    if !LeavesFrom(run, c, t) {
      forall i: nat | i >= t
        ensures !run.step(i).PushJob?
      {
        assert !Leaves(run.step(i), c);
      }
      CalmLeaves(cfg, init, workers, run, t, c, ToPush(job));
    }
    u := LeavesByReturning(cfg, init, workers, run, t, c, ToPush(job));
  }
}
