/**
 No lost wake-up: a pickable job has a worker awake or a notification owed for it, and a caller
 asleep on a condition that has come true has a worker still to notify it, although payload and
 flags change without the lock and notifications follow the unlock.
 */
module ApplyWake {
  import opened Jobs
  import opened Queue
  import opened ApplySystem

  /** Somebody will look at the queue. */
  ghost predicate Attended(workers: seq<Worker>, oweOne: nat, oweAll: nat) {
    oweOne > 0 || oweAll > 0 || exists w :: 0 <= w < |workers| && !workers[w].Asleep?
  }

  ghost predicate WorkersOk(cfg: Settings, s: System) {
    !s.q.held && Pickable(cfg, s.q.lanes) ==> Attended(s.workers, s.oweOne, s.oweAll)
  }

  /**
   Whether a worker here has a notification of `settled` ahead of it that a caller with this wish
   relies on. The watermark moves in the completion section; payload is given back before it; a
   flag goes down while the job runs.
   */
  ghost predicate Owes(at: Worker, wish: Wish, asleep: bool) {
    (at.Settling? && asleep) || (at.Finishing? && !wish.ToDrain?) || (at.Running? && wish.WhileUp?)
  }

  ghost predicate Owed(workers: seq<Worker>, wish: Wish, asleep: bool) {
    exists w :: 0 <= w < |workers| && Owes(workers[w], wish, asleep)
  }

  ghost predicate CallerOk(cfg: Settings, s: System, caller: Caller) {
    caller.phase.Looking? || Blocked(cfg, s, caller.wish) || Owed(s.workers, caller.wish, caller.phase.Sleeping?)
  }

  ghost predicate CallersOk(cfg: Settings, s: System) {
    forall c :: c in s.callers ==> CallerOk(cfg, s, s.callers[c])
  }

  /** A caller's wish is one a caller may have: a proper job, or a job that was pushed. */
  ghost predicate WishOk(wish: Wish, pushed: nat) {
    (wish.ToPush? ==> ValidJob(wish.job)) && (wish.ToDrain? ==> wish.seqno <= pushed)
  }

  ghost predicate WishesOk(s: System) {
    forall c :: c in s.callers ==> WishOk(s.callers[c].wish, s.q.pushed)
  }

  /** The lock has one holder. */
  ghost predicate OneHolder(s: System) {
    forall c, d :: c in s.callers && d in s.callers && s.callers[c].phase.Resolved? && s.callers[d].phase.Resolved? ==> c == d
  }

  ghost predicate WakeInv(cfg: Settings, s: System) {
    |s.workers| >= 1 && WorkersOk(cfg, s) && CallersOk(cfg, s) && WishesOk(s) && OneHolder(s)
  }

  lemma StartWake(cfg: Settings, store: Store, n: nat)
    requires n >= 1
    ensures WakeInv(cfg, Start(store, n))
  {
    assert Start(store, n).workers[0].Idle?;
  }

  // ----- The workers -----

  lemma WaitKeepsWorkers(cfg: Settings, s: System, step: Step, s': System)
    requires WorkersOk(cfg, s) && DoesWait(cfg, s, step, s')
    ensures WorkersOk(cfg, s') && |s'.workers| == |s.workers|
  {
  }

  lemma WakeKeepsWorkers(cfg: Settings, s: System, step: Step, s': System)
    requires |s.workers| >= 1 && WorkersOk(cfg, s) && DoesWake(cfg, s, step, s')
    ensures WorkersOk(cfg, s') && |s'.workers| == |s.workers|
  {
    match step
    case NotifyOne(w) =>
      assert !s'.workers[if w < |s.workers| && s.workers[w].Asleep? then w else 0].Asleep?;
    case NotifyAll =>
      assert !s'.workers[0].Asleep?;
    case Wake(w) =>
      assert !s'.workers[w].Asleep?;
    case Announce(w) =>
      assert !s'.workers[w].Asleep?;
    case _ =>
  }

  lemma AwakeKeepsWorkers(cfg: Settings, s: System, w: nat)
    requires w < |s.workers| && !s.workers[w].Asleep?
    ensures WorkersOk(cfg, s)
  {
  }

  lemma WokenByLength(cfg: Settings, s: System, f: nat, x: nat)
    requires f in s.q.graph.slots
    ensures |WokenBy(cfg, s, f, x)| == |s.workers|
    ensures forall w :: 0 <= w < |s.workers| ==> WokenBy(cfg, s, f, x)[w] == s.workers[w] || (s.workers[w].Asleep? && WokenBy(cfg, s, f, x)[w].Idle?)
  {
  }

  // ----- The callers -----

  /** A caller keeps its guarantee if no condition came true and no worker it relies on notified. */
  lemma StillOk(cfg: Settings, s: System, s': System, caller: Caller)
    requires CallerOk(cfg, s, caller)
    requires Blocked(cfg, s, caller.wish) ==> Blocked(cfg, s', caller.wish)
    requires |s'.workers| == |s.workers|
    requires forall w :: 0 <= w < |s.workers| ==> Owes(s.workers[w], caller.wish, caller.phase.Sleeping?) ==> Owes(s'.workers[w], caller.wish, caller.phase.Sleeping?)
    ensures CallerOk(cfg, s', caller)
  {
    if Owed(s.workers, caller.wish, caller.phase.Sleeping?) {
      var w :| 0 <= w < |s.workers| && Owes(s.workers[w], caller.wish, caller.phase.Sleeping?);
      assert Owes(s'.workers[w], caller.wish, caller.phase.Sleeping?);
    }
  }

  lemma OwedBy(cfg: Settings, s: System, caller: Caller, w: nat)
    requires w < |s.workers| && Owes(s.workers[w], caller.wish, caller.phase.Sleeping?)
    ensures CallerOk(cfg, s, caller)
  {
  }

  lemma PushCallers(cfg: Settings, s: System, c: nat, s': System)
    requires CallersOk(cfg, s) && DoesPush(cfg, s, c, s')
    ensures CallersOk(cfg, s')
  {
    forall d | d in s'.callers
      ensures CallerOk(cfg, s', s'.callers[d])
    {
      StillOk(cfg, s, s', s.callers[d]);
    }
  }

  lemma PickCallers(cfg: Settings, s: System, w: nat, s': System)
    requires CallersOk(cfg, s) && DoesPickUp(cfg, s, w, s')
    ensures CallersOk(cfg, s')
  {
    forall d | d in s'.callers
      ensures CallerOk(cfg, s', s'.callers[d])
    {
      StillOk(cfg, s, s', s.callers[d]);
    }
  }

  lemma ActCallers(cfg: Settings, s: System, w: nat, s': System)
    requires CallersOk(cfg, s) && DoesAct(s, w, s')
    ensures CallersOk(cfg, s')
  {
    forall d | d in s'.callers
      ensures CallerOk(cfg, s', s'.callers[d])
    {
      StillOk(cfg, s, s', s.callers[d]);
    }
  }

  /** Payload given back may let a pusher on: the worker that gave it back has the completion still to announce. */
  lemma RepayCallers(cfg: Settings, s: System, w: nat, s': System)
    requires CallersOk(cfg, s) && DoesRepay(s, w, s')
    ensures CallersOk(cfg, s')
  {
    forall d | d in s'.callers
      ensures CallerOk(cfg, s', s'.callers[d])
    {
      assert CallerOk(cfg, s, s.callers[d]);
      if s.callers[d].wish.ToDrain? {
        StillOk(cfg, s, s', s.callers[d]);
      } else {
        OwedBy(cfg, s', s.callers[d], w);
      }
    }
  }

  /** Everyone asleep now has this worker's announcement ahead; nobody is between looking and sleeping. */
  lemma CompleteCallers(cfg: Settings, s: System, w: nat, x: nat, s': System)
    requires DoesComplete(cfg, s, w, x, s')
    ensures CallersOk(cfg, s')
  {
    var n := s.workers[w].seqno;
    WokenByLength(cfg, s, n, x);
    forall d | d in s'.callers
      ensures CallerOk(cfg, s', s'.callers[d])
    {
      if s.callers[d].phase.Sleeping? {
        OwedBy(cfg, s', s.callers[d], w);
      }
    }
  }

  lemma WaitCallers(cfg: Settings, s: System, step: Step, s': System)
    requires CallersOk(cfg, s) && DoesWait(cfg, s, step, s')
    ensures CallersOk(cfg, s')
  {
    forall d | d in s'.callers
      ensures CallerOk(cfg, s', s'.callers[d])
    {
      if step.Lower? {
        LowerCallers(cfg, s, step.worker, step.flag, s', d);
      } else {
        WaitCaller(cfg, s, step, s', d);
      }
    }
  }

  lemma LowerCallers(cfg: Settings, s: System, w: nat, f: nat, s': System, d: nat)
    requires CallersOk(cfg, s) && Works(s, w) && s' == s.(flags := s.flags - {f}) && d in s.callers
    ensures CallerOk(cfg, s', s.callers[d])
  {
    if s.callers[d].wish.WhileUp? {
      OwedBy(cfg, s', s.callers[d], w);
    } else {
      StillOk(cfg, s, s', s.callers[d]);
    }
  }

  lemma WaitCaller(cfg: Settings, s: System, step: Step, s': System, d: nat)
    requires CallersOk(cfg, s) && DoesWait(cfg, s, step, s') && !step.Lower? && d in s'.callers
    ensures CallerOk(cfg, s', s'.callers[d])
  {
    if d in s.callers && s'.callers[d] == s.callers[d] {
      StillOk(cfg, s, s', s.callers[d]);
    } else if step.Sleep? {
      FallsAsleep(cfg, s, s', s.callers[d]);
    }
  }

  lemma FallsAsleep(cfg: Settings, s: System, s': System, caller: Caller)
    requires CallerOk(cfg, s, caller) && caller.phase.Resolved?
    requires s'.workers == s.workers && Blocked(cfg, s, caller.wish) == Blocked(cfg, s', caller.wish)
    ensures CallerOk(cfg, s', caller.(phase := Sleeping))
  {
    if !Blocked(cfg, s, caller.wish) {
      var w :| 0 <= w < |s.workers| && Owes(s.workers[w], caller.wish, false);
      OwedBy(cfg, s', caller.(phase := Sleeping), w);
    }
  }

  lemma WakeCallersOk(cfg: Settings, s: System, step: Step, s': System)
    requires CallersOk(cfg, s) && DoesWake(cfg, s, step, s')
    ensures CallersOk(cfg, s')
  {
    forall d | d in s'.callers
      ensures CallerOk(cfg, s', s'.callers[d])
    {
      if !s'.callers[d].phase.Looking? {
        StillOk(cfg, s, s', s.callers[d]);
      }
    }
  }

  // ----- Every step -----

  lemma WishesKept(cfg: Settings, s: System, step: Step, s': System)
    requires WishesOk(s) && OneHolder(s)
    requires DoesWait(cfg, s, step, s') || DoesWake(cfg, s, step, s')
    ensures WishesOk(s') && OneHolder(s')
  {
  }

  lemma PushWake(cfg: Settings, s: System, c: nat, s': System)
    requires WakeInv(cfg, s) && DoesPush(cfg, s, c, s')
    ensures WakeInv(cfg, s')
  {
    PushCallers(cfg, s, c, s');
  }

  lemma PickWake(cfg: Settings, s: System, w: nat, s': System)
    requires WakeInv(cfg, s) && DoesPickUp(cfg, s, w, s')
    ensures WakeInv(cfg, s')
  {
    PickCallers(cfg, s, w, s');
    AwakeKeepsWorkers(cfg, s', w);
  }

  lemma ActWake(cfg: Settings, s: System, w: nat, s': System)
    requires WakeInv(cfg, s) && DoesAct(s, w, s')
    ensures WakeInv(cfg, s')
  {
    ActCallers(cfg, s, w, s');
    AwakeKeepsWorkers(cfg, s', w);
  }

  lemma RepayWake(cfg: Settings, s: System, w: nat, s': System)
    requires WakeInv(cfg, s) && DoesRepay(s, w, s')
    ensures WakeInv(cfg, s')
  {
    RepayCallers(cfg, s, w, s');
    AwakeKeepsWorkers(cfg, s', w);
  }

  lemma CompleteWake(cfg: Settings, s: System, w: nat, x: nat, s': System)
    requires WakeInv(cfg, s) && DoesComplete(cfg, s, w, x, s')
    ensures WakeInv(cfg, s')
  {
    WokenByLength(cfg, s, s.workers[w].seqno, x);
    CompleteCallers(cfg, s, w, x, s');
    AwakeKeepsWorkers(cfg, s', w);
  }

  lemma QuietWake(cfg: Settings, s: System, step: Step, s': System)
    requires WakeInv(cfg, s)
    requires DoesWait(cfg, s, step, s') || DoesWake(cfg, s, step, s')
    ensures WakeInv(cfg, s')
  {
    WishesKept(cfg, s, step, s');
    if DoesWait(cfg, s, step, s') {
      WaitKeepsWorkers(cfg, s, step, s');
      WaitCallers(cfg, s, step, s');
    } else {
      WakeKeepsWorkers(cfg, s, step, s');
      WakeCallersOk(cfg, s, step, s');
    }
  }

  lemma StepKeepsWake(cfg: Settings, s: System, step: Step, s': System)
    requires WakeInv(cfg, s) && Next(cfg, s, step, s')
    ensures WakeInv(cfg, s')
  {
    match step
    case PushJob(c) => PushWake(cfg, s, c, s');
    case PickUp(w) => PickWake(cfg, s, w, s');
    case Act(w) => ActWake(cfg, s, w, s');
    case Repay(w) => RepayWake(cfg, s, w, s');
    case Complete(w, x) => CompleteWake(cfg, s, w, x, s');
    case _ => QuietWake(cfg, s, step, s');
  }
}
