/**
 What holds of the apply queue over whole runs: every state reached keeps the invariants, the host is
 serial, the watermark is exact and never falls, nothing the code unwraps is ever missing, and nobody
 sleeps on work.
 */
module ApplyRuns {
  import opened Basics
  import opened Jobs
  import opened Queue
  import opened QueueGraph
  import opened QueueLanes
  import opened QueueInvariant
  import opened ApplySystem
  import opened ApplyWork
  import opened ApplyStore
  import opened ApplyWake

  /** A run: the state before each step, and the steps. Only the first `n` steps are looked at. */
  datatype Trace = Trace(state: nat -> System, step: nat -> Step)

  ghost predicate NextAt(cfg: Settings, run: Trace, i: nat) {
    Next(cfg, run.state(i), run.step(i), run.state(i + 1))
  }

  ghost predicate IsRun(cfg: Settings, init: Store, workers: nat, run: Trace, n: nat) {
    && workers >= 1
    && run.state(0) == Start(init, workers)
    && forall i: nat :: i < n ==> NextAt(cfg, run, i)
  }

  datatype Aspect = TheWork | TheStore | TheWakes

  ghost predicate Keeps(aspect: Aspect, cfg: Settings, init: Store, s: System) {
    match aspect
    case TheWork => WorkInv(cfg, s)
    case TheStore => StoreInv(init, s)
    case TheWakes => WakeInv(cfg, s)
  }

  ghost predicate Good(cfg: Settings, init: Store, s: System) {
    forall a {:trigger Keeps(a, cfg, init, s)} :: Keeps(a, cfg, init, s)
  }

  lemma AllOf(cfg: Settings, init: Store, s: System)
    requires WorkInv(cfg, s) && StoreInv(init, s) && WakeInv(cfg, s)
    ensures Good(cfg, init, s)
  {
  }

  lemma GoodWork(cfg: Settings, init: Store, s: System)
    requires Good(cfg, init, s)
    ensures WorkInv(cfg, s)
  {
    assert Keeps(TheWork, cfg, init, s);
  }

  lemma GoodStore(cfg: Settings, init: Store, s: System)
    requires Good(cfg, init, s)
    ensures StoreInv(init, s)
  {
    assert Keeps(TheStore, cfg, init, s);
  }

  lemma GoodWake(cfg: Settings, init: Store, s: System)
    requires Good(cfg, init, s)
    ensures WakeInv(cfg, s)
  {
    assert Keeps(TheWakes, cfg, init, s);
  }

  lemma PushedIsValid(cfg: Settings, s: System, step: Step, s': System)
    requires WakeInv(cfg, s) && Next(cfg, s, step, s') && step.PushJob?
    ensures step.caller in s.callers && s.callers[step.caller].wish.ToPush? && ValidJob(s.callers[step.caller].wish.job)
  {
    assert WishOk(s.callers[step.caller].wish, s.q.pushed);
  }

  lemma GoodStep(cfg: Settings, init: Store, s: System, step: Step, s': System)
    requires Good(cfg, init, s) && Next(cfg, s, step, s')
    ensures Good(cfg, init, s')
  {
    GoodWork(cfg, init, s);
    GoodStore(cfg, init, s);
    GoodWake(cfg, init, s);
    if step.PushJob? {
      PushedIsValid(cfg, s, step, s');
    }
    StepKeepsWork(cfg, s, step, s');
    StepKeepsStore(cfg, init, s, step, s');
    StepKeepsWake(cfg, s, step, s');
    AllOf(cfg, init, s');
  }

  lemma StartGood(cfg: Settings, init: Store, workers: nat)
    requires workers >= 1
    ensures Good(cfg, init, Start(init, workers))
  {
    StartWork(cfg, init, workers);
    StartWake(cfg, init, workers);
    AllOf(cfg, init, Start(init, workers));
  }

  /** Every state of every run keeps every invariant. */
  lemma {:induction false} RunKeeps(cfg: Settings, init: Store, workers: nat, run: Trace, n: nat)
    requires IsRun(cfg, init, workers, run, n)
    ensures Good(cfg, init, run.state(n))
  {
    if n == 0 {
      StartGood(cfg, init, workers);
    } else {
      RunKeeps(cfg, init, workers, run, n - 1);
      assert NextAt(cfg, run, n - 1);
      GoodStep(cfg, init, run.state(n - 1), run.step(n - 1), run.state(n));
    }
  }

  // ----- Safety of every run -----

  /** An empty queue has made of the host what the jobs in push order, one at a time, would have. */
  lemma Serializable(cfg: Settings, init: Store, workers: nat, run: Trace, n: nat)
    requires IsRun(cfg, init, workers, run, n) && run.state(n).q.graph.incomplete == {}
    ensures run.state(n).store == Serially(init, run.state(n).log)
  {
    RunKeeps(cfg, init, workers, run, n);
    GoodStore(cfg, init, run.state(n));
    EmptyMeansSerial(init, run.state(n));
  }

  /** In every state of every run, an inode no running job names is what the finished jobs in push order make it. */
  lemma EveryInodeSerial(cfg: Settings, init: Store, workers: nat, run: Trace, n: nat, k: Key)
    requires IsRun(cfg, init, workers, run, n)
    requires forall i :: i in run.state(n).running ==> !Names(run.state(n).log, i, k)
    ensures var s := run.state(n);
            At(s.store, k) == At(RunFinished(init, s.log, s.q.graph.incomplete, |s.log|), k)
  {
    RunKeeps(cfg, init, workers, run, n);
    GoodWork(cfg, init, run.state(n));
    GoodStore(cfg, init, run.state(n));
    InodeIsFinished(cfg, init, run.state(n), k);
  }

  /** Waiting for nothing: ready to be picked, or running. */
  ghost predicate Started(s: System, a: nat) {
    a in s.q.graph.slots && s.q.graph.slots[a].waiting == 0
  }

  /** In no state of any run do two jobs that are ready or running share an inode. */
  lemma NeverTogether(cfg: Settings, init: Store, workers: nat, run: Trace, n: nat, a: nat, b: nat)
    requires IsRun(cfg, init, workers, run, n) && a != b
    requires Started(run.state(n), a) && Started(run.state(n), b)
    ensures !Conflict(run.state(n).log, a, b)
  {
    RunKeeps(cfg, init, workers, run, n);
    GoodWork(cfg, init, run.state(n));
    TheQueueIs(cfg, run.state(n));
    Isolation(cfg, run.state(n).q.graph, run.state(n).log, a, b);
  }

  lemma RunQueue(cfg: Settings, init: Store, workers: nat, run: Trace, n: nat)
    requires IsRun(cfg, init, workers, run, n)
    ensures Inv(cfg, run.state(n).q, run.state(n).log)
  {
    RunKeeps(cfg, init, workers, run, n);
    GoodWork(cfg, init, run.state(n));
    TheQueueIs(cfg, run.state(n));
  }

  /** A key has a tail exactly while an incomplete job names it, and the tail is the newest such job. */
  lemma TailIsNewest(cfg: Settings, init: Store, workers: nat, run: Trace, n: nat, k: Key)
    requires IsRun(cfg, init, workers, run, n)
    ensures var s := run.state(n);
            && (k in s.q.graph.tails <==> exists i: nat :: i in s.q.graph.incomplete && Names(s.log, i, k))
            && (k in s.q.graph.tails ==>
                  && s.q.graph.tails[k] in s.q.graph.incomplete && Names(s.log, s.q.graph.tails[k], k)
                  && forall i: nat :: i in s.q.graph.incomplete && Names(s.log, i, k) ==> i <= s.q.graph.tails[k])
  {
    RunQueue(cfg, init, workers, run, n);
    var s := run.state(n);
    assert TailOk(s.q.graph.tails, s.q.graph.incomplete, s.log, k);
  }

  /** A held job waits for as many jobs as there are last unfinished ones before it on its inodes. */
  lemma WaitsForItsPredecessors(cfg: Settings, init: Store, workers: nat, run: Trace, n: nat, i: nat)
    requires IsRun(cfg, init, workers, run, n) && i in run.state(n).q.graph.slots
    ensures var s := run.state(n);
            && s.q.graph.slots[i].waiting == |Preds(s.q.graph.incomplete, s.log, i)|
            && forall t :: t in s.q.graph.slots[i].successors <==> t in s.q.graph.incomplete && i in Preds(s.q.graph.incomplete, s.log, t)
  {
    RunQueue(cfg, init, workers, run, n);
    var s := run.state(n);
    assert i in s.q.graph.incomplete;
    assert SlotOk(cfg, s.q.graph.slots[i], s.q.graph.incomplete, s.log, i);
  }

  /** The bounded lane lists a key once exactly while it has a ready job, one, and none running, and runs no more than its width. */
  lemma BoundedLaneExact(cfg: Settings, init: Store, workers: nat, run: Trace, n: nat, key: nat)
    requires IsRun(cfg, init, workers, run, n)
    ensures var s := run.state(n);
            var v, b := ViewOf(s.q.graph.slots), s.q.lanes.bounded;
            && NoDup(b.readyKeys) && b.count == |b.running| <= cfg.width
            && (key in b.byKey ==> |b.byKey[key]| == 1 && key !in b.running)
            && (key in b.readyKeys <==>
                  && (exists i: nat :: ReadyIn(cfg, s.log, v, Bounded, i) && v[i].key == key)
                  && !(exists i: nat :: RunsIn(cfg, s.log, v, Bounded, i) && v[i].key == key))
  {
    RunQueue(cfg, init, workers, run, n);
    var s := run.state(n);
    ListedExactlyWhenPickable(cfg, s.log, ViewOf(s.q.graph.slots), s.q.lanes, key);
  }

  /** The key a job is queued under in the bounded lane: its first inode with affinity on, a number of its own otherwise. */
  lemma LaneKeyIs(cfg: Settings, init: Store, workers: nat, run: Trace, n: nat, i: nat)
    requires IsRun(cfg, init, workers, run, n) && i in run.state(n).q.graph.slots
    ensures 1 <= i <= |run.state(n).log| && ValidJob(run.state(n).log[i - 1])
    ensures run.state(n).q.graph.slots[i].laneKey == if cfg.affinity then run.state(n).log[i - 1].keys[0] else i
  {
    RunQueue(cfg, init, workers, run, n);
    var s := run.state(n);
    assert i in s.q.graph.incomplete;
    assert SlotOk(cfg, s.q.graph.slots[i], s.q.graph.incomplete, s.log, i);
  }

  /** The watermark is everything pushed if all of it is done, and the number below the oldest unfinished job otherwise. */
  lemma WatermarkIsExact(cfg: Settings, init: Store, workers: nat, run: Trace, n: nat)
    requires IsRun(cfg, init, workers, run, n)
    ensures var q := run.state(n).q;
            if q.graph.incomplete == {} then q.applied == q.pushed else IsLeast(q.graph.incomplete, q.applied + 1)
  {
    RunQueue(cfg, init, workers, run, n);
  }

  /** The oldest unfinished job is ready or running. */
  lemma OldestNeverWaits(cfg: Settings, init: Store, workers: nat, run: Trace, n: nat)
    requires IsRun(cfg, init, workers, run, n) && run.state(n).q.graph.incomplete != {}
    ensures Started(run.state(n), run.state(n).q.applied + 1)
  {
    RunQueue(cfg, init, workers, run, n);
    OldestWaitsForNothing(cfg, run.state(n).q.graph, run.state(n).log);
  }

  /** A worker that may go on never finds missing what the code takes for granted. */
  lemma NeverPanics(cfg: Settings, init: Store, workers: nat, run: Trace, n: nat, w: nat)
    requires IsRun(cfg, init, workers, run, n)
    ensures CanPickUp(cfg, run.state(n), w) ==> PickSafe(cfg, run.state(n))
    ensures CanRepay(run.state(n), w) ==> RepaySafe(run.state(n), w)
    ensures w < |run.state(n).workers| && run.state(n).workers[w].Finishing? ==> CompleteSafe(cfg, run.state(n), w)
  {
    RunKeeps(cfg, init, workers, run, n);
    var s := run.state(n);
    GoodWork(cfg, init, s);
    if CanPickUp(cfg, s, w) {
      PickNeverPanics(cfg, s, w);
    } else if CanRepay(s, w) {
      RepayNeverWraps(cfg, s, w);
    } else if w < |s.workers| && s.workers[w].Finishing? {
      CompleteNeverPanics(cfg, s, w);
    }
  }

  // ----- The watermark -----

  lemma CompleteRaises(cfg: Settings, s: System, w: nat, x: nat, s': System)
    requires WorkInv(cfg, s) && DoesComplete(cfg, s, w, x, s')
    ensures s.q.applied <= s'.q.applied
  {
    var n := s.workers[w].seqno;
    assert s.q.graph.slots[n].job.None? by {
      assert Holds(TheStaff, cfg, s);
      WorkedIsTaken(s, w);
    }
    assert Inv(cfg, s.q, s.log) by {
      TheQueueIs(cfg, s);
    }
    WatermarkRises(cfg, s.q, s.log, n);
    CompletedParts(cfg, s, w, x, n);
  }

  lemma StepRaises(cfg: Settings, s: System, step: Step, s': System)
    requires WorkInv(cfg, s) && Next(cfg, s, step, s')
    ensures s.q.applied <= s'.q.applied
    ensures s.log <= s'.log
  {
    match step
    case Complete(w, x) => CompleteRaises(cfg, s, w, x, s');
    case PushJob(_) =>
    case PickUp(_) =>
    case Act(_) =>
    case Repay(_) =>
    case _ => QuietSteps(cfg, s, step, s');
  }

  lemma {:induction false} WatermarkNeverFalls(cfg: Settings, init: Store, workers: nat, run: Trace, m: nat, n: nat)
    requires IsRun(cfg, init, workers, run, n) && m <= n
    ensures run.state(m).q.applied <= run.state(n).q.applied
    ensures run.state(m).log <= run.state(n).log
    decreases n
  {
    if m < n {
      WatermarkNeverFalls(cfg, init, workers, run, m, n - 1);
      RunKeeps(cfg, init, workers, run, n - 1);
      GoodWork(cfg, init, run.state(n - 1));
      assert NextAt(cfg, run, n - 1);
      StepRaises(cfg, run.state(n - 1), run.step(n - 1), run.state(n));
    }
  }

  /** The step at which a barrier to `seqno` returns. */
  ghost predicate DrainReturns(run: Trace, m: nat, seqno: nat) {
    && run.step(m).Return?
    && run.step(m).caller in run.state(m).callers
    && run.state(m).callers[run.step(m).caller].wish == ToDrain(seqno)
  }

  lemma DrainedIsApplied(cfg: Settings, init: Store, workers: nat, run: Trace, m: nat, n: nat, seqno: nat)
    requires IsRun(cfg, init, workers, run, n) && m < n && DrainReturns(run, m, seqno)
    ensures seqno <= run.state(n).q.applied
  {
    assert NextAt(cfg, run, m);
    ReturnMeansApplied(cfg, run.state(m), run.step(m).caller, seqno, run.state(m + 1));
    WatermarkNeverFalls(cfg, init, workers, run, m, n);
  }

  /** Once a barrier to `seqno` has returned, no job up to `seqno` is ever incomplete again. */
  lemma DrainedStays(cfg: Settings, init: Store, workers: nat, run: Trace, m: nat, n: nat, seqno: nat, i: nat)
    requires IsRun(cfg, init, workers, run, n) && m < n && DrainReturns(run, m, seqno)
    requires i <= seqno
    ensures i !in run.state(n).q.graph.incomplete
  {
    DrainedIsApplied(cfg, init, workers, run, m, n, seqno);
    RunKeeps(cfg, init, workers, run, n);
    GoodWork(cfg, init, run.state(n));
    IncompleteAbove(cfg, run.state(n), i);
  }

  /** And an inode that no later job names holds what the jobs up to `seqno`, one at a time in push order, make it. */
  lemma DrainedHolds(cfg: Settings, init: Store, workers: nat, run: Trace, m: nat, n: nat, seqno: nat, k: Key)
    requires IsRun(cfg, init, workers, run, n) && m < n && DrainReturns(run, m, seqno)
    requires forall i: nat :: seqno < i <= |run.state(n).log| ==> !Names(run.state(n).log, i, k)
    ensures seqno <= |run.state(n).log|
    ensures At(run.state(n).store, k) == At(Serially(init, run.state(n).log[..seqno]), k)
  {
    DrainedIsApplied(cfg, init, workers, run, m, n, seqno);
    RunKeeps(cfg, init, workers, run, n);
    GoodWork(cfg, init, run.state(n));
    GoodStore(cfg, init, run.state(n));
    DrainedPrefix(cfg, init, run.state(n), seqno, k);
  }

  lemma ReturnMeansApplied(cfg: Settings, s: System, c: nat, seqno: nat, s': System)
    requires Next(cfg, s, Return(c), s') && c in s.callers && s.callers[c].wish == ToDrain(seqno)
    ensures seqno <= s.q.applied
  {
  }

  // ----- Nobody sleeps on work -----

  /** With nothing incomplete there is nothing to wait for: whatever a caller waits on, there is work ahead of it. */
  lemma EmptyUnblocks(cfg: Settings, s: System, wish: Wish)
    requires WorkInv(cfg, s) && WishOk(wish, s.q.pushed)
    requires s.q.graph.incomplete == {}
    ensures !Blocked(cfg, s, wish)
  {
    assert s.q.depth == 0 && s.q.applied == s.q.pushed by {
      TheQueueIs(cfg, s);
    }
    assert s.bytes == 0 by {
      assert Holds(ThePay, cfg, s);
      SumZero(Payloads(s.log, s.unpaid), |s.log|);
    }
  }

  /** Whoever must wait, on the window, the byte cap, a watermark or a flag, has unfinished work ahead. */
  lemma BlockedHasWork(cfg: Settings, init: Store, workers: nat, run: Trace, n: nat, c: nat)
    requires IsRun(cfg, init, workers, run, n) && c in run.state(n).callers
    requires match run.state(n).callers[c].wish
             case ToPush(_) => run.state(n).bytes > cfg.cap || run.state(n).q.depth > cfg.window
             case ToDrain(k) => run.state(n).q.applied < k
             case WhileUp(f) => f in run.state(n).flags && run.state(n).q.depth > 0
    ensures run.state(n).q.graph.incomplete != {}
  {
    RunKeeps(cfg, init, workers, run, n);
    GoodWork(cfg, init, run.state(n));
    GoodWake(cfg, init, run.state(n));
    if run.state(n).q.graph.incomplete == {} {
      EmptyUnblocks(cfg, run.state(n), run.state(n).callers[c].wish);
    }
  }

  /** Nothing runs if every worker sleeps. */
  lemma AsleepMeansNothingRuns(cfg: Settings, s: System)
    requires WorkInv(cfg, s)
    requires forall w :: 0 <= w < |s.workers| ==> !s.workers[w].Running? && !s.workers[w].Finishing?
    ensures forall i :: i in s.q.graph.slots ==> s.q.graph.slots[i].job.Some?
  {
    assert Holds(TheStaff, cfg, s);
  }

  /** Work that nobody runs can be picked. */
  lemma IdleMeansPickable(cfg: Settings, s: System)
    requires WorkInv(cfg, s) && cfg.width >= 1 && s.q.graph.incomplete != {}
    requires forall w :: 0 <= w < |s.workers| ==> !s.workers[w].Running? && !s.workers[w].Finishing?
    ensures Pickable(cfg, s.q.lanes)
  {
    AsleepMeansNothingRuns(cfg, s);
    assert Inv(cfg, s.q, s.log) by {
      TheQueueIs(cfg, s);
    }
    Progress(cfg, s.q, s.log);
  }

  /**
   No wake-up is lost: a job that could be picked has a worker awake or a notification on its way,
   and a caller asleep on what has come true has a worker still to announce it.
   */
  lemma NoLostWakeUp(cfg: Settings, init: Store, workers: nat, run: Trace, n: nat, c: nat)
    requires IsRun(cfg, init, workers, run, n)
    ensures var s := run.state(n);
            && (!s.q.held && Pickable(cfg, s.q.lanes) ==> Attended(s.workers, s.oweOne, s.oweAll))
            && (IsCaller(s, c, Sleeping) && !Blocked(cfg, s, s.callers[c].wish) ==> Owed(s.workers, s.callers[c].wish, true))
  {
    RunKeeps(cfg, init, workers, run, n);
    GoodWake(cfg, init, run.state(n));
    if c in run.state(n).callers {
      assert CallerOk(cfg, run.state(n), run.state(n).callers[c]);
    }
  }

  /** If every worker sleeps and no notification is on its way, there is no work left and nobody waits. */
  lemma NoStall(cfg: Settings, init: Store, workers: nat, run: Trace, n: nat)
    requires IsRun(cfg, init, workers, run, n) && cfg.width >= 1
    requires !run.state(n).q.held && run.state(n).oweOne == 0 && run.state(n).oweAll == 0
    requires forall w :: 0 <= w < |run.state(n).workers| ==> run.state(n).workers[w].Asleep?
    ensures run.state(n).q.graph.incomplete == {}
    ensures forall c :: c in run.state(n).callers ==> run.state(n).callers[c].phase.Looking?
  {
    var s := run.state(n);
    RunKeeps(cfg, init, workers, run, n);
    GoodWork(cfg, init, s);
    GoodWake(cfg, init, s);
    if s.q.graph.incomplete != {} {
      IdleMeansPickable(cfg, s);
      assert false;
    }
    forall c | c in s.callers
      ensures s.callers[c].phase.Looking?
    {
      EmptyUnblocks(cfg, s, s.callers[c].wish);
      assert CallerOk(cfg, s, s.callers[c]);
    }
  }
}
