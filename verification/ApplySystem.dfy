/**
 The apply queue with its threads: a pool of workers, and callers blocked in
 `push`, `drain_to` and `wait_while`. A step is one critical section, or one
 action taken outside the lock; any interleaving of them is a run.
 */
module ApplySystem {
  import opened Jobs
  import opened Queue
  import opened QueueLanes

  /**
   Where a worker is: before its look at the queue, waiting on `arrived`, running a
   job, past the job with the payload given back, or past the completion section
   with `settled` still to be notified.
   */
  datatype Worker = Idle | Asleep | Running(seqno: nat) | Finishing(seqno: nat) | Settling {
    ghost predicate Holds(s: nat) {
      (Running? || Finishing?) && seqno == s
    }
  }

  /** What a caller waits for: room to push, a watermark, or a flag of an inode to go down. */
  datatype Wish = ToPush(job: Job) | ToDrain(seqno: nat) | WhileUp(flag: nat)

  /**
   A caller takes the lock and looks (`Looking`); if it must wait it still holds
   the lock (`Resolved`) until it sleeps on `settled` (`Sleeping`). Bytes and
   flags change without the lock, so they may change in between.
   */
  datatype Phase = Looking | Resolved | Sleeping
  datatype Caller = Caller(wish: Wish, phase: Phase)

  /** A running job: whose it is, and how many effects it has had on the host. */
  datatype Run = Run(worker: nat, done: nat)

  datatype System = System(
    q: State,
    /** Every job ever pushed; job `s` is `log[s - 1]`. */
    log: seq<Job>,
    /** The payload counter, and the jobs whose payload it still counts. */
    bytes: nat,
    unpaid: set<nat>,
    /** The host, and the jobs running on it. */
    store: Store,
    running: map<nat, Run>,
    flags: set<nat>,
    workers: seq<Worker>,
    callers: map<nat, Caller>,
    /** Notifications of `arrived` announced after the lock was let go and not yet delivered. */
    oweOne: nat,
    oweAll: nat
  )

  datatype Step =
    | Call(caller: nat, wish: Wish)
    | Resolve(caller: nat)
    | Sleep(caller: nat)
    | Stir(caller: nat)
    | Return(caller: nat)
    | PushJob(caller: nat)
    | NotifyOne(worker: nat)
    | NotifyAll
    | Wake(worker: nat)
    | Doze(worker: nat)
    | PickUp(worker: nat)
    | Act(worker: nat)
    | Lower(worker: nat, flag: nat)
    | Repay(worker: nat)
    | Complete(worker: nat, woken: nat)
    | Announce(worker: nat)
    | Raise(flag: nat)
    | HoldQueue
    | ReleaseQueue

  ghost function Start(store: Store, workers: nat): System {
    System(INITIAL, [], 0, {}, store, map[], {}, seq(workers, _ => Idle), map[], 0, 0)
  }

  /** Whether a caller must wait. */
  ghost predicate Blocked(cfg: Settings, s: System, wish: Wish) {
    match wish
    case ToPush(_) => s.bytes > cfg.cap || s.q.depth > cfg.window
    case ToDrain(n) => s.q.applied < n
    case WhileUp(f) => f in s.flags && s.q.depth != 0
  }

  ghost predicate LockFree(s: System) {
    forall c :: c in s.callers ==> !s.callers[c].phase.Resolved?
  }

  ghost predicate IsWorker(s: System, w: nat, at: Worker) {
    w < |s.workers| && s.workers[w] == at
  }

  ghost predicate IsCaller(s: System, c: nat, phase: Phase) {
    c in s.callers && s.callers[c].phase == phase
  }

  ghost predicate AllBusy(workers: seq<Worker>) {
    forall w :: 0 <= w < |workers| ==> !workers[w].Asleep?
  }

  ghost function WakeAll(workers: seq<Worker>): (r: seq<Worker>)
    ensures |r| == |workers|
    ensures forall w :: 0 <= w < |workers| ==> r[w] == if workers[w].Asleep? then Idle else workers[w]
  {
    seq(|workers|, w requires 0 <= w < |workers| => if workers[w].Asleep? then Idle else workers[w])
  }

  /** `notify_one`: a sleeping worker of the scheduler's choosing, or nobody if none sleeps. */
  ghost predicate MayWake(workers: seq<Worker>, w: nat) {
    (w < |workers| && workers[w].Asleep?) || AllBusy(workers)
  }

  ghost function WakeOne(workers: seq<Worker>, w: nat): seq<Worker> {
    if w < |workers| && workers[w].Asleep? then workers[w := Idle] else workers
  }

  ghost function WakeCallers(callers: map<nat, Caller>): map<nat, Caller> {
    map c | c in callers :: if callers[c].phase.Sleeping? then callers[c].(phase := Looking) else callers[c]
  }

  /** How many jobs outside the serial lane a completion makes ready. */
  ghost function ClonesReady(cfg: Settings, slots: map<nat, Slot>, nexts: seq<nat>): nat {
    if nexts == [] then 0
    else
      var s := nexts[|nexts| - 1];
      ClonesReady(cfg, slots, nexts[..|nexts| - 1]) +
      if s in slots && slots[s].waiting == 0 && SlotLane(cfg, slots[s]) != Serial then 1 else 0
  }

  ghost function WokenBy(cfg: Settings, s: System, f: nat, w: nat): seq<Worker>
    requires f in s.q.graph.slots
  {
    var n := ClonesReady(cfg, ReleasedSlots(s.q.graph.slots, f), s.q.graph.slots[f].successors);
    if n == 0 then s.workers else if n == 1 then WakeOne(s.workers, w) else WakeAll(s.workers)
  }

  ghost predicate IsJob(s: System, n: nat) {
    1 <= n <= |s.log| && n in s.running && s.running[n].done <= |s.log[n - 1].effects|
  }

  ghost predicate Works(s: System, w: nat) {
    w < |s.workers| && s.workers[w].Running? && IsJob(s, s.workers[w].seqno)
  }

  ghost predicate Worked(s: System, w: nat) {
    w < |s.workers| && s.workers[w].Finishing? && IsJob(s, s.workers[w].seqno)
  }

  ghost function Pushed(cfg: Settings, s: System, c: nat): System
    requires c in s.callers && s.callers[c].wish.ToPush?
  {
    var job := s.callers[c].wish.job;
    s.(q := Push(cfg, s.q, job), log := s.log + [job], bytes := s.bytes + job.bytes,
       unpaid := s.unpaid + {s.q.pushed + 1}, callers := s.callers - {c}, oweOne := s.oweOne + 1)
  }

  ghost function PickedUp(cfg: Settings, s: System, w: nat): System
    requires w < |s.workers|
    requires CanChoose(cfg, s.q.lanes) && Choose(cfg, s.q.lanes).1 in s.q.graph.slots
  {
    var (q', n) := Pick(cfg, s.q);
    s.(q := q', running := s.running[n := Run(w, 0)], workers := s.workers[w := Running(n)])
  }

  ghost function Acted(s: System, w: nat): System
    requires Works(s, w) && s.running[s.workers[w].seqno].done < |s.log[s.workers[w].seqno - 1].effects|
  {
    var n := s.workers[w].seqno;
    var job, done := s.log[n - 1], s.running[n].done;
    s.(store := Perform(s.store, job.KeySet(), job.effects[done]), running := s.running[n := s.running[n].(done := done + 1)])
  }

  ghost function Repaid(s: System, w: nat): System
    requires Works(s, w) && s.log[s.workers[w].seqno - 1].bytes <= s.bytes
  {
    var n := s.workers[w].seqno;
    s.(bytes := s.bytes - s.log[n - 1].bytes, unpaid := s.unpaid - {n}, workers := s.workers[w := Finishing(n)])
  }

  ghost function Completed(cfg: Settings, s: System, w: nat, x: nat): System
    requires Worked(s, w) && CanFinish(cfg, s.q, s.workers[w].seqno, s.log[s.workers[w].seqno - 1])
  {
    var n := s.workers[w].seqno;
    s.(q := Finish(cfg, s.q, n, s.log[n - 1]),
       running := s.running - {n},
       workers := WokenBy(cfg, s, n, x)[w := Settling])
  }

  // ----- The steps that move work -----

  ghost predicate CanPush(cfg: Settings, s: System, c: nat) {
    LockFree(s) && IsCaller(s, c, Looking) && s.callers[c].wish.ToPush? && !Blocked(cfg, s, s.callers[c].wish)
  }

  ghost predicate DoesPush(cfg: Settings, s: System, c: nat, s': System) {
    CanPush(cfg, s, c) && s' == Pushed(cfg, s, c)
  }

  ghost predicate CanPickUp(cfg: Settings, s: System, w: nat) {
    LockFree(s) && IsWorker(s, w, Idle) && !s.q.held && Pickable(cfg, s.q.lanes)
  }

  /** What a pick expects to find: a listed key has a job, and the job chosen is held and untaken. */
  ghost predicate PickSafe(cfg: Settings, s: System) {
    && CanChoose(cfg, s.q.lanes)
    && Choose(cfg, s.q.lanes).1 in s.q.graph.slots
    && s.q.graph.slots[Choose(cfg, s.q.lanes).1].job.Some?
  }

  ghost predicate DoesPickUp(cfg: Settings, s: System, w: nat, s': System) {
    CanPickUp(cfg, s, w) && PickSafe(cfg, s) && s' == PickedUp(cfg, s, w)
  }

  /** A job acts until it has had all its effects, and gives its payload back only then. */
  ghost predicate CanAct(s: System, w: nat) {
    Works(s, w) && s.running[s.workers[w].seqno].done < |s.log[s.workers[w].seqno - 1].effects|
  }

  ghost predicate DoesAct(s: System, w: nat, s': System) {
    CanAct(s, w) && s' == Acted(s, w)
  }

  ghost predicate CanRepay(s: System, w: nat) {
    Works(s, w) && s.running[s.workers[w].seqno].done == |s.log[s.workers[w].seqno - 1].effects|
  }

  /** The payload counter does not wrap below zero. */
  ghost predicate RepaySafe(s: System, w: nat) {
    Works(s, w) && s.log[s.workers[w].seqno - 1].bytes <= s.bytes
  }

  ghost predicate DoesRepay(s: System, w: nat, s': System) {
    CanRepay(s, w) && RepaySafe(s, w) && s' == Repaid(s, w)
  }

  ghost predicate CanComplete(s: System, w: nat, x: nat) {
    LockFree(s) && Worked(s, w) && MayWake(s.workers, x)
  }

  /** What a completion expects to find of its job, its successors and its lane. */
  ghost predicate CompleteSafe(cfg: Settings, s: System, w: nat) {
    Worked(s, w) && CanFinish(cfg, s.q, s.workers[w].seqno, s.log[s.workers[w].seqno - 1])
  }

  ghost predicate DoesComplete(cfg: Settings, s: System, w: nat, x: nat, s': System) {
    CanComplete(s, w, x) && CompleteSafe(cfg, s, w) && s' == Completed(cfg, s, w, x)
  }

  // ----- The steps that move threads -----

  ghost predicate DoesWait(cfg: Settings, s: System, step: Step, s': System) {
    match step
    case Call(c, wish) =>
      && c !in s.callers
      && (wish.ToPush? ==> ValidJob(wish.job))
      && (wish.ToDrain? ==> wish.seqno <= s.q.pushed)
      && s' == s.(callers := s.callers[c := Caller(wish, Looking)])
    case Resolve(c) =>
      && LockFree(s) && IsCaller(s, c, Looking) && Blocked(cfg, s, s.callers[c].wish)
      && s' == s.(callers := s.callers[c := s.callers[c].(phase := Resolved)])
    case Sleep(c) => IsCaller(s, c, Resolved) && s' == s.(callers := s.callers[c := s.callers[c].(phase := Sleeping)])
    case Stir(c) => IsCaller(s, c, Sleeping) && s' == s.(callers := s.callers[c := s.callers[c].(phase := Looking)])
    case Return(c) =>
      && IsCaller(s, c, Looking) && !s.callers[c].wish.ToPush? && !Blocked(cfg, s, s.callers[c].wish)
      && s' == s.(callers := s.callers - {c})
    case Raise(f) => s' == s.(flags := s.flags + {f})
    case Lower(w, f) => Works(s, w) && s' == s.(flags := s.flags - {f})
    case _ => false
  }

  ghost predicate DoesWake(cfg: Settings, s: System, step: Step, s': System) {
    match step
    case NotifyOne(w) =>
      s.oweOne > 0 && MayWake(s.workers, w) && s' == s.(workers := WakeOne(s.workers, w), oweOne := s.oweOne - 1)
    case NotifyAll => s.oweAll > 0 && s' == s.(workers := WakeAll(s.workers), oweAll := s.oweAll - 1)
    case Wake(w) => IsWorker(s, w, Asleep) && s' == s.(workers := s.workers[w := Idle])
    case Doze(w) =>
      && LockFree(s) && IsWorker(s, w, Idle) && (s.q.held || !Pickable(cfg, s.q.lanes))
      && s' == s.(workers := s.workers[w := Asleep])
    case Announce(w) => IsWorker(s, w, Settling) && s' == s.(workers := s.workers[w := Idle], callers := WakeCallers(s.callers))
    case HoldQueue => LockFree(s) && s' == s.(q := s.q.(held := true))
    case ReleaseQueue => LockFree(s) && s' == s.(q := s.q.(held := false), oweAll := s.oweAll + 1)
    case _ => false
  }

  ghost predicate Next(cfg: Settings, s: System, step: Step, s': System) {
    match step
    case PushJob(c) => DoesPush(cfg, s, c, s')
    case PickUp(w) => DoesPickUp(cfg, s, w, s')
    case Act(w) => DoesAct(s, w, s')
    case Repay(w) => DoesRepay(s, w, s')
    case Complete(w, x) => DoesComplete(cfg, s, w, x, s')
    case _ => DoesWait(cfg, s, step, s') || DoesWake(cfg, s, step, s')
  }
}
