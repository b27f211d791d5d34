/**
 What makes a caller of the apply queue wait, and a worker: how much the queue may hold, who is let
 through and when, what a hold stops, and whom a completion wakes. Over whole runs, in terms of the
 counters, the flags and the jobs alone.
 */
module ApplyLimits {
  import opened Jobs
  import opened Queue
  import opened QueueGraph
  import opened QueueLanes
  import opened QueueInvariant
  import opened ApplySystem
  import opened ApplyWork
  import opened ApplyRuns
  import opened ApplyOrder

  // ----- Room to push -----

  /** `push` lets a job in only while the payload is within the cap and the jobs within the window. */
  lemma PushesWithRoom(cfg: Settings, init: Store, workers: nat, run: Trace, n: nat)
    requires IsRun(cfg, init, workers, run, n + 1) && run.step(n).PushJob?
    ensures run.state(n).bytes <= cfg.cap && run.state(n).q.depth <= cfg.window
  {
    assert NextAt(cfg, run, n);
  }

  /** It waits only while the payload is over the cap or the jobs over the window. */
  lemma WaitsWithoutRoom(cfg: Settings, init: Store, workers: nat, run: Trace, n: nat, c: nat)
    requires IsRun(cfg, init, workers, run, n + 1) && run.step(n) == Resolve(c)
    requires c in run.state(n).callers && run.state(n).callers[c].wish.ToPush?
    ensures run.state(n).bytes > cfg.cap || run.state(n).q.depth > cfg.window
  {
    assert NextAt(cfg, run, n);
  }

  /** No job pushed brings more than `most` bytes. */
  ghost predicate AtMost(log: seq<Job>, most: nat) {
    forall i :: 0 <= i < |log| ==> log[i].bytes <= most
  }

  lemma StepLimits(cfg: Settings, s: System, step: Step, s': System, most: nat)
    requires WorkInv(cfg, s) && Next(cfg, s, step, s') && AtMost(s'.log, most)
    requires s.bytes <= cfg.cap + most && s.q.depth <= cfg.window + 1
    ensures s'.bytes <= cfg.cap + most && s'.q.depth <= cfg.window + 1
  {
    match step
    case PickUp(_) =>
    case Complete(w, x) => CompletedParts(cfg, s, w, x, s.workers[w].seqno);
    case PushJob(c) => assert s'.log[|s.log|] == s.callers[c].wish.job;
    case Act(_) =>
    case Repay(_) =>
    case _ => QuietSteps(cfg, s, step, s');
  }

  /** So the queue never holds more than one job over its window, nor more payload than the cap and one job. */
  lemma {:induction false} QueueIsLimited(cfg: Settings, init: Store, workers: nat, run: Trace, n: nat, most: nat)
    requires IsRun(cfg, init, workers, run, n) && AtMost(run.state(n).log, most)
    ensures |run.state(n).q.graph.incomplete| <= cfg.window + 1 && run.state(n).q.depth <= cfg.window + 1
    ensures run.state(n).bytes <= cfg.cap + most
  {
    RunQueue(cfg, init, workers, run, n);
    if n > 0 {
      var s, s' := run.state(n - 1), run.state(n);
      WatermarkNeverFalls(cfg, init, workers, run, n - 1, n);
      assert forall i :: 0 <= i < |s.log| ==> s.log[i] == s'.log[i];
      QueueIsLimited(cfg, init, workers, run, n - 1, most);
      RunKeeps(cfg, init, workers, run, n - 1);
      GoodWork(cfg, init, s);
      assert NextAt(cfg, run, n - 1);
      StepLimits(cfg, s, run.step(n - 1), s', most);
    }
  }

  // ----- Who may go on -----

  ghost predicate May(cfg: Settings, s: System, step: Step) {
    exists s' :: Next(cfg, s, step, s')
  }

  /**
   A caller at its look goes on or waits, by the state and by nothing else: a push with room under the
   cap and the window, a barrier once the watermark is there, a wait once its flag is down or the queue empty.
   */
  lemma GoesOnOrWaits(cfg: Settings, s: System, c: nat)
    requires LockFree(s) && IsCaller(s, c, Looking)
    ensures match s.callers[c].wish
            case ToPush(_) =>
              && (May(cfg, s, PushJob(c)) <==> s.bytes <= cfg.cap && s.q.depth <= cfg.window)
              && (May(cfg, s, Resolve(c)) <==> !(s.bytes <= cfg.cap && s.q.depth <= cfg.window))
            case ToDrain(k) =>
              && (May(cfg, s, Return(c)) <==> k <= s.q.applied)
              && (May(cfg, s, Resolve(c)) <==> s.q.applied < k)
            case WhileUp(f) =>
              && (May(cfg, s, Return(c)) <==> f !in s.flags || s.q.depth == 0)
              && (May(cfg, s, Resolve(c)) <==> f in s.flags && s.q.depth > 0)
  {
    var wish := s.callers[c].wish;
    var waits := s.(callers := s.callers[c := s.callers[c].(phase := Resolved)]);
    if Blocked(cfg, s, wish) {
      assert Next(cfg, s, Resolve(c), waits);
    } else if wish.ToPush? {
      assert Next(cfg, s, PushJob(c), Pushed(cfg, s, c));
    } else {
      assert Next(cfg, s, Return(c), s.(callers := s.callers - {c}));
    }
  }

  // ----- A hold -----

  lemma {:induction false} StaysHeld(cfg: Settings, run: Trace, i: nat, n: nat)
    requires i <= n && (forall j: nat :: i <= j < n ==> NextAt(cfg, run, j)) && run.state(i).q.held
    requires forall j: nat :: i <= j < n ==> !run.step(j).ReleaseQueue?
    ensures run.state(n).q.held
    decreases n
  {
    if i < n {
      StaysHeld(cfg, run, i, n - 1);
      assert NextAt(cfg, run, n - 1);
      HeldStep(cfg, run.state(n - 1), run.step(n - 1), run.state(n));
    }
  }

  lemma HeldStep(cfg: Settings, s: System, step: Step, s': System)
    requires Next(cfg, s, step, s') && s.q.held && !step.ReleaseQueue?
    ensures s'.q.held && !step.PickUp?
  {
  }

  /** From a hold to the next release no job is taken. */
  lemma HeldTakesNothing(cfg: Settings, init: Store, workers: nat, run: Trace, i: nat, n: nat)
    requires IsRun(cfg, init, workers, run, n + 1) && i < n && run.step(i).HoldQueue?
    requires forall j: nat :: i < j < n ==> !run.step(j).ReleaseQueue?
    ensures !run.step(n).PickUp?
  {
    assert NextAt(cfg, run, i);
    StaysHeld(cfg, run, i + 1, n);
    assert NextAt(cfg, run, n);
  }

  // ----- Whom a completion wakes -----

  /** Becomes ready in the step, outside the serial lane. */
  ghost predicate Readied(cfg: Settings, s: System, s': System, a: nat) {
    !Ready(s.q, a) && Ready(s'.q, a) && LaneAt(cfg, s.log, a) != Serial
  }

  /** Counted by the completion. */
  ghost predicate Counts(cfg: Settings, slots: map<nat, Slot>, t: nat) {
    t in slots && slots[t].waiting == 0 && SlotLane(cfg, slots[t]) != Serial
  }

  lemma {:induction false} CountsNone(cfg: Settings, slots: map<nat, Slot>, nexts: seq<nat>)
    requires forall t :: t in nexts ==> !Counts(cfg, slots, t)
    ensures ClonesReady(cfg, slots, nexts) == 0
  {
    if nexts != [] {
      assert !Counts(cfg, slots, nexts[|nexts| - 1]);
      CountsNone(cfg, slots, nexts[..|nexts| - 1]);
    }
  }

  lemma {:induction false} CountsOne(cfg: Settings, slots: map<nat, Slot>, nexts: seq<nat>, a: nat)
    requires a in nexts && Counts(cfg, slots, a)
    ensures ClonesReady(cfg, slots, nexts) >= 1
  {
    var n := |nexts| - 1;
    if nexts[n] != a {
      assert a in nexts[..n];
      CountsOne(cfg, slots, nexts[..n], a);
    }
  }

  lemma {:induction false} CountsTwo(cfg: Settings, slots: map<nat, Slot>, nexts: seq<nat>, a: nat, b: nat)
    requires a in nexts && b in nexts && a != b && Counts(cfg, slots, a) && Counts(cfg, slots, b)
    ensures ClonesReady(cfg, slots, nexts) >= 2
  {
    var n := |nexts| - 1;
    var front := nexts[..n];
    assert forall t :: t in nexts && t != nexts[n] ==> t in front;
    if nexts[n] == a {
      CountsOne(cfg, slots, front, b);
    } else if nexts[n] == b {
      CountsOne(cfg, slots, front, a);
    } else {
      CountsTwo(cfg, slots, front, a, b);
    }
  }

  lemma {:induction false} CountsOnly(cfg: Settings, slots: map<nat, Slot>, nexts: seq<nat>, a: nat)
    requires Rising(nexts) && forall t :: t in nexts && t != a ==> !Counts(cfg, slots, t)
    ensures ClonesReady(cfg, slots, nexts) <= 1
  {
    if nexts != [] {
      var n := |nexts| - 1;
      if nexts[n] == a {
        assert a !in nexts[..n];
        CountsNone(cfg, slots, nexts[..n]);
      } else {
        assert !Counts(cfg, slots, nexts[n]);
        CountsOnly(cfg, slots, nexts[..n], a);
      }
    }
  }

  /** The jobs the completion counts are those it makes ready outside the serial lane. */
  lemma CountsReadied(cfg: Settings, s: System, w: nat, x: nat, s': System, t: nat)
    requires Inv(cfg, s.q, s.log) && DoesComplete(cfg, s, w, x, s')
    ensures var f := s.workers[w].seqno;
            t in s.q.graph.slots[f].successors && Counts(cfg, ReleasedSlots(s.q.graph.slots, f), t) <==> Readied(cfg, s, s', t)
  {
    var f := s.workers[w].seqno;
    CompletedParts(cfg, s, w, x, f);
    if Readied(cfg, s, s', t) {
      BecomesReady(cfg, s, Complete(w, x), s', t);
    }
    if t in s.q.graph.slots[f].successors {
      ReleasedAreTheirJobs(cfg, s.q.graph, s.log, f, t);
      SuccessorsWait(cfg, s.q.graph, s.log, f, t);
    }
  }

  /** Nobody but these, if anybody, does anything else than before. */
  ghost predicate OthersAsBefore(s: System, s': System, but: set<nat>) {
    |s'.workers| == |s.workers| && forall v :: 0 <= v < |s.workers| && v !in but ==> s'.workers[v] == s.workers[v]
  }

  ghost predicate Woken(s: System, s': System, x: nat) {
    IsWorker(s, x, Asleep) && IsWorker(s', x, Idle)
  }

  lemma WakesBy(cfg: Settings, s: System, w: nat, x: nat, s': System)
    requires DoesComplete(cfg, s, w, x, s')
    ensures var f := s.workers[w].seqno;
            var n := ClonesReady(cfg, ReleasedSlots(s.q.graph.slots, f), s.q.graph.slots[f].successors);
            && (n == 0 ==> OthersAsBefore(s, s', {w}))
            && (n == 1 ==> AllBusy(s'.workers) || Woken(s, s', x))
            && (n <= 1 ==> OthersAsBefore(s, s', {w, x}))
            && (n >= 2 ==> AllBusy(s'.workers))
  {
  }

  /**
   A completion that makes several jobs ready outside the serial lane leaves no worker asleep; one that makes one
   ready wakes one worker if any sleeps, and no other; one that makes none ready wakes nobody.
   */
  lemma CompletionWakes(cfg: Settings, init: Store, workers: nat, run: Trace, n: nat, w: nat, x: nat, a: nat)
    requires IsRun(cfg, init, workers, run, n + 1) && run.step(n) == Complete(w, x)
    ensures var s, s' := run.state(n), run.state(n + 1);
            && ((forall t :: !Readied(cfg, s, s', t)) ==> OthersAsBefore(s, s', {w}))
            && (Readied(cfg, s, s', a) ==> AllBusy(s'.workers) || Woken(s, s', x))
            && ((forall t :: Readied(cfg, s, s', t) ==> t == a) ==> OthersAsBefore(s, s', {w, x}))
            && ((exists b :: b != a && Readied(cfg, s, s', a) && Readied(cfg, s, s', b)) ==> AllBusy(s'.workers))
  {
    var s, s' := run.state(n), run.state(n + 1);
    assert NextAt(cfg, run, n);
    RunQueue(cfg, init, workers, run, n);
    RunRising(cfg, init, workers, run, n);
    var f := s.workers[w].seqno;
    var slots, nexts := ReleasedSlots(s.q.graph.slots, f), s.q.graph.slots[f].successors;
    WakesBy(cfg, s, w, x, s');
    forall t
      ensures t in nexts && Counts(cfg, slots, t) <==> Readied(cfg, s, s', t)
    {
      CountsReadied(cfg, s, w, x, s', t);
    }
    if forall t :: !Readied(cfg, s, s', t) {
      CountsNone(cfg, slots, nexts);
    }
    if forall t :: Readied(cfg, s, s', t) ==> t == a {
      CountsOnly(cfg, slots, nexts, a);
    }
    if Readied(cfg, s, s', a) {
      CountsOne(cfg, slots, nexts, a);
      if b :| b != a && Readied(cfg, s, s', b) {
        CountsTwo(cfg, slots, nexts, a, b);
      }
    }
  }
}
