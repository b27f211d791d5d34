/**
 Conservation: the work left on any first jobs falls by one with each pick, effect, repayment and
 completion of theirs and with nothing else, and the unfinished jobs by one with each completion.
 */
module ApplyLiveness {
  import opened Jobs
  import opened Queue
  import opened QueueLanes
  import opened ApplySystem
  import opened ApplyWork
  import opened ApplyRuns

  // ----- The work left -----

  /** The steps still to take on the first `k` jobs. */
  ghost function WorkUpTo(s: System, k: nat): nat {
    SumTo(StepsLeft(s.log, s.unpaid, s.q.graph.incomplete, s.running), k)
  }

  ghost function WorkLeft(s: System): nat {
    WorkUpTo(s, |s.log|)
  }

  predicate IsWork(step: Step) {
    step.PickUp? || step.Act? || step.Repay? || step.Complete?
  }

  /** The job a step works on. */
  ghost function JobOf(cfg: Settings, s: System, step: Step): nat {
    match step
    case PickUp(_) => if CanChoose(cfg, s.q.lanes) then Choose(cfg, s.q.lanes).1 else 0
    case Act(w) => JobAt(s, w)
    case Repay(w) => JobAt(s, w)
    case Complete(w, _) => JobAt(s, w)
    case _ => 0
  }

  ghost function JobAt(s: System, w: nat): nat {
    if w < |s.workers| && (s.workers[w].Running? || s.workers[w].Finishing?) then s.workers[w].seqno else 0
  }

  /** Whether a step works on one of the first `k` jobs. */
  ghost predicate WorksOn(cfg: Settings, s: System, step: Step, k: nat) {
    IsWork(step) && JobOf(cfg, s, step) <= k
  }

  lemma OneLess(a: Tally, b: Tally, n: nat, k: nat)
    requires 1 <= n
    requires forall i: nat :: i != n ==> Share(a, i) == Share(b, i)
    requires Share(a, n) == Share(b, n) + 1
    ensures SumTo(a, k) == SumTo(b, k) + if n <= k then 1 else 0
  {
    if n <= k {
      SumChange(a, b, n, k);
    } else {
      SumSame(a, b, k);
    }
  }

  lemma PushShares(log: seq<Job>, job: Job, unpaid: set<nat>, inc: set<nat>, running: map<nat, Run>, k: nat)
    requires k <= |log|
    ensures var n := |log| + 1;
            SumTo(StepsLeft(log + [job], unpaid + {n}, inc + {n}, running), k) == SumTo(StepsLeft(log, unpaid, inc, running), k)
  {
    var n := |log| + 1;
    SumSame(StepsLeft(log, unpaid, inc, running), StepsLeft(log + [job], unpaid + {n}, inc + {n}, running), k);
  }

  lemma PushWork(cfg: Settings, s: System, c: nat, s': System, k: nat)
    requires WorkInv(cfg, s) && DoesPush(cfg, s, c, s') && k <= |s.log|
    ensures WorkUpTo(s', k) == WorkUpTo(s, k) && s.log <= s'.log
  {
    assert |s.log| == s.q.pushed by {
      TheQueueIs(cfg, s);
    }
    PushShares(s.log, s.callers[c].wish.job, s.unpaid, s.q.graph.incomplete, s.running, k);
  }

  /** The job a worker picks is incomplete, runs nowhere and has its payload counted. */
  lemma PickedWaits(cfg: Settings, s: System, n: nat)
    requires WorkInv(cfg, s) && n in s.q.graph.slots && s.q.graph.slots[n].job.Some?
    ensures 1 <= n <= |s.log| && n in s.q.graph.incomplete && n !in s.running && n in s.unpaid
  {
    assert 1 <= n <= |s.log| && n in s.q.graph.incomplete by {
      TheQueueIs(cfg, s);
    }
    assert n !in s.running by {
      assert Holds(TheStaff, cfg, s);
    }
    assert Holds(ThePay, cfg, s);
  }

  lemma PickedUpParts(cfg: Settings, s: System, w: nat, s': System)
    requires DoesPickUp(cfg, s, w, s')
    ensures s'.running == s.running[Choose(cfg, s.q.lanes).1 := Run(w, 0)] && s'.unpaid == s.unpaid
    ensures s'.q.graph.incomplete == s.q.graph.incomplete && s'.log == s.log
  {
  }

  lemma PickWork(cfg: Settings, s: System, w: nat, s': System, k: nat)
    requires WorkInv(cfg, s) && DoesPickUp(cfg, s, w, s')
    ensures WorkUpTo(s, k) == WorkUpTo(s', k) + if WorksOn(cfg, s, PickUp(w), k) then 1 else 0
    ensures s'.q.graph.incomplete == s.q.graph.incomplete && s'.log == s.log
  {
    var n, inc := Choose(cfg, s.q.lanes).1, s.q.graph.incomplete;
    PickedWaits(cfg, s, n);
    PickedUpParts(cfg, s, w, s');
    OneLess(StepsLeft(s.log, s.unpaid, inc, s.running), StepsLeft(s.log, s.unpaid, inc, s'.running), n, k);
  }

  lemma WorkingIsUnpaid(cfg: Settings, s: System, w: nat)
    requires WorkInv(cfg, s) && Works(s, w)
    ensures s.workers[w].seqno in s.unpaid && s.workers[w].seqno in s.q.graph.incomplete
  {
    assert Holds(ThePay, cfg, s);
  }

  lemma ActWork(cfg: Settings, s: System, w: nat, s': System, k: nat)
    requires WorkInv(cfg, s) && DoesAct(s, w, s')
    ensures WorkUpTo(s, k) == WorkUpTo(s', k) + (if WorksOn(cfg, s, Act(w), k) then 1 else 0) && s'.q == s.q && s'.log == s.log
  {
    var n, inc := s.workers[w].seqno, s.q.graph.incomplete;
    WorkingIsUnpaid(cfg, s, w);
    OneLess(StepsLeft(s.log, s.unpaid, inc, s.running), StepsLeft(s.log, s.unpaid, inc, s'.running), n, k);
  }

  lemma RepayWork(cfg: Settings, s: System, w: nat, s': System, k: nat)
    requires WorkInv(cfg, s) && DoesRepay(s, w, s')
    ensures WorkUpTo(s, k) == WorkUpTo(s', k) + (if WorksOn(cfg, s, Repay(w), k) then 1 else 0) && s'.q == s.q && s'.log == s.log
  {
    var n, inc := s.workers[w].seqno, s.q.graph.incomplete;
    WorkingIsUnpaid(cfg, s, w);
    OneLess(StepsLeft(s.log, s.unpaid, inc, s.running), StepsLeft(s.log, s'.unpaid, inc, s.running), n, k);
  }

  lemma WorkedIsIncomplete(cfg: Settings, s: System, w: nat)
    requires WorkInv(cfg, s) && Worked(s, w)
    ensures var n := s.workers[w].seqno; 1 <= n <= |s.log| && n in s.q.graph.incomplete && n !in s.unpaid
  {
    var n := s.workers[w].seqno;
    assert n in s.q.graph.slots by {
      assert Holds(TheStaff, cfg, s);
      WorkedIsTaken(s, w);
    }
    assert n in s.q.graph.incomplete by {
      TheQueueIs(cfg, s);
    }
    assert Holds(ThePay, cfg, s);
  }

  lemma CompletedLeaves(cfg: Settings, s: System, w: nat, x: nat, s': System)
    requires DoesComplete(cfg, s, w, x, s')
    ensures s'.running == s.running - {s.workers[w].seqno} && s'.unpaid == s.unpaid
    ensures s'.q.graph.incomplete == s.q.graph.incomplete - {s.workers[w].seqno} && s'.log == s.log
  {
  }

  lemma CompleteWork(cfg: Settings, s: System, w: nat, x: nat, s': System, k: nat)
    requires WorkInv(cfg, s) && DoesComplete(cfg, s, w, x, s')
    ensures WorkUpTo(s, k) == WorkUpTo(s', k) + (if WorksOn(cfg, s, Complete(w, x), k) then 1 else 0) && s'.log == s.log
    ensures |s.q.graph.incomplete| == |s'.q.graph.incomplete| + 1
  {
    WorkedIsIncomplete(cfg, s, w);
    CompletedLeaves(cfg, s, w, x, s');
    OneLess(StepsLeft(s.log, s.unpaid, s.q.graph.incomplete, s.running),
            StepsLeft(s.log, s.unpaid, s'.q.graph.incomplete, s'.running), s.workers[w].seqno, k);
  }

  lemma QuietWork(cfg: Settings, s: System, step: Step, s': System, k: nat)
    requires DoesWait(cfg, s, step, s') || DoesWake(cfg, s, step, s')
    ensures WorkUpTo(s, k) == WorkUpTo(s', k) && s'.log == s.log
  {
    QuietSteps(cfg, s, step, s');
  }

  /** Exactly the steps that work on the first `k` jobs take one off their work. */
  lemma StepWork(cfg: Settings, s: System, step: Step, s': System, k: nat)
    requires WorkInv(cfg, s) && Next(cfg, s, step, s') && k <= |s.log|
    ensures WorkUpTo(s, k) == WorkUpTo(s', k) + if WorksOn(cfg, s, step, k) then 1 else 0
    ensures s.log <= s'.log
  {
    match step
    case PushJob(c) => PushWork(cfg, s, c, s', k);
    case PickUp(w) => PickWork(cfg, s, w, s', k);
    case Act(w) => ActWork(cfg, s, w, s', k);
    case Repay(w) => RepayWork(cfg, s, w, s', k);
    case Complete(w, x) => CompleteWork(cfg, s, w, x, s', k);
    case _ => QuietWork(cfg, s, step, s', k);
  }

  lemma StepCompletes(cfg: Settings, s: System, step: Step, s': System)
    requires WorkInv(cfg, s) && Next(cfg, s, step, s') && !step.PushJob?
    ensures |s.q.graph.incomplete| == |s'.q.graph.incomplete| + if step.Complete? then 1 else 0
    ensures s'.log == s.log
  {
    match step
    case PickUp(w) => PickedUpParts(cfg, s, w, s');
    case Complete(w, x) => CompleteWork(cfg, s, w, x, s', 0);
    case Act(w) =>
    case Repay(w) =>
    case _ => QuietSteps(cfg, s, step, s');
  }

  /** A step works on a job that was pushed. */
  lemma WorksOnPushed(cfg: Settings, s: System, step: Step, s': System)
    requires WorkInv(cfg, s) && Next(cfg, s, step, s') && IsWork(step)
    ensures JobOf(cfg, s, step) <= |s.log|
  {
    if step.PickUp? {
      PickedWaits(cfg, s, Choose(cfg, s.q.lanes).1);
    }
  }

  // ----- Counting over a run -----

  /** How many of the steps from `m` up to `n` satisfy `p`. */
  ghost function Count(run: Trace, p: Step -> bool, m: nat, n: nat): nat
    decreases n
  {
    if n <= m then 0 else Count(run, p, m, n - 1) + if p(run.step(n - 1)) then 1 else 0
  }

  ghost predicate NoPushes(run: Trace, m: nat, n: nat) {
    forall i: nat :: m <= i < n ==> !run.step(i).PushJob?
  }

  lemma OneStepConserved(cfg: Settings, s: System, step: Step, s': System)
    requires WorkInv(cfg, s) && Next(cfg, s, step, s') && !step.PushJob?
    ensures WorkLeft(s) == WorkLeft(s') + if IsWork(step) then 1 else 0
    ensures |s.q.graph.incomplete| == |s'.q.graph.incomplete| + if step.Complete? then 1 else 0
    ensures s'.log == s.log
  {
    StepWork(cfg, s, step, s', |s.log|);
    StepCompletes(cfg, s, step, s');
    if IsWork(step) {
      WorksOnPushed(cfg, s, step, s');
    }
  }

  /**
   While nothing is pushed, each step of work takes one off the work left and each completion one off
   the incomplete jobs; nothing else changes either.
   */
  lemma {:induction false} WorkConserved(cfg: Settings, init: Store, workers: nat, run: Trace, m: nat, n: nat)
    requires IsRun(cfg, init, workers, run, n) && m <= n && NoPushes(run, m, n)
    ensures WorkLeft(run.state(m)) == WorkLeft(run.state(n)) + Count(run, IsWork, m, n)
    ensures |run.state(m).q.graph.incomplete| == |run.state(n).q.graph.incomplete| + Count(run, (s: Step) => s.Complete?, m, n)
    ensures run.state(n).log == run.state(m).log
    decreases n
  {
    if m < n {
      WorkConserved(cfg, init, workers, run, m, n - 1);
      RunKeeps(cfg, init, workers, run, n - 1);
      GoodWork(cfg, init, run.state(n - 1));
      assert NextAt(cfg, run, n - 1);
      OneStepConserved(cfg, run.state(n - 1), run.step(n - 1), run.state(n));
    }
  }
}
