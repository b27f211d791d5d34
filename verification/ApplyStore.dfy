/**
 Serializability: whatever the interleaving, the host is as if every job had run
 alone, in the order pushed, each as far as it has come.
 */
module ApplyStore {
  import opened Jobs
  import opened Queue
  import opened QueueGraph
  import opened ApplySystem
  import opened ApplyWork

  /** A job as far as its first `d` effects, one after another. */
  ghost function RunJob(store: Store, job: Job, d: nat): Store {
    if d == 0 then store
    else
      var before := RunJob(store, job, d - 1);
      if d <= |job.effects| then Perform(before, job.KeySet(), job.effects[d - 1]) else before
  }

  /** Every job run alone, in push order. */
  ghost function Serially(store: Store, log: seq<Job>): Store {
    if log == [] then store
    else
      var n := |log| - 1;
      RunJob(Serially(store, log[..n]), log[n], |log[n].effects|)
  }

  /** How far a job has come: all the way, as far as its worker has brought it, or nowhere. */
  ghost function Did(log: seq<Job>, inc: set<nat>, running: map<nat, Run>, i: nat): nat {
    if !(1 <= i <= |log|) then 0
    else if i !in inc then |log[i - 1].effects|
    else if i in running then running[i].done
    else 0
  }

  /** The first `n` jobs in push order, each as far as it has come. */
  ghost function Replay(store: Store, log: seq<Job>, inc: set<nat>, running: map<nat, Run>, n: nat): Store
    requires n <= |log|
  {
    if n == 0 then store
    else RunJob(Replay(store, log, inc, running, n - 1), log[n - 1], Did(log, inc, running, n))
  }

  ghost predicate StoreInv(init: Store, s: System) {
    s.store == Replay(init, s.log, s.q.graph.incomplete, s.running, |s.log|)
  }

  // ----- Replays -----

  ghost predicate SameSoFar(log: seq<Job>, inc: set<nat>, running: map<nat, Run>,
                            log': seq<Job>, inc': set<nat>, running': map<nat, Run>, i: nat) {
    1 <= i <= |log| && i <= |log'| && log[i - 1] == log'[i - 1] && Did(log, inc, running, i) == Did(log', inc', running', i)
  }

  lemma {:induction false} ReplaySame(store: Store, log: seq<Job>, inc: set<nat>, running: map<nat, Run>,
                                      log': seq<Job>, inc': set<nat>, running': map<nat, Run>, n: nat)
    requires n <= |log| && n <= |log'|
    requires forall i: nat :: 1 <= i <= n ==> SameSoFar(log, inc, running, log', inc', running', i)
    ensures Replay(store, log, inc, running, n) == Replay(store, log', inc', running', n)
  {
    if n > 0 {
      ReplaySame(store, log, inc, running, log', inc', running', n - 1);
      assert SameSoFar(log, inc, running, log', inc', running', n);
    }
  }

  ghost predicate Apart(a: Job, b: Job) {
    a.KeySet() !! b.KeySet()
  }

  /** An effect of one job and a job on other inodes may change places. */
  lemma {:induction false} EffectCommutes(store: Store, now: Job, effect: Effect, job: Job, d: nat)
    requires Apart(now, job)
    ensures RunJob(Perform(store, now.KeySet(), effect), job, d) == Perform(RunJob(store, job, d), now.KeySet(), effect)
  {
    if d > 0 {
      EffectCommutes(store, now, effect, job, d - 1);
      if d <= |job.effects| {
        PerformCommutes(RunJob(store, job, d - 1), now.KeySet(), effect, job.KeySet(), job.effects[d - 1]);
      }
    }
  }

  /** A later job that has not started, or is on other inodes, does not see the effect. */
  lemma AdvancePast(before: Store, after: Store, now: Job, effect: Effect, job: Job, d: nat)
    requires after == Perform(before, now.KeySet(), effect)
    requires d > 0 ==> Apart(now, job)
    ensures RunJob(after, job, d) == Perform(RunJob(before, job, d), now.KeySet(), effect)
  {
    if d > 0 {
      EffectCommutes(before, now, effect, job, d);
    }
  }

  /** The same, within the replays. */
  lemma ReplayPast(store: Store, log: seq<Job>, inc: set<nat>, run: map<nat, Run>, run': map<nat, Run>, now: Job, effect: Effect, n: nat)
    requires 1 <= n <= |log| && SameSoFar(log, inc, run, log, inc, run', n)
    requires Replay(store, log, inc, run', n - 1) == Perform(Replay(store, log, inc, run, n - 1), now.KeySet(), effect)
    requires Did(log, inc, run, n) > 0 ==> Apart(now, log[n - 1])
    ensures Replay(store, log, inc, run', n) == Perform(Replay(store, log, inc, run, n), now.KeySet(), effect)
  {
    AdvancePast(Replay(store, log, inc, run, n - 1), Replay(store, log, inc, run', n - 1), now, effect, log[n - 1], Did(log, inc, run, n));
  }

  /** A job `s` may go one effect further if every later job that has started is on other inodes. */
  lemma {:induction false} ReplayAdvance(store: Store, log: seq<Job>, inc: set<nat>, run: map<nat, Run>, run': map<nat, Run>, s: nat, n: nat)
    requires 1 <= s <= n <= |log|
    requires forall i: nat :: 1 <= i <= n && i != s ==> SameSoFar(log, inc, run, log, inc, run', i)
    requires Did(log, inc, run', s) == Did(log, inc, run, s) + 1 <= |log[s - 1].effects|
    requires forall i: nat :: s < i <= n && Did(log, inc, run, i) > 0 ==> Apart(log[s - 1], log[i - 1])
    ensures Replay(store, log, inc, run', n) ==
            Perform(Replay(store, log, inc, run, n), log[s - 1].KeySet(), log[s - 1].effects[Did(log, inc, run, s)])
  {
    if n == s {
      ReplaySame(store, log, inc, run, log, inc, run', n - 1);
    } else {
      ReplayAdvance(store, log, inc, run, run', s, n - 1);
      ReplayPast(store, log, inc, run, run', log[s - 1], log[s - 1].effects[Did(log, inc, run, s)], n);
    }
  }

  // ----- Every step -----

  lemma NoConflictDisjoint(log: seq<Job>, a: nat, b: nat)
    requires 1 <= a <= |log| && 1 <= b <= |log| && !Conflict(log, a, b)
    ensures Apart(log[a - 1], log[b - 1])
  {
    var x, y := log[a - 1].KeySet(), log[b - 1].KeySet();
    forall k | k in x && k in y
      ensures false
    {
      assert Names(log, a, k) && Names(log, b, k);
    }
  }

  /** A job that has started shares no inode with an older one still running. */
  lemma StartedApart(cfg: Settings, g: Graph, log: seq<Job>, running: map<nat, Run>, s: nat, i: nat)
    requires GraphInv(cfg, g, log) && InOrder(g.incomplete, log) && Taken(g.slots, running)
    requires s in running && s < i <= |log|
    requires i in g.incomplete ==> i in running
    ensures !Conflict(log, s, i)
  {
    if i in running {
      TakenWaits(cfg, g, log, s);
      TakenWaits(cfg, g, log, i);
      Isolation(cfg, g, log, s, i);
    }
  }

  lemma ActStore(cfg: Settings, init: Store, s: System, w: nat, s': System)
    requires GraphInv(cfg, s.q.graph, s.log) && InOrder(s.q.graph.incomplete, s.log) && Taken(s.q.graph.slots, s.running)
    requires StoreInv(init, s) && DoesAct(s, w, s')
    ensures StoreInv(init, s')
  {
    var n, inc := s.workers[w].seqno, s.q.graph.incomplete;
    assert n in s.q.graph.slots;
    forall i: nat | n < i <= |s.log| && Did(s.log, inc, s.running, i) > 0
      ensures Apart(s.log[n - 1], s.log[i - 1])
    {
      StartedApart(cfg, s.q.graph, s.log, s.running, n, i);
      NoConflictDisjoint(s.log, n, i);
    }
    ReplayAdvance(init, s.log, inc, s.running, s'.running, n, |s.log|);
  }

  lemma PushReplay(init: Store, log: seq<Job>, job: Job, inc: set<nat>, running: map<nat, Run>)
    requires InRange(log, running)
    ensures Replay(init, log + [job], inc + {|log| + 1}, running, |log| + 1) == Replay(init, log, inc, running, |log|)
  {
    ReplaySame(init, log, inc, running, log + [job], inc + {|log| + 1}, running, |log|);
  }

  lemma PushStore(cfg: Settings, init: Store, s: System, c: nat, s': System)
    requires StoreInv(init, s) && DoesPush(cfg, s, c, s')
    requires |s.log| == s.q.pushed && InRange(s.log, s.running)
    ensures StoreInv(init, s')
  {
    PushReplay(init, s.log, s.callers[c].wish.job, s.q.graph.incomplete, s.running);
  }

  lemma PickStore(cfg: Settings, init: Store, s: System, w: nat, s': System)
    requires StoreInv(init, s) && DoesPickUp(cfg, s, w, s')
    requires s.q.graph.slots.Keys == s.q.graph.incomplete && Taken(s.q.graph.slots, s.running)
    ensures StoreInv(init, s')
  {
    ReplaySame(init, s.log, s.q.graph.incomplete, s.running, s.log, s.q.graph.incomplete, s'.running, |s.log|);
  }

  lemma CompleteStore(cfg: Settings, init: Store, s: System, w: nat, x: nat, s': System)
    requires StoreInv(init, s) && DoesComplete(cfg, s, w, x, s')
    requires s.q.graph.slots.Keys == s.q.graph.incomplete && Taken(s.q.graph.slots, s.running)
    requires Spent(s.log, s.running, s.workers[w].seqno)
    ensures StoreInv(init, s')
  {
    ReplaySame(init, s.log, s.q.graph.incomplete, s.running, s.log, s'.q.graph.incomplete, s'.running, |s.log|);
  }

  lemma ActKeepsStore(cfg: Settings, init: Store, s: System, w: nat, s': System)
    requires WorkInv(cfg, s) && StoreInv(init, s) && DoesAct(s, w, s')
    ensures StoreInv(init, s')
  {
    Parts(cfg, s);
    TheQueueIs(cfg, s);
    ActStore(cfg, init, s, w, s');
  }

  lemma PushKeepsStore(cfg: Settings, init: Store, s: System, c: nat, s': System)
    requires WorkInv(cfg, s) && StoreInv(init, s) && DoesPush(cfg, s, c, s')
    ensures StoreInv(init, s')
  {
    Parts(cfg, s);
    TheQueueIs(cfg, s);
    PushStore(cfg, init, s, c, s');
  }

  lemma PickKeepsStore(cfg: Settings, init: Store, s: System, w: nat, s': System)
    requires WorkInv(cfg, s) && StoreInv(init, s) && DoesPickUp(cfg, s, w, s')
    ensures StoreInv(init, s')
  {
    Parts(cfg, s);
    TheQueueIs(cfg, s);
    PickStore(cfg, init, s, w, s');
  }

  lemma CompleteKeepsStore(cfg: Settings, init: Store, s: System, w: nat, x: nat, s': System)
    requires WorkInv(cfg, s) && StoreInv(init, s) && DoesComplete(cfg, s, w, x, s')
    ensures StoreInv(init, s')
  {
    Parts(cfg, s);
    TheQueueIs(cfg, s);
    CompleteStore(cfg, init, s, w, x, s');
  }

  lemma RepayKeepsStore(init: Store, s: System, w: nat, s': System)
    requires StoreInv(init, s) && DoesRepay(s, w, s')
    ensures StoreInv(init, s')
  {
  }

  lemma QuietKeepsStore(cfg: Settings, init: Store, s: System, step: Step, s': System)
    requires StoreInv(init, s) && (DoesWait(cfg, s, step, s') || DoesWake(cfg, s, step, s'))
    ensures StoreInv(init, s')
  {
    QuietSteps(cfg, s, step, s');
  }

  lemma StepKeepsStore(cfg: Settings, init: Store, s: System, step: Step, s': System)
    requires WorkInv(cfg, s) && StoreInv(init, s) && Next(cfg, s, step, s')
    ensures StoreInv(init, s')
  {
    match step
    case Act(w) => ActKeepsStore(cfg, init, s, w, s');
    case PushJob(c) => PushKeepsStore(cfg, init, s, c, s');
    case PickUp(w) => PickKeepsStore(cfg, init, s, w, s');
    case Complete(w, x) => CompleteKeepsStore(cfg, init, s, w, x, s');
    case Repay(w) => RepayKeepsStore(init, s, w, s');
    case _ => QuietKeepsStore(cfg, init, s, step, s');
  }

  // ----- Barriers on part of the store -----

  ghost predicate Agree(a: Store, b: Store, keys: set<Key>) {
    forall k :: k in keys ==> At(a, k) == At(b, k)
  }

  lemma PerformAgrees(a: Store, b: Store, keys: set<Key>, e: Effect)
    requires Agree(a, b, keys)
    ensures Agree(Perform(a, keys, e), Perform(b, keys, e), keys)
  {
    forall k
      ensures At(Restrict(a, keys), k) == At(Restrict(b, keys), k)
    {
      assert k in keys ==> At(a, k) == At(b, k);
    }
    SameStore(Restrict(a, keys), Restrict(b, keys));
    forall k | k in keys
      ensures At(Perform(a, keys, e), k) == At(Perform(b, keys, e), k)
    {
      SpliceAt(a, keys, e(Restrict(a, keys)), k);
      SpliceAt(b, keys, e(Restrict(b, keys)), k);
    }
  }

  lemma {:induction false} JobsAgree(a: Store, b: Store, job: Job, d: nat)
    requires Agree(a, b, job.KeySet())
    ensures Agree(RunJob(a, job, d), RunJob(b, job, d), job.KeySet())
  {
    if d > 0 {
      JobsAgree(a, b, job, d - 1);
      if d <= |job.effects| {
        PerformAgrees(RunJob(a, job, d - 1), RunJob(b, job, d - 1), job.KeySet(), job.effects[d - 1]);
      }
    }
  }

  lemma {:induction false} JobElsewhere(a: Store, job: Job, d: nat, k: Key)
    requires k !in job.keys
    ensures At(RunJob(a, job, d), k) == At(a, k)
  {
    if d > 0 {
      var before := RunJob(a, job, d - 1);
      JobElsewhere(a, job, d - 1, k);
      if d <= |job.effects| {
        SpliceAt(before, job.KeySet(), job.effects[d - 1](Restrict(before, job.KeySet())), k);
      }
    }
  }

  /** A job seen from an inode it leaves alone: because it names another, or has not started. */
  lemma NotTouched(a: Store, job: Job, d: nat, k: Key)
    requires k !in job.keys || d == 0
    ensures At(RunJob(a, job, d), k) == At(a, k)
  {
    if d > 0 {
      JobElsewhere(a, job, d, k);
    }
  }

  lemma BothFinish(a: Store, b: Store, job: Job, d: nat, k: Key)
    requires Agree(a, b, job.KeySet()) && k in job.keys
    ensures At(RunJob(a, job, d), k) == At(RunJob(b, job, d), k)
  {
    JobsAgree(a, b, job, d);
    assert k in job.KeySet();
  }

  /** No incomplete job among the first `n` names `k`. */
  ghost predicate Settled(log: seq<Job>, inc: set<nat>, k: Key, n: nat) {
    forall i: nat :: i in inc && i <= n ==> !Names(log, i, k)
  }

  lemma SeriallyStep(init: Store, log: seq<Job>, n: nat)
    requires 1 <= n <= |log|
    ensures Serially(init, log[..n]) == RunJob(Serially(init, log[..n - 1]), log[n - 1], |log[n - 1].effects|)
  {
    assert log[..n][..n - 1] == log[..n - 1];
  }

  lemma {:induction false} SettledPrefix(init: Store, log: seq<Job>, inc: set<nat>, running: map<nat, Run>, k: Key, n: nat)
    requires n <= |log| && InOrder(inc, log) && Settled(log, inc, k, n)
    ensures At(Replay(init, log, inc, running, n), k) == At(Serially(init, log[..n]), k)
    decreases n, 1
  {
    if n > 0 {
      var d, job := Did(log, inc, running, n), log[n - 1];
      var a, b := Replay(init, log, inc, running, n - 1), Serially(init, log[..n - 1]);
      SeriallyStep(init, log, n);
      assert Names(log, n, k) <==> k in job.keys;
      if k in job.keys {
        SettledAgrees(init, log, inc, running, n);
        BothFinish(a, b, job, d, k);
      } else {
        SettledPrefix(init, log, inc, running, k, n - 1);
        NotTouched(a, job, d, k);
        JobElsewhere(b, job, |job.effects|, k);
      }
    }
  }

  lemma {:induction false} SettledAgrees(init: Store, log: seq<Job>, inc: set<nat>, running: map<nat, Run>, n: nat)
    requires 1 <= n <= |log| && InOrder(inc, log) && n !in inc
    ensures Agree(Replay(init, log, inc, running, n - 1), Serially(init, log[..n - 1]), log[n - 1].KeySet())
    decreases n, 0
  {
    var keys := log[n - 1].KeySet();
    forall k | k in keys
      ensures At(Replay(init, log, inc, running, n - 1), k) == At(Serially(init, log[..n - 1]), k)
    {
      assert Names(log, n, k);
      SettledBefore(log, inc, k, n);
      SettledPrefix(init, log, inc, running, k, n - 1);
    }
  }

  /** A finished job leaves no older job on its inodes unfinished. */
  lemma SettledBefore(log: seq<Job>, inc: set<nat>, k: Key, n: nat)
    requires InOrder(inc, log) && 1 <= n <= |log| && n !in inc && Names(log, n, k)
    ensures Settled(log, inc, k, n - 1)
  {
    forall i: nat | i in inc && i <= n - 1
      ensures !Names(log, i, k)
    {
      assert !Conflict(log, i, n);
    }
  }

  /** The finished ones of the first `n` jobs, each run alone, in push order. */
  ghost function RunFinished(init: Store, log: seq<Job>, inc: set<nat>, n: nat): Store
    requires n <= |log|
  {
    if n == 0 then init
    else
      var before := RunFinished(init, log, inc, n - 1);
      if n in inc then before else RunJob(before, log[n - 1], |log[n - 1].effects|)
  }

  /** None of the first `n` jobs that names `k` has started and not finished. */
  ghost predicate Still(log: seq<Job>, inc: set<nat>, running: map<nat, Run>, k: Key, n: nat) {
    forall i: nat :: i in inc && i <= n && Names(log, i, k) ==> Did(log, inc, running, i) == 0
  }

  lemma LeftAlone(a: Store, b: Store, job: Job, d: nat, finished: bool, k: Key)
    requires At(a, k) == At(b, k)
    requires k !in job.keys || (d == 0 && !finished)
    ensures At(RunJob(a, job, d), k) == At(if finished then RunJob(b, job, |job.effects|) else b, k)
  {
    NotTouched(a, job, d, k);
    if finished {
      JobElsewhere(b, job, |job.effects|, k);
    }
  }

  lemma {:induction false} StillPrefix(init: Store, log: seq<Job>, inc: set<nat>, running: map<nat, Run>, k: Key, n: nat)
    requires n <= |log| && InOrder(inc, log) && Still(log, inc, running, k, n)
    ensures At(Replay(init, log, inc, running, n), k) == At(RunFinished(init, log, inc, n), k)
    decreases n, 1
  {
    if n > 0 {
      var a, b, d := Replay(init, log, inc, running, n - 1), RunFinished(init, log, inc, n - 1), Did(log, inc, running, n);
      if n !in inc && k in log[n - 1].keys {
        FinishedAgrees(init, log, inc, running, n);
        BothFinish(a, b, log[n - 1], d, k);
      } else {
        assert Names(log, n, k) <==> k in log[n - 1].keys;
        StillPrefix(init, log, inc, running, k, n - 1);
        LeftAlone(a, b, log[n - 1], d, n !in inc, k);
      }
    }
  }

  lemma {:induction false} FinishedAgrees(init: Store, log: seq<Job>, inc: set<nat>, running: map<nat, Run>, n: nat)
    requires 1 <= n <= |log| && InOrder(inc, log) && n !in inc
    ensures Agree(Replay(init, log, inc, running, n - 1), RunFinished(init, log, inc, n - 1), log[n - 1].KeySet())
    decreases n, 0
  {
    var keys := log[n - 1].KeySet();
    forall k | k in keys
      ensures At(Replay(init, log, inc, running, n - 1), k) == At(RunFinished(init, log, inc, n - 1), k)
    {
      assert Names(log, n, k);
      SettledBefore(log, inc, k, n);
      StillPrefix(init, log, inc, running, k, n - 1);
    }
  }

  /** An inode no running job names is what the finished jobs, one at a time in push order, make it. */
  lemma InodeIsFinished(cfg: Settings, init: Store, s: System, k: Key)
    requires WorkInv(cfg, s) && StoreInv(init, s)
    requires forall i :: i in s.running ==> !Names(s.log, i, k)
    ensures At(s.store, k) == At(RunFinished(init, s.log, s.q.graph.incomplete, |s.log|), k)
  {
    assert InOrder(s.q.graph.incomplete, s.log) by {
      TheQueueIs(cfg, s);
    }
    StillPrefix(init, s.log, s.q.graph.incomplete, s.running, k, |s.log|);
  }

  /** An empty queue's host is what running every job one at a time in push order gives. */
  lemma EmptyMeansSerial(init: Store, s: System)
    requires StoreInv(init, s) && s.q.graph.incomplete == {}
    ensures s.store == Serially(init, s.log)
  {
    forall k
      ensures At(s.store, k) == At(Serially(init, s.log), k)
    {
      SettledPrefix(init, s.log, {}, s.running, k, |s.log|);
      assert s.log[..|s.log|] == s.log;
    }
    SameStore(s.store, Serially(init, s.log));
  }

  /** Once no incomplete job names an inode, it is what running every job in push order makes it. */
  lemma InodeSettled(cfg: Settings, init: Store, s: System, k: Key)
    requires WorkInv(cfg, s) && StoreInv(init, s)
    requires forall i :: i in s.q.graph.incomplete ==> !Names(s.log, i, k)
    ensures At(s.store, k) == At(Serially(init, s.log), k)
  {
    assert InOrder(s.q.graph.incomplete, s.log) by {
      TheQueueIs(cfg, s);
    }
    SettledPrefix(init, s.log, s.q.graph.incomplete, s.running, k, |s.log|);
    assert s.log[..|s.log|] == s.log;
  }

  lemma {:induction false} SeriallyElsewhere(init: Store, log: seq<Job>, n: nat, k: Key)
    requires n <= |log| && forall i: nat :: n < i <= |log| ==> !Names(log, i, k)
    ensures At(Serially(init, log), k) == At(Serially(init, log[..n]), k)
  {
    if n < |log| {
      var m := |log| - 1;
      assert forall i: nat :: n < i <= m ==> (Names(log[..m], i, k) ==> Names(log, i, k));
      SeriallyElsewhere(init, log[..m], n, k);
      assert log[..m][..n] == log[..n];
      assert !Names(log, m + 1, k);
      JobElsewhere(Serially(init, log[..m]), log[m], |log[m].effects|, k);
    } else {
      assert log[..n] == log;
    }
  }

  /**
   What a barrier to `n` that has returned is worth: an inode no later job names
   is what the first `n` jobs, run one at a time in push order, make it.
   */
  lemma DrainedPrefix(cfg: Settings, init: Store, s: System, n: nat, k: Key)
    requires WorkInv(cfg, s) && StoreInv(init, s)
    requires n <= s.q.applied
    requires forall i: nat :: n < i <= |s.log| ==> !Names(s.log, i, k)
    ensures n <= |s.log| && At(s.store, k) == At(Serially(init, s.log[..n]), k)
  {
    forall i: nat | i in s.q.graph.incomplete
      ensures !Names(s.log, i, k)
    {
      IncompleteAbove(cfg, s, i);
    }
    assert n <= |s.log| by {
      IncompleteAbove(cfg, s, 0);
    }
    InodeSettled(cfg, init, s, k);
    SeriallyElsewhere(init, s.log, n, k);
  }

  /** An incomplete job is above the watermark, which is within what was pushed. */
  lemma IncompleteAbove(cfg: Settings, s: System, i: nat)
    requires WorkInv(cfg, s)
    ensures i in s.q.graph.incomplete ==> s.q.applied < i
    ensures s.q.applied <= |s.log|
  {
    TheQueueIs(cfg, s);
  }
}
