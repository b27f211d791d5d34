/**
 Who runs what: the jobs taken out of their slots are exactly those the workers hold, one worker each,
 and the payload counter is the payload of the jobs that have not given theirs back.
 */
module ApplyWork {
  import opened Jobs
  import opened Queue
  import opened QueueGraph
  import opened QueueLanes
  import opened QueueInvariant
  import opened ApplySystem

  // ----- Sums over the log -----

  /** What is added up over the jobs: payload still counted, or steps still to take. */
  datatype Tally =
    | Payloads(log: seq<Job>, unpaid: set<nat>)
    | StepsLeft(log: seq<Job>, unpaid: set<nat>, inc: set<nat>, running: map<nat, Run>)

  /**
   A job's share. The steps it has still to take are its pick, its effects, the return of its
   payload and its completion.
   */
  ghost function Share(t: Tally, i: nat): nat {
    if !(1 <= i <= |t.log|) then 0
    else
      match t
      case Payloads(log, unpaid) => if i in unpaid then log[i - 1].bytes else 0
      case StepsLeft(log, unpaid, inc, running) =>
        var all := |log[i - 1].effects|;
        if i !in inc then 0
        else if i !in running then all + 3
        else if i in unpaid && running[i].done <= all then all - running[i].done + 2
        else 1
  }

  ghost function SumTo(t: Tally, n: nat): nat {
    if n == 0 then 0 else SumTo(t, n - 1) + Share(t, n)
  }

  lemma {:induction false} SumSame(a: Tally, b: Tally, n: nat)
    requires forall i: nat :: 1 <= i <= n ==> Share(a, i) == Share(b, i)
    ensures SumTo(a, n) == SumTo(b, n)
  {
    if n > 0 {
      SumSame(a, b, n - 1);
    }
  }

  lemma {:induction false} SumChange(a: Tally, b: Tally, s: nat, n: nat)
    requires 1 <= s <= n
    requires forall i: nat :: 1 <= i <= n && i != s ==> Share(a, i) == Share(b, i)
    ensures SumTo(b, n) + Share(a, s) == SumTo(a, n) + Share(b, s)
  {
    if n == s {
      SumSame(a, b, n - 1);
    } else {
      SumChange(a, b, s, n - 1);
    }
  }

  lemma {:induction false} SumCovers(t: Tally, s: nat, n: nat)
    requires 1 <= s <= n
    ensures Share(t, s) <= SumTo(t, n)
  {
    if s < n {
      SumCovers(t, s, n - 1);
    }
  }

  lemma {:induction false} SumZero(t: Tally, n: nat)
    requires forall i: nat :: 1 <= i <= n ==> Share(t, i) == 0
    ensures SumTo(t, n) == 0
  {
    if n > 0 {
      SumZero(t, n - 1);
    }
  }

  // ----- The invariant -----

  /** The slots whose job is out are the running ones. */
  ghost predicate Taken(slots: map<nat, Slot>, running: map<nat, Run>) {
    forall n :: n in running <==> n in slots && slots[n].job.None?
  }

  /** Every running job is its own worker's, and every working worker has its own. */
  ghost predicate Staffed(workers: seq<Worker>, running: map<nat, Run>) {
    && (forall n :: n in running ==> running[n].worker < |workers| && workers[running[n].worker].Holds(n))
    && (forall w :: 0 <= w < |workers| && (workers[w].Running? || workers[w].Finishing?) ==>
          workers[w].seqno in running && running[workers[w].seqno].worker == w)
  }

  ghost predicate InRange(log: seq<Job>, running: map<nat, Run>) {
    forall n :: n in running ==> 1 <= n <= |log| && running[n].done <= |log[n - 1].effects|
  }

  ghost predicate StaffInv(s: System) {
    Taken(s.q.graph.slots, s.running) && Staffed(s.workers, s.running) && InRange(s.log, s.running)
  }

  /** A job's payload is counted from its push until the worker that ran it gives it back. */
  ghost predicate Unpaid(inc: set<nat>, log: seq<Job>, running: map<nat, Run>, workers: seq<Worker>, unpaid: set<nat>) {
    && unpaid <= inc
    && (forall n :: n in inc && n !in running ==> n in unpaid)
    && (forall w :: 0 <= w < |workers| && workers[w].Running? ==> workers[w].seqno in unpaid)
    && (forall w :: 0 <= w < |workers| && workers[w].Finishing? ==> workers[w].seqno !in unpaid && Spent(log, running, workers[w].seqno))
  }

  /** The job has had all its effects. */
  ghost predicate Spent(log: seq<Job>, running: map<nat, Run>, n: nat) {
    1 <= n <= |log| && n in running && running[n].done == |log[n - 1].effects|
  }

  ghost predicate PayInv(s: System) {
    && Unpaid(s.q.graph.incomplete, s.log, s.running, s.workers, s.unpaid)
    && s.bytes == SumTo(Payloads(s.log, s.unpaid), |s.log|)
  }

  /** No finished job was pushed after an unfinished one it conflicts with. */
  ghost predicate InOrder(inc: set<nat>, log: seq<Job>) {
    forall i: nat, j: nat {:trigger Conflict(log, i, j)} :: i in inc && i < j <= |log| && j !in inc ==> !Conflict(log, i, j)
  }

  ghost predicate QueueInv(cfg: Settings, s: System) {
    Sound(cfg, s.q, s.log) && InOrder(s.q.graph.incomplete, s.log)
  }

  datatype Part = TheQueue | TheStaff | ThePay

  ghost predicate Holds(part: Part, cfg: Settings, s: System) {
    match part
    case TheQueue => QueueInv(cfg, s)
    case TheStaff => StaffInv(s)
    case ThePay => PayInv(s)
  }

  /** All three parts; a proof names the part it uses. */
  ghost predicate WorkInv(cfg: Settings, s: System) {
    forall part {:trigger Holds(part, cfg, s)} :: Holds(part, cfg, s)
  }

  lemma TheQueueIs(cfg: Settings, s: System)
    requires WorkInv(cfg, s)
    ensures Inv(cfg, s.q, s.log) && InOrder(s.q.graph.incomplete, s.log)
  {
    assert Holds(TheQueue, cfg, s);
    SoundIsInv(cfg, s.q, s.log);
  }

  lemma Parts(cfg: Settings, s: System)
    requires WorkInv(cfg, s)
    ensures QueueInv(cfg, s) && StaffInv(s) && PayInv(s)
  {
    assert Holds(TheQueue, cfg, s) && Holds(TheStaff, cfg, s) && Holds(ThePay, cfg, s);
  }

  lemma Together(cfg: Settings, s: System)
    requires QueueInv(cfg, s) && StaffInv(s) && PayInv(s)
    ensures WorkInv(cfg, s)
  {
  }

  lemma StartWork(cfg: Settings, store: Store, n: nat)
    ensures WorkInv(cfg, Start(store, n))
  {
    InitialInv(cfg);
    InvIsSound(cfg, INITIAL, []);
    Together(cfg, Start(store, n));
  }

  // ----- Steps that leave the work alone -----

  ghost predicate SameHands(a: seq<Worker>, b: seq<Worker>) {
    && |a| == |b|
    && forall w :: 0 <= w < |a| ==> (a[w].Running? || a[w].Finishing? || b[w].Running? || b[w].Finishing? ==> a[w] == b[w])
  }

  ghost predicate SameWork(s: System, s': System) {
    && s'.q == s.q.(held := s'.q.held)
    && s'.log == s.log && s'.bytes == s.bytes && s'.unpaid == s.unpaid && s'.store == s.store && s'.running == s.running
    && SameHands(s.workers, s'.workers)
  }

  lemma QuietSteps(cfg: Settings, s: System, step: Step, s': System)
    requires DoesWait(cfg, s, step, s') || DoesWake(cfg, s, step, s')
    ensures SameWork(s, s')
  {
  }

  lemma SameWorkKeeps(cfg: Settings, s: System, s': System)
    requires WorkInv(cfg, s) && SameWork(s, s')
    ensures WorkInv(cfg, s')
  {
    Parts(cfg, s);
    HeldIsSound(cfg, s.q, s.log, s'.q.held);
    SameHandsStaff(s, s');
    SameHandsPay(s, s');
    Together(cfg, s');
  }

  lemma SameHandsStaff(s: System, s': System)
    requires StaffInv(s) && SameWork(s, s')
    ensures StaffInv(s')
  {
  }

  lemma SameHandsPay(s: System, s': System)
    requires PayInv(s) && SameWork(s, s')
    ensures PayInv(s')
  {
  }

  // ----- push -----

  lemma PushShare(log: seq<Job>, job: Job, unpaid: set<nat>, i: nat)
    requires 1 <= i <= |log| + 1 && |log| + 1 !in unpaid
    ensures Share(Payloads(log + [job], unpaid + {|log| + 1}), i) == if i <= |log| then Share(Payloads(log, unpaid), i) else job.bytes
  {
  }

  lemma PushCounted(log: seq<Job>, job: Job, unpaid: set<nat>)
    requires forall n :: n in unpaid ==> 1 <= n <= |log|
    ensures SumTo(Payloads(log + [job], unpaid + {|log| + 1}), |log| + 1) == SumTo(Payloads(log, unpaid), |log|) + job.bytes
  {
    var a, b := Payloads(log, unpaid), Payloads(log + [job], unpaid + {|log| + 1});
    forall i: nat | 1 <= i <= |log|
      ensures Share(a, i) == Share(b, i)
    {
      PushShare(log, job, unpaid, i);
    }
    SumSame(a, b, |log|);
    PushShare(log, job, unpaid, |log| + 1);
  }

  lemma PushInOrder(inc: set<nat>, log: seq<Job>, job: Job)
    requires InOrder(inc, log)
    ensures InOrder(inc + {|log| + 1}, log + [job])
  {
    forall i: nat, j: nat | i in inc + {|log| + 1} && i < j <= |log| + 1 && j !in inc + {|log| + 1}
      ensures !Conflict(log + [job], i, j)
    {
      assert forall k :: Names(log + [job], i, k) && Names(log + [job], j, k) ==> Names(log, i, k) && Names(log, j, k);
      assert Conflict(log + [job], i, j) ==> Conflict(log, i, j);
    }
  }

  lemma PushStaff(cfg: Settings, s: System, c: nat)
    requires StaffInv(s) && c in s.callers && s.callers[c].wish.ToPush?
    requires s.q.pushed + 1 !in s.q.graph.slots
    ensures StaffInv(Pushed(cfg, s, c))
  {
  }

  lemma PushUnpaid(inc: set<nat>, log: seq<Job>, running: map<nat, Run>, workers: seq<Worker>, unpaid: set<nat>, job: Job)
    requires Unpaid(inc, log, running, workers, unpaid) && Numbered(inc, log) && InRange(log, running)
    ensures Unpaid(inc + {|log| + 1}, log + [job], running, workers, unpaid + {|log| + 1})
  {
  }

  lemma PushPay(cfg: Settings, s: System, c: nat)
    requires PayInv(s) && c in s.callers && s.callers[c].wish.ToPush?
    requires Numbered(s.q.graph.incomplete, s.log) && |s.log| == s.q.pushed
    requires InRange(s.log, s.running)
    ensures PayInv(Pushed(cfg, s, c))
  {
    PushCounted(s.log, s.callers[c].wish.job, s.unpaid);
    PushUnpaid(s.q.graph.incomplete, s.log, s.running, s.workers, s.unpaid, s.callers[c].wish.job);
  }

  lemma PushOrder(cfg: Settings, s: System, c: nat)
    requires InOrder(s.q.graph.incomplete, s.log) && |s.log| == s.q.pushed
    requires c in s.callers && s.callers[c].wish.ToPush?
    ensures InOrder(Pushed(cfg, s, c).q.graph.incomplete, Pushed(cfg, s, c).log)
  {
    PushInOrder(s.q.graph.incomplete, s.log, s.callers[c].wish.job);
  }

  lemma PushQueue(cfg: Settings, s: System, c: nat)
    requires Inv(cfg, s.q, s.log) && InOrder(s.q.graph.incomplete, s.log)
    requires c in s.callers && s.callers[c].wish.ToPush? && ValidJob(s.callers[c].wish.job)
    ensures QueueInv(cfg, Pushed(cfg, s, c))
  {
    PushKeeps(cfg, s.q, s.log, s.callers[c].wish.job);
    PushOrder(cfg, s, c);
    InvIsSound(cfg, Pushed(cfg, s, c).q, Pushed(cfg, s, c).log);
  }

  lemma StepPush(cfg: Settings, s: System, c: nat, s': System)
    requires WorkInv(cfg, s) && DoesPush(cfg, s, c, s') && ValidJob(s.callers[c].wish.job)
    ensures WorkInv(cfg, s')
  {
    Parts(cfg, s);
    assert s.q.pushed + 1 !in s.q.graph.slots && Numbered(s.q.graph.incomplete, s.log) && |s.log| == s.q.pushed by {
      TheQueueIs(cfg, s);
    }
    assert QueueInv(cfg, Pushed(cfg, s, c)) by {
      TheQueueIs(cfg, s);
      PushQueue(cfg, s, c);
    }
    PushStaff(cfg, s, c);
    PushPay(cfg, s, c);
    Together(cfg, Pushed(cfg, s, c));
  }

  // ----- pick -----

  lemma PickStaff(cfg: Settings, s: System, w: nat)
    requires StaffInv(s) && w < |s.workers| && s.workers[w].Idle?
    requires CanChoose(cfg, s.q.lanes)
    requires var n := Choose(cfg, s.q.lanes).1; n in s.q.graph.slots && s.q.graph.slots[n].job.Some? && 1 <= n <= |s.log|
    ensures StaffInv(PickedUp(cfg, s, w))
  {
  }

  lemma PickPay(cfg: Settings, s: System, w: nat)
    requires PayInv(s) && StaffInv(s) && w < |s.workers| && s.workers[w].Idle?
    requires CanChoose(cfg, s.q.lanes)
    requires var n := Choose(cfg, s.q.lanes).1;
             n in s.q.graph.slots && s.q.graph.slots[n].job.Some? && 1 <= n <= |s.log| && n in s.q.graph.incomplete
    ensures PayInv(PickedUp(cfg, s, w))
  {
    var n := Choose(cfg, s.q.lanes).1;
    assert n !in s.running;
  }

  lemma PickQueue(cfg: Settings, s: System, w: nat)
    requires WorkInv(cfg, s) && w < |s.workers| && PickSafe(cfg, s)
    ensures QueueInv(cfg, PickedUp(cfg, s, w))
    ensures Choose(cfg, s.q.lanes).1 in s.q.graph.incomplete && 1 <= Choose(cfg, s.q.lanes).1 <= |s.log|
  {
    TheQueueIs(cfg, s);
    PickKeeps(cfg, s.q, s.log);
    InvIsSound(cfg, PickedUp(cfg, s, w).q, s.log);
  }

  lemma StepPick(cfg: Settings, s: System, w: nat, s': System)
    requires WorkInv(cfg, s) && DoesPickUp(cfg, s, w, s')
    ensures WorkInv(cfg, s')
  {
    Parts(cfg, s);
    PickQueue(cfg, s, w);
    PickStaff(cfg, s, w);
    PickPay(cfg, s, w);
    Together(cfg, PickedUp(cfg, s, w));
  }

  // ----- run -----

  lemma ActStaff(s: System, w: nat)
    requires StaffInv(s)
    requires Works(s, w) && s.running[s.workers[w].seqno].done < |s.log[s.workers[w].seqno - 1].effects|
    ensures StaffInv(Acted(s, w))
  {
  }

  lemma ActPay(s: System, w: nat)
    requires StaffInv(s) && PayInv(s)
    requires Works(s, w) && s.running[s.workers[w].seqno].done < |s.log[s.workers[w].seqno - 1].effects|
    ensures PayInv(Acted(s, w))
  {
  }

  lemma RepayStaff(s: System, w: nat)
    requires StaffInv(s) && Works(s, w) && s.log[s.workers[w].seqno - 1].bytes <= s.bytes
    ensures StaffInv(Repaid(s, w))
  {
  }

  lemma RepayCounted(log: seq<Job>, unpaid: set<nat>, n: nat)
    requires n in unpaid && 1 <= n <= |log|
    ensures log[n - 1].bytes <= SumTo(Payloads(log, unpaid), |log|)
    ensures SumTo(Payloads(log, unpaid - {n}), |log|) == SumTo(Payloads(log, unpaid), |log|) - log[n - 1].bytes
  {
    SumCovers(Payloads(log, unpaid), n, |log|);
    SumChange(Payloads(log, unpaid), Payloads(log, unpaid - {n}), n, |log|);
  }

  lemma RepayBytes(s: System, w: nat)
    requires StaffInv(s) && PayInv(s) && Works(s, w)
    ensures s.log[s.workers[w].seqno - 1].bytes <= s.bytes
    ensures s.bytes - s.log[s.workers[w].seqno - 1].bytes == SumTo(Payloads(s.log, s.unpaid - {s.workers[w].seqno}), |s.log|)
  {
    RepayCounted(s.log, s.unpaid, s.workers[w].seqno);
  }

  lemma RepayUnpaid(inc: set<nat>, log: seq<Job>, running: map<nat, Run>, workers: seq<Worker>, unpaid: set<nat>, w: nat)
    requires Unpaid(inc, log, running, workers, unpaid) && Staffed(workers, running)
    requires w < |workers| && workers[w].Running? && Spent(log, running, workers[w].seqno)
    ensures var n := workers[w].seqno;
            Unpaid(inc, log, running, workers[w := Finishing(n)], unpaid - {n})
  {
  }

  lemma RepayPay(s: System, w: nat)
    requires StaffInv(s) && PayInv(s)
    requires Works(s, w) && s.running[s.workers[w].seqno].done == |s.log[s.workers[w].seqno - 1].effects|
    requires s.log[s.workers[w].seqno - 1].bytes <= s.bytes
    ensures PayInv(Repaid(s, w))
  {
    RepayBytes(s, w);
    RepayUnpaid(s.q.graph.incomplete, s.log, s.running, s.workers, s.unpaid, w);
  }

  // ----- finish -----

  lemma WokenHands(cfg: Settings, s: System, f: nat, x: nat)
    requires f in s.q.graph.slots
    ensures SameHands(s.workers, WokenBy(cfg, s, f, x))
  {
  }

  lemma LayOff(workers: seq<Worker>, woken: seq<Worker>, running: map<nat, Run>, w: nat)
    requires Staffed(workers, running) && SameHands(workers, woken) && w < |workers| && workers[w].Finishing?
    ensures Staffed(woken[w := Settling], running - {workers[w].seqno})
  {
  }

  lemma FinishStaff(cfg: Settings, s: System, w: nat, x: nat)
    requires StaffInv(s)
    requires Worked(s, w) && CanFinish(cfg, s.q, s.workers[w].seqno, s.log[s.workers[w].seqno - 1])
    ensures StaffInv(Completed(cfg, s, w, x))
  {
    var n := s.workers[w].seqno;
    WokenHands(cfg, s, n, x);
    LayOff(s.workers, WokenBy(cfg, s, n, x), s.running, w);
    FinishTaken(s.q.graph.slots, s.running, n);
  }

  lemma FinishTaken(slots: map<nat, Slot>, running: map<nat, Run>, f: nat)
    requires Taken(slots, running) && f in slots
    ensures Taken(ReleasedSlots(slots, f), running - {f})
  {
  }

  lemma FinishUnpaid(inc: set<nat>, log: seq<Job>, running: map<nat, Run>, workers: seq<Worker>, woken: seq<Worker>, unpaid: set<nat>, w: nat)
    requires Unpaid(inc, log, running, workers, unpaid) && Staffed(workers, running)
    requires SameHands(workers, woken) && w < |workers| && workers[w].Finishing?
    ensures var n := workers[w].seqno;
            Unpaid(inc - {n}, log, running - {n}, woken[w := Settling], unpaid)
  {
  }

  lemma FinishPay(cfg: Settings, s: System, w: nat, x: nat)
    requires StaffInv(s) && PayInv(s)
    requires Worked(s, w) && CanFinish(cfg, s.q, s.workers[w].seqno, s.log[s.workers[w].seqno - 1])
    ensures PayInv(Completed(cfg, s, w, x))
  {
    var n := s.workers[w].seqno;
    WokenHands(cfg, s, n, x);
    FinishUnpaid(s.q.graph.incomplete, s.log, s.running, s.workers, WokenBy(cfg, s, n, x), s.unpaid, w);
  }

  lemma FinishInOrder(cfg: Settings, g: Graph, log: seq<Job>, f: nat)
    requires GraphInv(cfg, g, log) && InOrder(g.incomplete, log)
    requires f in g.slots && g.slots[f].waiting == 0
    ensures InOrder(g.incomplete - {f}, log)
  {
    forall i: nat | i in g.incomplete && i < f
      ensures !Conflict(log, i, f)
    {
      ReadyMeansFirst(cfg, g, log, i, f);
    }
  }

  lemma TakenWaits(cfg: Settings, g: Graph, log: seq<Job>, n: nat)
    requires GraphInv(cfg, g, log) && n in g.slots && g.slots[n].job.None?
    ensures g.slots[n].waiting == 0
  {
    assert SlotOk(cfg, g.slots[n], g.incomplete, log, n);
  }

  lemma FinishedQueue(cfg: Settings, s: System, q: State, log: seq<Job>)
    requires s.q == q && s.log == log && Inv(cfg, q, log) && InOrder(q.graph.incomplete, log)
    ensures QueueInv(cfg, s)
  {
    InvIsSound(cfg, q, log);
  }

  lemma CompletedParts(cfg: Settings, s: System, w: nat, x: nat, n: nat)
    requires Worked(s, w) && n == s.workers[w].seqno && CanFinish(cfg, s.q, n, s.log[n - 1])
    ensures Completed(cfg, s, w, x).q == Finish(cfg, s.q, n, s.log[n - 1])
    ensures Completed(cfg, s, w, x).log == s.log
  {
  }

  lemma FinishInvs(cfg: Settings, q: State, log: seq<Job>, n: nat)
    requires Inv(cfg, q, log) && InOrder(q.graph.incomplete, log) && n in q.graph.slots && q.graph.slots[n].job.None?
    ensures CanFinish(cfg, q, n, log[n - 1])
    ensures Inv(cfg, Finish(cfg, q, n, log[n - 1]), log)
    ensures InOrder(Finish(cfg, q, n, log[n - 1]).graph.incomplete, log)
  {
    TakenWaits(cfg, q.graph, log, n);
    FinishInOrder(cfg, q.graph, log, n);
    FinishKeeps(cfg, q, log, n);
  }

  lemma FinishQueue(cfg: Settings, q: State, log: seq<Job>, n: nat, s': System)
    requires Inv(cfg, q, log) && InOrder(q.graph.incomplete, log) && n in q.graph.slots && q.graph.slots[n].job.None?
    requires 1 <= n <= |log| && CanFinish(cfg, q, n, log[n - 1]) && s'.q == Finish(cfg, q, n, log[n - 1]) && s'.log == log
    ensures QueueInv(cfg, s')
  {
    FinishInvs(cfg, q, log, n);
    FinishedQueue(cfg, s', Finish(cfg, q, n, log[n - 1]), log);
  }

  // ----- every step -----

  lemma AllParts(cfg: Settings, s: System)
    requires Holds(TheQueue, cfg, s) && Holds(TheStaff, cfg, s) && Holds(ThePay, cfg, s)
    ensures WorkInv(cfg, s)
  {
  }

  lemma SameQueue(cfg: Settings, s: System, s': System)
    requires Holds(TheQueue, cfg, s) && s'.q == s.q && s'.log == s.log
    ensures Holds(TheQueue, cfg, s')
  {
  }

  lemma ActParts(cfg: Settings, s: System, w: nat, s': System)
    requires Holds(TheStaff, cfg, s) && Holds(ThePay, cfg, s) && DoesAct(s, w, s')
    ensures Holds(TheStaff, cfg, s') && Holds(ThePay, cfg, s') && s'.q == s.q && s'.log == s.log
  {
    ActStaff(s, w);
    ActPay(s, w);
  }

  lemma StepAct(cfg: Settings, s: System, w: nat, s': System)
    requires WorkInv(cfg, s) && DoesAct(s, w, s')
    ensures WorkInv(cfg, s')
  {
    assert Holds(TheQueue, cfg, s) && Holds(TheStaff, cfg, s) && Holds(ThePay, cfg, s);
    ActParts(cfg, s, w, s');
    SameQueue(cfg, s, s');
    AllParts(cfg, s');
  }

  lemma RepayParts(cfg: Settings, s: System, w: nat, s': System)
    requires Holds(TheStaff, cfg, s) && Holds(ThePay, cfg, s) && DoesRepay(s, w, s')
    ensures Holds(TheStaff, cfg, s') && Holds(ThePay, cfg, s') && s'.q == s.q && s'.log == s.log
  {
    RepayStaff(s, w);
    RepayPay(s, w);
  }

  lemma StepRepay(cfg: Settings, s: System, w: nat, s': System)
    requires WorkInv(cfg, s) && DoesRepay(s, w, s')
    ensures WorkInv(cfg, s')
  {
    assert Holds(TheQueue, cfg, s) && Holds(TheStaff, cfg, s) && Holds(ThePay, cfg, s);
    RepayParts(cfg, s, w, s');
    SameQueue(cfg, s, s');
    AllParts(cfg, s');
  }

  lemma WorkedIsTaken(s: System, w: nat)
    requires StaffInv(s) && Worked(s, w)
    ensures s.workers[w].seqno in s.q.graph.slots && s.q.graph.slots[s.workers[w].seqno].job.None?
  {
  }

  lemma CompletesOne(cfg: Settings, s: System, w: nat, x: nat, s': System)
    requires DoesComplete(cfg, s, w, x, s')
    ensures var n := s.workers[w].seqno;
            && 1 <= n <= |s.log| && CanFinish(cfg, s.q, n, s.log[n - 1])
            && s'.q == Finish(cfg, s.q, n, s.log[n - 1]) && s'.log == s.log
  {
  }

  lemma CompleteQueue(cfg: Settings, s: System, n: nat, s': System)
    requires Holds(TheQueue, cfg, s) && n in s.q.graph.slots && s.q.graph.slots[n].job.None?
    requires 1 <= n <= |s.log| && CanFinish(cfg, s.q, n, s.log[n - 1])
    requires s'.q == Finish(cfg, s.q, n, s.log[n - 1]) && s'.log == s.log
    ensures Holds(TheQueue, cfg, s')
  {
    SoundIsInv(cfg, s.q, s.log);
    FinishQueue(cfg, s.q, s.log, n, s');
  }

  lemma CompleteKeepsQueue(cfg: Settings, s: System, w: nat, x: nat, s': System)
    requires Holds(TheQueue, cfg, s) && DoesComplete(cfg, s, w, x, s')
    requires s.q.graph.slots[s.workers[w].seqno].job.None?
    ensures Holds(TheQueue, cfg, s')
  {
    CompletesOne(cfg, s, w, x, s');
    CompleteQueue(cfg, s, s.workers[w].seqno, s');
  }

  lemma CompleteStaff(cfg: Settings, s: System, w: nat, x: nat, s': System)
    requires Holds(TheStaff, cfg, s) && DoesComplete(cfg, s, w, x, s')
    ensures Holds(TheStaff, cfg, s')
    ensures s.q.graph.slots[s.workers[w].seqno].job.None?
  {
    WorkedIsTaken(s, w);
    FinishStaff(cfg, s, w, x);
  }

  lemma CompletePay(cfg: Settings, s: System, w: nat, x: nat, s': System)
    requires Holds(TheStaff, cfg, s) && Holds(ThePay, cfg, s) && DoesComplete(cfg, s, w, x, s')
    ensures Holds(ThePay, cfg, s')
  {
    FinishPay(cfg, s, w, x);
  }

  lemma StepComplete(cfg: Settings, s: System, w: nat, x: nat, s': System)
    requires WorkInv(cfg, s) && DoesComplete(cfg, s, w, x, s')
    ensures WorkInv(cfg, s')
  {
    assert Holds(TheQueue, cfg, s) && Holds(TheStaff, cfg, s) && Holds(ThePay, cfg, s);
    CompleteStaff(cfg, s, w, x, s');
    CompleteKeepsQueue(cfg, s, w, x, s');
    CompletePay(cfg, s, w, x, s');
    AllParts(cfg, s');
  }

  lemma StepQuiet(cfg: Settings, s: System, step: Step, s': System)
    requires WorkInv(cfg, s)
    requires DoesWait(cfg, s, step, s') || DoesWake(cfg, s, step, s')
    ensures WorkInv(cfg, s')
  {
    QuietSteps(cfg, s, step, s');
    SameWorkKeeps(cfg, s, s');
  }

  lemma StepKeepsWork(cfg: Settings, s: System, step: Step, s': System)
    requires WorkInv(cfg, s) && Next(cfg, s, step, s')
    requires step.PushJob? ==> ValidJob(s.callers[step.caller].wish.job)
    ensures WorkInv(cfg, s')
  {
    match step
    case PushJob(c) => StepPush(cfg, s, c, s');
    case PickUp(w) => StepPick(cfg, s, w, s');
    case Act(w) => StepAct(cfg, s, w, s');
    case Repay(w) => StepRepay(cfg, s, w, s');
    case Complete(w, x) => StepComplete(cfg, s, w, x, s');
    case _ => StepQuiet(cfg, s, step, s');
  }

  // ----- Nothing the code relies on without checking is ever missing -----

  lemma PickNeverPanics(cfg: Settings, s: System, w: nat)
    requires WorkInv(cfg, s) && CanPickUp(cfg, s, w)
    ensures PickSafe(cfg, s)
  {
    TheQueueIs(cfg, s);
    PickDefined(cfg, s.q, s.log);
  }

  lemma RepayNeverWraps(cfg: Settings, s: System, w: nat)
    requires WorkInv(cfg, s) && CanRepay(s, w)
    ensures RepaySafe(s, w)
  {
    Parts(cfg, s);
    RepayBytes(s, w);
  }

  lemma CompleteNeverPanics(cfg: Settings, s: System, w: nat)
    requires WorkInv(cfg, s) && w < |s.workers| && s.workers[w].Finishing?
    ensures CompleteSafe(cfg, s, w)
  {
    assert Worked(s, w) && s.workers[w].seqno in s.q.graph.slots && s.q.graph.slots[s.workers[w].seqno].job.None? by {
      assert Holds(TheStaff, cfg, s);
    }
    TheQueueIs(cfg, s);
    FinishDefined(cfg, s.q, s.log, s.workers[w].seqno);
  }
}
