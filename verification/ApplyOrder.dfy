/**
 In what order the apply queue's jobs are taken, over whole runs: within a lane in the order in which
 they became ready, between lanes the serial one first and the wide one last, and what the kinds of
 jobs may do side by side.
 */
module ApplyOrder {
  import opened Basics
  import opened Jobs
  import opened Queue
  import opened QueueGraph
  import opened QueueLanes
  import opened QueueInvariant
  import opened ApplySystem
  import opened ApplyWork
  import opened ApplyRuns

  /** Waiting for nothing, and in no worker's hands. */
  ghost predicate Ready(q: State, a: nat) {
    a in q.graph.slots && q.graph.slots[a].waiting == 0 && q.graph.slots[a].job.Some?
  }

  /** Pushed, and since taken by a worker. */
  ghost predicate Gone(q: State, a: nat) {
    1 <= a <= q.pushed && (a in q.graph.slots ==> q.graph.slots[a].job.None?)
  }

  // ----- A lane's line -----

  ghost function Head(b: BoundedLane, key: nat): nat {
    if key in b.byKey && b.byKey[key] != [] then b.byKey[key][0] else 0
  }

  ghost function Heads(b: BoundedLane): (r: seq<nat>)
    ensures |r| == |b.readyKeys| && forall i :: 0 <= i < |r| ==> r[i] == Head(b, b.readyKeys[i])
  {
    seq(|b.readyKeys|, i requires 0 <= i < |b.readyKeys| => Head(b, b.readyKeys[i]))
  }

  /** The ready jobs of a lane as it lists them. */
  ghost function Line(l: Lanes, lane: Lane): seq<nat> {
    match lane
    case Serial => l.ready
    case Wide => l.readyClones
    case Bounded => Heads(l.bounded)
  }

  /** Every listed key has a queue, and every queue a job. */
  ghost predicate Headed(b: BoundedLane) {
    (forall key :: key in b.byKey ==> b.byKey[key] != []) && (forall key :: key in b.readyKeys ==> key in b.byKey)
  }

  lemma OfferLine(b: BoundedLane, key: nat, n: nat)
    requires Headed(b)
    ensures Headed(Offer(b, key, n)) && (Heads(Offer(b, key, n)) == Heads(b) || Heads(Offer(b, key, n)) == Heads(b) + [n])
  {
    var b' := Offer(b, key, n);
    forall i | 0 <= i < |b.readyKeys|
      ensures Head(b', b.readyKeys[i]) == Head(b, b.readyKeys[i])
    {
      assert b.readyKeys[i] in b.readyKeys;
    }
  }

  lemma ListLine(l: Lanes, at: Lane, n: nat, key: nat, lane: Lane)
    requires Headed(l.bounded)
    ensures Headed(List(l, at, n, key).bounded)
    ensures Line(List(l, at, n, key), lane) == Line(l, lane) || Line(List(l, at, n, key), lane) == Line(l, lane) + [n]
  {
    OfferLine(l.bounded, key, n);
  }

  lemma LeaveLine(l: Lanes, at: Lane, key: nat, lane: Lane)
    requires Headed(l.bounded) && (at == Bounded ==> l.bounded.count > 0)
    ensures Headed(Leave(l, at, key).bounded) && Line(l, lane) <= Line(Leave(l, at, key), lane)
  {
    if at == Bounded {
      var b, b' := l.bounded, Finished(l.bounded, key);
      assert forall i :: 0 <= i < |b.readyKeys| ==> b'.readyKeys[i] == b.readyKeys[i];
    }
  }

  lemma {:induction false} ReleasedLine(cfg: Settings, l: Lanes, slots: map<nat, Slot>, nexts: seq<nat>, lane: Lane)
    requires Headed(l.bounded) && forall s :: s in nexts ==> s in slots
    ensures Headed(ListReleased(cfg, l, slots, nexts).bounded)
    ensures Line(l, lane) <= Line(ListReleased(cfg, l, slots, nexts), lane)
    ensures forall s :: s in Line(ListReleased(cfg, l, slots, nexts), lane) ==> s in Line(l, lane) || s in nexts
  {
    if nexts != [] {
      var n := |nexts| - 1;
      var front, slot := ListReleased(cfg, l, slots, nexts[..n]), slots[nexts[n]];
      ReleasedLine(cfg, l, slots, nexts[..n], lane);
      ListLine(front, SlotLane(cfg, slot), nexts[n], slot.laneKey, lane);
    }
  }

  lemma AllHeaded(cfg: Settings, q: State, log: seq<Job>)
    requires Sound(cfg, q, log)
    ensures Headed(q.lanes.bounded)
  {
    SoundIsInv(cfg, q, log);
  }

  lemma BoundedLineIsReady(cfg: Settings, log: seq<Job>, v: View, b: BoundedLane, a: nat)
    requires ByKeyOk(cfg, log, v, b)
    ensures a in Heads(b) <==> ReadyIn(cfg, log, v, Bounded, a)
  {
    if i :| 0 <= i < |Heads(b)| && Heads(b)[i] == a {
      assert b.readyKeys[i] in b.readyKeys;
    }
    if ReadyIn(cfg, log, v, Bounded, a) {
      assert v[a].key in b.readyKeys;
      var i :| 0 <= i < |b.readyKeys| && b.readyKeys[i] == v[a].key;
      assert Heads(b)[i] == a;
    }
  }

  /** The line holds the lane's ready jobs and no others. */
  lemma LineIsReady(cfg: Settings, q: State, log: seq<Job>, a: nat, lane: Lane)
    requires Inv(cfg, q, log)
    ensures a in Line(q.lanes, lane) <==> Ready(q, a) && LaneAt(cfg, log, a) == lane
  {
    var v := ViewOf(q.graph.slots);
    assert ReadyIn(cfg, log, v, lane, a) <==> Ready(q, a) && LaneAt(cfg, log, a) == lane;
    if lane == Bounded {
      BoundedLineIsReady(cfg, log, v, q.lanes.bounded, a);
    }
  }

  // ----- Before another in line -----

  /** `a` is in line, and `b` not ahead of it. */
  ghost predicate Ahead(line: seq<nat>, a: nat, b: nat) {
    exists i :: 0 <= i < |line| && line[i] == a && b !in line[..i]
  }

  lemma AheadOfAbsent(line: seq<nat>, a: nat, b: nat)
    requires a in line && b !in line
    ensures Ahead(line, a, b)
  {
    var i :| 0 <= i < |line| && line[i] == a;
    assert b !in line[..i];
  }

  lemma StaysAhead(line: seq<nat>, longer: seq<nat>, a: nat, b: nat)
    requires line <= longer && Ahead(line, a, b)
    ensures Ahead(longer, a, b)
  {
    var i :| 0 <= i < |line| && line[i] == a && b !in line[..i];
    assert longer[..i] == line[..i];
    assert longer[i] == a;
  }

  lemma AheadOfRest(line: seq<nat>, a: nat, b: nat)
    requires Ahead(line, a, b) && line[0] != a
    ensures Ahead(line[1..], a, b)
  {
    var i :| 0 <= i < |line| && line[i] == a && b !in line[..i];
    assert line[1..][i - 1] == a;
    assert line[1..][..i - 1] == line[..i][1..];
  }

  lemma FirstIsAhead(line: seq<nat>, a: nat, b: nat)
    requires Ahead(line, a, b) && a != b
    ensures line[0] != b
  {
    var i :| 0 <= i < |line| && line[i] == a && b !in line[..i];
    assert i > 0 ==> line[..i][0] == line[0];
  }

  // ----- Every step -----

  lemma PushLine(cfg: Settings, q: State, job: Job, lane: Lane)
    requires Headed(q.lanes.bounded)
    ensures Line(q.lanes, lane) <= Line(Push(cfg, q, job).lanes, lane)
  {
    var n := q.pushed + 1;
    ListLine(q.lanes, LaneOf(cfg, job.kind), n, LaneKeyOf(cfg, job.keys, n), lane);
  }

  lemma FinishLine(cfg: Settings, q: State, f: nat, job: Job, lane: Lane)
    requires Headed(q.lanes.bounded) && CanFinish(cfg, q, f, job)
    ensures Line(q.lanes, lane) <= Line(Finish(cfg, q, f, job).lanes, lane)
  {
    var slot := q.graph.slots[f];
    var left := Leave(q.lanes, LaneOf(cfg, job.kind), slot.laneKey);
    LeaveLine(q.lanes, LaneOf(cfg, job.kind), slot.laneKey, lane);
    ReleasedLine(cfg, left, Drop(q.graph, f, job.keys).slots, slot.successors, lane);
  }

  lemma PickKeyLine(cfg: Settings, log: seq<Job>, v: View, b: BoundedLane)
    requires ByKeyOk(cfg, log, v, b) && CanPick(b)
    ensures Heads(b)[0] == PickKey(b).1 && Heads(PickKey(b).0) == Heads(b)[1..]
  {
    var b', key := PickKey(b).0, b.readyKeys[0];
    assert key in b.byKey;
    assert b'.byKey == b.byKey - {key};
    forall i | 0 <= i < |b'.readyKeys|
      ensures Head(b', b'.readyKeys[i]) == Heads(b)[1..][i]
    {
      assert b.readyKeys[i + 1] in b.readyKeys && b.readyKeys[i + 1] != key;
    }
  }

  /** A pick takes the first of some line. */
  ghost predicate TakesFirst(cfg: Settings, q: State, log: seq<Job>, q': State, n: nat, lane: Lane) {
    if LaneAt(cfg, log, n) == lane then Line(q.lanes, lane) != [] && n == Line(q.lanes, lane)[0] && Line(q'.lanes, lane) == Line(q.lanes, lane)[1..]
    else Line(q'.lanes, lane) == Line(q.lanes, lane)
  }

  lemma PickLine(cfg: Settings, q: State, log: seq<Job>, lane: Lane)
    requires Inv(cfg, q, log) && Pickable(cfg, q.lanes)
    ensures CanChoose(cfg, q.lanes) && Choose(cfg, q.lanes).1 in q.graph.slots
    ensures TakesFirst(cfg, q, log, Pick(cfg, q).0, Pick(cfg, q).1, lane)
  {
    var v := ViewOf(q.graph.slots);
    PickDefined(cfg, q, log);
    ChosenIsReady(cfg, log, v, q.lanes);
    if q.lanes.bounded.readyKeys != [] {
      PickKeyLine(cfg, log, v, q.lanes.bounded);
    }
  }

  /** What a step makes of a lane's line: longer, or shorter by the first, which a worker takes. */
  ghost predicate Moves(cfg: Settings, s: System, step: Step, s': System, lane: Lane) {
    if step.PickUp? then
      && step.worker < |s'.workers| && s'.workers[step.worker].Running?
      && TakesFirst(cfg, s.q, s.log, s'.q, s'.workers[step.worker].seqno, lane)
      && Gone(s'.q, s'.workers[step.worker].seqno)
    else Line(s.q.lanes, lane) <= Line(s'.q.lanes, lane)
  }

  lemma PickMoves(cfg: Settings, s: System, w: nat, s': System, lane: Lane)
    requires Sound(cfg, s.q, s.log) && DoesPickUp(cfg, s, w, s')
    ensures Moves(cfg, s, PickUp(w), s', lane)
  {
    SoundIsInv(cfg, s.q, s.log);
    PickLine(cfg, s.q, s.log, lane);
    assert Pick(cfg, s.q).1 in s.q.graph.incomplete;
  }

  lemma CompleteMoves(cfg: Settings, s: System, w: nat, x: nat, s': System, lane: Lane)
    requires Sound(cfg, s.q, s.log) && DoesComplete(cfg, s, w, x, s')
    ensures Line(s.q.lanes, lane) <= Line(s'.q.lanes, lane)
  {
    var n := s.workers[w].seqno;
    AllHeaded(cfg, s.q, s.log);
    CompletedParts(cfg, s, w, x, n);
    FinishLine(cfg, s.q, n, s.log[n - 1], lane);
  }

  lemma PushMoves(cfg: Settings, s: System, c: nat, s': System, lane: Lane)
    requires Sound(cfg, s.q, s.log) && DoesPush(cfg, s, c, s')
    ensures Line(s.q.lanes, lane) <= Line(s'.q.lanes, lane)
  {
    AllHeaded(cfg, s.q, s.log);
    PushLine(cfg, s.q, s.callers[c].wish.job, lane);
  }

  lemma StepMoves(cfg: Settings, s: System, step: Step, s': System, lane: Lane)
    requires Sound(cfg, s.q, s.log) && Next(cfg, s, step, s')
    ensures Moves(cfg, s, step, s', lane)
  {
    match step
    case PickUp(w) => PickMoves(cfg, s, w, s', lane);
    case Complete(w, x) => CompleteMoves(cfg, s, w, x, s', lane);
    case PushJob(c) => PushMoves(cfg, s, c, s', lane);
    case Act(_) =>
    case Repay(_) =>
    case _ => QuietSteps(cfg, s, step, s');
  }

  lemma PushGone(cfg: Settings, q: State, job: Job, a: nat)
    requires Gone(q, a)
    ensures Gone(Push(cfg, q, job), a)
  {
  }

  lemma PickGone(cfg: Settings, q: State, a: nat)
    requires CanChoose(cfg, q.lanes) && Choose(cfg, q.lanes).1 in q.graph.slots && Gone(q, a)
    ensures Gone(Pick(cfg, q).0, a)
  {
  }

  lemma FinishGone(cfg: Settings, q: State, f: nat, job: Job, a: nat)
    requires CanFinish(cfg, q, f, job) && Gone(q, a)
    ensures Gone(Finish(cfg, q, f, job), a)
  {
  }

  lemma StaysGone(cfg: Settings, s: System, step: Step, s': System, a: nat)
    requires Next(cfg, s, step, s') && Gone(s.q, a)
    ensures Gone(s'.q, a)
  {
    match step
    case PickUp(_) => PickGone(cfg, s.q, a);
    case Complete(w, x) =>
      CompletedParts(cfg, s, w, x, s.workers[w].seqno);
      FinishGone(cfg, s.q, s.workers[w].seqno, s.log[s.workers[w].seqno - 1], a);
    case PushJob(c) => PushGone(cfg, s.q, s.callers[c].wish.job, a);
    case Act(_) =>
    case Repay(_) =>
    case _ => QuietSteps(cfg, s, step, s');
  }

  // ----- Every run -----

  lemma RunSound(cfg: Settings, init: Store, workers: nat, run: Trace, n: nat)
    requires IsRun(cfg, init, workers, run, n)
    ensures Sound(cfg, run.state(n).q, run.state(n).log)
  {
    RunQueue(cfg, init, workers, run, n);
    InvIsSound(cfg, run.state(n).q, run.state(n).log);
  }

  /** Ahead in line, or taken. */
  ghost predicate Served(q: State, lane: Lane, a: nat, b: nat) {
    Ahead(Line(q.lanes, lane), a, b) || Gone(q, a)
  }

  /** Ahead in line, a job stays so until it is taken. */
  lemma {:induction false} AheadUntilGone(cfg: Settings, init: Store, workers: nat, run: Trace, i: nat, m: nat, n: nat, lane: Lane, a: nat, b: nat)
    requires IsRun(cfg, init, workers, run, n) && i <= m <= n && Served(run.state(i).q, lane, a, b)
    ensures Served(run.state(m).q, lane, a, b)
    decreases m
  {
    if i < m {
      AheadUntilGone(cfg, init, workers, run, i, m - 1, n, lane, a, b);
      AheadStep(cfg, init, workers, run, m - 1, n, lane, a, b);
    }
  }

  lemma AheadStep(cfg: Settings, init: Store, workers: nat, run: Trace, m: nat, n: nat, lane: Lane, a: nat, b: nat)
    requires IsRun(cfg, init, workers, run, n) && m < n && Served(run.state(m).q, lane, a, b)
    ensures Served(run.state(m + 1).q, lane, a, b)
  {
    var s, step, s' := run.state(m), run.step(m), run.state(m + 1);
    assert NextAt(cfg, run, m);
    if Gone(s.q, a) {
      StaysGone(cfg, s, step, s', a);
    } else {
      RunSound(cfg, init, workers, run, m);
      StepMoves(cfg, s, step, s', lane);
      MovesAhead(cfg, s, step, s', lane, a, b);
    }
  }

  lemma MovesAhead(cfg: Settings, s: System, step: Step, s': System, lane: Lane, a: nat, b: nat)
    requires Moves(cfg, s, step, s', lane) && Ahead(Line(s.q.lanes, lane), a, b)
    ensures Served(s'.q, lane, a, b)
  {
    var line := Line(s.q.lanes, lane);
    if !step.PickUp? {
      StaysAhead(line, Line(s'.q.lanes, lane), a, b);
    } else if LaneAt(cfg, s.log, s'.workers[step.worker].seqno) == lane && line[0] != a {
      AheadOfRest(line, a, b);
    }
  }

  /** The worker's step takes `b`. */
  ghost predicate TakesJob(run: Trace, n: nat, b: nat) {
    run.step(n).PickUp? && IsWorker(run.state(n + 1), run.step(n).worker, Running(b))
  }

  /** Who is taken is first in line, so whoever was ahead has been taken. */
  lemma FirstIsTaken(cfg: Settings, init: Store, workers: nat, run: Trace, i: nat, n: nat, lane: Lane, a: nat, b: nat)
    requires IsRun(cfg, init, workers, run, n + 1) && i <= n && a != b
    requires Ahead(Line(run.state(i).q.lanes, lane), a, b)
    requires TakesJob(run, n, b) && LaneAt(cfg, run.state(n).log, b) == lane
    ensures Gone(run.state(n).q, a)
  {
    AheadUntilGone(cfg, init, workers, run, i, n, n, lane, a, b);
    RunSound(cfg, init, workers, run, n);
    assert NextAt(cfg, run, n);
    StepMoves(cfg, run.state(n), run.step(n), run.state(n + 1), lane);
    if Ahead(Line(run.state(n).q.lanes, lane), a, b) {
      FirstIsAhead(Line(run.state(n).q.lanes, lane), a, b);
    }
  }

  lemma InLine(cfg: Settings, init: Store, workers: nat, run: Trace, n: nat, lane: Lane, a: nat)
    requires IsRun(cfg, init, workers, run, n)
    ensures a in Line(run.state(n).q.lanes, lane) <==> Ready(run.state(n).q, a) && LaneAt(cfg, run.state(n).log, a) == lane
  {
    RunQueue(cfg, init, workers, run, n);
    LineIsReady(cfg, run.state(n).q, run.state(n).log, a, lane);
  }

  lemma LaneStays(cfg: Settings, init: Store, workers: nat, run: Trace, i: nat, n: nat, a: nat)
    requires IsRun(cfg, init, workers, run, n) && i <= n && Ready(run.state(i).q, a)
    ensures LaneAt(cfg, run.state(n).log, a) == LaneAt(cfg, run.state(i).log, a)
  {
    assert 1 <= a <= |run.state(i).log| by {
      RunQueue(cfg, init, workers, run, i);
      assert a in run.state(i).q.graph.incomplete;
    }
    WatermarkNeverFalls(cfg, init, workers, run, i, n);
  }

  /**
   First ready, first taken, in each of the three lanes: a worker takes no job of a lane while another
   that was ready before it has not been taken.
   */
  lemma FirstReadyFirstTaken(cfg: Settings, init: Store, workers: nat, run: Trace, i: nat, n: nat, a: nat, b: nat)
    requires IsRun(cfg, init, workers, run, n + 1) && i <= n
    requires Ready(run.state(i).q, a) && !Ready(run.state(i).q, b)
    requires TakesJob(run, n, b) && LaneAt(cfg, run.state(n).log, a) == LaneAt(cfg, run.state(n).log, b)
    ensures Gone(run.state(n).q, a)
  {
    var s, lane := run.state(i), LaneAt(cfg, run.state(n).log, b);
    LaneStays(cfg, init, workers, run, i, n, a);
    InLine(cfg, init, workers, run, i, lane, a);
    InLine(cfg, init, workers, run, i, lane, b);
    AheadOfAbsent(Line(s.q.lanes, lane), a, b);
    FirstIsTaken(cfg, init, workers, run, i, n, lane, a, b);
  }

  // ----- Ready together -----

  ghost predicate Rising(s: seq<nat>) {
    forall i, j :: 0 <= i < j < |s| ==> s[i] < s[j]
  }

  /** A job's successors are listed in push order. */
  ghost predicate AllRising(slots: map<nat, Slot>) {
    forall f :: f in slots ==> Rising(slots[f].successors)
  }

  ghost predicate AllBelow(s: seq<nat>, n: nat) {
    forall i :: 0 <= i < |s| ==> s[i] < n
  }

  lemma SuccessorsPushed(cfg: Settings, q: State, log: seq<Job>)
    requires Sound(cfg, q, log)
    ensures forall f :: f in q.graph.slots ==> AllBelow(q.graph.slots[f].successors, q.pushed + 1)
  {
    SoundIsInv(cfg, q, log);
    forall f | f in q.graph.slots
      ensures AllBelow(q.graph.slots[f].successors, q.pushed + 1)
    {
      assert SlotOk(cfg, q.graph.slots[f], q.graph.incomplete, log, f);
      assert forall i :: 0 <= i < |q.graph.slots[f].successors| ==> q.graph.slots[f].successors[i] in q.graph.slots[f].successors;
    }
  }

  lemma PushRising(cfg: Settings, q: State, job: Job)
    requires AllRising(q.graph.slots) && forall f :: f in q.graph.slots ==> AllBelow(q.graph.slots[f].successors, q.pushed + 1)
    ensures AllRising(Push(cfg, q, job).graph.slots)
  {
    var n, slots' := q.pushed + 1, Push(cfg, q, job).graph.slots;
    forall f | f in slots'
      ensures Rising(slots'[f].successors)
    {
      if f != n {
        assert Rising(q.graph.slots[f].successors) && AllBelow(q.graph.slots[f].successors, n);
      }
    }
  }

  lemma PickRising(cfg: Settings, q: State)
    requires CanChoose(cfg, q.lanes) && Choose(cfg, q.lanes).1 in q.graph.slots && AllRising(q.graph.slots)
    ensures AllRising(Pick(cfg, q).0.graph.slots)
  {
  }

  lemma FinishRising(cfg: Settings, q: State, f: nat, job: Job)
    requires CanFinish(cfg, q, f, job) && AllRising(q.graph.slots)
    ensures AllRising(Finish(cfg, q, f, job).graph.slots)
  {
  }

  lemma CompleteRises(cfg: Settings, s: System, w: nat, x: nat, s': System)
    requires DoesComplete(cfg, s, w, x, s') && AllRising(s.q.graph.slots)
    ensures AllRising(s'.q.graph.slots)
  {
    CompletedParts(cfg, s, w, x, s.workers[w].seqno);
    FinishRising(cfg, s.q, s.workers[w].seqno, s.log[s.workers[w].seqno - 1]);
  }

  lemma PushRises(cfg: Settings, s: System, c: nat, s': System)
    requires Sound(cfg, s.q, s.log) && DoesPush(cfg, s, c, s') && AllRising(s.q.graph.slots)
    ensures AllRising(s'.q.graph.slots)
  {
    SuccessorsPushed(cfg, s.q, s.log);
    PushRising(cfg, s.q, s.callers[c].wish.job);
  }

  lemma StepRising(cfg: Settings, s: System, step: Step, s': System)
    requires Sound(cfg, s.q, s.log) && Next(cfg, s, step, s') && AllRising(s.q.graph.slots)
    ensures AllRising(s'.q.graph.slots)
  {
    match step
    case PickUp(_) => PickRising(cfg, s.q);
    case Complete(w, x) => CompleteRises(cfg, s, w, x, s');
    case PushJob(c) => PushRises(cfg, s, c, s');
    case Act(_) =>
    case Repay(_) =>
    case _ => QuietSteps(cfg, s, step, s');
  }

  lemma {:induction false} RunRising(cfg: Settings, init: Store, workers: nat, run: Trace, n: nat)
    requires IsRun(cfg, init, workers, run, n)
    ensures AllRising(run.state(n).q.graph.slots)
  {
    if n > 0 {
      RunRising(cfg, init, workers, run, n - 1);
      RunSound(cfg, init, workers, run, n - 1);
      assert NextAt(cfg, run, n - 1);
      StepRising(cfg, run.state(n - 1), run.step(n - 1), run.state(n));
    }
  }

  /** Of two jobs a completion lists, the one before the other among its successors is ahead. */
  lemma {:induction false} ReleasedInOrder(cfg: Settings, l: Lanes, slots: map<nat, Slot>, nexts: seq<nat>, lane: Lane, i: nat, j: nat)
    requires Headed(l.bounded) && Rising(nexts) && (forall s :: s in nexts ==> s in slots) && i < j < |nexts|
    requires nexts[i] !in Line(l, lane) && nexts[j] !in Line(l, lane)
    requires nexts[i] in Line(ListReleased(cfg, l, slots, nexts), lane)
    ensures Ahead(Line(ListReleased(cfg, l, slots, nexts), lane), nexts[i], nexts[j])
  {
    var n := |nexts| - 1;
    var front, slot := ListReleased(cfg, l, slots, nexts[..n]), slots[nexts[n]];
    ReleasedLine(cfg, l, slots, nexts[..n], lane);
    ListLine(front, SlotLane(cfg, slot), nexts[n], slot.laneKey, lane);
    assert nexts[i] in Line(front, lane);
    if j == n {
      assert nexts[j] !in nexts[..n];
      AheadOfAbsent(Line(front, lane), nexts[i], nexts[j]);
    } else {
      ReleasedInOrder(cfg, l, slots, nexts[..n], lane, i, j);
    }
    StaysAhead(Line(front, lane), Line(ListReleased(cfg, l, slots, nexts), lane), nexts[i], nexts[j]);
  }

  lemma PushReadies(cfg: Settings, q: State, job: Job, a: nat)
    requires !Ready(q, a) && Ready(Push(cfg, q, job), a)
    ensures a == q.pushed + 1
  {
  }

  lemma PickReadies(cfg: Settings, q: State, a: nat)
    requires CanChoose(cfg, q.lanes) && Choose(cfg, q.lanes).1 in q.graph.slots && Ready(Pick(cfg, q).0, a)
    ensures Ready(q, a)
  {
  }

  lemma FinishReadies(cfg: Settings, q: State, f: nat, job: Job, a: nat)
    requires CanFinish(cfg, q, f, job) && !Ready(q, a) && Ready(Finish(cfg, q, f, job), a)
    ensures a in q.graph.slots[f].successors
  {
  }

  /** What makes a job ready: its own push, or the completion of a job it comes after. */
  lemma BecomesReady(cfg: Settings, s: System, step: Step, s': System, a: nat)
    requires Next(cfg, s, step, s') && !Ready(s.q, a) && Ready(s'.q, a)
    ensures || (step.PushJob? && a == s.q.pushed + 1)
            || (step.Complete? && Worked(s, step.worker) && CompleteSafe(cfg, s, step.worker)
                && a in s.q.graph.slots[s.workers[step.worker].seqno].successors)
  {
    match step
    case PickUp(_) => PickReadies(cfg, s.q, a);
    case Complete(w, x) =>
      CompletedParts(cfg, s, w, x, s.workers[w].seqno);
      FinishReadies(cfg, s.q, s.workers[w].seqno, s.log[s.workers[w].seqno - 1], a);
    case PushJob(c) => PushReadies(cfg, s.q, s.callers[c].wish.job, a);
    case Act(_) =>
    case Repay(_) =>
    case _ => QuietSteps(cfg, s, step, s');
  }

  lemma RisingOrder(s: seq<nat>, a: nat, b: nat) returns (i: nat, j: nat)
    requires Rising(s) && a in s && b in s && a < b
    ensures i < j < |s| && s[i] == a && s[j] == b
  {
    i :| 0 <= i < |s| && s[i] == a;
    j :| 0 <= j < |s| && s[j] == b;
  }

  lemma LeftLine(cfg: Settings, q: State, log: seq<Job>, f: nat, lane: Lane)
    requires Inv(cfg, q, log) && f in q.graph.slots && q.graph.slots[f].job.None? && CanFinish(cfg, q, f, log[f - 1])
    ensures Line(Leave(q.lanes, LaneOf(cfg, log[f - 1].kind), q.graph.slots[f].laneKey), lane) == Line(q.lanes, lane)
  {
    var v := ViewOf(q.graph.slots);
    assert SlotOk(cfg, q.graph.slots[f], q.graph.incomplete, log, f);
    if LaneOf(cfg, log[f - 1].kind) == Bounded {
      assert RunsIn(cfg, log, v, Bounded, f);
      FinishedRelistsNothing(cfg, log, v, q.lanes.bounded, f);
      assert forall key :: Head(Finished(q.lanes.bounded, v[f].key), key) == Head(q.lanes.bounded, key);
    }
  }

  lemma CompletedInOrder(cfg: Settings, q: State, log: seq<Job>, f: nat, lane: Lane, a: nat, b: nat)
    requires Sound(cfg, q, log) && 1 <= f <= |log| && f in q.graph.slots && q.graph.slots[f].job.None? && CanFinish(cfg, q, f, log[f - 1])
    requires Rising(q.graph.slots[f].successors) && a < b && a in q.graph.slots[f].successors && b in q.graph.slots[f].successors
    requires a in Line(Finish(cfg, q, f, log[f - 1]).lanes, lane)
    ensures Ahead(Line(Finish(cfg, q, f, log[f - 1]).lanes, lane), a, b)
  {
    var nexts, left := q.graph.slots[f].successors, Leave(q.lanes, LaneOf(cfg, log[f - 1].kind), q.graph.slots[f].laneKey);
    var i, j := RisingOrder(nexts, a, b);
    AllHeaded(cfg, q, log);
    SoundIsInv(cfg, q, log);
    LeaveLine(q.lanes, LaneOf(cfg, log[f - 1].kind), q.graph.slots[f].laneKey, lane);
    LeftLine(cfg, q, log, f, lane);
    LineIsReady(cfg, q, log, a, lane);
    LineIsReady(cfg, q, log, b, lane);
    ReleasedInOrder(cfg, left, ReleasedSlots(q.graph.slots, f), nexts, lane, i, j);
  }

  lemma CompletesInOrder(cfg: Settings, s: System, w: nat, x: nat, s': System, lane: Lane, a: nat, b: nat)
    requires Sound(cfg, s.q, s.log) && DoesComplete(cfg, s, w, x, s') && s.q.graph.slots[s.workers[w].seqno].job.None?
    requires var nexts := s.q.graph.slots[s.workers[w].seqno].successors; Rising(nexts) && a in nexts && b in nexts && a < b
    requires a in Line(s'.q.lanes, lane)
    ensures Ahead(Line(s'.q.lanes, lane), a, b)
  {
    CompletedParts(cfg, s, w, x, s.workers[w].seqno);
    CompletedInOrder(cfg, s.q, s.log, s.workers[w].seqno, lane, a, b);
  }

  /** Two jobs that became ready in one step did so by a completion they both come after. */
  lemma BecomeReady(cfg: Settings, s: System, step: Step, s': System, a: nat, b: nat)
    requires Next(cfg, s, step, s') && a != b
    requires !Ready(s.q, a) && !Ready(s.q, b) && Ready(s'.q, a) && Ready(s'.q, b)
    ensures step.Complete? && DoesComplete(cfg, s, step.worker, step.woken, s')
    ensures var nexts := s.q.graph.slots[s.workers[step.worker].seqno].successors; a in nexts && b in nexts
  {
    BecomesReady(cfg, s, step, s', a);
    BecomesReady(cfg, s, step, s', b);
  }

  lemma ReadyTogetherStep(cfg: Settings, init: Store, workers: nat, run: Trace, i: nat, lane: Lane, a: nat, b: nat)
    requires IsRun(cfg, init, workers, run, i + 1) && a < b && LaneAt(cfg, run.state(i + 1).log, a) == lane
    requires !Ready(run.state(i).q, a) && !Ready(run.state(i).q, b) && Ready(run.state(i + 1).q, a) && Ready(run.state(i + 1).q, b)
    ensures Ahead(Line(run.state(i + 1).q.lanes, lane), a, b)
  {
    var s, step, s' := run.state(i), run.step(i), run.state(i + 1);
    assert NextAt(cfg, run, i);
    RunSound(cfg, init, workers, run, i);
    BecomeReady(cfg, s, step, s', a, b);
    assert Rising(s.q.graph.slots[s.workers[step.worker].seqno].successors) by {
      RunRising(cfg, init, workers, run, i);
    }
    TakenIsOut(cfg, init, workers, run, i, step.worker);
    InLine(cfg, init, workers, run, i + 1, lane, a);
    CompletesInOrder(cfg, s, step.worker, step.woken, s', lane, a, b);
  }

  lemma TakenIsOut(cfg: Settings, init: Store, workers: nat, run: Trace, n: nat, w: nat)
    requires IsRun(cfg, init, workers, run, n) && Worked(run.state(n), w)
    ensures run.state(n).workers[w].seqno in run.state(n).q.graph.slots
    ensures run.state(n).q.graph.slots[run.state(n).workers[w].seqno].job.None?
  {
    RunKeeps(cfg, init, workers, run, n);
    GoodWork(cfg, init, run.state(n));
    assert Holds(TheStaff, cfg, run.state(n));
  }

  /** And of two that became ready at once, the one pushed first is the first taken. */
  lemma TogetherInPushOrder(cfg: Settings, init: Store, workers: nat, run: Trace, i: nat, n: nat, a: nat, b: nat)
    requires IsRun(cfg, init, workers, run, n + 1) && i < n && a < b
    requires !Ready(run.state(i).q, a) && !Ready(run.state(i).q, b) && Ready(run.state(i + 1).q, a)
    requires TakesJob(run, n, b) && LaneAt(cfg, run.state(n).log, a) == LaneAt(cfg, run.state(n).log, b)
    ensures Gone(run.state(n).q, a)
  {
    if Ready(run.state(i + 1).q, b) {
      var lane := LaneAt(cfg, run.state(n).log, b);
      LaneStays(cfg, init, workers, run, i + 1, n, a);
      ReadyTogetherStep(cfg, init, workers, run, i, lane, a, b);
      FirstIsTaken(cfg, init, workers, run, i + 1, n, lane, a, b);
    } else {
      FirstReadyFirstTaken(cfg, init, workers, run, i + 1, n, a, b);
    }
  }

  // ----- Between lanes -----

  /** A job of a lane that a worker runs. */
  ghost predicate RunsOf(cfg: Settings, s: System, lane: Lane, r: nat) {
    r in s.running && LaneAt(cfg, s.log, r) == lane
  }

  ghost function RunningOf(cfg: Settings, s: System, lane: Lane): set<nat> {
    set r | r in s.running && RunsOf(cfg, s, lane, r)
  }

  lemma RunnersAre(cfg: Settings, init: Store, workers: nat, run: Trace, n: nat, lane: Lane)
    requires IsRun(cfg, init, workers, run, n)
    ensures RunningOf(cfg, run.state(n), lane) == Runners(cfg, run.state(n).log, ViewOf(run.state(n).q.graph.slots), lane)
  {
    var s := run.state(n);
    RunKeeps(cfg, init, workers, run, n);
    GoodWork(cfg, init, s);
    assert Holds(TheStaff, cfg, s);
    RunQueue(cfg, init, workers, run, n);
    forall r
      ensures r in s.running <==> r in ViewOf(s.q.graph.slots) && ViewOf(s.q.graph.slots)[r].RunsAt?
    {
      if r in s.q.graph.slots {
        assert SlotOk(cfg, s.q.graph.slots[r], s.q.graph.incomplete, s.log, r);
      }
    }
  }

  lemma {:induction false} ImageSize(from: set<nat>, v: View, to: set<nat>)
    requires forall s :: s in from ==> s in v
    requires forall s, t :: s in from && t in from && s != t ==> v[s].key != v[t].key
    requires to == (set s | s in from :: v[s].key)
    ensures |to| == |from|
  {
    if from != {} {
      var x :| x in from;
      ImageSize(from - {x}, v, to - {v[x].key});
    }
  }

  /** The serial lane runs one job at a time, the bounded lane as many as its width, counted by its keys. */
  lemma RunningCounts(cfg: Settings, init: Store, workers: nat, run: Trace, n: nat)
    requires IsRun(cfg, init, workers, run, n)
    ensures var s := run.state(n);
            && |RunningOf(cfg, s, Serial)| == (if s.q.lanes.serialRunning then 1 else 0)
            && |RunningOf(cfg, s, Bounded)| == s.q.lanes.bounded.count <= cfg.width
  {
    var s := run.state(n);
    RunQueue(cfg, init, workers, run, n);
    RunnersAre(cfg, init, workers, run, n, Serial);
    RunnersAre(cfg, init, workers, run, n, Bounded);
    ImageSize(RunningOf(cfg, s, Bounded), ViewOf(s.q.graph.slots), s.q.lanes.bounded.running);
  }

  lemma ChosenFrom(cfg: Settings, s: System, w: nat, s': System, b: nat)
    requires Inv(cfg, s.q, s.log) && DoesPickUp(cfg, s, w, s') && IsWorker(s', w, Running(b))
    ensures LaneAt(cfg, s.log, b) != Serial ==> s.q.lanes.serialRunning || s.q.lanes.ready == []
    ensures LaneAt(cfg, s.log, b) == Wide ==> s.q.lanes.bounded.count >= cfg.width || s.q.lanes.bounded.readyKeys == []
    ensures LaneAt(cfg, s.log, b) == Serial ==> !s.q.lanes.serialRunning
    ensures LaneAt(cfg, s.log, b) == Bounded ==> s.q.lanes.bounded.count < cfg.width
  {
    ChosenIsReady(cfg, s.log, ViewOf(s.q.graph.slots), s.q.lanes);
  }

  /**
   A job outside the serial lane is taken only while no serial job is ready or one runs, and one of
   the wide lane only while, besides, no bounded job is ready or as many run as the width.
   */
  lemma LaneByLane(cfg: Settings, init: Store, workers: nat, run: Trace, n: nat, a: nat, b: nat)
    requires IsRun(cfg, init, workers, run, n + 1) && TakesJob(run, n, b) && Ready(run.state(n).q, a)
    ensures var s := run.state(n);
            && (LaneAt(cfg, s.log, a) == Serial != LaneAt(cfg, s.log, b) ==> |RunningOf(cfg, s, Serial)| == 1)
            && (LaneAt(cfg, s.log, a) == Bounded && LaneAt(cfg, s.log, b) == Wide ==> |RunningOf(cfg, s, Bounded)| == cfg.width)
  {
    var s := run.state(n);
    assert NextAt(cfg, run, n);
    RunQueue(cfg, init, workers, run, n);
    RunningCounts(cfg, init, workers, run, n);
    ChosenFrom(cfg, s, run.step(n).worker, run.state(n + 1), b);
    ReadyIsListed(cfg, s.q, s.log, a);
  }

  lemma ReadyIsListed(cfg: Settings, q: State, log: seq<Job>, a: nat)
    requires Inv(cfg, q, log) && Ready(q, a)
    ensures LaneAt(cfg, log, a) == Serial ==> q.lanes.ready != []
    ensures LaneAt(cfg, log, a) == Bounded ==> q.lanes.bounded.readyKeys != []
    ensures LaneAt(cfg, log, a) == Wide ==> q.lanes.readyClones != []
  {
    LineIsReady(cfg, q, log, a, LaneAt(cfg, log, a));
  }

  // ----- The kinds -----

  ghost predicate RunsKind(s: System, kinds: set<Kind>, r: nat) {
    r in s.running && 1 <= r <= |s.log| && s.log[r - 1].kind in kinds
  }

  const CHANGES := {Rename, Setattr, Link}
  const CREATES := {Create, Write, Mkdir, Symlink}
  const REMOVES := {Clone, Unlink, Rmdir}

  /** Of renames, attribute changes and links, and of creates too unless those are wide, never do two run at once. */
  lemma OneChangeAtATime(cfg: Settings, init: Store, workers: nat, run: Trace, n: nat, a: nat, b: nat)
    requires IsRun(cfg, init, workers, run, n) && a != b
    requires var kinds := if cfg.wideCreates then CHANGES else CHANGES + CREATES;
             RunsKind(run.state(n), kinds, a)
    ensures var kinds := if cfg.wideCreates then CHANGES else CHANGES + CREATES;
            !RunsKind(run.state(n), kinds, b)
  {
    var s := run.state(n);
    RunningCounts(cfg, init, workers, run, n);
    if RunsOf(cfg, s, Serial, a) && RunsOf(cfg, s, Serial, b) {
      assert {a, b} <= RunningOf(cfg, s, Serial);
      SubsetSize({a, b}, RunningOf(cfg, s, Serial));
    }
  }

  lemma {:induction false} SubsetSize(a: set<nat>, b: set<nat>)
    requires a <= b
    ensures |a| <= |b|
  {
    if a != {} {
      var x :| x in a;
      SubsetSize(a - {x}, b - {x});
    }
  }

  /** Of creates, writes, directories and symbolic links, never do more run at once than the width. */
  lemma CreatesWithinWidth(cfg: Settings, init: Store, workers: nat, run: Trace, n: nat, creates: set<nat>)
    requires IsRun(cfg, init, workers, run, n) && cfg.wideCreates
    requires forall r :: r in creates ==> RunsKind(run.state(n), CREATES, r)
    ensures |creates| <= cfg.width
  {
    RunningCounts(cfg, init, workers, run, n);
    assert forall r :: r in creates ==> RunsOf(cfg, run.state(n), Bounded, r);
    SubsetSize(creates, RunningOf(cfg, run.state(n), Bounded));
  }

  /** A clone, unlink or removed directory that waits for nothing can always be picked, whatever runs. */
  lemma RemovesNeverWait(cfg: Settings, init: Store, workers: nat, run: Trace, n: nat, a: nat)
    requires IsRun(cfg, init, workers, run, n) && Ready(run.state(n).q, a)
    requires 1 <= a <= |run.state(n).log| && run.state(n).log[a - 1].kind in REMOVES
    ensures Pickable(cfg, run.state(n).q.lanes)
  {
    var s := run.state(n);
    RunQueue(cfg, init, workers, run, n);
    ReadyIsListed(cfg, s.q, s.log, a);
  }
}
