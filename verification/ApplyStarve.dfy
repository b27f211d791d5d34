/**
 Which storms a barrier outlasts. A `drain_to` always returns, whatever of certain kinds is pushed
 for ever after it was called, if and only if those kinds are all of the wide lane. For any other
 kind, serial or bounded, and for any number of workers, there is a fair run that starves it: each
 worker in turn looks at the queue just when a job of that kind is ready and none of it runs, and
 takes it before the clone that was there before them all.
 */
module ApplyStarve {
  import opened Basics
  import opened Jobs
  import opened Queue
  import opened QueueLanes
  import QueueInvariant
  import opened ApplySystem
  import opened ApplyRuns
  import opened ApplyFair

  // ----- The run -----

  /** Where the storm takes place, and the kind of job that is pushed over and over. */
  datatype Place = Place(cfg: Settings, init: Store, workers: nat, kind: Kind)

  ghost predicate Stormy(p: Place) {
    p.workers >= 1 && p.cfg.window >= 1 && p.cfg.width >= 1 && LaneOf(p.cfg, p.kind) != Wide
  }

  const CLONE := Job(Clone, [1], 0, [])
  const DRAINER := Caller(ToDrain(1), Looking)

  ghost function Gust(p: Place): Job {
    Job(p.kind, [2], 0, [])
  }

  ghost function Pusher(p: Place): Caller {
    Caller(ToPush(Gust(p)), Looking)
  }

  ghost function Log(p: Place, k: nat): seq<Job>
    requires k >= 1
  {
    [CLONE] + seq(k - 1, _ => Gust(p))
  }

  ghost function Key(p: Place, n: nat): nat {
    if !p.cfg.affinity then n else if n == 1 then 1 else 2
  }

  ghost function ClonesSlot(p: Place): Slot {
    Slot(Some(CLONE), 0, [], Key(p, 1))
  }

  ghost function GustsSlot(p: Place, n: nat): Slot {
    Slot(Some(Gust(p)), 0, [], Key(p, n))
  }

  /** The lanes with the clone listed and job `k` ready, or running, or gone. */
  ghost function LanesReady(p: Place, k: nat): Lanes {
    if LaneOf(p.cfg, p.kind) == Serial then Lanes(false, [k], [1], EMPTY_LANES.bounded)
    else Lanes(false, [], [1], BoundedLane(map[Key(p, k) := [k]], [Key(p, k)], {}, 0))
  }

  ghost function LanesRunning(p: Place, k: nat): Lanes {
    if LaneOf(p.cfg, p.kind) == Serial then Lanes(true, [], [1], EMPTY_LANES.bounded)
    else Lanes(false, [], [1], BoundedLane(map[], [], {Key(p, k)}, 1))
  }

  const LANES_ALONE := Lanes(false, [], [1], EMPTY_LANES.bounded)

  /** The queue with job `k` pushed, taken by a worker, and done. */
  ghost function Ready(p: Place, k: nat): State {
    State(false, LanesReady(p, k), Graph(map[1 := ClonesSlot(p), k := GustsSlot(p, k)], map[1 := 1, 2 := k], {1, k}), 2, k, 0)
  }

  ghost function Taken(p: Place, k: nat): State {
    State(false, LanesRunning(p, k), Graph(map[1 := ClonesSlot(p), k := GustsSlot(p, k).(job := None)], map[1 := 1, 2 := k], {1, k}), 2, k, 0)
  }

  ghost function Alone(p: Place, k: nat): State {
    State(false, LANES_ALONE, Graph(map[1 := ClonesSlot(p)], map[1 := 1], {1}), 1, k, 0)
  }

  /** The worker whose turn job `k` is: they go round. */
  ghost function Turn(p: Place, k: nat): (w: nat)
    requires p.workers >= 1
    ensures w < p.workers
  {
    if k < p.workers then k else Turn(p, k - p.workers)
  }

  ghost function Hands(p: Place, k: nat, at: Worker): seq<Worker>
    requires p.workers >= 1
  {
    seq(p.workers, _ => Idle)[Turn(p, k) := at]
  }

  const WAITING := map[0 := DRAINER]

  /** The round of job `k`: it is picked, run and completed, and the next is pushed before its worker looks again. */
  ghost function Round(p: Place, k: nat, j: nat): System
    requires k >= 2 && p.workers >= 1
  {
    var both := map[0 := DRAINER, 1 := Pusher(p)];
    var run := map[k := Run(Turn(p, k), 0)];
    match j
    case 0 => System(Ready(p, k), Log(p, k), 0, {1, k}, p.init, map[], {}, Hands(p, k, Idle), WAITING, 0, 0)
    case 1 => System(Taken(p, k), Log(p, k), 0, {1, k}, p.init, run, {}, Hands(p, k, Running(k)), WAITING, 0, 0)
    case 2 => System(Taken(p, k), Log(p, k), 0, {1}, p.init, run, {}, Hands(p, k, Finishing(k)), WAITING, 0, 0)
    case 3 => System(Alone(p, k), Log(p, k), 0, {1}, p.init, map[], {}, Hands(p, k, Settling), WAITING, 0, 0)
    case 4 => System(Alone(p, k), Log(p, k), 0, {1}, p.init, map[], {}, Hands(p, k, Settling), both, 0, 0)
    case 5 => System(Ready(p, k + 1), Log(p, k + 1), 0, {1, k + 1}, p.init, map[], {}, Hands(p, k, Settling), WAITING, 1, 0)
    case _ => System(Ready(p, k + 1), Log(p, k + 1), 0, {1, k + 1}, p.init, map[], {}, Hands(p, k, Settling), WAITING, 0, 0)
  }

  ghost function RoundStep(p: Place, k: nat, j: nat): Step
    requires p.workers >= 1
  {
    match j
    case 0 => PickUp(Turn(p, k))
    case 1 => Repay(Turn(p, k))
    case 2 => Complete(Turn(p, k), 0)
    case 3 => Call(1, ToPush(Gust(p)))
    case 4 => PushJob(1)
    case 5 => NotifyOne(0)
    case _ => Announce(Turn(p, k))
  }

  ghost function RoundAfter(p: Place, k: nat, j: nat): System
    requires k >= 2 && p.workers >= 1
  {
    if j < 6 then Round(p, k, j + 1) else Round(p, k + 1, 0)
  }

  /** How it comes to that: the clone is pushed, its drain begins, and the first job of the storm is pushed. */
  ghost function Opening(p: Place, j: nat): System
    requires p.workers >= 1
  {
    var idle := seq(p.workers, _ => Idle);
    match j
    case 0 => Start(p.init, p.workers)
    case 1 => Start(p.init, p.workers).(callers := map[1 := Caller(ToPush(CLONE), Looking)])
    case 2 => System(Alone(p, 1), Log(p, 1), 0, {1}, p.init, map[], {}, idle, map[], 1, 0)
    case 3 => System(Alone(p, 1), Log(p, 1), 0, {1}, p.init, map[], {}, idle, map[], 0, 0)
    case 4 => System(Alone(p, 1), Log(p, 1), 0, {1}, p.init, map[], {}, idle, WAITING, 0, 0)
    case 5 => System(Alone(p, 1), Log(p, 1), 0, {1}, p.init, map[], {}, idle, map[0 := DRAINER, 1 := Pusher(p)], 0, 0)
    case _ => Round(p, 2, 0).(oweOne := 1)
  }

  ghost function OpeningStep(p: Place, j: nat): Step {
    match j
    case 0 => Call(1, ToPush(CLONE))
    case 1 => PushJob(1)
    case 2 => NotifyOne(0)
    case 3 => Call(0, ToDrain(1))
    case 4 => Call(1, ToPush(Gust(p)))
    case 5 => PushJob(1)
    case _ => NotifyOne(0)
  }

  ghost function OpeningAfter(p: Place, j: nat): System
    requires p.workers >= 1
  {
    if j < 6 then Opening(p, j + 1) else Round(p, 2, 0)
  }

  ghost function StateAt(p: Place, i: nat): System
    requires p.workers >= 1
  {
    if i < 7 then Opening(p, i) else Round(p, i / 7 + 1, i % 7)
  }

  ghost function StepAt(p: Place, i: nat): Step
    requires p.workers >= 1
  {
    if i < 7 then OpeningStep(p, i) else RoundStep(p, i / 7 + 1, i % 7)
  }

  ghost function Storm(p: Place): Trace
    requires p.workers >= 1
  {
    Trace((i: nat) => StateAt(p, i), (i: nat) => StepAt(p, i))
  }

  // ----- The queue, from push to push -----

  lemma LogGrows(p: Place, k: nat)
    requires k >= 1
    ensures Log(p, k + 1) == Log(p, k) + [Gust(p)] && |Log(p, k)| == k && (k >= 2 ==> Log(p, k)[k - 1] == Gust(p))
  {
  }

  lemma PushesGraph(p: Place, k: nat)
    requires k >= 1
    ensures Queue.Hold(p.cfg, Alone(p, k).graph, k + 1, Gust(p)) == Ready(p, k + 1).graph
    ensures Predecessors(Alone(p, k).graph.tails, Gust(p).keys) == {}
  {
    var g, g' := Alone(p, k).graph, Ready(p, k + 1).graph;
    assert Predecessors(g.tails, Gust(p).keys) == {};
    assert NewSlot(p.cfg, g, k + 1, Gust(p)) == GustsSlot(p, k + 1);
    assert AddSuccessor(g.slots, {}, k + 1)[k + 1 := GustsSlot(p, k + 1)] == g'.slots;
    assert Retail(g.tails, Gust(p).keys, k + 1) == g'.tails;
    assert g.incomplete + {k + 1} == g'.incomplete;
  }

  lemma PushesLanes(p: Place, k: nat)
    requires Stormy(p)
    ensures Queue.List(LANES_ALONE, LaneOf(p.cfg, p.kind), k, Key(p, k)) == LanesReady(p, k)
  {
    assert [] + [k] == [k] && [] + [Key(p, k)] == [Key(p, k)];
  }

  lemma Pushes(p: Place, k: nat)
    requires Stormy(p) && k >= 1
    ensures Queue.Push(p.cfg, Alone(p, k), Gust(p)) == Ready(p, k + 1)
  {
    PushesGraph(p, k);
    PushesLanes(p, k + 1);
  }

  lemma Chooses(p: Place, k: nat)
    requires Stormy(p)
    ensures Pickable(p.cfg, LanesReady(p, k)) && CanChoose(p.cfg, LanesReady(p, k))
    ensures Choose(p.cfg, LanesReady(p, k)) == (LanesRunning(p, k), k)
  {
    var l := LanesReady(p, k);
    if LaneOf(p.cfg, p.kind) == Serial {
      assert l.ready[1..] == [];
    } else {
      assert l.bounded.readyKeys[1..] == [];
      assert l.bounded.byKey - {Key(p, k)} == map[];
      assert {} + {Key(p, k)} == {Key(p, k)};
    }
  }

  lemma GustIsDropped(p: Place, k: nat)
    requires k >= 2
    ensures Drop(Taken(p, k).graph, k, Gust(p).keys) == Alone(p, k).graph
  {
    var g, g' := Taken(p, k).graph, Alone(p, k).graph;
    assert ReleasedSlots(g.slots, k) == g'.slots;
    assert Untail(g.tails, Gust(p).keys, k) == g'.tails;
    assert g.incomplete - {k} == g'.incomplete;
  }

  lemma GustLeaves(p: Place, k: nat)
    requires Stormy(p)
    ensures LaneOf(p.cfg, p.kind) == Bounded ==> LanesRunning(p, k).bounded.count > 0
    ensures Leave(LanesRunning(p, k), LaneOf(p.cfg, p.kind), Key(p, k)) == LANES_ALONE
  {
    assert {Key(p, k)} - {Key(p, k)} == {};
  }

  lemma Finishes(p: Place, k: nat)
    requires Stormy(p) && k >= 2
    ensures CanFinish(p.cfg, Taken(p, k), k, Gust(p)) && Finish(p.cfg, Taken(p, k), k, Gust(p)) == Alone(p, k)
  {
    GustIsDropped(p, k);
    GustLeaves(p, k);
    QueueInvariant.LeastIs({1}, 1);
  }

  // ----- Every step of a round is one -----

  lemma HandsAre(p: Place, k: nat, at: Worker)
    requires p.workers >= 1 && !at.Asleep?
    ensures |Hands(p, k, at)| == p.workers && Hands(p, k, at)[Turn(p, k)] == at && AllBusy(Hands(p, k, at))
    ensures forall next :: Hands(p, k, at)[Turn(p, k) := next] == Hands(p, k, next)
    ensures at.Idle? ==> Hands(p, k, at) == seq(p.workers, _ => Idle)
  {
  }

  lemma PickStep(p: Place, k: nat)
    requires Stormy(p) && k >= 2
    ensures DoesPickUp(p.cfg, Round(p, k, 0), Turn(p, k), Round(p, k, 1))
  {
    var s, s' := Round(p, k, 0), Round(p, k, 1);
    HandsAre(p, k, Idle);
    Chooses(p, k);
    assert Take(s.q.graph, k) == s'.q.graph;
  }

  lemma RepayStep(p: Place, k: nat)
    requires Stormy(p) && k >= 2
    ensures DoesRepay(Round(p, k, 1), Turn(p, k), Round(p, k, 2))
  {
    var s, s' := Round(p, k, 1), Round(p, k, 2);
    LogGrows(p, k);
    HandsAre(p, k, Running(k));
    assert s.unpaid - {k} == s'.unpaid;
  }

  lemma CompletesTo(cfg: Settings, s: System, w: nat, k: nat, s': System)
    requires LockFree(s) && w < |s.workers| && s.workers[w] == Finishing(k) && Worked(s, w) && AllBusy(s.workers)
    requires CanFinish(cfg, s.q, k, s.log[k - 1]) && s.q.graph.slots[k].successors == []
    requires s' == s.(q := Finish(cfg, s.q, k, s.log[k - 1]), running := s.running - {k}, workers := s.workers[w := Settling])
    ensures DoesComplete(cfg, s, w, 0, s')
  {
    assert WokenBy(cfg, s, k, 0) == s.workers;
  }

  lemma CompleteStep(p: Place, k: nat)
    requires Stormy(p) && k >= 2
    ensures DoesComplete(p.cfg, Round(p, k, 2), Turn(p, k), 0, Round(p, k, 3))
  {
    var s, s' := Round(p, k, 2), Round(p, k, 3);
    LogGrows(p, k);
    HandsAre(p, k, Finishing(k));
    Finishes(p, k);
    assert s.running - {k} == s'.running;
    CompletesTo(p.cfg, s, Turn(p, k), k, s');
  }

  lemma CallStep(p: Place, k: nat)
    requires Stormy(p) && k >= 2
    ensures DoesWait(p.cfg, Round(p, k, 3), Call(1, ToPush(Gust(p))), Round(p, k, 4))
  {
  }

  lemma PushesTo(cfg: Settings, s: System, job: Job, s': System)
    requires LockFree(s) && IsCaller(s, 1, Looking) && s.callers[1].wish == ToPush(job) && !Blocked(cfg, s, ToPush(job)) && job.bytes == 0
    requires s' == s.(q := Queue.Push(cfg, s.q, job), log := s.log + [job], unpaid := s.unpaid + {s.q.pushed + 1},
                      callers := s.callers - {1}, oweOne := s.oweOne + 1)
    ensures DoesPush(cfg, s, 1, s')
  {
  }

  lemma PushStep(p: Place, k: nat)
    requires Stormy(p) && k >= 2
    ensures DoesPush(p.cfg, Round(p, k, 4), 1, Round(p, k, 5))
  {
    var s, s' := Round(p, k, 4), Round(p, k, 5);
    Pushes(p, k);
    LogGrows(p, k);
    assert s.callers - {1} == s'.callers;
    assert s.unpaid + {k + 1} == s'.unpaid;
    PushesTo(p.cfg, s, Gust(p), s');
  }

  lemma NotifyStep(p: Place, k: nat)
    requires Stormy(p) && k >= 2
    ensures DoesWake(p.cfg, Round(p, k, 5), NotifyOne(0), Round(p, k, 6))
  {
    HandsAre(p, k, Settling);
  }

  lemma AnnounceStep(p: Place, k: nat)
    requires Stormy(p) && k >= 2
    ensures DoesWake(p.cfg, Round(p, k, 6), Announce(Turn(p, k)), Round(p, k + 1, 0))
  {
    var s := Round(p, k, 6);
    HandsAre(p, k, Settling);
    HandsAre(p, k, Idle);
    HandsAre(p, k + 1, Idle);
    assert WakeCallers(s.callers) == s.callers;
  }

  lemma RoundSteps(p: Place, k: nat, j: nat)
    requires Stormy(p) && k >= 2 && j < 7
    ensures Next(p.cfg, Round(p, k, j), RoundStep(p, k, j), RoundAfter(p, k, j))
  {
    match j
    case 0 => PickStep(p, k);
    case 1 => RepayStep(p, k);
    case 2 => CompleteStep(p, k);
    case 3 => CallStep(p, k);
    case 4 => PushStep(p, k);
    case 5 => NotifyStep(p, k);
    case _ => AnnounceStep(p, k);
  }

  // ----- And of the opening -----

  lemma PushesClone(p: Place)
    ensures Queue.Push(p.cfg, INITIAL, CLONE) == Alone(p, 1)
  {
    var g := INITIAL.graph;
    assert Predecessors(g.tails, CLONE.keys) == {};
    assert NewSlot(p.cfg, g, 1, CLONE) == ClonesSlot(p);
    assert AddSuccessor(g.slots, {}, 1)[1 := ClonesSlot(p)] == map[1 := ClonesSlot(p)];
    assert Retail(g.tails, CLONE.keys, 1) == map[1 := 1];
    assert [] + [1] == [1];
  }

  lemma FirstPush(p: Place)
    requires Stormy(p)
    ensures DoesPush(p.cfg, Opening(p, 1), 1, Opening(p, 2))
  {
    var s, s' := Opening(p, 1), Opening(p, 2);
    PushesClone(p);
    assert s.callers - {1} == map[];
    assert s.log + [CLONE] == Log(p, 1);
    assert s.unpaid + {1} == {1};
    PushesTo(p.cfg, s, CLONE, s');
  }

  lemma SecondPushed(p: Place)
    requires Stormy(p)
    ensures var s := Opening(p, 5);
            Opening(p, 6) == s.(q := Ready(p, 2), log := s.log + [Gust(p)], unpaid := s.unpaid + {2},
                                callers := s.callers - {1}, oweOne := 1)
  {
    var s, s' := Opening(p, 5), Opening(p, 6);
    LogGrows(p, 1);
    HandsAre(p, 2, Idle);
    assert s.callers - {1} == s'.callers;
    assert s.unpaid + {2} == s'.unpaid;
  }

  lemma SecondPush(p: Place)
    requires Stormy(p)
    ensures DoesPush(p.cfg, Opening(p, 5), 1, Opening(p, 6))
  {
    SecondPushed(p);
    Pushes(p, 1);
    PushesTo(p.cfg, Opening(p, 5), Gust(p), Opening(p, 6));
  }

  lemma QuietOpening(p: Place, j: nat)
    requires Stormy(p) && j in {0, 3, 4}
    ensures DoesWait(p.cfg, Opening(p, j), OpeningStep(p, j), Opening(p, j + 1))
  {
  }

  lemma NoticeOpening(p: Place, j: nat)
    requires Stormy(p) && j in {2, 6}
    ensures DoesWake(p.cfg, Opening(p, j), NotifyOne(0), OpeningAfter(p, j))
  {
    HandsAre(p, 2, Idle);
  }

  lemma OpeningSteps(p: Place, j: nat)
    requires Stormy(p) && j < 7
    ensures Next(p.cfg, Opening(p, j), OpeningStep(p, j), OpeningAfter(p, j))
  {
    match j
    case 1 => FirstPush(p);
    case 5 => SecondPush(p);
    case 2 => NoticeOpening(p, 2);
    case 6 => NoticeOpening(p, 6);
    case _ => QuietOpening(p, j);
  }

  // ----- It is a run -----

  predicate Sure(yes: bool) {
    yes
  }

  /** `Next`, kept folded: a proof that uses it as a whole does not look into it. */
  ghost predicate Leads(cfg: Settings, a: System, step: Step, b: System) {
    forall yes {:trigger Sure(yes)} :: Sure(yes) ==> Next(cfg, a, step, b)
  }

  lemma LeadsIsNext(cfg: Settings, a: System, step: Step, b: System)
    requires Leads(cfg, a, step, b)
    ensures Next(cfg, a, step, b)
  {
    assert Sure(true);
  }

  lemma RoundLeads(p: Place, k: nat, j: nat)
    requires Stormy(p) && k >= 2 && j < 7
    ensures Leads(p.cfg, Round(p, k, j), RoundStep(p, k, j), RoundAfter(p, k, j))
  {
    RoundSteps(p, k, j);
  }

  lemma OpeningLeads(p: Place, j: nat)
    requires Stormy(p) && j < 7
    ensures Leads(p.cfg, Opening(p, j), OpeningStep(p, j), OpeningAfter(p, j))
  {
    OpeningSteps(p, j);
  }

  lemma Sevens(i: nat, k: nat, j: nat)
    requires i == 7 * (k - 1) + j && j < 7 && k >= 1
    ensures i / 7 + 1 == k && i % 7 == j
  {
  }

  lemma InRound(p: Place, i: nat, k: nat, j: nat)
    requires p.workers >= 1 && i == 7 * (k - 1) + j && j < 7 && k >= 2
    ensures StateAt(p, i) == Round(p, k, j) && StepAt(p, i) == RoundStep(p, k, j)
  {
    Sevens(i, k, j);
  }

  lemma AfterRound(p: Place, i: nat, k: nat, j: nat)
    requires p.workers >= 1 && i == 7 * (k - 1) + j && j < 7 && k >= 2
    ensures StateAt(p, i + 1) == RoundAfter(p, k, j)
  {
    if j < 6 {
      InRound(p, i + 1, k, j + 1);
    } else {
      InRound(p, i + 1, k + 1, 0);
    }
  }

  lemma AfterOpening(p: Place, i: nat)
    requires p.workers >= 1 && i < 7
    ensures StateAt(p, i + 1) == OpeningAfter(p, i)
  {
    if i == 6 {
      InRound(p, 7, 2, 0);
    }
  }

  lemma Carry(cfg: Settings, a: System, step: Step, b: System, a': System, step': Step, b': System)
    requires Leads(cfg, a, step, b) && a' == a && step' == step && b' == b
    ensures Leads(cfg, a', step', b')
  {
  }

  lemma RoundNext(p: Place, i: nat, k: nat, j: nat)
    requires Stormy(p) && i == 7 * (k - 1) + j && j < 7 && k >= 2
    ensures Leads(p.cfg, StateAt(p, i), StepAt(p, i), StateAt(p, i + 1))
  {
    InRound(p, i, k, j);
    AfterRound(p, i, k, j);
    RoundLeads(p, k, j);
    Carry(p.cfg, Round(p, k, j), RoundStep(p, k, j), RoundAfter(p, k, j), StateAt(p, i), StepAt(p, i), StateAt(p, i + 1));
  }

  lemma OpeningNext(p: Place, i: nat)
    requires Stormy(p) && i < 7
    ensures Leads(p.cfg, StateAt(p, i), StepAt(p, i), StateAt(p, i + 1))
  {
    AfterOpening(p, i);
    OpeningLeads(p, i);
    Carry(p.cfg, Opening(p, i), OpeningStep(p, i), OpeningAfter(p, i), StateAt(p, i), StepAt(p, i), StateAt(p, i + 1));
  }

  lemma IsNext(p: Place, i: nat)
    requires Stormy(p)
    ensures NextAt(p.cfg, Storm(p), i)
  {
    if i < 7 {
      OpeningNext(p, i);
    } else {
      RoundNext(p, i, i / 7 + 1, i % 7);
    }
    LeadsIsNext(p.cfg, StateAt(p, i), StepAt(p, i), StateAt(p, i + 1));
  }

  // ----- It is fair -----

  /** Round `k` has its `j`th step at the time seven times `k - 1`, and `j`. */
  lemma ActsIn(p: Place, agent: Agent, t: nat, k: nat, j: nat)
    requires p.workers >= 1 && k >= 2 && 7 * (k - 1) >= t && j < 7 && Of(agent, RoundStep(p, k, j))
    ensures Acts(Storm(p), agent, t)
  {
    var i := 7 * (k - 1) + j;
    InRound(p, i, k, j);
    assert Of(agent, Storm(p).step(i));
  }

  /** Every worker's turn comes again and again. */
  lemma {:induction false} TurnComes(p: Place, w: nat, t: nat) returns (k: nat)
    requires w < p.workers
    ensures k >= t && Turn(p, k) == w
  {
    if t == 0 {
      k := w;
    } else {
      var before := TurnComes(p, w, t - 1);
      k := before + p.workers;
    }
  }

  /** Who else there is, and why it cannot move. */
  ghost predicate Outside(p: Place, s: System) {
    && |s.workers| == p.workers && s.oweAll == 0 && (forall c :: c in s.callers ==> c < 2)
    && 0 in s.callers && s.callers[0] == DRAINER && s.q.applied == 0
  }

  /** Whoever the storm does not move. */
  predicate Bystander(p: Place, agent: Agent) {
    match agent
    case TheWorker(w) => w >= p.workers
    case TheCaller(c) => c != 1
    case OneNotice => false
    case AllNotice => true
  }

  lemma WorkerCannot(p: Place, s: System, w: nat, step: Step, s': System)
    requires Outside(p, s) && w >= p.workers && Of(TheWorker(w), step)
    ensures !Next(p.cfg, s, step, s')
  {
  }

  lemma CallerCannot(p: Place, s: System, c: nat, step: Step, s': System)
    requires Outside(p, s) && c != 1 && Of(TheCaller(c), step)
    ensures !Next(p.cfg, s, step, s')
  {
  }

  lemma BystandersCannot(p: Place, s: System, agent: Agent)
    requires Outside(p, s) && Bystander(p, agent)
    ensures !Able(p.cfg, s, agent)
  {
    if step, s' :| Of(agent, step) && Next(p.cfg, s, step, s') {
      match agent
      case TheWorker(w) => WorkerCannot(p, s, w, step, s');
      case TheCaller(c) => CallerCannot(p, s, c, step, s');
      case _ =>
    }
  }

  lemma StormIsOutside(p: Place, i: nat)
    requires p.workers >= 1 && i >= 7
    ensures Outside(p, Storm(p).state(i))
  {
  }

  lemma Never(p: Place, agent: Agent, t: nat)
    requires p.workers >= 1 && Bystander(p, agent)
    ensures exists u: nat :: u >= t && NeverAble(p.cfg, Storm(p), agent, u)
  {
    var run := Storm(p);
    forall v: nat | v >= t + 7
      ensures !Able(p.cfg, run.state(v), agent)
    {
      StormIsOutside(p, v);
      BystandersCannot(p, run.state(v), agent);
    }
    assert NeverAble(p.cfg, run, agent, t + 7);
  }

  lemma Again(p: Place, agent: Agent, t: nat)
    requires p.workers >= 1 && !Bystander(p, agent)
    ensures Acts(Storm(p), agent, t)
  {
    match agent
    case TheWorker(w) =>
      var k := TurnComes(p, w, t + 2);
      ActsIn(p, agent, t, k, 0);
    case TheCaller(c) => ActsIn(p, agent, t, t + 2, 4);
    case OneNotice => ActsIn(p, agent, t, t + 2, 5);
  }

  lemma StormIsFair(p: Place)
    requires Stormy(p)
    ensures FairRun(p.cfg, p.init, p.workers, Storm(p))
  {
    var run := Storm(p);
    forall i: nat
      ensures NextAt(p.cfg, run, i)
    {
      IsNext(p, i);
    }
    forall agent, t: nat
      ensures Acts(run, agent, t) || exists u: nat :: u >= t && NeverAble(p.cfg, run, agent, u)
    {
      if Bystander(p, agent) {
        Never(p, agent, t);
      } else {
        Again(p, agent, t);
      }
    }
  }

  // ----- Exactly which storms starve -----

  /** A step that pushes, if it does, pushes a job of one of the kinds. */
  ghost predicate PushesOnly(s: System, step: Step, kinds: set<Kind>) {
    step.PushJob? && step.caller in s.callers && s.callers[step.caller].wish.ToPush? ==>
      s.callers[step.caller].wish.job.kind in kinds
  }

  /** From `t` on nobody holds the queue, and nothing is pushed but jobs of the kinds. */
  ghost predicate OnlyKinds(run: Trace, kinds: set<Kind>, t: nat) {
    Unheld(run, t) && forall i: nat :: i >= t ==> PushesOnly(run.state(i), run.step(i), kinds)
  }

  ghost predicate Returns(run: Trace, c: nat, t: nat) {
    exists u: nat :: u >= t && run.step(u) == Return(c)
  }

  /** Whatever of these kinds is pushed after it is called, and however much, every `drain_to` returns. */
  ghost predicate AlwaysReturns(cfg: Settings, init: Store, workers: nat, kinds: set<Kind>) {
    forall run, t: nat, c, seqno :: FairRun(cfg, init, workers, run) && OnlyKinds(run, kinds, t) && Waits(run.state(t), c, ToDrain(seqno)) ==>
      Returns(run, c, t)
  }

  /** A storm of one kind outside the wide lane: the drain of a clone pushed before it never returns. */
  lemma DrainCanStarve(p: Place) returns (run: Trace, t: nat, c: nat)
    requires Stormy(p)
    ensures FairRun(p.cfg, p.init, p.workers, run) && OnlyKinds(run, {p.kind}, t)
    ensures Waits(run.state(t), c, ToDrain(1)) && !Returns(run, c, t)
    ensures forall v: nat :: v >= t ==> Waits(run.state(v), c, ToDrain(1))
  {
    run, t, c := Storm(p), 7, 0;
    StormIsFair(p);
    forall v: nat | v >= t
      ensures Waits(run.state(v), c, ToDrain(1)) && run.step(v) != Return(c)
      ensures PushesOnly(run.state(v), run.step(v), {p.kind}) && !run.step(v).HoldQueue?
    {
      StormIsOutside(p, v);
      InTheStorm(p, v);
    }
    InRound(p, 7, 2, 0);
  }

  lemma InTheStorm(p: Place, v: nat)
    requires p.workers >= 1 && v >= 7
    ensures var s, step := StateAt(p, v), StepAt(p, v);
            step != Return(0) && !step.HoldQueue? && (step.PushJob? ==> step.caller == 1 && Waits(s, 1, ToPush(Gust(p))))
  {
    InRound(p, v, v / 7 + 1, v % 7);
  }

  lemma WideReturns(cfg: Settings, init: Store, workers: nat, kinds: set<Kind>)
    requires forall kind :: kind in kinds ==> LaneOf(cfg, kind) == Wide
    ensures AlwaysReturns(cfg, init, workers, kinds)
  {
    forall run, t: nat, c, seqno | FairRun(cfg, init, workers, run) && OnlyKinds(run, kinds, t) && Waits(run.state(t), c, ToDrain(seqno))
      ensures Returns(run, c, t)
    {
      assert OnlyWide(cfg, run, t) by {
        forall i: nat | i >= t
          ensures WidePush(cfg, run.state(i), run.step(i))
        {
          assert PushesOnly(run.state(i), run.step(i), kinds);
        }
      }
      var u := EveryDrainReturns(cfg, init, workers, run, t, c, seqno);
    }
  }

  /**
   For every number of workers, every host and every setting the code allows: a `drain_to` outlasts
   every storm of jobs of some kinds if and only if all of those kinds are of the wide lane.
   */
  lemma DrainOutlastsIffWide(cfg: Settings, init: Store, workers: nat, kinds: set<Kind>)
    requires cfg.width >= 1 && cfg.window >= 1 && workers >= 1
    ensures AlwaysReturns(cfg, init, workers, kinds) <==> forall kind :: kind in kinds ==> LaneOf(cfg, kind) == Wide
  {
    if kind :| kind in kinds && LaneOf(cfg, kind) != Wide {
      var run, t, c := DrainCanStarve(Place(cfg, init, workers, kind));
      forall i: nat | i >= t
        ensures PushesOnly(run.state(i), run.step(i), kinds)
      {
        assert PushesOnly(run.state(i), run.step(i), {kind});
      }
      assert OnlyKinds(run, kinds, t);
    } else {
      WideReturns(cfg, init, workers, kinds);
    }
  }
}
