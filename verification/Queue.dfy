/**
 The apply queue's state and its three critical sections, as functions of the
 state: the dependency graph, the three lanes and the counters. `ApplyQueue`
 carries the sections out in place; `QueueInvariant` says what they keep.
 */
module Queue {
  import opened Basics
  import opened Jobs

  /** A job from its push to its completion. Its worker takes `job` out; `waiting` counts the jobs it comes after. */
  datatype Slot = Slot(job: Option<Job>, waiting: nat, successors: seq<nat>, laneKey: nat)

  /** What the queue holds, the newest job on each key, and the numbers not yet applied. */
  datatype Graph = Graph(slots: map<nat, Slot>, tails: map<Key, nat>, incomplete: set<nat>)

  /** The lane of bounded width: what is ready under each lane key, which keys a worker may take from, and which it has taken from. */
  datatype BoundedLane = BoundedLane(byKey: map<nat, seq<nat>>, readyKeys: seq<nat>, running: set<nat>, count: nat)

  /** The lanes' ready lists and what runs in them. */
  datatype Lanes = Lanes(serialRunning: bool, ready: seq<nat>, readyClones: seq<nat>, bounded: BoundedLane)

  datatype State = State(held: bool, lanes: Lanes, graph: Graph, depth: nat, pushed: nat, applied: nat)

  const EMPTY_LANES := Lanes(false, [], [], BoundedLane(map[], [], {}, 0))
  const INITIAL := State(false, EMPTY_LANES, Graph(map[], map[], {}), 0, 0, 0)

  // ----- The lanes -----

  function Offer(b: BoundedLane, key: nat, seqno: nat): BoundedLane {
    var queue := (if key in b.byKey then b.byKey[key] else []) + [seqno];
    BoundedLane(b.byKey[key := queue],
                if |queue| == 1 && key !in b.running then b.readyKeys + [key] else b.readyKeys,
                b.running, b.count)
  }

  /** What `pick` expects of the first listed key: that it has a queue, and the queue a job. */
  predicate CanPick(b: BoundedLane) {
    b.readyKeys != [] && b.readyKeys[0] in b.byKey && b.byKey[b.readyKeys[0]] != []
  }

  function PickKey(b: BoundedLane): (r: (BoundedLane, nat))
    requires CanPick(b)
  {
    var key := b.readyKeys[0];
    var queue := b.byKey[key];
    (BoundedLane(if |queue| == 1 then b.byKey - {key} else b.byKey[key := queue[1..]],
                 b.readyKeys[1..], b.running + {key}, b.count + 1),
     queue[0])
  }

  function Finished(b: BoundedLane, key: nat): BoundedLane
    requires b.count > 0
  {
    BoundedLane(b.byKey,
                if key in b.byKey then b.readyKeys + [key] else b.readyKeys,
                b.running - {key}, b.count - 1)
  }

  /** Lists a job that waits for nothing in its lane. */
  function List(l: Lanes, lane: Lane, seqno: nat, laneKey: nat): Lanes {
    match lane
    case Serial => l.(ready := l.ready + [seqno])
    case Wide => l.(readyClones := l.readyClones + [seqno])
    case Bounded => l.(bounded := Offer(l.bounded, laneKey, seqno))
  }

  /** Whether a worker that looks now finds a job. */
  predicate Pickable(cfg: Settings, l: Lanes) {
    || (!l.serialRunning && l.ready != [])
    || (l.bounded.count < cfg.width && l.bounded.readyKeys != [])
    || l.readyClones != []
  }

  /** The serial lane's oldest if none of it runs, else a bounded key under the width, else the oldest clone. */
  function Choose(cfg: Settings, l: Lanes): (r: (Lanes, nat))
    requires Pickable(cfg, l)
    requires l.bounded.readyKeys != [] ==> CanPick(l.bounded)
  {
    if !l.serialRunning && l.ready != [] then (l.(ready := l.ready[1..], serialRunning := true), l.ready[0])
    else if l.bounded.count < cfg.width && l.bounded.readyKeys != [] then
      var (b, seqno) := PickKey(l.bounded);
      (l.(bounded := b), seqno)
    else (l.(readyClones := l.readyClones[1..]), l.readyClones[0])
  }

  function Leave(l: Lanes, lane: Lane, laneKey: nat): Lanes
    requires lane == Bounded ==> l.bounded.count > 0
  {
    match lane
    case Serial => l.(serialRunning := false)
    case Wide => l
    case Bounded => l.(bounded := Finished(l.bounded, laneKey))
  }

  /** Lists, in order, those of `nexts` that wait for nothing any more. */
  function ListReleased(cfg: Settings, l: Lanes, slots: map<nat, Slot>, nexts: seq<nat>): Lanes
    requires forall s :: s in nexts ==> s in slots
  {
    if nexts == [] then l
    else
      var n := |nexts| - 1;
      var front := ListReleased(cfg, l, slots, nexts[..n]);
      var slot := slots[nexts[n]];
      if slot.waiting == 0 then List(front, SlotLane(cfg, slot), nexts[n], slot.laneKey) else front
  }

  /** The lane a released job is listed in. */
  function SlotLane(cfg: Settings, slot: Slot): Lane {
    if slot.job.Some? then LaneOf(cfg, slot.job.value.kind) else Serial
  }

  // ----- push -----

  /** The key a bounded job is queued under: its directory with affinity on, itself otherwise. */
  function LaneKeyOf(cfg: Settings, keys: seq<Key>, seqno: nat): nat {
    if cfg.affinity && keys != [] then keys[0] else seqno
  }

  /** The newest held job on each of the keys: what a new job on them is ordered behind. */
  function Predecessors(tails: map<Key, nat>, keys: seq<Key>): set<nat> {
    set k | k in keys && k in tails :: tails[k]
  }

  function AddSuccessor(slots: map<nat, Slot>, preds: set<nat>, seqno: nat): map<nat, Slot> {
    map j | j in slots :: if j in preds then slots[j].(successors := slots[j].successors + [seqno]) else slots[j]
  }

  function NewSlot(cfg: Settings, g: Graph, seqno: nat, job: Job): Slot {
    Slot(Some(job), |Predecessors(g.tails, job.keys)|, [], LaneKeyOf(cfg, job.keys, seqno))
  }

  function Retail(tails: map<Key, nat>, keys: seq<Key>, seqno: nat): map<Key, nat> {
    map k | k in tails.Keys + (set x | x in keys) :: if k in keys then seqno else tails[k]
  }

  function Hold(cfg: Settings, g: Graph, seqno: nat, job: Job): Graph {
    Graph(AddSuccessor(g.slots, Predecessors(g.tails, job.keys), seqno)[seqno := NewSlot(cfg, g, seqno, job)],
          Retail(g.tails, job.keys, seqno),
          g.incomplete + {seqno})
  }

  /** `push` past its wait: the job is numbered, ordered behind the tails of its keys, and listed if it waits for none. */
  function Push(cfg: Settings, q: State, job: Job): State {
    var seqno := q.pushed + 1;
    State(q.held,
          if Predecessors(q.graph.tails, job.keys) == {}
          then List(q.lanes, LaneOf(cfg, job.kind), seqno, LaneKeyOf(cfg, job.keys, seqno))
          else q.lanes,
          Hold(cfg, q.graph, seqno, job),
          q.depth + 1, seqno, q.applied)
  }

  // ----- pick -----

  function Take(g: Graph, seqno: nat): Graph
    requires seqno in g.slots
  {
    g.(slots := g.slots[seqno := g.slots[seqno].(job := None)])
  }

  /** A worker's pick: the chosen job leaves its lane's list, and its slot is emptied. */
  function Pick(cfg: Settings, q: State): (r: (State, nat))
    requires Pickable(cfg, q.lanes)
    requires q.lanes.bounded.readyKeys != [] ==> CanPick(q.lanes.bounded)
    requires Choose(cfg, q.lanes).1 in q.graph.slots
  {
    var (lanes, seqno) := Choose(cfg, q.lanes);
    (q.(lanes := lanes, graph := Take(q.graph, seqno)), seqno)
  }

  // ----- finish -----

  function Released(slot: Slot): Slot {
    slot.(waiting := if slot.waiting > 0 then slot.waiting - 1 else 0)
  }

  /** Drops the tails that still name the finished job. */
  function Untail(tails: map<Key, nat>, keys: seq<Key>, seqno: nat): map<Key, nat> {
    map k | k in tails && !(k in keys && tails[k] == seqno) :: tails[k]
  }

  /** The slots once `seqno` is gone: each of its successors waits on one fewer. */
  function ReleasedSlots(slots: map<nat, Slot>, seqno: nat): map<nat, Slot>
    requires seqno in slots
  {
    map s | s in slots && s != seqno :: if s in slots[seqno].successors then Released(slots[s]) else slots[s]
  }

  function Drop(g: Graph, seqno: nat, keys: seq<Key>): Graph
    requires seqno in g.slots
  {
    Graph(ReleasedSlots(g.slots, seqno), Untail(g.tails, keys, seqno), g.incomplete - {seqno})
  }

  predicate IsLeast(s: set<nat>, x: nat) {
    x in s && forall y :: y in s ==> x <= y
  }

  /** `BTreeSet::first`. */
  ghost function Least(s: set<nat>): (x: nat)
    requires s != {}
    ensures IsLeast(s, x)
  {
    var x :| x in s;
    if s == {x} then
      assert forall y :: y in s ==> y in {x};
      x
    else
      assert s - {x} != {};
      var y := Least(s - {x});
      assert forall z :: z in s ==> z == x || z in s - {x};
      if x < y then x else y
  }

  ghost function Watermark(incomplete: set<nat>, pushed: nat): nat {
    if incomplete == {} then pushed else if Least(incomplete) > 0 then Least(incomplete) - 1 else 0
  }

  /** What the completion section expects to find of the job it completes. */
  ghost predicate CanFinish(cfg: Settings, q: State, seqno: nat, job: Job) {
    && seqno in q.graph.slots
    && q.depth > 0
    && (LaneOf(cfg, job.kind) == Bounded ==> q.lanes.bounded.count > 0)
    && NoDup(q.graph.slots[seqno].successors)
    && (forall s :: s in q.graph.slots[seqno].successors ==> s in q.graph.slots && s != seqno && q.graph.slots[s].waiting > 0)
  }

  /** The completion section of a worker's loop. */
  ghost function Finish(cfg: Settings, q: State, seqno: nat, job: Job): State
    requires CanFinish(cfg, q, seqno, job)
  {
    var slot := q.graph.slots[seqno];
    var graph := Drop(q.graph, seqno, job.keys);
    State(q.held,
          ListReleased(cfg, Leave(q.lanes, LaneOf(cfg, job.kind), slot.laneKey), graph.slots, slot.successors),
          graph,
          q.depth - 1, q.pushed, Watermark(graph.incomplete, q.pushed))
  }
}
