/**
 The apply queue's invariant: graph, lanes, counters and watermark together, against the log of every job pushed.
 Every critical section keeps it, and it gives isolation, progress and the exact watermark.
 */
module QueueInvariant {
  import opened Basics
  import opened Jobs
  import opened Queue
  import opened QueueGraph
  import opened QueueLanes

  ghost predicate CountersOk(q: State, log: seq<Job>) {
    && |log| == q.pushed
    && (forall i :: 0 <= i < |log| ==> ValidJob(log[i]))
    && q.depth == |q.graph.incomplete|
    && q.applied == Watermark(q.graph.incomplete, q.pushed)
  }

  ghost predicate Inv(cfg: Settings, q: State, log: seq<Job>) {
    && CountersOk(q, log)
    && GraphInv(cfg, q.graph, log)
    && LaneInv(cfg, log, ViewOf(q.graph.slots), q.lanes)
  }

  datatype Piece = TheCounters | TheGraph | TheLanes

  ghost predicate Fits(piece: Piece, cfg: Settings, q: State, log: seq<Job>) {
    match piece
    case TheCounters => CountersOk(q, log)
    case TheGraph => GraphInv(cfg, q.graph, log)
    case TheLanes => LaneInv(cfg, log, ViewOf(q.graph.slots), q.lanes)
  }

  /** The queue's invariant, all of it; a proof names the part it uses. */
  ghost predicate Sound(cfg: Settings, q: State, log: seq<Job>) {
    forall piece {:trigger Fits(piece, cfg, q, log)} :: Fits(piece, cfg, q, log)
  }

  lemma SoundIsInv(cfg: Settings, q: State, log: seq<Job>)
    requires Sound(cfg, q, log)
    ensures Inv(cfg, q, log)
  {
    assert Fits(TheCounters, cfg, q, log) && Fits(TheGraph, cfg, q, log) && Fits(TheLanes, cfg, q, log);
  }

  lemma InvIsSound(cfg: Settings, q: State, log: seq<Job>)
    requires Inv(cfg, q, log)
    ensures Sound(cfg, q, log)
  {
  }

  lemma HeldIsSound(cfg: Settings, q: State, log: seq<Job>, held: bool)
    requires Sound(cfg, q, log)
    ensures Sound(cfg, q.(held := held), log)
  {
    SoundIsInv(cfg, q, log);
    InvIsSound(cfg, q.(held := held), log);
  }

  lemma InitialInv(cfg: Settings)
    ensures Inv(cfg, INITIAL, [])
  {
    assert ViewOf(INITIAL.graph.slots) == map[];
    assert Runners(cfg, [], map[], Serial) == {};
    assert Runners(cfg, [], map[], Bounded) == {};
  }

  /** Jobs that wait for nothing share no inode, so bounded ones share no lane key, with affinity on or off. */
  lemma ReadyKeysApart(cfg: Settings, g: Graph, log: seq<Job>)
    requires GraphInv(cfg, g, log)
    requires forall i :: 0 <= i < |log| ==> ValidJob(log[i])
    ensures KeysApart(cfg, log, ViewOf(g.slots))
  {
    var v := ViewOf(g.slots);
    forall a: nat, b: nat | a in v && b in v && a != b
      ensures v[a].key != v[b].key
    {
      Isolation(cfg, g, log, a, b);
      assert SlotOk(cfg, g.slots[a], g.incomplete, log, a) && SlotOk(cfg, g.slots[b], g.incomplete, log, b);
      if cfg.affinity {
        assert Names(log, a, log[a - 1].keys[0]) && Names(log, b, log[b - 1].keys[0]);
      }
    }
  }

  // ----- push -----

  lemma LogGrows(cfg: Settings, log: seq<Job>, job: Job, v: View, l: Lanes)
    requires LaneInv(cfg, log, v, l)
    requires forall s: nat :: s in v ==> 1 <= s <= |log|
    ensures LaneInv(cfg, log + [job], v, l)
  {
    assert forall s: nat :: s in v ==> LaneAt(cfg, log + [job], s) == LaneAt(cfg, log, s);
    forall lane
      ensures Runners(cfg, log + [job], v, lane) == Runners(cfg, log, v, lane)
      ensures forall s: nat :: ReadyIn(cfg, log + [job], v, lane, s) <==> ReadyIn(cfg, log, v, lane, s)
    {
    }
    LogGrowsBounded(cfg, log, log + [job], v, l.bounded);
  }

  lemma LogGrowsBounded(cfg: Settings, log: seq<Job>, log': seq<Job>, v: View, b: BoundedLane)
    requires ByKeyOk(cfg, log, v, b) && RunningOk(cfg, log, v, b) && KeysApart(cfg, log, v)
    requires forall s: nat :: s in v ==> LaneAt(cfg, log', s) == LaneAt(cfg, log, s)
    ensures ByKeyOk(cfg, log', v, b) && RunningOk(cfg, log', v, b) && KeysApart(cfg, log', v)
  {
    assert Runners(cfg, log', v, Bounded) == Runners(cfg, log, v, Bounded);
    assert forall s: nat :: ReadyIn(cfg, log', v, Bounded, s) <==> ReadyIn(cfg, log, v, Bounded, s);
  }

  lemma PushView(cfg: Settings, g: Graph, n: nat, job: Job)
    requires n !in g.slots
    ensures ViewOf(Hold(cfg, g, n, job).slots) ==
            if Predecessors(g.tails, job.keys) == {} then ViewOf(g.slots)[n := ReadyAt(LaneKeyOf(cfg, job.keys, n))]
            else ViewOf(g.slots)
  {
    var slots' := AddSuccessor(g.slots, Predecessors(g.tails, job.keys), n);
    assert slots'.Keys == g.slots.Keys;
    assert ViewOf(slots') == ViewOf(g.slots);
  }

  lemma PushKeepsLanes(cfg: Settings, g: Graph, l: Lanes, log: seq<Job>, job: Job)
    requires Numbered(g.incomplete, log) && g.slots.Keys == g.incomplete
    requires LaneInv(cfg, log, ViewOf(g.slots), l)
    requires KeysApart(cfg, log + [job], ViewOf(Hold(cfg, g, |log| + 1, job).slots))
    ensures var n := |log| + 1;
            LaneInv(cfg, log + [job], ViewOf(Hold(cfg, g, n, job).slots),
                    if Predecessors(g.tails, job.keys) == {} then List(l, LaneOf(cfg, job.kind), n, LaneKeyOf(cfg, job.keys, n)) else l)
  {
    var n, v := |log| + 1, ViewOf(g.slots);
    LogGrows(cfg, log, job, v, l);
    PushView(cfg, g, n, job);
    if Predecessors(g.tails, job.keys) == {} {
      ListKeepsLanes(cfg, log + [job], v, l, n, LaneKeyOf(cfg, job.keys, n));
    }
  }

  lemma LeastIs(s: set<nat>, x: nat)
    requires IsLeast(s, x)
    ensures Least(s) == x
  {
  }

  lemma PushWatermark(inc: set<nat>, pushed: nat)
    requires forall s :: s in inc ==> 1 <= s <= pushed
    ensures Watermark(inc + {pushed + 1}, pushed + 1) == Watermark(inc, pushed)
  {
    LeastIs(inc + {pushed + 1}, if inc == {} then pushed + 1 else Least(inc));
  }

  lemma PushCounters(cfg: Settings, q: State, log: seq<Job>, job: Job)
    requires CountersOk(q, log) && Numbered(q.graph.incomplete, log) && ValidJob(job)
    ensures CountersOk(Push(cfg, q, job), log + [job])
  {
    PushWatermark(q.graph.incomplete, q.pushed);
  }

  lemma PushApart(cfg: Settings, g: Graph, log: seq<Job>, job: Job)
    requires GraphInv(cfg, g, log) && ValidJob(job)
    requires forall i :: 0 <= i < |log| ==> ValidJob(log[i])
    ensures GraphInv(cfg, Hold(cfg, g, |log| + 1, job), log + [job])
    ensures KeysApart(cfg, log + [job], ViewOf(Hold(cfg, g, |log| + 1, job).slots))
  {
    PushKeepsGraph(cfg, g, log, job);
    ReadyKeysApart(cfg, Hold(cfg, g, |log| + 1, job), log + [job]);
  }

  lemma PushKeeps(cfg: Settings, q: State, log: seq<Job>, job: Job)
    requires Inv(cfg, q, log) && ValidJob(job)
    ensures Inv(cfg, Push(cfg, q, job), log + [job])
  {
    PushCounters(cfg, q, log, job);
    PushApart(cfg, q.graph, log, job);
    PushKeepsLanes(cfg, q.graph, q.lanes, log, job);
  }

  // ----- pick -----

  lemma PickDefined(cfg: Settings, q: State, log: seq<Job>)
    requires Inv(cfg, q, log) && Pickable(cfg, q.lanes)
    ensures CanChoose(cfg, q.lanes)
    ensures var s := Choose(cfg, q.lanes).1;
            s in q.graph.slots && q.graph.slots[s].waiting == 0 && q.graph.slots[s].job == Some(log[s - 1])
  {
    ListedCanBePicked(cfg, log, ViewOf(q.graph.slots), q.lanes);
    ChosenIsReady(cfg, log, ViewOf(q.graph.slots), q.lanes);
    var s := Choose(cfg, q.lanes).1;
    assert SlotOk(cfg, q.graph.slots[s], q.graph.incomplete, log, s);
  }

  lemma TakeView(g: Graph, s: nat)
    requires s in g.slots && g.slots[s].waiting == 0
    ensures ViewOf(Take(g, s).slots) == ViewOf(g.slots)[s := RunsAt(g.slots[s].laneKey)]
  {
  }

  lemma PickKeeps(cfg: Settings, q: State, log: seq<Job>)
    requires Inv(cfg, q, log) && Pickable(cfg, q.lanes)
    ensures CanChoose(cfg, q.lanes) && Choose(cfg, q.lanes).1 in q.graph.slots
    ensures var (q', s) := Pick(cfg, q);
            Inv(cfg, q', log) && q'.graph.incomplete == q.graph.incomplete
  {
    PickDefined(cfg, q, log);
    var s := Choose(cfg, q.lanes).1;
    TakeView(q.graph, s);
    TakeKeepsGraph(cfg, q.graph, log, s);
    ChooseKeepsLanes(cfg, log, ViewOf(q.graph.slots), q.lanes);
  }

  // ----- finish -----

  /** A taken job can complete: nothing the section expects of the queue is missing. */
  lemma FinishDefined(cfg: Settings, q: State, log: seq<Job>, f: nat)
    requires Inv(cfg, q, log)
    requires f in q.graph.slots && q.graph.slots[f].job.None?
    ensures CanFinish(cfg, q, f, log[f - 1])
  {
    var v := ViewOf(q.graph.slots);
    assert SlotOk(cfg, q.graph.slots[f], q.graph.incomplete, log, f);
    assert v[f].RunsAt?;
    LeaveKeepsLanes(cfg, log, v, q.lanes, f);
    forall t | t in q.graph.slots[f].successors
      ensures t in q.graph.slots && t != f && q.graph.slots[t].waiting > 0
    {
      SuccessorsWait(cfg, q.graph, log, f, t);
    }
    assert f in q.graph.incomplete;
  }

  ghost function Without(v: View, later: seq<nat>): View {
    v - (set s | s in later)
  }

  lemma FinishView(slots: map<nat, Slot>, f: nat)
    requires f in slots
    requires forall t :: t in slots[f].successors ==> t in slots && t != f && slots[t].waiting > 0
    ensures Without(ViewOf(ReleasedSlots(slots, f)), slots[f].successors) == ViewOf(slots) - {f}
  {
    var a, b := Without(ViewOf(ReleasedSlots(slots, f)), slots[f].successors), ViewOf(slots) - {f};
    assert forall s :: s in a <==> s in b;
  }

  lemma ApartInside(cfg: Settings, log: seq<Job>, v: View, w: View)
    requires KeysApart(cfg, log, v)
    requires forall s: nat :: s in w ==> s in v && w[s] == v[s]
    ensures KeysApart(cfg, log, w)
  {
  }

  lemma ListOneReleased(cfg: Settings, log: seq<Job>, slots: map<nat, Slot>, l: Lanes, t: nat, later: seq<nat>)
    requires t in slots && t !in later
    requires slots[t].job.Some? && 1 <= t <= |log| && slots[t].job.value == log[t - 1]
    requires KeysApart(cfg, log, ViewOf(slots))
    requires LaneInv(cfg, log, Without(ViewOf(slots), [t] + later), l)
    ensures LaneInv(cfg, log, Without(ViewOf(slots), later),
                    if slots[t].waiting == 0 then List(l, SlotLane(cfg, slots[t]), t, slots[t].laneKey) else l)
  {
    var v, w := Without(ViewOf(slots), later), Without(ViewOf(slots), [t] + later);
    ApartInside(cfg, log, ViewOf(slots), v);
    if slots[t].waiting == 0 {
      assert v == w[t := ReadyAt(slots[t].laneKey)];
      ListKeepsLanes(cfg, log, w, l, t, slots[t].laneKey);
    } else {
      assert v == w;
    }
  }

  lemma {:induction false} ListReleasedKeeps(cfg: Settings, log: seq<Job>, slots: map<nat, Slot>, l: Lanes, nexts: seq<nat>, i: nat)
    requires i <= |nexts| && NoDup(nexts)
    requires forall t :: t in nexts ==> t in slots && slots[t].job.Some? && 1 <= t <= |log| && slots[t].job.value == log[t - 1]
    requires KeysApart(cfg, log, ViewOf(slots))
    requires LaneInv(cfg, log, Without(ViewOf(slots), nexts), l)
    ensures LaneInv(cfg, log, Without(ViewOf(slots), nexts[i..]), ListReleased(cfg, l, slots, nexts[..i]))
  {
    if i == 0 {
      assert nexts[0..] == nexts;
    } else {
      ListReleasedKeeps(cfg, log, slots, l, nexts, i - 1);
      assert nexts[i - 1..] == [nexts[i - 1]] + nexts[i..];
      assert nexts[..i][..i - 1] == nexts[..i - 1];
      ListOneReleased(cfg, log, slots, ListReleased(cfg, l, slots, nexts[..i - 1]), nexts[i - 1], nexts[i..]);
    }
  }

  lemma ReleasedAreTheirJobs(cfg: Settings, g: Graph, log: seq<Job>, f: nat, t: nat)
    requires GraphInv(cfg, g, log)
    requires f in g.slots && t in g.slots[f].successors
    ensures var slots := ReleasedSlots(g.slots, f);
            t in slots && slots[t].job.Some? && 1 <= t <= |log| && slots[t].job.value == log[t - 1]
  {
    SuccessorsWait(cfg, g, log, f, t);
    assert SlotOk(cfg, g.slots[t], g.incomplete, log, t);
  }

  lemma ReleaseKeepsLanes(cfg: Settings, g: Graph, log: seq<Job>, f: nat, l: Lanes)
    requires GraphInv(cfg, g, log) && f in g.slots
    requires KeysApart(cfg, log, ViewOf(ReleasedSlots(g.slots, f)))
    requires LaneInv(cfg, log, Without(ViewOf(ReleasedSlots(g.slots, f)), g.slots[f].successors), l)
    ensures forall s :: s in g.slots[f].successors ==> s in ReleasedSlots(g.slots, f)
    ensures LaneInv(cfg, log, ViewOf(ReleasedSlots(g.slots, f)), ListReleased(cfg, l, ReleasedSlots(g.slots, f), g.slots[f].successors))
  {
    var slots', nexts := ReleasedSlots(g.slots, f), g.slots[f].successors;
    forall t | t in nexts
      ensures t in slots' && slots'[t].job.Some? && 1 <= t <= |log| && slots'[t].job.value == log[t - 1]
    {
      ReleasedAreTheirJobs(cfg, g, log, f, t);
    }
    assert SlotOk(cfg, g.slots[f], g.incomplete, log, f);
    ListReleasedKeeps(cfg, log, slots', l, nexts, |nexts|);
    assert nexts[..|nexts|] == nexts;
    WithoutNone(ViewOf(slots'), nexts[|nexts|..]);
  }

  lemma WithoutNone(v: View, none: seq<nat>)
    requires none == []
    ensures Without(v, none) == v
  {
    assert (set s | s in none) == {};
  }

  lemma FinishApart(cfg: Settings, g: Graph, log: seq<Job>, f: nat)
    requires GraphInv(cfg, g, log) && f in g.slots && g.slots[f].waiting == 0
    requires forall i :: 0 <= i < |log| ==> ValidJob(log[i])
    ensures GraphInv(cfg, Drop(g, f, log[f - 1].keys), log)
    ensures KeysApart(cfg, log, ViewOf(ReleasedSlots(g.slots, f)))
  {
    FinishKeepsGraph(cfg, g, log, f);
    ReadyKeysApart(cfg, Drop(g, f, log[f - 1].keys), log);
  }

  lemma FinishLeaves(cfg: Settings, g: Graph, log: seq<Job>, f: nat, l: Lanes)
    requires GraphInv(cfg, g, log) && LaneInv(cfg, log, ViewOf(g.slots), l)
    requires f in g.slots && g.slots[f].job.None?
    ensures LaneAt(cfg, log, f) == Bounded ==> l.bounded.count > 0
    ensures LaneInv(cfg, log, Without(ViewOf(ReleasedSlots(g.slots, f)), g.slots[f].successors),
                    Leave(l, LaneAt(cfg, log, f), g.slots[f].laneKey))
  {
    assert SlotOk(cfg, g.slots[f], g.incomplete, log, f);
    forall t | t in g.slots[f].successors
      ensures t in g.slots && t != f && g.slots[t].waiting > 0
    {
      SuccessorsWait(cfg, g, log, f, t);
    }
    FinishView(g.slots, f);
    LeaveKeepsLanes(cfg, log, ViewOf(g.slots), l, f);
  }

  lemma FinishKeepsLanes(cfg: Settings, q: State, log: seq<Job>, f: nat)
    requires Inv(cfg, q, log)
    requires f in q.graph.slots && q.graph.slots[f].job.None?
    requires CanFinish(cfg, q, f, log[f - 1])
    ensures LaneInv(cfg, log, ViewOf(Finish(cfg, q, f, log[f - 1]).graph.slots), Finish(cfg, q, f, log[f - 1]).lanes)
  {
    assert SlotOk(cfg, q.graph.slots[f], q.graph.incomplete, log, f);
    FinishApart(cfg, q.graph, log, f);
    FinishLeaves(cfg, q.graph, log, f, q.lanes);
    ReleaseKeepsLanes(cfg, q.graph, log, f, Leave(q.lanes, LaneAt(cfg, log, f), q.graph.slots[f].laneKey));
  }

  lemma FinishKeeps(cfg: Settings, q: State, log: seq<Job>, f: nat)
    requires Inv(cfg, q, log)
    requires f in q.graph.slots && q.graph.slots[f].job.None?
    ensures CanFinish(cfg, q, f, log[f - 1])
    ensures Inv(cfg, Finish(cfg, q, f, log[f - 1]), log)
    ensures Finish(cfg, q, f, log[f - 1]).graph.incomplete == q.graph.incomplete - {f}
  {
    FinishDefined(cfg, q, log, f);
    assert SlotOk(cfg, q.graph.slots[f], q.graph.incomplete, log, f);
    FinishKeepsLanes(cfg, q, log, f);
    FinishKeepsGraph(cfg, q.graph, log, f);
  }

  // ----- What the invariant gives -----

  /** Work outstanding and none of it running means a worker that looks finds some. */
  lemma Progress(cfg: Settings, q: State, log: seq<Job>)
    requires Inv(cfg, q, log) && cfg.width >= 1
    requires q.graph.incomplete != {}
    requires forall s :: s in q.graph.slots ==> q.graph.slots[s].job.Some?
    ensures Pickable(cfg, q.lanes)
  {
    OldestWaitsForNothing(cfg, q.graph, log);
    ReadyCanBePicked(cfg, log, ViewOf(q.graph.slots), q.lanes, Least(q.graph.incomplete));
  }

  /** A completion never lowers the watermark. */
  lemma WatermarkRises(cfg: Settings, q: State, log: seq<Job>, f: nat)
    requires Inv(cfg, q, log)
    requires f in q.graph.slots && q.graph.slots[f].job.None?
    ensures CanFinish(cfg, q, f, log[f - 1])
    ensures q.applied <= Finish(cfg, q, f, log[f - 1]).applied
  {
    FinishDefined(cfg, q, log, f);
  }
}
