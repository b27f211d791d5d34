/**
 The three lanes, against the jobs that wait for nothing: each is listed in its
 own lane exactly once while ready, and counted by it exactly once while it runs.
 */
module QueueLanes {
  import opened Basics
  import opened Jobs
  import opened Queue

  /** A job that waits for nothing, by whether a worker has taken it. */
  datatype Status = ReadyAt(key: nat) | RunsAt(key: nat)
  type View = map<nat, Status>

  ghost function ViewOf(slots: map<nat, Slot>): View {
    map s | s in slots && slots[s].waiting == 0 ::
      if slots[s].job.Some? then ReadyAt(slots[s].laneKey) else RunsAt(slots[s].laneKey)
  }

  ghost function LaneAt(cfg: Settings, log: seq<Job>, s: nat): Lane {
    if 1 <= s <= |log| then LaneOf(cfg, log[s - 1].kind) else Serial
  }

  ghost predicate ReadyIn(cfg: Settings, log: seq<Job>, v: View, lane: Lane, s: nat) {
    s in v && v[s].ReadyAt? && LaneAt(cfg, log, s) == lane
  }

  ghost predicate RunsIn(cfg: Settings, log: seq<Job>, v: View, lane: Lane, s: nat) {
    s in v && v[s].RunsAt? && LaneAt(cfg, log, s) == lane
  }

  /** Every ready job of the lane, once. */
  ghost predicate Lists(cfg: Settings, log: seq<Job>, v: View, lane: Lane, queue: seq<nat>) {
    && NoDup(queue)
    && forall s: nat :: s in queue <==> ReadyIn(cfg, log, v, lane, s)
  }

  ghost function Runners(cfg: Settings, log: seq<Job>, v: View, lane: Lane): set<nat> {
    set s | s in v && RunsIn(cfg, log, v, lane, s)
  }

  /** `serialRunning` says whether a job of the serial lane runs; never do two. */
  ghost predicate OneSerial(cfg: Settings, log: seq<Job>, v: View, running: bool) {
    |Runners(cfg, log, v, Serial)| == if running then 1 else 0
  }

  /** Each lane key's queue is its one ready job; a key is listed exactly when it has one. */
  ghost predicate ByKeyOk(cfg: Settings, log: seq<Job>, v: View, b: BoundedLane) {
    && (forall key: nat :: key in b.byKey ==>
          |b.byKey[key]| == 1 && ReadyIn(cfg, log, v, Bounded, b.byKey[key][0]) && v[b.byKey[key][0]].key == key)
    && (forall s: nat :: ReadyIn(cfg, log, v, Bounded, s) ==> v[s].key in b.byKey && b.byKey[v[s].key] == [s])
    && NoDup(b.readyKeys)
    && (forall key: nat :: key in b.readyKeys <==> key in b.byKey)
  }

  /** The keys running, counted, within the width. */
  ghost predicate RunningOk(cfg: Settings, log: seq<Job>, v: View, b: BoundedLane) {
    && b.running == (set s | s in Runners(cfg, log, v, Bounded) :: v[s].key)
    && b.count == |b.running|
    && b.count <= cfg.width
  }

  /** No two bounded jobs that wait for nothing share a lane key. */
  ghost predicate KeysApart(cfg: Settings, log: seq<Job>, v: View) {
    forall a: nat, b: nat :: a in v && b in v && a != b && LaneAt(cfg, log, a) == Bounded && LaneAt(cfg, log, b) == Bounded ==>
      v[a].key != v[b].key
  }

  ghost predicate LaneInv(cfg: Settings, log: seq<Job>, v: View, l: Lanes) {
    && Lists(cfg, log, v, Serial, l.ready)
    && Lists(cfg, log, v, Wide, l.readyClones)
    && OneSerial(cfg, log, v, l.serialRunning)
    && ByKeyOk(cfg, log, v, l.bounded)
    && RunningOk(cfg, log, v, l.bounded)
    && KeysApart(cfg, log, v)
  }

  /** The bounded lane's own promise: a key is listed exactly when it has a ready job and none running. */
  lemma ListedExactlyWhenPickable(cfg: Settings, log: seq<Job>, v: View, l: Lanes, key: nat)
    requires LaneInv(cfg, log, v, l)
    ensures key in l.bounded.readyKeys <==>
            && (exists s: nat :: ReadyIn(cfg, log, v, Bounded, s) && v[s].key == key)
            && !(exists s: nat :: RunsIn(cfg, log, v, Bounded, s) && v[s].key == key)
    ensures key in l.bounded.byKey ==> key !in l.bounded.running && |l.bounded.byKey[key]| == 1
  {
    if key in l.bounded.byKey {
      assert ReadyIn(cfg, log, v, Bounded, l.bounded.byKey[key][0]);
    }
  }

  // ----- Listing a job -----

  lemma ListsAdd(cfg: Settings, log: seq<Job>, v: View, lane: Lane, queue: seq<nat>, s: nat, key: nat)
    requires Lists(cfg, log, v, lane, queue) && s !in v
    ensures Lists(cfg, log, v[s := ReadyAt(key)], lane, if LaneAt(cfg, log, s) == lane then queue + [s] else queue)
  {
    assert !ReadyIn(cfg, log, v, lane, s);
    forall t: nat
      ensures ReadyIn(cfg, log, v[s := ReadyAt(key)], lane, t) <==>
              ReadyIn(cfg, log, v, lane, t) || (t == s && LaneAt(cfg, log, s) == lane)
    {
    }
  }

  lemma SerialIgnoresReady(cfg: Settings, log: seq<Job>, v: View, running: bool, s: nat, key: nat)
    requires OneSerial(cfg, log, v, running) && s !in v
    ensures OneSerial(cfg, log, v[s := ReadyAt(key)], running)
  {
    assert Runners(cfg, log, v[s := ReadyAt(key)], Serial) == Runners(cfg, log, v, Serial);
  }

  lemma RunningIgnoresReady(cfg: Settings, log: seq<Job>, v: View, b: BoundedLane, s: nat, key: nat)
    requires RunningOk(cfg, log, v, b) && s !in v
    ensures RunningOk(cfg, log, v[s := ReadyAt(key)], b)
  {
    assert Runners(cfg, log, v[s := ReadyAt(key)], Bounded) == Runners(cfg, log, v, Bounded);
  }

  lemma FreshLaneKey(cfg: Settings, log: seq<Job>, v: View, b: BoundedLane, s: nat, key: nat)
    requires ByKeyOk(cfg, log, v, b) && RunningOk(cfg, log, v, b) && s !in v
    requires LaneAt(cfg, log, s) == Bounded && KeysApart(cfg, log, v[s := ReadyAt(key)])
    ensures key !in b.byKey && key !in b.running
  {
    var v' := v[s := ReadyAt(key)];
    assert s in v' && v'[s].key == key;
    assert forall t: nat :: t in v ==> t in v' && v'[t] == v[t];
  }

  lemma ByKeyAdd(cfg: Settings, log: seq<Job>, v: View, b: BoundedLane, s: nat, key: nat)
    requires ByKeyOk(cfg, log, v, b) && s !in v && key !in b.byKey && key !in b.running
    requires LaneAt(cfg, log, s) == Bounded
    ensures ByKeyOk(cfg, log, v[s := ReadyAt(key)], Offer(b, key, s))
  {
    var v', b' := v[s := ReadyAt(key)], Offer(b, key, s);
    assert b'.byKey[key] == [s];
    assert forall t: nat :: ReadyIn(cfg, log, v', Bounded, t) <==> t == s || ReadyIn(cfg, log, v, Bounded, t);
    assert b'.readyKeys == b.readyKeys + [key];
  }

  lemma ByKeyIgnoresOthers(cfg: Settings, log: seq<Job>, v: View, b: BoundedLane, s: nat, key: nat)
    requires ByKeyOk(cfg, log, v, b) && s !in v
    requires LaneAt(cfg, log, s) != Bounded
    ensures ByKeyOk(cfg, log, v[s := ReadyAt(key)], b)
  {
    var v' := v[s := ReadyAt(key)];
    assert forall t: nat :: ReadyIn(cfg, log, v', Bounded, t) <==> ReadyIn(cfg, log, v, Bounded, t);
  }

  lemma ListKeepsBounded(cfg: Settings, log: seq<Job>, v: View, b: BoundedLane, s: nat, key: nat)
    requires ByKeyOk(cfg, log, v, b) && RunningOk(cfg, log, v, b) && s !in v
    requires KeysApart(cfg, log, v[s := ReadyAt(key)])
    ensures var b' := if LaneAt(cfg, log, s) == Bounded then Offer(b, key, s) else b;
            ByKeyOk(cfg, log, v[s := ReadyAt(key)], b') && RunningOk(cfg, log, v[s := ReadyAt(key)], b')
  {
    RunningIgnoresReady(cfg, log, v, b, s, key);
    if LaneAt(cfg, log, s) == Bounded {
      FreshLaneKey(cfg, log, v, b, s, key);
      ByKeyAdd(cfg, log, v, b, s, key);
      RunningOnlyCounts(cfg, log, v[s := ReadyAt(key)], b, Offer(b, key, s));
    } else {
      ByKeyIgnoresOthers(cfg, log, v, b, s, key);
    }
  }

  lemma RunningOnlyCounts(cfg: Settings, log: seq<Job>, v: View, b: BoundedLane, b': BoundedLane)
    requires RunningOk(cfg, log, v, b) && b'.running == b.running && b'.count == b.count
    ensures RunningOk(cfg, log, v, b')
  {
  }

  lemma ListKeepsLanes(cfg: Settings, log: seq<Job>, v: View, l: Lanes, s: nat, key: nat)
    requires LaneInv(cfg, log, v, l) && s !in v
    requires KeysApart(cfg, log, v[s := ReadyAt(key)])
    ensures LaneInv(cfg, log, v[s := ReadyAt(key)], List(l, LaneAt(cfg, log, s), s, key))
  {
    ListsAdd(cfg, log, v, Serial, l.ready, s, key);
    ListsAdd(cfg, log, v, Wide, l.readyClones, s, key);
    SerialIgnoresReady(cfg, log, v, l.serialRunning, s, key);
    ListKeepsBounded(cfg, log, v, l.bounded, s, key);
  }

  // ----- Picking a job -----

  ghost predicate CanChoose(cfg: Settings, l: Lanes) {
    Pickable(cfg, l) && (l.bounded.readyKeys != [] ==> CanPick(l.bounded))
  }

  lemma ListedCanBePicked(cfg: Settings, log: seq<Job>, v: View, l: Lanes)
    requires LaneInv(cfg, log, v, l)
    ensures l.bounded.readyKeys != [] ==> CanPick(l.bounded)
  {
    if l.bounded.readyKeys != [] {
      assert l.bounded.readyKeys[0] in l.bounded.readyKeys;
    }
  }

  /** The chosen job was ready, in a lane with room for it. */
  lemma ChosenIsReady(cfg: Settings, log: seq<Job>, v: View, l: Lanes)
    requires LaneInv(cfg, log, v, l) && CanChoose(cfg, l)
    ensures var s := Choose(cfg, l).1; ReadyIn(cfg, log, v, LaneAt(cfg, log, s), s)
    ensures var s := Choose(cfg, l).1;
            LaneAt(cfg, log, s) == (if !l.serialRunning && l.ready != [] then Serial
                                    else if l.bounded.count < cfg.width && l.bounded.readyKeys != [] then Bounded
                                    else Wide)
  {
    if !l.serialRunning && l.ready != [] {
      assert l.ready[0] in l.ready;
    } else if l.bounded.count < cfg.width && l.bounded.readyKeys != [] {
      assert l.bounded.readyKeys[0] in l.bounded.readyKeys;
    } else {
      assert l.readyClones[0] in l.readyClones;
    }
  }

  lemma ListsTake(cfg: Settings, log: seq<Job>, v: View, lane: Lane, queue: seq<nat>, s: nat)
    requires Lists(cfg, log, v, lane, queue) && s in v
    requires LaneAt(cfg, log, s) == lane ==> queue != [] && queue[0] == s
    ensures Lists(cfg, log, v[s := RunsAt(v[s].key)], lane, if LaneAt(cfg, log, s) == lane then queue[1..] else queue)
  {
    var v' := v[s := RunsAt(v[s].key)];
    assert forall t: nat :: ReadyIn(cfg, log, v', lane, t) <==> t != s && ReadyIn(cfg, log, v, lane, t);
    if LaneAt(cfg, log, s) == lane {
      assert queue == [s] + queue[1..];
      assert s !in queue[1..];
    }
  }

  lemma SerialTake(cfg: Settings, log: seq<Job>, v: View, running: bool, s: nat)
    requires OneSerial(cfg, log, v, running) && s in v
    requires LaneAt(cfg, log, s) == Serial ==> !running
    requires v[s].ReadyAt?
    ensures OneSerial(cfg, log, v[s := RunsAt(v[s].key)], running || LaneAt(cfg, log, s) == Serial)
  {
    var v' := v[s := RunsAt(v[s].key)];
    assert Runners(cfg, log, v', Serial) == Runners(cfg, log, v, Serial) + if LaneAt(cfg, log, s) == Serial then {s} else {};
  }

  lemma BoundedTake(cfg: Settings, log: seq<Job>, v: View, b: BoundedLane)
    requires ByKeyOk(cfg, log, v, b) && RunningOk(cfg, log, v, b) && KeysApart(cfg, log, v)
    requires CanPick(b) && b.count < cfg.width
    ensures var (b', s) := PickKey(b);
            && ReadyIn(cfg, log, v, Bounded, s)
            && ByKeyOk(cfg, log, v[s := RunsAt(v[s].key)], b')
            && RunningOk(cfg, log, v[s := RunsAt(v[s].key)], b')
  {
    var (b', s) := PickKey(b);
    var key := b.readyKeys[0];
    assert key in b.readyKeys && b.byKey[key] == [s];
    TakeByKey(cfg, log, v, b, s);
    TakeRunning(cfg, log, v, b, s, b');
  }

  lemma TakeByKey(cfg: Settings, log: seq<Job>, v: View, b: BoundedLane, s: nat)
    requires ByKeyOk(cfg, log, v, b) && ReadyIn(cfg, log, v, Bounded, s)
    requires CanPick(b) && b.byKey[b.readyKeys[0]] == [s]
    ensures ByKeyOk(cfg, log, v[s := RunsAt(v[s].key)], PickKey(b).0)
  {
    var v', b', key := v[s := RunsAt(v[s].key)], PickKey(b).0, b.readyKeys[0];
    assert b'.byKey == b.byKey - {key};
    assert b.readyKeys == [key] + b'.readyKeys;
    assert forall t: nat :: ReadyIn(cfg, log, v', Bounded, t) <==> t != s && ReadyIn(cfg, log, v, Bounded, t);
    assert v[s].key == key;
  }

  lemma TakeRunning(cfg: Settings, log: seq<Job>, v: View, b: BoundedLane, s: nat, b': BoundedLane)
    requires RunningOk(cfg, log, v, b) && KeysApart(cfg, log, v) && ReadyIn(cfg, log, v, Bounded, s)
    requires b.count < cfg.width
    requires b'.running == b.running + {v[s].key} && b'.count == b.count + 1
    ensures RunningOk(cfg, log, v[s := RunsAt(v[s].key)], b')
  {
    var v' := v[s := RunsAt(v[s].key)];
    assert Runners(cfg, log, v', Bounded) == Runners(cfg, log, v, Bounded) + {s};
  }

  lemma BoundedIgnoresTake(cfg: Settings, log: seq<Job>, v: View, b: BoundedLane, s: nat)
    requires ByKeyOk(cfg, log, v, b) && RunningOk(cfg, log, v, b)
    requires s in v && LaneAt(cfg, log, s) != Bounded
    ensures ByKeyOk(cfg, log, v[s := RunsAt(v[s].key)], b) && RunningOk(cfg, log, v[s := RunsAt(v[s].key)], b)
  {
    var v' := v[s := RunsAt(v[s].key)];
    assert Runners(cfg, log, v', Bounded) == Runners(cfg, log, v, Bounded);
    assert forall t: nat :: ReadyIn(cfg, log, v', Bounded, t) <==> ReadyIn(cfg, log, v, Bounded, t);
  }

  lemma ChooseKeepsLanes(cfg: Settings, log: seq<Job>, v: View, l: Lanes)
    requires LaneInv(cfg, log, v, l) && CanChoose(cfg, l)
    ensures var (l', s) := Choose(cfg, l);
            s in v && LaneInv(cfg, log, v[s := RunsAt(v[s].key)], l')
  {
    var (l', s) := Choose(cfg, l);
    ChosenIsReady(cfg, log, v, l);
    ListsTake(cfg, log, v, Serial, l.ready, s);
    ListsTake(cfg, log, v, Wide, l.readyClones, s);
    SerialTake(cfg, log, v, l.serialRunning, s);
    if LaneAt(cfg, log, s) == Bounded {
      BoundedTake(cfg, log, v, l.bounded);
    } else {
      BoundedIgnoresTake(cfg, log, v, l.bounded, s);
    }
  }

  // ----- Leaving a lane -----

  lemma ListsLeave(cfg: Settings, log: seq<Job>, v: View, lane: Lane, queue: seq<nat>, s: nat)
    requires Lists(cfg, log, v, lane, queue) && s in v && v[s].RunsAt?
    ensures Lists(cfg, log, v - {s}, lane, queue)
  {
    assert forall t: nat :: ReadyIn(cfg, log, v - {s}, lane, t) <==> ReadyIn(cfg, log, v, lane, t);
  }

  lemma SerialLeave(cfg: Settings, log: seq<Job>, v: View, running: bool, s: nat)
    requires OneSerial(cfg, log, v, running) && s in v && v[s].RunsAt?
    ensures OneSerial(cfg, log, v - {s}, running && LaneAt(cfg, log, s) != Serial)
  {
    assert Runners(cfg, log, v - {s}, Serial) == Runners(cfg, log, v, Serial) - {s};
    assert RunsIn(cfg, log, v, LaneAt(cfg, log, s), s);
  }

  lemma ByKeyLeave(cfg: Settings, log: seq<Job>, v: View, b: BoundedLane, s: nat)
    requires ByKeyOk(cfg, log, v, b) && s in v && v[s].RunsAt?
    ensures ByKeyOk(cfg, log, v - {s}, b)
  {
    assert forall t: nat :: ReadyIn(cfg, log, v - {s}, Bounded, t) <==> ReadyIn(cfg, log, v, Bounded, t);
  }

  /** `finished` never finds a job to relist. */
  lemma FinishedRelistsNothing(cfg: Settings, log: seq<Job>, v: View, b: BoundedLane, s: nat)
    requires ByKeyOk(cfg, log, v, b) && RunningOk(cfg, log, v, b) && KeysApart(cfg, log, v)
    requires RunsIn(cfg, log, v, Bounded, s)
    ensures b.count > 0 && v[s].key !in b.byKey
    ensures Finished(b, v[s].key) == BoundedLane(b.byKey, b.readyKeys, b.running - {v[s].key}, b.count - 1)
  {
    assert s in Runners(cfg, log, v, Bounded);
    assert v[s].key in b.running;
  }

  lemma RunningLeave(cfg: Settings, log: seq<Job>, v: View, b: BoundedLane, s: nat, b': BoundedLane)
    requires RunningOk(cfg, log, v, b) && KeysApart(cfg, log, v) && s in v && v[s].RunsAt?
    requires if LaneAt(cfg, log, s) == Bounded then b'.running == b.running - {v[s].key} && b'.count == b.count - 1 else b' == b
    ensures RunningOk(cfg, log, v - {s}, b')
  {
    var v' := v - {s};
    assert Runners(cfg, log, v', Bounded) == Runners(cfg, log, v, Bounded) - {s};
    assert LaneAt(cfg, log, s) == Bounded ==> s in Runners(cfg, log, v, Bounded);
    var image := set t | t in Runners(cfg, log, v', Bounded) :: v'[t].key;
    forall key: nat
      ensures key in b'.running <==> key in image
    {
      if key in b'.running {
        var t :| t in Runners(cfg, log, v, Bounded) && v[t].key == key;
        assert t in Runners(cfg, log, v', Bounded);
      }
    }
  }

  lemma LeaveKeepsLanes(cfg: Settings, log: seq<Job>, v: View, l: Lanes, s: nat)
    requires LaneInv(cfg, log, v, l) && s in v && v[s].RunsAt?
    ensures LaneAt(cfg, log, s) == Bounded ==> l.bounded.count > 0
    ensures LaneInv(cfg, log, v - {s}, Leave(l, LaneAt(cfg, log, s), v[s].key))
  {
    ListsLeave(cfg, log, v, Serial, l.ready, s);
    ListsLeave(cfg, log, v, Wide, l.readyClones, s);
    SerialLeave(cfg, log, v, l.serialRunning, s);
    ByKeyLeave(cfg, log, v, l.bounded, s);
    if LaneAt(cfg, log, s) == Bounded {
      FinishedRelistsNothing(cfg, log, v, l.bounded, s);
      RunningLeave(cfg, log, v, l.bounded, s, Finished(l.bounded, v[s].key));
    } else {
      RunningLeave(cfg, log, v, l.bounded, s, l.bounded);
    }
  }

  // ----- Progress -----

  /** With nothing running, a ready job can be picked, whatever its lane. */
  lemma ReadyCanBePicked(cfg: Settings, log: seq<Job>, v: View, l: Lanes, s: nat)
    requires LaneInv(cfg, log, v, l) && cfg.width >= 1
    requires forall t: nat :: t in v ==> v[t].ReadyAt?
    requires s in v
    ensures Pickable(cfg, l)
  {
    assert ReadyIn(cfg, log, v, LaneAt(cfg, log, s), s);
    match LaneAt(cfg, log, s)
    case Serial => assert s in l.ready;
    case Wide => assert s in l.readyClones;
    case Bounded =>
      assert v[s].key in l.bounded.readyKeys;
      assert l.bounded.running == {};
  }
}
