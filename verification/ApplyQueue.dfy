/**
 The apply queue as it is kept: the state behind the mutex, changed in place. Each critical section
 is proved to take the state where the function of the same name in `Queue` says, and to keep the
 invariant of `QueueInvariant`.
 */
module ApplyQueue {
  import opened Basics
  import opened Jobs
  import opened Queue
  import opened QueueGraph
  import opened QueueLanes
  import opened QueueInvariant
  import ApplySystem

  lemma PredecessorsOfOneMore(tails: map<Key, nat>, keys: seq<Key>, i: nat)
    requires i < |keys|
    ensures var preds, k := Predecessors(tails, keys[..i]), keys[i];
            Predecessors(tails, keys[..i + 1]) == if k in tails && tails[k] !in preds then preds + {tails[k]} else preds
  {
    assert keys[..i + 1] == keys[..i] + [keys[i]];
  }

  /** The `seen` array: the first `n` are the predecessors so far, each once, and the rest is zero, which is no job. */
  ghost predicate Noted(seen: seq<nat>, n: nat, preds: set<nat>) {
    && n <= |seen| && n == |preds| && 0 !in preds
    && (forall p :: p in preds <==> exists j :: 0 <= j < n && seen[j] == p)
    && (forall j :: n <= j < |seen| ==> seen[j] == 0)
  }

  lemma NotedMeansSeen(seen: seq<nat>, n: nat, preds: set<nat>, p: nat)
    requires Noted(seen, n, preds) && p != 0
    ensures p in seen <==> p in preds
  {
  }

  lemma NoteOneMore(seen: seq<nat>, n: nat, preds: set<nat>, p: nat)
    requires Noted(seen, n, preds) && p !in preds && p != 0 && n < |seen|
    ensures Noted(seen[n := p], n + 1, preds + {p})
  {
    var after := seen[n := p];
    forall x
      ensures x in preds + {p} <==> exists j :: 0 <= j < n + 1 && after[j] == x
    {
      assert after[n] == p;
      if x in preds {
        var j :| 0 <= j < n && seen[j] == x;
        assert after[j] == x;
      }
    }
  }

  /** Notes a predecessor in the array unless it is there. */
  method Note(seen: array<nat>, n: nat, p: nat, ghost preds: set<nat>) returns (first: bool)
    requires Noted(seen[..], n, preds) && p != 0 && n < seen.Length
    modifies seen
    ensures first <==> p !in preds
    ensures first ==> Noted(seen[..], n + 1, preds + {p})
    ensures !first ==> Noted(seen[..], n, preds)
  {
    NotedMeansSeen(seen[..], n, preds, p);
    first := p !in seen[..];
    if first {
      NoteOneMore(seen[..], n, preds, p);
      ghost var was := seen[..];
      seen[n] := p;
      assert seen[..] == was[n := p];
    }
  }

  lemma AddOneSuccessor(slots: map<nat, Slot>, preds: set<nat>, p: nat, seqno: nat)
    requires p in slots && p !in preds
    ensures var before := AddSuccessor(slots, preds, seqno);
            AddSuccessor(slots, preds + {p}, seqno) == before[p := before[p].(successors := before[p].successors + [seqno])]
  {
  }

  /** What `push` expects of the tails. */
  ghost predicate TailsHeld(g: Graph) {
    forall k :: k in g.tails ==> g.tails[k] in g.slots && g.tails[k] != 0
  }

  lemma TailsAreHeld(cfg: Settings, g: Graph, log: seq<Job>)
    requires GraphInv(cfg, g, log)
    ensures TailsHeld(g)
  {
    forall k | k in g.tails
      ensures g.tails[k] in g.slots && g.tails[k] != 0
    {
      assert TailOk(g.tails, g.incomplete, log, k);
    }
  }

  /** What a pick expects: a listed key has a job, a listed job is held, untaken and of the lane that lists it. */
  ghost predicate Choosable(cfg: Settings, q: State) {
    && (q.lanes.bounded.readyKeys != [] ==> CanPick(q.lanes.bounded))
    && (Pickable(cfg, q.lanes) ==>
          var s := Choose(cfg, q.lanes).1;
          && s in q.graph.slots && q.graph.slots[s].job.Some?
          && (LaneOf(cfg, q.graph.slots[s].job.value.kind) == Serial <==> !q.lanes.serialRunning && q.lanes.ready != []))
  }

  lemma ValidIsChoosable(cfg: Settings, q: State, log: seq<Job>)
    requires Inv(cfg, q, log)
    ensures Choosable(cfg, q)
  {
    if Pickable(cfg, q.lanes) {
      PickDefined(cfg, q, log);
      ChosenIsReady(cfg, log, ViewOf(q.graph.slots), q.lanes);
    }
    ListedCanBePicked(cfg, log, ViewOf(q.graph.slots), q.lanes);
  }

  lemma HeldJobIsLogged(cfg: Settings, g: Graph, log: seq<Job>, s: nat)
    requires GraphInv(cfg, g, log) && s in g.slots && g.slots[s].job.Some?
    ensures 1 <= s <= |log| && g.slots[s].job.value == log[s - 1]
  {
    assert SlotOk(cfg, g.slots[s], g.incomplete, log, s);
  }

  /** The slots once those of `nexts` wait for one job fewer. */
  ghost function PartlyReleased(slots: map<nat, Slot>, nexts: seq<nat>): map<nat, Slot> {
    map s | s in slots :: if s in nexts then Released(slots[s]) else slots[s]
  }

  lemma RestReleased(slots: map<nat, Slot>, f: nat)
    requires f in slots
    ensures ReleasedSlots(slots, f) == PartlyReleased(slots - {f}, slots[f].successors)
  {
  }

  lemma ReleaseNext(slots: map<nat, Slot>, nexts: seq<nat>, i: nat)
    requires i < |nexts| && NoDup(nexts) && forall t :: t in nexts ==> t in slots
    ensures nexts[i] in slots && PartlyReleased(slots, nexts[..i])[nexts[i]] == slots[nexts[i]]
    ensures PartlyReleased(slots, nexts[..i + 1]) == PartlyReleased(slots, nexts[..i])[nexts[i] := Released(slots[nexts[i]])]
    ensures PartlyReleased(slots, nexts)[nexts[i]] == Released(slots[nexts[i]])
  {
    assert nexts[..i + 1] == nexts[..i] + [nexts[i]];
    assert nexts[i] !in nexts[..i];
  }

  lemma PushIsSound(cfg: Settings, q: State, log: seq<Job>, job: Job)
    requires Sound(cfg, q, log) && ValidJob(job)
    ensures TailsHeld(q.graph) && Sound(cfg, Queue.Push(cfg, q, job), log + [job])
  {
    SoundIsInv(cfg, q, log);
    TailsAreHeld(cfg, q.graph, log);
    PushKeeps(cfg, q, log, job);
    InvIsSound(cfg, Queue.Push(cfg, q, job), log + [job]);
  }

  lemma PickSound(cfg: Settings, q: State, log: seq<Job>, q': State, s: nat)
    requires Inv(cfg, q, log) && Pickable(cfg, q.lanes) && Choosable(cfg, q) && (q', s) == Queue.Pick(cfg, q)
    ensures Sound(cfg, q', log) && 1 <= s <= |log| && q.graph.slots[s].job == Some(log[s - 1])
  {
    assert Inv(cfg, q', log) by {
      PickKeeps(cfg, q, log);
    }
    InvIsSound(cfg, q', log);
    HeldJobIsLogged(cfg, q.graph, log, s);
  }

  lemma PickIsSound(cfg: Settings, q: State, log: seq<Job>)
    requires Sound(cfg, q, log)
    ensures Choosable(cfg, q)
    ensures Pickable(cfg, q.lanes) ==>
              var (q', s) := Queue.Pick(cfg, q);
              Sound(cfg, q', log) && 1 <= s <= |log| && q.graph.slots[s].job == Some(log[s - 1])
  {
    assert Inv(cfg, q, log) by {
      SoundIsInv(cfg, q, log);
    }
    assert Choosable(cfg, q) by {
      ValidIsChoosable(cfg, q, log);
    }
    if Pickable(cfg, q.lanes) {
      var (q', s) := Queue.Pick(cfg, q);
      PickSound(cfg, q, log, q', s);
    }
  }

  lemma FinishIsSound(cfg: Settings, q: State, log: seq<Job>, f: nat)
    requires Sound(cfg, q, log) && f in q.graph.slots && q.graph.slots[f].job.None? && 1 <= f <= |log|
    ensures CanFinish(cfg, q, f, log[f - 1])
    ensures var q' := Finish(cfg, q, f, log[f - 1]);
            Sound(cfg, q', log) && q'.graph.incomplete == q.graph.incomplete - {f} && q.applied <= q'.applied
  {
    SoundIsInv(cfg, q, log);
    FinishKeeps(cfg, q, log, f);
    WatermarkRises(cfg, q, log, f);
    InvIsSound(cfg, Finish(cfg, q, f, log[f - 1]), log);
  }

  lemma FinishedState(cfg: Settings, q: State, seqno: nat, job: Job, q': State)
    requires CanFinish(cfg, q, seqno, job)
    requires q'.graph == Drop(q.graph, seqno, job.keys)
    requires q'.lanes == ListReleased(cfg, Leave(q.lanes, LaneOf(cfg, job.kind), q.graph.slots[seqno].laneKey),
                                      ReleasedSlots(q.graph.slots, seqno), q.graph.slots[seqno].successors)
    requires q'.held == q.held && q'.depth == q.depth - 1 && q'.pushed == q.pushed
    requires q'.applied == Watermark(q'.graph.incomplete, q.pushed)
    ensures q' == Finish(cfg, q, seqno, job)
  {
  }

  lemma PushedState(cfg: Settings, q: State, job: Job, waiting: nat, q': State)
    requires waiting == |Predecessors(q.graph.tails, job.keys)|
    requires q'.graph == Queue.Hold(cfg, q.graph, q.pushed + 1, job)
    requires q'.lanes == if waiting == 0 then List(q.lanes, LaneOf(cfg, job.kind), q.pushed + 1, LaneKeyOf(cfg, job.keys, q.pushed + 1)) else q.lanes
    requires q'.held == q.held && q'.depth == q.depth + 1 && q'.pushed == q.pushed + 1 && q'.applied == q.applied
    ensures q' == Queue.Push(cfg, q, job)
  {
  }

  /** The bounded lane. */
  class Bounded {
    var byKey: map<nat, seq<nat>>
    var readyKeys: seq<nat>
    var running: set<nat>
    var count: nat

    ghost function Value(): BoundedLane
      reads this
    {
      BoundedLane(byKey, readyKeys, running, count)
    }

    constructor ()
      ensures Value() == EMPTY_LANES.bounded
    {
      byKey := map[];
      readyKeys := [];
      running := {};
      count := 0;
    }

    method Offer(key: nat, seqno: nat)
      modifies this
      ensures Value() == Queue.Offer(old(Value()), key, seqno)
    {
      if key !in byKey {
        byKey := byKey[key := []];
      }
      byKey := byKey[key := byKey[key] + [seqno]];
      if |byKey[key]| == 1 && key !in running {
        readyKeys := readyKeys + [key];
      }
    }

    /** `None` is an empty list of keys. A listed key with no job would be a panic. */
    method Pick() returns (r: Option<(nat, nat)>)
      requires readyKeys != [] ==> CanPick(Value())
      modifies this
      ensures r.None? <==> old(readyKeys) == []
      ensures r.None? ==> Value() == old(Value())
      ensures r.Some? ==> r.value.0 == old(readyKeys[0]) && (Value(), r.value.1) == PickKey(old(Value()))
    {
      if readyKeys == [] {
        return None;
      }
      var key := readyKeys[0];
      readyKeys := readyKeys[1..];
      var seqno := byKey[key][0];
      byKey := byKey[key := byKey[key][1..]];
      if byKey[key] == [] {
        byKey := byKey - {key};
        assert byKey == old(byKey) - {key};
      }
      running := running + {key};
      count := count + 1;
      r := Some((key, seqno));
    }

    method Finished(key: nat)
      requires count > 0
      modifies this
      ensures Value() == Queue.Finished(old(Value()), key)
    {
      running := running - {key};
      count := count - 1;
      if key in byKey {
        readyKeys := readyKeys + [key];
      }
    }
  }

  class Apply {
    const cfg: Settings
    const bounded: Bounded
    var held: bool
    var serialRunning: bool
    var slots: map<nat, Slot>
    var ready: seq<nat>
    var readyClones: seq<nat>
    var tails: map<Key, nat>
    var incomplete: set<nat>
    var depth: nat
    var pushed: nat
    var applied: nat
    /** Every job ever pushed; job `s` is `log[s - 1]`. */
    ghost var log: seq<Job>

    ghost function Value(): State
      reads this, bounded
    {
      State(held, Lanes(serialRunning, ready, readyClones, bounded.Value()), Graph(slots, tails, incomplete), depth, pushed, applied)
    }

    ghost predicate Valid()
      reads this, bounded
    {
      Sound(cfg, Value(), log)
    }

    constructor (cfg: Settings)
      ensures Valid() && Value() == INITIAL && log == [] && this.cfg == cfg && fresh(bounded)
    {
      this.cfg := cfg;
      bounded := new Bounded();
      held := false;
      serialRunning := false;
      slots := map[];
      ready := [];
      readyClones := [];
      tails := map[];
      incomplete := {};
      depth := 0;
      pushed := 0;
      applied := 0;
      log := [];
      new;
      InitialInv(cfg);
      InvIsSound(cfg, Value(), log);
    }

    method Hold()
      requires Valid()
      modifies this`held
      ensures Valid() && Value() == old(Value()).(held := true)
    {
      HeldIsSound(cfg, Value(), log, true);
      held := true;
    }

    method Release()
      requires Valid()
      modifies this`held
      ensures Valid() && Value() == old(Value()).(held := false)
    {
      HeldIsSound(cfg, Value(), log, false);
      held := false;
    }

    /** Lists a job that waits for nothing. */
    method ListJob(lane: Lane, seqno: nat, laneKey: nat)
      modifies this`ready, this`readyClones, bounded
      ensures Value().lanes == Queue.List(old(Value().lanes), lane, seqno, laneKey)
    {
      match lane
      case Serial => ready := ready + [seqno];
      case Wide => readyClones := readyClones + [seqno];
      case Bounded => bounded.Offer(laneKey, seqno);
    }

    method ListIfReady(waiting: nat, lane: Lane, seqno: nat, laneKey: nat)
      modifies this`ready, this`readyClones, bounded
      ensures Value().lanes == if waiting == 0 then Queue.List(old(Value().lanes), lane, seqno, laneKey) else old(Value().lanes)
    {
      if waiting == 0 {
        ListJob(lane, seqno, laneKey);
      }
    }

    /** The newest job on a key learns that the new job comes after it, unless it knows. */
    method PrecedeOn(k: Key, seqno: nat, seen: array<nat>, n: nat, ghost preds: set<nat>, ghost before: map<nat, Slot>)
      returns (m: nat, ghost after: set<nat>)
      requires n < seen.Length && Noted(seen[..], n, preds)
      requires k in tails ==> tails[k] in slots && tails[k] != 0
      requires slots == AddSuccessor(before, preds, seqno)
      modifies this`slots, seen
      ensures after == if k in tails && tails[k] !in preds then preds + {tails[k]} else preds
      ensures m <= n + 1 && Noted(seen[..], m, after)
      ensures slots == AddSuccessor(before, after, seqno)
    {
      m, after := n, preds;
      if k in tails {
        var prev := tails[k];
        var first := Note(seen, n, prev, preds);
        if first {
          AddOneSuccessor(before, preds, prev, seqno);
          slots := slots[prev := slots[prev].(successors := slots[prev].successors + [seqno])];
          m, after := n + 1, preds + {prev};
        }
      }
    }

    /** The job's immediate predecessors learn of it; how many there are is how many it waits for. */
    method Precede(keys: seq<Key>, seqno: nat) returns (waiting: nat)
      requires |keys| <= 4
      requires forall k :: k in tails ==> tails[k] in slots && tails[k] != 0
      modifies this`slots
      ensures slots == AddSuccessor(old(slots), Predecessors(tails, keys), seqno)
      ensures waiting == |Predecessors(tails, keys)|
    {
      waiting := 0;
      var seen := new nat[4](_ => 0);
      ghost var preds: set<nat> := {};
      for i := 0 to |keys|
        invariant waiting <= i
        invariant preds == Predecessors(tails, keys[..i])
        invariant Noted(seen[..], waiting, preds)
        invariant slots == AddSuccessor(old(slots), preds, seqno)
      {
        PredecessorsOfOneMore(tails, keys, i);
        waiting, preds := PrecedeOn(keys[i], seqno, seen, waiting, preds, old(slots));
      }
      assert keys[..|keys|] == keys;
    }

    /** Every key's newest job is now this one. */
    method Retail(keys: seq<Key>, seqno: nat)
      modifies this`tails
      ensures tails == Queue.Retail(old(tails), keys, seqno)
    {
      for i := 0 to |keys|
        invariant tails == Queue.Retail(old(tails), keys[..i], seqno)
      {
        assert keys[..i + 1] == keys[..i] + [keys[i]];
        tails := tails[keys[i] := seqno];
      }
      assert keys[..|keys|] == keys;
    }

    /** Puts the job behind the newest job on each of its keys. */
    method HoldJob(job: Job, seqno: nat, laneKey: nat) returns (waiting: nat)
      requires |job.keys| <= 4 && laneKey == LaneKeyOf(cfg, job.keys, seqno)
      requires TailsHeld(Graph(slots, tails, incomplete))
      modifies this`slots, this`tails, this`incomplete
      ensures Graph(slots, tails, incomplete) == Queue.Hold(cfg, old(Graph(slots, tails, incomplete)), seqno, job)
      ensures waiting == |Predecessors(old(tails), job.keys)|
    {
      waiting := Precede(job.keys, seqno);
      Retail(job.keys, seqno);
      incomplete := incomplete + {seqno};
      slots := slots[seqno := Slot(Some(job), waiting, [], laneKey)];
    }

    /** The critical section of `push` past its wait. */
    method Enter(job: Job) returns (seqno: nat)
      requires |job.keys| <= 4
      requires TailsHeld(Graph(slots, tails, incomplete))
      modifies this, bounded
      ensures Value() == Queue.Push(cfg, old(Value()), job) && seqno == pushed && log == old(log)
    {
      depth := depth + 1;
      pushed := pushed + 1;
      seqno := pushed;
      var laneKey := LaneKeyOf(cfg, job.keys, seqno);
      var waiting := HoldJob(job, seqno, laneKey);
      ListIfReady(waiting, LaneOf(cfg, job.kind), seqno, laneKey);
      PushedState(cfg, old(Value()), job, waiting, Value());
    }

    /** `push` once it has room. */
    method Push(job: Job) returns (seqno: nat)
      requires Valid() && ValidJob(job)
      modifies this, bounded
      ensures Valid() && log == old(log) + [job]
      ensures Value() == Queue.Push(cfg, old(Value()), job) && seqno == pushed
    {
      PushIsSound(cfg, Value(), log, job);
      seqno := Enter(job);
      log := log + [job];
    }

    /** What a worker that looks at the lists takes off them. */
    method ChooseJob() returns (pick: Option<nat>)
      requires bounded.readyKeys != [] ==> CanPick(bounded.Value())
      modifies this`ready, this`readyClones, bounded
      ensures pick.Some? <==> Pickable(cfg, old(Value().lanes))
      ensures pick.None? ==> Value().lanes == old(Value().lanes)
      ensures pick.Some? ==> pick.value == Choose(cfg, old(Value().lanes)).1
      ensures pick.Some? ==> Value().lanes == Choose(cfg, old(Value().lanes)).0.(serialRunning := serialRunning)
    {
      if !serialRunning && ready != [] {
        pick := Some(ready[0]);
        ready := ready[1..];
      } else if bounded.count < cfg.width && bounded.readyKeys != [] {
        var p := bounded.Pick();
        pick := if p.Some? then Some(p.value.1) else None;
      } else if readyClones != [] {
        pick := Some(readyClones[0]);
        readyClones := readyClones[1..];
      } else {
        pick := None;
      }
    }

    /** A worker's critical section; `None` sends it to sleep. */
    method Look() returns (r: Option<(nat, Job)>)
      requires Choosable(cfg, Value())
      modifies this, bounded
      ensures r.None? <==> old(held) || !Pickable(cfg, old(Value().lanes))
      ensures r.None? ==> Value() == old(Value())
      ensures r.Some? ==> (Value(), r.value.0) == Queue.Pick(cfg, old(Value()))
      ensures r.Some? ==> r.value.0 in old(slots) && old(slots)[r.value.0].job == Some(r.value.1)
      ensures log == old(log)
    {
      if held {
        return None;
      }
      var pick := ChooseJob();
      if pick.None? {
        return None;
      }
      var seqno := pick.value;
      var job := slots[seqno].job.value;
      slots := slots[seqno := slots[seqno].(job := None)];
      if LaneOf(cfg, job.kind) == Serial {
        serialRunning := true;
      }
      r := Some((seqno, job));
    }

    /** A worker's look at the queue: nothing it expects to find is missing. */
    method PickJob() returns (r: Option<(nat, Job)>)
      requires Valid()
      modifies this, bounded
      ensures Valid() && log == old(log)
      ensures r.None? <==> old(held) || !Pickable(cfg, old(Value().lanes))
      ensures r.None? ==> Value() == old(Value())
      ensures r.Some? ==> Choosable(cfg, old(Value())) && (Value(), r.value.0) == Queue.Pick(cfg, old(Value()))
      ensures r.Some? ==> 1 <= r.value.0 <= |log| && r.value.1 == log[r.value.0 - 1]
    {
      PickIsSound(cfg, Value(), log);
      r := Look();
    }

    method LeaveLane(lane: Lane, laneKey: nat)
      requires lane == Lane.Bounded ==> bounded.count > 0
      modifies this`serialRunning, bounded
      ensures Value().lanes == Leave(old(Value().lanes), lane, laneKey)
    {
      match lane
      case Serial => serialRunning := false;
      case Wide =>
      case Bounded => bounded.Finished(laneKey);
    }

    /** One successor waits for one job fewer, and is listed if for none. */
    method ReleaseOne(next: nat) returns (clone: bool)
      requires next in slots && slots[next].waiting > 0
      modifies this`slots, this`ready, this`readyClones, bounded
      ensures slots == old(slots)[next := Released(old(slots)[next])]
      ensures Value().lanes == if slots[next].waiting == 0
                               then Queue.List(old(Value().lanes), SlotLane(cfg, slots[next]), next, slots[next].laneKey)
                               else old(Value().lanes)
      ensures clone <==> slots[next].waiting == 0 && SlotLane(cfg, slots[next]) != Serial
    {
      slots := slots[next := slots[next].(waiting := slots[next].waiting - 1)];
      clone := false;
      if slots[next].waiting == 0 {
        var lane := if slots[next].job.Some? then LaneOf(cfg, slots[next].job.value.kind) else Serial;
        ListJob(lane, next, slots[next].laneKey);
        clone := lane != Serial;
      }
    }

    /** Every successor of the job that left waits for one job fewer; how many became ready outside the serial lane. */
    method ReleaseAll(nexts: seq<nat>, ghost after: map<nat, Slot>) returns (clones: nat)
      requires NoDup(nexts)
      requires forall t :: t in nexts ==> t in slots && slots[t].waiting > 0
      requires after == PartlyReleased(slots, nexts)
      modifies this`slots, this`ready, this`readyClones, bounded
      ensures slots == after
      ensures Value().lanes == ListReleased(cfg, old(Value().lanes), after, nexts)
      ensures clones == ApplySystem.ClonesReady(cfg, after, nexts)
    {
      clones := 0;
      for i := 0 to |nexts|
        invariant slots == PartlyReleased(old(slots), nexts[..i])
        invariant Value().lanes == ListReleased(cfg, old(Value().lanes), after, nexts[..i])
        invariant clones == ApplySystem.ClonesReady(cfg, after, nexts[..i])
      {
        ReleaseNext(old(slots), nexts, i);
        var clone := ReleaseOne(nexts[i]);
        assert nexts[..i + 1][..i] == nexts[..i];
        if clone {
          clones := clones + 1;
        }
      }
      assert nexts[..|nexts|] == nexts;
    }

    /** The keys whose newest job this still is have none any more. */
    method Untail(keys: seq<Key>, seqno: nat)
      modifies this`tails
      ensures tails == Queue.Untail(old(tails), keys, seqno)
    {
      for i := 0 to |keys|
        invariant tails == Queue.Untail(old(tails), keys[..i], seqno)
      {
        assert keys[..i + 1] == keys[..i] + [keys[i]];
        if keys[i] in tails && tails[keys[i]] == seqno {
          tails := tails - {keys[i]};
        }
      }
      assert keys[..|keys|] == keys;
    }

    method RaiseWatermark()
      modifies this`applied
      ensures applied == Watermark(incomplete, pushed)
    {
      if incomplete == {} {
        applied := pushed;
      } else {
        assert IsLeast(incomplete, Least(incomplete));
        var oldest :| oldest in incomplete && forall y :: y in incomplete ==> oldest <= y;
        LeastIs(incomplete, oldest);
        applied := if oldest > 0 then oldest - 1 else 0;
      }
    }

    /** The job leaves its lane, its successors and the tails of its keys; how many workers there is work for. */
    method LeaveGraph(seqno: nat, job: Job) returns (clones: nat)
      requires CanFinish(cfg, Value(), seqno, job)
      modifies this`slots, this`tails, this`incomplete, this`serialRunning, this`ready, this`readyClones, bounded
      ensures Graph(slots, tails, incomplete) == Drop(old(Graph(slots, tails, incomplete)), seqno, job.keys)
      ensures Value().lanes == ListReleased(cfg, Leave(old(Value().lanes), LaneOf(cfg, job.kind), old(slots)[seqno].laneKey),
                                            ReleasedSlots(old(slots), seqno), old(slots)[seqno].successors)
      ensures clones == ApplySystem.ClonesReady(cfg, ReleasedSlots(old(slots), seqno), old(slots)[seqno].successors)
    {
      var slot := slots[seqno];
      RestReleased(slots, seqno);
      slots := slots - {seqno};
      LeaveLane(LaneOf(cfg, job.kind), slot.laneKey);
      clones := ReleaseAll(slot.successors, ReleasedSlots(old(slots), seqno));
      Untail(job.keys, seqno);
      incomplete := incomplete - {seqno};
    }

    /** A worker's second critical section, after its job has run. */
    method Leaves(seqno: nat, job: Job) returns (clones: nat)
      requires CanFinish(cfg, Value(), seqno, job)
      modifies this, bounded
      ensures Value() == Finish(cfg, old(Value()), seqno, job) && log == old(log)
      ensures clones == ApplySystem.ClonesReady(cfg, ReleasedSlots(old(slots), seqno), old(slots)[seqno].successors)
    {
      clones := LeaveGraph(seqno, job);
      RaiseWatermark();
      depth := depth - 1;
      FinishedState(cfg, old(Value()), seqno, job, Value());
    }

    /** A worker completes the job it took: nothing it expects to find is missing, and it wakes for every job outside the serial lane it made ready. */
    method Complete(seqno: nat, job: Job) returns (clones: nat)
      requires Valid() && seqno in slots && slots[seqno].job.None?
      requires 1 <= seqno <= |log| && job == log[seqno - 1]
      modifies this, bounded
      ensures Valid() && log == old(log) && CanFinish(cfg, old(Value()), seqno, job)
      ensures Value() == Finish(cfg, old(Value()), seqno, job)
      ensures incomplete == old(incomplete) - {seqno} && old(applied) <= applied
      ensures clones == ApplySystem.ClonesReady(cfg, ReleasedSlots(old(slots), seqno), old(slots)[seqno].successors)
    {
      FinishIsSound(cfg, Value(), log, seqno);
      clones := Leaves(seqno, job);
    }
  }
}
