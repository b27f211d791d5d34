/**
 The dependency graph behind `slots` and `tails`, defined from the log of every
 job ever pushed and the set still incomplete, and what push, pick and finish do to it.
 */
module QueueGraph {
  import opened Basics
  import opened Jobs
  import opened Queue

  /** Job `s`, the `s`th pushed, names inode `k`. */
  ghost predicate Names(log: seq<Job>, s: nat, k: Key) {
    1 <= s <= |log| && k in log[s - 1].keys
  }

  ghost predicate Conflict(log: seq<Job>, a: nat, b: nat) {
    exists k :: Names(log, a, k) && Names(log, b, k)
  }

  /** `j` is the last incomplete job on `k` before `s`. */
  ghost predicate Linked(inc: set<nat>, log: seq<Job>, j: nat, s: nat, k: Key) {
    && j in inc && s in inc && j < s
    && Names(log, j, k) && Names(log, s, k)
    && forall i :: i in inc && j < i < s ==> !Names(log, i, k)
  }

  ghost predicate Edge(inc: set<nat>, log: seq<Job>, j: nat, s: nat) {
    exists k :: Linked(inc, log, j, s, k)
  }

  /** The distinct unfinished immediate predecessors of `s`. */
  ghost function Preds(inc: set<nat>, log: seq<Job>, s: nat): set<nat> {
    set j | j in inc && Edge(inc, log, j, s)
  }

  /** A tail is the newest incomplete job on its key, and every key an incomplete job names has one. */
  ghost predicate TailsOk(tails: map<Key, nat>, inc: set<nat>, log: seq<Job>) {
    forall k {:trigger TailOk(tails, inc, log, k)} :: TailOk(tails, inc, log, k)
  }

  ghost predicate TailOk(tails: map<Key, nat>, inc: set<nat>, log: seq<Job>, k: Key) {
    && (k in tails ==> tails[k] in inc && Names(log, tails[k], k))
    && (forall s :: s in inc && Names(log, s, k) ==> k in tails && s <= tails[k])
  }

  ghost predicate SlotOk(cfg: Settings, slot: Slot, inc: set<nat>, log: seq<Job>, s: nat)
    requires 1 <= s <= |log|
  {
    && NoDup(slot.successors)
    && (forall t {:trigger t in slot.successors} {:trigger Edge(inc, log, s, t)} ::
          t in slot.successors <==> t in inc && Edge(inc, log, s, t))
    && slot.waiting == |Preds(inc, log, s)|
    && (slot.job.Some? ==> slot.job.value == log[s - 1])
    && (slot.job.None? ==> slot.waiting == 0)
    && slot.laneKey == LaneKeyOf(cfg, log[s - 1].keys, s)
  }

  ghost predicate Numbered(inc: set<nat>, log: seq<Job>) {
    forall s :: s in inc ==> 1 <= s <= |log|
  }

  ghost predicate GraphInv(cfg: Settings, g: Graph, log: seq<Job>) {
    && Numbered(g.incomplete, log)
    && TailsOk(g.tails, g.incomplete, log)
    && g.slots.Keys == g.incomplete
    && forall s {:trigger SlotOk(cfg, g.slots[s], g.incomplete, log, s)} ::
         s in g.incomplete ==> SlotOk(cfg, g.slots[s], g.incomplete, log, s)
  }

  // ----- A job that waits for nothing conflicts with nothing before it -----

  lemma Nearest(inc: set<nat>, log: seq<Job>, i: nat, s: nat, k: Key) returns (j: nat)
    requires i in inc && s in inc && i < s && Names(log, i, k) && Names(log, s, k)
    ensures Linked(inc, log, j, s, k)
    decreases s - i
  {
    if m :| m in inc && i < m < s && Names(log, m, k) {
      j := Nearest(inc, log, m, s, k);
    } else {
      j := i;
    }
  }

  lemma ConflictMeansPredecessor(inc: set<nat>, log: seq<Job>, i: nat, s: nat)
    requires i in inc && s in inc && i < s && Conflict(log, i, s)
    ensures Preds(inc, log, s) != {}
  {
    var k :| Names(log, i, k) && Names(log, s, k);
    var j := Nearest(inc, log, i, s, k);
    assert j in Preds(inc, log, s);
  }

  /** A job that waits for nothing, ready or running, shares no inode with an older incomplete one. */
  lemma ReadyMeansFirst(cfg: Settings, g: Graph, log: seq<Job>, i: nat, s: nat)
    requires GraphInv(cfg, g, log)
    requires i in g.slots && s in g.slots && i < s && g.slots[s].waiting == 0
    ensures !Conflict(log, i, s)
  {
    assert SlotOk(cfg, g.slots[s], g.incomplete, log, s);
    if Conflict(log, i, s) {
      ConflictMeansPredecessor(g.incomplete, log, i, s);
    }
  }

  /** Isolation: jobs that wait for nothing, ready or running, share no inode. */
  lemma Isolation(cfg: Settings, g: Graph, log: seq<Job>, a: nat, b: nat)
    requires GraphInv(cfg, g, log)
    requires a in g.slots && b in g.slots && a != b
    requires g.slots[a].waiting == 0 && g.slots[b].waiting == 0
    ensures !Conflict(log, a, b)
  {
    if a < b {
      ReadyMeansFirst(cfg, g, log, a, b);
    } else {
      ReadyMeansFirst(cfg, g, log, b, a);
    }
  }

  /** The oldest incomplete job is ready or running. */
  lemma OldestWaitsForNothing(cfg: Settings, g: Graph, log: seq<Job>)
    requires GraphInv(cfg, g, log) && g.incomplete != {}
    ensures g.slots[Least(g.incomplete)].waiting == 0
  {
    var s := Least(g.incomplete);
    assert SlotOk(cfg, g.slots[s], g.incomplete, log, s);
    assert Preds(g.incomplete, log, s) == {};
  }

  // ----- push -----

  lemma PushEdges(g: Graph, log: seq<Job>, job: Job, j: nat, s: nat)
    requires Numbered(g.incomplete, log) && TailsOk(g.tails, g.incomplete, log)
    ensures var n, inc', log' := |log| + 1, g.incomplete + {|log| + 1}, log + [job];
            Edge(inc', log', j, s) <==> if s == n then j in Predecessors(g.tails, job.keys) else Edge(g.incomplete, log, j, s)
  {
    var n, inc, inc', log' := |log| + 1, g.incomplete, g.incomplete + {|log| + 1}, log + [job];
    if s == n {
      if Edge(inc', log', j, n) {
        var k :| Linked(inc', log', j, n, k);
        assert Names(log, j, k);
        assert TailOk(g.tails, inc, log, k);
        assert k in g.tails && Names(log', g.tails[k], k);
      }
      if j in Predecessors(g.tails, job.keys) {
        var k :| k in job.keys && k in g.tails && g.tails[k] == j;
        assert TailOk(g.tails, inc, log, k);
        assert Linked(inc', log', j, n, k);
      }
    } else {
      forall k
        ensures Linked(inc', log', j, s, k) <==> Linked(inc, log, j, s, k)
      {
        LinkedIgnoresNewest(inc, log, job, j, s, k);
      }
    }
  }

  lemma LinkedIgnoresNewest(inc: set<nat>, log: seq<Job>, job: Job, j: nat, s: nat, k: Key)
    requires s != |log| + 1
    requires Numbered(inc, log)
    ensures Linked(inc + {|log| + 1}, log + [job], j, s, k) <==> Linked(inc, log, j, s, k)
  {
    assert forall i :: 1 <= i <= |log| ==> (Names(log + [job], i, k) <==> Names(log, i, k));
  }

  lemma PushPreds(g: Graph, log: seq<Job>, job: Job, s: nat)
    requires Numbered(g.incomplete, log) && TailsOk(g.tails, g.incomplete, log)
    requires s in g.incomplete || s == |log| + 1
    ensures Preds(g.incomplete + {|log| + 1}, log + [job], s) ==
            if s == |log| + 1 then Predecessors(g.tails, job.keys) else Preds(g.incomplete, log, s)
  {
    var now := Preds(g.incomplete + {|log| + 1}, log + [job], s);
    var was := if s == |log| + 1 then Predecessors(g.tails, job.keys) else Preds(g.incomplete, log, s);
    forall j
      ensures j in now <==> j in was
    {
      PushEdges(g, log, job, j, s);
    }
  }

  lemma PushSlot(cfg: Settings, g: Graph, log: seq<Job>, job: Job, s: nat)
    requires Numbered(g.incomplete, log) && TailsOk(g.tails, g.incomplete, log)
    requires s in g.incomplete && s in g.slots && SlotOk(cfg, g.slots[s], g.incomplete, log, s)
    ensures SlotOk(cfg, Hold(cfg, g, |log| + 1, job).slots[s], g.incomplete + {|log| + 1}, log + [job], s)
  {
    var n, slot := |log| + 1, Hold(cfg, g, |log| + 1, job).slots[s];
    assert n !in g.slots[s].successors;
    forall t
      ensures t in slot.successors <==> t in g.incomplete + {n} && Edge(g.incomplete + {n}, log + [job], s, t)
    {
      PushEdges(g, log, job, s, t);
    }
    PushPreds(g, log, job, s);
  }

  lemma PushNewSlot(cfg: Settings, g: Graph, log: seq<Job>, job: Job)
    requires Numbered(g.incomplete, log) && TailsOk(g.tails, g.incomplete, log)
    ensures var n := |log| + 1;
            SlotOk(cfg, NewSlot(cfg, g, n, job), g.incomplete + {n}, log + [job], n)
  {
    var n := |log| + 1;
    forall t
      ensures !(t in g.incomplete + {n} && Edge(g.incomplete + {n}, log + [job], n, t))
    {
      PushEdges(g, log, job, n, t);
    }
    PushPreds(g, log, job, n);
  }

  lemma PushTails(g: Graph, log: seq<Job>, job: Job)
    requires Numbered(g.incomplete, log) && TailsOk(g.tails, g.incomplete, log)
    ensures TailsOk(Retail(g.tails, job.keys, |log| + 1), g.incomplete + {|log| + 1}, log + [job])
  {
    var tails', inc', log' := Retail(g.tails, job.keys, |log| + 1), g.incomplete + {|log| + 1}, log + [job];
    forall k
      ensures TailOk(tails', inc', log', k)
    {
      assert TailOk(g.tails, g.incomplete, log, k);
      assert forall s :: s in g.incomplete ==> (Names(log + [job], s, k) <==> Names(log, s, k));
      assert Names(log + [job], |log| + 1, k) <==> k in job.keys;
    }
  }

  lemma PushAnySlot(cfg: Settings, g: Graph, log: seq<Job>, job: Job, s: nat)
    requires GraphInv(cfg, g, log)
    requires s in g.incomplete + {|log| + 1}
    ensures SlotOk(cfg, Hold(cfg, g, |log| + 1, job).slots[s], g.incomplete + {|log| + 1}, log + [job], s)
  {
    if s == |log| + 1 {
      PushNewSlot(cfg, g, log, job);
    } else {
      PushSlot(cfg, g, log, job, s);
    }
  }

  lemma HoldKeys(cfg: Settings, g: Graph, n: nat, job: Job)
    requires g.slots.Keys == g.incomplete
    ensures Hold(cfg, g, n, job).slots.Keys == Hold(cfg, g, n, job).incomplete
  {
    var added := AddSuccessor(g.slots, Predecessors(g.tails, job.keys), n);
    assert added.Keys == g.slots.Keys;
  }

  lemma PushKeepsGraph(cfg: Settings, g: Graph, log: seq<Job>, job: Job)
    requires GraphInv(cfg, g, log)
    ensures GraphInv(cfg, Hold(cfg, g, |log| + 1, job), log + [job])
  {
    var g' := Hold(cfg, g, |log| + 1, job);
    PushTails(g, log, job);
    HoldKeys(cfg, g, |log| + 1, job);
    assert Numbered(g'.incomplete, log + [job]);
    forall s | s in g'.incomplete
      ensures SlotOk(cfg, g'.slots[s], g'.incomplete, log + [job], s)
    {
      PushAnySlot(cfg, g, log, job, s);
    }
  }

  // ----- pick -----

  lemma TakeKeepsGraph(cfg: Settings, g: Graph, log: seq<Job>, s: nat)
    requires GraphInv(cfg, g, log)
    requires s in g.slots && g.slots[s].waiting == 0
    ensures GraphInv(cfg, Take(g, s), log)
  {
    forall t | t in g.incomplete
      ensures SlotOk(cfg, Take(g, s).slots[t], g.incomplete, log, t)
    {
      assert SlotOk(cfg, g.slots[t], g.incomplete, log, t);
    }
  }

  // ----- finish -----

  lemma FinishEdges(inc: set<nat>, log: seq<Job>, f: nat, j: nat, s: nat)
    requires f in inc && Preds(inc, log, f) == {}
    ensures Edge(inc - {f}, log, j, s) <==> j != f && s != f && Edge(inc, log, j, s)
  {
    if Edge(inc - {f}, log, j, s) {
      var k :| Linked(inc - {f}, log, j, s, k);
      if j < f < s && Names(log, f, k) {
        assert Conflict(log, j, f);
        ConflictMeansPredecessor(inc, log, j, f);
      }
      assert Linked(inc, log, j, s, k);
    }
    if j != f && s != f && Edge(inc, log, j, s) {
      var k :| Linked(inc, log, j, s, k);
      assert Linked(inc - {f}, log, j, s, k);
    }
  }

  lemma FinishPreds(inc: set<nat>, log: seq<Job>, f: nat, s: nat)
    requires f in inc && s in inc && f != s && Preds(inc, log, f) == {}
    ensures Preds(inc - {f}, log, s) == Preds(inc, log, s) - {f}
    ensures f in Preds(inc, log, s) <==> Edge(inc, log, f, s)
    ensures |Preds(inc, log, s)| == |Preds(inc - {f}, log, s)| + if Edge(inc, log, f, s) then 1 else 0
  {
    forall j
      ensures j in Preds(inc - {f}, log, s) <==> j in Preds(inc, log, s) - {f}
    {
      FinishEdges(inc, log, f, j, s);
    }
  }

  /** The successors of a held job are held, and still count it. */
  lemma SuccessorsWait(cfg: Settings, g: Graph, log: seq<Job>, f: nat, t: nat)
    requires GraphInv(cfg, g, log)
    requires f in g.slots && t in g.slots[f].successors
    ensures t in g.slots && t != f && g.slots[t].waiting > 0
  {
    assert SlotOk(cfg, g.slots[f], g.incomplete, log, f);
    assert Edge(g.incomplete, log, f, t);
    assert SlotOk(cfg, g.slots[t], g.incomplete, log, t);
    assert f in Preds(g.incomplete, log, t);
  }

  lemma FinishTails(tails: map<Key, nat>, inc: set<nat>, log: seq<Job>, f: nat)
    requires TailsOk(tails, inc, log) && f in inc && 1 <= f <= |log|
    requires Preds(inc, log, f) == {}
    ensures TailsOk(Untail(tails, log[f - 1].keys, f), inc - {f}, log)
  {
    var tails', inc' := Untail(tails, log[f - 1].keys, f), inc - {f};
    forall k
      ensures TailOk(tails', inc', log, k)
    {
      assert TailOk(tails, inc, log, k);
      forall s | s in inc - {f} && Names(log, s, k)
        ensures tails[k] != f
      {
        if tails[k] == f {
          assert Conflict(log, s, f);
          ConflictMeansPredecessor(inc, log, s, f);
        }
      }
    }
  }

  /** A slot that counted `f` counts one fewer. */
  lemma FinishSlot(cfg: Settings, slot: Slot, inc: set<nat>, log: seq<Job>, f: nat, s: nat)
    requires f in inc && s in inc && s != f && 1 <= s <= |log|
    requires Preds(inc, log, f) == {}
    requires SlotOk(cfg, slot, inc, log, s)
    ensures SlotOk(cfg, if Edge(inc, log, f, s) then Released(slot) else slot, inc - {f}, log, s)
  {
    FinishPreds(inc, log, f, s);
    forall t
      ensures t in slot.successors <==> t in inc - {f} && Edge(inc - {f}, log, s, t)
    {
      FinishEdges(inc, log, f, s, t);
      assert Edge(inc, log, s, f) ==> s in Preds(inc, log, f);
    }
  }

  lemma FinishKeepsGraph(cfg: Settings, g: Graph, log: seq<Job>, f: nat)
    requires GraphInv(cfg, g, log)
    requires f in g.slots && g.slots[f].waiting == 0
    ensures GraphInv(cfg, Drop(g, f, log[f - 1].keys), log)
  {
    assert SlotOk(cfg, g.slots[f], g.incomplete, log, f);
    assert Preds(g.incomplete, log, f) == {};
    FinishTails(g.tails, g.incomplete, log, f);
    var g' := Drop(g, f, log[f - 1].keys);
    forall s | s in g'.incomplete
      ensures SlotOk(cfg, g'.slots[s], g'.incomplete, log, s)
    {
      assert SlotOk(cfg, g.slots[s], g.incomplete, log, s);
      FinishSlot(cfg, g.slots[s], g.incomplete, log, f, s);
      assert s in g.slots[f].successors <==> Edge(g.incomplete, log, f, s);
    }
  }
}
