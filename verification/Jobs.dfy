/** What the apply queue sequences: jobs, the inodes they name and the lanes they run in. */
module Jobs {
  import opened Basics

  /** A nodeid. Zero is never one and marks an unused slot of a job's key array. */
  type Key = nat

  /** What the host holds under an inode, by nodeid; a missing key is an inode that does not exist. */
  type Value = seq<nat>
  type Store = map<Key, Value>

  /**
   One atomic piece of a job's closure: what the store under the job's keys becomes. A piece that
   fails leaves it alone.
   */
  type Effect = Store -> Store

  datatype Kind = Create | Write | Unlink | Rename | Clone | Setattr | Link | Mkdir | Symlink | Rmdir

  datatype Lane = Serial | Wide | Bounded

  /** The environment's overrides, read once: they are parameters of every run. */
  datatype Settings = Settings(wideCreates: bool, affinity: bool, width: nat, window: nat, cap: nat)

  function LaneOf(cfg: Settings, kind: Kind): Lane {
    match kind
    case Clone | Unlink | Rmdir => Wide
    case Create | Write | Mkdir | Symlink => if cfg.wideCreates then Bounded else Serial
    case Rename | Setattr | Link => Serial
  }

  /** A queued job. Its closure is a run of effects, each framed to `keys` by `Perform`. */
  datatype Job = Job(kind: Kind, keys: seq<Key>, bytes: nat, effects: seq<Effect>) {
    ghost function KeySet(): set<Key> {
      set k | k in keys
    }
  }

  /** The shape `KeysOf` gives a job's keys. */
  ghost predicate ValidKeys(keys: seq<Key>) {
    1 <= |keys| <= 4 && NoDup(keys) && 0 !in keys
  }

  ghost predicate ValidJob(job: Job) {
    ValidKeys(job.keys)
  }

  // ----- Keys::of -----

  /** The nonzero keys in order of first mention. */
  ghost function Distinct(keys: seq<Key>): seq<Key> {
    if keys == [] then []
    else
      var front := Distinct(keys[..|keys| - 1]);
      var last := keys[|keys| - 1];
      if last == 0 || last in front then front else front + [last]
  }

  lemma {:induction false} DistinctIsTheKeySet(keys: seq<Key>)
    ensures NoDup(Distinct(keys))
    ensures forall k :: k in Distinct(keys) <==> k in keys && k != 0
  {
    if keys != [] {
      DistinctIsTheKeySet(keys[..|keys| - 1]);
      assert keys == keys[..|keys| - 1] + [keys[|keys| - 1]];
    }
  }

  lemma {:induction false} DistinctGrows(keys: seq<Key>, n: nat)
    requires n <= |keys|
    ensures Distinct(keys[..n]) <= Distinct(keys)
  {
    if n < |keys| {
      assert keys[..|keys| - 1][..n] == keys[..n];
      DistinctGrows(keys[..|keys| - 1], n);
    } else {
      assert keys[..n] == keys;
    }
  }

  /** Fills the four-slot array; `None` is the panic on a fifth inode or on no inode at all. */
  method KeysOf(keys: seq<Key>) returns (r: Option<seq<Key>>)
    ensures r.Some? <==> 1 <= |Distinct(keys)| <= 4
    ensures r.Some? ==> ValidKeys(r.value) && r.value == Distinct(keys)
    ensures r.Some? ==> forall k :: k in r.value <==> k in keys && k != 0
  {
    DistinctIsTheKeySet(keys);
    var out := new nat[4](_ => 0);
    var n := 0;
    for i := 0 to |keys|
      invariant 0 <= n <= 4
      invariant out[..n] == Distinct(keys[..i])
    {
      assert keys[..i + 1][..i] == keys[..i];
      DistinctGrows(keys, i + 1);
      if keys[i] != 0 && keys[i] !in out[..n] {
        if n == 4 {
          return None;
        }
        out[n] := keys[i];
        n := n + 1;
      }
    }
    assert keys[..|keys|] == keys;
    r := if n == 0 then None else Some(out[..n]);
  }

  // ----- Effects -----

  ghost function Restrict(s: Store, keys: set<Key>): Store {
    map k | k in s && k in keys :: s[k]
  }

  /** Runs an effect where it may look and write: under `keys`, and nowhere else. */
  ghost function Perform(s: Store, keys: set<Key>, effect: Effect): Store {
    Splice(s, keys, effect(Restrict(s, keys)))
  }

  /** `t` under `keys`, `s` elsewhere. */
  ghost function Splice(s: Store, keys: set<Key>, t: Store): Store {
    map k | k in s.Keys + t.Keys && k in (if k in keys then t else s) :: if k in keys then t[k] else s[k]
  }

  /** What an effect does: under its inodes whatever it makes of them alone, and nothing elsewhere. */
  lemma PerformIs(s: Store, keys: set<Key>, effect: Effect, k: Key)
    ensures At(Perform(s, keys, effect), k) == if k in keys then At(effect(Restrict(s, keys)), k) else At(s, k)
    ensures At(Restrict(s, keys), k) == if k in keys then At(s, k) else None
  {
    SpliceAt(s, keys, effect(Restrict(s, keys)), k);
  }

  lemma SpliceElsewhere(s: Store, a: set<Key>, t: Store, b: set<Key>)
    requires a !! b
    ensures Restrict(Splice(s, a, t), b) == Restrict(s, b)
  {
    assert Restrict(Splice(s, a, t), b).Keys == Restrict(s, b).Keys;
  }

  /** Effects on disjoint inodes commute. */
  lemma PerformCommutes(s: Store, a: set<Key>, f: Effect, b: set<Key>, g: Effect)
    requires a !! b
    ensures Perform(Perform(s, a, f), b, g) == Perform(Perform(s, b, g), a, f)
  {
    var t, u := f(Restrict(s, a)), g(Restrict(s, b));
    SpliceElsewhere(s, a, t, b);
    SpliceElsewhere(s, b, u, a);
    SpliceCommutes(s, a, t, b, u);
  }

  lemma SpliceCommutes(s: Store, a: set<Key>, t: Store, b: set<Key>, u: Store)
    requires a !! b
    ensures Splice(Splice(s, a, t), b, u) == Splice(Splice(s, b, u), a, t)
  {
    var x, y := Splice(Splice(s, a, t), b, u), Splice(Splice(s, b, u), a, t);
    forall k
      ensures At(x, k) == At(y, k)
    {
      SpliceAt(Splice(s, a, t), b, u, k);
      SpliceAt(s, a, t, k);
      SpliceAt(Splice(s, b, u), a, t, k);
      SpliceAt(s, b, u, k);
    }
    SameStore(x, y);
  }

  ghost function At(s: Store, k: Key): Option<Value> {
    if k in s then Some(s[k]) else None
  }

  lemma SpliceAt(s: Store, a: set<Key>, t: Store, k: Key)
    ensures At(Splice(s, a, t), k) == At(if k in a then t else s, k)
  {
  }

  lemma SameStore(x: Store, y: Store)
    requires forall k :: At(x, k) == At(y, k)
    ensures x == y
  {
    forall k
      ensures k in x <==> k in y
      ensures k in x && k in y ==> x[k] == y[k]
    {
      assert At(x, k) == At(y, k);
    }
  }
}
