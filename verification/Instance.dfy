/**
 Ownership of a home: processes that take its lifetime lock, publish a record of themselves and
 take it away again, are killed with the lock let go only later, and probe whether it is held.
 */
module Instance {
  import opened Basics

  /**
   Where a process is. `acquire` locks, then removes stale records (`Clearing`, `HalfClear`), then
   owns the home; `publish` writes the pid (`Named`) and renames the record into place; `drop`
   removes the records of a publisher (`Leaving`, `HalfGone`) and only then unlocks.
   */
  datatype Phase =
    | Free
    | Clearing
    | HalfClear
    | Owning
    | Named
    | Published
    | Leaving
    | HalfGone
    | Unlocking
    | Probing

  /** The home: whose record and pid file are there, and who holds the lock. A process is the token no other ever has. */
  datatype Home = Home(
    identity: Option<nat>,
    pidFile: Option<nat>,
    lock: Option<nat>,
    phases: map<nat, Phase>,
    alive: set<nat>,
    /** Publishers whose record could not be removed when they left. */
    spared: set<nat>
  )

  datatype Step =
    | Lock(p: nat)
    | LockFails(p: nat)
    | ClearIdentity(p: nat)
    | ClearPid(p: nat)
    | ClearFails(p: nat)
    | WritePid(p: nat)
    | Rename(p: nat)
    | Drop(p: nat)
    | DropIdentity(p: nat, ok: bool)
    | DropPid(p: nat, ok: bool)
    | Unlock(p: nat)
    | Probe(p: nat)
    | EndProbe(p: nat)
    | Kill(p: nat)
    | LetGo(p: nat)

  ghost predicate At(s: Home, p: nat, phase: Phase) {
    p in s.alive && p in s.phases && s.phases[p] == phase
  }

  ghost predicate Start(s: Home) {
    s.lock == None && s.spared == {} && s.alive == s.phases.Keys && (s.identity.Some? ==> s.identity.value !in s.alive) && forall p :: p in s.phases ==> s.phases[p] == Free
  }

  ghost predicate Next(s: Home, step: Step, s': Home) {
    match step
    case Lock(p) => At(s, p, Free) && s.lock == None && s' == s.(lock := Some(p), phases := s.phases[p := Clearing])
    case LockFails(p) => At(s, p, Free) && s.lock != None && s' == s
    case ClearIdentity(p) => At(s, p, Clearing) && s' == s.(identity := None, phases := s.phases[p := HalfClear])
    case ClearPid(p) => At(s, p, HalfClear) && s' == s.(pidFile := None, phases := s.phases[p := Owning])
    case ClearFails(p) => (At(s, p, Clearing) || At(s, p, HalfClear)) && s' == s.(lock := None, phases := s.phases[p := Free])
    case WritePid(p) => At(s, p, Owning) && s' == s.(pidFile := Some(p), phases := s.phases[p := Named])
    case Rename(p) => At(s, p, Named) && s' == s.(identity := Some(p), phases := s.phases[p := Published])
    case Drop(p) =>
      || (At(s, p, Published) && s' == s.(phases := s.phases[p := Leaving]))
      || ((At(s, p, Owning) || At(s, p, Named)) && s' == s.(phases := s.phases[p := Unlocking]))
    case DropIdentity(p, ok) =>
      && At(s, p, Leaving)
      && s' == s.(identity := if ok then None else s.identity, spared := if ok then s.spared else s.spared + {p},
                  phases := s.phases[p := HalfGone])
    case DropPid(p, ok) => At(s, p, HalfGone) && s' == s.(pidFile := if ok then None else s.pidFile, phases := s.phases[p := Unlocking])
    case Unlock(p) => At(s, p, Unlocking) && s' == s.(lock := None, phases := s.phases[p := Free])
    case Probe(p) => At(s, p, Free) && s.lock == None && s' == s.(lock := Some(p), phases := s.phases[p := Probing])
    case EndProbe(p) => At(s, p, Probing) && s' == s.(lock := None, phases := s.phases[p := Free])
    case Kill(p) => p in s.alive && s' == s.(alive := s.alive - {p})
    case LetGo(p) =>
      && p in s.phases && p !in s.alive && s.phases[p] != Free
      && s' == s.(lock := None, phases := s.phases[p := Free])
  }

  /** Holds the home from `acquire` returning it to the end of its drop, killed or not. */
  ghost predicate Owns(s: Home, p: nat) {
    p in s.phases && s.phases[p] in {Owning, Named, Published, Leaving, HalfGone, Unlocking}
  }

  /** What the files say of the one that holds the lock. */
  ghost predicate FilesOk(s: Home, p: nat, phase: Phase) {
    match phase
    case HalfClear => s.identity == None
    case Owning => s.identity == None && s.pidFile == None
    case Named => s.identity == None && s.pidFile == Some(p)
    case Published | Leaving => s.identity == Some(p) && s.pidFile == Some(p)
    case HalfGone => s.pidFile == Some(p)
    case _ => true
  }

  ghost predicate Inv(s: Home) {
    && s.alive <= s.phases.Keys
    && (forall p :: p in s.phases && s.phases[p] != Free ==> s.lock == Some(p) && FilesOk(s, p, s.phases[p]))
    && (s.lock.Some? ==> s.lock.value in s.phases && s.phases[s.lock.value] != Free)
    && (s.identity.Some? && s.identity.value in s.alive && s.identity.value !in s.spared ==>
          s.phases[s.identity.value] in {Published, Leaving})
  }

  lemma StepKeeps(s: Home, step: Step, s': Home)
    requires Inv(s) && Next(s, step, s')
    ensures Inv(s')
  {
  }

  ghost predicate IsRun(states: seq<Home>, steps: seq<Step>) {
    && |states| == |steps| + 1 && Start(states[0])
    && forall i :: 0 <= i < |steps| ==> Next(states[i], steps[i], states[i + 1])
  }

  lemma {:induction false} RunKeeps(states: seq<Home>, steps: seq<Step>, n: nat)
    requires IsRun(states, steps) && n <= |steps|
    ensures Inv(states[n])
  {
    if n > 0 {
      RunKeeps(states, steps, n - 1);
      StepKeeps(states[n - 1], steps[n - 1], states[n]);
    }
  }

  /** In no state of any run do two processes own the home, one of them killed and not yet torn down or not. */
  lemma OneOwner(states: seq<Home>, steps: seq<Step>, n: nat, p: nat, q: nat)
    requires IsRun(states, steps) && n <= |steps| && Owns(states[n], p) && Owns(states[n], q)
    ensures p == q
  {
    RunKeeps(states, steps, n);
  }

  /** A publisher's record stands from its publish until its own drop takes it away, even if it is killed first. */
  lemma RecordStands(states: seq<Home>, steps: seq<Step>, n: nat, p: nat)
    requires IsRun(states, steps) && n <= |steps| && p in states[n].phases && states[n].phases[p] == Published
    ensures states[n].identity == Some(p) && states[n].pidFile == Some(p)
  {
    RunKeeps(states, steps, n);
  }

  /** So the step that takes away a living publisher's record is its own. */
  lemma OnlyItsOwnDrop(states: seq<Home>, steps: seq<Step>, n: nat, p: nat)
    requires IsRun(states, steps) && n < |steps|
    requires p in states[n].alive && p !in states[n].spared && states[n].identity == Some(p) && states[n + 1].identity != Some(p)
    ensures steps[n] == DropIdentity(p, true)
  {
    RunKeeps(states, steps, n);
    assert Next(states[n], steps[n], states[n + 1]);
  }

  /** What `acquire` gives is a home without records, whatever was left of an earlier owner. */
  lemma AcquiredIsClear(states: seq<Home>, steps: seq<Step>, n: nat, p: nat)
    requires IsRun(states, steps) && n <= |steps| && p in states[n].phases && states[n].phases[p] == Owning
    ensures states[n].identity == None && states[n].pidFile == None && states[n].lock == Some(p)
  {
    RunKeeps(states, steps, n);
  }

  /** A publisher's drop removes both records, its own, before it unlocks. */
  lemma DropsItsOwn(states: seq<Home>, steps: seq<Step>, n: nat, p: nat)
    requires IsRun(states, steps) && n < |steps| && steps[n] == DropPid(p, true) && p !in states[n].spared
    ensures states[n].pidFile == Some(p) && states[n].identity != Some(p) && states[n].lock == Some(p)
    ensures states[n + 1].pidFile == None && states[n + 1].identity != Some(p) && states[n + 1].lock == Some(p)
  {
    RunKeeps(states, steps, n);
    assert Next(states[n], steps[n], states[n + 1]);
  }

  lemma {:induction false} OnceDeadStaysDead(states: seq<Home>, steps: seq<Step>, m: nat, n: nat, p: nat)
    requires IsRun(states, steps) && m <= n <= |steps| && p in states[n].alive
    ensures p in states[m].alive
    decreases n
  {
    if m < n {
      assert Next(states[n - 1], steps[n - 1], states[n]);
      OnceDeadStaysDead(states, steps, m, n - 1, p);
    }
  }

  /**
   What `Identity::read` is worth: its look at the record, its probe of the lock and its check that
   the process lives come one after another, with anything in between. If the recorded process
   lives at the end, it owned the home when the record was read, unless it failed to remove it.
   */
  lemma ReadNamesAnOwner(states: seq<Home>, steps: seq<Step>, m: nat, n: nat, p: nat)
    requires IsRun(states, steps) && m <= n <= |steps|
    requires states[m].identity == Some(p) && p in states[n].alive && p !in states[m].spared
    ensures Owns(states[m], p)
  {
    OnceDeadStaysDead(states, steps, m, n, p);
    RunKeeps(states, steps, m);
  }

  /** A lock that is not free is an owner's, somebody's who is clearing the home for itself, or a probe's. */
  lemma NotFreeMeans(states: seq<Home>, steps: seq<Step>, n: nat)
    requires IsRun(states, steps) && n <= |steps| && states[n].lock != None
    ensures var p := states[n].lock.value;
            p in states[n].phases && (Owns(states[n], p) <==> states[n].phases[p] !in {Clearing, HalfClear, Probing})
  {
    RunKeeps(states, steps, n);
  }

  /** An acquire can fail although nobody owns the home, now or ever. */
  lemma FailureIsNoOwner() returns (states: seq<Home>, steps: seq<Step>)
    ensures IsRun(states, steps) && |steps| == 2 && steps[1].LockFails?
    ensures forall n, p :: 0 <= n < |states| ==> !Owns(states[n], p)
  {
    var free := Home(None, None, None, map[1 := Free, 2 := Free], {1, 2}, {});
    var probed := free.(lock := Some(1), phases := free.phases[1 := Probing]);
    states, steps := [free, probed, probed], [Probe(1), LockFails(2)];
    assert Next(free, Probe(1), probed) && Next(probed, LockFails(2), probed);
  }
}
