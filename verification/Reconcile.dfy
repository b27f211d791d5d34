/**
 The reconciling threads: each asks Docker what is published, takes what the containers were last
 heard to listen on, and applies the two, holding one mutex throughout. Any number of threads may
 reconcile, at any time, while Docker and the listeners change underneath.
 */
module Reconcile {

  /** What Docker said and what was heard, each by the number of changes it reflects. */
  datatype Snapshot = Snapshot(docker: nat, heard: nat)

  datatype Phase =
    | Idle
    | Locked
    | Asked(docker: nat)
    | Taken(snapshot: Snapshot)
    | Done

  datatype State = State(docker: nat, heard: nat, holder: set<nat>, phases: map<nat, Phase>, applied: seq<Snapshot>)

  datatype Step =
    | DockerChanges
    | ListenersChange
    | Lock(thread: nat)
    | Ask(thread: nat)
    | AskFails(thread: nat)
    | Take(thread: nat)
    | Apply(thread: nat)
    | Unlock(thread: nat)

  ghost predicate IsAt(s: State, t: nat, phase: Phase) {
    t in s.phases && s.phases[t] == phase
  }

  ghost predicate Start(s: State) {
    s.holder == {} && s.applied == [] && forall t :: t in s.phases ==> s.phases[t] == Idle
  }

  ghost predicate Next(s: State, step: Step, s': State) {
    match step
    case DockerChanges => s' == s.(docker := s.docker + 1)
    case ListenersChange => s' == s.(heard := s.heard + 1)
    case Lock(t) => IsAt(s, t, Idle) && s.holder == {} && s' == s.(holder := {t}, phases := s.phases[t := Locked])
    case Ask(t) => IsAt(s, t, Locked) && s' == s.(phases := s.phases[t := Asked(s.docker)])
    case AskFails(t) => IsAt(s, t, Locked) && s' == s.(phases := s.phases[t := Done])
    case Take(t) =>
      && t in s.phases && s.phases[t].Asked?
      && s' == s.(phases := s.phases[t := Taken(Snapshot(s.phases[t].docker, s.heard))])
    case Apply(t) =>
      && t in s.phases && s.phases[t].Taken?
      && s' == s.(phases := s.phases[t := Done], applied := s.applied + [s.phases[t].snapshot])
    case Unlock(t) => IsAt(s, t, Done) && s' == s.(holder := s.holder - {t}, phases := s.phases[t := Idle])
  }

  ghost predicate NoNewer(a: Snapshot, b: Snapshot) {
    a.docker <= b.docker && a.heard <= b.heard
  }

  /** No snapshot was applied after a newer one. */
  ghost predicate InOrder(applied: seq<Snapshot>) {
    forall i, j :: 0 <= i < j < |applied| ==> NoNewer(applied[i], applied[j])
  }

  /** What a thread has taken so far is no older than anything applied, and no newer than what is. */
  ghost predicate Current(s: State, phase: Phase) {
    match phase
    case Asked(d) => d <= s.docker && forall i :: 0 <= i < |s.applied| ==> s.applied[i].docker <= d
    case Taken(x) => NoNewer(x, Snapshot(s.docker, s.heard)) && forall i :: 0 <= i < |s.applied| ==> NoNewer(s.applied[i], x)
    case _ => true
  }

  ghost predicate Inv(s: State) {
    && (forall t, u :: t in s.holder && u in s.holder ==> t == u)
    && (forall t :: t in s.phases && s.phases[t] != Idle ==> t in s.holder)
    && (forall t :: t in s.phases ==> Current(s, s.phases[t]))
    && (forall i :: 0 <= i < |s.applied| ==> NoNewer(s.applied[i], Snapshot(s.docker, s.heard)))
    && InOrder(s.applied)
  }

  lemma StepKeeps(s: State, step: Step, s': State)
    requires Inv(s) && Next(s, step, s')
    ensures Inv(s')
  {
    match step
    case Apply(t) =>
      forall u | u in s'.phases
        ensures Current(s', s'.phases[u])
      {
        assert u != t ==> u !in s.holder;
      }
    case _ =>
  }

  ghost predicate IsRun(states: seq<State>, steps: seq<Step>) {
    && |states| == |steps| + 1 && Start(states[0])
    && forall i :: 0 <= i < |steps| ==> Next(states[i], steps[i], states[i + 1])
  }

  lemma {:induction false} RunKeeps(states: seq<State>, steps: seq<Step>, n: nat)
    requires IsRun(states, steps) && n <= |steps|
    ensures Inv(states[n])
  {
    if n > 0 {
      RunKeeps(states, steps, n - 1);
      StepKeeps(states[n - 1], steps[n - 1], states[n]);
    }
  }

  /** In every run the snapshots are applied in the order they were taken, never an older one after a newer. */
  lemma NeverOlderAfterNewer(states: seq<State>, steps: seq<Step>, n: nat)
    requires IsRun(states, steps) && n <= |steps|
    ensures InOrder(states[n].applied)
  {
    RunKeeps(states, steps, n);
  }

  /** A pass applies nothing older than what Docker would have said when its thread took the lock. */
  lemma {:induction false} AppliesWhatItLocked(states: seq<State>, steps: seq<Step>, m: nat, n: nat, t: nat)
    requires IsRun(states, steps) && m < n <= |steps| && steps[m] == Lock(t)
    requires forall i :: m < i < n ==> !(steps[i].Unlock? && steps[i].thread == t)
    ensures t in states[n].phases && states[n].phases[t] != Idle
    ensures states[n].phases[t].Asked? ==> states[m].docker <= states[n].phases[t].docker
    ensures states[n].phases[t].Taken? ==> NoNewer(Snapshot(states[m].docker, states[m].heard), states[n].phases[t].snapshot)
    ensures states[m].docker <= states[n].docker && states[m].heard <= states[n].heard
    decreases n
  {
    assert Next(states[n - 1], steps[n - 1], states[n]);
    if n - 1 > m {
      AppliesWhatItLocked(states, steps, m, n - 1, t);
    }
  }

  /** Where the thread took the lock it holds. */
  lemma {:induction false} FindLock(states: seq<State>, steps: seq<Step>, n: nat, t: nat) returns (m: nat)
    requires IsRun(states, steps) && n <= |steps| && t in states[n].phases && states[n].phases[t] != Idle
    ensures m < n && steps[m] == Lock(t) && forall i :: m < i < n ==> !(steps[i].Unlock? && steps[i].thread == t)
  {
    if n > 0 {
      assert Next(states[n - 1], steps[n - 1], states[n]);
      m := n - 1;
      if steps[n - 1] != Lock(t) {
        m := FindLock(states, steps, n - 1, t);
      }
    }
  }

  /** What a pass applies is what was so at some time between its taking the lock and its applying it. */
  lemma AppliesFresh(states: seq<State>, steps: seq<Step>, n: nat, t: nat) returns (m: nat, x: Snapshot)
    requires IsRun(states, steps) && n < |steps| && steps[n] == Apply(t)
    ensures m < n && steps[m] == Lock(t) && forall i :: m < i < n ==> !(steps[i].Unlock? && steps[i].thread == t)
    ensures states[n + 1].applied == states[n].applied + [x]
    ensures NoNewer(Snapshot(states[m].docker, states[m].heard), x) && NoNewer(x, Snapshot(states[n].docker, states[n].heard))
  {
    assert Next(states[n], steps[n], states[n + 1]);
    RunKeeps(states, steps, n);
    m := FindLock(states, steps, n, t);
    x := states[n].phases[t].snapshot;
    AppliesWhatItLocked(states, steps, m, n, t);
  }
}
