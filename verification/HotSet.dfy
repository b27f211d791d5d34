/**
 The hot set: directories the host has touched lately, kept in a map that is swept of old entries
 once it has grown, beside a count that lets a reader skip the map. Against a log that forgets nothing.
 */
module HotSet {
  import opened Basics

  /** The leases of a profile, and how long a touched directory stays untrusted. */
  datatype Timings = Timings(attr: nat, entryFile: nat, entryDir: nat, negative: nat, cooldown: nat)

  datatype Profiles = Profiles(polled: Timings, pushed: Timings)

  datatype Id = Id(dev: int, ino: nat)

  datatype Answer = File | Directory | Missing

  /** Whether invalidations reach the guest: not, they do, or the watch was lost for good. */
  datatype Pushing = Conservative | Complete | Lost

  datatype Hot = Hot(pushing: Pushing, hot: map<Id, nat>, count: nat)

  datatype Op = Touched(id: Id) | SetPushing(pushing: bool) | LoseWatch
  datatype Event = At(time: nat, op: Op)

  /** How many entries the map may hold before a touch sweeps it. */
  const SWEEP_OVER: nat := 256

  const COLD := Hot(Conservative, map[], 0)

  function Active(p: Profiles, pushing: Pushing): Timings {
    if pushing.Complete? then p.pushed else p.polled
  }

  function Age(now: nat, at: nat): nat {
    if now < at then 0 else now - at
  }

  function Sweep(hot: map<Id, nat>, now: nat, cooldown: nat): map<Id, nat> {
    if |hot| > SWEEP_OVER then map id | id in hot && Age(now, hot[id]) < cooldown :: hot[id] else hot
  }

  function Touch(p: Profiles, h: Hot, id: Id, now: nat): Hot {
    var hot := Sweep(h.hot[id := now], now, Active(p, h.pushing).cooldown);
    Hot(h.pushing, hot, |hot|)
  }

  function Negotiate(pushing: Pushing, on: bool): Pushing {
    if pushing.Lost? then Lost else if on then Complete else Conservative
  }

  function Apply(p: Profiles, h: Hot, e: Event): Hot {
    match e.op
    case Touched(id) => Touch(p, h, id, e.time)
    case SetPushing(on) => h.(pushing := Negotiate(h.pushing, on))
    case LoseWatch => h.(pushing := Lost)
  }

  function Run(p: Profiles, history: seq<Event>): Hot {
    if history == [] then COLD else Apply(p, Run(p, history[..|history| - 1]), history[|history| - 1])
  }

  /** What a reader is told. */
  predicate IsHot(p: Profiles, h: Hot, id: Id, now: nat) {
    h.count != 0 && id in h.hot && Age(now, h.hot[id]) < Active(p, h.pushing).cooldown
  }

  function Lease(t: Timings, answer: Answer): nat {
    match answer
    case File => t.entryFile
    case Directory => t.entryDir
    case Missing => t.negative
  }

  // ----- The log -----

  ghost predicate Monotone(history: seq<Event>) {
    forall i, j :: 0 <= i < j < |history| ==> history[i].time <= history[j].time
  }

  /** Nothing in the history is later than `now`. */
  ghost predicate Before(history: seq<Event>, now: nat) {
    forall i :: 0 <= i < |history| ==> history[i].time <= now
  }

  /** When an identity was last touched, by a log that forgets nothing. */
  function Latest(history: seq<Event>, id: Id): Option<nat> {
    if history == [] then None
    else
      var last := history[|history| - 1];
      if last.op == Op.Touched(id) then Some(last.time) else Latest(history[..|history| - 1], id)
  }

  /** What the log says: the latest touch is younger than the active profile's cooldown. */
  ghost predicate LoggedHot(p: Profiles, history: seq<Event>, id: Id, now: nat) {
    var at := Latest(history, id);
    at.Some? && Age(now, at.value) < Active(p, Run(p, history).pushing).cooldown
  }

  /** The swept map holds the latest touch of what it holds, and what it has dropped is past the cooldown. */
  ghost predicate Swept(h: Hot, history: seq<Event>, now: nat, cooldown: nat, id: Id) {
    && (id in h.hot ==> Latest(history, id) == Some(h.hot[id]))
    && (id !in h.hot && Latest(history, id).Some? ==> Age(now, Latest(history, id).value) >= cooldown)
  }

  lemma {:induction false} RunIsSwept(p: Profiles, history: seq<Event>, now: nat, id: Id)
    requires p.polled.cooldown == p.pushed.cooldown && Monotone(history) && Before(history, now)
    ensures Swept(Run(p, history), history, now, p.polled.cooldown, id)
    ensures Run(p, history).count == |Run(p, history).hot|
  {
    if history != [] {
      var n := |history| - 1;
      RunIsSwept(p, history[..n], history[n].time, id);
    }
  }

  /** With equal cooldowns the count, the sweep and the map tell a reader what the log would. */
  lemma SweptAgrees(p: Profiles, history: seq<Event>, now: nat, id: Id)
    requires p.polled.cooldown == p.pushed.cooldown && Monotone(history) && Before(history, now)
    ensures IsHot(p, Run(p, history), id, now) <==> LoggedHot(p, history, id, now)
  {
    RunIsSwept(p, history, now, id);
  }

  /** After a touch the map holds no more than 256 directories, unless each of them is younger than the cooldown. */
  lemma MapStaysSmall(p: Profiles, history: seq<Event>)
    requires history != [] && history[|history| - 1].op.Touched?
    ensures var h, now := Run(p, history), history[|history| - 1].time;
            |h.hot| <= 256 || forall id :: id in h.hot ==> now < h.hot[id] || now - h.hot[id] < Active(p, h.pushing).cooldown
  {
  }

  // ----- Different cooldowns -----

  /** Touches of `n` identities at one time. */
  function Burst(n: nat, time: nat): seq<Event> {
    if n == 0 then [] else Burst(n - 1, time) + [At(time, Op.Touched(Id(1, n)))]
  }

  lemma {:induction false} BurstTimes(n: nat, time: nat)
    ensures |Burst(n, time)| == n
    ensures forall i :: 0 <= i < n ==> Burst(n, time)[i].time == time && Burst(n, time)[i].op.Touched? && Burst(n, time)[i].op.id.dev == 1
  {
    if n > 0 {
      BurstTimes(n - 1, time);
    }
  }

  lemma RunSnoc(p: Profiles, history: seq<Event>, e: Event)
    ensures Run(p, history + [e]) == Apply(p, Run(p, history), e)
  {
    assert (history + [e])[..|history|] == history;
  }

  lemma LatestSnoc(history: seq<Event>, e: Event, id: Id)
    ensures Latest(history + [e], id) == if e.op == Op.Touched(id) then Some(e.time) else Latest(history, id)
  {
    assert (history + [e])[..|history|] == history;
  }

  /** A first touch, and then a burst: all of it in the map while the map is small. */
  lemma {:induction false} BurstFills(p: Profiles, front: seq<Event>, first: Id, at: nat, n: nat, time: nat)
    requires n < SWEEP_OVER && first.dev == 0 && Run(p, front).hot == map[first := at]
    ensures var h := Run(p, front + Burst(n, time));
            && h.pushing == Run(p, front).pushing && |h.hot| == n + 1 && first in h.hot && h.hot[first] == at
            && (forall id :: id in h.hot && id != first ==> id.dev == 1 && id.ino <= n)
  {
    if n == 0 {
      assert front + Burst(0, time) == front;
    } else {
      BurstFills(p, front, first, at, n - 1, time);
      var e := At(time, Op.Touched(Id(1, n)));
      assert front + Burst(n, time) == (front + Burst(n - 1, time)) + [e];
      RunSnoc(p, front + Burst(n - 1, time), e);
    }
  }

  /** The touch that sweeps the map drops what has aged a cooldown, the active one. */
  lemma LastTouchSweeps(p: Profiles, h: Hot, first: Id, id: Id, now: nat)
    requires |h.hot| == SWEEP_OVER && first in h.hot && h.hot[first] == 0 && id !in h.hot
    requires now == Active(p, h.pushing).cooldown
    ensures first !in Touch(p, h, id, now).hot
  {
    assert |h.hot[id := now]| == SWEEP_OVER + 1;
  }

  lemma OneMoreInBurst(p: Profiles, front: seq<Event>, n: nat, time: nat)
    ensures Run(p, front + Burst(n + 1, time)) == Touch(p, Run(p, front + Burst(n, time)), Id(1, n + 1), time)
  {
    var most, e := front + Burst(n, time), At(time, Op.Touched(Id(1, n + 1)));
    assert front + Burst(n + 1, time) == most + [e];
    RunSnoc(p, most, e);
  }

  lemma BurstSweeps(p: Profiles, front: seq<Event>, first: Id, n: nat, time: nat)
    requires first.dev == 0 && Run(p, front).hot == map[first := 0]
    requires n + 1 == SWEEP_OVER && time == Active(p, Run(p, front).pushing).cooldown
    ensures var h := Run(p, front + Burst(n + 1, time));
            first !in h.hot && h.pushing == Run(p, front).pushing
  {
    BurstFills(p, front, first, 0, n, time);
    LastTouchSweeps(p, Run(p, front + Burst(n, time)), first, Id(1, n + 1), time);
    OneMoreInBurst(p, front, n, time);
  }

  lemma {:induction false} BurstIsOfOthers(front: seq<Event>, n: nat, time: nat, id: Id)
    requires id.dev == 0
    ensures Latest(front + Burst(n, time), id) == Latest(front, id)
  {
    if n == 0 {
      assert front + Burst(0, time) == front;
    } else {
      BurstIsOfOthers(front, n - 1, time, id);
      var e := At(time, Op.Touched(Id(1, n)));
      assert front + Burst(n, time) == (front + Burst(n - 1, time)) + [e];
      LatestSnoc(front + Burst(n - 1, time), e, id);
    }
  }

  /** Touched under the profile `on` selects, swept by a burst one of its cooldowns later, then asked about under the other. */
  function Forgetful(on: bool, time: nat): seq<Event> {
    [At(0, SetPushing(on)), At(0, Op.Touched(Id(0, 0)))] + Burst(SWEEP_OVER, time) + [At(time, SetPushing(!on))]
  }

  lemma ForgetfulIsMonotone(on: bool, time: nat)
    ensures Monotone(Forgetful(on, time)) && Before(Forgetful(on, time), time)
  {
    BurstTimes(SWEEP_OVER, time);
  }

  lemma ForgetfulForgets(p: Profiles, on: bool)
    requires on ==> p.pushed.cooldown < p.polled.cooldown
    requires !on ==> p.polled.cooldown < p.pushed.cooldown
    ensures var time := if on then p.pushed.cooldown else p.polled.cooldown;
            var history := Forgetful(on, time);
            LoggedHot(p, history, Id(0, 0), time) && !IsHot(p, Run(p, history), Id(0, 0), time)
  {
    var time := if on then p.pushed.cooldown else p.polled.cooldown;
    var id, a, b, c := Id(0, 0), At(0, SetPushing(on)), At(0, Op.Touched(Id(0, 0))), At(time, SetPushing(!on));
    var front := [a, b];
    FrontRuns(p, on);
    BurstSweeps(p, front, id, SWEEP_OVER - 1, time);
    BurstIsOfOthers(front, SWEEP_OVER, time, id);
    RunSnoc(p, front + Burst(SWEEP_OVER, time), c);
    LatestSnoc(front + Burst(SWEEP_OVER, time), c, id);
  }

  lemma FrontRuns(p: Profiles, on: bool)
    ensures var front := [At(0, SetPushing(on)), At(0, Op.Touched(Id(0, 0)))];
            && Run(p, front).hot == map[Id(0, 0) := 0] && Run(p, front).pushing == (if on then Complete else Conservative)
            && Latest(front, Id(0, 0)) == Some(0)
  {
    var a, b := At(0, SetPushing(on)), At(0, Op.Touched(Id(0, 0)));
    assert [] + [a] == [a] && [a] + [b] == [a, b];
    RunSnoc(p, [], a);
    RunSnoc(p, [a], b);
    LatestSnoc([a], b, Id(0, 0));
  }

  /** The swept map answers as the log would, over every history, exactly when the profiles have the same cooldown. */
  lemma AgreesIffEqualCooldowns(p: Profiles)
    ensures p.polled.cooldown == p.pushed.cooldown <==>
            forall history, now, id :: Monotone(history) && Before(history, now) ==>
              (IsHot(p, Run(p, history), id, now) <==> LoggedHot(p, history, id, now))
  {
    if p.polled.cooldown == p.pushed.cooldown {
      forall history, now, id | Monotone(history) && Before(history, now)
        ensures IsHot(p, Run(p, history), id, now) <==> LoggedHot(p, history, id, now)
      {
        SweptAgrees(p, history, now, id);
      }
    } else {
      var on := p.pushed.cooldown < p.polled.cooldown;
      var time := if on then p.pushed.cooldown else p.polled.cooldown;
      ForgetfulIsMonotone(on, time);
      ForgetfulForgets(p, on);
    }
  }

  // ----- A lost watch -----

  /** Once the watch is lost, no later negotiation brings the pushed profile back. */
  lemma {:induction false} LostForGood(p: Profiles, history: seq<Event>, i: nat)
    requires i < |history| && history[i].op == Op.LoseWatch
    ensures Run(p, history).pushing == Lost && Active(p, Run(p, history).pushing) == p.polled
  {
    var n := |history| - 1;
    if i < n {
      LostForGood(p, history[..n], i);
    }
  }

  /** The clock never went back, `now` is no earlier, and both profiles cool down alike. */
  ghost predicate Timely(p: Profiles, history: seq<Event>, now: nat) {
    p.polled.cooldown == p.pushed.cooldown && Monotone(history) && Before(history, now)
  }

  class Policy {
    const profiles: Profiles
    var pushing: Pushing
    var hot: map<Id, nat>
    var hotCount: nat
    /** Everything done to the policy. */
    ghost var history: seq<Event>

    ghost function Value(): Hot
      reads this
    {
      Hot(pushing, hot, hotCount)
    }

    ghost predicate Valid()
      reads this
    {
      Value() == Run(profiles, history)
    }

    constructor (profiles: Profiles)
      ensures Valid() && history == [] && this.profiles == profiles
    {
      this.profiles := profiles;
      pushing := Conservative;
      hot := map[];
      hotCount := 0;
      history := [];
    }

    /** `timings`. */
    function Timings(): Timings
      reads this
    {
      if pushing.Complete? then profiles.pushed else profiles.polled
    }

    method Negotiated(on: bool, ghost now: nat)
      requires Valid()
      modifies this
      ensures Valid() && history == old(history) + [At(now, SetPushing(on))]
    {
      RunSnoc(profiles, history, At(now, SetPushing(on)));
      if !pushing.Lost? {
        pushing := if on then Complete else Conservative;
      }
      history := history + [At(now, SetPushing(on))];
    }

    method LoseWatch(ghost now: nat)
      requires Valid()
      modifies this
      ensures Valid() && history == old(history) + [At(now, Op.LoseWatch)]
    {
      RunSnoc(profiles, history, At(now, Op.LoseWatch));
      pushing := Lost;
      history := history + [At(now, Op.LoseWatch)];
    }

    method Touched(id: Id, now: nat)
      requires Valid()
      modifies this
      ensures Valid() && history == old(history) + [At(now, Op.Touched(id))]
    {
      RunSnoc(profiles, history, At(now, Op.Touched(id)));
      hot := hot[id := now];
      var cooldown := Timings().cooldown;
      if |hot| > SWEEP_OVER {
        hot := map x | x in hot && Age(now, hot[x]) < cooldown :: hot[x];
      }
      hotCount := |hot|;
      history := history + [At(now, Op.Touched(id))];
    }

    /** Whether the latest touch is younger than the cooldown, as the log of everything done would have it. */
    method AskHot(id: Id, now: nat) returns (r: bool)
      requires Valid()
      ensures r == IsHot(profiles, Value(), id, now)
      ensures Timely(profiles, history, now) ==> r == LoggedHot(profiles, history, id, now)
    {
      if Timely(profiles, history, now) {
        SweptAgrees(profiles, history, now, id);
      }
      if hotCount == 0 {
        return false;
      }
      r := id in hot && Age(now, hot[id]) < Timings().cooldown;
    }

    method Validity(id: Id, answer: Answer, now: nat) returns (r: nat)
      requires Valid()
      ensures r == if IsHot(profiles, Value(), id, now) then 0 else Lease(Active(profiles, pushing), answer)
      ensures Timely(profiles, history, now) ==>
                r == if LoggedHot(profiles, history, id, now) then 0 else
                     var t := Active(profiles, Run(profiles, history).pushing);
                     match answer case File => t.entryFile case Directory => t.entryDir case Missing => t.negative
    {
      var isHot := AskHot(id, now);
      r := if isHot then 0 else Lease(Timings(), answer);
    }

    method AttrValidity(id: Id, now: nat) returns (r: nat)
      requires Valid()
      ensures r == if IsHot(profiles, Value(), id, now) then 0 else Active(profiles, pushing).attr
      ensures Timely(profiles, history, now) ==>
                r == if LoggedHot(profiles, history, id, now) then 0 else Active(profiles, Run(profiles, history).pushing).attr
    {
      var isHot := AskHot(id, now);
      r := if isHot then 0 else Timings().attr;
    }
  }
}
