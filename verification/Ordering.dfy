/**
 The attempt order as routing draws it up (`QuotaTracker.order`) and what it publishes
 (`weighted_targets`): selection groups and weights are read off the learned state of the routes,
 whose penalties recover as they are looked at.  The clock is the engine's, which stands still while
 it answers.
 */
module Ordering {
  import opened Prelude
  import opened Ledger
  import opened Penalties
  import opened Quota
  import opened EngineModel
  import opened EngineObject
  import Histories
  import Selection

  /** The number a penalty stands for. */
  type Size = Penalty -> real

  ghost predicate Sizes(size: Size) { forall p: Penalty :: size(p) >= 0.0 }

  /** Every route of the chain has a state object of its own. */
  ghost predicate Known(routes: seq<Key>, states: map<Key, RouteState>) {
    (forall k | k in routes :: k in states) && forall k, l | k in states && l in states && k != l :: states[k] != states[l]
  }

  function Values(states: map<Key, RouteState>): (rs: map<Key, RouteV>)
    reads states.Values, set k, i | k in states && 0 <= i < |states[k].sent| :: states[k].sent[i]
    ensures rs.Keys == states.Keys
  {
    assert forall k, e | k in states && e in states[k].sent :: exists i :: 0 <= i < |states[k].sent| && states[k].sent[i] == e;
    map k | k in states :: states[k].View()
  }

  // ---- looking at a route ----------------------------------------------------------------

  function Looked(rs: map<Key, RouteV>, looked: seq<Key>, now: real, cfg: Settings): map<Key, RouteV> {
    map k | k in rs :: if k in looked then Decayed(rs[k], now, cfg) else rs[k]
  }

  lemma LookedTwice(r: RouteV, now: real, cfg: Settings)
    ensures Decayed(Decayed(r, now, cfg), now, cfg) == Decayed(r, now, cfg)
  {
  }

  lemma LookedMore(rs: map<Key, RouteV>, looked: seq<Key>, key: Key, now: real, cfg: Settings)
    requires key in rs
    ensures Looked(rs, looked + [key], now, cfg)
         == Looked(rs, looked, now, cfg)[key := Decayed(Looked(rs, looked, now, cfg)[key], now, cfg)]
  {
    hide Decayed;
    LookedTwice(rs[key], now, cfg);
  }

  lemma LookedAgain(rs: map<Key, RouteV>, first: seq<Key>, second: seq<Key>, now: real, cfg: Settings)
    ensures Looked(Looked(rs, first, now, cfg), second, now, cfg) == Looked(rs, first + second, now, cfg)
  {
    hide Decayed;
    forall k | k in rs ensures Decayed(Decayed(rs[k], now, cfg), now, cfg) == Decayed(rs[k], now, cfg) {
      LookedTwice(rs[k], now, cfg);
    }
  }

  lemma LookedSame(rs: map<Key, RouteV>, a: seq<Key>, b: seq<Key>, now: real, cfg: Settings)
    requires forall k :: k in a <==> k in b
    ensures Looked(rs, a, now, cfg) == Looked(rs, b, now, cfg)
  {
  }

  method Look(states: map<Key, RouteState>, key: Key, now: real, cfg: Settings)
    requires Known([key], states)
    modifies states[key]
    ensures Values(states) == old(Values(states))[key := Decayed(old(Values(states))[key], now, cfg)]
  {
    hide Decayed, RouteState.View;
    assert key in [key];
    states[key].Recover(now, cfg);
    forall k | k in states && k != key ensures states[k].View() == old(states[k].View()) {
      assert states[k] != states[key];
    }
  }

  // ---- weights and selection groups -----------------------------------------------------------

  /** The weight of a route at `now`, its penalty recovered up to then. */
  function WeightNow(r: RouteV, now: real, cfg: Settings, size: Size): real
    requires cfg.Valid()
  {
    Weight(r, now, size(Effective(Decay(r.backoff, now, cfg.policy.halflife), now, cfg.policy)), size(cfg.policy.floor), cfg)
  }

  function ParametersNow(r: RouteV, capacityMode: bool, now: real, cfg: Settings, size: Size): (nat, real)
    requires cfg.Valid()
  {
    Parameters(r, capacityMode, now, size(Effective(Decay(r.backoff, now, cfg.policy.halflife), now, cfg.policy)),
               size(cfg.policy.floor), cfg)
  }

  /** Having been looked at makes no difference to a route's parameters. */
  lemma LookingKeepsParameters(r: RouteV, capacityMode: bool, now: real, cfg: Settings, size: Size)
    requires cfg.Valid()
    ensures ParametersNow(Decayed(r, now, cfg), capacityMode, now, cfg, size) == ParametersNow(r, capacityMode, now, cfg, size)
  {
    LookedTwice(r, now, cfg);
    hide Decay, Effective, Since, PerMinute;
    assert Decayed(r, now, cfg).backoff == Decay(r.backoff, now, cfg.policy.halflife);
  }

  function Candidates(routes: seq<Key>, rs: map<Key, RouteV>, capacityMode: bool, now: real, cfg: Settings, size: Size): (c: seq<Selection.Candidate>)
    requires cfg.Valid() && forall k | k in routes :: k in rs
    ensures |c| == |routes|
    ensures forall i | 0 <= i < |c| ::
              var p := ParametersNow(rs[routes[i]], capacityMode, now, cfg, size); c[i] == Selection.Candidate(routes[i], p.0, p.1)
  {
    seq(|routes|, i requires 0 <= i < |routes| =>
      var p := ParametersNow(rs[routes[i]], capacityMode, now, cfg, size); Selection.Candidate(routes[i], p.0, p.1))
  }

  /**
   What is drawn by, in the route's own terms.  In capacity mode a route nobody else was ever seen on
   comes in the first group and one nobody is on now in the second, each with weight one; one in
   contention comes last, weighed by what of its learned maximum neither others nor we use, times the
   multiplier in force, or by the floor's share of it if that is more.
   */
  lemma CandidateMeans(routes: seq<Key>, rs: map<Key, RouteV>, capacityMode: bool, now: real, cfg: Settings, size: Size, i: nat)
    requires cfg.Valid() && (forall k | k in routes :: k in rs) && i < |routes|
    ensures var c, r := Candidates(routes, rs, capacityMode, now, cfg, size)[i], rs[routes[i]];
            var capacity := if r.safeRpm != 0.0 then r.safeRpm else 1.0;
            var unused := capacity - r.otherRpm - |Since(r.sent, now - cfg.windows.rpm)| as real * 60.0 / cfg.windows.rpm;
            var multiplier := size(if now < r.backoff.until then cfg.policy.floor
                                   else Effective(Decay(r.backoff, now, cfg.policy.halflife), now, cfg.policy));
            var share := (if unused > 0.0 then unused else 0.0) * multiplier;
            var weighed := if share > capacity * size(cfg.policy.floor) then share else capacity * size(cfg.policy.floor);
            && c.route == routes[i]
            && (!capacityMode ==> c.group == 0 && c.weight == weighed)
            && (capacityMode && !r.foreignSeen ==> c.group == 0 && c.weight == 1.0)
            && (capacityMode && r.foreignSeen && r.otherRpm <= 0.0 ==> c.group == 1 && c.weight == 1.0)
            && (capacityMode && r.foreignSeen && r.otherRpm > 0.0 ==> c.group == 2 && c.weight == weighed)
  {
    var r := rs[routes[i]];
    var multiplier := size(Effective(Decay(r.backoff, now, cfg.policy.halflife), now, cfg.policy));
    WeightIsLarger(r, now, multiplier, size(cfg.policy.floor), cfg);
    if now < r.backoff.until { ParkedFloor(r.backoff, now, cfg.policy); }
    hide Since, Decay, Effective, Weight;
  }

  lemma ParkedFloor(b: Backoff, now: real, p: Policy)
    requires now < b.until
    ensures Effective(Decay(b, now, p.halflife), now, p) == p.floor
  {
    DecayKeepsWindow(b, now, p.halflife);
    hide Decay;
  }

  function Names(s: seq<Selection.Candidate>): (r: seq<Key>)
    ensures |r| == |s| && forall i | 0 <= i < |s| :: r[i] == s[i].route
  {
    seq(|s|, i requires 0 <= i < |s| => s[i].route)
  }

  /** One turn of the loop in `weights`: recover the penalty, then weigh what is left free. */
  method Weigh(states: map<Key, RouteState>, key: Key, now: real, cfg: Settings, size: Size) returns (w: real)
    requires cfg.Valid() && Known([key], states)
    modifies states[key]
    ensures Values(states) == old(Values(states))[key := Decayed(old(Values(states))[key], now, cfg)]
    ensures w == WeightNow(old(Values(states))[key], now, cfg, size)
  {
    hide Views, Since, Decay, Effective, PerMinute, Portion, Values;
    assert key in [key];
    var state := states[key];
    Look(states, key, now, cfg);
    Fields(states, key);
    var requests := state.Recent(now - cfg.windows.rpm);
    var available := Max(0.0, Capacity(state) - state.otherRpm - PerMinute(requests, cfg.windows.rpm));
    var multiplier := size(Effective(Backoff(state.penalty, state.penaltyUntil, state.penaltyAt), now, cfg.policy));
    w := Max(Portion(Capacity(state), size(cfg.policy.floor)), Portion(available, multiplier));
  }

  function Capacity(state: RouteState): real
    reads state
  {
    if state.safeRpm != 0.0 then state.safeRpm else 1.0
  }

  lemma KnownPart(routes: seq<Key>, part: seq<Key>, states: map<Key, RouteState>)
    requires Known(routes, states) && forall k | k in part :: k in routes
    ensures Known(part, states)
  {
  }

  /** `weights`. */
  method Weights(routes: seq<Key>, states: map<Key, RouteState>, now: real, cfg: Settings, size: Size) returns (w: seq<real>)
    requires cfg.Valid() && Known(routes, states)
    modifies states.Values
    ensures Values(states) == Looked(old(Values(states)), routes, now, cfg)
    ensures |w| == |routes| && forall i | 0 <= i < |w| :: w[i] == WeightNow(old(Values(states))[routes[i]], now, cfg, size)
  {
    hide Values, WeightNow, Looked, Decayed;
    ghost var before := Values(states);
    w := [];
    LookedNone(before, now, cfg);
    for i := 0 to |routes|
      invariant |w| == i && Values(states) == Looked(before, routes[..i], now, cfg)
      invariant forall j | 0 <= j < i :: w[j] == WeightNow(before[routes[j]], now, cfg, size)
    {
      KnownPart(routes, [routes[i]], states);
      var x := Weigh(states, routes[i], now, cfg, size);
      assert routes[..i + 1] == routes[..i] + [routes[i]];
      LookedMore(before, routes[..i], routes[i], now, cfg);
      LookingKeepsWeight(before, routes[..i], routes[i], now, cfg, size);
      w := w + [x];
    }
    assert routes[..|routes|] == routes;
  }

  lemma LookedNone(rs: map<Key, RouteV>, now: real, cfg: Settings)
    ensures Looked(rs, [], now, cfg) == rs
  {
  }

  lemma LookingKeepsWeight(rs: map<Key, RouteV>, looked: seq<Key>, key: Key, now: real, cfg: Settings, size: Size)
    requires cfg.Valid() && key in rs
    ensures key in Looked(rs, looked, now, cfg)
    ensures WeightNow(Looked(rs, looked, now, cfg)[key], now, cfg, size) == WeightNow(rs[key], now, cfg, size)
  {
    hide Decay, Effective, Since, PerMinute;
    LookedTwice(rs[key], now, cfg);
  }

  lemma ParametersAre(r: RouteV, capacityMode: bool, now: real, cfg: Settings, size: Size)
    requires cfg.Valid()
    ensures ParametersNow(r, capacityMode, now, cfg, size)
         == if !capacityMode then (0, WeightNow(r, now, cfg, size))
            else if !r.foreignSeen then (0, 1.0)
            else if r.otherRpm <= 0.0 then (1, 1.0)
            else (2, WeightNow(r, now, cfg, size))
  {
    hide Decay, Effective, Weight;
  }

  /** `selection_parameters`. */
  method SelectionParameters(routes: seq<Key>, states: map<Key, RouteState>, capacityMode: bool, now: real, cfg: Settings, size: Size)
    returns (ps: seq<(nat, real)>)
    requires cfg.Valid() && Known(routes, states)
    modifies states.Values
    ensures Values(states) == Looked(old(Values(states)), routes, now, cfg)
    ensures |ps| == |routes|
    ensures forall i | 0 <= i < |ps| :: ps[i] == ParametersNow(old(Values(states))[routes[i]], capacityMode, now, cfg, size)
  {
    hide Values, Decay, WeightNow, ParametersNow;
    ghost var before := Values(states);
    var w := Weights(routes, states, now, cfg, size);
    forall i | 0 <= i < |routes|
      ensures ParametersNow(before[routes[i]], capacityMode, now, cfg, size)
           == if !capacityMode then (0, w[i])
              else if !before[routes[i]].foreignSeen then (0, 1.0)
              else if before[routes[i]].otherRpm <= 0.0 then (1, 1.0) else (2, w[i])
    {
      ParametersAre(before[routes[i]], capacityMode, now, cfg, size);
    }
    if !capacityMode {
      ps := seq(|w|, i requires 0 <= i < |w| => (0, w[i]));
      return;
    }
    ps := [];
    for i := 0 to |routes|
      invariant |ps| == i && Values(states) == Looked(before, routes, now, cfg)
      invariant forall j | 0 <= j < i :: ps[j] == ParametersNow(before[routes[j]], capacityMode, now, cfg, size)
    {
      var state := states[routes[i]];
      Fields(states, routes[i]);
      LookedFields(before, routes, routes[i], now, cfg);
      ps := ps + [if !state.foreignSeen then (0, 1.0) else if state.otherRpm <= 0.0 then (1, 1.0) else (2, w[i])];
    }
  }

  lemma LookedFields(rs: map<Key, RouteV>, looked: seq<Key>, key: Key, now: real, cfg: Settings)
    requires key in rs
    ensures var r := Looked(rs, looked, now, cfg)[key];
            && r.foreignSeen == rs[key].foreignSeen && r.otherRpm == rs[key].otherRpm
            && r.safeRpm == rs[key].safeRpm && r.sent == rs[key].sent && r.backoff.until == rs[key].backoff.until
  {
    DecayKeepsWindow(rs[key].backoff, now, cfg.policy.halflife);
    hide Decay;
  }

  lemma Fields(states: map<Key, RouteState>, key: Key)
    requires key in states
    ensures Values(states)[key] == states[key].View()
    ensures Values(states)[key].foreignSeen == states[key].foreignSeen && Values(states)[key].otherRpm == states[key].otherRpm
    ensures Values(states)[key].safeRpm == states[key].safeRpm && Values(states)[key].backoff.until == states[key].penaltyUntil
  {
  }

  // ---- the three balancing modes ---------------------------------------------------

  datatype Mode = StrictPriority | Capacity | PriorityThreshold

  /** `total_load`: our rate and everyone else's as shares of the learned maximum, once there is one. */
  function TotalLoad(r: RouteV, now: real, cfg: Settings): Option<real>
    requires cfg.Valid()
  {
    if r.safeRpm > 0.0 then Some(Rpm(r.sent, now, cfg.windows.rpm) / r.safeRpm + r.otherRpm / r.safeRpm) else None
  }

  /** Stepped over by `priority_threshold`: still parked, or at the threshold already. */
  predicate Busy(r: RouteV, now: real, threshold: real, cfg: Settings)
    requires cfg.Valid()
  {
    now < r.backoff.until || (TotalLoad(r, now, cfg).Some? && TotalLoad(r, now, cfg).value >= threshold)
  }

  /** In requests per minute: ours and the others' together reach the threshold's share of the maximum. */
  lemma BusyExactlyWhen(r: RouteV, now: real, threshold: real, cfg: Settings)
    requires cfg.Valid()
    ensures Busy(r, now, threshold, cfg) <==>
              now < r.backoff.until
              || (r.safeRpm > 0.0 && Rpm(r.sent, now, cfg.windows.rpm) + r.otherRpm >= threshold * r.safeRpm)
  {
    var ours := Rpm(r.sent, now, cfg.windows.rpm);
    hide Rpm;
    if r.safeRpm > 0.0 {
      var load := ours / r.safeRpm + r.otherRpm / r.safeRpm;
      assert load * r.safeRpm == ours + r.otherRpm;
      if load >= threshold { assert (load - threshold) * r.safeRpm >= 0.0; }
      else { assert (threshold - load) * r.safeRpm > 0.0; }
    }
  }

  /** A demotion that names a time to come back is honoured: until then the route is stepped over. */
  lemma RetryAfterHonoured(v: EngineV, inputs: seq<Input>, i: nat, key: Key, now: real, threshold: real, cfg: Settings)
    requires cfg.Valid() && v.states == map[] && i < |inputs| && inputs[i].Consumed? && inputs[i].e.body.Demote? && inputs[i].e.body.route == key
    requires var rest := inputs[i].e.body.retryAfter; rest.Some? && rest.value > 0.0 && 0.0 <= now < inputs[i].e.at + rest.value
    ensures Busy(Lookup(Fold(v, inputs, cfg), key), now, threshold, cfg)
  {
    hide Fold, TotalLoad;
    assert Histories.ParksBeyond(inputs[i], key, now, cfg);
    Histories.ParkedExactlyWhen(v, inputs, key, cfg, now);
  }

  /** What decides a route's place: learned facts every reachable state has, and factors that are not negative. */
  ghost predicate Drawable(routes: seq<Key>, rs: map<Key, RouteV>, size: Size) {
    Sizes(size) && forall k | k in routes :: k in rs && Learned(rs[k])
  }

  lemma CandidatesWeighted(routes: seq<Key>, rs: map<Key, RouteV>, capacityMode: bool, now: real, cfg: Settings, size: Size)
    requires cfg.Valid() && Drawable(routes, rs, size)
    ensures Selection.Weighted(Candidates(routes, rs, capacityMode, now, cfg, size))
  {
    var c := Candidates(routes, rs, capacityMode, now, cfg, size);
    forall i | 0 <= i < |c| ensures c[i].weight >= 0.0 {
      var r := rs[routes[i]];
      ParametersMeaning(r, capacityMode, now, size(Effective(Decay(r.backoff, now, cfg.policy.halflife), now, cfg.policy)),
                        size(cfg.policy.floor), cfg);
      hide Parameters, Effective, Decay;
    }
  }

  lemma {:induction false} NamesKeepCounts(a: seq<Selection.Candidate>, b: seq<Selection.Candidate>)
    requires multiset(a) == multiset(b)
    ensures multiset(Names(a)) == multiset(Names(b))
    decreases |a|
  {
    if a == [] {
      assert |multiset(b)| == 0;
    } else {
      assert a[0] in multiset(b);
      var i :| 0 <= i < |b| && b[i] == a[0];
      Selection.WithoutKeeps(b, i);
      Selection.WithoutKeeps(a, 0);
      assert multiset(Selection.Without(a, 0)) == multiset(a) - multiset{a[0]};
      assert multiset(Selection.Without(b, i)) == multiset(b) - multiset{b[i]};
      NamesKeepCounts(Selection.Without(a, 0), Selection.Without(b, i));
      NamesWithout(a, 0);
      NamesWithout(b, i);
    }
  }

  lemma NamesWithout(s: seq<Selection.Candidate>, i: nat)
    requires i < |s|
    ensures multiset(Names(s)) == multiset{s[i].route} + multiset(Names(Selection.Without(s, i)))
  {
    assert Names(Selection.Without(s, i)) == Selection.Without(Names(s), i);
    Selection.WithoutKeeps(Names(s), i);
  }

  /** `_sample` over the routes' parameters. */
  method Sample(routes: seq<Key>, states: map<Key, RouteState>, capacityMode: bool, now: real, us: seq<real>, cfg: Settings, size: Size)
    returns (ordered: seq<Key>)
    requires cfg.Valid() && Known(routes, states) && |us| >= |routes| && Selection.Unit(us)
    requires Drawable(routes, Values(states), size)
    modifies states.Values
    ensures Values(states) == Looked(old(Values(states)), routes, now, cfg)
    ensures ordered == Names(Selection.Sampled(Candidates(routes, old(Values(states)), capacityMode, now, cfg, size), us))
    ensures multiset(ordered) == multiset(routes)
  {
    hide Values, Drawable, Looked, ParametersNow, Selection.Sampled, Selection.Weighted;
    ghost var before := Values(states);
    var ps := SelectionParameters(routes, states, capacityMode, now, cfg, size);
    var pool := seq(|routes|, i requires 0 <= i < |routes| => Selection.Candidate(routes[i], ps[i].0, ps[i].1));
    assert pool == Candidates(routes, before, capacityMode, now, cfg, size);
    CandidatesWeighted(routes, before, capacityMode, now, cfg, size);
    var chosen := Selection.Sample(pool, us);
    Selection.SampledIsGroupedPermutation(pool, us);
    NamesKeepCounts(chosen, pool);
    assert Names(pool) == routes;
    ordered := Names(chosen);
  }

  lemma LookedCandidates(routes: seq<Key>, rs: map<Key, RouteV>, looked: seq<Key>, capacityMode: bool, now: real, cfg: Settings, size: Size)
    requires cfg.Valid() && forall k | k in routes :: k in rs
    ensures Candidates(routes, Looked(rs, looked, now, cfg), capacityMode, now, cfg, size)
         == Candidates(routes, rs, capacityMode, now, cfg, size)
  {
    forall i | 0 <= i < |routes|
      ensures ParametersNow(Looked(rs, looked, now, cfg)[routes[i]], capacityMode, now, cfg, size)
           == ParametersNow(rs[routes[i]], capacityMode, now, cfg, size)
    {
      LookingKeepsParameters(rs[routes[i]], capacityMode, now, cfg, size);
    }
    hide ParametersNow;
  }

  lemma LookedDrawable(routes: seq<Key>, rs: map<Key, RouteV>, looked: seq<Key>, now: real, cfg: Settings, size: Size)
    requires Drawable(routes, rs, size)
    ensures Drawable(routes, Looked(rs, looked, now, cfg), size)
  {
    hide Decay;
  }

  /** The first route not stepped over, if there is one. */
  ghost predicate FirstIdle(routes: seq<Key>, rs: map<Key, RouteV>, i: nat, now: real, threshold: real, cfg: Settings)
    requires cfg.Valid() && forall k | k in routes :: k in rs
  {
    && i < |routes| && !Busy(rs[routes[i]], now, threshold, cfg)
    && forall j | 0 <= j < i :: Busy(rs[routes[j]], now, threshold, cfg)
  }

  /** A look at one route in `_priority_threshold`. */
  method StepOver(states: map<Key, RouteState>, key: Key, now: real, threshold: real, cfg: Settings) returns (busy: bool)
    requires cfg.Valid() && Known([key], states)
    modifies states[key]
    ensures Values(states) == old(Values(states))[key := Decayed(old(Values(states))[key], now, cfg)]
    ensures busy == Busy(old(Values(states))[key], now, threshold, cfg)
  {
    hide Views, Since, Decay, PerMinute, Values;
    assert key in [key];
    var state := states[key];
    Fields(states, key);
    DecayKeepsWindow(Values(states)[key].backoff, now, cfg.policy.halflife);
    Look(states, key, now, cfg);
    Fields(states, key);
    if now < state.penaltyUntil {
      return true;
    }
    var requests := state.Recent(now - cfg.windows.rpm);
    busy := state.safeRpm > 0.0
         && PerMinute(requests, cfg.windows.rpm) / state.safeRpm + state.otherRpm / state.safeRpm >= threshold;
  }

  /** `_priority_threshold`: step over the busy routes, and sample when there is no other. */
  method OverThreshold(routes: seq<Key>, states: map<Key, RouteState>, now: real, threshold: real, us: seq<real>, cfg: Settings, size: Size)
    returns (ordered: seq<Key>)
    requires cfg.Valid() && Known(routes, states) && |us| >= |routes| && Selection.Unit(us)
    requires Drawable(routes, Values(states), size)
    modifies states.Values
    ensures multiset(ordered) == multiset(routes)
    ensures var rs := old(Values(states));
            if forall i | 0 <= i < |routes| :: Busy(rs[routes[i]], now, threshold, cfg)
            then ordered == Names(Selection.Sampled(Candidates(routes, rs, false, now, cfg, size), us))
            else exists i: nat :: FirstIdle(routes, rs, i, now, threshold, cfg) && ordered == [routes[i]] + Selection.Without(routes, i)
    ensures exists n | 0 <= n <= |routes| :: Values(states) == Looked(old(Values(states)), routes[..n], now, cfg)
  {
    hide Values, Drawable, Looked, Decayed, Busy, Candidates, Names, Selection.Sampled, Selection.Without;
    ghost var before := Values(states);
    LookedNone(before, now, cfg);
    for i := 0 to |routes|
      invariant Values(states) == Looked(before, routes[..i], now, cfg)
      invariant forall j | 0 <= j < i :: Busy(before[routes[j]], now, threshold, cfg)
    {
      KnownPart(routes, [routes[i]], states);
      assert routes[..i + 1] == routes[..i] + [routes[i]];
      LookedMore(before, routes[..i], routes[i], now, cfg);
      LookedBusy(before, routes[..i], routes[i], now, threshold, cfg);
      var busy := StepOver(states, routes[i], now, threshold, cfg);
      if !busy {
        ordered := [routes[i]] + routes[..i] + routes[i + 1..];
        MovedToFront(routes, i);
        assert FirstIdle(routes, before, i, now, threshold, cfg);
        return;
      }
    }
    assert routes[..|routes|] == routes;
    LookedDrawable(routes, before, routes, now, cfg, size);
    LookedCandidates(routes, before, routes, false, now, cfg, size);
    ordered := Sample(routes, states, false, now, us, cfg, size);
    LookedAgain(before, routes, routes, now, cfg);
    LookedSame(before, routes + routes, routes, now, cfg);
  }

  lemma MovedToFront(s: seq<Key>, i: nat)
    requires i < |s|
    ensures var t := [s[i]] + s[..i] + s[i + 1..]; t == [s[i]] + Selection.Without(s, i) && multiset(t) == multiset(s)
  {
    Selection.WithoutKeeps(s, i);
    assert [s[i]] + s[..i] + s[i + 1..] == [s[i]] + Selection.Without(s, i);
  }

  lemma LookedBusy(rs: map<Key, RouteV>, looked: seq<Key>, key: Key, now: real, threshold: real, cfg: Settings)
    requires cfg.Valid() && key in rs
    ensures Busy(Looked(rs, looked, now, cfg)[key], now, threshold, cfg) == Busy(rs[key], now, threshold, cfg)
  {
    LookedFields(rs, looked, key, now, cfg);
    hide Looked, Rpm;
  }

  /**
   `order`.  Every mode returns each route exactly once; strict priority keeps the order given;
   capacity samples by the groups and weights the learned state has at this moment; under a threshold
   the first route that is neither parked nor loaded goes first and the rest keep their order, and
   when there is none they are sampled.
   */
  method Order(mode: Mode, routes: seq<Key>, states: map<Key, RouteState>, now: real, threshold: real, us: seq<real>, cfg: Settings, size: Size)
    returns (ordered: seq<Key>)
    requires cfg.Valid() && Known(routes, states) && |us| >= |routes| && Selection.Unit(us)
    requires Drawable(routes, Values(states), size)
    modifies states.Values
    ensures multiset(ordered) == multiset(routes)
    ensures mode.StrictPriority? || |routes| < 2 ==> ordered == routes
    ensures mode.Capacity? && |routes| >= 2 ==>
              ordered == Names(Selection.Sampled(Candidates(routes, old(Values(states)), true, now, cfg, size), us))
    ensures mode.PriorityThreshold? && |routes| >= 2 ==>
              var rs := old(Values(states));
              if forall i | 0 <= i < |routes| :: Busy(rs[routes[i]], now, threshold, cfg)
              then ordered == Names(Selection.Sampled(Candidates(routes, rs, false, now, cfg, size), us))
              else exists i: nat :: FirstIdle(routes, rs, i, now, threshold, cfg) && ordered == [routes[i]] + Selection.Without(routes, i)
    ensures exists n | 0 <= n <= |routes| :: Values(states) == Looked(old(Values(states)), routes[..n], now, cfg)
  {
    hide Values, Drawable, Looked, Busy, FirstIdle, Candidates, Selection.Sampled, Selection.Without;
    LookedNone(Values(states), now, cfg);
    assert routes[..0] == [] && routes[..|routes|] == routes;
    if |routes| < 2 || mode.StrictPriority? {
      return routes;
    }
    if mode.Capacity? {
      ordered := Sample(routes, states, true, now, us, cfg, size);
    } else {
      ordered := OverThreshold(routes, states, now, threshold, us, cfg, size);
    }
  }

  // ---- publication -------------------------------------------------------------------------

  lemma {:induction false} CandidatesKeepCounts(a: seq<Key>, b: seq<Key>, rs: map<Key, RouteV>, capacityMode: bool, now: real, cfg: Settings, size: Size)
    requires cfg.Valid() && multiset(a) == multiset(b) && forall k | k in b :: k in rs
    ensures forall k | k in a :: k in rs
    ensures multiset(Candidates(a, rs, capacityMode, now, cfg, size)) == multiset(Candidates(b, rs, capacityMode, now, cfg, size))
    decreases |a|
  {
    hide ParametersNow;
    if a == [] {
      assert |multiset(b)| == 0;
    } else {
      assert a[0] in multiset(b);
      var i :| 0 <= i < |b| && b[i] == a[0];
      Selection.WithoutKeeps(a, 0);
      Selection.WithoutKeeps(b, i);
      assert multiset(Selection.Without(a, 0)) == multiset(a) - multiset{a[0]};
      assert multiset(Selection.Without(b, i)) == multiset(b) - multiset{b[i]};
      CandidatesKeepCounts(Selection.Without(a, 0), Selection.Without(b, i), rs, capacityMode, now, cfg, size);
      forall k | k in a ensures k in rs {
        assert k == a[0] || k in Selection.Without(a, 0);
      }
      CandidatesWithout(a, 0, rs, capacityMode, now, cfg, size);
      CandidatesWithout(b, i, rs, capacityMode, now, cfg, size);
    }
  }

  lemma CandidatesWithout(s: seq<Key>, i: nat, rs: map<Key, RouteV>, capacityMode: bool, now: real, cfg: Settings, size: Size)
    requires cfg.Valid() && i < |s| && forall k | k in s :: k in rs
    ensures var c := Candidates(s, rs, capacityMode, now, cfg, size);
            multiset(c) == multiset{c[i]} + multiset(Candidates(Selection.Without(s, i), rs, capacityMode, now, cfg, size))
  {
    hide ParametersNow;
    var c := Candidates(s, rs, capacityMode, now, cfg, size);
    Selection.WithoutKeeps(c, i);
    assert Selection.Without(c, i) == Candidates(Selection.Without(s, i), rs, capacityMode, now, cfg, size);
  }

  /** Parameters belong to routes: reordered candidates are the candidates of the reordered routes. */
  lemma CandidatesOfNames(s: seq<Selection.Candidate>, routes: seq<Key>, rs: map<Key, RouteV>, capacityMode: bool, now: real, cfg: Settings, size: Size)
    requires cfg.Valid() && (forall k | k in routes :: k in rs)
    requires multiset(s) == multiset(Candidates(routes, rs, capacityMode, now, cfg, size))
    ensures forall k | k in Names(s) :: k in rs
    ensures Candidates(Names(s), rs, capacityMode, now, cfg, size) == s
  {
    hide ParametersNow;
    forall i | 0 <= i < |s|
      ensures s[i].route in rs
      ensures var p := ParametersNow(rs[s[i].route], capacityMode, now, cfg, size); s[i] == Selection.Candidate(s[i].route, p.0, p.1)
    {
      assert s[i] in multiset(s);
      assert s[i] in Candidates(routes, rs, capacityMode, now, cfg, size);
    }
  }

  /**
   `weighted_targets`: every route of the chain is published once, with the group and the weight its
   learned state has at this moment.  In capacity mode the order published is itself a draw by that
   law, groups first.
   */
  method WeightedTargets(mode: Mode, routes: seq<Key>, states: map<Key, RouteState>, now: real, threshold: real, us: seq<real>, cfg: Settings, size: Size)
    returns (targets: seq<Selection.Candidate>)
    requires cfg.Valid() && Known(routes, states) && |us| >= |routes| && Selection.Unit(us)
    requires Drawable(routes, Values(states), size)
    modifies states.Values
    ensures multiset(targets) == multiset(Candidates(routes, old(Values(states)), mode.Capacity?, now, cfg, size))
    ensures mode.StrictPriority? ==> Names(targets) == routes
    ensures mode.Capacity? ==> Selection.Grouped(targets)
    ensures mode.Capacity? && |routes| >= 2 ==>
              targets == Selection.Sampled(Candidates(routes, old(Values(states)), true, now, cfg, size), us)
    ensures Values(states) == Looked(old(Values(states)), routes, now, cfg)
  {
    hide Values, Drawable, Looked, ParametersNow, Busy, FirstIdle, Names, Candidates, Selection.Sampled, Selection.Weighted, Selection.Grouped, Selection.Unit;
    ghost var before := Values(states);
    var capacityMode := mode.Capacity?;
    var ordered := Order(mode, routes, states, now, threshold, us, cfg, size);
    ghost var n :| 0 <= n <= |routes| && Values(states) == Looked(before, routes[..n], now, cfg);
    SameRoutes(ordered, routes);
    KnownPart(routes, ordered, states);
    LookedCandidates(ordered, before, routes[..n], capacityMode, now, cfg, size);
    ghost var looked := Values(states);
    var ps := SelectionParameters(ordered, states, capacityMode, now, cfg, size);
    targets := seq(|ordered|, i requires 0 <= i < |ordered| => Selection.Candidate(ordered[i], ps[i].0, ps[i].1));
    assert targets == Candidates(ordered, looked, capacityMode, now, cfg, size);
    CandidatesKeepCounts(ordered, routes, before, capacityMode, now, cfg, size);
    LookedAgain(before, routes[..n], ordered, now, cfg);
    LookedSame(before, routes[..n] + ordered, routes, now, cfg);
    if capacityMode {
      if |routes| >= 2 {
        SampledTargets(routes, before, now, us, cfg, size);
      } else {
        FewGrouped(targets);
      }
    }
  }

  lemma FewGrouped(s: seq<Selection.Candidate>)
    requires |s| < 2
    ensures Selection.Grouped(s)
  {
  }

  lemma SampledTargets(routes: seq<Key>, rs: map<Key, RouteV>, now: real, us: seq<real>, cfg: Settings, size: Size)
    requires cfg.Valid() && Drawable(routes, rs, size) && |us| >= |routes| && Selection.Unit(us)
    ensures forall k | k in routes :: k in rs
    ensures var s := Selection.Sampled(Candidates(routes, rs, true, now, cfg, size), us);
            && (forall k | k in Names(s) :: k in rs)
            && Candidates(Names(s), rs, true, now, cfg, size) == s && Selection.Grouped(s)
  {
    CandidatesWeighted(routes, rs, true, now, cfg, size);
    var pool := Candidates(routes, rs, true, now, cfg, size);
    hide Candidates, ParametersNow, Selection.Sampled, Selection.Weighted, Selection.Grouped, Learned;
    Selection.SampledIsGroupedPermutation(pool, us);
    CandidatesOfNames(Selection.Sampled(pool, us), routes, rs, true, now, cfg, size);
  }

  lemma SameRoutes(a: seq<Key>, b: seq<Key>)
    requires multiset(a) == multiset(b)
    ensures |a| == |b| && forall k :: k in a <==> k in b
  {
    assert |multiset(a)| == |multiset(b)|;
    forall k ensures k in a <==> k in b {
      assert k in multiset(a) <==> k in multiset(b);
    }
  }
}
