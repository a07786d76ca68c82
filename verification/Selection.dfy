/**
 Attempt ordering: weighted sampling without replacement by priority group, in routing
 (`_sample`) and again in serving (`weighted_order`).  Random numbers are inputs:
 `us[k]` is the k-th draw, any real in [0, 1).
 */
module Selection {
  import opened Prelude

  datatype Candidate = Candidate(route: string, group: nat, weight: real)

  ghost predicate Weighted(pool: seq<Candidate>) { forall i | 0 <= i < |pool| :: pool[i].weight >= 0.0 }

  ghost predicate NonNegative(w: seq<real>) { forall i | 0 <= i < |w| :: w[i] >= 0.0 }

  ghost predicate Unit(us: seq<real>) { forall i | 0 <= i < |us| :: 0.0 <= us[i] < 1.0 }

  ghost predicate Grouped(s: seq<Candidate>) {
    forall i, j | 0 <= i < j < |s| :: s[i].group <= s[j].group
  }

  function Prefix(w: seq<real>, i: nat): real
    requires i <= |w|
  {
    SumReal(w[..i])
  }

  /** Where a uniform draw lands on the scale of the total weight. */
  function Target(total: real, u: real): real { u * total }

  // ---- one draw ----------------------------------------------------------------

  /** The position of a draw: the index whose prefix-sum interval holds `target`. */
  ghost predicate DrawnAt(w: seq<real>, target: real, i: nat) {
    i < |w| && Prefix(w, i) <= target < Prefix(w, i + 1)
  }

  lemma PrefixStep(w: seq<real>, i: nat)
    requires i < |w|
    ensures Prefix(w, i + 1) == Prefix(w, i) + w[i]
  {
    assert w[..i + 1][..i] == w[..i];
  }

  lemma {:induction false} PrefixMonotone(w: seq<real>, i: nat, j: nat)
    requires i <= j <= |w| && NonNegative(w)
    ensures Prefix(w, i) <= Prefix(w, j)
  {
    if i < j {
      PrefixStep(w, j - 1);
      PrefixMonotone(w, i, j - 1);
    }
  }

  /** Non-negative weights cut [0, total) into disjoint intervals: at most one index per target. */
  lemma DrawUnique(w: seq<real>, target: real, i: nat, j: nat)
    requires NonNegative(w)
    requires DrawnAt(w, target, i) && DrawnAt(w, target, j)
    ensures i == j
  {
    if i < j {
      PrefixMonotone(w, i + 1, j);
    } else if j < i {
      PrefixMonotone(w, j + 1, i);
    }
  }

  lemma TargetInRange(total: real, u: real)
    requires 0.0 <= u < 1.0 && total > 0.0
    ensures 0.0 <= Target(total, u) < total
  {
    var slack := (1.0 - u) * total;
    assert slack > 0.0 && u * total + slack == total;
  }

  /**
   The draw of `_sample`: walk the weights, subtracting, until the target falls inside one.
   The walk always succeeds, so the fallback index computed beforehand is never returned.
   */
  method Draw(w: seq<real>, u: real) returns (index: nat)
    requires 0.0 <= u < 1.0 && SumReal(w) > 0.0
    requires NonNegative(w)
    ensures DrawnAt(w, Target(SumReal(w), u), index)
    ensures w[index] > 0.0
  {
    var target := Target(SumReal(w), u);
    TargetInRange(SumReal(w), u);
    assert w[..|w|] == w;
    hide Target;
    var i := 0;
    while i < |w|
      invariant i <= |w|
      invariant target == Target(SumReal(w), u) - Prefix(w, i)
      invariant target >= 0.0
    {
      PrefixStep(w, i);
      if w[i] > 0.0 && target < w[i] {
        return i;
      }
      target := target - w[i];
      i := i + 1;
    }
    assert false;
  }

  /** The draw as a function, for specifications. */
  function DrawIndex(w: seq<real>, target: real, i: nat := 0): nat
    requires i <= |w|
    decreases |w| - i
  {
    if i == |w| then i else if Prefix(w, i) <= target < Prefix(w, i + 1) then i else DrawIndex(w, target, i + 1)
  }

  lemma {:induction false} DrawIndexFinds(w: seq<real>, target: real, i: nat, at: nat)
    requires NonNegative(w)
    requires DrawnAt(w, target, at) && i <= at
    ensures DrawIndex(w, target, i) == at
    decreases at - i
  {
    if i < at {
      PrefixMonotone(w, i + 1, at);
      DrawIndexFinds(w, target, i + 1, at);
    }
  }

  /** A draw u selects i exactly when u lies in an interval of length weight / total. */
  lemma ShareIsWeightOverTotal(w: seq<real>, u: real, i: nat)
    requires i < |w| && SumReal(w) > 0.0
    ensures DrawnAt(w, Target(SumReal(w), u), i) <==> Prefix(w, i) / SumReal(w) <= u < Prefix(w, i + 1) / SumReal(w)
    ensures Prefix(w, i + 1) / SumReal(w) - Prefix(w, i) / SumReal(w) == w[i] / SumReal(w)
  {
    PrefixStep(w, i);
    TargetInterval(SumReal(w), Prefix(w, i), Prefix(w, i + 1), u);
    hide Target, Prefix;
  }

  lemma TargetInterval(total: real, a: real, b: real, u: real)
    requires total > 0.0
    ensures a <= Target(total, u) < b <==> a / total <= u < b / total
    ensures b / total - a / total == (b - a) / total
  {
    Scale(a, u, total);
    Scale(b, u, total);
  }

  lemma Scale(a: real, u: real, t: real)
    requires t > 0.0
    ensures a <= u * t <==> a / t <= u
  {
    var q := a / t;
    assert q * t == a;
    if q <= u { assert (u - q) * t >= 0.0; } else { assert (q - u) * t > 0.0; }
  }

  // ---- sampling a whole order ----------------------------------------------------

  function MinGroup(pool: seq<Candidate>): (g: nat)
    requires pool != []
    ensures forall c | c in pool :: g <= c.group
    ensures exists i | 0 <= i < |pool| :: pool[i].group == g
  {
    var last := pool[|pool| - 1];
    if |pool| == 1 then last.group
    else
      assert pool == pool[..|pool| - 1] + [last];
      MinNat(MinGroup(pool[..|pool| - 1]), last.group)
  }

  /** Weights of the leading group; every other candidate weighs nothing in this draw. */
  function Masked(pool: seq<Candidate>, group: nat): (w: seq<real>)
    ensures |w| == |pool|
    ensures forall i | 0 <= i < |w| :: w[i] == if pool[i].group == group then pool[i].weight else 0.0
  {
    seq(|pool|, i requires 0 <= i < |pool| => if pool[i].group == group then pool[i].weight else 0.0)
  }

  function FirstOf(pool: seq<Candidate>, group: nat): (i: nat)
    requires exists i | 0 <= i < |pool| :: pool[i].group == group
    ensures i < |pool| && pool[i].group == group
    ensures forall j | 0 <= j < i :: pool[j].group != group
  {
    if pool[0].group == group then 0
    else
      assert exists i | 0 <= i < |pool[1..]| :: pool[1..][i].group == group by {
        var i :| 0 <= i < |pool| && pool[i].group == group;
        assert pool[1..][i - 1].group == group;
      }
      1 + FirstOf(pool[1..], group)
  }

  function Pick(pool: seq<Candidate>, u: real): nat
    requires pool != []
  {
    var g := MinGroup(pool);
    var w := Masked(pool, g);
    if SumReal(w) <= 0.0 then FirstOf(pool, g) else DrawIndex(w, Target(SumReal(w), u))
  }

  function Without<T>(s: seq<T>, i: nat): seq<T>
    requires i < |s|
  {
    s[..i] + s[i + 1..]
  }

  /** Sampling without replacement: draw from the leading group until nothing is left. */
  function Sampled(pool: seq<Candidate>, us: seq<real>): seq<Candidate>
    requires |us| >= |pool|
    decreases |pool|
  {
    if pool == [] then []
    else
      var i := Pick(pool, us[0]);
      if i < |pool| then [pool[i]] + Sampled(Without(pool, i), us[1..]) else []
  }

  lemma {:induction false} DrawExists(w: seq<real>, target: real, n: nat) returns (i: nat)
    requires n <= |w| && 0.0 <= target < Prefix(w, n)
    ensures DrawnAt(w, target, i)
  {
    assert n > 0;
    if Prefix(w, n - 1) > target {
      i := DrawExists(w, target, n - 1);
    } else {
      i := n - 1;
    }
  }

  lemma DrawIndexDraws(w: seq<real>, u: real)
    requires NonNegative(w) && 0.0 <= u < 1.0 && SumReal(w) > 0.0
    ensures var i := DrawIndex(w, Target(SumReal(w), u)); DrawnAt(w, Target(SumReal(w), u), i) && i < |w| && w[i] > 0.0
  {
    TargetInRange(SumReal(w), u);
    hide Target;
    assert w[..|w|] == w;
    var i := DrawExists(w, Target(SumReal(w), u), |w|);
    DrawIndexFinds(w, Target(SumReal(w), u), 0, i);
    PrefixStep(w, i);
  }

  lemma MaskedNonNegative(pool: seq<Candidate>, group: nat)
    requires Weighted(pool)
    ensures NonNegative(Masked(pool, group))
  {
  }

  lemma PickLeads(pool: seq<Candidate>, u: real)
    requires pool != [] && Weighted(pool) && 0.0 <= u < 1.0
    ensures Pick(pool, u) < |pool| && pool[Pick(pool, u)].group == MinGroup(pool)
  {
    hide Target, SumReal, DrawIndex, DrawnAt;
    var w := Masked(pool, MinGroup(pool));
    if SumReal(w) > 0.0 {
      MaskedNonNegative(pool, MinGroup(pool));
      DrawIndexDraws(w, u);
    }
  }

  lemma WithoutKeeps<T>(s: seq<T>, i: nat)
    requires i < |s|
    ensures multiset(s) == multiset{s[i]} + multiset(Without(s, i))
  {
    assert s == s[..i] + [s[i]] + s[i + 1..];
  }

  /**
   A sampled order is a permutation of the pool, and its groups never decrease: no candidate of a
   later group is tried before every candidate of an earlier one.
   */
  lemma {:induction false} SampledIsGroupedPermutation(pool: seq<Candidate>, us: seq<real>)
    requires |us| >= |pool| && Weighted(pool) && Unit(us)
    ensures multiset(Sampled(pool, us)) == multiset(pool)
    ensures Grouped(Sampled(pool, us))
    decreases |pool|
  {
    hide Pick, MinGroup;
    if pool != [] {
      var i := Pick(pool, us[0]);
      PickLeads(pool, us[0]);
      WithoutKeeps(pool, i);
      var rest := Without(pool, i);
      SampledIsGroupedPermutation(rest, us[1..]);
      LeaderFirst(pool, i, Sampled(rest, us[1..]));
    }
  }

  lemma LeaderFirst(pool: seq<Candidate>, i: nat, tail: seq<Candidate>)
    requires i < |pool| && pool[i].group == MinGroup(pool)
    requires multiset(tail) == multiset(Without(pool, i)) && Grouped(tail)
    ensures Grouped([pool[i]] + tail)
  {
    hide MinGroup, Without;
    WithoutKeeps(pool, i);
    forall j | 0 <= j < |tail| ensures pool[i].group <= tail[j].group {
      FromPool(pool, i, tail, tail[j]);
    }
  }

  lemma FromPool(pool: seq<Candidate>, i: nat, tail: seq<Candidate>, c: Candidate)
    requires multiset(tail) <= multiset(pool) && c in tail
    ensures c in pool
  {
    assert c in multiset(tail);
  }

  lemma SampledStep(pool: seq<Candidate>, us: seq<real>, k: nat)
    requires pool != [] && k + |pool| <= |us| && Pick(pool, us[k]) < |pool|
    ensures var i := Pick(pool, us[k]);
            Sampled(pool, us[k..]) == [pool[i]] + Sampled(Without(pool, i), us[k + 1..])
  {
    hide Pick;
    assert us[k..][1..] == us[k + 1..];
  }

  /**
   The candidate a draw u puts first: of the leading group, the one whose share of that group's weight u
   falls into; the first of the group when it weighs nothing.
   */
  ghost predicate DrawnFirst(pool: seq<Candidate>, u: real, i: nat) {
    && i < |pool| && (forall c | c in pool :: pool[i].group <= c.group)
    && var w := Masked(pool, pool[i].group);
       if SumReal(w) > 0.0 then DrawnAt(w, Target(SumReal(w), u), i)
       else forall j | 0 <= j < i :: pool[j].group != pool[i].group
  }

  lemma PickDraws(pool: seq<Candidate>, u: real)
    requires pool != [] && Weighted(pool) && 0.0 <= u < 1.0
    ensures DrawnFirst(pool, u, Pick(pool, u))
  {
    var g := MinGroup(pool);
    var w := Masked(pool, g);
    PickLeads(pool, u);
    MaskedNonNegative(pool, g);
    hide SumReal, DrawIndex, NonNegative, Target, DrawnAt, Masked, MinGroup;
    assert forall c | c in pool :: g <= c.group;
    if SumReal(w) > 0.0 { DrawIndexDraws(w, u); }
  }

  /** Sampling draws one candidate after another, each out of those that are left, with a draw of its own. */
  lemma SampledDraws(pool: seq<Candidate>, us: seq<real>) returns (i: nat)
    requires pool != [] && |us| >= |pool| && Weighted(pool) && Unit(us)
    ensures DrawnFirst(pool, us[0], i) && Sampled(pool, us) == [pool[i]] + Sampled(pool[..i] + pool[i + 1..], us[1..])
  {
    i := Pick(pool, us[0]);
    PickLeads(pool, us[0]);
    PickDraws(pool, us[0]);
    hide Pick, MinGroup, DrawnFirst, Weighted;
  }

  method PickOne(pool: seq<Candidate>, u: real) returns (index: nat)
    requires pool != [] && Weighted(pool) && 0.0 <= u < 1.0
    ensures index < |pool| && index == Pick(pool, u) && pool[index].group == MinGroup(pool)
  {
    PickLeads(pool, u);
    var g := MinGroup(pool);
    hide Target, SumReal, DrawIndex, DrawnAt;
    var w := Masked(pool, g);
    if SumReal(w) <= 0.0 {
      index := FirstOf(pool, g);
    } else {
      MaskedNonNegative(pool, g);
      index := Draw(w, u);
      DrawIndexFinds(w, Target(SumReal(w), u), 0, index);
    }
  }

  /** `_sample`: pop one candidate at a time out of a shrinking pool. */
  method Sample(routes: seq<Candidate>, us: seq<real>) returns (chosen: seq<Candidate>)
    requires |us| >= |routes| && Weighted(routes) && Unit(us)
    ensures chosen == Sampled(routes, us)
  {
    hide Pick, MinGroup;
    chosen := [];
    var pool, k := routes, 0;
    assert us[0..] == us;
    while pool != []
      invariant k == |chosen| && k + |pool| == |routes|
      invariant Weighted(pool)
      invariant chosen + Sampled(pool, us[k..]) == Sampled(routes, us)
      decreases |pool|
    {
      var index := PickOne(pool, us[k]);
      SampledStep(pool, us, k);
      ghost var rest := Sampled(Without(pool, index), us[k + 1..]);
      assert chosen + ([pool[index]] + rest) == (chosen + [pool[index]]) + rest;
      chosen, pool, k := chosen + [pool[index]], Without(pool, index), k + 1;
    }
  }

  // ---- serving's copy over published parameters -------------------------------------

  /** An installed target; a publisher older than selection weights sends none. */
  datatype Published = Published(route: string, endpoint: string, resource: string, priority: nat, weight: Option<real>)

  function AsCandidates(s: seq<Published>): (r: seq<Candidate>)
    ensures |r| == |s|
    ensures forall i | 0 <= i < |s| ::
              r[i] == Candidate(s[i].route, s[i].priority, if s[i].weight.Some? then s[i].weight.value else 1.0)
  {
    seq(|s|, i requires 0 <= i < |s| =>
      Candidate(s[i].route, s[i].priority, if s[i].weight.Some? then s[i].weight.value else 1.0))
  }

  predicate AllPublished(s: seq<Published>) { forall i | 0 <= i < |s| :: s[i].weight.Some? }

  predicate NonePublished(s: seq<Published>) { forall i | 0 <= i < |s| :: s[i].weight.None? }

  lemma StillPublished(pool: seq<Published>, i: nat)
    requires i < |pool|
    ensures AllPublished(pool) ==> AllPublished(Without(pool, i)) && !NonePublished(pool)
    ensures Weighted(AsCandidates(pool)) ==> Weighted(AsCandidates(Without(pool, i)))
  {
    assert AllPublished(pool) ==> pool[i].weight.Some?;
  }

  /** What has been chosen, followed by what sampling would still choose. */
  ghost function Outlook(chosen: seq<Published>, pool: seq<Published>, us: seq<real>, k: nat): seq<Candidate>
    requires k + |pool| <= |us|
  {
    AsCandidates(chosen) + Sampled(AsCandidates(pool), us[k..])
  }

  lemma OutlookEnds(s: seq<Published>, us: seq<real>)
    requires |s| <= |us|
    ensures Outlook([], s, us, 0) == Sampled(AsCandidates(s), us)
    ensures Outlook(s, [], us, |s|) == AsCandidates(s)
  {
    hide Pick;
    assert us[0..] == us;
    assert AsCandidates([]) == [];
  }

  lemma PublishedStep(chosen: seq<Published>, pool: seq<Published>, us: seq<real>, k: nat)
    requires pool != [] && k + |pool| <= |us|
    requires var i := Pick(AsCandidates(pool), us[k]); i < |pool|
    ensures var i := Pick(AsCandidates(pool), us[k]);
            && Outlook(chosen + [pool[i]], Without(pool, i), us, k + 1) == Outlook(chosen, pool, us, k)
            && AsCandidates(Without(pool, i)) == Without(AsCandidates(pool), i)
  {
    hide Pick;
    var candidates := AsCandidates(pool);
    var i := Pick(candidates, us[k]);
    SampledStep(candidates, us, k);
    assert AsCandidates(Without(pool, i)) == Without(candidates, i);
    assert AsCandidates(chosen + [pool[i]]) == AsCandidates(chosen) + [candidates[i]];
  }

  /**
   `weighted_order`.  It never drops or repeats a route; with published weights it is exactly
   routing's own sampling law on the published parameters, hence grouped; and a pool without any
   weight keeps the publisher's order.
   */
  method WeightedOrder(routes: seq<Published>, us: seq<real>) returns (chosen: seq<Published>)
    requires |us| >= |routes| && Unit(us)
    requires forall i | 0 <= i < |routes| && routes[i].weight.Some? :: routes[i].weight.value >= 0.0
    ensures multiset(chosen) == multiset(routes)
    ensures AllPublished(routes) ==>
              AsCandidates(chosen) == Sampled(AsCandidates(routes), us) && Grouped(AsCandidates(chosen))
    ensures NonePublished(routes) ==> chosen == routes
  {
    hide Pick, MinGroup, Sampled, Outlook;
    OutlookEnds(routes, us);
    chosen := [];
    var pool, k := routes, 0;
    assert Weighted(AsCandidates(routes));
    hide AllPublished, NonePublished, Weighted;
    while pool != []
      invariant k == |chosen| && k + |pool| == |routes|
      invariant Weighted(AsCandidates(pool))
      invariant multiset(chosen) + multiset(pool) == multiset(routes)
      invariant AllPublished(routes) ==> AllPublished(pool)
      invariant AllPublished(routes) ==> Outlook(chosen, pool, us, k) == Sampled(AsCandidates(routes), us)
      invariant NonePublished(routes) ==> chosen == [] && pool == routes
      decreases |pool|
    {
      StillPublished(pool, 0);
      if NonePublished(pool) {
        return chosen + pool;
      }
      var candidates := AsCandidates(pool);
      var index := PickOne(candidates, us[k]);
      StillPublished(pool, index);
      WithoutKeeps(pool, index);
      PublishedStep(chosen, pool, us, k);
      chosen, pool, k := chosen + [pool[index]], Without(pool, index), k + 1;
    }
    if AllPublished(routes) {
      OutlookEnds(chosen, us);
      SampledIsGroupedPermutation(AsCandidates(routes), us);
    }
  }
}
