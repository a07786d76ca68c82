/**
 One route's learned state (`RouteState`) as a value, and what each observation does to it
 (`QuotaTracker.charge`, `settle`, `note_success`, `note_foreign`, `demote`, `note_timeout`).
 */
module Quota {
  import opened Prelude
  import opened Ledger
  import opened Penalties

  datatype Settings = Settings(windows: Windows, policy: Policy, charsPerToken: real) {
    ghost predicate Valid() { windows.Valid() && charsPerToken > 0.0 }
  }

  datatype RouteV = RouteV(
    sent: seq<EntryV>, backoff: Backoff,
    attempts: nat, ok: nat, rateLimited: nat, errors: nat, timeouts: nat, lastStatus: string,
    tokensPerByte: Option<real>, tokenSamples: nat,
    safeRpm: real, otherRpm: real, rpmSamples: nat, lastDispatchRpm: real, foreignSeen: bool)

  function NewRoute(safeRpm: real): RouteV {
    RouteV([], FRESH, 0, 0, 0, 0, 0, "", None, 0, safeRpm, 0.0, 0, 0.0, false)
  }

  /** `estimate_tokens`: bytes times the learned ratio, never less than one token. */
  function Estimate(r: RouteV, bytes: real, cfg: Settings): real
    requires cfg.Valid()
  {
    Max(1.0, bytes * if r.tokensPerByte.Some? then r.tokensPerByte.value else 1.0 / cfg.charsPerToken)
  }

  function Charged(r: RouteV, now: real, tokens: real, face: Face, attempt: Option<string>, cfg: Settings): RouteV
    requires cfg.Valid()
  {
    var kept := DropLeading(r.sent, now - cfg.windows.Widest());
    var entry := Dispatched(kept, now, tokens, face, attempt, cfg.windows);
    r.(sent := kept + [entry], lastDispatchRpm := entry.rpm)
  }

  /** The ratio half of `settle`; the ledger entry itself is corrected through its owner. */
  function Calibrated(r: RouteV, bytes: real, total: real): RouteV {
    if bytes <= 0.0 then r
    else
      var sample := total / bytes;
      r.(tokensPerByte := Some(if r.tokensPerByte.None? then sample else 0.7 * r.tokensPerByte.value + 0.3 * sample),
         tokenSamples := r.tokenSamples + 1)
  }

  /** `note_success` at a proven dispatch rate. */
  function Proven(r: RouteV, observed: real): RouteV {
    if observed <= 0.0 then r
    else
      var safe := Max(r.safeRpm, observed);
      r.(ok := r.ok + 1, rpmSamples := r.rpmSamples + 1, safeRpm := safe,
         otherRpm := Min(r.otherRpm, Max(0.0, safe - observed)))
  }

  predicate Raises(r: RouteV, observed: real) { observed > 0.0 && observed > r.safeRpm }

  /** The rate a throttle is attributed to: the attempt's own, else the last one dispatched. */
  function Attributed(r: RouteV, now: real, observed: Option<real>, cfg: Settings): real
    requires cfg.Valid()
  {
    if observed.Some? then observed.value
    else if r.lastDispatchRpm != 0.0 then r.lastDispatchRpm
    else Rpm(r.sent, now, cfg.windows.rpm)
  }

  /** `note_foreign`: whatever of the learned maximum was not ours was somebody else's. */
  function Contended(r: RouteV, ours: real): RouteV {
    var outside := Max(0.0, r.safeRpm - ours);
    r.(otherRpm := outside, foreignSeen := r.foreignSeen || outside > 0.0)
  }

  function Demoted(r: RouteV, now: real, reason: string, retryAfter: Option<real>, observed: Option<real>,
                   cfg: Settings): RouteV
    requires cfg.Valid()
  {
    var counted := if reason == "429"
                   then Contended(r, Attributed(r, now, observed, cfg)).(rateLimited := r.rateLimited + 1)
                   else r.(errors := r.errors + 1);
    counted.(lastStatus := reason, backoff := Penalise(r.backoff, now, retryAfter, cfg.policy))
  }

  function TimedOut(r: RouteV): RouteV { r.(timeouts := r.timeouts + 1, lastStatus := "timeout") }

  function Attempted(r: RouteV): RouteV { r.(attempts := r.attempts + 1) }

  function Answered(r: RouteV, status: string): RouteV { r.(lastStatus := status) }

  function Decayed(r: RouteV, now: real, cfg: Settings): RouteV {
    r.(backoff := Decay(r.backoff, now, cfg.policy.halflife))
  }

  // ---- estimates and outside usage ------------------------------------------------------------

  /** An estimate is the bytes times the learned ratio, or one token for so many characters before any was learned; at least one. */
  lemma EstimateMeans(r: RouteV, bytes: real, cfg: Settings)
    requires cfg.Valid()
    ensures var tokens := Estimate(r, bytes, cfg);
            && tokens >= 1.0
            && (r.tokensPerByte.Some? && bytes * r.tokensPerByte.value >= 1.0 ==> tokens == bytes * r.tokensPerByte.value)
            && (r.tokensPerByte.Some? && bytes * r.tokensPerByte.value < 1.0 ==> tokens == 1.0)
            && (r.tokensPerByte.None? && bytes >= cfg.charsPerToken ==> tokens * cfg.charsPerToken == bytes)
            && (r.tokensPerByte.None? && bytes < cfg.charsPerToken ==> tokens == 1.0)
  {
    var c := cfg.charsPerToken;
    var q := bytes * (1.0 / c);
    assert (1.0 / c) * c == 1.0;
    assert q * c == bytes;
    if bytes >= c { assert (q - 1.0) * c >= 0.0; } else { assert (1.0 - q) * c > 0.0; }
  }

  /** The ratios a route's settled costs showed: what a response cost per byte of its request. */
  function Learnt(r: RouteV, samples: seq<real>): RouteV {
    if samples == [] then r else Calibrated(Learnt(r, samples[..|samples| - 1]), 1.0, samples[|samples| - 1])
  }

  /** A first sample is taken as it is; after it each new one closes three tenths of the distance. */
  lemma CalibratedMeans(r: RouteV, bytes: real, total: real)
    requires bytes > 0.0
    ensures var s := Calibrated(r, bytes, total); var sample := total / bytes;
            && s.tokensPerByte.Some? && s.tokenSamples == r.tokenSamples + 1
            && (r.tokensPerByte.None? ==> s.tokensPerByte.value == sample)
            && (r.tokensPerByte.Some? ==>
                  s.tokensPerByte.value - r.tokensPerByte.value == (sample - r.tokensPerByte.value) * 3.0 / 10.0)
            && s == r.(tokensPerByte := s.tokensPerByte, tokenSamples := s.tokenSamples)
  {
    if r.tokensPerByte.Some? {
      var a, b := r.tokensPerByte.value, total / bytes;
      assert 0.7 * a + 0.3 * b - a == (b - a) * 3.0 / 10.0;
    }
  }

  /** A ratio never leaves the range of the samples it was learned from. */
  lemma {:induction false} RatioWithin(r: RouteV, samples: seq<real>, low: real, high: real)
    requires r.tokensPerByte.None? && samples != [] && forall i | 0 <= i < |samples| :: low <= samples[i] <= high
    ensures var s := Learnt(r, samples).tokensPerByte; s.Some? && low <= s.value <= high
  {
    var front, last := samples[..|samples| - 1], samples[|samples| - 1];
    assert low <= last <= high && last / 1.0 == last;
    if front == [] {
      CalibratedMeans(r, 1.0, last);
    } else {
      RatioWithin(r, front, low, high);
      CalibratedMeans(Learnt(r, front), 1.0, last);
    }
    hide Calibrated;
  }

  /** At a throttle outside usage is what our own rate leaves of the learned maximum, and nothing when that alone reaches it. */
  lemma ContendedMeans(r: RouteV, ours: real)
    ensures var s := Contended(r, ours);
            && (ours <= r.safeRpm ==> s.otherRpm + ours == r.safeRpm)
            && (ours > r.safeRpm ==> s.otherRpm == 0.0)
            && (s.foreignSeen <==> r.foreignSeen || ours < r.safeRpm)
            && s == r.(otherRpm := s.otherRpm, foreignSeen := s.foreignSeen)
  {
  }

  /** A success leaves no more outside usage than the maximum has beside the rate it proved. */
  lemma ProvenMeans(r: RouteV, observed: real)
    requires observed > 0.0
    ensures var s := Proven(r, observed);
            && s.safeRpm == (if observed > r.safeRpm then observed else r.safeRpm)
            && (r.otherRpm + observed <= s.safeRpm ==> s.otherRpm == r.otherRpm)
            && (r.otherRpm + observed > s.safeRpm ==> s.otherRpm + observed == s.safeRpm)
            && s.ok == r.ok + 1
            && s == r.(safeRpm := s.safeRpm, otherRpm := s.otherRpm, ok := s.ok, rpmSamples := r.rpmSamples + 1)
  {
  }

  /** Whose rate a throttle speaks of: the attempt's own; without one the last dispatched; before any, the window's. */
  lemma AttributedMeans(r: RouteV, now: real, observed: Option<real>, cfg: Settings)
    requires cfg.Valid()
    ensures var ours := Attributed(r, now, observed, cfg);
            && (observed.Some? ==> ours == observed.value)
            && (observed.None? && r.lastDispatchRpm != 0.0 ==> ours == r.lastDispatchRpm)
            && (observed.None? && r.lastDispatchRpm == 0.0 ==>
                  ours * cfg.windows.rpm == |Since(r.sent, now - cfg.windows.rpm)| as real * 60.0)
  {
  }

  // ---- learned capacity -----------------------------------------------------------

  /** What every reachable route satisfies. */
  ghost predicate Learned(r: RouteV) {
    && 0.0 <= r.otherRpm <= r.safeRpm
    && (r.otherRpm > 0.0 ==> r.foreignSeen)
    && r.lastDispatchRpm >= 0.0
    && forall i | 0 <= i < |r.sent| :: r.sent[i].rpm > 0.0
  }

  /** The selection group of `selection_parameters` in capacity mode. */
  function Group(r: RouteV): nat {
    if !r.foreignSeen then 0 else if r.otherRpm <= 0.0 then 1 else 2
  }

  /** Groups 0 and 1 hold exactly the routes nobody else is using; group 2 exactly those in contention. */
  lemma GroupsMeanOutsideUsage(r: RouteV)
    requires Learned(r)
    ensures Group(r) == 2 <==> r.otherRpm > 0.0
    ensures Group(r) == 0 <==> !r.foreignSeen
    ensures Group(r) < 2 ==> r.otherRpm == 0.0
  {
  }

  lemma RpmNonNegative(s: seq<EntryV>, now: real, window: real)
    requires window > 0.0
    ensures Rpm(s, now, window) >= 0.0
  {
    PerMinuteSign(|Since(s, now - window)|, window);
  }

  function CapacityOf(r: RouteV): real { if r.safeRpm != 0.0 then r.safeRpm else 1.0 }

  function Portion(x: real, f: real): real { x * f }

  /** Requests per minute of the learned maximum that nobody is using. */
  function Free(r: RouteV, now: real, cfg: Settings): real
    requires cfg.Valid()
  {
    Max(0.0, CapacityOf(r) - (r.otherRpm + Rpm(r.sent, now, cfg.windows.rpm)))
  }

  /** `weights`: what is left of the learned maximum, scaled by the multiplier in force, with one floor. */
  function Weight(r: RouteV, now: real, multiplier: real, floor: real, cfg: Settings): real
    requires cfg.Valid()
  {
    Max(Portion(CapacityOf(r), floor), Portion(Free(r, now, cfg), multiplier))
  }

  lemma PortionSign(x: real, f: real)
    requires x >= 0.0 && f >= 0.0
    ensures Portion(x, f) >= 0.0 && (Portion(x, f) > 0.0 <==> x > 0.0 && f > 0.0)
  {
  }

  lemma PortionGrows(x: real, y: real, f: real, g: real)
    requires 0.0 <= x <= y && 0.0 <= f <= g
    ensures Portion(x, f) <= Portion(y, g)
  {
    PortionSign(y - x, f);
    PortionSign(y, g - f);
    assert Portion(y, f) == Portion(x, f) + Portion(y - x, f);
    assert Portion(y, g) == Portion(y, f) + Portion(y, g - f);
  }

  lemma PortionFlips(x: real, f: real)
    requires x >= 0.0
    ensures Portion(x, f) < 0.0 <==> x > 0.0 && f < 0.0
    ensures Portion(x, f) > 0.0 <==> x > 0.0 && f > 0.0
  {
    if f < 0.0 {
      PortionSign(x, -f);
      assert Portion(x, f) == -Portion(x, -f);
    } else {
      PortionSign(x, f);
    }
  }

  lemma PortionAtMost(x: real, y: real, f: real, g: real)
    requires 0.0 <= x <= y && f <= g && 0.0 <= g
    ensures Portion(x, f) <= Portion(y, g)
  {
    PortionSign(y, g);
    PortionFlips(x, f);
    if f >= 0.0 { PortionGrows(x, y, f, g); }
  }

  /**
   For every configured floor and multiplier, negative ones included: a weight is at least the floor's
   share of the capacity and at most the larger factor's; it is positive exactly when the floor is, or
   something is free and the multiplier is positive, and negative exactly when both factors are and
   something is free.
   */
  lemma WeightBounded(r: RouteV, now: real, multiplier: real, floor: real, cfg: Settings)
    requires cfg.Valid() && Learned(r)
    ensures var w := Weight(r, now, multiplier, floor, cfg); var free := Free(r, now, cfg);
            && Portion(CapacityOf(r), floor) <= w <= Portion(CapacityOf(r), Max(0.0, Max(floor, multiplier)))
            && (w > 0.0 <==> floor > 0.0 || (multiplier > 0.0 && free > 0.0))
            && (w < 0.0 <==> floor < 0.0 && multiplier < 0.0 && free > 0.0)
  {
    RpmNonNegative(r.sent, now, cfg.windows.rpm);
    hide Rpm, Portion;
    var capacity, free := CapacityOf(r), Free(r, now, cfg);
    PortionFlips(capacity, floor);
    PortionFlips(free, multiplier);
    PortionAtMost(capacity, capacity, floor, Max(0.0, Max(floor, multiplier)));
    PortionAtMost(free, capacity, multiplier, Max(0.0, Max(floor, multiplier)));
  }

  /**
   What is free, outside usage and our own rate make up the capacity, as long as the last two do not
   exceed it; beyond that nothing is free.  A route with nothing learned yet counts as one request per
   minute.
   */
  lemma FreeIsTheRest(r: RouteV, now: real, cfg: Settings)
    requires cfg.Valid()
    ensures var capacity := if r.safeRpm != 0.0 then r.safeRpm else 1.0;
            var used := r.otherRpm + Rpm(r.sent, now, cfg.windows.rpm);
            && (used <= capacity ==> Free(r, now, cfg) + r.otherRpm + Rpm(r.sent, now, cfg.windows.rpm) == capacity)
            && (used > capacity ==> Free(r, now, cfg) == 0.0)
  {
    hide Rpm;
  }

  /** A weight is the larger of two: the floor's share of the capacity, and the multiplier's of what nobody uses. */
  lemma WeightIsLarger(r: RouteV, now: real, multiplier: real, floor: real, cfg: Settings)
    requires cfg.Valid()
    ensures var capacity := if r.safeRpm != 0.0 then r.safeRpm else 1.0;
            var unused := capacity - r.otherRpm - Rpm(r.sent, now, cfg.windows.rpm);
            var share := (if unused > 0.0 then unused else 0.0) * multiplier;
            Weight(r, now, multiplier, floor, cfg) == if share > capacity * floor then share else capacity * floor
  {
    hide Rpm;
  }

  /** Without a floor: positive exactly while others and we stay below the capacity and the multiplier is positive. */
  lemma UnflooredWeight(r: RouteV, now: real, multiplier: real, cfg: Settings)
    requires cfg.Valid() && multiplier >= 0.0
    ensures var capacity := if r.safeRpm != 0.0 then r.safeRpm else 1.0;
            var used := r.otherRpm + Rpm(r.sent, now, cfg.windows.rpm);
            Weight(r, now, multiplier, 0.0, cfg) > 0.0 <==> used < capacity && multiplier > 0.0
  {
    FreeIsTheRest(r, now, cfg);
    PortionSign(Free(r, now, cfg), multiplier);
    assert Portion(CapacityOf(r), 0.0) == 0.0;
    hide Rpm, Portion, Free;
  }

  /** And every request per minute of others' lowers it by the multiplier, until nothing is left. */
  lemma OthersLowerWeight(r: RouteV, more: real, now: real, multiplier: real, cfg: Settings)
    requires cfg.Valid() && multiplier >= 0.0 && more >= 0.0
    requires r.otherRpm + more + Rpm(r.sent, now, cfg.windows.rpm) <= if r.safeRpm != 0.0 then r.safeRpm else 1.0
    ensures Weight(r.(otherRpm := r.otherRpm + more), now, multiplier, 0.0, cfg)
         == Weight(r, now, multiplier, 0.0, cfg) - more * multiplier
  {
    var s := r.(otherRpm := r.otherRpm + more);
    FreeIsTheRest(r, now, cfg);
    FreeIsTheRest(s, now, cfg);
    PortionSign(Free(r, now, cfg), multiplier);
    PortionSign(Free(s, now, cfg), multiplier);
    assert Portion(CapacityOf(r), 0.0) == 0.0;
    assert Portion(Free(r, now, cfg), multiplier) == Portion(Free(s, now, cfg), multiplier) + more * multiplier;
    hide Rpm, Portion, Free;
  }

  /** `selection_parameters`: the group a route is drawn in, and its weight there. */
  function Parameters(r: RouteV, capacityMode: bool, now: real, multiplier: real, floor: real, cfg: Settings): (nat, real)
    requires cfg.Valid()
  {
    if !capacityMode then (0, Weight(r, now, multiplier, floor, cfg))
    else if Group(r) == 2 then (2, Weight(r, now, multiplier, floor, cfg)) else (Group(r), 1.0)
  }

  /**
   In capacity mode routes nobody else is using come first, drawn uniformly; only routes in contention
   are weighed, by at most their capacity while the factors are at most one; and a weight is zero, or
   negative, exactly when the route is weighed and the factors and what is free make it so.
   */
  lemma ParametersMeaning(r: RouteV, capacityMode: bool, now: real, multiplier: real, floor: real, cfg: Settings)
    requires cfg.Valid() && Learned(r)
    ensures var p := Parameters(r, capacityMode, now, multiplier, floor, cfg); var free := Free(r, now, cfg);
            var weighed := !capacityMode || p.0 == 2;
            && p.0 <= 2
            && (p.1 > 0.0 <==> !weighed || floor > 0.0 || (multiplier > 0.0 && free > 0.0))
            && (p.1 < 0.0 <==> weighed && floor < 0.0 && multiplier < 0.0 && free > 0.0)
            && (capacityMode && p.0 < 2 ==> p.1 == 1.0 && r.otherRpm == 0.0)
            && (capacityMode && r.otherRpm > 0.0 ==> p.0 == 2)
            && (!capacityMode ==> p.0 == 0)
            && (weighed ==> Portion(CapacityOf(r), floor) <= p.1 <= Portion(CapacityOf(r), Max(0.0, Max(floor, multiplier))))
  {
    WeightBounded(r, now, multiplier, floor, cfg);
    GroupsMeanOutsideUsage(r);
    hide Weight, Rpm, Portion;
  }

  lemma {:induction false} DropLeadingLearned(s: seq<EntryV>, cutoff: real)
    requires forall i | 0 <= i < |s| :: s[i].rpm > 0.0
    ensures forall i | 0 <= i < |DropLeading(s, cutoff)| :: DropLeading(s, cutoff)[i].rpm > 0.0
  {
    if s != [] && s[0].at < cutoff { DropLeadingLearned(s[1..], cutoff); }
  }

  lemma {:induction false} KeepLearned(s: seq<EntryV>, cutoff: real)
    requires forall i | 0 <= i < |s| :: s[i].rpm > 0.0
    ensures forall i | 0 <= i < |Keep(s, cutoff)| :: Keep(s, cutoff)[i].rpm > 0.0
  {
    if s != [] { KeepLearned(s[..|s| - 1], cutoff); }
  }

  lemma ChargedLearned(r: RouteV, now: real, tokens: real, face: Face, attempt: Option<string>, cfg: Settings)
    requires cfg.Valid() && Learned(r)
    ensures Learned(Charged(r, now, tokens, face, attempt, cfg))
    ensures Charged(r, now, tokens, face, attempt, cfg).lastDispatchRpm > 0.0
  {
    DropLeadingLearned(r.sent, now - cfg.windows.Widest());
    var kept := DropLeading(r.sent, now - cfg.windows.Widest());
    PerMinuteSign(|Since(kept, now - cfg.windows.rpm)| + 1, cfg.windows.rpm);
  }

  lemma DemotedLearned(r: RouteV, now: real, reason: string, retryAfter: Option<real>, observed: Option<real>, cfg: Settings)
    requires cfg.Valid() && Learned(r) && (observed.Some? ==> observed.value > 0.0)
    ensures Learned(Demoted(r, now, reason, retryAfter, observed, cfg))
  {
    RpmNonNegative(r.sent, now, cfg.windows.rpm);
    assert Attributed(r, now, observed, cfg) >= 0.0;
  }
}
