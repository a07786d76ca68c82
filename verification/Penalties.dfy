/**
 The failure penalty of a route (`penalty`, `penalty_until`, `penalty_at`) and its lazy,
 exponential recovery.  A penalty p in (0, 1] is carried by the exponent x with p = 2^-x, so
 multiplication is addition and the recovery is linear; `Zero` is the penalty 0.0, which has
 no exponent.
 */
module Penalties {
  import opened Prelude

  datatype Penalty = Zero | Pow(x: real) {
    /** Numeric order on the penalties themselves, which reverses the order of exponents. */
    predicate AtMost(q: Penalty) { Zero? || (q.Pow? && x >= q.x) }

    function Times(q: Penalty): Penalty { if Zero? || q.Zero? then Zero else Pow(x + q.x) }

    function Larger(q: Penalty): Penalty { if AtMost(q) then q else this }
  }

  const ONE := Pow(0.0)

  datatype Policy = Policy(floor: Penalty, multiplier: Penalty, demoteSeconds: real, halflife: real) {
    /** What the configuration means by a floor and a multiplier: factors no greater than one. */
    ghost predicate Sane() { floor.AtMost(ONE) && multiplier.AtMost(ONE) }
  }

  datatype Backoff = Backoff(penalty: Penalty, until: real, at: real)

  const FRESH := Backoff(ONE, 0.0, 0.0)

  /** `_decay`: nothing before the parking window ends, then one doubling per half-life up to 1. */
  function Decay(b: Backoff, now: real, halflife: real): Backoff {
    if ONE.AtMost(b.penalty) then b
    else
      var start := Max(b.until, b.at);
      if now <= start then b
      else if halflife <= 0.0 then b.(penalty := ONE, at := now)
      else if b.penalty.Pow? then b.(penalty := Pow(Max(0.0, b.penalty.x - (now - start) / halflife)), at := now)
      else b.(at := now)
  }

  function Park(retryAfter: Option<real>, p: Policy): real {
    if retryAfter.Some? && retryAfter.value > 0.0 then retryAfter.value else p.demoteSeconds
  }

  /** The penalty part of `demote`. */
  function Penalise(b: Backoff, now: real, retryAfter: Option<real>, p: Policy): Backoff {
    var d := Decay(b, now, p.halflife);
    Backoff(p.floor.Larger(d.penalty.Times(p.multiplier)), Max(d.until, now + Park(retryAfter, p)), now)
  }

  /** The multiplier a weight gets: the floor while parked, the recovered penalty afterwards. */
  function Effective(b: Backoff, now: real, p: Policy): Penalty {
    if now < b.until then p.floor
    else p.floor.Larger(if ONE.AtMost(b.penalty) then ONE else b.penalty)
  }

  // ---- runs -------------------------------------------------------------------

  /** A failure, or a mere evaluation (a report, a weight, an ordering) that decays as it looks. */
  datatype Act = Fail(at: real, retryAfter: Option<real>) | Look(at: real)

  function Apply(b: Backoff, a: Act, p: Policy): Backoff {
    match a
    case Fail(at, retryAfter) => Penalise(b, at, retryAfter, p)
    case Look(at) => Decay(b, at, p.halflife)
  }

  function Run(b: Backoff, acts: seq<Act>, p: Policy): Backoff {
    if acts == [] then b else Apply(Run(b, acts[..|acts| - 1], p), acts[|acts| - 1], p)
  }

  function Failures(acts: seq<Act>): seq<Act> {
    if acts == [] then []
    else Failures(acts[..|acts| - 1]) + if acts[|acts| - 1].Fail? then [acts[|acts| - 1]] else []
  }

  ghost predicate Ordered(acts: seq<Act>) {
    forall i, j | 0 <= i < j < |acts| :: acts[i].at <= acts[j].at
  }

  /** Looking at `t` on the way to `u` makes no difference at `u`. */
  lemma DecayComposes(b: Backoff, t: real, u: real, h: real)
    requires t <= u
    ensures Decay(Decay(b, t, h), u, h).penalty == Decay(b, u, h).penalty
    ensures Decay(Decay(b, t, h), u, h).until == b.until
  {
    var start := Max(b.until, b.at);
    if b.penalty.Pow? && b.penalty.x > 0.0 && start < t && h > 0.0 {
      var x := b.penalty.x;
      var first, second := (t - start) / h, (u - t) / h;
      assert (u - start) / h == first + second;
      assert first >= 0.0 && second >= 0.0;
    }
  }

  /** A failure forgets how the state got there: only the decayed penalty and the window enter. */
  lemma FailForgets(b: Backoff, c: Backoff, at: real, retryAfter: Option<real>, p: Policy)
    requires Decay(b, at, p.halflife).penalty == Decay(c, at, p.halflife).penalty && b.until == c.until
    ensures Penalise(b, at, retryAfter, p) == Penalise(c, at, retryAfter, p)
  {
    DecayKeepsWindow(b, at, p.halflife);
    DecayKeepsWindow(c, at, p.halflife);
  }

  lemma DecayKeepsWindow(b: Backoff, now: real, h: real)
    ensures Decay(b, now, h).until == b.until
  {
  }

  // ---- when looking makes a difference -----------------------------------------------------

  /** The latest look since the last failure. */
  function Seen(acts: seq<Act>): Option<real> {
    if acts == [] || acts[|acts| - 1].Fail? then None
    else
      var before := Seen(acts[..|acts| - 1]);
      Some(if before.Some? then Max(before.value, acts[|acts| - 1].at) else acts[|acts| - 1].at)
  }

  /** An instant, or the look that went beyond it. */
  function Beyond(seen: Option<real>, at: real): real { if seen.Some? then Max(seen.value, at) else at }

  /**
   The look does not show at `at`: it did not go beyond it, or there was nothing to recover, or nothing
   recovered by then, or everything had by `at`.
   */
  predicate Harmless(b: Backoff, seen: Option<real>, at: real, h: real) {
    || Beyond(seen, at) == at
    || ONE.AtMost(b.penalty) || (h > 0.0 && b.penalty.Zero?)
    || Beyond(seen, at) <= Max(b.until, b.at)
    || ONE.AtMost(Decay(b, at, h).penalty)
  }

  /** One look, then one question about an instant that may be earlier. */
  lemma DecayLater(b: Backoff, t: real, u: real, h: real)
    ensures Decay(Decay(b, t, h), u, h).penalty == Decay(b, Max(t, u), h).penalty
    ensures Decay(b, t, h).until == b.until
  {
    if t <= u { DecayComposes(b, t, u, h); }
  }

  /** Harmless means exactly that: the penalty found at `at` is the one found without the look. */
  lemma HarmlessMeans(b: Backoff, seen: Option<real>, at: real, h: real)
    ensures Harmless(b, seen, at, h) <==> Decay(b, Beyond(seen, at), h).penalty == Decay(b, at, h).penalty
  {
    var start, x, late := Max(b.until, b.at), if b.penalty.Pow? then b.penalty.x else 0.0, Beyond(seen, at);
    if h > 0.0 && x > 0.0 && late > at && late > start {
      var first, second := (Max(at, start) - start) / h, (late - Max(at, start)) / h;
      assert second > 0.0;
      assert (late - start) / h == first + second;
    }
  }

  /** Every failure comes after looks that do not show at it. */
  ghost predicate Patient(acts: seq<Act>, p: Policy) {
    forall i | 0 <= i < |acts| && acts[i].Fail? ::
      Harmless(Run(FRESH, Failures(acts[..i]), p), Seen(acts[..i]), acts[i].at, p.halflife)
  }

  /** Every failure finds the penalty that the failures before it produced. */
  ghost predicate FoundAlike(acts: seq<Act>, p: Policy) {
    forall i | 0 <= i < |acts| && acts[i].Fail? ::
      Decay(Run(FRESH, acts[..i], p), acts[i].at, p.halflife).penalty
      == Decay(Run(FRESH, Failures(acts[..i]), p), acts[i].at, p.halflife).penalty
  }

  /** The state is that of the failures alone, seen once more at the latest look. */
  ghost predicate Caught(acts: seq<Act>, p: Policy) {
    var b, f := Run(FRESH, acts, p), Run(FRESH, Failures(acts), p);
    b.until == f.until && forall u :: Decay(b, u, p.halflife).penalty == Decay(f, Beyond(Seen(acts), u), p.halflife).penalty
  }

  lemma CaughtNone(p: Policy)
    ensures Caught([], p)
  {
  }

  lemma CaughtFail(acts: seq<Act>, a: Act, p: Policy)
    requires Caught(acts, p) && a.Fail?
    requires Decay(Run(FRESH, acts, p), a.at, p.halflife).penalty == Decay(Run(FRESH, Failures(acts), p), a.at, p.halflife).penalty
    ensures Caught(acts + [a], p)
  {
    hide Decay, Penalise;
    var next := acts + [a];
    assert next[..|acts|] == acts;
    FailForgets(Run(FRESH, acts, p), Run(FRESH, Failures(acts), p), a.at, a.retryAfter, p);
    assert Failures(next) == Failures(acts) + [a];
    assert Failures(next)[..|Failures(acts)|] == Failures(acts);
  }

  lemma CaughtLook(acts: seq<Act>, a: Act, p: Policy)
    requires Caught(acts, p) && a.Look?
    ensures Caught(acts + [a], p)
  {
    hide Decay, Run;
    var next := acts + [a];
    assert next[..|acts|] == acts;
    RunLook(acts, a, p);
    var b, f := Run(FRESH, acts, p), Run(FRESH, Failures(acts), p);
    assert Failures(next) == Failures(acts) + [] == Failures(acts);
    DecayLater(b, a.at, a.at, p.halflife);
    forall u ensures Decay(Run(FRESH, next, p), u, p.halflife).penalty == Decay(f, Beyond(Seen(next), u), p.halflife).penalty {
      DecayLater(b, a.at, u, p.halflife);
      assert Beyond(Seen(acts), Max(a.at, u)) == Beyond(Seen(next), u);
    }
  }

  lemma RunLook(acts: seq<Act>, a: Act, p: Policy)
    requires a.Look?
    ensures Run(FRESH, acts + [a], p) == Decay(Run(FRESH, acts, p), a.at, p.halflife)
  {
    assert (acts + [a])[..|acts|] == acts;
  }

  lemma OneMoreAct(acts: seq<Act>, a: Act, p: Policy)
    ensures Patient(acts + [a], p) <==>
              Patient(acts, p) && (a.Fail? ==> Harmless(Run(FRESH, Failures(acts), p), Seen(acts), a.at, p.halflife))
    ensures FoundAlike(acts + [a], p) <==>
              FoundAlike(acts, p)
              && (a.Fail? ==> Decay(Run(FRESH, acts, p), a.at, p.halflife).penalty
                              == Decay(Run(FRESH, Failures(acts), p), a.at, p.halflife).penalty)
  {
    hide Harmless, Decay, Run, Failures, Seen;
    var next := acts + [a];
    assert forall i | 0 <= i <= |acts| :: next[..i] == acts[..i];
    assert acts[..|acts|] == acts && next[|acts|] == a;
    assert forall i | 0 <= i < |acts| :: next[i] == acts[i];
  }

  lemma {:induction false} PatientRuns(acts: seq<Act>, p: Policy)
    ensures FoundAlike(acts, p) <==> Patient(acts, p)
    ensures Patient(acts, p) ==> Caught(acts, p)
  {
    hide Harmless, Decay, Run, Failures, Seen, Caught, Patient, FoundAlike;
    if acts == [] {
      CaughtNone(p);
      NoFailures(p);
    } else {
      var before, a := acts[..|acts| - 1], acts[|acts| - 1];
      PatientRuns(before, p);
      assert acts == before + [a];
      OneMoreAct(before, a, p);
      if Patient(before, p) {
        CaughtMeans(before, p, a.at);
        HarmlessMeans(Run(FRESH, Failures(before), p), Seen(before), a.at, p.halflife);
        if a.Look? { CaughtLook(before, a, p); } else if Patient(acts, p) { CaughtFail(before, a, p); }
      }
    }
  }

  lemma CaughtMeans(acts: seq<Act>, p: Policy, u: real)
    requires Caught(acts, p)
    ensures Decay(Run(FRESH, acts, p), u, p.halflife).penalty
         == Decay(Run(FRESH, Failures(acts), p), Beyond(Seen(acts), u), p.halflife).penalty
    ensures Run(FRESH, acts, p).until == Run(FRESH, Failures(acts), p).until
  {
    hide Decay, Run, Failures, Seen;
  }

  lemma NoFailures(p: Policy)
    ensures Patient([], p) && FoundAlike([], p)
  {
  }

  /**
   When evaluations go unnoticed, in whatever order the times come.  Every failure finds the penalty
   that the failures before it alone produced if and only if no look before it shows at it; and then
   the same penalty is found at any instant if and only if the looks since do not show there.
   */
  lemma LooksShowExactlyWhen(acts: seq<Act>, p: Policy, now: real)
    ensures FoundAlike(acts, p) <==> Patient(acts, p)
    ensures Patient(acts, p) ==>
              (Decay(Run(FRESH, acts, p), now, p.halflife).penalty == Decay(Run(FRESH, Failures(acts), p), now, p.halflife).penalty
               <==> Harmless(Run(FRESH, Failures(acts), p), Seen(acts), now, p.halflife))
    ensures Patient(acts, p) ==> Run(FRESH, acts, p).until == Run(FRESH, Failures(acts), p).until
  {
    hide Harmless, Decay, Run, Failures, Seen, Caught, Patient, FoundAlike;
    PatientRuns(acts, p);
    if Patient(acts, p) {
      CaughtMeans(acts, p, now);
      HarmlessMeans(Run(FRESH, Failures(acts), p), Seen(acts), now, p.halflife);
    }
  }

  lemma {:induction false} SeenBy(acts: seq<Act>, now: real)
    requires forall i | 0 <= i < |acts| :: acts[i].at <= now
    ensures Beyond(Seen(acts), now) == now
  {
    if acts != [] { SeenBy(acts[..|acts| - 1], now); }
  }

  /** A clock that does not step back is patient. */
  lemma OrderedPatient(acts: seq<Act>, p: Policy)
    requires Ordered(acts)
    ensures Patient(acts, p)
  {
    forall i | 0 <= i < |acts| && acts[i].Fail?
      ensures Harmless(Run(FRESH, Failures(acts[..i]), p), Seen(acts[..i]), acts[i].at, p.halflife)
    {
      SeenBy(acts[..i], acts[i].at);
    }
  }

  /**
   Lazy decay is path independent: however many evaluations are interleaved with the failures of
   a route, and whenever they happen, the penalty in force at any later instant is the one the
   failures alone would have produced.
   */
  lemma LooksAreInvisible(acts: seq<Act>, p: Policy, now: real)
    requires Ordered(acts) && forall i | 0 <= i < |acts| :: acts[i].at <= now
    ensures Effective(Decay(Run(FRESH, acts, p), now, p.halflife), now, p)
         == Effective(Decay(Run(FRESH, Failures(acts), p), now, p.halflife), now, p)
  {
    hide Decay, Run, Failures, Seen, Patient, FoundAlike;
    OrderedPatient(acts, p);
    SeenBy(acts, now);
    LooksShowExactlyWhen(acts, p, now);
    DecayKeepsWindow(Run(FRESH, acts, p), now, p.halflife);
    DecayKeepsWindow(Run(FRESH, Failures(acts), p), now, p.halflife);
  }

  /** A look ahead of a failure that is stamped earlier can forgive what the failure should have met. */
  lemma EarlyLookForgives(p: Policy)
    requires p.halflife > 0.0 && p.demoteSeconds == 0.0 && p.floor == Zero && p.multiplier == Pow(1.0)
    ensures var fails := [Fail(0.0, None), Fail(0.0, None)];
            var acts := [Fail(0.0, None), Look(p.halflife), Fail(0.0, None)];
            && Failures(acts) == fails
            && Run(FRESH, fails, p).penalty == Pow(2.0) && Run(FRESH, acts, p).penalty == Pow(1.0)
  {
    var a, look := Fail(0.0, None), Look(p.halflife);
    var fails, acts := [a, a], [a, look, a];
    assert [a][..0] == [] && fails[..1] == [a] && acts[..2] == [a, look] && [a, look][..1] == [a];
    assert Failures([]) == [] && Failures([a]) == [a] && Failures([a, look]) == [a];
    assert p.halflife / p.halflife == 1.0;
    assert Run(FRESH, [a], p) == Backoff(Pow(1.0), 0.0, 0.0);
    assert Run(FRESH, [a, look], p).penalty == Pow(0.0);
  }

  // ---- parking and compounding ----------------------------------------------------------------

  /** A failure asks for rest until `at` plus its Retry-After, where that is positive, or else plus the configured seconds. */
  ghost predicate RestsUntil(a: Act, seconds: real, until: real) {
    a.Fail? && until == a.at + (if a.retryAfter.Some? && a.retryAfter.value > 0.0 then a.retryAfter.value else seconds)
  }

  /**
   How long a route is parked, after every run of failures and looks: until the latest instant any of
   its failures asked for, and no longer.
   */
  lemma {:induction false} ParkedUntil(acts: seq<Act>, p: Policy)
    ensures var until := Run(FRESH, acts, p).until;
            && until >= 0.0
            && (forall i, x | 0 <= i < |acts| && RestsUntil(acts[i], p.demoteSeconds, x) :: until >= x)
            && (until == 0.0 || exists i :: 0 <= i < |acts| && RestsUntil(acts[i], p.demoteSeconds, until))
  {
    if acts != [] {
      var front, last := acts[..|acts| - 1], acts[|acts| - 1];
      ParkedUntil(front, p);
      var before, until := Run(FRESH, front, p).until, Run(FRESH, acts, p).until;
      ParkedLater(Run(FRESH, front, p), last, p);
      hide Run;
      forall i, x | 0 <= i < |acts| && RestsUntil(acts[i], p.demoteSeconds, x) ensures until >= x {
        if i < |front| { assert front[i] == acts[i]; }
      }
      if before != 0.0 && until == before {
        var i :| 0 <= i < |front| && RestsUntil(front[i], p.demoteSeconds, before);
        assert acts[i] == front[i];
      } else if until != before {
        assert RestsUntil(acts[|acts| - 1], p.demoteSeconds, until);
      }
    }
  }

  lemma ParkedLater(b: Backoff, a: Act, p: Policy)
    ensures var until := Apply(b, a, p).until;
            && (a.Look? ==> until == b.until)
            && forall x | RestsUntil(a, p.demoteSeconds, x) :: until == if b.until >= x then b.until else x
  {
    DecayKeepsWindow(b, a.at, p.halflife);
    hide Decay;
  }

  /** Every failure comes before anything could recover from those before it: while the route is still parked. */
  ghost predicate Unrelieved(acts: seq<Act>, p: Policy) {
    acts == [] ||
    (var front, last := acts[..|acts| - 1], acts[|acts| - 1];
     && last.Fail? && Unrelieved(front, p)
     && (front == [] || exists j, x :: 0 <= j < |front| && RestsUntil(front[j], p.demoteSeconds, x) && last.at <= x))
  }

  /** Failures compound: n of them, none relieved, multiply the penalty n times by the factor, down to the floor. */
  lemma {:induction false} FailuresCompound(acts: seq<Act>, p: Policy)
    requires Unrelieved(acts, p) && p.multiplier.Pow? && p.floor.Pow? && p.multiplier.x >= 0.0 && p.floor.x >= 0.0
    ensures Run(FRESH, acts, p).penalty == Pow(Compounded(|acts|, p.multiplier.x, p.floor.x))
  {
    hide Decay, Penalise, Compounded;
    if acts == [] {
      NothingCompounded(p);
    } else {
      var n := |acts| - 1;
      var front, last := acts[..n], acts[n];
      var b := Run(FRESH, front, p);
      FailuresCompound(front, p);
      ParkedUntil(front, p);
      if front != [] {
        var j, x :| 0 <= j < |front| && RestsUntil(front[j], p.demoteSeconds, x) && last.at <= x;
        assert last.at <= b.until;
      }
      hide Run, RestsUntil, Unrelieved;
      OneMoreFailure(b, last, n, p);
    }
  }

  function Compounded(n: nat, x: real, floor: real): real { Min(n as real * x, floor) }

  lemma NothingCompounded(p: Policy)
    requires p.floor.Pow? && p.floor.x >= 0.0 && p.multiplier.Pow?
    ensures Pow(Compounded(0, p.multiplier.x, p.floor.x)) == ONE
  {
  }

  lemma OneMoreFailure(b: Backoff, a: Act, n: nat, p: Policy)
    requires p.multiplier.Pow? && p.floor.Pow? && p.multiplier.x >= 0.0 && p.floor.x >= 0.0 && a.Fail?
    requires b.penalty == Pow(Compounded(n, p.multiplier.x, p.floor.x)) && (n == 0 || a.at <= b.until)
    ensures Apply(b, a, p).penalty == Pow(Compounded(n + 1, p.multiplier.x, p.floor.x))
  {
    var x := p.multiplier.x;
    assert (n + 1) as real * x == n as real * x + x;
    NothingRecovered(b, a.at, p.halflife);
    hide Decay;
  }

  lemma NothingRecovered(b: Backoff, now: real, h: real)
    requires ONE.AtMost(b.penalty) || now <= Max(b.until, b.at)
    ensures Decay(b, now, h) == b
  {
  }

  /** The multiplier in force never falls below the floor, nor rises above 1 unless the floor does. */
  lemma EffectiveBounded(b: Backoff, now: real, p: Policy)
    ensures var e := Effective(b, now, p); p.floor.AtMost(e) && e.AtMost(p.floor.Larger(ONE))
  {
  }

  lemma {:induction false} SaneRun(acts: seq<Act>, p: Policy)
    requires p.Sane()
    ensures p.floor.AtMost(Run(FRESH, acts, p).penalty) && Run(FRESH, acts, p).penalty.AtMost(ONE)
  {
    if acts != [] {
      SaneRun(acts[..|acts| - 1], p);
      var b, a := Run(FRESH, acts[..|acts| - 1], p), acts[|acts| - 1];
      DecayRaises(b, a.at, p.halflife);
    }
  }

  /** The penalty lies in [floor, 1] after every run exactly when neither factor exceeds 1. */
  lemma PenaltyBounded(p: Policy)
    ensures (forall acts :: p.floor.AtMost(Run(FRESH, acts, p).penalty) && Run(FRESH, acts, p).penalty.AtMost(ONE)) <==> p.Sane()
  {
    if p.Sane() {
      forall acts ensures p.floor.AtMost(Run(FRESH, acts, p).penalty) && Run(FRESH, acts, p).penalty.AtMost(ONE) {
        SaneRun(acts, p);
      }
    } else {
      var one := [Fail(0.0, None)];
      assert one[..0] == [];
      assert Run(FRESH, [], p).penalty == ONE;
      assert Run(FRESH, one, p).penalty == p.floor.Larger(p.multiplier);
    }
  }

  lemma DecayRaises(b: Backoff, now: real, h: real)
    requires b.penalty.AtMost(ONE)
    ensures b.penalty.AtMost(Decay(b, now, h).penalty) && Decay(b, now, h).penalty.AtMost(ONE)
  {
    var start := Max(b.until, b.at);
    if b.penalty.Pow? && b.penalty.x > 0.0 && start < now && h > 0.0 {
      assert (now - start) / h >= 0.0;
    }
  }

  /**
   A penalty 2^-x is forgiven exactly x half-lives after the parking window (or the failure,
   whichever is later), neither earlier nor later.
   */
  lemma ForgivenExactlyWhen(b: Backoff, now: real, h: real)
    requires h > 0.0 && b.penalty.Pow? && b.penalty.x > 0.0
    ensures Decay(b, now, h).penalty == ONE <==> now >= Max(b.until, b.at) + b.penalty.x * h
  {
    var start, x := Max(b.until, b.at), b.penalty.x;
    var d := (now - start) / h;
    assert d * h == now - start;
    assert x * h > 0.0;
    if now > start {
      if d >= x {
        assert (d - x) * h >= 0.0;
      } else {
        assert (x - d) * h > 0.0;
      }
    }
  }

  /**
   What a penalty counts for at any instant: the floor while the route is parked; afterwards one halving
   fewer for every half-life since the parking window ended, down to the floor and up to 1, however
   often the state was evaluated in between.
   */
  lemma InForce(b: Backoff, now: real, halflives: real, p: Policy)
    requires b.penalty.Pow? && p.floor.Pow? && 0.0 <= b.penalty.x <= p.floor.x && p.halflife > 0.0 && b.at <= b.until && halflives >= 0.0
    requires now == b.until + halflives * p.halflife
    ensures Effective(Decay(b, now, p.halflife), now, p) == Pow(if halflives >= b.penalty.x then 0.0 else b.penalty.x - halflives)
    ensures forall early | early < b.until :: Effective(Decay(b, early, p.halflife), early, p) == p.floor
  {
    assert (now - b.until) / p.halflife == halflives;
    assert halflives * p.halflife >= 0.0;
    if halflives > 0.0 { assert halflives * p.halflife > 0.0; }
  }
}
