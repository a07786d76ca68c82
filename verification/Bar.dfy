/**
 The dashboard's stacked bars: `allocate` shares out a row of cells by largest remainder, then lets
 what would be invisible borrow a cell; `capacity_bar` prepares the fractions it is given.
 */
module Bar {
  import opened Prelude

  // ---- sums and counts -----------------------------------------------------------------

  ghost predicate NonNegative(s: seq<real>) { forall i | 0 <= i < |s| :: s[i] >= 0.0 }

  function Positives(s: seq<real>): nat {
    if s == [] then 0 else Positives(s[..|s| - 1]) + if s[|s| - 1] > 0.0 then 1 else 0
  }

  function PositiveSet(s: seq<real>): set<nat> { set i: nat | i < |s| && s[i] > 0.0 }

  function Floors(s: seq<real>): (r: seq<nat>)
    requires NonNegative(s)
    ensures |r| == |s| && forall i | 0 <= i < |s| :: r[i] == s[i].Floor
  {
    seq(|s|, i requires 0 <= i < |s| => s[i].Floor)
  }

  /** The part of `x` beyond its whole cells. */
  function Rest(x: real): real { x - x.Floor as real }

  function Rests(s: seq<real>): (r: seq<real>)
    ensures |r| == |s| && forall i | 0 <= i < |s| :: r[i] == Rest(s[i]) && 0.0 <= r[i] < 1.0
  {
    seq(|s|, i requires 0 <= i < |s| => Rest(s[i]))
  }

  function Scaled(x: real, t: real): real { x * t }

  function Times(s: seq<real>, t: real): (r: seq<real>)
    ensures |r| == |s| && forall i | 0 <= i < |s| :: r[i] == Scaled(s[i], t)
  {
    seq(|s|, i requires 0 <= i < |s| => Scaled(s[i], t))
  }

  function Clamped(s: seq<real>): (r: seq<real>)
    ensures |r| == |s| && forall i | 0 <= i < |s| :: r[i] == Max(0.0, s[i])
  {
    seq(|s|, i requires 0 <= i < |s| => Max(0.0, s[i]))
  }

  lemma {:induction false} SumTimes(s: seq<real>, t: real)
    ensures SumReal(Times(s, t)) == Scaled(SumReal(s), t)
  {
    ScaledSum(0.0, 0.0, t);
    if s != [] {
      var front, last := s[..|s| - 1], s[|s| - 1];
      SumTimes(front, t);
      ScaledSum(SumReal(front), last, t);
      hide Scaled;
      assert Times(s, t)[..|s| - 1] == Times(front, t);
    }
  }

  lemma ScaledSum(a: real, b: real, t: real)
    ensures Scaled(a + b, t) == Scaled(a, t) + Scaled(b, t) && Scaled(0.0, t) == 0.0
  {
  }

  lemma {:induction false} SumNonNegative(s: seq<real>)
    requires NonNegative(s)
    ensures SumReal(s) >= 0.0 && forall i | 0 <= i < |s| :: s[i] <= SumReal(s)
  {
    if s != [] { SumNonNegative(s[..|s| - 1]); }
  }

  /** Whole cells and remainders make up the whole. */
  lemma {:induction false} SumSplits(s: seq<real>)
    requires NonNegative(s)
    ensures SumReal(s) == Sum(Floors(s)) as real + SumReal(Rests(s))
    ensures SumReal(Rests(s)) >= 0.0
    ensures SumReal(Rests(s)) <= Positives(Rests(s)) as real
    ensures Positives(Rests(s)) <= Positives(s)
  {
    if s != [] {
      var front := s[..|s| - 1];
      SumSplits(front);
      assert Floors(s)[..|s| - 1] == Floors(front) && Rests(s)[..|s| - 1] == Rests(front);
      assert s[|s| - 1] == 0.0 ==> Rests(s)[|s| - 1] == 0.0;
    }
  }

  lemma {:induction false} PositivesCount(s: seq<real>)
    ensures |PositiveSet(s)| == Positives(s)
  {
    if s == [] {
      assert PositiveSet(s) == {};
    } else {
      var front := s[..|s| - 1];
      PositivesCount(front);
      var n: nat := |s| - 1;
      assert PositiveSet(s) == PositiveSet(front) + if s[n] > 0.0 then {n} else {};
    }
  }

  // ---- largest remainders -----------------------------------------------------------------

  /** The `k` indices of positive entries with the largest remainders, ties to the left. */
  ghost predicate Largest(exact: seq<real>, chosen: set<nat>, k: nat) {
    && chosen <= PositiveSet(exact) && |chosen| == MinNat(k, Positives(exact))
    && Ahead(exact, chosen)
  }

  ghost predicate Before(exact: seq<real>, i: nat, j: nat) {
    i < |exact| && j < |exact| && (Rest(exact[i]) > Rest(exact[j]) || (Rest(exact[i]) == Rest(exact[j]) && i < j))
  }

  /** Every chosen entry comes before every entry passed over. */
  ghost predicate Ahead(exact: seq<real>, chosen: set<nat>) {
    forall i: nat, j: nat | i in chosen && j in PositiveSet(exact) && j !in chosen :: Before(exact, i, j)
  }

  /** Whole cells, and one more for those chosen. */
  ghost predicate Served(cells: seq<nat>, exact: seq<real>, chosen: set<nat>) {
    |cells| == |exact| && forall i: nat | i < |cells| :: cells[i] == exact[i].Floor + if i in chosen then 1 else 0
  }

  /** The leftmost of the largest remainders still to be served. */
  method Next(exact: seq<real>, chosen: set<nat>) returns (best: nat)
    requires chosen < PositiveSet(exact)
    ensures best in PositiveSet(exact) && best !in chosen
    ensures forall j: nat | j in PositiveSet(exact) && j !in chosen && j != best :: Before(exact, best, j)
  {
    var found := false;
    best := 0;
    for i := 0 to |exact|
      invariant found ==> best < i && best in PositiveSet(exact) && best !in chosen
      invariant forall j: nat | j < i && j in PositiveSet(exact) && j !in chosen ::
                  found && (j == best || Before(exact, best, j))
    {
      if exact[i] > 0.0 && i !in chosen && (!found || Rest(exact[i]) > Rest(exact[best])) {
        found, best := true, i;
      }
    }
    assert exists j :: j in PositiveSet(exact) && j !in chosen;
  }

  /** With enough remainders to go round, only entries with a remainder are served. */
  lemma OnlyRemainders(exact: seq<real>, chosen: set<nat>, k: nat)
    requires NonNegative(exact) && Largest(exact, chosen, k) && k <= Positives(Rests(exact))
    ensures |chosen| == k && forall i: nat | i in chosen :: i < |exact| && Rest(exact[i]) > 0.0
  {
    SumSplits(exact);
    PositivesCount(Rests(exact));
    var entitled := PositiveSet(Rests(exact));
    forall i: nat | i in chosen ensures i < |exact| && Rest(exact[i]) > 0.0 {
      if Rest(exact[i]) == 0.0 {
        forall j: nat | j in entitled ensures j in chosen {
          assert exact[j] > 0.0;
          assert j !in chosen ==> Before(exact, i, j);
        }
        OneMore(entitled, chosen, i);
        assert false;
      }
    }
  }

  lemma OneMore(a: set<nat>, b: set<nat>, i: nat)
    requires a <= b && i in b && i !in a
    ensures |a| < |b|
  {
    PartSmaller(a + {i}, b);
  }

  /** One more cell for each of the largest remainders, while cells are to spare. */
  method ServeLargest(exact: seq<real>, spare: nat) returns (cells: seq<nat>, ghost chosen: set<nat>)
    requires NonNegative(exact)
    ensures Largest(exact, chosen, spare) && Served(cells, exact, chosen)
    ensures Sum(cells) == Sum(Floors(exact)) + |chosen|
  {
    PositivesCount(exact);
    hide PositiveSet, Ahead, Served, Positives, Before;
    cells := Floors(exact);
    var served: set<nat> := {};
    NoneServed(exact);
    while |served| < spare && served < PositiveSet(exact)
      invariant served <= PositiveSet(exact) && |served| <= spare && |cells| == |exact|
      invariant Sum(cells) == Sum(Floors(exact)) + |served|
      invariant Ahead(exact, served) && Served(cells, exact, served)
      decreases spare - |served|
    {
      var best := Next(exact, served);
      OneMoreServed(exact, cells, served, best);
      SumUpdate(cells, best, cells[best] + 1);
      cells := cells[best := cells[best] + 1];
      served := served + {best};
    }
    PartSmaller(served, PositiveSet(exact));
    assert served == PositiveSet(exact) || |served| == spare;
    chosen := served;
  }

  lemma NoneServed(exact: seq<real>)
    requires NonNegative(exact)
    ensures Ahead(exact, {}) && Served(Floors(exact), exact, {})
  {
  }

  lemma OneMoreServed(exact: seq<real>, cells: seq<nat>, served: set<nat>, best: nat)
    requires Ahead(exact, served) && Served(cells, exact, served) && best in PositiveSet(exact) && best !in served
    requires forall j: nat | j in PositiveSet(exact) && j !in served && j != best :: Before(exact, best, j)
    ensures best < |cells|
    ensures Ahead(exact, served + {best}) && Served(cells[best := cells[best] + 1], exact, served + {best})
  {
    hide Before;
  }

  /** Largest remainder: every entry gets its whole cells, or one more; nothing gets none. */
  method Distribute(total: nat, exact: seq<real>) returns (cells: seq<nat>, ghost chosen: set<nat>)
    requires NonNegative(exact) && SumReal(exact) <= total as real
    ensures Sum(Floors(exact)) <= total
    ensures Largest(exact, chosen, total - Sum(Floors(exact))) && Served(cells, exact, chosen)
    ensures Sum(cells) == MinNat(total, Sum(Floors(exact)) + Positives(exact))
    ensures SumReal(exact) == total as real ==>
              Sum(cells) == total && forall i | 0 <= i < |cells| :: exact[i].Floor <= cells[i] && (cells[i] as real) < exact[i] + 1.0
    ensures forall i | 0 <= i < |cells| && exact[i] == 0.0 :: cells[i] == 0
  {
    SumSplits(exact);
    var spare: nat := total - Sum(Floors(exact));
    cells, chosen := ServeLargest(exact, spare);
    if SumReal(exact) == total as real { OnlyRemainders(exact, chosen, spare); }
  }

  // ---- the visibility pass ------------------------------------------------------------------

  /** Cells only where there is something to show. */
  ghost predicate Honest(cells: seq<nat>, exact: seq<real>) {
    |cells| == |exact| && forall i | 0 <= i < |cells| && exact[i] <= 0.0 :: cells[i] == 0
  }

  /** At most a cell each, and none for somebody: fewer cells than there are entries to show. */
  lemma {:induction false} TooFew(cells: seq<nat>, exact: seq<real>)
    requires Honest(cells, exact) && forall i | 0 <= i < |cells| :: cells[i] < 2
    ensures Sum(cells) <= Positives(exact)
    ensures (exists i :: 0 <= i < |cells| && cells[i] == 0 && exact[i] > 0.0) ==> Sum(cells) < Positives(exact)
  {
    if cells != [] {
      var n := |cells| - 1;
      TooFew(cells[..n], exact[..n]);
      assert forall i | 0 <= i < n :: cells[..n][i] == cells[i] && exact[..n][i] == exact[i];
    }
  }

  /** The first of the longest segments. */
  method Donor(cells: seq<nat>) returns (d: nat)
    requires cells != []
    ensures d < |cells| && forall j | 0 <= j < |cells| :: cells[j] <= cells[d]
  {
    d := 0;
    for j := 0 to |cells|
      invariant d < |cells| && forall i | 0 <= i < j :: cells[i] <= cells[d]
    {
      if cells[j] > cells[d] { d := j; }
    }
  }

  /**
   Cells after lending, against those before it.  What was real but had none has one at most; what had
   some keeps one at least and gains none; who lent is among the longest still; and nobody does without
   while somebody has two.  Where nobody did without, nothing moved.
   */
  ghost predicate Lent(exact: seq<real>, before: seq<nat>, after: seq<nat>) {
    && |after| == |before| == |exact|
    && (forall i | 0 <= i < |after| && before[i] > 0 :: 1 <= after[i] <= before[i])
    && (forall i | 0 <= i < |after| && before[i] == 0 :: after[i] <= if exact[i] > 0.0 then 1 else 0)
    && (forall i, j | 0 <= i < |after| && 0 <= j < |after| && after[i] < before[i] :: after[j] <= after[i] + 1)
    && (forall i, j | 0 <= i < |after| && 0 <= j < |after| && exact[i] > 0.0 && after[i] == 0 :: after[j] <= 1)
    && ((forall i | 0 <= i < |exact| && exact[i] > 0.0 :: before[i] > 0) ==> after == before)
  }

  /** Lending so far: the first `n` entries were seen to. */
  ghost predicate LentSoFar(exact: seq<real>, before: seq<nat>, after: seq<nat>, n: nat) {
    && |after| == |before| == |exact| && n <= |exact|
    && (forall i | 0 <= i < |after| && before[i] > 0 :: 1 <= after[i] <= before[i])
    && (forall i | 0 <= i < |after| && before[i] == 0 :: after[i] == if i < n && exact[i] > 0.0 then 1 else 0)
    && (forall i, j | 0 <= i < |after| && 0 <= j < |after| && after[i] < before[i] :: after[j] <= after[i] + 1)
    && ((forall i | 0 <= i < n && exact[i] > 0.0 :: before[i] > 0) ==> after == before)
  }

  lemma OneLends(exact: seq<real>, before: seq<nat>, after: seq<nat>, n: nat, donor: nat)
    requires LentSoFar(exact, before, after, n) && n < |exact| && exact[n] > 0.0 && after[n] == 0
    requires donor < |after| && after[donor] >= 2 && forall j | 0 <= j < |after| :: after[j] <= after[donor]
    ensures LentSoFar(exact, before, after[donor := after[donor] - 1][n := 1], n + 1)
  {
    assert before[n] == 0 && before[donor] > 0;
  }

  lemma NobodyLends(exact: seq<real>, before: seq<nat>, after: seq<nat>, n: nat)
    requires LentSoFar(exact, before, after, n) && n < |exact| && (exact[n] <= 0.0 || after[n] > 0)
    requires Honest(before, exact)
    ensures LentSoFar(exact, before, after, n + 1)
  {
  }

  lemma LentAtEnd(exact: seq<real>, before: seq<nat>, after: seq<nat>, n: nat)
    requires LentSoFar(exact, before, after, n) && (n == |exact| || forall j | 0 <= j < |after| :: after[j] <= 1)
    requires n < |exact| ==> exact[n] > 0.0 && before[n] == 0
    ensures Lent(exact, before, after)
  {
  }

  /** Whatever is real but has no cell takes one from the longest segment that can spare it. */
  method Borrow(exact: seq<real>, cells: seq<nat>) returns (after: seq<nat>)
    requires Honest(cells, exact)
    ensures Honest(after, exact) && Sum(after) == Sum(cells) && Lent(exact, cells, after)
    ensures Sum(cells) >= Positives(exact) ==> forall i | 0 <= i < |exact| && exact[i] > 0.0 :: after[i] >= 1
  {
    hide Lent, LentSoFar;
    after := cells;
    NothingLent(exact, cells);
    for i := 0 to |exact|
      invariant Honest(after, exact) && Sum(after) == Sum(cells) && LentSoFar(exact, cells, after, i)
      invariant forall j | 0 <= j < i && exact[j] > 0.0 :: after[j] >= 1
    {
      if exact[i] > 0.0 && after[i] == 0 {
        var donor := Donor(after);
        if after[donor] < 2 {
          TooFew(after, exact);
          NotServed(exact, cells, after, i);
          LentAtEnd(exact, cells, after, i);
          return;
        }
        OneLends(exact, cells, after, i, donor);
        SumUpdate(after, donor, after[donor] - 1);
        var less := after[donor := after[donor] - 1];
        SumUpdate(less, i, 1);
        after := less[i := 1];
      } else {
        NobodyLends(exact, cells, after, i);
      }
    }
    LentAtEnd(exact, cells, after, |exact|);
  }

  lemma NothingLent(exact: seq<real>, cells: seq<nat>)
    requires |cells| == |exact|
    ensures LentSoFar(exact, cells, cells, 0)
  {
  }

  lemma NotServed(exact: seq<real>, before: seq<nat>, after: seq<nat>, n: nat)
    requires LentSoFar(exact, before, after, n) && n < |exact| && after[n] == 0
    ensures before[n] == 0
  {
  }

  // ---- allocate --------------------------------------------------------------------------------

  function Shares(s: seq<real>, whole: real): (r: seq<real>)
    requires whole > 0.0
    ensures |r| == |s| && forall i | 0 <= i < |s| :: r[i] == Share(s[i], whole)
  {
    seq(|s|, i requires 0 <= i < |s| => Share(s[i], whole))
  }

  function Share(x: real, whole: real): real
    requires whole > 0.0
  {
    x / whole
  }

  lemma ShareSum(a: real, b: real, whole: real)
    requires whole > 0.0
    ensures Share(a + b, whole) == Share(a, whole) + Share(b, whole) && Share(0.0, whole) == 0.0 && Share(whole, whole) == 1.0
    ensures (a > 0.0 ==> Share(a, whole) > 0.0) && (a == 0.0 ==> Share(a, whole) == 0.0)
  {
  }

  lemma {:induction false} SumShares(s: seq<real>, whole: real)
    requires whole > 0.0
    ensures SumReal(Shares(s, whole)) == Share(SumReal(s), whole)
  {
    ShareSum(0.0, 0.0, whole);
    if s != [] {
      var front, last := s[..|s| - 1], s[|s| - 1];
      SumShares(front, whole);
      ShareSum(SumReal(front), last, whole);
      hide Share;
      assert Shares(s, whole)[..|s| - 1] == Shares(front, whole);
    }
  }

  /** What `allocate` shares out: negatives count for nothing, more than a whole is scaled to one. */
  function Normalised(fractions: seq<real>): seq<real> {
    var p := Clamped(fractions);
    if SumReal(p) > 1.0 then Shares(p, SumReal(p)) else p
  }

  lemma {:induction false} SamePositives(a: seq<real>, b: seq<real>)
    requires |a| == |b| && forall i | 0 <= i < |a| :: a[i] > 0.0 <==> b[i] > 0.0
    ensures Positives(a) == Positives(b)
  {
    if a != [] { SamePositives(a[..|a| - 1], b[..|b| - 1]); }
  }

  lemma NormalisedIs(fractions: seq<real>)
    ensures var n := Normalised(fractions); var whole := SumReal(Clamped(fractions));
            && |n| == |fractions| && NonNegative(n)
            && (forall i | 0 <= i < |n| :: n[i] > 0.0 <==> fractions[i] > 0.0)
            && Positives(n) == Positives(fractions)
            && SumReal(n) == Min(whole, 1.0)
  {
    var p := Clamped(fractions);
    var n := Normalised(fractions);
    if SumReal(p) > 1.0 {
      SumShares(p, SumReal(p));
      ShareSum(0.0, 0.0, SumReal(p));
      forall i | 0 <= i < |n| ensures (p[i] > 0.0 ==> n[i] > 0.0) && (p[i] == 0.0 ==> n[i] == 0.0) {
        ShareSum(p[i], 0.0, SumReal(p));
      }
    }
    hide Share, SumReal;
    SamePositives(n, fractions);
  }

  lemma ExactIs(n: seq<real>, total: nat)
    requires NonNegative(n) && total > 0 && SumReal(n) <= 1.0
    ensures var exact := Times(n, total as real);
            && NonNegative(exact) && (forall i | 0 <= i < |n| :: exact[i] > 0.0 <==> n[i] > 0.0)
            && Positives(exact) == Positives(n) && SumReal(exact) <= total as real
            && (SumReal(n) == 1.0 ==> SumReal(exact) == total as real)
  {
    var t := total as real;
    var exact := Times(n, t);
    SumTimes(n, t);
    forall i | 0 <= i < |n| ensures exact[i] >= 0.0 && (exact[i] > 0.0 <==> n[i] > 0.0) {
      ScaledSign(n[i], t);
    }
    ScaledAtMost(SumReal(n), t);
    hide Scaled, SumReal;
    SamePositives(exact, n);
  }

  lemma ScaledSign(x: real, t: real)
    requires x >= 0.0 && t > 0.0
    ensures Scaled(x, t) >= 0.0 && (Scaled(x, t) > 0.0 <==> x > 0.0)
  {
  }

  lemma ScaledAtMost(x: real, t: real)
    requires x <= 1.0 && t > 0.0
    ensures Scaled(x, t) <= t && Scaled(1.0, t) == t
  {
    assert (1.0 - x) * t >= 0.0;
    assert (1.0 - x) * t == t - x * t;
  }

  /**
   How the cells came about: whole cells, one more for each of the largest remainders while there are
   cells to spare, and then what was lent.
   */
  ghost predicate Apportioned(total: nat, exact: seq<real>, cells: seq<nat>) {
    exists base, chosen :: SharedOut(total, exact, base, chosen) && Lent(exact, base, cells)
  }

  ghost predicate SharedOut(total: nat, exact: seq<real>, base: seq<nat>, chosen: set<nat>) {
    NonNegative(exact) && Sum(Floors(exact)) <= total
    && Largest(exact, chosen, total - Sum(Floors(exact))) && Served(base, exact, chosen)
  }

  /** So where no real share is without a whole cell, every entry has its share rounded down or up. */
  lemma RoundedShares(total: nat, exact: seq<real>, cells: seq<nat>)
    requires Apportioned(total, exact, cells) && forall i | 0 <= i < |exact| && exact[i] > 0.0 :: exact[i] >= 1.0
    ensures |cells| == |exact| && forall i | 0 <= i < |exact| :: cells[i] == exact[i].Floor || cells[i] == exact[i].Floor + 1
    ensures forall i, j | 0 <= i < |exact| && 0 <= j < |exact| && exact[i] + 1.0 <= exact[j] :: cells[i] <= cells[j]
  {
    hide Largest, Sum;
    var base, chosen :| SharedOut(total, exact, base, chosen) && Lent(exact, base, cells);
  }

  lemma NormalisedMeans(fractions: seq<real>, i: nat)
    requires i < |fractions|
    ensures |Normalised(fractions)| == |fractions|
    ensures var whole := SumReal(Clamped(fractions)); var f := if fractions[i] > 0.0 then fractions[i] else 0.0;
            Normalised(fractions)[i] == if whole > 1.0 then f / whole else f
  {
    hide SumReal;
  }

  lemma ExactTimes(fractions: seq<real>, total: nat)
    requires total > 0
    ensures Exact(fractions, total) == Times(Normalised(fractions), total as real)
  {
    hide Normalised, Times;
  }

  /** What each fraction is owed: its part of the row, all of them scaled down together when they exceed a whole. */
  lemma ExactMeans(fractions: seq<real>, total: nat, i: nat)
    requires total > 0 && i < |fractions|
    ensures |Exact(fractions, total)| == |fractions|
    ensures var whole := SumReal(Clamped(fractions)); var f := if fractions[i] > 0.0 then fractions[i] else 0.0;
            Exact(fractions, total)[i] == (if whole > 1.0 then f / whole else f) * total as real
  {
    NormalisedMeans(fractions, i);
    ExactTimes(fractions, total);
    hide SumReal, Normalised, Exact, Clamped;
  }

  /** Every real fraction is owed something and no other is; all together a row if they make up a whole, never more. */
  lemma ExactShows(fractions: seq<real>, total: nat)
    requires total > 0
    ensures var exact := Times(Normalised(fractions), total as real);
            && exact == Exact(fractions, total) && |exact| == |fractions| && NonNegative(exact)
            && (forall i | 0 <= i < |exact| :: exact[i] > 0.0 <==> fractions[i] > 0.0)
            && Positives(exact) == Positives(fractions) && SumReal(exact) <= total as real
            && (SumReal(Clamped(fractions)) >= 1.0 ==> SumReal(exact) == total as real)
  {
    hide Normalised, Clamped, Scaled, SumReal, Positives, Exact;
    NormalisedIs(fractions);
    ExactIs(Normalised(fractions), total);
    ExactTimes(fractions, total);
  }

  /**
   `allocate`.  Fractions that make up a whole, or more, fill the row exactly; nothing is drawn for
   a fraction of nothing; and when the row is wide enough every real fraction shows.
   */
  method Allocate(total: int, fractions: seq<real>) returns (cells: seq<nat>)
    ensures |cells| == |fractions|
    ensures total <= 0 ==> forall i | 0 <= i < |cells| :: cells[i] == 0
    ensures forall i | 0 <= i < |cells| && fractions[i] <= 0.0 :: cells[i] == 0
    ensures total > 0 && SumReal(Clamped(fractions)) >= 1.0 ==> Sum(cells) == total
    ensures total > 0 ==>
              Sum(cells) == MinNat(total, Sum(Floors(Exact(fractions, total))) + Positives(fractions))
    ensures total > 0 ==> Apportioned(total, Exact(fractions, total), cells)
    ensures total > 0 && SumReal(Clamped(fractions)) >= 1.0 && total >= Positives(fractions) ==>
              forall i | 0 <= i < |cells| && fractions[i] > 0.0 :: cells[i] >= 1
  {
    hide Normalised, Clamped, Times, SumReal, Positives, Sum, Apportioned, Floors, Exact;
    if total <= 0 || fractions == [] {
      cells := seq(|fractions|, i => 0);
      if fractions == [] { Nothing(fractions, total); }
    } else {
      ExactShows(fractions, total);
      var exact := Times(Normalised(fractions), total as real);
      cells := Apportion(total, exact);
      HonestMeans(cells, exact);
    }
  }

  lemma HonestMeans(cells: seq<nat>, exact: seq<real>)
    requires Honest(cells, exact)
    ensures |cells| == |exact| && forall i | 0 <= i < |cells| && exact[i] <= 0.0 :: cells[i] == 0
  {
  }

  /** Largest remainder, then the visibility pass. */
  method Apportion(total: nat, exact: seq<real>) returns (cells: seq<nat>)
    requires NonNegative(exact) && SumReal(exact) <= total as real
    ensures Honest(cells, exact) && Sum(cells) == MinNat(total, Sum(Floors(exact)) + Positives(exact))
    ensures Apportioned(total, exact, cells)
    ensures SumReal(exact) == total as real ==> Sum(cells) == total
    ensures Sum(cells) >= Positives(exact) ==> forall i | 0 <= i < |exact| && exact[i] > 0.0 :: cells[i] >= 1
  {
    hide SumReal, Positives, Sum, Largest, Lent;
    ghost var chosen;
    var base;
    base, chosen := Distribute(total, exact);
    assert Honest(base, exact) && SharedOut(total, exact, base, chosen);
    cells := Borrow(exact, base);
  }

  ghost function Exact(fractions: seq<real>, total: int): (r: seq<real>)
    requires total > 0
    ensures NonNegative(r)
  {
    NormalisedIs(fractions);
    ExactIs(Normalised(fractions), total);
    Times(Normalised(fractions), total as real)
  }

  lemma Nothing(fractions: seq<real>, total: int)
    requires fractions == []
    ensures SumReal(Clamped(fractions)) == 0.0 && Positives(fractions) == 0 && Sum([]) == 0
    ensures total > 0 ==> Exact(fractions, total) == [] && Floors([]) == [] && Apportioned(total, [], [])
  {
    if total > 0 { NothingApportioned(total); }
  }

  lemma NothingApportioned(total: nat)
    ensures Apportioned(total, [], [])
  {
    assert SharedOut(total, [], [], {}) && Lent([], [], []);
  }

  /**
   Fractions of less than a whole do not leave the row proportionally short: a lone fraction gets one
   cell more than its whole cells, even when it is owed whole cells exactly.
   */
  method ShortOfWhole(total: nat, fraction: real) returns (cells: seq<nat>)
    requires total > 0 && 0.0 < fraction < 1.0
    ensures |cells| == 1 && cells[0] == Scaled(fraction, total as real).Floor + 1
  {
    var f := [fraction];
    cells := Allocate(total, f);
    LoneFraction(total, fraction);
    assert cells == [cells[0]] && cells[..0] == [];
  }

  lemma LoneFraction(total: nat, fraction: real)
    requires total > 0 && 0.0 < fraction < 1.0
    ensures MinNat(total, Sum(Floors(Exact([fraction], total))) + Positives([fraction])) == Scaled(fraction, total as real).Floor + 1
  {
    var f := [fraction];
    var p := Clamped(f);
    assert p == [fraction] && p[..0] == [] && f[..0] == [];
    assert SumReal(p) == fraction;
    assert Normalised(f) == f;
    var exact := Exact(f, total);
    assert exact == [Scaled(fraction, total as real)];
    assert Floors(exact)[..0] == [];
    BelowWhole(fraction, total as real);
  }

  lemma BelowWhole(x: real, t: real)
    requires 0.0 < x < 1.0 && t > 0.0
    ensures 0.0 < Scaled(x, t) < t
  {
    hide Scaled;
    ScaledSum(x, 1.0 - x, t);
    ScaledSign(x, t);
    ScaledSign(1.0 - x, t);
    ScaledAtMost(1.0, t);
  }

  // ---- the capacity bar ---------------------------------------------------------------------------

  const FACES := 5

  /** A drawn bar: our faces, then what is free, then what others use; or nothing known. */
  datatype Drawn = Unknown(cells: nat) | Stack(ours: seq<nat>, free: nat, foreign: nat)

  /** `capacity_bar`: the segments always fill the width. */
  method CapacityBar(width: int, byFace: Option<seq<real>>, foreign: real) returns (bar: Drawn)
    requires byFace.Some? ==> |byFace.value| == FACES
    ensures width <= 0 ==> bar == Stack([], 0, 0)
    ensures width > 0 && byFace.None? ==> bar == Unknown(width)
    ensures width > 0 && byFace.Some? ==>
              && bar.Stack? && |bar.ours| == FACES && Sum(bar.ours) + bar.free + bar.foreign == width
              && (forall i | 0 <= i < FACES && byFace.value[i] <= 0.0 :: bar.ours[i] == 0)
              && Apportioned(width, Exact(Whole(byFace.value, foreign), width), bar.ours + [bar.foreign, bar.free])
              && (foreign <= 0.0 ==> bar.foreign == 0)
              && (SumReal(Clamped(byFace.value)) + Max(0.0, foreign) >= 1.0 ==> bar.free == 0)
              && (width >= FACES + 2 ==>
                    (forall i | 0 <= i < FACES && byFace.value[i] > 0.0 :: bar.ours[i] >= 1) && (foreign > 0.0 ==> bar.foreign >= 1))
  {
    if width <= 0 { return Stack([], 0, 0); }
    if byFace.None? { return Unknown(width); }
    var fractions := Whole(byFace.value, foreign);
    WholeIsOne(byFace.value, foreign);
    var cells := Allocate(width, fractions);
    bar := Stack(cells[..FACES], cells[FACES + 1], cells[FACES]);
    assert bar.ours + [bar.foreign, bar.free] == cells;
    SumSeven(cells);
    AtMostAll(fractions);
  }

  /** The faces' shares, everybody else's, and what is left of the whole. */
  function Whole(byFace: seq<real>, foreign: real): (r: seq<real>)
    requires |byFace| == FACES
    ensures |r| == FACES + 2
  {
    var ours := Clamped(byFace);
    var total := SumReal(ours) + Max(0.0, foreign);
    if total > 1.0 then Shares(ours, total) + [Share(Max(0.0, foreign), total), 0.0]
    else ours + [Max(0.0, foreign), Max(0.0, 1.0 - total)]
  }

  /** Each face's part, others' and what is left, all scaled down together when they exceed the whole. */
  lemma WholeMeans(byFace: seq<real>, foreign: real)
    requires |byFace| == FACES
    ensures var w := Whole(byFace, foreign);
            var others := if foreign > 0.0 then foreign else 0.0;
            var total := SumReal(Clamped(byFace)) + others;
            && (forall i | 0 <= i < FACES ::
                  var f := if byFace[i] > 0.0 then byFace[i] else 0.0; w[i] == if total > 1.0 then f / total else f)
            && w[FACES] == (if total > 1.0 then others / total else others)
            && w[FACES + 1] == (if total > 1.0 then 0.0 else 1.0 - total)
  {
    hide SumReal;
  }

  lemma SumTwo(s: seq<real>, a: real, b: real)
    ensures SumReal(s + [a, b]) == SumReal(s) + a + b
  {
    assert (s + [a, b])[..|s| + 1] == s + [a];
    assert (s + [a])[..|s|] == s;
  }

  lemma SumSeven(cells: seq<nat>)
    requires |cells| == FACES + 2
    ensures Sum(cells) == Sum(cells[..FACES]) + cells[FACES] + cells[FACES + 1]
  {
    assert cells[..FACES + 1][..FACES] == cells[..FACES];
  }

  lemma {:induction false} AtMostAll(s: seq<real>)
    ensures Positives(s) <= |s|
  {
    if s != [] { AtMostAll(s[..|s| - 1]); }
  }

  /** What the bar hands to `allocate` is never negative and always a whole. */
  lemma WholeIsOne(byFace: seq<real>, foreign: real)
    requires |byFace| == FACES
    ensures var w := Whole(byFace, foreign);
            && NonNegative(w) && SumReal(w) == 1.0 && Clamped(w) == w
            && (forall i | 0 <= i < FACES :: w[i] > 0.0 <==> byFace[i] > 0.0)
            && (w[FACES] > 0.0 <==> foreign > 0.0)
            && (SumReal(Clamped(byFace)) + Max(0.0, foreign) >= 1.0 ==> w[FACES + 1] == 0.0)
  {
    var ours := Clamped(byFace);
    var total := SumReal(ours) + Max(0.0, foreign);
    SumNonNegative(ours);
    var w := Whole(byFace, foreign);
    if total > 1.0 {
      SumShares(ours, total);
      ShareSum(SumReal(ours), Max(0.0, foreign), total);
      ShareSum(Max(0.0, foreign), 0.0, total);
      forall i | 0 <= i < FACES ensures (ours[i] > 0.0 ==> w[i] > 0.0) && (ours[i] == 0.0 ==> w[i] == 0.0) {
        ShareSum(ours[i], 0.0, total);
      }
      SumTwo(Shares(ours, total), Share(Max(0.0, foreign), total), 0.0);
    } else {
      SumTwo(ours, Max(0.0, foreign), Max(0.0, 1.0 - total));
    }
    hide Share;
    assert Clamped(w) == w;
  }
}
