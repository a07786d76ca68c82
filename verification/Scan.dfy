/**
 Byte scanning without parsing: substring search, the `"total_tokens": n` pattern, and the
 announcement of a completed response.  A byte is a character; nothing depends on its width.
 */
module Scan {
  import opened Prelude

  type Bytes = string

  const BLANKS := " \t"
  const SPACES := " \t\n\r\U{0b}\U{0c}"
  const DIGITS := "0123456789"

  // ---- literals and runs -------------------------------------------------------------

  predicate StartsAt(s: Bytes, p: nat, literal: Bytes) { p + |literal| <= |s| && s[p..p + |literal|] == literal }

  predicate Contains(s: Bytes, m: Bytes) { exists i :: 0 <= i <= |s| && StartsAt(s, i, m) }

  /** Past the longest run of characters of `over` starting at `p`. */
  function Skip(s: Bytes, p: nat, over: Bytes): (q: nat)
    requires p <= |s|
    ensures p <= q <= |s|
    ensures forall i | p <= i < q :: s[i] in over
    ensures q < |s| ==> s[q] !in over
    decreases |s| - p
  {
    if p < |s| && s[p] in over then Skip(s, p + 1, over) else p
  }

  lemma SkipIs(s: Bytes, p: nat, over: Bytes, q: nat)
    requires p <= q <= |s| && (forall i | p <= i < q :: s[i] in over) && (q < |s| ==> s[q] !in over)
    ensures Skip(s, p, over) == q
  {
    var r := Skip(s, p, over);
  }

  /** A run that ends inside a slice ends at the same place in it. */
  lemma SkipSlice(s: Bytes, p: nat, over: Bytes, a: nat, b: nat)
    requires a <= p && Skip.requires(s, p, over) && Skip(s, p, over) < b <= |s|
    ensures Skip(s[a..b], p - a, over) == Skip(s, p, over) - a
  {
    SkipIs(s[a..b], p - a, over, Skip(s, p, over) - a);
  }

  lemma StartsSlice(s: Bytes, p: nat, literal: Bytes, a: nat, b: nat)
    requires a <= p && p + |literal| <= b <= |s|
    ensures StartsAt(s[a..b], p - a, literal) <==> StartsAt(s, p, literal)
  {
    SliceOfSlice(s, a, b, p, p + |literal|);
  }

  lemma SliceOfSlice(s: Bytes, a: nat, b: nat, i: nat, j: nat)
    requires a <= i <= j <= b <= |s|
    ensures s[a..b][i - a..j - a] == s[i..j]
  {
    var t, u := s[a..b][i - a..j - a], s[i..j];
    assert |t| == |u| && forall k | 0 <= k < |u| :: t[k] == u[k];
  }

  // ---- the total ---------------------------------------------------------------------------

  const TOTAL := "\"total_tokens\""

  /** A literal, blank space, a literal, blank space: where the rest of the pattern starts. */
  function After(s: Bytes, p: nat, literal: Bytes, over: Bytes): (q: Option<nat>)
    ensures q.Some? ==> p + |literal| <= q.value <= |s|
  {
    if StartsAt(s, p, literal) then Some(Skip(s, p + |literal|, over)) else None
  }

  /** First digit of a total stated at `p`, when one is. */
  function Stated(s: Bytes, p: nat): (q: Option<nat>)
    ensures q.Some? ==> p + |TOTAL| + 1 <= q.value < |s| && s[q.value] in DIGITS
  {
    var c := After(s, p, TOTAL, SPACES);
    if c.None? then None
    else
      var d := After(s, c.value, ":", SPACES);
      if d.Some? && d.value < |s| && s[d.value] in DIGITS then d else None
  }

  /** End of the total stated at `p`. */
  function StatedEnd(s: Bytes, p: nat): (e: nat)
    requires Stated(s, p).Some?
    ensures Stated(s, p).value < e <= |s|
  {
    Skip(s, Stated(s, p).value, DIGITS)
  }

  function Decimal(d: Bytes): nat {
    if d == [] then 0 else 10 * Decimal(d[..|d| - 1]) + if d[|d| - 1] in DIGITS then d[|d| - 1] as nat - '0' as nat else 0
  }

  function TotalAt(s: Bytes, p: nat): nat
    requires Stated(s, p).Some?
  {
    Decimal(s[Stated(s, p).value..StatedEnd(s, p)])
  }

  /** Where the last total before `n` is stated. */
  function LastStated(s: Bytes, n: nat): (p: Option<nat>)
    ensures p.Some? ==> p.value < n && Stated(s, p.value).Some?
    ensures forall i: nat | i < n && Stated(s, i).Some? :: p.Some? && i <= p.value
  {
    if n == 0 then None else if Stated(s, n - 1).Some? then Some(n - 1) else LastStated(s, n - 1)
  }

  /** `_read_total_tokens`. */
  function Total(s: Bytes): Option<nat> {
    var p := LastStated(s, |s|);
    if p.Some? then Some(TotalAt(s, p.value)) else None
  }

  lemma Spelled(s: Bytes, p: nat, literal: Bytes)
    requires StartsAt(s, p, literal)
    ensures forall k | 0 <= k < |literal| :: s[p + k] == literal[k]
  {
    forall k | 0 <= k < |literal| ensures s[p + k] == literal[k] {
      assert s[p..p + |literal|][k] == literal[k];
    }
  }

  /** After its literal a stated total holds no quotation mark, and none follows the literal at once. */
  lemma NoQuoteInside(s: Bytes, p: nat)
    requires Stated(s, p).Some?
    ensures forall i | p + |TOTAL| <= i < StatedEnd(s, p) :: s[i] != '\"'
    ensures s[p + |TOTAL|] in SPACES || s[p + |TOTAL|] == ':'
  {
    NoQuoteListed();
    hide TOTAL, SPACES, DIGITS, StartsAt;
    var c := After(s, p, TOTAL, SPACES).value;
    ColonAt(s, c);
    assert forall i | p + |TOTAL| <= i < c :: s[i] in SPACES;
    var d := After(s, c, ":", SPACES).value;
    assert forall i | c + 1 <= i < d :: s[i] in SPACES;
    assert forall i | d <= i < StatedEnd(s, p) :: s[i] in DIGITS;
  }

  lemma ColonAt(s: Bytes, p: nat)
    requires StartsAt(s, p, ":")
    ensures p < |s| && s[p] == ':'
  {
    assert s[p..p + 1][0] == s[p];
  }

  lemma NoQuoteListed()
    ensures '\"' !in SPACES && '\"' !in DIGITS
  {
  }

  /** Two totals never overlap, so scanning on from the end of one misses none. */
  lemma TotalsApart(s: Bytes, p: nat, q: nat)
    requires p < q && Stated(s, p).Some? && Stated(s, q).Some?
    ensures StatedEnd(s, p) <= q
  {
    StatedSpelled(s, p);
    StatedSpelled(s, q);
    NoQuoteInside(s, p);
    hide Stated, StatedEnd;
    ApartByQuotes(s, p, q);
  }

  lemma StatedSpelled(s: Bytes, p: nat)
    requires Stated(s, p).Some?
    ensures p + |TOTAL| < |s| && forall k | 0 <= k < |TOTAL| :: s[p + k] == TOTAL[k]
  {
    Spelled(s, p, TOTAL);
  }

  lemma ApartByQuotes(s: Bytes, p: nat, q: nat)
    requires p < q && p + |TOTAL| < |s| && q + |TOTAL| < |s|
    requires forall k | 0 <= k < |TOTAL| :: s[p + k] == TOTAL[k]
    requires forall k | 0 <= k < |TOTAL| :: s[q + k] == TOTAL[k]
    requires s[p + |TOTAL|] in SPACES || s[p + |TOTAL|] == ':'
    ensures s[q] == '\"' && q >= p + |TOTAL|
  {
    assert s[q + 0] == TOTAL[0] && s[q + 1] == TOTAL[1];
    assert s[p + |TOTAL|] != TOTAL[1];
    assert forall k | 0 < k < |TOTAL| - 1 :: TOTAL[k] != TOTAL[0];
    forall i | p < i < p + |TOTAL| - 1 ensures s[i] == TOTAL[i - p] {
      var k := i - p;
      assert s[p + k] == TOTAL[k];
    }
  }

  method ReadTotal(s: Bytes) returns (total: Option<nat>)
    ensures total == Total(s)
  {
    hide Stated, StatedEnd, TotalAt;
    total := None;
    ghost var last: Option<nat> := None;
    var p := 0;
    while p < |s|
      invariant p <= |s|
      invariant last.Some? ==> last.value < p && Stated(s, last.value).Some? && total == Some(TotalAt(s, last.value))
      invariant last.None? ==> total == None
      invariant forall i: nat | i < p && Stated(s, i).Some? :: last.Some? && i <= last.value
    {
      if Stated(s, p).Some? {
        total, last := Some(TotalAt(s, p)), Some(p);
        forall i: nat | p < i < StatedEnd(s, p) ensures Stated(s, i).None? {
          if Stated(s, i).Some? { TotalsApart(s, p, i); }
        }
        p := StatedEnd(s, p);
      } else {
        p := p + 1;
      }
    }
  }

  // ---- numbers ----------------------------------------------------------------------------------

  /** How a number is written: by division by ten. */
  function Numeral(n: nat): Bytes {
    if n < 10 then [Digit(n)] else Numeral(n / 10) + [Digit(n % 10)]
  }

  function Digit(d: nat): char
    requires d < 10
  {
    DIGITS[d]
  }

  function Zeros(k: nat): Bytes { if k == 0 then [] else Zeros(k - 1) + ['0'] }

  lemma DigitValue(d: nat)
    requires d < 10
    ensures Digit(d) in DIGITS && Digit(d) as nat - '0' as nat == d
  {
  }

  lemma AllDigits(a: Bytes, b: Bytes)
    requires (forall i | 0 <= i < |a| :: a[i] in DIGITS) && (forall i | 0 <= i < |b| :: b[i] in DIGITS)
    ensures forall i | 0 <= i < |a + b| :: (a + b)[i] in DIGITS
  {
  }

  lemma {:induction false} NumeralDigits(n: nat)
    ensures Numeral(n) != [] && forall i | 0 <= i < |Numeral(n)| :: Numeral(n)[i] in DIGITS
  {
    DigitValue(n % 10);
    hide DIGITS, Digit;
    if n >= 10 {
      NumeralDigits(n / 10);
      AllDigits(Numeral(n / 10), [Digit(n % 10)]);
    }
  }

  lemma {:induction false} ZerosDigits(k: nat)
    ensures |Zeros(k)| == k && forall i | 0 <= i < k :: Zeros(k)[i] in DIGITS
  {
    if k > 0 {
      ZerosDigits(k - 1);
      AllDigits(Zeros(k - 1), ['0']);
    }
  }

  lemma DecimalSnoc(d: Bytes, c: char)
    ensures Decimal(d + [c]) == 10 * Decimal(d) + if c in DIGITS then c as nat - '0' as nat else 0
  {
    assert (d + [c])[..|d|] == d;
  }

  lemma NumeralStep(n: nat)
    ensures n < 10 ==> Numeral(n) == [Digit(n)]
    ensures n >= 10 ==> Numeral(n) == Numeral(n / 10) + [Digit(n % 10)] && 10 * (n / 10) + n % 10 == n
  {
    hide Digit;
  }

  /** Reading undoes writing, and zeros in front change nothing. */
  lemma {:induction false} DecimalOfNumeral(k: nat, n: nat)
    ensures Decimal(Zeros(k) + Numeral(n)) == n
  {
    hide Decimal, DIGITS, Zeros, Numeral, Digit;
    DigitValue(n % 10);
    NumeralStep(n);
    if n < 10 {
      ZerosAreNothing(k);
      DecimalSnoc(Zeros(k), Digit(n));
    } else {
      DecimalOfNumeral(k, n / 10);
      assert Zeros(k) + Numeral(n) == (Zeros(k) + Numeral(n / 10)) + [Digit(n % 10)];
      DecimalSnoc(Zeros(k) + Numeral(n / 10), Digit(n % 10));
    }
  }

  lemma {:induction false} ZerosAreNothing(k: nat)
    ensures Decimal(Zeros(k)) == 0
  {
    if k > 0 {
      ZerosAreNothing(k - 1);
      DecimalSnoc(Zeros(k - 1), '0');
    }
  }

  /** How a response states a total: the literal, a colon, the number, with space and zeros where they may be. */
  function Statement(a: Bytes, b: Bytes, k: nat, n: nat): Bytes { TOTAL + a + ":" + b + Zeros(k) + Numeral(n) }

  ghost predicate Spacing(a: Bytes) { forall i | 0 <= i < |a| :: a[i] in SPACES }

  lemma NoSpaceListed()
    ensures ':' !in SPACES && forall c | c in DIGITS :: c !in SPACES
  {
  }

  lemma SkipsOver(s: Bytes, p: nat, run: Bytes, over: Bytes)
    requires p + |run| <= |s| && s[p..p + |run|] == run && (forall i | 0 <= i < |run| :: run[i] in over)
    requires p + |run| < |s| ==> s[p + |run|] !in over
    ensures Skip(s, p, over) == p + |run|
  {
    forall i | p <= i < p + |run| ensures s[i] in over {
      assert s[p..p + |run|][i - p] == s[i];
    }
    SkipIs(s, p, over, p + |run|);
  }

  lemma StatedFrom(s: Bytes, p: nat, c: nat, d: nat, e: nat)
    requires StartsAt(s, p, TOTAL) && p + |TOTAL| <= |s| && Skip(s, p + |TOTAL|, SPACES) == c
    requires StartsAt(s, c, ":") && c < |s| && Skip(s, c + 1, SPACES) == d && d < e <= |s| && s[d] in DIGITS && Skip(s, d, DIGITS) == e
    ensures Stated(s, p) == Some(d) && StatedEnd(s, p) == e && TotalAt(s, p) == Decimal(s[d..e])
  {
    hide Skip, Decimal;
  }

  ghost predicate LiesAt(s: Bytes, p: nat, part: Bytes) { p + |part| <= |s| && s[p..p + |part|] == part }

  lemma LiesInside(before: Bytes, part: Bytes, after: Bytes)
    ensures LiesAt(before + part + after, |before|, part)
    ensures after != [] ==> (before + part + after)[|before| + |part|] == after[0]
  {
  }

  lemma LiesApart(s: Bytes, p: nat, a: Bytes, b: Bytes)
    requires LiesAt(s, p, a + b)
    ensures LiesAt(s, p, a) && LiesAt(s, p + |a|, b)
  {
    assert s[p..p + |a + b|][..|a|] == a && s[p..p + |a + b|][|a|..] == b;
  }

  lemma LiesFirst(s: Bytes, p: nat, part: Bytes)
    requires LiesAt(s, p, part) && part != []
    ensures p < |s| && s[p] == part[0]
  {
    assert s[p..p + |part|][0] == s[p];
  }

  /** Digits after the literal, a colon and what space there is make a stated total. */
  lemma DigitsStated(s: Bytes, p: nat, a: Bytes, b: Bytes, digits: Bytes)
    requires Spacing(a) && Spacing(b) && digits != [] && forall i | 0 <= i < |digits| :: digits[i] in DIGITS
    requires LiesAt(s, p, TOTAL + a + ":" + b + digits)
    requires var e := p + |TOTAL + a + ":" + b + digits|; e < |s| ==> s[e] !in DIGITS
    ensures Stated(s, p).Some? && TotalAt(s, p) == Decimal(digits) && StatedEnd(s, p) == p + |TOTAL + a + ":" + b + digits|
  {
    NoSpaceListed();
    hide TOTAL, SPACES, DIGITS, Decimal, Skip, Stated, StatedEnd, TotalAt, LiesAt;
    var c := p + |TOTAL| + |a|;
    var d := c + 1 + |b|;
    LiesApart(s, p, TOTAL + a + ":" + b, digits);
    LiesApart(s, p, TOTAL + a + ":", b);
    LiesApart(s, p, TOTAL + a, ":");
    LiesApart(s, p, TOTAL, a);
    LiesFirst(s, c, ":");
    LiesFirst(s, d, digits);
    if b != [] { LiesFirst(s, c + 1, b); }
    SkipsLying(s, p + |TOTAL|, a, SPACES);
    SkipsLying(s, c + 1, b, SPACES);
    SkipsLying(s, d, digits, DIGITS);
    LyingStarts(s, p, TOTAL);
    LyingStarts(s, c, ":");
    LyingIs(s, d, digits);
    StatedFrom(s, p, c, d, d + |digits|);
  }

  lemma LyingStarts(s: Bytes, p: nat, literal: Bytes)
    requires LiesAt(s, p, literal)
    ensures StartsAt(s, p, literal) && p + |literal| <= |s|
  {
  }

  lemma LyingIs(s: Bytes, p: nat, part: Bytes)
    requires LiesAt(s, p, part)
    ensures p + |part| <= |s| && s[p..p + |part|] == part
  {
  }

  lemma SkipsLying(s: Bytes, p: nat, run: Bytes, over: Bytes)
    requires LiesAt(s, p, run) && forall i | 0 <= i < |run| :: run[i] in over
    requires p + |run| < |s| ==> s[p + |run|] !in over
    ensures p <= |s| && Skip(s, p, over) == p + |run|
  {
    SkipsOver(s, p, run, over);
  }

  /** The statement is a stated total, from its first digit to its last. */
  lemma StatementStated(before: Bytes, a: Bytes, b: Bytes, k: nat, n: nat, after: Bytes)
    requires Spacing(a) && Spacing(b) && (after != [] ==> after[0] !in DIGITS)
    ensures var s, p := before + Statement(a, b, k, n) + after, |before|;
            Stated(s, p).Some? && TotalAt(s, p) == n && StatedEnd(s, p) == p + |Statement(a, b, k, n)|
  {
    var s, digits := before + Statement(a, b, k, n) + after, Zeros(k) + Numeral(n);
    NumeralDigits(n);
    ZerosDigits(k);
    AllDigits(Zeros(k), Numeral(n));
    DecimalOfNumeral(k, n);
    LiesInside(before, Statement(a, b, k, n), after);
    hide DIGITS, Decimal, Numeral, Zeros, LiesAt, TOTAL, Stated, StatedEnd, TotalAt;
    assert Statement(a, b, k, n) == TOTAL + a + ":" + b + digits;
    DigitsStated(s, |before|, a, b, digits);
  }

  /**
   The number recorded is the number written.  For every number, written with any space and zeros the
   pattern allows, and every text around it that states no later total: reading gives that number.
   */
  lemma TotalIsNumber(before: Bytes, a: Bytes, b: Bytes, k: nat, n: nat, after: Bytes)
    requires Spacing(a) && Spacing(b) && (after != [] ==> after[0] !in DIGITS)
    requires var s := before + Statement(a, b, k, n) + after; forall q: nat | |before| < q :: Stated(s, q).None?
    ensures var s := before + Statement(a, b, k, n) + after; LastStated(s, |s|) == Some(|before|) && Total(s) == Some(n)
  {
    StatementStated(before, a, b, k, n, after);
    hide Stated, TotalAt, StatedEnd, Statement;
    var s := before + Statement(a, b, k, n) + after;
    StatedInside(s, |before|);
  }

  lemma StatedInside(s: Bytes, p: nat)
    requires Stated(s, p).Some?
    ensures p < |s|
  {
  }

  // ---- slices ---------------------------------------------------------------------------------

  lemma AfterSlice(s: Bytes, p: nat, literal: Bytes, over: Bytes, a: nat, b: nat)
    requires a <= p && After(s, p, literal, over).Some? && After(s, p, literal, over).value < b <= |s|
    ensures After(s[a..b], p - a, literal, over) == Some(After(s, p, literal, over).value - a)
  {
    StartsSlice(s, p, literal, a, b);
    SkipSlice(s, p + |literal|, over, a, b);
  }

  /** A total stated in a slice is stated in the whole, its first digit at the same place. */
  lemma StatedInSlice(s: Bytes, p: nat, a: nat, b: nat)
    requires a <= p <= b <= |s| && Stated(s[a..b], p - a).Some?
    ensures Stated(s, p).Some? && Stated(s, p).value == Stated(s[a..b], p - a).value + a
  {
    hide After, TOTAL, SPACES, DIGITS;
    var t := s[a..b];
    var c := After(t, p - a, TOTAL, SPACES).value;
    AfterInSlice(s, p, TOTAL, SPACES, a, b);
    AfterInSlice(s, c + a, ":", SPACES, a, b);
  }

  /** What follows a run inside a slice shows that the run ends there in the whole too. */
  lemma AfterInSlice(s: Bytes, p: nat, literal: Bytes, over: Bytes, a: nat, b: nat)
    requires a <= p <= b <= |s| && After(s[a..b], p - a, literal, over).Some?
    requires After(s[a..b], p - a, literal, over).value < b - a
    ensures After(s, p, literal, over) == Some(After(s[a..b], p - a, literal, over).value + a)
  {
    var t := s[a..b];
    var q := After(t, p - a, literal, over).value + a;
    StartsSlice(s, p, literal, a, b);
    assert forall i | p + |literal| <= i < q :: t[i - a] == s[i];
    assert s[q] == t[q - a];
    SkipIs(s, p + |literal|, over, q);
  }

  /** A total whose first digit lies in the slice is stated in it. */
  lemma StatedSlice(s: Bytes, p: nat, a: nat, b: nat)
    requires a <= p && Stated(s, p).Some? && Stated(s, p).value < b <= |s|
    ensures Stated(s[a..b], p - a) == Some(Stated(s, p).value - a)
  {
    hide After, DIGITS, SPACES, TOTAL;
    var c := After(s, p, TOTAL, SPACES).value;
    AfterSlice(s, p, TOTAL, SPACES, a, b);
    AfterSlice(s, c, ":", SPACES, a, b);
    assert s[a..b][Stated(s, p).value - a] == s[Stated(s, p).value];
  }

  /** A slice that holds a stated total to its end, and stops there or goes on as the whole does. */
  lemma TotalSlice(s: Bytes, p: nat, a: nat, b: nat)
    requires a <= p && Stated(s, p).Some? && StatedEnd(s, p) <= b <= |s|
    ensures Stated(s[a..b], p - a).Some? && TotalAt(s[a..b], p - a) == TotalAt(s, p)
  {
    hide Stated, Decimal, DIGITS, SPACES, TOTAL;
    StatedSlice(s, p, a, b);
    var t, d, e := s[a..b], Stated(s, p).value, StatedEnd(s, p);
    assert forall i | d <= i < e :: t[i - a] == s[i];
    assert e < b ==> t[e - a] == s[e];
    SkipIs(t, d - a, DIGITS, e - a);
    SliceOfSlice(s, a, b, d, e);
  }
}
