/**
 The incremental stream scanner (`_StreamWatch`): it sees a response chunk by chunk, keeps 48
 bytes between chunks, and must answer as if it had seen the whole response at once.
 */
module StreamWatch {
  import opened Prelude
  import opened Scan
  import opened Framing

  const OVERLAP := 48

  datatype Watch = Watch(overlap: Bytes, limited: bool, total: Option<nat>, progress: Progress)

  const NEW := Watch("", false, None, Progress(false, false, ""))

  /** An empty marker occurs anywhere and names no error, so it hides the markers listed after it. */
  predicate Heeded(markers: seq<Bytes>, k: nat)
    requires k < |markers|
  {
    forall j | 0 <= j <= k :: markers[j] != ""
  }

  /** `_inband_error`. */
  predicate Refused(s: Bytes, markers: seq<Bytes>) {
    exists k :: 0 <= k < |markers| && Heeded(markers, k) && Contains(s, markers[k])
  }

  /** Every marker that counts fits the overlap between chunks. */
  ghost predicate Scannable(markers: seq<Bytes>) {
    forall k | 0 <= k < |markers| && Heeded(markers, k) :: |markers[k]| <= OVERLAP + 1
  }

  /** `feed`, the recorded error text aside. */
  function Fed(w: Watch, chunk: Bytes, markers: seq<Bytes>): Watch {
    var window := w.overlap + chunk;
    var total := Total(window);
    Watch(Last(window, OVERLAP), w.limited || Refused(window, markers), if total.Some? then total else w.total,
          Chunked(w.progress, chunk))
  }

  function Watched(chunks: seq<Bytes>, markers: seq<Bytes>): Watch {
    if chunks == [] then NEW else Fed(Watched(chunks[..|chunks| - 1], markers), chunks[|chunks| - 1], markers)
  }

  function Whole(chunks: seq<Bytes>): Bytes {
    if chunks == [] then "" else Whole(chunks[..|chunks| - 1]) + chunks[|chunks| - 1]
  }

  // ---- the window ----------------------------------------------------------------------

  lemma {:induction false} OverlapIsEnd(chunks: seq<Bytes>, markers: seq<Bytes>)
    ensures Watched(chunks, markers).overlap == Last(Whole(chunks), OVERLAP)
  {
    if chunks != [] { OverlapIsEnd(chunks[..|chunks| - 1], markers); }
  }

  /** The window of the last feed: the end of the whole, from 48 bytes before the new chunk. */
  function Start(chunks: seq<Bytes>): nat
    requires chunks != []
  {
    var before := |Whole(chunks[..|chunks| - 1])|;
    if before <= OVERLAP then 0 else before - OVERLAP
  }

  lemma WindowIs(chunks: seq<Bytes>, markers: seq<Bytes>)
    requires chunks != []
    ensures Start(chunks) <= |Whole(chunks)|
    ensures Watched(chunks[..|chunks| - 1], markers).overlap + chunks[|chunks| - 1] == Whole(chunks)[Start(chunks)..]
  {
    OverlapIsEnd(chunks[..|chunks| - 1], markers);
  }

  // ---- rate limits ----------------------------------------------------------------------

  lemma ContainsSlice(s: Bytes, a: nat, m: Bytes)
    requires a <= |s| && Contains(s[a..], m)
    ensures Contains(s, m)
  {
    var i :| 0 <= i <= |s[a..]| && StartsAt(s[a..], i, m);
    StartsSlice(s, a + i, m, a, |s|);
    assert s[a..|s|] == s[a..];
    assert StartsAt(s, a + i, m);
  }

  /** A short marker either was complete before the last chunk, or lies inside its window. */
  lemma MarkerSeen(chunks: seq<Bytes>, m: Bytes)
    requires chunks != [] && |m| <= OVERLAP + 1 && Contains(Whole(chunks), m)
    ensures Contains(Whole(chunks[..|chunks| - 1]), m) || Contains(Whole(chunks)[Start(chunks)..], m)
    ensures Start(chunks) <= |Whole(chunks)|
  {
    var s, before := Whole(chunks), Whole(chunks[..|chunks| - 1]);
    var i :| 0 <= i <= |s| && StartsAt(s, i, m);
    if i + |m| <= |before| {
      StartsSlice(s, i, m, 0, |before|);
      assert s[0..|before|] == before;
      assert StartsAt(before, i, m);
    } else if i >= Start(chunks) {
      StartsSlice(s, i, m, Start(chunks), |s|);
      assert s[Start(chunks)..|s|] == s[Start(chunks)..];
      assert StartsAt(s[Start(chunks)..], i - Start(chunks), m);
    }
  }

  /** How often `feed` answered true. */
  function Alarms(chunks: seq<Bytes>, markers: seq<Bytes>): nat {
    if chunks == [] then 0
    else
      var before := chunks[..|chunks| - 1];
      Alarms(before, markers) + if Watched(chunks, markers).limited && !Watched(before, markers).limited then 1 else 0
  }

  /**
   Rate limits do not depend on chunking: however a response is cut, it counts as refused exactly
   when one of the (short) markers occurs in it, and exactly one chunk raises the alarm.
   */
  lemma {:induction false} RefusalIsChunkingFree(chunks: seq<Bytes>, markers: seq<Bytes>)
    requires Scannable(markers)
    ensures Watched(chunks, markers).limited <==> Refused(Whole(chunks), markers)
    ensures Alarms(chunks, markers) == if Refused(Whole(chunks), markers) then 1 else 0
  {
    if chunks == [] {
      forall k | 0 <= k < |markers| && Heeded(markers, k) ensures !Contains("", markers[k]) {
        assert markers[k] != "";
      }
    } else {
      var before, s := chunks[..|chunks| - 1], Whole(chunks);
      RefusalIsChunkingFree(before, markers);
      WindowIs(chunks, markers);
      var window := s[Start(chunks)..];
      hide Contains, Heeded;
      forall k | 0 <= k < |markers| && Heeded(markers, k)
        ensures Contains(s, markers[k]) <==> Contains(Whole(before), markers[k]) || Contains(window, markers[k])
      {
        MarkerStep(chunks, markers[k]);
      }
    }
  }

  lemma MarkerStep(chunks: seq<Bytes>, m: Bytes)
    requires chunks != [] && |m| <= OVERLAP + 1 && Start(chunks) <= |Whole(chunks)|
    ensures Contains(Whole(chunks), m) <==> Contains(Whole(chunks[..|chunks| - 1]), m) || Contains(Whole(chunks)[Start(chunks)..], m)
  {
    var s, before := Whole(chunks), Whole(chunks[..|chunks| - 1]);
    if Contains(s, m) { MarkerSeen(chunks, m); }
    if Contains(s[Start(chunks)..], m) { ContainsSlice(s, Start(chunks), m); }
    if Contains(before, m) {
      var i :| 0 <= i <= |before| && StartsAt(before, i, m);
      assert s[0..|before|] == before;
      StartsSlice(s, i, m, 0, |before|);
      assert StartsAt(s, i, m);
    }
  }

  /** Forty-nine bytes is the exact limit: a longer marker, cut after its first 49, goes unseen. */
  lemma MarkerLimit(m: Bytes)
    ensures (forall chunks | Whole(chunks) == m && chunks != [] :: Watched(chunks, [m]).limited) <==> 0 < |m| <= 49
  {
    Parts(m, "");
    hide Watched, Whole;
    if 0 < |m| <= 49 {
      forall chunks | Whole(chunks) == m && chunks != [] ensures Watched(chunks, [m]).limited {
        MarkerCaught(m, chunks);
      }
    } else if m == "" {
      NothingMarked();
      assert Whole([m]) == m;
    } else {
      MarkerMissed(m);
      Parts(m[..49], m[49..]);
      assert m == m[..49] + m[49..];
    }
  }

  lemma MarkerCaught(m: Bytes, chunks: seq<Bytes>)
    requires 0 < |m| <= 49 && Whole(chunks) == m && chunks != []
    ensures Watched(chunks, [m]).limited
  {
    assert StartsAt(m, 0, m);
    assert [m][0] == m && Heeded([m], 0);
    hide Watched, Whole;
    RefusalIsChunkingFree(chunks, [m]);
  }

  lemma NothingMarked()
    ensures !Watched([""], [""]).limited
  {
    Parts("", "");
    hide Watched, Whole;
    RefusalIsChunkingFree([""], [""]);
  }

  lemma Parts(a: Bytes, b: Bytes)
    ensures [a, b][..1] == [a] && [a][..0] == []
    ensures Whole([a]) == a && Whole([a, b]) == a + b
  {
  }

  lemma MarkerMissed(m: Bytes)
    requires |m| > OVERLAP + 1
    ensures !Watched([m[..OVERLAP + 1], m[OVERLAP + 1..]], [m]).limited
  {
    var a, b := m[..OVERLAP + 1], m[OVERLAP + 1..];
    Parts(a, b);
    TooShort(a, m);
    var one, two := [a], [a, b];
    assert one[..|one| - 1] == [] && two[..|two| - 1] == one;
    assert Watched(one, [m]) == Fed(NEW, a, [m]);
    assert NEW.overlap + a == a;
    assert !Watched(one, [m]).limited;
    TooShort(Watched(one, [m]).overlap + b, m);
    assert Watched(two, [m]) == Fed(Watched(one, [m]), b, [m]);
  }

  lemma TooShort(s: Bytes, m: Bytes)
    requires |s| < |m|
    ensures !Refused(s, [m])
  {
  }

  // ---- the total -----------------------------------------------------------------------------

  /** A slice that holds the last total of the whole reads it; one that starts later reads none. */
  lemma LastTotalSlice(s: Bytes, p: nat, a: nat, b: nat)
    requires LastStated(s, |s|) == Some(p) && StatedEnd(s, p) <= b <= |s| && a <= b
    ensures Total(s[a..b]) == if a <= p then Some(TotalAt(s, p)) else None
  {
    hide Stated, StatedEnd, TotalAt;
    var t := s[a..b];
    forall i: nat | i < |t| && Stated(t, i).Some? ensures a + i <= p {
      StatedInSlice(s, a + i, a, b);
    }
    if a <= p {
      TotalSlice(s, p, a, b);
      assert Stated(t, p - a).Some?;
    }
  }

  lemma NoTotalSlice(s: Bytes, a: nat, b: nat)
    requires LastStated(s, |s|).None? && a <= b <= |s|
    ensures Total(s[a..b]) == None
  {
    hide Stated, StatedEnd, TotalAt;
    var t := s[a..b];
    forall i: nat | i < |t| ensures Stated(t, i).None? {
      if Stated(t, i).Some? { StatedInSlice(s, a + i, a, b); }
    }
  }

  /** Fed part of `s`: once the last total has gone past, it is the one on record. */
  lemma {:induction false} TotalSoFar(chunks: seq<Bytes>, markers: seq<Bytes>, s: Bytes)
    requires Whole(chunks) <= s
    requires var p := LastStated(s, |s|); p.Some? ==> StatedEnd(s, p.value) - p.value <= OVERLAP + 1
    ensures var p := LastStated(s, |s|);
            && (p.None? ==> Watched(chunks, markers).total == None)
            && (p.Some? && StatedEnd(s, p.value) <= |Whole(chunks)| ==> Watched(chunks, markers).total == Some(TotalAt(s, p.value)))
  {
    hide Stated, StatedEnd, TotalAt, Total;
    if chunks != [] {
      var before := chunks[..|chunks| - 1];
      TotalSoFar(before, markers, s);
      WindowIs(chunks, markers);
      var a, b := Start(chunks), |Whole(chunks)|;
      assert Whole(chunks)[a..] == s[a..b];
      var p := LastStated(s, |s|);
      if p.None? {
        NoTotalSlice(s, a, b);
      } else if StatedEnd(s, p.value) <= b {
        LastTotalSlice(s, p.value, a, b);
      }
    }
  }

  /**
   The total does not depend on chunking: it is the last one stated anywhere in the response, as
   long as that one spans at most 49 bytes.
   */
  lemma TotalIsChunkingFree(chunks: seq<Bytes>, markers: seq<Bytes>)
    requires var s := Whole(chunks); var p := LastStated(s, |s|);
             p.Some? ==> StatedEnd(s, p.value) - p.value <= 49
    ensures Watched(chunks, markers).total == Total(Whole(chunks))
  {
    TotalSoFar(chunks, markers, Whole(chunks));
  }

  /**
   The number recorded is the number the response states, however it is cut: for every number, with any
   space and leading zeros within 49 bytes, and every text around it that states no later total.
   */
  lemma NumberRecorded(before: Bytes, a: Bytes, b: Bytes, k: nat, n: nat, after: Bytes, chunks: seq<Bytes>, markers: seq<Bytes>)
    requires Spacing(a) && Spacing(b) && (after != [] ==> after[0] !in DIGITS) && |Statement(a, b, k, n)| <= 49
    requires var s := before + Statement(a, b, k, n) + after; Whole(chunks) == s && forall q: nat | |before| < q :: Stated(s, q).None?
    ensures Watched(chunks, markers).total == Some(n)
  {
    StatementStated(before, a, b, k, n, after);
    TotalIsNumber(before, a, b, k, n, after);
    hide Stated, StatedEnd, Total, Statement, Watched, Whole;
    TotalIsChunkingFree(chunks, markers);
  }

  // ---- totals that do not fit ---------------------------------------------------------------

  lemma {:induction false} DecimalPrefix(d: Bytes, k: nat)
    requires k <= |d|
    ensures Decimal(d[..k]) <= Decimal(d)
    ensures k < |d| && Decimal(d[..k]) == Decimal(d) ==> Decimal(d) == 0
  {
    if k < |d| {
      var front := d[..|d| - 1];
      DecimalPrefix(front, k);
      assert front[..k] == d[..k];
    } else {
      assert d[..k] == d;
    }
  }

  /** The last total of the whole, as a slice shows it: from its first digit on, as far as the slice goes. */
  lemma LastInSlice(s: Bytes, p: nat, a: nat, b: nat)
    requires LastStated(s, |s|) == Some(p) && a <= p && Stated(s, p).value < b <= |s|
    ensures Total(s[a..b]) == Some(Decimal(s[Stated(s, p).value..MinNat(b, StatedEnd(s, p))]))
  {
    hide Stated, Decimal, DIGITS, SPACES, TOTAL, LastStated;
    var t, d, e := s[a..b], Stated(s, p).value, StatedEnd(s, p);
    forall i: nat | i < |t| && Stated(t, i).Some? ensures a + i <= p {
      StatedInSlice(s, a + i, a, b);
    }
    StatedSlice(s, p, a, b);
    var n := MinNat(b, e);
    assert forall i | d <= i < n :: t[i - a] == s[i];
    assert n < b ==> t[n - a] == s[n];
    SkipIs(t, d - a, DIGITS, n - a);
    SliceOfSlice(s, a, b, d, n);
  }

  lemma PastLast(s: Bytes, p: nat, a: nat, b: nat)
    requires LastStated(s, |s|) == Some(p) && p < a <= b <= |s|
    ensures Total(s[a..b]) == None
  {
    hide Stated, StatedEnd, TotalAt, LastStated;
    var t := s[a..b];
    forall i: nat | i < |t| ensures Stated(t, i).None? {
      if Stated(t, i).Some? { StatedInSlice(s, a + i, a, b); }
    }
  }

  /** A total stated in a slice that ends before the last total's digits is stated before that total. */
  lemma StatedEarlier(s: Bytes, p: nat, a: nat, b: nat, i: nat)
    requires LastStated(s, |s|) == Some(p) && a <= p <= b <= Stated(s, p).value && i < b - a && Stated(s[a..b], i).Some?
    ensures i < p - a && Stated(s[a..p], i).Some? && TotalAt(s[a..b], i) == TotalAt(s[a..p], i)
  {
    hide Stated, StatedEnd, TotalAt, LastStated;
    StatedInSlice(s, a + i, a, b);
    DigitInside(s[a..b], i);
    assert a + i < p;
    WholeTotal(s, p, a, b, i);
  }

  /** A total before the last one is whole in every slice that reaches up to that. */
  lemma WholeTotal(s: Bytes, p: nat, a: nat, b: nat, i: nat)
    requires Stated(s, p).Some? && a <= p <= b <= |s| && i < p - a && Stated(s, a + i).Some?
    ensures Stated(s[a..b], i).Some? && Stated(s[a..p], i).Some? && TotalAt(s[a..b], i) == TotalAt(s[a..p], i)
  {
    hide Stated, StatedEnd, TotalAt;
    TotalsApart(s, a + i, p);
    TotalSlice(s, a + i, a, b);
    TotalSlice(s, a + i, a, p);
  }

  lemma StatedStays(s: Bytes, p: nat, a: nat, b: nat, i: nat)
    requires LastStated(s, |s|) == Some(p) && a <= p <= b <= |s| && i < p - a && Stated(s[a..p], i).Some?
    ensures Stated(s[a..b], i).Some? && TotalAt(s[a..b], i) == TotalAt(s[a..p], i)
  {
    hide Stated, StatedEnd, TotalAt, LastStated;
    StatedInSlice(s, a + i, a, p);
    WholeTotal(s, p, a, b, i);
  }

  lemma DigitInside(s: Bytes, i: nat)
    requires Stated(s, i).Some?
    ensures i < Stated(s, i).value < |s|
  {
  }

  /** Texts that state the same totals at the same places, one of them only before its end, read the same. */
  lemma SameTotals(t: Bytes, u: Bytes)
    requires |u| <= |t|
    requires forall i: nat | i < |t| :: Stated(t, i).Some? <==> i < |u| && Stated(u, i).Some?
    requires forall i: nat | i < |u| && Stated(u, i).Some? :: Stated(t, i).Some? && TotalAt(t, i) == TotalAt(u, i)
    ensures Total(t) == Total(u)
  {
    hide Stated, StatedEnd, TotalAt, LastStated;
    var x, y := LastStated(t, |t|), LastStated(u, |u|);
    assert x == y;
  }

  /** Until the first digit of the last total, only the totals before it show. */
  lemma NoDigitsYet(s: Bytes, p: nat, a: nat, b: nat)
    requires LastStated(s, |s|) == Some(p) && a <= p <= b <= Stated(s, p).value
    ensures Total(s[a..b]) == Total(s[a..p])
  {
    hide Stated, StatedEnd, TotalAt, LastStated, Total;
    forall i: nat | i < b - a && Stated(s[a..b], i).Some? ensures i < p - a && Stated(s[a..p], i).Some? {
      StatedEarlier(s, p, a, b, i);
    }
    forall i: nat | i < p - a && Stated(s[a..p], i).Some?
      ensures Stated(s[a..b], i).Some? && TotalAt(s[a..b], i) == TotalAt(s[a..p], i)
    {
      StatedStays(s, p, a, b, i);
    }
    SameTotals(s[a..b], s[a..p]);
  }

  /** A slice that ends with the whole shows the whole's total or none, and none when that one spans more. */
  lemma EndSlice(s: Bytes, a: nat)
    requires a <= |s|
    ensures Total(s[a..]) == None || Total(s[a..]) == Total(s)
    ensures Total(s[a..]).Some? ==> LastStated(s, |s|).Some? && a <= LastStated(s, |s|).value
  {
    hide Stated, StatedEnd, TotalAt;
    var p := LastStated(s, |s|);
    assert s[a..|s|] == s[a..];
    if p.None? { NoTotalSlice(s, a, |s|); } else {
      EndWithin(s, p.value);
      LastTotalSlice(s, p.value, a, |s|);
    }
  }

  lemma EndWithin(s: Bytes, p: nat)
    requires Stated(s, p).Some?
    ensures StatedEnd(s, p) <= |s|
  {
  }

  /**
   Whether some cut of the response changes what is recorded.  The last total must span 50 bytes or
   more.  Its digits can be cut short, if there are several and they do not all say zero.  Or it can be
   missed altogether, if its first digit lies 49 bytes or more from its start; then what is recorded is
   what was recorded before it, which is another value or can itself be changed.
   */
  ghost predicate Changeable(s: Bytes)
    decreases |s|
  {
    var last := LastStated(s, |s|);
    last.Some?
    && var p := last.value; var d, e, v := Stated(s, p).value, StatedEnd(s, p), TotalAt(s, p);
       && e - p > OVERLAP + 1
       && ((v != 0 && e > d + 1) || (d - p > OVERLAP && (Total(s[..p]) != Some(v) || Changeable(s[..p]))))
  }

  lemma NothingYet()
    ensures Watched([], []).total == None && Whole([]) == ""
  {
  }

  /** The last window of the chunks fed so far, as a slice of the whole response. */
  lemma TotalStep(chunks: seq<Bytes>, s: Bytes)
    requires chunks != [] && Whole(chunks) <= s
    ensures Start(chunks) <= |Whole(chunks)| && Whole(chunks[..|chunks| - 1]) <= s
    ensures var late := Total(s[Start(chunks)..|Whole(chunks)|]);
            Watched(chunks, []).total == if late.Some? then late else Watched(chunks[..|chunks| - 1], []).total
  {
    WindowIs(chunks, []);
    hide Total, Refused, Chunked, Start;
    assert Whole(chunks)[Start(chunks)..] == s[Start(chunks)..|Whole(chunks)|];
  }

  /** The window reaches back 48 bytes into what was fed before, or to the start of it. */
  lemma StartWithin(chunks: seq<Bytes>)
    requires chunks != []
    ensures var before := |Whole(chunks[..|chunks| - 1])|; Start(chunks) == if before <= OVERLAP then 0 else before - OVERLAP
    ensures |Whole(chunks[..|chunks| - 1])| <= |Whole(chunks)|
  {
  }

  /** One more chunk. */
  lemma TotalNext(chunks: seq<Bytes>, chunk: Bytes)
    ensures Whole(chunks + [chunk]) == Whole(chunks) + chunk
    ensures var s := Whole(chunks) + chunk; var a := if |Whole(chunks)| <= OVERLAP then 0 else |Whole(chunks)| - OVERLAP;
            var late := Total(s[a..]);
            Watched(chunks + [chunk], []).total == if late.Some? then late else Watched(chunks, []).total
  {
    hide Total, Refused, Chunked, Watched;
    var more := chunks + [chunk];
    assert more[..|more| - 1] == chunks && more[|more| - 1] == chunk;
    TotalStep(more, Whole(chunks) + chunk);
    StartWithin(more);
    assert (Whole(chunks) + chunk)[Start(more)..|Whole(more)|] == (Whole(chunks) + chunk)[Start(more)..];
  }

  // ---- no cut changes it -----------------------------------------------------------------------

  /** The digits cannot be cut short to another value. */
  ghost predicate SameCut(s: Bytes, p: nat)
    requires Stated(s, p).Some?
  {
    TotalAt(s, p) == 0 || StatedEnd(s, p) == Stated(s, p).value + 1
  }

  lemma SameDigits(s: Bytes, p: nat, n: nat)
    requires Stated(s, p).Some? && SameCut(s, p) && Stated(s, p).value < n <= StatedEnd(s, p)
    ensures Decimal(s[Stated(s, p).value..n]) == TotalAt(s, p)
  {
    hide Stated, StatedEnd, Decimal;
    var d, e := Stated(s, p).value, StatedEnd(s, p);
    assert s[d..e][..n - d] == s[d..n];
    DecimalPrefix(s[d..e], n - d);
  }

  lemma CutIsSame(s: Bytes, p: nat, a: nat, b: nat)
    requires LastStated(s, |s|) == Some(p) && SameCut(s, p) && a <= p && Stated(s, p).value < b <= |s|
    ensures Total(s[a..b]) == Some(TotalAt(s, p))
  {
    hide Stated, StatedEnd, Decimal, Total, LastStated, SameCut, TotalAt;
    LastInSlice(s, p, a, b);
    SameDigits(s, p, MinNat(b, StatedEnd(s, p)));
  }

  /** What came before the last total is recorded, on every cut, as the last total itself. */
  ghost predicate SameBefore(s: Bytes, p: nat)
    requires p <= |s| && Stated(s, p).Some?
  {
    Stated(s, p).value - p > OVERLAP ==>
      Total(s[..p]) == Some(TotalAt(s, p)) && forall c | Whole(c) == s[..p] :: Watched(c, []).total == Total(s[..p])
  }

  /** The chunk that crosses the start of the last total, cut there. */
  lemma CrossingCut(chunks: seq<Bytes>, s: Bytes, p: nat)
    requires LastStated(s, |s|) == Some(p) && chunks != [] && Whole(chunks) <= s
    requires |Whole(chunks[..|chunks| - 1])| < p <= |Whole(chunks)| <= Stated(s, p).value
    ensures exists c :: Whole(c) == s[..p] && Watched(c, []).total == Watched(chunks, []).total
  {
    hide Stated, Total, Whole, Watched, Start;
    var before := chunks[..|chunks| - 1];
    var m, b := |Whole(before)|, |Whole(chunks)|;
    TotalStep(chunks, s);
    StartWithin(chunks);
    var c := before + [s[m..p]];
    TotalNext(before, s[m..p]);
    assert Whole(before) == s[..m] && s[..m] + s[m..p] == s[..p];
    NoDigitsYet(s, p, Start(chunks), b);
    assert s[..p][Start(chunks)..] == s[Start(chunks)..p];
    assert Watched(c, []).total == Watched(chunks, []).total;
  }

  /** Fed part of `s`: before the last total's digits what is on record is that total already, and ever after. */
  lemma {:induction false} NeverChanges(chunks: seq<Bytes>, s: Bytes, p: nat)
    requires Whole(chunks) <= s && LastStated(s, |s|) == Some(p) && SameCut(s, p) && SameBefore(s, p)
    ensures |Whole(chunks)| > Stated(s, p).value ==> Watched(chunks, []).total == Some(TotalAt(s, p))
    ensures Stated(s, p).value - p > OVERLAP && p <= |Whole(chunks)| <= Stated(s, p).value ==>
              Watched(chunks, []).total == Some(TotalAt(s, p))
    decreases |chunks|
  {
    hide Stated, StatedEnd, Total, TotalAt, Whole, Watched, Start, SameCut, LastStated;
    var d := Stated(s, p).value;
    DigitInside(s, p);
    if chunks == [] {
      NothingYet();
      EmptyTotal();
      assert s[..0] == "";
    } else {
      var before := chunks[..|chunks| - 1];
      TotalStep(chunks, s);
      StartWithin(chunks);
      NeverChanges(before, s, p);
      var a, b, m := Start(chunks), |Whole(chunks)|, |Whole(before)|;
      if b > d {
        if a <= p { CutIsSame(s, p, a, b); } else { PastLast(s, p, a, b); }
      } else if d - p > OVERLAP && p <= b {
        if m < p {
          CrossingCut(chunks, s, p);
        } else if a <= p {
          NoDigitsYet(s, p, a, b);
          assert s[..p][a..] == s[a..p];
          EndSlice(s[..p], a);
        } else {
          PastLast(s, p, a, b);
        }
      }
    }
  }

  lemma EmptyTotal()
    ensures Total("") == None
  {
  }

  // ---- some cut does -----------------------------------------------------------------------------

  /** The rest of `s` as one more chunk. */
  lemma RestNext(c: seq<Bytes>, s: Bytes, m: nat, x: nat)
    requires m <= x <= |s| && Whole(c) == s[..m]
    ensures Whole(c + [s[m..x]]) == s[..x]
    ensures var a := if m <= OVERLAP then 0 else m - OVERLAP; var late := Total(s[a..x]);
            Watched(c + [s[m..x]], []).total == if late.Some? then late else Watched(c, []).total
  {
    hide Total, Watched, Whole;
    TotalNext(c, s[m..x]);
    var a := if m <= OVERLAP then 0 else m - OVERLAP;
    assert s[..m] + s[m..x] == s[..x] && s[..x][a..] == s[a..x];
  }

  /** Two chunks, the second of whose windows starts past the total. */
  lemma CutShort(s: Bytes, p: nat, x: nat)
    requires LastStated(s, |s|) == Some(p) && p + OVERLAP < x <= |s| && Stated(s, p).value < x < StatedEnd(s, p)
    requires TotalAt(s, p) != 0
    ensures exists c :: Whole(c) == s && Watched(c, []).total != Some(TotalAt(s, p))
  {
    hide Stated, StatedEnd, TotalAt, Total, Watched, Whole, LastStated;
    LoneChunk(s[..x]);
    RestNext([s[..x]], s, x, |s|);
    PastLast(s, p, x - OVERLAP, |s|);
    CutDiffers(s, p, x);
    assert s[..|s|] == s;
    var c := [s[..x]] + [s[x..|s|]];
    assert Whole(c) == s && Watched(c, []).total != Some(TotalAt(s, p));
  }

  lemma CutDiffers(s: Bytes, p: nat, x: nat)
    requires LastStated(s, |s|) == Some(p) && Stated(s, p).value < x < StatedEnd(s, p) && TotalAt(s, p) != 0 && x <= |s|
    ensures Total(s[..x]).Some? && Total(s[..x]) != Some(TotalAt(s, p))
  {
    hide Stated, StatedEnd, Decimal, Total, LastStated;
    var d, e := Stated(s, p).value, StatedEnd(s, p);
    LastInSlice(s, p, 0, x);
    assert s[0..x] == s[..x] && s[d..e][..x - d] == s[d..x];
    DecimalPrefix(s[d..e], x - d);
  }

  /** Cut at its first digit, a total whose digits are far from its start is missed: what was recorded stays. */
  lemma CutAway(s: Bytes, p: nat, c: seq<Bytes>)
    requires LastStated(s, |s|) == Some(p) && Stated(s, p).value - p > OVERLAP && Whole(c) == s[..p]
    ensures exists c' :: Whole(c') == s && Watched(c', []).total == Watched(c, []).total
  {
    hide Stated, Total, Watched, Whole, LastStated, Changeable;
    DigitInside(s, p);
    var d := Stated(s, p).value;
    var a := if p <= OVERLAP then 0 else p - OVERLAP;
    RestNext(c, s, p, d);
    RestNext(c + [s[p..d]], s, d, |s|);
    NoDigitsYet(s, p, a, d);
    SuffixToo(s, p, a);
    ShownAgain(s[..p], a, c);
    PastLast(s, p, d - OVERLAP, |s|);
    assert s[..|s|] == s;
    var c' := c + [s[p..d]] + [s[d..|s|]];
    assert Whole(c') == s && Watched(c', []).total == Watched(c, []).total;
  }

  lemma SuffixToo(s: Bytes, p: nat, a: nat)
    requires a <= p <= |s|
    ensures s[..p][a..] == s[a..p]
  {
  }

  /** A total within the last 48 bytes of what was fed is already on record. */
  lemma ShownAgain(s: Bytes, a: nat, c: seq<Bytes>)
    requires Whole(c) == s && a == if |s| <= OVERLAP then 0 else |s| - OVERLAP
    ensures Total(s[a..]).Some? ==> Watched(c, []).total == Total(s[a..])
  {
    hide Stated, StatedEnd, Total, TotalAt, Watched, LastStated;
    EndSlice(s, a);
    if Total(s[a..]).Some? {
      EndWithin(s, LastStated(s, |s|).value);
      TotalIsChunkingFree(c, []);
    }
  }

  /** Which responses a cut can change, whatever totals they state: exactly the changeable ones. */
  lemma {:induction false} TotalLostExactlyWhen(s: Bytes)
    ensures (exists chunks :: Whole(chunks) == s && Watched(chunks, []).total != Total(s)) <==> Changeable(s)
    decreases |s|
  {
    hide Stated, StatedEnd, TotalAt, Watched, Whole, LastStated, SameCut, SameBefore;
    var last := LastStated(s, |s|);
    if last.None? || StatedEnd(s, last.value) - last.value <= OVERLAP + 1 {
      forall chunks | Whole(chunks) == s ensures Watched(chunks, []).total == Total(s) {
        TotalIsChunkingFree(chunks, []);
      }
    } else {
      LongLostExactlyWhen(s, last.value);
    }
  }

  lemma LongLostExactlyWhen(s: Bytes, p: nat)
    requires LastStated(s, |s|) == Some(p) && p < |s| && StatedEnd(s, p) - p > OVERLAP + 1
    ensures (exists chunks :: Whole(chunks) == s && Watched(chunks, []).total != Total(s)) <==> Changeable(s)
    decreases |s|, 0
  {
    hide Stated, StatedEnd, TotalAt, Watched, Whole, LastStated;
    var d, e, v := Stated(s, p).value, StatedEnd(s, p), TotalAt(s, p);
    DigitInside(s, p);
    EndWithin(s, p);
    TotalLostExactlyWhen(s[..p]);
    if !SameCut(s, p) {
      CutShort(s, p, if d > p + OVERLAP then d + 1 else p + OVERLAP + 1);
    } else if d - p > OVERLAP && Total(s[..p]) != Some(v) {
      LoneChunk(s[..p]);
      CutAway(s, p, [s[..p]]);
    } else if d - p > OVERLAP && Changeable(s[..p]) {
      var c :| Whole(c) == s[..p] && Watched(c, []).total != Total(s[..p]);
      CutAway(s, p, c);
    } else {
      if d - p > OVERLAP {
        forall c | Whole(c) == s[..p] ensures Watched(c, []).total == Total(s[..p]) {
        }
      }
      assert SameBefore(s, p);
      forall chunks | Whole(chunks) == s ensures Watched(chunks, []).total == Total(s) {
        NeverChanges(chunks, s, p);
      }
    }
  }

  lemma LoneChunk(s: Bytes)
    ensures Whole([s]) == s && Watched([s], []).total == Total(s)
  {
    hide Total, Watched, Whole;
    NothingYet();
    TotalNext([], s);
    assert [] + [s] == [s] && "" + s == s && s[0..] == s;
  }

  /** With one total only: 50 bytes or more, and not a zero whose first digit lies within 49 bytes of its start. */
  lemma LoneTotalChangeable(s: Bytes, p: nat)
    requires Stated(s, p).Some? && forall q: nat | Stated(s, q).Some? :: q == p
    ensures Changeable(s) <==> StatedEnd(s, p) - p > 49 && (Stated(s, p).value - p > 48 || TotalAt(s, p) != 0)
  {
    hide Stated, StatedEnd, TotalAt, Changeable;
    DigitInside(s, p);
    NoneBefore(s, p);
    ChangeableIs(s, p);
    EndWithin(s, p);
  }

  lemma ChangeableIs(s: Bytes, p: nat)
    requires LastStated(s, |s|) == Some(p)
    ensures p < |s| && Stated(s, p).Some?
    ensures var d, e, v := Stated(s, p).value, StatedEnd(s, p), TotalAt(s, p);
            Changeable(s) <==> e - p > OVERLAP + 1
                               && ((v != 0 && e > d + 1) || (d - p > OVERLAP && (Total(s[..p]) != Some(v) || Changeable(s[..p]))))
  {
    hide Stated, StatedEnd, TotalAt, Total;
  }

  lemma NoneBefore(s: Bytes, p: nat)
    requires Stated(s, p).Some? && p < |s| && forall q: nat | Stated(s, q).Some? :: q == p
    ensures LastStated(s, |s|) == Some(p) && Total(s[..p]) == None
  {
    hide Stated, StatedEnd, TotalAt;
    forall i: nat | i < p ensures Stated(s[..p], i).None? {
      assert s[0..p] == s[..p];
      if Stated(s[0..p], i).Some? { StatedInSlice(s, i, 0, p); }
    }
  }

  // ---- completion --------------------------------------------------------------------------

  lemma {:induction false} ProgressTracks(chunks: seq<Bytes>, markers: seq<Bytes>, whole: Bytes)
    requires Whole(chunks) <= whole
    ensures Tracks(Watched(chunks, markers).progress, Whole(chunks), whole)
  {
    hide Announces, WordsEnd;
    if chunks == [] {
      assert Whole(chunks) == "";
    } else {
      hide Tracks, Chunked;
      var before := chunks[..|chunks| - 1];
      ProgressTracks(before, markers, whole);
      FedTracks(Watched(before, markers).progress, Whole(before), chunks[|chunks| - 1], whole);
    }
  }

  lemma {:induction false} OnlyWhatWasSaid(chunks: seq<Bytes>, markers: seq<Bytes>)
    ensures var w := Watched(chunks, markers).progress; w.completed || w.pending ==> Said(Whole(chunks))
  {
    hide Said, Tracks, Chunked;
    if chunks != [] {
      var before := chunks[..|chunks| - 1];
      OnlyWhatWasSaid(before, markers);
      ProgressTracks(before, markers, Whole(before));
      TailKept(Watched(before, markers).progress, Whole(before));
      ChunkSaid(Watched(before, markers).progress, Whole(before), chunks[|chunks| - 1]);
    }
  }

  lemma TailKept(w: Progress, s: Bytes)
    requires Tracks(w, s, s)
    ensures w.completed || w.tail == Last(s[Complete(s)..], TAIL)
  {
  }

  /**
   A completion announced on a line of its own in words of at most 49 bytes (`Short`), in an event
   that a blank line ended, is never missed, however the stream is cut; completion is never reported
   before a blank line, nor unless the announcing words occurred; and the scanner never keeps more
   than 48 bytes of an event.
   */
  lemma CompletionNotMissed(chunks: seq<Bytes>, markers: seq<Bytes>)
    ensures var w, s := Watched(chunks, markers).progress, Whole(chunks);
            && ((exists p: nat :: Short(s, p) && p < Complete(s)) ==> w.completed)
            && (w.completed ==> Complete(s) > 0 && Said(s))
            && (!w.completed ==> |w.tail| <= 48)
  {
    hide Announces, Complete, Said;
    ProgressTracks(chunks, markers, Whole(chunks));
    OnlyWhatWasSaid(chunks, markers);
    var s := Whole(chunks);
    assert forall p: nat | Short(s, p) :: WordsEnd(s, p) <= |s|;
  }

  /** An announcing `event:` line that a blank line follows is noticed, however it is cut, with up to 25 blanks before the name. */
  lemma EventLineNoticed(before: Bytes, a: Bytes, b: Bytes, e: Bytes, f: Bytes, after: Bytes, chunks: seq<Bytes>, markers: seq<Bytes>)
    requires (before == "" || before[|before| - 1] == '\n') && Blanks(a) && Blanks(b) && |a| <= 25 && LineEnd(e) && LineEnd(f)
    requires Whole(chunks) == before + EventLine(a, b, e, f) + after
    ensures Watched(chunks, markers).progress.completed
  {
    hide EventLine, Blanks, Announces, WordsEnd, Complete, Watched, Whole, LiesAt, Said, LineEnd, LineStart;
    var s := before + EventLine(a, b, e, f) + after;
    assert s == before + (EventLine(a, b, e, f) + after);
    LineStarts(before, EventLine(a, b, e, f) + after);
    LiesInside(before, EventLine(a, b, e, f), after);
    EventSpelled(s, |before|, a, b, e, f);
    assert Short(s, |before|);
    CompletionNotMissed(chunks, markers);
  }

  /** So is the head of an announcing `data:` line, with up to 16 blanks in it, once any blank line follows. */
  lemma DataLineNoticed(before: Bytes, a: Bytes, b: Bytes, c: Bytes, d: Bytes, rest: Bytes, e: Bytes, f: Bytes, after: Bytes,
                        chunks: seq<Bytes>, markers: seq<Bytes>)
    requires (before == "" || before[|before| - 1] == '\n') && Blanks(a) && Blanks(b) && Blanks(c) && Blanks(d) && |a| + |b| + |c| + |d| <= 16
    requires LineEnd(e) && LineEnd(f) && Whole(chunks) == before + DataHead(a, b, c, d) + rest + (e + f) + after
    ensures Watched(chunks, markers).progress.completed
  {
    hide Watched, Whole, Blanks, Said;
    var head := DataHead(a, b, c, d);
    DataHeadLength(a, b, c, d);
    hide DataHead, Complete, Announces, Blank, LineEnd;
    var s := before + head + rest + (e + f) + after;
    assert s == before + head + (rest + (e + f) + after);
    assert s == (before + head + rest) + (e + f) + after;
    DataShort(before, a, b, c, d, rest + (e + f) + after);
    LiesInside(before + head + rest, e + f, after);
    BlankLineEnds(s, |before + head + rest|, e, f);
    LineEndHolds(e);
    CompletionNotMissed(chunks, markers);
  }

  lemma LineEndHolds(e: Bytes)
    requires LineEnd(e)
    ensures |e| >= 1
  {
  }

  lemma DataShort(before: Bytes, a: Bytes, b: Bytes, c: Bytes, d: Bytes, after: Bytes)
    requires (before == "" || before[|before| - 1] == '\n') && Blanks(a) && Blanks(b) && Blanks(c) && Blanks(d) && |a| + |b| + |c| + |d| <= 16
    ensures Short(before + DataHead(a, b, c, d) + after, |before|)
  {
    var head := DataHead(a, b, c, d);
    DataHeadLength(a, b, c, d);
    hide DataHead, Blanks, Announces, LineStart, LiesAt, DataWords;
    var s := before + head + after;
    assert s == before + (head + after);
    LineStarts(before, head + after);
    LiesInside(before, head, after);
    DataSpelled(s, |before|, a, b, c, d);
    DataEnds(s, |before|);
  }

  /**
   The converse depends on the cut: a line that merely begins with the announcing words counts as an
   announcement when a chunk happens to end right after them, and not when it arrives in one piece.
   */
  lemma CompletionInvented(markers: seq<Bytes>)
    ensures var said := "event: response.completed";
            && Watched([said, "X\n\n"], markers).progress.completed
            && !Watched([said + "X\n\n"], markers).progress.completed
  {
    var said := "event: response.completed";
    hide Announced, Watched;
    SaidSoFar();
    OnlyBegun();
    assert said + "X" == "event: response.completedX";
    assert forall i | 0 <= i < |said + "X"| :: Plain((said + "X")[i]);
    InventedBy(said, "X", markers);
    assert "X" + "\n\n" == "X\n\n" && said + "X" + "\n\n" == said + "X\n\n";
  }

  lemma InventedBy(said: Bytes, more: Bytes, markers: seq<Bytes>)
    requires Announced(said) && !Announced(said + more) && |said| <= 48 && forall i | 0 <= i < |said + more| :: Plain((said + more)[i])
    ensures Watched([said, more + "\n\n"], markers).progress.completed
    ensures !Watched([said + more + "\n\n"], markers).progress.completed
  {
    FramesLine(NEW.progress, said, more);
    hide Announced, Framed, Chunked, Watched, Plain;
    ProgressOf(said, more + "\n\n", markers);
    ProgressOf(said + more + "\n\n", "", markers);
  }

  lemma ProgressOf(a: Bytes, b: Bytes, markers: seq<Bytes>)
    ensures Watched([a], markers).progress == Chunked(NEW.progress, a)
    ensures Watched([a, b], markers).progress == Chunked(Chunked(NEW.progress, a), b)
  {
    hide Chunked, Total, Refused;
    assert [a, b][..1] == [a] && [a][..0] == [];
  }

  /** A short beginning of a line, then the rest of it, or all at once. */
  lemma FramesLine(p: Progress, a: Bytes, b: Bytes)
    requires p == NEW.progress && |a| <= 48 && forall i | 0 <= i < |a + b| :: Plain((a + b)[i])
    ensures Chunked(p, a) == Progress(false, Announced(a), a)
    ensures Chunked(p, a + b + "\n\n").completed == Announced(a + b)
    ensures Chunked(Chunked(p, a), b + "\n\n").completed == (Announced(a) || Announced(a + b))
  {
    assert forall i | 0 <= i < |a| :: a[i] == (a + b)[i];
    OneLine(a);
    OneLine(a + b);
    assert "" + a == a && "" + (a + b + "\n\n") == a + b + "\n\n" && a + (b + "\n\n") == a + b + "\n\n";
    hide Announced, FirstBlank, EventEnd, BlankEnd;
    FramesEnd(Progress(false, Announced(a), a), a + b);
    FramesEnd(p, a + b);
  }

  lemma FramesEnd(p: Progress, line: Bytes)
    requires forall i | 0 <= i < |line| :: Plain(line[i])
    ensures Framed(p, line + "\n\n").completed == (p.completed || p.pending || Announced(line))
  {
    OneLine(line);
    hide Announced, FirstBlank, EventEnd, BlankEnd;
    assert Framed(Progress(p.completed || p.pending || Announced(line), false, ""), "").completed == (p.completed || p.pending || Announced(line));
  }

  lemma OneLine(line: Bytes)
    requires forall i | 0 <= i < |line| :: Plain(line[i])
    ensures FirstBlank(line, 0) == None
    ensures FirstBlank(line + "\n\n", 0) == Some(|line|) && EventEnd(line + "\n\n", |line|) == |line| && BlankEnd(line + "\n\n", |line|) == |line| + 2
    ensures (line + "\n\n")[..|line|] == line && (line + "\n\n")[|line| + 2..] == "" && FirstBlank("", 0) == None
  {
    var s := line + "\n\n";
    assert forall i | 0 <= i < |line| :: s[i] == line[i];
    assert Blank(s, |line|);
  }

  lemma SaidSoFar()
    ensures Announced("event: response.completed")
  {
    var s := "event: response.completed";
    assert s == EVENT + " " + DONE;
    assert LiesAt(s, 0, EVENT + " " + DONE);
    AfterLies(s, 0, EVENT, " ", DONE);
    LyingStarts(s, 7, DONE);
    hide After, Skip, StartsAt;
    assert EventWords(s, 0) == Some(25);
    assert LineEnds(s, 25) by { SkipIs(s, 25, BLANKS, 25); }
    assert Announces(s, 0);
  }

  lemma OnlyBegun()
    ensures !Announced("event: response.completedX")
  {
    var s := "event: response.completedX";
    assert forall i | 0 <= i < |s| :: s[i] != '\n';
    EndsOtherwise();
    hide EventWords, DataWords, LineEnds;
    assert forall p: nat | 0 < p <= |s| :: !LineStart(s, p);
  }

  lemma EndsOtherwise()
    ensures var s := "event: response.completedX"; EventWords(s, 0) == Some(25) && !LineEnds(s, 25) && DataWords(s, 0) == None
  {
    var s := "event: response.completedX";
    assert s == EVENT + " " + (DONE + "X");
    assert LiesAt(s, 0, EVENT + " " + (DONE + "X"));
    AfterLies(s, 0, EVENT, " ", DONE + "X");
    LiesApart(s, 7, DONE, "X");
    LyingStarts(s, 7, DONE);
    Initial(s, 0, DATA);
    SkipIs(s, 25, BLANKS, 25);
    hide After, Skip, StartsAt;
  }

  /** A reported completion is not taken back. */
  lemma CompletionStays(chunks: seq<Bytes>, chunk: Bytes, markers: seq<Bytes>)
    ensures Watched(chunks, markers).progress.completed ==> Watched(chunks + [chunk], markers).progress.completed
  {
    assert (chunks + [chunk])[..|chunks|] == chunks;
  }

  /** The first marker found decides: it names an error unless it is empty. */
  lemma FirstFound(s: Bytes, markers: seq<Bytes>, i: nat)
    requires i < |markers| && Contains(s, markers[i]) && forall k | 0 <= k < i :: !Contains(s, markers[k])
    ensures Refused(s, markers) <==> markers[i] != ""
  {
    forall k | 0 <= k < i ensures markers[k] != "" {
      assert StartsAt(s, 0, "");
    }
    hide Contains;
    if markers[i] != "" { assert Heeded(markers, i); }
  }

  // ---- the scanner as it runs -----------------------------------------------------------------

  class Watcher {
    var overlap: Bytes
    var rateLimited: bool
    var totalTokens: Option<nat>
    var completed: bool
    var tail: Bytes
    var pending: bool

    function View(): Watch reads this { Watch(overlap, rateLimited, totalTokens, Progress(completed, pending, tail)) }

    constructor ()
      ensures View() == NEW
    {
      overlap, rateLimited, totalTokens, completed, tail, pending := "", false, None, false, "", false;
    }

    method Matches(window: Bytes, markers: seq<Bytes>) returns (found: bool)
      ensures found == Refused(window, markers)
    {
      for i := 0 to |markers|
        invariant forall k | 0 <= k < i :: !Contains(window, markers[k])
      {
        if Contains(window, markers[i]) {
          FirstFound(window, markers, i);
          return markers[i] != "";
        }
      }
      found := false;
    }

    /** The completion half of `feed`: confirm at each delimiter, keep a bounded rest. */
    method Frame(chunk: Bytes)
      modifies this`completed, this`pending, this`tail
      ensures Progress(completed, pending, tail) == Chunked(old(Progress(completed, pending, tail)), chunk)
    {
      if completed { return; }
      hide Announced, Blank, EventEnd;
      var rest := tail + chunk;
      var q := FirstBlank(rest, 0);
      TailIrrelevant(Progress(completed, pending, tail), rest);
      while q.Some?
        invariant q == FirstBlank(rest, 0)
        invariant Framed(Progress(completed, pending, ""), rest) == Framed(old(Progress(completed, pending, tail)), old(tail) + chunk)
        decreases |rest|
      {
        if pending || Announced(rest[..EventEnd(rest, q.value)]) { completed := true; }
        pending := false;
        rest := rest[BlankEnd(rest, q.value)..];
        q := FirstBlank(rest, 0);
      }
      pending := pending || Announced(rest);
      tail := Last(rest, TAIL);
    }

    /** `feed`: true on the chunk that first reveals a rate limit. */
    method Feed(chunk: Bytes, markers: seq<Bytes>) returns (found: bool)
      modifies this
      ensures View() == Fed(old(View()), chunk, markers)
      ensures found == (rateLimited && !old(rateLimited))
    {
      hide Refused, Total, Chunked;
      var window := overlap + chunk;
      found := false;
      if !rateLimited {
        found := Matches(window, markers);
        rateLimited := found;
      }
      var total := ReadTotal(window);
      if total.Some? { totalTokens := total; }
      Frame(chunk);
      overlap := Last(window, OVERLAP);
    }
  }

  /**
   A streamed response and the same response buffered: after the last chunk the watcher has found
   what one look at the whole body finds (`_relay`), and raised its alarm at most once.
   */
  method Watch200(chunks: seq<Bytes>, markers: seq<Bytes>) returns (watch: Watcher, alarms: nat)
    requires Scannable(markers)
    requires var s := Whole(chunks); var p := LastStated(s, |s|); p.Some? ==> StatedEnd(s, p.value) - p.value <= 49
    ensures fresh(watch)
    ensures watch.rateLimited <==> Refused(Whole(chunks), markers)
    ensures alarms == if Refused(Whole(chunks), markers) then 1 else 0
    ensures watch.totalTokens == Total(Whole(chunks)) == Watched(chunks, markers).total
    ensures (exists p: nat :: Short(Whole(chunks), p) && p < Complete(Whole(chunks))) ==> watch.completed
  {
    watch := new Watcher();
    alarms := 0;
    hide Fed, Refused, Total, LastStated, StatedEnd, Short, Complete;
    for i := 0 to |chunks|
      invariant fresh(watch) && watch.View() == Watched(chunks[..i], markers) && alarms == Alarms(chunks[..i], markers)
    {
      assert chunks[..i + 1][..i] == chunks[..i];
      var found := watch.Feed(chunks[i], markers);
      if found { alarms := alarms + 1; }
    }
    assert chunks[..|chunks|] == chunks;
    RefusalIsChunkingFree(chunks, markers);
    TotalIsChunkingFree(chunks, markers);
    CompletionNotMissed(chunks, markers);
  }
}
