/**
 Blank-line event framing (LF or CRLF, section 9.2 of the WHATWG HTML standard) of a stream cut
 anywhere, and the announcement that a response is complete.
 */
module Framing {
  import opened Prelude
  import opened Scan

  // ---- delimiters ---------------------------------------------------------------------

  /** A blank line follows the line that ends at `p`. */
  predicate Blank(s: Bytes, p: nat) {
    p < |s| && s[p] == '\n'
    && ((p + 1 < |s| && s[p + 1] == '\n') || (p + 2 < |s| && s[p + 1] == '\r' && s[p + 2] == '\n'))
  }

  function BlankEnd(s: Bytes, p: nat): (e: nat)
    requires Blank(s, p)
    ensures p + 2 <= e <= MinNat(p + 3, |s|) && s[e - 1] == '\n'
  {
    if s[p + 1] == '\n' then p + 2 else p + 3
  }

  /** The first one at or after `p`. */
  function FirstBlank(s: Bytes, p: nat): (q: Option<nat>)
    requires p <= |s|
    ensures q.Some? ==> p <= q.value && Blank(s, q.value) && forall i: nat | p <= i < q.value :: !Blank(s, i)
    ensures q.None? ==> forall i: nat | p <= i :: !Blank(s, i)
    decreases |s| - p
  {
    if p == |s| then None else if Blank(s, p) then Some(p) else FirstBlank(s, p + 1)
  }

  /** The event before the delimiter: a carriage return belongs to its line's end. */
  function EventEnd(s: Bytes, p: nat): (q: nat)
    requires p <= |s|
    ensures q <= p
  {
    if p > 0 && p <= |s| && s[p - 1] == '\r' then p - 1 else p
  }

  /** Where the last complete event of `s` ends. */
  function Complete(s: Bytes): (e: nat)
    ensures e <= |s|
    decreases |s|
  {
    var p := FirstBlank(s, 0);
    if p.None? then 0 else BlankEnd(s, p.value) + Complete(s[BlankEnd(s, p.value)..])
  }

  // ---- announcements -------------------------------------------------------------------

  const EVENT := "event:"
  const DONE := "response.completed"
  const DATA := "data:"
  const OPEN := "{"
  const TYPE := "\"type\""
  const COLON := ":"
  const QUOTED := "\"response.completed\""

  /** The end of the announcing words of an `event:` line. */
  function EventWords(s: Bytes, p: nat): (e: Option<nat>)
    ensures e.Some? ==> p < e.value <= |s|
  {
    var a := After(s, p, EVENT, BLANKS);
    if a.Some? && StartsAt(s, a.value, DONE) then Some(a.value + |DONE|) else None
  }

  /** The end of the announcing words of a `data:` line. */
  function DataWords(s: Bytes, p: nat): (e: Option<nat>)
    ensures e.Some? ==> p < e.value <= |s|
  {
    var a := After(s, p, DATA, BLANKS);
    var b := if a.Some? then After(s, a.value, OPEN, BLANKS) else None;
    var c := if b.Some? then After(s, b.value, TYPE, BLANKS) else None;
    var d := if c.Some? then After(s, c.value, COLON, BLANKS) else None;
    if d.Some? && StartsAt(s, d.value, QUOTED) then Some(d.value + |QUOTED|) else None
  }

  /** Nothing but blanks and one carriage return between `p` and the end of the line or of `s`. */
  predicate LineEnds(s: Bytes, p: nat)
    requires p <= |s|
  {
    var b := Skip(s, p, BLANKS);
    var r := if b < |s| && s[b] == '\r' then b + 1 else b;
    r == |s| || s[r] == '\n'
  }

  predicate LineStart(s: Bytes, p: nat) { p == 0 || (p <= |s| && s[p - 1] == '\n') }

  /** `_COMPLETED_EVENT` matches at `p`. */
  predicate Announces(s: Bytes, p: nat) {
    LineStart(s, p)
    && ((EventWords(s, p).Some? && LineEnds(s, EventWords(s, p).value)) || DataWords(s, p).Some?)
  }

  /** `_COMPLETED_EVENT.search`. */
  predicate Announced(s: Bytes) { exists p :: 0 <= p <= |s| && Announces(s, p) }

  // ---- the scanner -------------------------------------------------------------------------

  const TAIL := 48

  datatype Progress = Progress(completed: bool, pending: bool, tail: Bytes)

  /** The events of `s` one after another, then what is left of it. */
  function Framed(p: Progress, s: Bytes): Progress
    decreases |s|
  {
    var q := FirstBlank(s, 0);
    if q.None? then Progress(p.completed, p.pending || Announced(s), Last(s, TAIL))
    else Framed(Progress(p.completed || p.pending || Announced(s[..EventEnd(s, q.value)]), false, ""), s[BlankEnd(s, q.value)..])
  }

  lemma TailIrrelevant(p: Progress, s: Bytes)
    ensures Framed(p, s) == Framed(p.(tail := ""), s)
  {
  }

  /** One chunk: the events that end in it, with the kept tail in front. */
  function Chunked(p: Progress, chunk: Bytes): Progress { if p.completed then p else Framed(p, p.tail + chunk) }

  // ---- framing does not depend on chunking ------------------------------------------------------

  lemma BlankAppend(s: Bytes, t: Bytes, i: nat)
    ensures Blank(s, i) ==> Blank(s + t, i) && BlankEnd(s + t, i) == BlankEnd(s, i)
    ensures i + 2 < |s| && Blank(s + t, i) ==> Blank(s, i)
  {
  }

  /** The first delimiter of a prefix is the first of the whole. */
  lemma FirstStays(s: Bytes, t: Bytes)
    requires FirstBlank(s, 0).Some?
    ensures FirstBlank(s + t, 0) == FirstBlank(s, 0)
  {
    var q := FirstBlank(s, 0).value;
    BlankAppend(s, t, q);
    var r := FirstBlank(s + t, 0).value;
    if r < q { BlankAppend(s, t, r); assert false; }
  }

  lemma {:induction false} CompleteAppend(s: Bytes, t: Bytes)
    ensures Complete(s + t) == Complete(s) + Complete(s[Complete(s)..] + t)
    decreases |s|
  {
    var q := FirstBlank(s, 0);
    if q.None? {
      assert s[0..] == s;
    } else {
      FirstStays(s, t);
      BlankAppend(s, t, q.value);
      var e := BlankEnd(s, q.value);
      assert (s + t)[e..] == s[e..] + t;
      CompleteAppend(s[e..], t);
      assert s[e..][Complete(s[e..])..] == s[Complete(s)..];
    }
  }

  lemma {:induction false} RestHasNone(s: Bytes)
    ensures FirstBlank(s[Complete(s)..], 0).None?
    ensures Complete(s) > 0 ==> s[Complete(s) - 1] == '\n'
    decreases |s|
  {
    var q := FirstBlank(s, 0);
    if q.None? {
      assert s[0..] == s;
    } else {
      var e := BlankEnd(s, q.value);
      RestHasNone(s[e..]);
      assert s[e..][Complete(s[e..])..] == s[Complete(s)..];
      assert Complete(s[e..]) > 0 ==> s[e..][Complete(s[e..]) - 1] == s[Complete(s) - 1];
    }
  }

  /** What is left of `r` between chunks. */
  function Trimmed(r: Bytes): (k: nat)
    ensures k <= |r|
  {
    |r| - |Last(r, TAIL)|
  }

  lemma TrimIsSlice(r: Bytes, t: Bytes)
    ensures (r + t)[Trimmed(r)..] == Last(r, TAIL) + t
    ensures Trimmed(r) > 0 ==> Trimmed(r) + TAIL == |r|
  {
  }

  lemma TrimmedIs(r: Bytes)
    ensures Trimmed(r) == if |r| <= TAIL then 0 else |r| - TAIL
  {
  }

  lemma TrimBlanks(r: Bytes, t: Bytes, i: nat)
    requires FirstBlank(r, 0).None?
    ensures Blank(Last(r, TAIL) + t, i) <==> Blank(r + t, Trimmed(r) + i)
    ensures i < Trimmed(r) ==> !Blank(r + t, i)
  {
    TrimIsSlice(r, t);
    BlankAppend(r, t, i);
    var u, v := r + t, Last(r, TAIL) + t;
    assert forall j | 0 <= j < |v| :: v[j] == u[Trimmed(r) + j];
  }

  lemma FirstIs(s: Bytes, q: nat)
    requires Blank(s, q) && forall i: nat | i < q :: !Blank(s, i)
    ensures FirstBlank(s, 0) == Some(q)
  {
  }

  lemma TrimFirst(r: Bytes, t: Bytes)
    requires FirstBlank(r, 0).None?
    ensures var q := FirstBlank(Last(r, TAIL) + t, 0);
            FirstBlank(r + t, 0) == if q.Some? then Some(Trimmed(r) + q.value) else None
  {
    var u, v := r + t, Last(r, TAIL) + t;
    forall i: nat ensures (Blank(v, i) <==> Blank(u, Trimmed(r) + i)) && (i < Trimmed(r) ==> !Blank(u, i)) {
      TrimBlanks(r, t, i);
    }
    hide Blank;
    var q := FirstBlank(v, 0);
    if q.Some? {
      assert Blank(u, Trimmed(r) + q.value);
      forall i: nat | i < Trimmed(r) + q.value ensures !Blank(u, i) {
        if i >= Trimmed(r) { assert !Blank(v, i - Trimmed(r)); }
      }
      FirstIs(u, Trimmed(r) + q.value);
    } else {
      forall i: nat ensures !Blank(u, i) {
        if i >= Trimmed(r) { assert !Blank(v, i - Trimmed(r)); }
      }
    }
  }

  lemma SuffixBlankEnd(u: Bytes, v: Bytes, k: nat, q: nat)
    requires k <= |u| && u[k..] == v && Blank(v, q) && Blank(u, k + q)
    ensures BlankEnd(u, k + q) == k + BlankEnd(v, q)
    ensures u[BlankEnd(u, k + q)..] == v[BlankEnd(v, q)..]
  {
    assert forall j | 0 <= j < |v| :: v[j] == u[k + j];
  }

  lemma CompleteStep(s: Bytes)
    ensures FirstBlank(s, 0).None? ==> Complete(s) == 0 && s[Complete(s)..] == s
    ensures FirstBlank(s, 0).Some? ==>
              var e := BlankEnd(s, FirstBlank(s, 0).value);
              Complete(s) == e + Complete(s[e..]) && s[Complete(s)..] == s[e..][Complete(s[e..])..]
  {
    hide FirstBlank;
  }

  /** Dropping the head of an unfinished event, all but its last 48 bytes, hides no delimiter. */
  lemma TrimKeepsFraming(r: Bytes, t: Bytes)
    requires FirstBlank(r, 0).None?
    ensures var u, v := r + t, Last(r, TAIL) + t;
            && Complete(u) == (if Complete(v) == 0 then 0 else Trimmed(r) + Complete(v))
            && Last(u[Complete(u)..], TAIL) == Last(v[Complete(v)..], TAIL)
  {
    hide Blank, BlankEnd, Trimmed, Last, Complete, FirstBlank;
    TrimIsSlice(r, t);
    TrimFirst(r, t);
    var u, v := r + t, Last(r, TAIL) + t;
    var q := FirstBlank(v, 0);
    CompleteStep(u);
    CompleteStep(v);
    if q.Some? {
      SuffixBlankEnd(u, v, Trimmed(r), q.value);
    } else {
      SameEnd(r, t);
    }
  }

  lemma SameEnd(r: Bytes, t: Bytes)
    ensures Last(r + t, TAIL) == Last(Last(r, TAIL) + t, TAIL)
  {
  }

  lemma {:induction false} FramedTail(p: Progress, s: Bytes)
    ensures Framed(p, s).tail == Last(s[Complete(s)..], TAIL)
    ensures p.completed ==> Framed(p, s).completed
    ensures Framed(p, s).completed && !p.completed ==> Complete(s) > 0
    ensures p.pending && Complete(s) > 0 ==> Framed(p, s).completed
    ensures p.pending && Complete(s) == 0 ==> Framed(p, s).pending
    decreases |s|
  {
    hide Announced;
    var q := FirstBlank(s, 0);
    if q.None? {
      assert s[0..] == s;
    } else {
      var e := BlankEnd(s, q.value);
      FramedTail(Progress(p.completed || p.pending || Announced(s[..EventEnd(s, q.value)]), false, ""), s[e..]);
      assert s[e..][Complete(s[e..])..] == s[Complete(s)..];
    }
  }

  // ---- an announcement in a slice ------------------------------------------------------------------

  /** Where the announcing words at `p` end. */
  function WordsEnd(s: Bytes, p: nat): (c: nat)
    requires Announces(s, p)
    ensures p < c <= |s|
  {
    if EventWords(s, p).Some? && LineEnds(s, EventWords(s, p).value) then EventWords(s, p).value else DataWords(s, p).value
  }

  /** Some of the text from before the words' start to after their end announces the same. */
  lemma AnnounceSlice(s: Bytes, p: nat, a: nat, b: nat)
    requires Announces(s, p) && a <= p && WordsEnd(s, p) <= b <= |s|
    ensures Announces(s[a..b], p - a)
  {
    hide EventWords, DataWords, LineEnds;
    var t := s[a..b];
    assert p > a ==> t[p - a - 1] == s[p - 1];
    if EventWords(s, p).Some? && LineEnds(s, EventWords(s, p).value) {
      EventSlice(s, p, a, b);
      LineEndSlice(s, EventWords(s, p).value, a, b);
    } else {
      DataSlice(s, p, a, b);
    }
  }

  lemma EventSlice(s: Bytes, p: nat, a: nat, b: nat)
    requires EventWords(s, p).Some? && a <= p && EventWords(s, p).value <= b <= |s|
    ensures EventWords(s[a..b], p - a) == Some(EventWords(s, p).value - a)
  {
    hide After, EVENT, BLANKS, StartsAt;
    AfterSlice(s, p, EVENT, BLANKS, a, b);
    StartsSlice(s, After(s, p, EVENT, BLANKS).value, DONE, a, b);
  }

  lemma DataSlice(s: Bytes, p: nat, a: nat, b: nat)
    requires DataWords(s, p).Some? && a <= p && DataWords(s, p).value <= b <= |s|
    ensures DataWords(s[a..b], p - a) == Some(DataWords(s, p).value - a)
  {
    hide After, DATA, OPEN, TYPE, COLON, BLANKS, StartsAt;
    var i := After(s, p, DATA, BLANKS).value;
    var j := After(s, i, OPEN, BLANKS).value;
    var k := After(s, j, TYPE, BLANKS).value;
    AfterSlice(s, p, DATA, BLANKS, a, b);
    AfterSlice(s, i, OPEN, BLANKS, a, b);
    AfterSlice(s, j, TYPE, BLANKS, a, b);
    AfterSlice(s, k, COLON, BLANKS, a, b);
    StartsSlice(s, After(s, k, COLON, BLANKS).value, QUOTED, a, b);
  }

  lemma LineEndSlice(s: Bytes, p: nat, a: nat, b: nat)
    requires a <= p <= b <= |s| && LineEnds(s, p)
    ensures LineEnds(s[a..b], p - a)
  {
    var t := s[a..b];
    var k := Skip(s, p, BLANKS);
    assert forall i | p <= i < MinNat(k, b) :: t[i - a] == s[i];
    if k < b {
      assert t[k - a] == s[k];
      SkipIs(t, p - a, BLANKS, k - a);
      assert k + 1 < b ==> t[k + 1 - a] == s[k + 1];
    } else {
      SkipIs(t, p - a, BLANKS, b - a);
    }
  }

  predicate Plain(c: char) { c != '\n' && c != '\r' }

  lemma PlainAfter(s: Bytes, p: nat, literal: Bytes)
    requires After(s, p, literal, BLANKS).Some? && forall k | 0 <= k < |literal| :: Plain(literal[k])
    ensures forall i | p <= i < After(s, p, literal, BLANKS).value :: Plain(s[i])
  {
    PlainLiteral(s, p, literal);
  }

  lemma PlainLiteral(s: Bytes, p: nat, literal: Bytes)
    requires StartsAt(s, p, literal) && forall k | 0 <= k < |literal| :: Plain(literal[k])
    ensures forall i | p <= i < p + |literal| :: Plain(s[i])
  {
    Spelled(s, p, literal);
    forall i | p <= i < p + |literal| ensures Plain(s[i]) {
      var k := i - p;
      assert s[p + k] == literal[k];
    }
  }

  /** The announcing words lie within one line. */
  lemma WordsPlain(s: Bytes, p: nat)
    requires Announces(s, p)
    ensures forall i | p <= i < WordsEnd(s, p) :: Plain(s[i])
  {
    hide Plain;
    if EventWords(s, p).Some? && LineEnds(s, EventWords(s, p).value) {
      LiteralsPlain();
      PlainAfter(s, p, EVENT);
      PlainLiteral(s, After(s, p, EVENT, BLANKS).value, DONE);
    } else {
      DataPlain(s, p);
    }
  }

  lemma DataPlain(s: Bytes, p: nat)
    requires DataWords(s, p).Some?
    ensures forall i | p <= i < DataWords(s, p).value :: Plain(s[i])
  {
    LiteralsPlain();
    hide Plain, After, DATA, OPEN, TYPE, COLON, QUOTED, StartsAt;
    var i := After(s, p, DATA, BLANKS).value;
    var j := After(s, i, OPEN, BLANKS).value;
    var k := After(s, j, TYPE, BLANKS).value;
    PlainAfter(s, p, DATA);
    PlainAfter(s, i, OPEN);
    PlainAfter(s, j, TYPE);
    PlainAfter(s, k, COLON);
    PlainLiteral(s, After(s, k, COLON, BLANKS).value, QUOTED);
  }

  lemma LiteralsPlain()
    ensures forall k | 0 <= k < |EVENT| :: Plain(EVENT[k])
    ensures forall k | 0 <= k < |DONE| :: Plain(DONE[k])
    ensures forall k | 0 <= k < |DATA| :: Plain(DATA[k])
    ensures forall k | 0 <= k < |OPEN| :: Plain(OPEN[k])
    ensures forall k | 0 <= k < |TYPE| :: Plain(TYPE[k])
    ensures forall k | 0 <= k < |COLON| :: Plain(COLON[k])
    ensures forall k | 0 <= k < |QUOTED| :: Plain(QUOTED[k])
  {
  }

  // ---- nothing announced is missed --------------------------------------------------------------------

  /** Announcing words lie before a delimiter or after it. */
  lemma WordsBeforeBlank(s: Bytes, o: nat, q: nat)
    requires Announces(s, o) && Blank(s, q)
    ensures if o < q then WordsEnd(s, o) <= EventEnd(s, q) else o >= BlankEnd(s, q)
  {
    WordsPlain(s, o);
    hide Announces, WordsEnd;
    assert Plain(s[o]) && !Plain(s[q]);
    assert WordsEnd(s, o) <= |s|;
  }

  /** The scanner behind the first event of `s`. */
  function PastEvent(p: Progress, s: Bytes): Progress
    requires FirstBlank(s, 0).Some?
  {
    Progress(p.completed || p.pending || Announced(s[..EventEnd(s, FirstBlank(s, 0).value)]), false, "")
  }

  lemma FramedStep(p: Progress, s: Bytes)
    ensures var q := FirstBlank(s, 0);
            if q.None? then Framed(p, s) == Progress(p.completed, p.pending || Announced(s), Last(s, TAIL))
            else Framed(p, s) == Framed(PastEvent(p, s), s[BlankEnd(s, q.value)..])
  {
    hide FirstBlank, Announced;
  }

  lemma AnnouncedAt(s: Bytes, o: nat)
    requires Announces(s, o)
    ensures Announced(s)
  {
    assert WordsEnd(s, o) <= |s|;
  }

  /** One scan notes every announcement in it: at once, or when its event ends. */
  lemma {:induction false} ScanNotes(p: Progress, s: Bytes, o: nat)
    requires Announces(s, o)
    ensures Framed(p, s).completed || (Framed(p, s).pending && o >= Complete(s))
    decreases |s|
  {
    hide Announces, WordsEnd, Framed, Complete, FirstBlank, Announced, Blank, BlankEnd, EventEnd, Last;
    FramedStep(p, s);
    CompleteStep(s);
    var q := FirstBlank(s, 0);
    if q.None? {
      AnnouncedAt(s, o);
    } else {
      WordsBeforeBlank(s, o, q.value);
      var e := BlankEnd(s, q.value);
      if o < q.value {
        AnnounceSlice(s, o, 0, EventEnd(s, q.value));
        assert s[0..EventEnd(s, q.value)] == s[..EventEnd(s, q.value)];
        AnnouncedAt(s[..EventEnd(s, q.value)], o);
        FramedTail(PastEvent(p, s), s[e..]);
      } else {
        AnnounceSlice(s, o, e, |s|);
        assert s[e..|s|] == s[e..];
        ScanNotes(PastEvent(p, s), s[e..], o - e);
      }
    }
  }

  /** The words are short enough to survive in the tail. */
  predicate Short(s: Bytes, p: nat) { Announces(s, p) && WordsEnd(s, p) - p <= 49 }

  /** The scanner's state after `s`, as far as announcements of the whole stream go. */
  ghost predicate Tracks(w: Progress, s: Bytes, whole: Bytes) {
    && s <= whole
    && (w.completed ==> Complete(s) > 0)
    && (!w.completed ==>
          && w.tail == Last(s[Complete(s)..], TAIL)
          && forall p: nat | Short(whole, p) && WordsEnd(whole, p) <= |s| :: w.pending && p >= Complete(s))
  }

  /** The unfinished event at the end of `s`. */
  function Unfinished(s: Bytes): Bytes { s[Complete(s)..] }

  lemma ChunkEnds(s: Bytes, chunk: Bytes)
    ensures Complete(s + chunk) == Complete(s) + Complete(Unfinished(s) + chunk)
    ensures Unfinished(s + chunk) == Unfinished(Unfinished(s) + chunk)
  {
    CompleteAppend(s, chunk);
    hide Complete;
    SuffixOf(s, Complete(s), chunk, Complete(Unfinished(s) + chunk));
  }

  lemma ChunkTrims(s: Bytes, chunk: Bytes)
    ensures var r := Unfinished(s); var u, v := r + chunk, Last(r, TAIL) + chunk;
            && Complete(u) == (if Complete(v) == 0 then 0 else Trimmed(r) + Complete(v))
            && Last(Unfinished(u), TAIL) == Last(Unfinished(v), TAIL)
            && u[Trimmed(r)..] == v
  {
    RestHasNone(s);
    hide Complete, FirstBlank, Last, Trimmed;
    TrimKeepsFraming(Unfinished(s), chunk);
    TrimIsSlice(Unfinished(s), chunk);
  }

  /** The ends of events found from the kept tail and the next chunk are those of the whole stream. */
  lemma ChunkFrames(s: Bytes, chunk: Bytes)
    ensures var v := Last(s[Complete(s)..], TAIL) + chunk; var a := Complete(s) + Trimmed(s[Complete(s)..]);
            && v == (s + chunk)[a..]
            && Complete(s + chunk) == (if Complete(v) == 0 then Complete(s) else a + Complete(v))
            && Last((s + chunk)[Complete(s + chunk)..], TAIL) == Last(v[Complete(v)..], TAIL)
  {
    hide Last, Trimmed, FirstBlank, Complete;
    ChunkEnds(s, chunk);
    ChunkTrims(s, chunk);
    SuffixOf(s, Complete(s), chunk, Trimmed(Unfinished(s)));
  }

  lemma SuffixOf(s: Bytes, c: nat, chunk: Bytes, k: nat)
    requires c <= |s| && k <= |s[c..] + chunk|
    ensures (s + chunk)[c + k..] == (s[c..] + chunk)[k..]
  {
  }

  /** An announcement whose words end in the new chunk starts within the tail. */
  lemma WithinTail(s: Bytes, chunk: Bytes, whole: Bytes, p: nat)
    requires s + chunk <= whole && Short(whole, p) && |s| < WordsEnd(whole, p)
    ensures Complete(s) + Trimmed(s[Complete(s)..]) <= p
  {
    hide Announces, WordsEnd, Complete, FirstBlank, Last, Trimmed;
    OutsideWords(s, whole, p);
    TrimmedIs(s[Complete(s)..]);
  }

  /** No event ends inside the words. */
  lemma OutsideWords(s: Bytes, whole: Bytes, p: nat)
    requires s <= whole && Announces(whole, p) && |s| < WordsEnd(whole, p)
    ensures Complete(s) <= p
  {
    WordsPlain(whole, p);
    RestHasNone(s);
    hide Announces, WordsEnd, Complete, FirstBlank;
    var e := Complete(s);
    assert e > 0 ==> whole[e - 1] == s[e - 1] && !Plain(whole[e - 1]);
  }

  /** What was noted stays noted. */
  lemma StillNoted(w: Progress, s: Bytes, chunk: Bytes, p: nat)
    requires !w.completed && w.tail == Last(s[Complete(s)..], TAIL) && w.pending && p >= Complete(s)
    ensures var next := Framed(w, w.tail + chunk); next.completed || (next.pending && p >= Complete(s + chunk))
  {
    hide Framed, Complete, Last, Trimmed;
    ChunkFrames(s, chunk);
    FramedTail(w, w.tail + chunk);
  }

  lemma NewlyNoted(w: Progress, s: Bytes, chunk: Bytes, whole: Bytes, p: nat)
    requires s + chunk <= whole && w.tail == Last(s[Complete(s)..], TAIL)
    requires Short(whole, p) && |s| < WordsEnd(whole, p) <= |s + chunk|
    ensures var next := Framed(w, w.tail + chunk); next.completed || (next.pending && p >= Complete(s + chunk))
  {
    hide Announces, WordsEnd, Complete, Framed, Last, Trimmed;
    var a := Complete(s) + Trimmed(s[Complete(s)..]);
    ChunkFrames(s, chunk);
    WithinTail(s, chunk, whole, p);
    AnnounceSlice(whole, p, a, |s + chunk|);
    MiddleOf(s + chunk, whole, a);
    ScanNotes(w, w.tail + chunk, p - a);
  }

  lemma MiddleOf(t: Bytes, whole: Bytes, a: nat)
    requires t <= whole && a <= |t|
    ensures whole[a..|t|] == t[a..]
  {
  }

  lemma FedFrames(w: Progress, s: Bytes, chunk: Bytes)
    requires !w.completed && w.tail == Last(s[Complete(s)..], TAIL)
    ensures var next := Framed(w, w.tail + chunk); var t := s + chunk;
            next.tail == Last(t[Complete(t)..], TAIL) && (next.completed ==> Complete(t) > 0)
  {
    hide Framed, Complete, Last, Trimmed;
    ChunkFrames(s, chunk);
    FramedTail(w, w.tail + chunk);
  }

  lemma FedTracks(w: Progress, s: Bytes, chunk: Bytes, whole: Bytes)
    requires Tracks(w, s, whole) && s + chunk <= whole
    ensures Tracks(Chunked(w, chunk), s + chunk, whole)
  {
    hide Announces, WordsEnd, Framed, Complete, Last;
    if w.completed {
      ChunkFrames(s, chunk);
    } else {
      FedFrames(w, s, chunk);
      forall p: nat | Short(whole, p) && WordsEnd(whole, p) <= |s + chunk| && !Chunked(w, chunk).completed
        ensures Chunked(w, chunk).pending && p >= Complete(s + chunk)
      {
        if WordsEnd(whole, p) > |s| { NewlyNoted(w, s, chunk, whole, p); } else { StillNoted(w, s, chunk, p); }
      }
    }
  }

  // ---- nothing is announced without the words -------------------------------------------------------

  predicate Words(s: Bytes, p: nat) { EventWords(s, p).Some? || DataWords(s, p).Some? }

  /** The announcing words occur, wherever in a line and whatever follows them. */
  ghost predicate Said(s: Bytes) { exists p: nat :: p <= |s| && Words(s, p) }

  lemma EventWordsInSlice(s: Bytes, p: nat, a: nat, b: nat)
    requires a <= p <= b <= |s| && EventWords(s[a..b], p - a).Some?
    ensures EventWords(s, p).Some?
  {
    hide After, EVENT, BLANKS, StartsAt;
    var q := After(s[a..b], p - a, EVENT, BLANKS).value;
    AfterInSlice(s, p, EVENT, BLANKS, a, b);
    StartsSlice(s, q + a, DONE, a, b);
  }

  lemma DataWordsInSlice(s: Bytes, p: nat, a: nat, b: nat)
    requires a <= p <= b <= |s| && DataWords(s[a..b], p - a).Some?
    ensures DataWords(s, p).Some?
  {
    hide After, DATA, OPEN, TYPE, COLON, BLANKS, StartsAt;
    var t := s[a..b];
    var i := After(t, p - a, DATA, BLANKS).value;
    var j := After(t, i, OPEN, BLANKS).value;
    var k := After(t, j, TYPE, BLANKS).value;
    var l := After(t, k, COLON, BLANKS).value;
    AfterInSlice(s, p, DATA, BLANKS, a, b);
    AfterInSlice(s, i + a, OPEN, BLANKS, a, b);
    AfterInSlice(s, j + a, TYPE, BLANKS, a, b);
    AfterInSlice(s, k + a, COLON, BLANKS, a, b);
    StartsSlice(s, l + a, QUOTED, a, b);
  }

  lemma SaidInSlice(s: Bytes, a: nat, b: nat)
    requires a <= b <= |s| && Said(s[a..b])
    ensures Said(s)
  {
    hide EventWords, DataWords;
    var p: nat :| p <= |s[a..b]| && Words(s[a..b], p);
    if EventWords(s[a..b], p).Some? { EventWordsInSlice(s, a + p, a, b); } else { DataWordsInSlice(s, a + p, a, b); }
    assert Words(s, a + p);
  }

  lemma AnnouncedSaid(s: Bytes)
    ensures Announced(s) ==> Said(s)
  {
    hide EventWords, DataWords, LineEnds, LineStart;
    if Announced(s) {
      var p :| 0 <= p <= |s| && Announces(s, p);
      assert Words(s, p);
    }
  }

  lemma {:induction false} FramedSaid(p: Progress, s: Bytes)
    ensures Framed(p, s).completed || Framed(p, s).pending ==> p.completed || p.pending || Said(s)
    decreases |s|
  {
    hide Framed, FirstBlank, Announced, Said, Last, BlankEnd, EventEnd;
    FramedStep(p, s);
    AnnouncedSaid(s);
    var q := FirstBlank(s, 0);
    if q.Some? {
      var e, n := BlankEnd(s, q.value), EventEnd(s, q.value);
      FramedSaid(PastEvent(p, s), s[e..]);
      AnnouncedSaid(s[..n]);
      assert s[0..n] == s[..n] && s[e..|s|] == s[e..];
      if Said(s[..n]) { SaidInSlice(s, 0, n); }
      if Said(s[e..]) { SaidInSlice(s, e, |s|); }
    }
  }

  lemma ChunkSaid(w: Progress, s: Bytes, chunk: Bytes)
    requires w.completed || w.tail == Last(s[Complete(s)..], TAIL)
    requires w.completed || w.pending ==> Said(s)
    ensures Chunked(w, chunk).completed || Chunked(w, chunk).pending ==> Said(s + chunk)
  {
    hide Framed, Complete, Last, Said, Trimmed;
    var t := s + chunk;
    assert t[0..|s|] == s;
    if Said(s) { SaidInSlice(t, 0, |s|); }
    if !w.completed {
      ChunkFrames(s, chunk);
      var a := Complete(s) + Trimmed(s[Complete(s)..]);
      FramedSaid(w, w.tail + chunk);
      assert t[a..|t|] == w.tail + chunk;
      if Said(w.tail + chunk) { SaidInSlice(t, a, |t|); }
    }
  }

  // ---- announcements as they are written --------------------------------------------------------

  ghost predicate Blanks(b: Bytes) { forall i | 0 <= i < |b| :: b[i] == ' ' || b[i] == '\t' }

  /** A line may end with or without a carriage return. */
  predicate LineEnd(e: Bytes) { e == "\n" || e == "\r\n" }

  /** An `event:` line announcing completion, and the blank line after it. */
  function EventLine(a: Bytes, b: Bytes, e: Bytes, f: Bytes): Bytes { "event:" + a + "response.completed" + b + e + f }

  /** The head of a `data:` line announcing completion. */
  function DataHead(a: Bytes, b: Bytes, c: Bytes, d: Bytes): Bytes {
    "data:" + a + "{" + b + "\"type\"" + c + ":" + d + "\"response.completed\""
  }

  lemma BlankPassed(s: Bytes, q: nat)
    requires Blank(s, q)
    ensures q < Complete(s)
  {
    RestHasNone(s);
    BlankIn(s, Complete(s), q);
  }

  lemma BlankIn(s: Bytes, e: nat, q: nat)
    requires Blank(s, q) && e <= |s|
    ensures e <= q ==> FirstBlank(s[e..], 0).Some?
  {
    if e <= q { assert Blank(s[e..], q - e); }
  }

  /** Two line ends make a blank line, which ends an event. */
  lemma BlankLineEnds(s: Bytes, q: nat, e: Bytes, f: Bytes)
    requires LineEnd(e) && LineEnd(f) && LiesAt(s, q, e + f)
    ensures Blank(s, q + |e| - 1) && q + |e| - 1 < Complete(s)
  {
    var t := e + f;
    LyingIs(s, q, t);
    var u := s[q..q + |t|];
    assert u[|e| - 1] == s[q + |e| - 1] && u[|e|] == s[q + |e|] && (|f| == 2 ==> u[|e| + 1] == s[q + |e| + 1]);
    BlankPassed(s, q + |e| - 1);
  }

  /** No line is both. */
  lemma DataEnds(s: Bytes, p: nat)
    requires Announces(s, p) && DataWords(s, p).Some?
    ensures WordsEnd(s, p) == DataWords(s, p).value
  {
    hide Skip, LineEnds, StartsAt;
    Initial(s, p, DATA);
    Initial(s, p, EVENT);
    assert DATA[0] != EVENT[0];
  }

  lemma Initial(s: Bytes, p: nat, literal: Bytes)
    requires literal != []
    ensures StartsAt(s, p, literal) ==> p < |s| && s[p] == literal[0]
  {
    if StartsAt(s, p, literal) { assert s[p..p + |literal|][0] == s[p]; }
  }

  lemma LineStarts(before: Bytes, t: Bytes)
    requires before == "" || before[|before| - 1] == '\n'
    ensures LineStart(before + t, |before|)
  {
    if before != "" { assert (before + t)[|before| - 1] == before[|before| - 1]; }
  }

  lemma DataHeadLength(a: Bytes, b: Bytes, c: Bytes, d: Bytes)
    ensures |DataHead(a, b, c, d)| == 33 + |a| + |b| + |c| + |d|
  {
  }

  lemma NextNotBlank(s: Bytes, p: nat, part: Bytes)
    requires LiesAt(s, p, part) && part != [] && part[0] != ' ' && part[0] != '\t'
    ensures p < |s| && s[p] !in BLANKS
  {
    LiesFirst(s, p, part);
  }

  /** A literal, blanks, and something that is not blank. */
  lemma AfterLies(s: Bytes, p: nat, literal: Bytes, a: Bytes, next: Bytes)
    requires LiesAt(s, p, literal + a + next) && Blanks(a) && next != [] && next[0] != ' ' && next[0] != '\t'
    ensures After(s, p, literal, BLANKS) == Some(p + |literal| + |a|) && LiesAt(s, p + |literal| + |a|, next)
  {
    LiesApart(s, p, literal + a, next);
    LiesApart(s, p, literal, a);
    NextNotBlank(s, p + |literal| + |a|, next);
    LyingStarts(s, p, literal);
    assert forall i | 0 <= i < |a| :: a[i] in BLANKS;
    hide LiesAt, Skip, StartsAt, BLANKS, Blanks;
    SkipsLying(s, p + |literal|, a, BLANKS);
  }

  /** An event line is an announcement, wherever a line may start. */
  lemma EventSpelled(s: Bytes, p: nat, a: Bytes, b: Bytes, e: Bytes, f: Bytes)
    requires LineStart(s, p) && LiesAt(s, p, EventLine(a, b, e, f)) && Blanks(a) && Blanks(b) && LineEnd(e) && LineEnd(f)
    ensures Announces(s, p) && WordsEnd(s, p) == p + 6 + |a| + 18 && p < Complete(s)
  {
    hide LiesAt, Blanks, Complete, Blank, EventLine, EventWords, LineEnds, LineStart;
    EventWordsLie(s, p, a, b, e, f);
    LineEndLies(s, p + 6 + |a| + 18, b, e);
    BlankLineEnds(s, p + 6 + |a| + 18 + |b|, e, f);
  }

  lemma EventWordsLie(s: Bytes, p: nat, a: Bytes, b: Bytes, e: Bytes, f: Bytes)
    requires LiesAt(s, p, EventLine(a, b, e, f)) && Blanks(a)
    ensures var q := p + 6 + |a| + 18; EventWords(s, p) == Some(q) && LiesAt(s, q, b) && LiesAt(s, q + |b|, e + f) && LiesAt(s, q + |b|, e)
  {
    var q := p + 6 + |a|;
    hide LiesAt, Skip, StartsAt, BLANKS, Blanks, Complete, After;
    assert EventLine(a, b, e, f) == EVENT + a + (DONE + b + (e + f));
    AfterLies(s, p, EVENT, a, DONE + b + (e + f));
    LiesApart(s, q, DONE + b, e + f);
    LiesApart(s, q, DONE, b);
    LiesApart(s, q + |DONE + b|, e, f);
    LyingStarts(s, q, DONE);
  }

  lemma LineEndLies(s: Bytes, p: nat, b: Bytes, e: Bytes)
    requires LiesAt(s, p, b) && Blanks(b) && LineEnd(e) && LiesAt(s, p + |b|, e)
    ensures p <= |s| && LineEnds(s, p)
  {
    var n := p + |b|;
    LyingIs(s, n, e);
    var u := s[n..n + |e|];
    assert s[n] == u[0] && (|e| == 2 ==> s[n + 1] == u[1]);
    assert forall i | 0 <= i < |b| :: b[i] in BLANKS;
    SkipsLying(s, p, b, BLANKS);
  }

  /** So is the head of a data line, whatever else the line holds. */
  lemma DataSpelled(s: Bytes, p: nat, a: Bytes, b: Bytes, c: Bytes, d: Bytes)
    requires LineStart(s, p) && LiesAt(s, p, DataHead(a, b, c, d)) && Blanks(a) && Blanks(b) && Blanks(c) && Blanks(d)
    ensures Announces(s, p) && DataWords(s, p) == Some(p + |DataHead(a, b, c, d)|)
  {
    hide LiesAt, Skip, StartsAt, BLANKS, Blanks, Complete, After;
    var t1 := COLON + d + QUOTED;
    var t2 := TYPE + c + t1;
    var t3 := OPEN + b + t2;
    assert DataHead(a, b, c, d) == DATA + a + t3;
    AfterLies(s, p, DATA, a, t3);
    AfterLies(s, p + 5 + |a|, OPEN, b, t2);
    AfterLies(s, p + 6 + |a| + |b|, TYPE, c, t1);
    AfterLies(s, p + 12 + |a| + |b| + |c|, COLON, d, QUOTED);
    LyingStarts(s, p + 13 + |a| + |b| + |c| + |d|, QUOTED);
  }
}
