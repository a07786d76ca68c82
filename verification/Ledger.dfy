/**
 The proxy's own dispatch ledger (`RouteState.sent`): one entry per request, pruned
 from the left to the largest window anyone asks about.  The main results are that
 the pruned ledger cannot be told from the full history of dispatches by any question
 about a window that pruning spared, and by how much it otherwise undercounts.
 */
module Ledger {
  import opened Prelude

  /** Index into the five faces of a deployment. */
  type Face = f: nat | f < 5

  datatype EntryV = EntryV(at: real, tokens: real, face: Face, rpm: real, attempt: Option<string>)

  /** Entries dispatched at or after `cutoff`, in order. */
  function Since(s: seq<EntryV>, cutoff: real): seq<EntryV> {
    if s == [] then []
    else if s[|s| - 1].at >= cutoff then Since(s[..|s| - 1], cutoff) + [s[|s| - 1]]
    else Since(s[..|s| - 1], cutoff)
  }

  /** Entries strictly newer than `cutoff`: what ageing keeps. */
  function Keep(s: seq<EntryV>, cutoff: real): seq<EntryV> {
    if s == [] then []
    else if s[|s| - 1].at > cutoff then Keep(s[..|s| - 1], cutoff) + [s[|s| - 1]]
    else Keep(s[..|s| - 1], cutoff)
  }

  /** What remains after popping the head while it is older than `cutoff`. */
  function DropLeading(s: seq<EntryV>, cutoff: real): seq<EntryV> {
    if s != [] && s[0].at < cutoff then DropLeading(s[1..], cutoff) else s
  }

  /** The ledger after the dispatch `id` learned its real cost. */
  function Price(s: seq<EntryV>, id: string, tokens: real): (r: seq<EntryV>)
    ensures |r| == |s|
    ensures forall i | 0 <= i < |s| :: r[i] == if s[i].attempt == Some(id) then s[i].(tokens := tokens) else s[i]
  {
    seq(|s|, i requires 0 <= i < |s| => if s[i].attempt == Some(id) then s[i].(tokens := tokens) else s[i])
  }

  function Tokens(s: seq<EntryV>): real {
    if s == [] then 0.0 else Tokens(s[..|s| - 1]) + s[|s| - 1].tokens
  }

  function OnFace(s: seq<EntryV>, f: Face): (n: nat) {
    if s == [] then 0 else OnFace(s[..|s| - 1], f) + if s[|s| - 1].face == f then 1 else 0
  }

  function TokensOnFace(s: seq<EntryV>, f: Face): real {
    if s == [] then 0.0 else TokensOnFace(s[..|s| - 1], f) + if s[|s| - 1].face == f then s[|s| - 1].tokens else 0.0
  }

  function PerMinute(requests: nat, window: real): real
    requires window > 0.0
  {
    requests as real * 60.0 / window
  }

  lemma PerMinuteSign(requests: nat, window: real)
    requires window > 0.0
    ensures PerMinute(requests, window) >= 0.0
    ensures requests > 0 ==> PerMinute(requests, window) > 0.0
  {
    var n := requests as real;
    assert n * 60.0 >= 0.0;
  }

  /** Requests per minute over the trailing `window` seconds. */
  function Rpm(s: seq<EntryV>, now: real, window: real): real
    requires window > 0.0
  {
    PerMinute(|Since(s, now - window)|, window)
  }

  // ---- what the filters do to one another -----------------------------------

  lemma {:induction false} SinceAppend(s: seq<EntryV>, t: seq<EntryV>, c: real)
    ensures Since(s + t, c) == Since(s, c) + Since(t, c)
  {
    if t == [] {
      assert s + t == s;
    } else {
      assert (s + t)[..|s + t| - 1] == s + t[..|t| - 1];
      SinceAppend(s, t[..|t| - 1], c);
    }
  }

  lemma {:induction false} SinceSince(s: seq<EntryV>, c: real, d: real)
    requires c <= d
    ensures Since(Since(s, c), d) == Since(s, d)
  {
    if s != [] {
      SinceSince(s[..|s| - 1], c, d);
      if s[|s| - 1].at >= c {
        SinceAppend(Since(s[..|s| - 1], c), [s[|s| - 1]], d);
      }
    }
  }

  lemma {:induction false} SinceDropLeading(s: seq<EntryV>, cutoff: real, c: real)
    requires cutoff <= c
    ensures Since(DropLeading(s, cutoff), c) == Since(s, c)
  {
    if s != [] && s[0].at < cutoff {
      assert s == [s[0]] + s[1..];
      SinceAppend([s[0]], s[1..], c);
      SinceDropLeading(s[1..], cutoff, c);
    }
  }

  lemma {:induction false} SinceKeep(s: seq<EntryV>, cutoff: real, c: real)
    requires cutoff < c
    ensures Since(Keep(s, cutoff), c) == Since(s, c)
  {
    if s != [] {
      SinceKeep(s[..|s| - 1], cutoff, c);
      if s[|s| - 1].at > cutoff {
        SinceAppend(Keep(s[..|s| - 1], cutoff), [s[|s| - 1]], c);
      }
    }
  }

  lemma {:induction false} SincePrice(s: seq<EntryV>, id: string, tokens: real, c: real)
    ensures Since(Price(s, id, tokens), c) == Price(Since(s, c), id, tokens)
  {
    if s != [] {
      SincePrice(s[..|s| - 1], id, tokens, c);
      assert Price(s, id, tokens)[..|s| - 1] == Price(s[..|s| - 1], id, tokens);
    }
  }

  // ---- the pruned ledger against the full history -----------------------------

  /** What a run does to one route's ledger; `now` is the clock reading a dispatch happens at. */
  datatype Op =
    | Charge(now: real, tokens: real, face: Face, id: string)
    | Settle(id: string, tokens: real)
    | Age(cutoff: real)

  datatype Windows = Windows(load: real, rpm: real) {
    ghost predicate Valid() { load > 0.0 && rpm >= 1.0 }
    function Widest(): real { Max(load, rpm) }
  }

  /** The entry `charge` appends: its RPM counts the requests already in the window and itself. */
  function Dispatched(s: seq<EntryV>, now: real, tokens: real, face: Face, id: Option<string>, w: Windows): EntryV
    requires w.Valid()
  {
    EntryV(now, tokens, face, PerMinute(|Since(s, now - w.rpm)| + 1, w.rpm), id)
  }

  function Pruned(s: seq<EntryV>, op: Op, w: Windows): seq<EntryV>
    requires w.Valid()
  {
    match op
    case Charge(now, tokens, face, id) =>
      var kept := DropLeading(s, now - w.Widest());
      kept + [Dispatched(kept, now, tokens, face, Some(id), w)]
    case Settle(id, tokens) => Price(s, id, tokens)
    case Age(cutoff) => Keep(s, cutoff)
  }

  /** The same operation on a ledger that forgets nothing. */
  function Unpruned(s: seq<EntryV>, op: Op, w: Windows): seq<EntryV>
    requires w.Valid()
  {
    match op
    case Charge(now, tokens, face, id) => s + [Dispatched(s, now, tokens, face, Some(id), w)]
    case Settle(id, tokens) => Price(s, id, tokens)
    case Age(_) => s
  }

  function RunPruned(ops: seq<Op>, w: Windows): seq<EntryV>
    requires w.Valid()
  {
    if ops == [] then [] else Pruned(RunPruned(ops[..|ops| - 1], w), ops[|ops| - 1], w)
  }

  function RunUnpruned(ops: seq<Op>, w: Windows): seq<EntryV>
    requires w.Valid()
  {
    if ops == [] then [] else Unpruned(RunUnpruned(ops[..|ops| - 1], w), ops[|ops| - 1], w)
  }

  /**
   Dispatches come in the order of their times, and ageing only removes what no later dispatch counts.
   Nothing is asked of the times of corrections, nor of when ageing happens.
   */
  ghost predicate Orderly(ops: seq<Op>, w: Windows) {
    && (forall i, j | 0 <= i < j < |ops| && ops[i].Charge? && ops[j].Charge? :: ops[i].now <= ops[j].now)
    && (forall i, j | 0 <= i < j < |ops| && ops[i].Age? && ops[j].Charge? :: ops[i].cutoff < ops[j].now - w.Widest())
  }

  /** Nothing pruned or aged reaches into what lies at or after `c`. */
  ghost predicate Spares(ops: seq<Op>, w: Windows, c: real) {
    forall i | 0 <= i < |ops| ::
      (ops[i].Charge? ==> ops[i].now - w.Widest() <= c) && (ops[i].Age? ==> ops[i].cutoff < c)
  }

  lemma AgreementCharge(p: seq<EntryV>, f: seq<EntryV>, op: Op, w: Windows, horizon: real)
    requires w.Valid() && op.Charge? && op.now - w.Widest() <= horizon
    requires Since(p, op.now - w.Widest()) == Since(f, op.now - w.Widest())
    requires Since(p, horizon) == Since(f, horizon)
    ensures Since(Pruned(p, op, w), horizon) == Since(Unpruned(f, op, w), horizon)
  {
    var base := op.now - w.Widest();
    var kept := DropLeading(p, base);
    SinceDropLeading(p, base, base);
    SinceDropLeading(p, base, horizon);
    SinceSince(kept, base, op.now - w.rpm);
    SinceSince(f, base, op.now - w.rpm);
    var entry := Dispatched(f, op.now, op.tokens, op.face, Some(op.id), w);
    assert Dispatched(kept, op.now, op.tokens, op.face, Some(op.id), w) == entry;
    SinceAppend(kept, [entry], horizon);
    SinceAppend(f, [entry], horizon);
  }

  lemma AgreementOther(p: seq<EntryV>, f: seq<EntryV>, op: Op, w: Windows, horizon: real)
    requires w.Valid() && !op.Charge? && (op.Age? ==> op.cutoff < horizon) && Since(p, horizon) == Since(f, horizon)
    ensures Since(Pruned(p, op, w), horizon) == Since(Unpruned(f, op, w), horizon)
  {
    hide Since, Keep, Price;
    if op.Settle? {
      SincePrice(p, op.id, op.tokens, horizon);
      SincePrice(f, op.id, op.tokens, horizon);
    } else {
      SinceKeep(p, op.cutoff, horizon);
    }
  }

  lemma {:induction false} Agreement(ops: seq<Op>, w: Windows, c: real)
    requires w.Valid() && Orderly(ops, w) && Spares(ops, w, c)
    ensures Since(RunPruned(ops, w), c) == Since(RunUnpruned(ops, w), c)
  {
    hide Since, Pruned, Unpruned;
    if ops != [] {
      var n := |ops| - 1;
      var p, f := RunPruned(ops[..n], w), RunUnpruned(ops[..n], w);
      Agreement(ops[..n], w, c);
      if ops[n].Charge? {
        Agreement(ops[..n], w, ops[n].now - w.Widest());
        AgreementCharge(p, f, ops[n], w, c);
      } else {
        AgreementOther(p, f, ops[n], w, c);
      }
    }
  }

  /**
   Pruning is invisible: for every run whose dispatches come in the order of their times, and every
   window the run spared, the pruned ledger holds exactly the entries, in order and with the same
   costs, that a ledger of every dispatch ever made would show.  Request counts, token totals, rates
   and per-face splits are functions of that sequence.
   */
  lemma PrunedRefinesFull(ops: seq<Op>, w: Windows, now: real, window: real)
    requires w.Valid() && Orderly(ops, w) && window > 0.0 && Spares(ops, w, now - window)
    ensures Since(RunPruned(ops, w), now - window) == Since(RunUnpruned(ops, w), now - window)
    ensures Rpm(RunPruned(ops, w), now, window) == Rpm(RunUnpruned(ops, w), now, window)
  {
    hide Since, RunPruned, RunUnpruned, Orderly;
    Agreement(ops, w, now - window);
  }

  // ---- what pruning can cost -----------------------------------------------------------------

  /** What an operation takes off the ledger of the entries at or after `c`. */
  function Taken(s: seq<EntryV>, op: Op, w: Windows, c: real): nat {
    match op
    case Charge(now, _, _, _) => |Since(LeadingOld(s, now - w.Widest()), c)|
    case Settle(_, _) => 0
    case Age(cutoff) => |Since(NotNewer(s, cutoff), c)|
  }

  /** The leading entries older than the cutoff. */
  function LeadingOld(s: seq<EntryV>, cutoff: real): seq<EntryV> {
    if s != [] && s[0].at < cutoff then [s[0]] + LeadingOld(s[1..], cutoff) else []
  }

  /** The entries ageing drops. */
  function NotNewer(s: seq<EntryV>, cutoff: real): seq<EntryV> {
    if s == [] then []
    else NotNewer(s[..|s| - 1], cutoff) + if s[|s| - 1].at > cutoff then [] else [s[|s| - 1]]
  }

  function TakenBy(ops: seq<Op>, w: Windows, c: real): nat
    requires w.Valid()
  {
    if ops == [] then 0
    else TakenBy(ops[..|ops| - 1], w, c) + Taken(RunPruned(ops[..|ops| - 1], w), ops[|ops| - 1], w, c)
  }

  lemma {:induction false} LeadingSplit(s: seq<EntryV>, cutoff: real, c: real)
    ensures |Since(s, c)| == |Since(LeadingOld(s, cutoff), c)| + |Since(DropLeading(s, cutoff), c)|
  {
    if s != [] && s[0].at < cutoff {
      LeadingSplit(s[1..], cutoff, c);
      assert s == [s[0]] + s[1..];
      SinceAppend([s[0]], s[1..], c);
      SinceAppend([s[0]], LeadingOld(s[1..], cutoff), c);
    }
  }

  lemma {:induction false} AgeSplit(s: seq<EntryV>, cutoff: real, c: real)
    ensures |Since(s, c)| == |Since(NotNewer(s, cutoff), c)| + |Since(Keep(s, cutoff), c)|
  {
    if s != [] {
      var front, last := s[..|s| - 1], s[|s| - 1];
      AgeSplit(front, cutoff, c);
      SinceAppend(NotNewer(front, cutoff), [last], c);
      SinceAppend(Keep(front, cutoff), [last], c);
      SinceAppend(front, [last], c);
      assert s == front + [last];
      assert NotNewer(front, cutoff) + [] == NotNewer(front, cutoff);
    }
  }

  lemma OneTaken(p: seq<EntryV>, f: seq<EntryV>, op: Op, w: Windows, c: real)
    requires w.Valid()
    ensures |Since(Unpruned(f, op, w), c)| - |Since(f, c)| == |Since(Pruned(p, op, w), c)| - |Since(p, c)| + Taken(p, op, w, c)
  {
    match op {
      case Charge(now, tokens, face, id) =>
        var kept := DropLeading(p, now - w.Widest());
        LeadingSplit(p, now - w.Widest(), c);
        LoneSince(kept, Dispatched(kept, now, tokens, face, Some(id), w), c);
        LoneSince(f, Dispatched(f, now, tokens, face, Some(id), w), c);
        hide Since, DropLeading, LeadingOld;
      case Settle(id, tokens) =>
        SincePrice(p, id, tokens, c);
        SincePrice(f, id, tokens, c);
        hide Since;
      case Age(cutoff) =>
        AgeSplit(p, cutoff, c);
        hide Since, Keep, NotNewer;
    }
  }

  lemma LoneSince(s: seq<EntryV>, e: EntryV, c: real)
    ensures |Since(s + [e], c)| == |Since(s, c)| + if e.at >= c then 1 else 0
  {
    SinceAppend(s, [e], c);
    assert [e][..0] == [];
  }

  /**
   What the pruned ledger undercounts, for every run and in whatever order its times come: as many
   requests as pruning and ageing took off it from within the window, no more and no fewer.
   */
  lemma {:induction false} UndercountExactly(ops: seq<Op>, w: Windows, c: real)
    requires w.Valid()
    ensures |Since(RunUnpruned(ops, w), c)| == |Since(RunPruned(ops, w), c)| + TakenBy(ops, w, c)
  {
    hide Since, Pruned, Unpruned, Taken;
    if ops == [] {
      NoneSince(c);
    } else {
      var n := |ops| - 1;
      UndercountExactly(ops[..n], w, c);
      OneTaken(RunPruned(ops[..n], w), RunUnpruned(ops[..n], w), ops[n], w, c);
    }
  }

  lemma NoneSince(c: real)
    ensures Since([], c) == []
  {
  }

  /** So the rate over a window is the true one if and only if nothing was taken from within it. */
  lemma RpmExactlyWhen(ops: seq<Op>, w: Windows, now: real, window: real)
    requires w.Valid() && window > 0.0
    ensures Rpm(RunPruned(ops, w), now, window) <= Rpm(RunUnpruned(ops, w), now, window)
    ensures Rpm(RunPruned(ops, w), now, window) == Rpm(RunUnpruned(ops, w), now, window) <==> TakenBy(ops, w, now - window) == 0
  {
    hide Since, RunPruned, RunUnpruned, TakenBy;
    UndercountExactly(ops, w, now - window);
    PerMinuteGrows(|Since(RunPruned(ops, w), now - window)|, TakenBy(ops, w, now - window), window);
  }

  lemma PerMinuteGrows(n: nat, more: nat, window: real)
    requires window > 0.0
    ensures PerMinute(n, window) <= PerMinute(n + more, window)
    ensures PerMinute(n, window) == PerMinute(n + more, window) <==> more == 0
  {
    PerMinuteSign(more, window);
    assert PerMinute(n + more, window) == PerMinute(n, window) + PerMinute(more, window);
  }

  lemma FirstCharge(c: Op, w: Windows)
    requires w.Valid() && c.Charge?
    ensures var a := Dispatched([], c.now, c.tokens, c.face, Some(c.id), w);
            RunPruned([c], w) == [a] && RunUnpruned([c], w) == [a] && a.at == c.now
  {
    assert [c][..0] == [];
    assert RunPruned([], w) == [] && RunUnpruned([], w) == [];
    hide Since, PerMinute, RunPruned, RunUnpruned;
  }

  lemma SecondCharge(c: Op, d: Op, w: Windows)
    requires w.Valid() && c.Charge? && d.Charge? && c.now < d.now - w.Widest()
    ensures |RunPruned([c, d], w)| == 1 && RunPruned([c, d], w)[0].at == d.now
    ensures |RunUnpruned([c, d], w)| == 2 && RunUnpruned([c, d], w)[0].at == c.now && RunUnpruned([c, d], w)[1].at == d.now
  {
    FirstCharge(c, w);
    assert [c, d][..1] == [c];
    var a := RunPruned([c], w);
    assert DropLeading(a, d.now - w.Widest()) == a[1..] == [];
    hide Since, PerMinute;
  }

  lemma AllSince(s: seq<EntryV>, c: real)
    requires |s| <= 2 && forall i | 0 <= i < |s| :: s[i].at >= c
    ensures |Since(s, c)| == |s|
  {
  }

  /** A clock that steps back asks about entries already pruned, and undercounts. */
  lemma BackwardClockUndercounts()
    ensures var w := Windows(60.0, 60.0);
            var ops := [Charge(0.0, 1.0, 0, "a"), Charge(100.0, 1.0, 0, "b")];
            && |Since(RunUnpruned(ops, w), 50.0 - 60.0)| == 2
            && |Since(RunPruned(ops, w), 50.0 - 60.0)| == 1
  {
    hide Since, RunPruned, RunUnpruned;
    var w, c, d := Windows(60.0, 60.0), Charge(0.0, 1.0, 0, "a"), Charge(100.0, 1.0, 0, "b");
    SecondCharge(c, d, w);
    AllSince(RunUnpruned([c, d], w), -10.0);
    AllSince(RunPruned([c, d], w), -10.0);
  }

  /** The rate stamped on a dispatch is the rate anyone would measure right after it. */
  lemma DispatchRpmIsMeasured(s: seq<EntryV>, op: Op, w: Windows)
    requires w.Valid() && op.Charge?
    ensures var after := Pruned(s, op, w);
            after[|after| - 1].rpm == Rpm(after, op.now, w.rpm) > 0.0
  {
    var kept := DropLeading(s, op.now - w.Widest());
    var entry := Dispatched(kept, op.now, op.tokens, op.face, Some(op.id), w);
    SinceAppend(kept, [entry], op.now - w.rpm);
    assert [entry][..0] == [];
    PerMinuteSign(|Since(kept, op.now - w.rpm)| + 1, w.rpm);
  }

  // ---- windows, entry by entry --------------------------------------------------

  /** A window shows exactly the entries that are not older than its start, each as often as the ledger holds it. */
  lemma {:induction false} SinceMembers(s: seq<EntryV>, cutoff: real, e: EntryV)
    ensures multiset(Since(s, cutoff))[e] == if e.at >= cutoff then multiset(s)[e] else 0
  {
    if s != [] {
      SinceMembers(s[..|s| - 1], cutoff, e);
      assert s == s[..|s| - 1] + [s[|s| - 1]];
    }
  }

  lemma {:induction false} SinceCounts(s: seq<EntryV>, cutoff: real)
    ensures |Since(s, cutoff)| == |set i | 0 <= i < |s| && s[i].at >= cutoff|
  {
    var all := set i | 0 <= i < |s| && s[i].at >= cutoff;
    if s == [] {
      assert all == {};
    } else {
      var front, n := s[..|s| - 1], |s| - 1;
      SinceCounts(front, cutoff);
      var before := set i | 0 <= i < |front| && front[i].at >= cutoff;
      assert all == before + if s[n].at >= cutoff then {n} else {};
    }
  }

  /** The rate times the window is sixty for every dispatch not older than the window. */
  lemma RpmCounts(s: seq<EntryV>, now: real, window: real)
    requires window > 0.0
    ensures Rpm(s, now, window) * window == 60.0 * |set i | 0 <= i < |s| && s[i].at >= now - window| as real
  {
    SinceCounts(s, now - window);
  }

  /** Pruning takes the front of the ledger up to the first entry that is not too old. */
  lemma {:induction false} DropLeadingIs(s: seq<EntryV>, cutoff: real) returns (k: nat)
    ensures k <= |s| && DropLeading(s, cutoff) == s[k..]
    ensures (forall i | 0 <= i < k :: s[i].at < cutoff) && (k < |s| ==> s[k].at >= cutoff)
  {
    k := 0;
    if s != [] && s[0].at < cutoff {
      var n := DropLeadingIs(s[1..], cutoff);
      k := n + 1;
      assert s[1..][n..] == s[k..];
      assert forall i | 0 < i < k :: s[i] == s[1..][i - 1];
    }
  }

  function OfFace(s: seq<EntryV>, f: Face): seq<EntryV> {
    if s == [] then [] else OfFace(s[..|s| - 1], f) + if s[|s| - 1].face == f then [s[|s| - 1]] else []
  }

  /** What a face's slot adds up are the entries of that face, all of them and no others. */
  lemma {:induction false} FaceMeans(s: seq<EntryV>, f: Face)
    ensures OnFace(s, f) == |OfFace(s, f)| && TokensOnFace(s, f) == Tokens(OfFace(s, f))
  {
    if s != [] {
      var front, last := s[..|s| - 1], s[|s| - 1];
      FaceMeans(front, f);
      TokensSnoc(OfFace(front, f), last);
      assert OfFace(front, f) + [] == OfFace(front, f);
    }
  }

  lemma TokensSnoc(s: seq<EntryV>, e: EntryV)
    ensures Tokens(s + [e]) == Tokens(s) + e.tokens
  {
    assert (s + [e])[..|s|] == s;
  }

  lemma {:induction false} FaceMembers(s: seq<EntryV>, f: Face, e: EntryV)
    ensures multiset(OfFace(s, f))[e] == if e.face == f then multiset(s)[e] else 0
  {
    if s != [] {
      FaceMembers(s[..|s| - 1], f, e);
      assert s == s[..|s| - 1] + [s[|s| - 1]];
    }
  }

  // ---- reports over a window --------------------------------------------------

  /** Requests and tokens inside the window (`in_window`). */
  method InWindow(sent: seq<EntryV>, now: real, window: real) returns (requests: nat, tokens: real)
    ensures requests == |Since(sent, now - window)|
    ensures tokens == Tokens(Since(sent, now - window))
  {
    requests, tokens := 0, 0.0;
    for i := 0 to |sent|
      invariant requests == |Since(sent[..i], now - window)|
      invariant tokens == Tokens(Since(sent[..i], now - window))
    {
      assert sent[..i + 1][..i] == sent[..i];
      if sent[i].at >= now - window {
        var seen := Since(sent[..i], now - window);
        assert (seen + [sent[i]])[..|seen|] == seen;
        requests, tokens := requests + 1, tokens + sent[i].tokens;
      }
    }
    assert sent[..|sent|] == sent;
  }

  /**
   The same pair split by face (`in_window_by_face`).  Each slot counts exactly the window's
   entries and tokens on that face, and the slots add up to the totals `InWindow` reports.
   */
  method InWindowByFace(sent: seq<EntryV>, now: real, window: real) returns (requests: seq<nat>, tokens: seq<real>)
    ensures |requests| == 5 && |tokens| == 5
    ensures forall f: Face :: requests[f] == OnFace(Since(sent, now - window), f)
    ensures forall f: Face :: tokens[f] == TokensOnFace(Since(sent, now - window), f)
    ensures Sum(requests) == |Since(sent, now - window)|
    ensures SumReal(tokens) == Tokens(Since(sent, now - window))
  {
    requests, tokens := [0, 0, 0, 0, 0], [0.0, 0.0, 0.0, 0.0, 0.0];
    SumZeros(requests);
    SumRealZeros(tokens);
    for i := 0 to |sent|
      invariant |requests| == 5 && |tokens| == 5
      invariant forall f: Face :: requests[f] == OnFace(Since(sent[..i], now - window), f)
      invariant forall f: Face :: tokens[f] == TokensOnFace(Since(sent[..i], now - window), f)
      invariant Sum(requests) == |Since(sent[..i], now - window)|
      invariant SumReal(tokens) == Tokens(Since(sent[..i], now - window))
    {
      assert sent[..i + 1][..i] == sent[..i];
      if sent[i].at >= now - window {
        var seen := Since(sent[..i], now - window);
        assert (seen + [sent[i]])[..|seen|] == seen;
        SumUpdate(requests, sent[i].face, requests[sent[i].face] + 1);
        SumRealUpdate(tokens, sent[i].face, tokens[sent[i].face] + sent[i].tokens);
        requests := requests[sent[i].face := requests[sent[i].face] + 1];
        tokens := tokens[sent[i].face := tokens[sent[i].face] + sent[i].tokens];
      }
    }
    assert sent[..|sent|] == sent;
  }
}
