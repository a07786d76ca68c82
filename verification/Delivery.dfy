/**
 Delivering the event feed to a poller (`event_feed`, `Poller._accept_feed`): each poll asks for
 what lies past its cursor, and what it does not get is counted as missed.
 */
module Delivery {
  import opened Prelude
  import opened EngineModel
  import opened EngineFacts
  import opened Journal
  import opened Levels
  import opened Quota

  const DAY := 86400.0
  const KEPT := 4000

  datatype Reason = Retained(count: nat) | Overwritten(count: nat) | OverLimit(count: nat)

  datatype Gap = Gap(count: nat, reasons: seq<Reason>)

  datatype Reply = Reply(
    events: seq<FeedEvent>, next: nat, streamId: string, dropped: bool, gap: Option<Gap>, truncated: bool)

  function Newer(s: seq<FeedEvent>, since: nat): seq<FeedEvent> {
    if s == [] then []
    else Newer(s[..|s| - 1], since) + if s[|s| - 1].num > since then [s[|s| - 1]] else []
  }

  function OfKinds(s: seq<FeedEvent>, kinds: Option<set<string>>): seq<FeedEvent> {
    if kinds.None? then s
    else if s == [] then []
    else OfKinds(s[..|s| - 1], kinds) + if s[|s| - 1].kind in kinds.value then [s[|s| - 1]] else []
  }

  function Total(reasons: seq<Reason>): nat {
    if reasons == [] then 0 else Total(reasons[..|reasons| - 1]) + reasons[|reasons| - 1].count
  }

  function Counted(r: Reason): seq<Reason> { if r.count > 0 then [r] else [] }

  function Positive(n: int): nat { if n < 0 then 0 else n }

  /** Numbers past the cursor that history no longer holds: aged out as far as ageing reached, else overwritten. */
  function Losses(next: nat, since: nat, got: nat, expiry: nat): seq<Reason> {
    var lost := Positive(next - since - got);
    var retention := MinNat(lost, Positive(MinNat(next, expiry) - since));
    Counted(Retained(retention)) + Counted(Overwritten(lost - retention))
  }

  function Skipped(wanted: nat, limit: int): nat { if limit > 0 then Positive(wanted - limit) else 0 }

  function Sent(wanted: seq<FeedEvent>, limit: int): seq<FeedEvent> {
    if Skipped(|wanted|, limit) > 0 then Last(wanted, limit) else wanted
  }

  /** `event_feed`. */
  function EventFeed(f: Feed, since: nat, limit: int, kinds: Option<set<string>>, initial: bool, now: real): Reply {
    var held := Recent(f.events, now - DAY);
    var news := if initial then held else Newer(held, since);
    var wanted := OfKinds(news, kinds);
    var losses := if !initial && f.next >= since
                  then Losses(f.next, since, |news|, Through(f.events, now - DAY, f.retentionThrough)) else [];
    var reasons := losses + if initial then [] else Counted(OverLimit(Skipped(|wanted|, limit)));
    var sent := Sent(wanted, limit);
    var count := Total(reasons);
    Reply(sent, f.next, f.streamId, count > 0, if count > 0 then Some(Gap(count, reasons)) else None,
          initial && f.next > |sent|)
  }

  // ---- one poll ---------------------------------------------------------------------

  lemma LastIsTop(s: seq<FeedEvent>, top: nat)
    requires Numbered(s, top) && s != []
    ensures var front, last := s[..|s| - 1], s[|s| - 1];
            Numbered(front, top) && 0 < last.num <= top && forall e | e in front :: e in s && e.num < last.num
  {
    var front, last := s[..|s| - 1], s[|s| - 1];
    forall e | e in front ensures e in s && e.num < last.num {
      var j :| 0 <= j < |front| && front[j] == e;
      assert s[j] == e && s[j].num < s[|s| - 1].num;
    }
  }

  lemma {:induction false} NewerNumbered(s: seq<FeedEvent>, since: nat, top: nat)
    requires Numbered(s, top)
    ensures Numbered(Newer(s, since), top)
    ensures forall e | e in Newer(s, since) :: e in s && e.num > since
  {
    if s != [] {
      var front, last := s[..|s| - 1], s[|s| - 1];
      LastIsTop(s, top);
      assert s == front + [last];
      hide Numbered;
      NewerNumbered(front, since, top);
      if last.num > since { NumberedSnoc(Newer(front, since), last, top); }
    }
  }

  /** Distinct numbers past `since` and up to `top` are no more than there are such numbers. */
  lemma {:induction false} NumberedFew(s: seq<FeedEvent>, since: nat, top: nat)
    requires Numbered(s, top) && forall i | 0 <= i < |s| :: s[i].num > since
    ensures |s| == 0 || |s| <= top - since
  {
    if s != [] {
      var front, last := s[..|s| - 1], s[|s| - 1];
      forall i | 0 <= i < |front| ensures front[i].num <= last.num - 1 {
        assert s[i].num < s[|s| - 1].num;
      }
      NumberedFew(front, since, last.num - 1);
    }
  }

  lemma ReasonsTotal(a: Reason, b: Reason, c: Reason)
    ensures Total([]) == 0 && Total(Counted(c)) == c.count && Total([] + Counted(c)) == c.count
    ensures Total(Counted(a) + Counted(b) + Counted(c)) == a.count + b.count + c.count
    ensures Total(Counted(a) + Counted(b) + []) == a.count + b.count
  {
    TotalSplit(Counted(a), Counted(b));
    TotalSplit(Counted(a) + Counted(b), Counted(c));
    One(a);
    One(b);
    One(c);
    assert Counted(a) + Counted(b) + [] == Counted(a) + Counted(b) && [] + Counted(c) == Counted(c);
  }

  lemma One(a: Reason)
    ensures Total(Counted(a)) == a.count
  {
    assert [a][..0] == [];
  }

  lemma {:induction false} TotalSplit(a: seq<Reason>, b: seq<Reason>)
    ensures Total(a + b) == Total(a) + Total(b)
  {
    if b == [] {
      assert a + b == a;
    } else {
      assert (a + b)[..|a + b| - 1] == a + b[..|b| - 1];
      TotalSplit(a, b[..|b| - 1]);
    }
  }

  /**
   Nothing goes uncounted: for every feed, cursor and limit, an unfiltered poll delivers the numbers
   past its cursor in order, and the events it delivers and the gap it reports add up to the advance
   of the cursor; the gap's reasons add up to the gap.
   */
  lemma PollConserves(f: Feed, since: nat, limit: int, now: real)
    requires Numbered(f.events, f.next) && f.next >= since
    ensures var r := EventFeed(f, since, limit, None, false, now);
            && |r.events| + (if r.gap.Some? then r.gap.value.count else 0) == f.next - since
            && (r.gap.Some? ==> r.gap.value.count == Total(r.gap.value.reasons) > 0)
            && (r.dropped <==> r.gap.Some?)
            && Numbered(r.events, f.next) && (forall e | e in r.events :: e.num > since && e in f.events)
            && (limit > 0 ==> |r.events| <= limit)
  {
    hide Numbered, Recent, Newer, Total, Last, Through, Losses, Counted;
    var expiry := Through(f.events, now - DAY, f.retentionThrough);
    var held := Recent(f.events, now - DAY);
    RecentNumbered(f.events, now - DAY, f.next);
    RecentSubset(f.events, now - DAY);
    var news := Newer(held, since);
    NewerNumbered(held, since, f.next);
    FewNewer(news, since, f.next);
    LossesTotal(f.next, since, |news|, expiry, Skipped(|news|, limit));
    NumberedLast(news, f.next, if limit > 0 then limit else 0);
  }

  lemma LossesTotal(next: nat, since: nat, got: nat, expiry: nat, skipped: nat)
    requires got <= next - since
    ensures Total(Losses(next, since, got, expiry) + Counted(OverLimit(skipped))) == next - since - got + skipped
  {
    var lost := Positive(next - since - got);
    var retention := MinNat(lost, Positive(MinNat(next, expiry) - since));
    ReasonsTotal(Retained(retention), Overwritten(lost - retention), OverLimit(skipped));
    hide Total, Counted;
  }

  lemma FewNewer(s: seq<FeedEvent>, since: nat, top: nat)
    requires Numbered(s, top) && (forall e | e in s :: e.num > since) && since <= top
    ensures |s| <= top - since
  {
    assert forall i | 0 <= i < |s| :: s[i] in s;
    NumberedFew(s, since, top);
  }

  /** A first load brings history in order; what it leaves out is told by `truncated`, not as a gap. */
  lemma FirstLoad(f: Feed, since: nat, limit: int, kinds: Option<set<string>>, now: real)
    requires Numbered(f.events, f.next)
    ensures var r := EventFeed(f, since, limit, kinds, true, now);
            r.gap.None? && !r.dropped && (r.truncated <==> |r.events| < f.next)
  {
    assert Total([]) == 0;
    assert Total([] + []) == 0;
  }

  lemma {:induction false} NewerMembers(s: seq<FeedEvent>, since: nat, e: FeedEvent)
    ensures e in Newer(s, since) <==> e in s && e.num > since
  {
    if s != [] {
      NewerMembers(s[..|s| - 1], since, e);
      assert s == s[..|s| - 1] + [s[|s| - 1]];
    }
  }

  lemma {:induction false} KindMembers(s: seq<FeedEvent>, kinds: Option<set<string>>, e: FeedEvent)
    ensures e in OfKinds(s, kinds) <==> e in s && (kinds.None? || e.kind in kinds.value)
  {
    if kinds.Some? && s != [] {
      KindMembers(s[..|s| - 1], kinds, e);
      assert s == s[..|s| - 1] + [s[|s| - 1]];
    }
  }

  lemma {:induction false} KindsNumbered(s: seq<FeedEvent>, kinds: Option<set<string>>, top: nat)
    requires Numbered(s, top)
    ensures Numbered(OfKinds(s, kinds), top)
  {
    if kinds.Some? && s != [] {
      var front, last := s[..|s| - 1], s[|s| - 1];
      LastIsTop(s, top);
      hide Numbered;
      KindsNumbered(front, kinds, top);
      forall e | e in OfKinds(front, kinds) ensures e.num < last.num {
        KindMembers(front, kinds, e);
      }
      if last.kind in kinds.value { NumberedSnoc(OfKinds(front, kinds), last, top); }
    }
  }

  /** How far ageing is known to have reached: as far as the feed says, or to its last event that has aged since. */
  lemma {:induction false} ThroughMeans(s: seq<FeedEvent>, cutoff: real, floor: nat)
    ensures var n := Through(s, cutoff, floor);
            && n >= floor && (forall e | e in s && e.at <= cutoff :: e.num <= n)
            && (n == floor || exists e :: e in s && e.at <= cutoff && e.num == n)
  {
    if s != [] {
      ThroughMeans(s[..|s| - 1], cutoff, floor);
      assert s == s[..|s| - 1] + [s[|s| - 1]];
      var e := s[|s| - 1];
      assert e in s;
    }
  }

  /** Expiry takes from the stored feed exactly the events that have aged, and the feed then says how far that reached. */
  lemma ExpiredFeed(db: Db, cutoff: real, victims: set<nat>)
    requires db.feed.Some?
    ensures Expired(db, cutoff, victims).feed.Some?
    ensures var f, g := db.feed.value, Expired(db, cutoff, victims).feed.value;
            && g.next == f.next && g.streamId == f.streamId && (forall e :: e in g.events <==> e in f.events && e.at > cutoff)
            && g.retentionThrough >= f.retentionThrough && (forall e | e in f.events && e.at <= cutoff :: e.num <= g.retentionThrough)
            && (g.retentionThrough == f.retentionThrough || exists e :: e in f.events && e.at <= cutoff && e.num == g.retentionThrough)
  {
    hide Recent, Through;
    var f := db.feed.value;
    ThroughMeans(f.events, cutoff, f.retentionThrough);
    forall e ensures e in Recent(f.events, cutoff) <==> e in f.events && e.at > cutoff { RecentMembers(f.events, cutoff, e); }
  }

  /**
   What a gap says.  Of the numbers past the cursor that history no longer holds, those up to `reach`, as
   far as ageing is known to have reached, are told as aged out and the others as overwritten; what
   exceeds the limit is told apart.  Nothing is told of a kind of loss that did not occur.
   */
  lemma GapTells(f: Feed, since: nat, limit: int, now: real, reach: nat)
    requires Numbered(f.events, f.next) && since <= f.next
    requires reach == Through(f.events, now - 86400.0, f.retentionThrough) <= f.next
    ensures var held := |Newer(Recent(f.events, now - 86400.0), since)|;
            var gone, over := f.next - since - held, if limit > 0 && held > limit then held - limit else 0;
            var aged := if reach <= since then 0 else if reach - since < gone then reach - since else gone;
            var gap := EventFeed(f, since, limit, None, false, now).gap;
            && gone >= 0 && (gap.None? <==> gone + over == 0)
            && (gap.Some? ==> gap.value.count == gone + over)
            && (gap.Some? ==> forall r :: r in gap.value.reasons <==> r in {Retained(aged), Overwritten(gone - aged), OverLimit(over)} && r.count > 0)
  {
    hide Numbered, Recent, Newer, Total, Last, Through;
    var held := Recent(f.events, now - DAY);
    var news := Newer(held, since);
    RecentNumbered(f.events, now - DAY, f.next);
    RecentSubset(f.events, now - DAY);
    NewerNumbered(held, since, f.next);
    FewNewer(news, since, f.next);
    LossesTotal(f.next, since, |news|, reach, Skipped(|news|, limit));
  }

  /** The event is one the poll asks for: of the last day, past the cursor unless this is a first load, and of a kind asked for. */
  ghost predicate Asked(f: Feed, e: FeedEvent, since: nat, kinds: Option<set<string>>, initial: bool, now: real) {
    e in f.events && e.at > now - 86400.0 && (initial || e.num > since) && (kinds.None? || e.kind in kinds.value)
  }

  /**
   What a poll delivers: the events asked for and nothing else, in order; all of them, or, where a limit
   is exceeded, as many as the limit and each later than any it leaves out.
   */
  lemma PollDelivers(f: Feed, since: nat, limit: int, kinds: Option<set<string>>, initial: bool, now: real)
    requires Numbered(f.events, f.next)
    ensures var r := EventFeed(f, since, limit, kinds, initial, now);
            && r.next == f.next && r.streamId == f.streamId && Numbered(r.events, f.next)
            && (forall e | e in r.events :: Asked(f, e, since, kinds, initial, now))
            && (limit <= 0 || |r.events| < limit ==> forall e | Asked(f, e, since, kinds, initial, now) :: e in r.events)
            && (limit > 0 ==> |r.events| <= limit)
            && (forall e, d | Asked(f, e, since, kinds, initial, now) && e !in r.events && d in r.events :: e.num < d.num)
  {
    hide Numbered, Recent, Newer, OfKinds, Total, Through, Losses, Counted, Last;
    var held := Recent(f.events, now - DAY);
    var news := if initial then held else Newer(held, since);
    var wanted := OfKinds(news, kinds);
    RecentNumbered(f.events, now - DAY, f.next);
    NewerNumbered(held, since, f.next);
    KindsNumbered(news, kinds, f.next);
    forall e ensures e in wanted <==> Asked(f, e, since, kinds, initial, now) {
      RecentMembers(f.events, now - DAY, e);
      NewerMembers(held, since, e);
      KindMembers(news, kinds, e);
    }
    hide Asked;
    LastOf(wanted, f.next, if limit > 0 then limit else |wanted|);
    NumberedLast(wanted, f.next, if limit > 0 then limit else |wanted|);
  }

  lemma LastOf(s: seq<FeedEvent>, top: nat, n: nat)
    requires Numbered(s, top)
    ensures |Last(s, n)| == MinNat(|s|, n) && forall e | e in Last(s, n) :: e in s
    ensures |s| <= n ==> Last(s, n) == s
    ensures forall e, d | e in s && e !in Last(s, n) && d in Last(s, n) :: e.num < d.num
  {
    var r := Last(s, n);
    forall e, d | e in s && e !in r && d in r ensures e.num < d.num {
      var i :| 0 <= i < |s| && s[i] == e;
      var j :| 0 <= j < |r| && r[j] == d;
      assert s[|s| - |r| + j] == d;
      LastFrom(s, n, i);
    }
  }

  lemma LastFrom(s: seq<FeedEvent>, n: nat, i: nat)
    requires i < |s|
    ensures i >= |s| - n ==> s[i] in Last(s, n)
  {
    if i >= |s| - n { assert Last(s, n)[i - (|s| - |Last(s, n)|)] == s[i]; }
  }

  // ---- polls after a restart -------------------------------------------------------------

  lemma {:induction false} ThroughFloor(s: seq<FeedEvent>, cutoff: real, m: nat, n: nat)
    ensures Through(s, cutoff, MaxNat(m, n)) == MaxNat(Through(s, cutoff, m), n)
  {
    if s != [] { ThroughFloor(s[..|s| - 1], cutoff, m, n); }
  }

  /** How far ageing reached, when it happened in two steps. */
  lemma {:induction false} ThroughSplit(s: seq<FeedEvent>, c: real, d: real, m: nat)
    requires c <= d
    ensures Through(s, d, m) == MaxNat(Through(Recent(s, c), d, m), Through(s, c, 0))
  {
    if s != [] {
      var front, last := s[..|s| - 1], s[|s| - 1];
      ThroughSplit(front, c, d, m);
      if last.at > c {
        var r := Recent(front, c);
        assert (r + [last])[..|r|] == r;
      }
    }
  }

  lemma {:induction false} ThroughWithin(s: seq<FeedEvent>, cutoff: real, top: nat)
    requires Numbered(s, top)
    ensures Through(s, cutoff, 0) <= top
  {
    if s != [] {
      assert Numbered(s[..|s| - 1], top);
      ThroughWithin(s[..|s| - 1], cutoff, top);
    }
  }

  /** The feed an engine publishes after a snapshot. */
  lemma SnapshotFeed(v: EngineV, now: real, routes: seq<Key>, cfg: Settings)
    requires cfg.Valid()
    ensures FeedOf(Snapshotted(v, now, routes, cfg))
         == Feed(Recent(v.events, Horizon(now)), v.eventSeq, v.streamId, Through(v.events, Horizon(now), v.retentionThrough))
  {
    hide Recent, Through;
    WeighedKeepsFeed(Aged(v.(now := now, retentionThrough := Through(v.events, Horizon(now), v.retentionThrough)), Horizon(now)), routes, cfg);
  }

  /** What an engine restarted at `start` publishes at `now`, and what it would have published unrestarted. */
  lemma RestartedFeed(v: EngineV, start: real, clock: real, now: real, routes: seq<Key>, cfg: Settings)
    requires cfg.Valid() && FeedOK(v) && start <= now
    ensures var stayed, again := FeedOf(Snapshotted(v, now, routes, cfg)), FeedOf(Snapshotted(Restored(v, Horizon(start), clock), now, routes, cfg));
            && again == stayed.(retentionThrough := again.retentionThrough)
            && again.retentionThrough == Through(Recent(v.events, Horizon(start)), Horizon(now), v.retentionThrough)
            && stayed.retentionThrough == MaxNat(again.retentionThrough, Through(v.events, Horizon(start), 0))
  {
    hide Recent, Through, FeedOK, Snapshotted;
    SnapshotFeed(v, now, routes, cfg);
    RestoreIsQuiet(v, Horizon(start), clock);
    SnapshotFeed(Restored(v, Horizon(start), clock), now, routes, cfg);
    RecentTwice(v.events, Horizon(start), Horizon(now));
    ThroughSplit(v.events, Horizon(start), Horizon(now), v.retentionThrough);
  }

  /** Which losses are labelled as aged changes with the known reach exactly when the extra reach matters. */
  lemma LossesAgree(next: nat, since: nat, got: nat, reach: nat, forgotten: nat)
    requires since <= next && forgotten <= next
    ensures Losses(next, since, got, MaxNat(reach, forgotten)) == Losses(next, since, got, reach)
            <==> next - since <= got || forgotten <= since || forgotten <= reach || next - got <= reach
  {
    var lost := Positive(next - since - got);
    var more := MinNat(lost, Positive(MinNat(next, MaxNat(reach, forgotten)) - since));
    var less := MinNat(lost, Positive(MinNat(next, reach) - since));
    CountedDiffer(more, less, lost);
  }

  lemma CountedDiffer(m: nat, n: nat, lost: nat)
    requires m <= lost && n <= lost
    ensures Counted(Retained(m)) + Counted(Overwritten(lost - m)) == Counted(Retained(n)) + Counted(Overwritten(lost - n)) <==> m == n
  {
    var a, b := Counted(Retained(m)) + Counted(Overwritten(lost - m)), Counted(Retained(n)) + Counted(Overwritten(lost - n));
    if a == b && lost > 0 { assert a[0] == b[0]; }
  }

  /**
   What a restart costs a poller.  A restart forgets how far the events it dropped reached; the poller
   is told the same as without the restart exactly when it is loading, or missed nothing, or lies at or
   past the largest number the restart dropped, or the reach still known to the restarted feed covers
   that number or everything missed.  Only labels are at stake: the events delivered and the count
   missed are the same in any case.
   */
  lemma RestartRelabels(v: EngineV, start: real, clock: real, now: real, routes: seq<Key>, cfg: Settings,
                        since: nat, limit: int, kinds: Option<set<string>>, initial: bool, at: real)
    requires cfg.Valid() && FeedOK(v) && start <= now
    ensures var stayed, again := FeedOf(Snapshotted(v, now, routes, cfg)), FeedOf(Snapshotted(Restored(v, Horizon(start), clock), now, routes, cfg));
            var told, told' := EventFeed(stayed, since, limit, kinds, initial, at), EventFeed(again, since, limit, kinds, initial, at);
            var got := |Newer(Recent(again.events, at - DAY), since)|;
            var reach, dropped := Through(again.events, at - DAY, again.retentionThrough), Through(v.events, Horizon(start), 0);
            && told'.events == told.events && told'.next == told.next && told'.dropped == told.dropped
            && told'.gap.Some? == told.gap.Some? && (told.gap.Some? ==> told'.gap.value.count == told.gap.value.count)
            && (told' == told <==>
                  initial || again.next - since <= got || dropped <= since || dropped <= reach || again.next - got <= reach)
  {
    hide Recent, Through, FeedOK, Snapshotted, Restored, Newer, OfKinds, Sent, Losses, FeedOf;
    RestartedFeed(v, start, clock, now, routes, cfg);
    var stayed, again := FeedOf(Snapshotted(v, now, routes, cfg)), FeedOf(Snapshotted(Restored(v, Horizon(start), clock), now, routes, cfg));
    var dropped := Through(v.events, Horizon(start), 0);
    DroppedWithin(v, Horizon(start));
    FeedNext(v, now, routes, cfg);
    ThroughFloor(again.events, at - DAY, again.retentionThrough, dropped);
    RelabelledPoll(again, dropped, since, limit, kinds, initial, at);
  }

  lemma DroppedWithin(v: EngineV, cutoff: real)
    requires FeedOK(v)
    ensures Through(v.events, cutoff, 0) <= v.eventSeq
  {
    ThroughWithin(v.events, cutoff, v.eventSeq);
  }

  lemma FeedNext(v: EngineV, now: real, routes: seq<Key>, cfg: Settings)
    requires cfg.Valid()
    ensures FeedOf(Snapshotted(v, now, routes, cfg)).next == v.eventSeq
  {
    SnapshotFeed(v, now, routes, cfg);
  }

  lemma RelabelledPoll(f: Feed, dropped: nat, since: nat, limit: int, kinds: Option<set<string>>, initial: bool, at: real)
    requires dropped <= f.next
    requires Through(f.events, at - DAY, MaxNat(f.retentionThrough, dropped)) == MaxNat(Through(f.events, at - DAY, f.retentionThrough), dropped)
    ensures var g := f.(retentionThrough := MaxNat(f.retentionThrough, dropped));
            var told, told' := EventFeed(g, since, limit, kinds, initial, at), EventFeed(f, since, limit, kinds, initial, at);
            var got := |Newer(Recent(f.events, at - DAY), since)|;
            var reach := Through(f.events, at - DAY, f.retentionThrough);
            && told'.events == told.events && told'.next == told.next && told'.dropped == told.dropped
            && told'.gap.Some? == told.gap.Some? && (told.gap.Some? ==> told'.gap.value.count == told.gap.value.count)
            && (told' == told <==> initial || f.next - since <= got || dropped <= since || dropped <= reach || f.next - got <= reach)
  {
    hide Recent, Through, Newer, OfKinds, Losses, Total, Sent;
    var g := f.(retentionThrough := MaxNat(f.retentionThrough, dropped));
    var news := if initial then Recent(f.events, at - DAY) else Newer(Recent(f.events, at - DAY), since);
    var reach := Through(f.events, at - DAY, f.retentionThrough);
    var tail := Counted(OverLimit(Skipped(|OfKinds(news, kinds)|, limit)));
    if !initial && f.next >= since {
      var a, b := Losses(f.next, since, |news|, MaxNat(reach, dropped)), Losses(f.next, since, |news|, reach);
      LossesAgree(f.next, since, |news|, reach, dropped);
      LossesSum(f.next, since, |news|, MaxNat(reach, dropped), tail);
      LossesSum(f.next, since, |news|, reach, tail);
      SameFront(a, b, tail);
    }
  }

  /** The labels split the loss; they do not change it. */
  lemma LossesSum(next: nat, since: nat, got: nat, expiry: nat, tail: seq<Reason>)
    ensures Total(Losses(next, since, got, expiry) + tail) == Positive(next - since - got) + Total(tail)
    ensures Losses(next, since, got, expiry) == [] <==> Positive(next - since - got) == 0
  {
    var lost := Positive(next - since - got);
    var retention := MinNat(lost, Positive(MinNat(next, expiry) - since));
    TotalSplit(Losses(next, since, got, expiry), tail);
    TotalSplit(Counted(Retained(retention)), Counted(Overwritten(lost - retention)));
    One(Retained(retention));
    One(Overwritten(lost - retention));
  }

  lemma SameFront(a: seq<Reason>, b: seq<Reason>, tail: seq<Reason>)
    ensures a + tail == b + tail <==> a == b
  {
    if a + tail == b + tail {
      assert |a| == |b|;
      assert a == (a + tail)[..|a|] && b == (b + tail)[..|a|];
    }
  }

  /** One engine, one restart, one poll: told "overwritten" of an event that had in truth aged out. */
  lemma RestartMislabels(v: EngineV, e: FeedEvent, clock: real, cfg: Settings)
    requires cfg.Valid() && v.events == [e] && e.at == 0.0 && e.num == 1 && v.eventSeq == 1 && v.retentionThrough == 0
    requires e.level == EventLevel(e.kind, e.level, e.detail)
    ensures var start := 86340.0;
            && EventFeed(FeedOf(Snapshotted(v, start, [], cfg)), 0, 400, None, false, start).gap == Some(Gap(1, [Retained(1)]))
            && EventFeed(FeedOf(Snapshotted(Restored(v, Horizon(start), clock), start, [], cfg)), 0, 400, None, false, start).gap
               == Some(Gap(1, [Overwritten(1)]))
  {
    var start := 86340.0;
    hide EventLevel, Snapshotted, Restored, FeedOf;
    assert FeedOK(v);
    SnapshotFeed(v, start, [], cfg);
    RestartedFeed(v, start, clock, start, [], cfg);
    assert [e][..0] == [];
    assert Recent([e], 0.0) == [] && Through([e], 0.0, 0) == 1 && Through([], 0.0, 0) == 0;
    OneLoss(Feed([], 1, v.streamId, 1), start, 1);
    OneLoss(Feed([], 1, v.streamId, 0), start, 0);
  }

  lemma OneLoss(f: Feed, at: real, aged: nat)
    requires f.events == [] && f.next == 1 && f.retentionThrough == aged <= 1
    ensures EventFeed(f, 0, 400, None, false, at).gap == Some(Gap(1, if aged == 1 then [Retained(1)] else [Overwritten(1)]))
  {
    assert Recent([], at - DAY) == [] && Newer([], 0) == [] && Through([], at - DAY, aged) == aged;
    One(Retained(1));
    One(Overwritten(1));
    assert Counted(Retained(aged)) + Counted(Overwritten(1 - aged)) + Counted(OverLimit(0)) == if aged == 1 then [Retained(1)] else [Overwritten(1)];
  }

  // ---- many polls -----------------------------------------------------------------------

  class Poller {
    var events: seq<FeedEvent>
    var cursor: nat
    var loaded: bool
    var streamId: string
    var gap: Option<Gap>
    var missed: nat
    var unknownGaps: nat
    var legacyLower: Option<nat>
    /** Where the named stream's first load ended, what was missed by then, and every event accepted since. */
    ghost var base: nat
    ghost var before: nat
    ghost var accepted: seq<FeedEvent>

    /** Accepted and missed events make up the whole advance since the first load. */
    ghost predicate Valid()
      reads this
    {
      loaded && streamId != "" ==>
        && base <= cursor && before <= missed
        && |accepted| + (missed - before) == cursor - base
        && Numbered(accepted, cursor)
    }

    constructor ()
      ensures Valid() && !loaded && cursor == 0 && streamId == ""
    {
      events, cursor, loaded, streamId, gap, missed, unknownGaps, legacyLower := [], 0, false, "", None, 0, 0, None;
      base, before, accepted := 0, 0, [];
    }

    method Reset()
      modifies this
      ensures events == [] && cursor == 0 && !loaded && gap == None && missed == 0 && unknownGaps == 0
      ensures accepted == [] && streamId == old(streamId) && legacyLower == old(legacyLower)
    {
      events, cursor, loaded, gap, missed, unknownGaps := [], 0, false, None, 0, 0;
      accepted := [];
    }

    /** `_accept_feed`: false when the reply is of another generation or stale. */
    method Accept(r: Reply) returns (ok: bool)
      requires Valid()
      requires loaded && streamId != "" && r.streamId in ["", streamId] && r.next >= cursor ==>
                 && Numbered(r.events, r.next) && (forall e | e in r.events :: e.num > cursor)
                 && (r.gap.None? ==> !r.dropped)
                 && |r.events| + (if r.gap.Some? then r.gap.value.count else 0) == r.next - cursor
      modifies this
      ensures Valid()
      ensures old(streamId) != "" && r.streamId != "" && r.streamId != old(streamId) ==>
                !ok && cursor == 0 && !loaded && missed == 0 && events == [] && streamId == r.streamId
      ensures old(streamId) in ["", r.streamId] && r.streamId != "" && r.next < old(cursor) ==>
                && !ok && streamId == old(streamId) && cursor == old(cursor) && events == old(events) && missed == old(missed) && loaded == old(loaded)
                && gap == old(gap) && accepted == old(accepted) && base == old(base) && before == old(before)
      ensures old(streamId) in ["", r.streamId] && r.streamId != "" && r.next >= old(cursor) ==>
                ok && loaded && cursor == r.next && streamId == r.streamId
      ensures old(streamId) in ["", r.streamId] && r.streamId != "" && r.next >= old(cursor) && !(old(loaded) && old(streamId) != "") ==>
                base == cursor && before == missed && accepted == []
      ensures old(streamId) == r.streamId != "" && r.next >= old(cursor) && old(loaded) ==>
                && base == old(base) && before == old(before) && accepted == old(accepted) + r.events
                && missed == old(missed) + if r.gap.Some? then r.gap.value.count else 0
      ensures ok ==> events == Last((if r.next < old(cursor) then [] else old(events)) + Newer(r.events, if r.next < old(cursor) then 0 else old(cursor)), 4000)
      ensures ok && old(loaded) && r.next >= old(cursor) ==> gap == if r.gap.Some? then r.gap else if r.dropped then Some(Gap(0, [])) else old(gap)
      ensures ok && old(loaded) && r.next >= old(cursor) ==>
                && missed == old(missed) + (if r.gap.Some? then r.gap.value.count else 0)
                && unknownGaps == old(unknownGaps) + if r.gap.None? && r.dropped then 1 else 0
      ensures ok && !old(loaded) && r.next >= old(cursor) ==> gap == old(gap) && missed == old(missed) && unknownGaps == old(unknownGaps)
      // a server that names no stream: a lower number is believed when it comes twice
      ensures ok ==> loaded && cursor == r.next && legacyLower == None && streamId == if r.streamId != "" then r.streamId else old(streamId)
      ensures r.streamId == "" ==> (ok <==> r.next >= old(cursor) || old(legacyLower) == Some(r.next))
      ensures r.streamId == "" && !ok ==>
                && legacyLower == Some(r.next) && streamId == old(streamId) && cursor == old(cursor) && events == old(events) && loaded == old(loaded)
                && gap == old(gap) && missed == old(missed) && unknownGaps == old(unknownGaps)
      ensures r.streamId == "" && r.next < old(cursor) && ok ==> gap == None && missed == 0 && unknownGaps == 0
    {
      hide Numbered, Last, Newer;
      if r.streamId != "" && streamId != "" && r.streamId != streamId {
        Reset();
        streamId := r.streamId;
        return false;
      }
      if r.next < cursor {
        if r.streamId != "" { return false; }
        if legacyLower != Some(r.next) {
          legacyLower := Some(r.next);
          return false;
        }
        Reset();
      }
      legacyLower := None;
      Absorb(r);
      ok := true;
    }

    /**
     One poll of a feed that names its stream, by a poller in any state: ask for what lies past the
     cursor, accept the reply.  Another stream's reply starts over; a stale one changes nothing; any
     other moves the cursor to the feed's.  The first one accepted sets the base; from then on the
     events a poll brings and the events it misses fill the distance it moves.
     */
    method Poll(f: Feed, limit: int, now: real) returns (ok: bool)
      requires Valid() && f.streamId != "" && Numbered(f.events, f.next)
      modifies this
      ensures Valid()
      ensures ok <==> old(streamId) in ["", f.streamId] && f.next >= old(cursor)
      ensures ok ==> loaded && cursor == f.next && streamId == f.streamId
      ensures ok && !(old(loaded) && old(streamId) != "") ==> base == cursor && before == missed && accepted == []
      ensures ok ==> events == Last(old(events) + Newer(EventFeed(f, old(cursor), limit, None, !old(loaded), now).events, old(cursor)), 4000)
      ensures ok && old(loaded) && old(streamId) != "" ==>
                && base == old(base) && before == old(before) && old(accepted) <= accepted && missed >= old(missed)
                && (|accepted| - |old(accepted)|) + (missed - old(missed)) == cursor - old(cursor)
      ensures !ok && old(streamId) in ["", f.streamId] ==>
                cursor == old(cursor) && accepted == old(accepted) && missed == old(missed) && loaded == old(loaded) && streamId == old(streamId)
      ensures !ok && old(streamId) !in ["", f.streamId] ==> !loaded && cursor == 0 && streamId == f.streamId
    {
      hide EventFeed, Numbered, Newer, Last;
      var r := EventFeed(f, cursor, limit, None, !loaded, now);
      ReplyNames(f, cursor, limit, !loaded, now);
      if loaded && f.next >= cursor { PollConserves(f, cursor, limit, now); }
      ok := Accept(r);
    }

    /** What a reply says it left out, in the gap shown and in the totals. */
    method CountMissed(r: Reply)
      modifies this`gap, this`missed, this`unknownGaps
      ensures gap == if r.gap.Some? then r.gap else if r.dropped then Some(Gap(0, [])) else old(gap)
      ensures missed == old(missed) + if r.gap.Some? then r.gap.value.count else 0
      ensures unknownGaps == old(unknownGaps) + if r.gap.None? && r.dropped then 1 else 0
    {
      if r.gap.Some? || r.dropped {
        gap := if r.gap.Some? then r.gap else Some(Gap(0, []));
        if r.gap.None? { unknownGaps := unknownGaps + 1; } else { missed := missed + r.gap.value.count; }
      }
    }

    /** The rest of `_accept_feed`: note a gap, take the events, move the cursor. */
    method Absorb(r: Reply)
      requires Valid() && r.next >= cursor
      requires loaded && streamId != "" && r.streamId in ["", streamId] ==>
                 && Numbered(r.events, r.next) && (forall e | e in r.events :: e.num > cursor)
                 && (r.gap.None? ==> !r.dropped)
                 && |r.events| + (if r.gap.Some? then r.gap.value.count else 0) == r.next - cursor
      requires streamId != "" && r.streamId != "" ==> r.streamId == streamId
      modifies this
      ensures Valid() && loaded && cursor == r.next && streamId == if r.streamId != "" then r.streamId else old(streamId)
      ensures !(old(loaded) && old(streamId) != "") && streamId != "" ==> base == cursor && before == missed && accepted == []
      ensures old(loaded) && old(streamId) != "" ==>
                && base == old(base) && before == old(before) && accepted == old(accepted) + r.events
                && missed == old(missed) + if r.gap.Some? then r.gap.value.count else 0
      ensures events == Last(old(events) + Newer(r.events, old(cursor)), 4000)
      ensures old(loaded) ==> gap == if r.gap.Some? then r.gap else if r.dropped then Some(Gap(0, [])) else old(gap)
      ensures old(loaded) ==>
                && missed == old(missed) + (if r.gap.Some? then r.gap.value.count else 0)
                && unknownGaps == old(unknownGaps) + if r.gap.None? && r.dropped then 1 else 0
      ensures !old(loaded) ==> gap == old(gap) && missed == old(missed) && unknownGaps == old(unknownGaps)
      ensures legacyLower == old(legacyLower)
    {
      hide Newer, Last, Numbered;
      ghost var adopted := streamId == "" && r.streamId != "";
      if r.streamId != "" { streamId := r.streamId; }
      if loaded {
        CountMissed(r);
        AcceptedNumbered(accepted, cursor, r.events, r.next);
        accepted := accepted + r.events;
      }
      if !loaded || adopted {
        base, before, accepted := r.next, missed, [];
        NoneNumbered(r.next);
      }
      events := Last(events + Newer(r.events, cursor), KEPT);
      cursor := r.next;
      loaded := true;
    }
  }

  lemma ReplyNames(f: Feed, since: nat, limit: int, initial: bool, now: real)
    ensures var r := EventFeed(f, since, limit, None, initial, now); r.next == f.next && r.streamId == f.streamId
  {
  }

  lemma NoneNumbered(top: nat)
    ensures Numbered([], top)
  {
  }

  lemma AcceptedNumbered(a: seq<FeedEvent>, cursor: nat, b: seq<FeedEvent>, next: nat)
    ensures Numbered(a, cursor) && cursor <= next && Numbered(b, next) && (forall e | e in b :: e.num > cursor) ==> Numbered(a + b, next)
  {
    if Numbered(a, cursor) && cursor <= next && Numbered(b, next) && forall e | e in b :: e.num > cursor {
      var s := a + b;
      forall i, j | 0 <= i < j < |s| ensures s[i].num < s[j].num {
        if i < |a| <= j { assert b[j - |a|] in b; }
      }
    }
  }
}
