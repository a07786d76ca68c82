/**
 Crash transparency of the engine: a process rebuilt from a checkpoint and fed the rest of the
 journal ends where the process that never stopped would be, once both have aged out what the
 restart aged out.  The feed is compared elsewhere (Exchange); here it is left aside.
 */
module Recovery {
  import opened Prelude
  import opened Ledger
  import opened Penalties
  import opened Levels
  import opened Quota
  import opened EngineModel
  import Histories

  // ---- attempt identity -----------------------------------------------------------------

  ghost predicate Located(v: EngineV, k: Key, i: nat, id: Id) {
    k in v.states && i < |v.states[k].sent| && v.states[k].sent[i].attempt == Some(id)
  }

  /** No two ledger entries carry the same attempt id. */
  ghost predicate UniqueIds(v: EngineV) {
    forall k, i: nat, l, j: nat, id | Located(v, k, i, id) && Located(v, l, j, id) :: k == l && i == j
  }

  /** A pending attempt and the ledger entry bearing its id are one and the same record. */
  ghost predicate Consistent(v: EngineV) {
    && (forall id | id in v.pending :: v.pending[id].entry.attempt == Some(id))
    && (forall id, k, i: nat | id in v.pending && Located(v, k, i, id) :: v.states[k].sent[i] == v.pending[id].entry)
  }

  ghost predicate IdentityOK(v: EngineV) { UniqueIds(v) && Consistent(v) }

  /** No ledger entry carries this id. */
  ghost predicate Unlocated(v: EngineV, id: Id) {
    forall k, i: nat :: !Located(v, k, i, id)
  }

  /** Attempt ids are drawn once: a dispatch never reuses one that a ledger still holds. */
  ghost predicate FreshDispatch(v: EngineV, e: Observation) {
    e.body.Dispatch? && e.body.id !in v.pending ==> Unlocated(v, e.body.id)
  }

  /** Attempts whose dispatch had aged out by the cutoff. */
  ghost predicate Stale(v: EngineV, id: Id, cutoff: real) {
    id in v.pending && v.pending[id].entry.at <= cutoff
  }

  /** No id twice in one ledger. */
  ghost predicate DistinctIds(s: seq<EntryV>) {
    forall i, j | 0 <= i < j < |s| :: s[i].attempt.Some? ==> s[i].attempt != s[j].attempt
  }

  lemma {:induction false} KeepDistinct(s: seq<EntryV>, cutoff: real)
    requires DistinctIds(s)
    ensures DistinctIds(Keep(s, cutoff))
    ensures forall e | e in Keep(s, cutoff) :: e in s
  {
    if s != [] {
      var front := s[..|s| - 1];
      KeepDistinct(front, cutoff);
      assert s == front + [s[|s| - 1]];
      forall e | e in Keep(front, cutoff) && e.attempt.Some? ensures e.attempt != s[|s| - 1].attempt {
        var i :| 0 <= i < |front| && front[i] == e;
        assert s[i] == e;
      }
    }
  }

  /** A checkpoint that identifies attempts without ambiguity still does after it has aged. */
  lemma AgedIdentity(v: EngineV, cutoff: real)
    requires IdentityOK(v)
    ensures IdentityOK(Aged(v, cutoff))
  {
    var w := Aged(v, cutoff);
    forall k | k in v.states
      ensures DistinctIds(w.states[k].sent) && forall e | e in w.states[k].sent :: e in v.states[k].sent
    {
      var s := v.states[k].sent;
      forall i: nat, j: nat | i < j < |s| && s[i].attempt.Some? ensures s[i].attempt != s[j].attempt {
        var id := s[i].attempt.value;
        assert Located(v, k, i, id) && !Located(v, k, j, id);
      }
      KeepDistinct(s, cutoff);
    }
    hide Keep;
    forall k, i: nat, l, j: nat, id | Located(w, k, i, id) && Located(w, l, j, id) ensures k == l && i == j {
      var i' := Origin(v, w, k, i, id);
      var j' := Origin(v, w, l, j, id);
    }
    forall id, k, i: nat | id in w.pending && Located(w, k, i, id) ensures w.states[k].sent[i] == w.pending[id].entry {
      var i' := Origin(v, w, k, i, id);
    }
  }

  lemma RestoredIdentity(v: EngineV, cutoff: real, now: real)
    requires IdentityOK(v)
    ensures IdentityOK(Restored(v, cutoff, now)) && UniqueIds(Restored(v, cutoff, now))
  {
    AgedIdentity(v, cutoff);
    var a, w := Aged(v, cutoff), Restored(v, cutoff, now);
    assert w == a.(events := w.events, now := now);
    hide Aged, Restored;
    forall k, i: nat, l, j: nat, id | Located(w, k, i, id) && Located(w, l, j, id) ensures k == l && i == j {
      assert Located(a, k, i, id) && Located(a, l, j, id);
    }
    forall id, k, i: nat | id in w.pending && Located(w, k, i, id) ensures w.states[k].sent[i] == w.pending[id].entry {
      assert Located(a, k, i, id);
    }
  }

  lemma Origin(v: EngineV, w: EngineV, k: Key, i: nat, id: Id) returns (j: nat)
    requires Located(w, k, i, id) && k in v.states && forall e | e in w.states[k].sent :: e in v.states[k].sent
    ensures Located(v, k, j, id) && v.states[k].sent[j] == w.states[k].sent[i]
  {
    assert w.states[k].sent[i] in v.states[k].sent;
    j :| 0 <= j < |v.states[k].sent| && v.states[k].sent[j] == w.states[k].sent[i];
  }

  // ---- what ageing commutes with -----------------------------------------------------------

  function Core(v: EngineV): EngineV { v.(events := []) }

  function AgedRoute(r: RouteV, cutoff: real): RouteV { r.(sent := Keep(r.sent, cutoff)) }

  lemma {:induction false} KeepAppend(s: seq<EntryV>, t: seq<EntryV>, c: real)
    ensures Keep(s + t, c) == Keep(s, c) + Keep(t, c)
  {
    if t == [] {
      assert s + t == s;
    } else {
      assert (s + t)[..|s + t| - 1] == s + t[..|t| - 1];
      KeepAppend(s, t[..|t| - 1], c);
    }
  }

  lemma KeepOne(e: EntryV, c: real)
    ensures Keep([e], c) == if e.at > c then [e] else []
  {
    assert [e][..0] == [];
  }

  /** Whatever pruning drops and whatever ageing drops, the order does not matter. */
  lemma {:induction false} KeepDropLeading(s: seq<EntryV>, cutoff: real, k: real)
    ensures Keep(DropLeading(s, k), cutoff) == DropLeading(Keep(s, cutoff), k)
  {
    if s != [] {
      assert s == [s[0]] + s[1..];
      KeepAppend([s[0]], s[1..], cutoff);
      KeepOne(s[0], cutoff);
      if s[0].at < k {
        KeepDropLeading(s[1..], cutoff, k);
        if s[0].at > cutoff {
          assert Keep(s, cutoff)[1..] == Keep(s[1..], cutoff);
        } else {
          assert Keep(s, cutoff) == Keep(s[1..], cutoff);
        }
      } else if s[0].at > cutoff {
        assert Keep(s, cutoff)[0] == s[0];
      } else {
        KeepNone(s, cutoff, k);
      }
    }
  }

  /** What ageing keeps is newer than the pruning cutoff when that lies before the ageing one. */
  lemma KeepNone(s: seq<EntryV>, cutoff: real, k: real)
    requires k <= cutoff
    ensures DropLeading(Keep(s, cutoff), k) == Keep(s, cutoff)
  {
    KeepNewer(s, cutoff);
  }

  lemma {:induction false} KeepNewer(s: seq<EntryV>, cutoff: real)
    ensures forall e | e in Keep(s, cutoff) :: e in s && e.at > cutoff
  {
    if s != [] {
      KeepNewer(s[..|s| - 1], cutoff);
      assert s == s[..|s| - 1] + [s[|s| - 1]];
    }
  }

  lemma {:induction false} KeepPrice(s: seq<EntryV>, id: Id, tokens: real, cutoff: real)
    ensures Keep(Price(s, id, tokens), cutoff) == Price(Keep(s, cutoff), id, tokens)
  {
    if s != [] {
      KeepPrice(s[..|s| - 1], id, tokens, cutoff);
      assert Price(s, id, tokens)[..|s| - 1] == Price(s[..|s| - 1], id, tokens);
    }
  }

  lemma {:induction false} KeepCounts(s: seq<EntryV>, cutoff: real, c: real)
    ensures |Since(Keep(s, cutoff), c)| <= |Since(s, c)|
    ensures |Since(Keep(s, cutoff), c)| == |Since(s, c)| <==> forall i | 0 <= i < |s| && s[i].at >= c :: s[i].at > cutoff
  {
    if s != [] {
      var front, last := s[..|s| - 1], s[|s| - 1];
      KeepCounts(front, cutoff, c);
      if last.at > cutoff { SinceAppend(Keep(front, cutoff), [last], c); }
      assert [last][..0] == [];
      assert forall i | 0 <= i < |front| :: s[i] == front[i];
    }
  }

  lemma MoreIsMore(m: nat, n: nat, window: real)
    requires window > 0.0
    ensures PerMinute(m, window) == PerMinute(n, window) <==> m == n
  {
    assert PerMinute(m, window) * window == m as real * 60.0;
    assert PerMinute(n, window) * window == n as real * 60.0;
  }

  /** No entry of the rate window at `now` had aged out at `cutoff`. */
  ghost predicate WindowIntact(r: RouteV, now: real, cutoff: real, cfg: Settings) {
    forall i | 0 <= i < |r.sent| && r.sent[i].at >= now - cfg.windows.rpm :: r.sent[i].at > cutoff
  }

  lemma KeepCharged(r: RouteV, now: real, tokens: real, face: Face, id: Option<Id>, cfg: Settings, cutoff: real)
    requires cfg.Valid() && cutoff < now && WindowIntact(r, now, cutoff, cfg)
    ensures AgedRoute(Charged(r, now, tokens, face, id, cfg), cutoff)
         == Charged(AgedRoute(r, cutoff), now, tokens, face, id, cfg)
  {
    hide PerMinute, Keep, Since, DropLeading;
    var w := cfg.windows;
    var base, c := now - w.Widest(), now - w.rpm;
    var kept := DropLeading(r.sent, base);
    KeepDropLeading(r.sent, cutoff, base);
    SinceDropLeading(r.sent, base, c);
    SinceDropLeading(Keep(r.sent, cutoff), base, c);
    KeepCounts(r.sent, cutoff, c);
    var entry := Dispatched(kept, now, tokens, face, id, w);
    KeepAppend(kept, [entry], cutoff);
    KeepOne(entry, cutoff);
  }

  lemma LookupAged(v: EngineV, k: Key, cutoff: real)
    ensures Lookup(Aged(v, cutoff), k) == AgedRoute(Lookup(v, k), cutoff)
  {
  }

  lemma WithAged(v: EngineV, k: Key, r: RouteV, cutoff: real)
    ensures Aged(With(v, k, r), cutoff) == With(Aged(v, cutoff), k, AgedRoute(r, cutoff))
  {
    var a, b := Aged(With(v, k, r), cutoff), With(Aged(v, cutoff), k, AgedRoute(r, cutoff));
    assert a.states == b.states;
    assert a.pending == b.pending;
  }

  lemma PricedAged(v: EngineV, id: Id, tokens: real, cutoff: real)
    requires id in v.pending && v.pending[id].entry.at > cutoff
    ensures Aged(Priced(v, id, tokens), cutoff) == Priced(Aged(v, cutoff), id, tokens)
  {
    PricedAgedStates(v, id, tokens, cutoff);
    hide Keep, Price, Recent;
    var a, b := Aged(Priced(v, id, tokens), cutoff), Priced(Aged(v, cutoff), id, tokens);
    assert a.pending == b.pending;
  }

  lemma PricedAgedStates(v: EngineV, id: Id, tokens: real, cutoff: real)
    requires id in v.pending && v.pending[id].entry.at > cutoff
    ensures Aged(Priced(v, id, tokens), cutoff).states == Priced(Aged(v, cutoff), id, tokens).states
  {
    hide Keep, Price, Recent;
    var a, b := Aged(Priced(v, id, tokens), cutoff), Priced(Aged(v, cutoff), id, tokens);
    forall k | k in v.states ensures a.states[k] == b.states[k] {
      KeepPrice(v.states[k].sent, id, tokens, cutoff);
    }
  }

  lemma PendingAged(v: EngineV, id: Id, p: Pending, cutoff: real)
    requires p.entry.at > cutoff
    ensures Aged(v.(pending := v.pending[id := p]), cutoff)
         == Aged(v, cutoff).(pending := Aged(v, cutoff).pending[id := p])
  {
    assert Aged(v.(pending := v.pending[id := p]), cutoff).pending == Aged(v, cutoff).pending[id := p];
  }

  lemma EstimateAged(r: RouteV, bytes: real, cfg: Settings, cutoff: real)
    requires cfg.Valid()
    ensures Estimate(AgedRoute(r, cutoff), bytes, cfg) == Estimate(r, bytes, cfg)
  {
  }

  lemma ChargedForAged(r: RouteV, now: real, b: Body, cfg: Settings, cutoff: real)
    requires cfg.Valid() && b.Dispatch? && cutoff < now && WindowIntact(r, now, cutoff, cfg)
    ensures AgedRoute(ChargedFor(r, now, b, cfg), cutoff) == ChargedFor(AgedRoute(r, cutoff), now, b, cfg)
  {
    hide Keep, Since, DropLeading, PerMinute, Charged, Estimate;
    var r1 := Attempted(r);
    assert AgedRoute(r1, cutoff) == Attempted(AgedRoute(r, cutoff));
    EstimateAged(r1, b.bytes, cfg, cutoff);
    KeepCharged(r1, now, Estimate(r1, b.bytes, cfg), b.face, Some(b.id), cfg, cutoff);
  }

  /**
   The restarted engine stamps a dispatch with the rate the other one stamps exactly when no entry
   of the rate window had aged out at the restart.
   */
  lemma StampsAgreeExactlyWhen(r: RouteV, now: real, b: Body, cfg: Settings, cutoff: real)
    requires cfg.Valid() && b.Dispatch?
    ensures ChargedFor(AgedRoute(r, cutoff), now, b, cfg).lastDispatchRpm == ChargedFor(r, now, b, cfg).lastDispatchRpm
            <==> WindowIntact(r, now, cutoff, cfg)
  {
    hide PerMinute, Estimate, Since, Keep, DropLeading;
    var base, c := now - cfg.windows.Widest(), now - cfg.windows.rpm;
    SinceDropLeading(r.sent, base, c);
    SinceDropLeading(Keep(r.sent, cutoff), base, c);
    KeepCounts(r.sent, cutoff, c);
    MoreIsMore(|Since(Keep(r.sent, cutoff), c)| + 1, |Since(r.sent, c)| + 1, cfg.windows.rpm);
  }

  lemma AdmitAged(v: EngineV, key: Key, r: RouteV, id: Id, producer: string, cutoff: real)
    requires r.sent != [] && r.sent[|r.sent| - 1].at > cutoff
    ensures AgedRoute(r, cutoff).sent != []
    ensures Aged(Admit(v, key, r, id, producer), cutoff) == Admit(Aged(v, cutoff), key, AgedRoute(r, cutoff), id, producer)
  {
    KeepEndsWith(r.sent, cutoff);
    WithAged(v, key, r, cutoff);
    PendingAged(With(v, key, r), id, Pending(r.sent[|r.sent| - 1], key, producer, false), cutoff);
  }

  /** The dispatch of an attempt that aged out, or a rate window that reaches back past the cutoff. */
  ghost predicate DispatchImmune(v: EngineV, b: Body, at: real, cutoff: real, cfg: Settings)
    requires b.Dispatch?
  {
    if b.id in v.pending then v.pending[b.id].entry.at > cutoff
    else at > cutoff && WindowIntact(Lookup(v, b.route), at, cutoff, cfg)
  }

  lemma DispatchAged(v: EngineV, producer: string, b: Body, cutoff: real, cfg: Settings)
    requires cfg.Valid() && b.Dispatch?
    ensures Core(Aged(OnDispatch(v, producer, b, cfg), cutoff)) == Core(OnDispatch(Aged(v, cutoff), producer, b, cfg))
            <==> DispatchImmune(v, b, v.now, cutoff, cfg)
  {
    hide ChargedFor, Admit, Keep, Lookup, WindowIntact, Recent;
    LookupAged(v, b.route, cutoff);
    var r := Lookup(v, b.route);
    if b.id in v.pending {
      if v.pending[b.id].entry.at <= cutoff { StaleDispatchCounts(v, producer, b, cutoff, cfg); }
    } else if v.now <= cutoff {
      OldDispatchForgotten(v, producer, b, cutoff, cfg);
    } else if WindowIntact(r, v.now, cutoff, cfg) {
      ChargedForAged(r, v.now, b, cfg, cutoff);
      AdmitAged(v, b.route, ChargedFor(r, v.now, b, cfg), b.id, producer, cutoff);
    } else {
      StampsAgreeExactlyWhen(r, v.now, b, cfg, cutoff);
      AdmitShows(v, b.route, ChargedFor(r, v.now, b, cfg), b.id, producer, cutoff);
      AdmitShows(Aged(v, cutoff), b.route, ChargedFor(AgedRoute(r, cutoff), v.now, b, cfg), b.id, producer, cutoff);
    }
  }

  /** Only the restarted engine counts a dispatch whose first copy aged out. */
  lemma StaleDispatchCounts(v: EngineV, producer: string, b: Body, cutoff: real, cfg: Settings)
    requires cfg.Valid() && b.Dispatch? && b.id in v.pending && v.pending[b.id].entry.at <= cutoff
    ensures Core(Aged(OnDispatch(v, producer, b, cfg), cutoff)) != Core(OnDispatch(Aged(v, cutoff), producer, b, cfg))
  {
    hide Keep, Recent, Charged;
    var a := Aged(v, cutoff);
    var c := ChargedFor(Lookup(a, b.route), a.now, b, cfg);
    assert OnDispatch(a, producer, b, cfg).states[b.route] == c;
    ChargedCounts(Lookup(a, b.route), a.now, b, cfg);
  }

  lemma ChargedCounts(r: RouteV, now: real, b: Body, cfg: Settings)
    requires cfg.Valid() && b.Dispatch?
    ensures ChargedFor(r, now, b, cfg).attempts == r.attempts + 1
  {
  }

  /** Only the restarted engine still waits for a dispatch older than the cutoff. */
  lemma OldDispatchForgotten(v: EngineV, producer: string, b: Body, cutoff: real, cfg: Settings)
    requires cfg.Valid() && b.Dispatch? && b.id !in v.pending && v.now <= cutoff
    ensures Core(Aged(OnDispatch(v, producer, b, cfg), cutoff)) != Core(OnDispatch(Aged(v, cutoff), producer, b, cfg))
  {
    hide ChargedFor, Keep, Recent;
    assert b.id !in Aged(OnDispatch(v, producer, b, cfg), cutoff).pending;
    assert b.id in OnDispatch(Aged(v, cutoff), producer, b, cfg).pending;
  }

  lemma AdmitShows(v: EngineV, key: Key, r: RouteV, id: Id, producer: string, cutoff: real)
    requires r.sent != []
    ensures Admit(v, key, r, id, producer).states[key] == r
    ensures Aged(Admit(v, key, r, id, producer), cutoff).states[key].lastDispatchRpm == r.lastDispatchRpm
  {
  }

  lemma KeepEndsWith(s: seq<EntryV>, cutoff: real)
    requires s != [] && s[|s| - 1].at > cutoff
    ensures var k := Keep(s, cutoff); k != [] && k[|k| - 1] == s[|s| - 1]
  {
  }

  /** The rate of an attempt a restarted engine still knows. */
  function KnownRate(v: EngineV, attempt: Option<Id>, cutoff: real): Option<real> {
    var p := Known(v, attempt);
    if p.Some? && p.value.entry.at > cutoff then Some(p.value.entry.rpm) else None
  }

  /** Two rates leave the same outside usage: they are equal, or both fill the learned maximum. */
  predicate SameOutside(safe: real, ours: real, theirs: real) { ours == theirs || (ours >= safe && theirs >= safe) }

  /** A throttle whose attempt, or whose rate window, aged out and left another rate to attribute it to. */
  ghost predicate DemoteImmune(v: EngineV, b: Body, at: real, cutoff: real, cfg: Settings)
    requires cfg.Valid() && b.Demote?
  {
    var r := Lookup(v, b.route);
    b.reason == "429" ==>
      SameOutside(r.safeRpm, Attributed(r, at, Rate(Known(v, b.attempt)), cfg),
                  Attributed(AgedRoute(r, cutoff), at, KnownRate(v, b.attempt, cutoff), cfg))
  }

  /** A demotion, its events aside: the route's new state and one or two more events. */
  lemma DemoteIs(v: EngineV, b: Body, cfg: Settings)
    requires cfg.Valid() && b.Demote?
    ensures var r' := Demoted(Lookup(v, b.route), v.now, b.reason, b.retryAfter, Rate(Known(v, b.attempt)), cfg);
            Core(OnDemote(v, b, cfg))
            == Core(With(v, b.route, r')).(eventSeq := v.eventSeq + if b.reason == "429" && r'.otherRpm > 0.0 then 2 else 1)
  {
    hide Demoted, Attributed, EventLevel, Last, Lookup;
  }

  lemma CoreAged(v: EngineV, cutoff: real)
    ensures Core(Aged(v, cutoff)) == Aged(Core(v), cutoff)
  {
  }

  lemma DemoteAged(v: EngineV, b: Body, cutoff: real, cfg: Settings)
    requires cfg.Valid() && b.Demote?
    ensures Core(Aged(OnDemote(v, b, cfg), cutoff)) == Core(OnDemote(Aged(v, cutoff), b, cfg))
            <==> DemoteImmune(v, b, v.now, cutoff, cfg)
  {
    hide Keep, Attributed, Recent, OnDemote, Lookup, Demoted;
    LookupAged(v, b.route, cutoff);
    var r, a := Lookup(v, b.route), Aged(v, cutoff);
    assert Rate(Known(a, b.attempt)) == KnownRate(v, b.attempt, cutoff);
    var r1 := Demoted(r, v.now, b.reason, b.retryAfter, Rate(Known(v, b.attempt)), cfg);
    var r2 := Demoted(AgedRoute(r, cutoff), v.now, b.reason, b.retryAfter, KnownRate(v, b.attempt, cutoff), cfg);
    DemotedAged(r, v.now, b, Rate(Known(v, b.attempt)), KnownRate(v, b.attempt, cutoff), cfg, cutoff);
    DemoteIs(v, b, cfg);
    DemoteIs(a, b, cfg);
    WithAged(v, b.route, r1, cutoff);
    CoreAged(OnDemote(v, b, cfg), cutoff);
    CoreAged(With(v, b.route, r1), cutoff);
    hide Aged;
    assert With(a, b.route, AgedRoute(r1, cutoff)).states[b.route] == AgedRoute(r1, cutoff);
    assert With(a, b.route, r2).states[b.route] == r2;
    AgedSeq(Core(With(v, b.route, r1)), v.eventSeq + (if b.reason == "429" && r1.otherRpm > 0.0 then 2 else 1), cutoff);
  }

  lemma AgedSeq(v: EngineV, n: nat, cutoff: real)
    ensures Aged(v.(eventSeq := n), cutoff) == Aged(v, cutoff).(eventSeq := n)
  {
  }

  lemma DemotedAged(r: RouteV, now: real, b: Body, mine: Option<real>, theirs: Option<real>, cfg: Settings, cutoff: real)
    requires cfg.Valid() && b.Demote?
    ensures var r1 := Demoted(r, now, b.reason, b.retryAfter, mine, cfg);
            var r2 := Demoted(AgedRoute(r, cutoff), now, b.reason, b.retryAfter, theirs, cfg);
            && (AgedRoute(r1, cutoff) == r2 <==>
                  (b.reason == "429" ==> SameOutside(r.safeRpm, Attributed(r, now, mine, cfg), Attributed(AgedRoute(r, cutoff), now, theirs, cfg))))
            && (AgedRoute(r1, cutoff) == r2 ==> r1.otherRpm == r2.otherRpm)
  {
    hide Keep, Penalise, Attributed;
  }

  /** Emission does not look at what ageing removes. */
  lemma EmitAged(v: EngineV, cutoff: real)
    ensures forall kind, level, detail, content ::
              Core(Aged(Emit(v, kind, level, detail, content), cutoff)) == Core(Emit(Aged(v, cutoff), kind, level, detail, content))
  {
  }

  /**
   The cost of an attempt that aged out, when some newer ledger entry bears the same id: values correct
   every entry with the id.  Where ids are drawn once there is none (`NoneNewerImmune`).
   */
  ghost predicate UsageImmune(v: EngineV, b: Body, cutoff: real)
    requires b.Usage?
  {
    b.tokens > 0 && b.attempt.Some? && Stale(v, b.attempt.value, cutoff) ==>
      forall k | k in v.states :: PricedAlready(v.states[k].sent, b.attempt.value, b.tokens as real, cutoff)
  }

  /** No ledger entry newer than the cutoff bears the id. */
  ghost predicate NoneNewer(v: EngineV, id: Id, cutoff: real) {
    forall k, e | e in Histories.LedgerOf(v, k) && e.attempt == Some(id) :: e.at <= cutoff
  }

  lemma NoneNewerImmune(v: EngineV, b: Body, cutoff: real)
    requires b.Usage? && (b.attempt.Some? && Stale(v, b.attempt.value, cutoff) ==> NoneNewer(v, b.attempt.value, cutoff))
    ensures UsageImmune(v, b, cutoff)
  {
    forall k, i | k in v.states && 0 <= i < |v.states[k].sent| ensures v.states[k].sent[i] in Histories.LedgerOf(v, k) {
    }
  }

  /** Where attempts are identified without ambiguity, no newer entry bears the id of an aged attempt. */
  lemma IdentityNoneNewer(v: EngineV, id: Id, cutoff: real)
    requires IdentityOK(v) && Stale(v, id, cutoff)
    ensures NoneNewer(v, id, cutoff)
  {
    forall k, e | e in Histories.LedgerOf(v, k) && e.attempt == Some(id) ensures e.at <= cutoff {
      var s := Histories.LedgerOf(v, k);
      var i :| 0 <= i < |s| && s[i] == e;
      assert Located(v, k, i, id);
    }
  }

  /** Only a dispatch brings an id to a ledger. */
  lemma AfterMembers(s: seq<EntryV>, op: Option<Op>, w: Windows, e: EntryV)
    requires w.Valid() && e in Histories.After(s, op, w)
    ensures (op.Some? && op.value.Charge? && e.attempt == Some(op.value.id)) || exists d :: d in s && d.at == e.at && d.attempt == e.attempt
  {
    if op.Some? && op.value.Settle? {
      var r := Price(s, op.value.id, op.value.tokens);
      var i :| 0 <= i < |r| && r[i] == e;
      assert s[i] in s;
    } else if op.Some? && op.value.Age? {
      KeepMembers(s, op.value.cutoff);
    } else if op.Some? {
      DropMembers(s, op.value.now - w.Widest());
    }
  }

  lemma {:induction false} DropMembers(s: seq<EntryV>, cutoff: real)
    ensures forall e | e in DropLeading(s, cutoff) :: e in s
  {
    if s != [] && s[0].at < cutoff { DropMembers(s[1..], cutoff); }
  }

  lemma NoneNewerStays(v: EngineV, e: Observation, id: Id, cutoff: real, cfg: Settings)
    requires cfg.Valid() && NoneNewer(v, id, cutoff) && (e.body.Dispatch? ==> e.body.id != id)
    ensures NoneNewer(Consume(v, e, cfg), id, cutoff)
  {
    hide Consume, Histories.After, Histories.LedgerOf;
    forall k, x | x in Histories.LedgerOf(Consume(v, e, cfg), k) && x.attempt == Some(id) ensures x.at <= cutoff {
      Histories.ConsumedLedger(v, e, k, cfg);
      var op := Histories.OpOn(v, Consumed(0, e), k, cfg);
      AfterMembers(Histories.LedgerOf(v, k), op, cfg.windows, x);
    }
  }

  lemma {:induction false} PriceUnseen(s: seq<EntryV>, id: Id, tokens: real, cutoff: real)
    ensures Keep(Price(s, id, tokens), cutoff) == Keep(s, cutoff) <==> PricedAlready(s, id, tokens, cutoff)
  {
    if s != [] {
      var front, last := s[..|s| - 1], s[|s| - 1];
      PriceUnseen(front, id, tokens, cutoff);
      KeepLength(front, id, tokens, cutoff);
      assert Price(s, id, tokens)[..|s| - 1] == Price(front, id, tokens);
      var a, b := Keep(Price(s, id, tokens), cutoff), Keep(s, cutoff);
      if last.at > cutoff {
        assert a[..|a| - 1] == Keep(Price(front, id, tokens), cutoff) && b[..|b| - 1] == Keep(front, cutoff);
        assert a == b <==> a[..|a| - 1] == b[..|b| - 1] && a[|a| - 1] == b[|b| - 1];
      }
      assert forall i | 0 <= i < |front| :: s[i] == front[i];
    }
  }

  lemma {:induction false} KeepLength(s: seq<EntryV>, id: Id, tokens: real, cutoff: real)
    ensures |Keep(Price(s, id, tokens), cutoff)| == |Keep(s, cutoff)|
  {
    if s != [] {
      KeepLength(s[..|s| - 1], id, tokens, cutoff);
      assert Price(s, id, tokens)[..|s| - 1] == Price(s[..|s| - 1], id, tokens);
    }
  }

  /** No entry of the ledger that ageing keeps bears the id with another cost. */
  ghost predicate PricedAlready(s: seq<EntryV>, id: Id, tokens: real, cutoff: real) {
    forall i | 0 <= i < |s| && s[i].attempt == Some(id) && s[i].at > cutoff :: s[i].tokens == tokens
  }

  /** Pricing an attempt that aged out shows exactly in newer entries that bear its id. */
  lemma StalePriced(v: EngineV, id: Id, tokens: real, cutoff: real)
    requires Stale(v, id, cutoff)
    ensures Aged(Priced(v, id, tokens), cutoff) == Aged(v, cutoff) <==>
              forall k | k in v.states :: PricedAlready(v.states[k].sent, id, tokens, cutoff)
    ensures var a, b := Aged(Priced(v, id, tokens), cutoff), Aged(v, cutoff);
            a == b.(states := a.states) && SameButLedgers(a.states, b.states)
  {
    hide Keep, Price, Recent, PricedAlready;
    var a, b := Aged(Priced(v, id, tokens), cutoff), Aged(v, cutoff);
    assert a.pending == b.pending;
    forall k | k in v.states ensures a.states[k] == b.states[k] <==> PricedAlready(v.states[k].sent, id, tokens, cutoff) {
      PriceUnseen(v.states[k].sent, id, tokens, cutoff);
    }
    hide Aged, Priced;
    SameMapsWhen(a.states, b.states);
  }

  lemma SameMapsWhen(a: map<Key, RouteV>, b: map<Key, RouteV>)
    requires a.Keys == b.Keys
    ensures a == b <==> forall k | k in a :: a[k] == b[k]
  {
  }

  lemma UsageAged(v: EngineV, b: Body, cutoff: real)
    requires b.Usage?
    ensures Core(Aged(OnUsage(v, b), cutoff)) == Core(OnUsage(Aged(v, cutoff), b)) <==> UsageImmune(v, b, cutoff)
  {
    hide Keep, Recent, Priced, PricedAlready, Aged, Calibrated, Lookup;
    if b.tokens > 0 {
      var known := Known(v, b.attempt).Some?;
      var total := b.tokens as real;
      var v1 := if known then Priced(v, b.attempt.value, total) else v;
      CalibratedWithAged(v1, b.route, b.bytes, total, cutoff);
      AgedKnows(v, b.attempt, cutoff);
      if known && v.pending[b.attempt.value].entry.at <= cutoff {
        StalePriced(v, b.attempt.value, total, cutoff);
        CalibratedShows(Aged(v1, cutoff), Aged(v, cutoff), b.route, b.bytes, total);
      } else if known {
        PricedAged(v, b.attempt.value, total, cutoff);
      }
    }
  }

  lemma AgedKnows(v: EngineV, attempt: Option<Id>, cutoff: real)
    ensures Known(Aged(v, cutoff), attempt)
         == if attempt.Some? && attempt.value in v.pending && v.pending[attempt.value].entry.at > cutoff
            then Known(v, attempt) else None
  {
  }

  lemma CalibratedWithAged(v: EngineV, key: Key, bytes: real, total: real, cutoff: real)
    ensures Aged(With(v, key, Calibrated(Lookup(v, key), bytes, total)), cutoff)
         == With(Aged(v, cutoff), key, Calibrated(Lookup(Aged(v, cutoff), key), bytes, total))
  {
    hide Keep, Recent, Aged, Lookup, Calibrated, With;
    LookupAged(v, key, cutoff);
    CalibratedAged(Lookup(v, key), bytes, total, cutoff);
    WithAged(v, key, Calibrated(Lookup(v, key), bytes, total), cutoff);
  }

  /** The routes differ in their ledgers at most. */
  ghost predicate SameButLedgers(a: map<Key, RouteV>, b: map<Key, RouteV>) {
    a.Keys == b.Keys && forall k | k in a :: a[k] == b[k].(sent := a[k].sent)
  }

  /** Calibration leaves ledgers alone, so it neither makes nor hides a difference between them. */
  lemma CalibratedShows(v: EngineV, w: EngineV, key: Key, bytes: real, total: real)
    requires v == w.(states := v.states) && SameButLedgers(v.states, w.states)
    ensures Core(With(v, key, Calibrated(Lookup(v, key), bytes, total))) == Core(With(w, key, Calibrated(Lookup(w, key), bytes, total)))
            <==> v == w
  {
    var a, b := With(v, key, Calibrated(Lookup(v, key), bytes, total)), With(w, key, Calibrated(Lookup(w, key), bytes, total));
    CalibratedKeeps(Lookup(v, key), bytes, total);
    CalibratedKeeps(Lookup(w, key), bytes, total);
    hide Calibrated;
    if Core(a) == Core(b) {
      forall k | k in v.states ensures v.states[k] == w.states[k] {
        assert a.states[k] == b.states[k];
      }
      assert v.states == w.states;
    }
  }

  lemma CalibratedKeeps(r: RouteV, bytes: real, total: real)
    ensures Calibrated(r, bytes, total).sent == r.sent
  {
  }

  lemma CalibratedAged(r: RouteV, bytes: real, total: real, cutoff: real)
    ensures AgedRoute(Calibrated(r, bytes, total), cutoff) == Calibrated(AgedRoute(r, cutoff), bytes, total)
  {
  }

  lemma ProvenAged(r: RouteV, rate: real, cutoff: real)
    ensures AgedRoute(Proven(r, rate), cutoff) == Proven(AgedRoute(r, cutoff), rate)
  {
  }

  lemma LearnAged(v: EngineV, key: Key, rate: real, cutoff: real)
    ensures Core(Aged(Learn(v, key, rate), cutoff)) == Core(Learn(Aged(v, cutoff), key, rate))
    ensures Learn(v, key, rate).pending == v.pending
  {
    var r := Lookup(v, key);
    LookupAged(v, key, cutoff);
    ProvenAged(r, rate, cutoff);
    WithAged(v, key, Proven(r, rate), cutoff);
    hide Keep, Recent, Proven, Lookup, Emit;
    var v1 := With(v, key, Proven(r, rate));
    if Raises(r, rate) {
      var v2 := v1.(capacity := v1.capacity[key := rate]);
      assert Aged(v2, cutoff) == Aged(v1, cutoff).(capacity := v1.capacity[key := rate]);
      EmitAged(v2, cutoff);
      EmitKeepsPending(v2, "capacity", Info, PLAIN, CapacityRaised(key, r.safeRpm, rate));
    }
  }

  lemma EmitKeepsPending(v: EngineV, kind: string, level: Level, detail: Detail, content: Content)
    ensures Emit(v, kind, level, detail, content).pending == v.pending
  {
  }

  /** The first success of an attempt that aged out. */
  ghost predicate SuccessImmune(v: EngineV, b: Body, cutoff: real)
    requires b.Success?
  {
    b.attempt.Some? && Stale(v, b.attempt.value, cutoff) && !v.pending[b.attempt.value].success ==>
      v.pending[b.attempt.value].entry.rpm <= 0.0 && b.route in v.states
  }

  lemma SuccessAged(v: EngineV, b: Body, cutoff: real)
    requires b.Success?
    ensures Core(Aged(OnSuccess(v, b), cutoff)) == Core(OnSuccess(Aged(v, cutoff), b)) <==> SuccessImmune(v, b, cutoff)
  {
    hide Learn, Recent, Keep;
    var record, k := Known(v, b.attempt), b.route;
    if record.Some? && !record.value.success {
      var rate := record.value.entry.rpm;
      LearnAged(v, k, rate, cutoff);
      if record.value.entry.at > cutoff {
        PendingAged(Learn(v, k, rate), b.attempt.value, record.value.(success := true), cutoff);
      } else {
        StaleFlagged(Learn(v, k, rate), b.attempt.value, record.value, cutoff);
        LearnShows(Aged(v, cutoff), k, rate);
        if rate <= 0.0 { LookupAged(v, k, cutoff); }
      }
    }
  }

  lemma StaleFlagged(v: EngineV, id: Id, p: Pending, cutoff: real)
    requires id in v.pending && v.pending[id] == p && p.entry.at <= cutoff
    ensures Aged(v.(pending := v.pending[id := p.(success := true)]), cutoff) == Aged(v, cutoff)
  {
    assert Aged(v.(pending := v.pending[id := p.(success := true)]), cutoff).pending == Aged(v, cutoff).pending;
  }

  /** A counted success always shows, unless its rate counts for nothing on a route already met. */
  lemma LearnShows(v: EngineV, key: Key, rate: real)
    ensures Core(Learn(v, key, rate)) == Core(v) <==> rate <= 0.0 && key in v.states
  {
    var w := Learn(v, key, rate);
    hide EventLevel, Last;
    assert key in w.states;
    if rate > 0.0 {
      assert w.states[key].ok == Lookup(v, key).ok + 1;
    } else if key in v.states {
      assert w.states == v.states;
    }
  }

  /**
   What a record must not meet for a restart at `cutoff` not to show in it: a second dispatch of an
   attempt that aged out or a rate window that reaches back past the cutoff; a throttle that aged
   history attributed to another rate; the cost of an aged attempt whose id a newer entry bears; the
   first success of an aged attempt.
   */
  ghost predicate Immune(v: EngineV, e: Observation, cutoff: real, cfg: Settings)
    requires cfg.Valid()
  {
    var b := e.body;
    && (b.Dispatch? ==> DispatchImmune(v, b, e.at, cutoff, cfg))
    && (b.Demote? ==> DemoteImmune(v, b, e.at, cutoff, cfg))
    && (b.Usage? ==> UsageImmune(v, b, cutoff))
    && (b.Success? ==> SuccessImmune(v, b, cutoff))
  }

  /** One record: ageing before and ageing after it come to the same exactly when it is immune. */
  lemma ReactAged(v: EngineV, e: Observation, cutoff: real, cfg: Settings)
    requires cfg.Valid() && v.now == e.at
    ensures Core(Aged(React(v, e, cfg), cutoff)) == Core(React(Aged(v, cutoff), e, cfg)) <==> Immune(v, e, cutoff, cfg)
  {
    hide OnDispatch, OnDemote, OnUsage, OnSuccess, Aged, Emit, Keep, Recent;
    hide DispatchImmune, DemoteImmune, UsageImmune, SuccessImmune;
    var b := e.body;
    if b.Dispatch? {
      DispatchAged(v, e.producer, b, cutoff, cfg);
    } else if b.Demote? {
      DemoteAged(v, b, cutoff, cfg);
    } else if b.Usage? {
      UsageAged(v, b, cutoff);
    } else if b.Success? {
      SuccessAged(v, b, cutoff);
    } else if b.Status? || b.Timeout? {
      RouteNoteAged(v, e, cutoff, cfg);
    } else {
      ProducerAged(v, e, cutoff, cfg);
    }
  }

  lemma RouteNoteAged(v: EngineV, e: Observation, cutoff: real, cfg: Settings)
    requires cfg.Valid() && (e.body.Status? || e.body.Timeout?)
    ensures Aged(React(v, e, cfg), cutoff) == React(Aged(v, cutoff), e, cfg)
  {
    hide Lookup, With, Aged, Keep;
    var k := e.body.route;
    LookupAged(v, k, cutoff);
    if e.body.Status? {
      WithAged(v, k, Answered(Lookup(v, k), e.body.status), cutoff);
    } else {
      WithAged(v, k, TimedOut(Lookup(v, k)), cutoff);
    }
  }

  lemma ProducerAged(v: EngineV, e: Observation, cutoff: real, cfg: Settings)
    requires cfg.Valid()
    requires e.body.Heartbeat? || e.body.Narrated? || e.body.Sessions? || e.body.Started? || e.body.Stopped? || e.body.Finish?
    ensures Core(Aged(React(v, e, cfg), cutoff)) == Core(React(Aged(v, cutoff), e, cfg))
  {
    hide Keep, Recent, Emit, Retire;
    if e.body.Narrated? {
      EmitAged(v, cutoff);
    } else if e.body.Started? || e.body.Stopped? {
      RetireAged(v, e.producer, cutoff);
    } else if e.body.Finish? {
      assert Aged(React(v, e, cfg), cutoff).pending == React(Aged(v, cutoff), e, cfg).pending;
    }
  }

  lemma RetireAged(v: EngineV, producer: string, cutoff: real)
    ensures Aged(Retire(v, producer), cutoff) == Retire(Aged(v, cutoff), producer)
  {
    assert Aged(Retire(v, producer), cutoff).pending == Retire(Aged(v, cutoff), producer).pending;
  }

  // ---- replay ------------------------------------------------------------------------------

  function Replay(v: EngineV, es: seq<Observation>, cfg: Settings): EngineV
    requires cfg.Valid()
  {
    if es == [] then v else Consume(Replay(v, es[..|es| - 1], cfg), es[|es| - 1], cfg)
  }

  lemma EmitCore(v: EngineV, x: seq<FeedEvent>)
    ensures forall kind, level, detail, content ::
              Core(Emit(v.(events := x), kind, level, detail, content)) == Core(Emit(v, kind, level, detail, content))
  {
  }

  lemma DemoteCore(v: EngineV, b: Body, x: seq<FeedEvent>, cfg: Settings)
    requires cfg.Valid() && b.Demote?
    ensures Core(OnDemote(v.(events := x), b, cfg)) == Core(OnDemote(v, b, cfg))
  {
    hide Demoted, EventLevel, Last, Attributed;
    assert Lookup(v.(events := x), b.route) == Lookup(v, b.route);
  }

  lemma UsageCore(v: EngineV, b: Body, x: seq<FeedEvent>)
    requires b.Usage?
    ensures Core(OnUsage(v.(events := x), b)) == Core(OnUsage(v, b))
  {
    hide Calibrated;
    if b.tokens > 0 && Known(v, b.attempt).Some? {
      assert Priced(v.(events := x), b.attempt.value, b.tokens as real) == Priced(v, b.attempt.value, b.tokens as real).(events := x);
    }
  }

  lemma SuccessCore(v: EngineV, b: Body, x: seq<FeedEvent>)
    requires b.Success?
    ensures Core(OnSuccess(v.(events := x), b)) == Core(OnSuccess(v, b))
  {
    hide Proven, EventLevel, Last;
    assert Lookup(v.(events := x), b.route) == Lookup(v, b.route);
  }

  /** The feed is written, never read: engines that agree on the rest go on agreeing. */
  lemma ReactCore(v: EngineV, w: EngineV, e: Observation, cfg: Settings)
    requires cfg.Valid() && Core(v) == Core(w)
    ensures Core(React(v, e, cfg)) == Core(React(w, e, cfg))
  {
    hide OnDemote, OnUsage, OnSuccess, ChargedFor, Emit;
    assert w == v.(events := w.events);
    if e.body.Narrated? {
      EmitCore(v, w.events);
    } else if e.body.Demote? {
      DemoteCore(v, e.body, w.events, cfg);
    } else if e.body.Usage? {
      UsageCore(v, e.body, w.events);
    } else if e.body.Success? {
      SuccessCore(v, e.body, w.events);
    } else if e.body.Dispatch? {
      DispatchCore(v, e.producer, e.body, w.events, cfg);
    } else {
      QuietCore(v, e, w.events, cfg);
    }
  }

  lemma DispatchCore(v: EngineV, producer: string, b: Body, x: seq<FeedEvent>, cfg: Settings)
    requires cfg.Valid() && b.Dispatch?
    ensures OnDispatch(v.(events := x), producer, b, cfg) == OnDispatch(v, producer, b, cfg).(events := x)
  {
    hide ChargedFor;
    assert Lookup(v.(events := x), b.route) == Lookup(v, b.route);
  }

  lemma QuietCore(v: EngineV, e: Observation, x: seq<FeedEvent>, cfg: Settings)
    requires cfg.Valid() && !e.body.Narrated? && !e.body.Demote? && !e.body.Usage? && !e.body.Success? && !e.body.Dispatch?
    ensures React(v.(events := x), e, cfg) == React(v, e, cfg).(events := x)
  {
    hide OnDemote, OnUsage, OnSuccess, OnDispatch, Emit;
    assert Retire(v.(events := x), e.producer) == Retire(v, e.producer).(events := x);
  }

  lemma {:induction false} ReplayCore(v: EngineV, w: EngineV, es: seq<Observation>, cfg: Settings)
    requires cfg.Valid() && Core(v) == Core(w)
    ensures Core(Replay(v, es, cfg)) == Core(Replay(w, es, cfg))
  {
    if es != [] {
      ReplayCore(v, w, es[..|es| - 1], cfg);
      var a, b, e := Replay(v, es[..|es| - 1], cfg), Replay(w, es[..|es| - 1], cfg), es[|es| - 1];
      assert Core(Clocked(a, e)) == Clocked(Core(a), e) == Core(Clocked(b, e));
      ReactCore(Clocked(a, e), Clocked(b, e), e, cfg);
      hide React;
    }
  }

  lemma NoNewStale(v: EngineV, e: Observation, cutoff: real, cfg: Settings)
    requires cfg.Valid() && e.at > cutoff
    ensures forall id | Stale(React(v.(now := e.at), e, cfg), id, cutoff) :: Stale(v, id, cutoff)
  {
    hide OnDispatch, OnDemote, OnUsage, OnSuccess, Emit, Lookup;
    var w := v.(now := e.at);
    if e.body.Dispatch? {
      DispatchFresh(w, e.producer, e.body, cutoff, cfg);
    } else if e.body.Demote? {
      DemoteKeepsPending(w, e.body, cfg);
    } else if e.body.Usage? {
      UsageKeepsTimes(w, e.body);
    } else if e.body.Success? {
      SuccessKeepsTimes(w, e.body);
    } else if e.body.Narrated? {
      EmitKeepsPending(w, e.body.kind, e.body.level, e.body.detail, Text(e.body.message));
    }
  }

  lemma DispatchFresh(v: EngineV, producer: string, b: Body, cutoff: real, cfg: Settings)
    requires cfg.Valid() && b.Dispatch? && v.now > cutoff
    ensures forall id | Stale(OnDispatch(v, producer, b, cfg), id, cutoff) :: Stale(v, id, cutoff)
  {
    hide ChargedFor;
  }

  lemma DemoteKeepsPending(v: EngineV, b: Body, cfg: Settings)
    requires cfg.Valid() && b.Demote?
    ensures OnDemote(v, b, cfg).pending == v.pending
  {
    hide Demoted, Attributed, EventLevel, Last;
  }

  lemma UsageKeepsTimes(v: EngineV, b: Body)
    requires b.Usage?
    ensures var w := OnUsage(v, b);
            w.pending.Keys == v.pending.Keys && forall id | id in v.pending :: w.pending[id].entry.at == v.pending[id].entry.at
  {
    hide Calibrated, Price;
  }

  lemma SuccessKeepsTimes(v: EngineV, b: Body)
    requires b.Success?
    ensures var w := OnSuccess(v, b);
            w.pending.Keys == v.pending.Keys && forall id | id in v.pending :: w.pending[id].entry.at == v.pending[id].entry.at
  {
    var record := Known(v, b.attempt);
    if record.Some? { LearnPending(v, b.route, record.value.entry.rpm); }
    hide Learn;
  }

  lemma LearnPending(v: EngineV, key: Key, rate: real)
    ensures Learn(v, key, rate).pending == v.pending
  {
    hide Proven, EventLevel, Last;
  }

  /** Every record of the suffix is immune where it comes. */
  ghost predicate ImmuneRun(v: EngineV, es: seq<Observation>, cutoff: real, cfg: Settings)
    requires cfg.Valid()
  {
    forall i | 0 <= i < |es| :: Immune(Replay(v, es[..i], cfg), es[i], cutoff, cfg)
  }

  lemma ClockedImmune(v: EngineV, e: Observation, cutoff: real, cfg: Settings)
    requires cfg.Valid()
    ensures Immune(Clocked(v, e), e, cutoff, cfg) <==> Immune(v, e, cutoff, cfg)
  {
    hide Attributed, WindowIntact, Keep;
  }

  /** One record of a replay: engines that agree up to ageing go on agreeing exactly when it is immune. */
  lemma ConsumeAged(v: EngineV, w: EngineV, e: Observation, cutoff: real, cfg: Settings)
    requires cfg.Valid() && Core(Aged(v, cutoff)) == Core(w)
    ensures Core(Aged(Consume(v, e, cfg), cutoff)) == Core(Consume(w, e, cfg)) <==> Immune(v, e, cutoff, cfg)
  {
    hide React, Aged, Immune;
    ClockedAged(v, e, cutoff);
    ClockedImmune(v, e, cutoff, cfg);
    ReactAged(Clocked(v, e), e, cutoff, cfg);
    assert Core(Clocked(Aged(v, cutoff), e)) == Clocked(Core(Aged(v, cutoff)), e) == Core(Clocked(w, e));
    ReactCore(Clocked(Aged(v, cutoff), e), Clocked(w, e), e, cfg);
  }

  lemma ClockedAged(v: EngineV, e: Observation, cutoff: real)
    ensures Aged(Clocked(v, e), cutoff) == Clocked(Aged(v, cutoff), e)
  {
    assert Aged(Clocked(v, e), cutoff).pending == Clocked(Aged(v, cutoff), e).pending;
  }

  /** After every record of the suffix, the second engine is the first one aged. */
  ghost predicate AgreesThroughout(v: EngineV, w: EngineV, es: seq<Observation>, cutoff: real, cfg: Settings)
    requires cfg.Valid()
  {
    forall i | 0 < i <= |es| :: Core(Replay(w, es[..i], cfg)) == Core(Aged(Replay(v, es[..i], cfg), cutoff))
  }

  lemma {:induction false} ReplayAged(v: EngineV, w: EngineV, es: seq<Observation>, cutoff: real, cfg: Settings)
    requires cfg.Valid() && Core(Aged(v, cutoff)) == Core(w)
    ensures AgreesThroughout(v, w, es, cutoff, cfg) <==> ImmuneRun(v, es, cutoff, cfg)
    ensures ImmuneRun(v, es, cutoff, cfg) ==> Core(Aged(Replay(v, es, cfg), cutoff)) == Core(Replay(w, es, cfg))
  {
    hide Core, Aged, Immune, Consume;
    if es != [] {
      hide AgreesThroughout, ImmuneRun;
      var n := |es| - 1;
      ReplayAged(v, w, es[..n], cutoff, cfg);
      assert es == es[..n] + [es[n]];
      OneMoreRecord(v, w, es[..n], es[n], cutoff, cfg);
      var a, b := Replay(v, es[..n], cfg), Replay(w, es[..n], cfg);
      if Core(Aged(a, cutoff)) == Core(b) { ConsumeAged(a, b, es[n], cutoff, cfg); }
    }
  }

  lemma OneMoreRecord(v: EngineV, w: EngineV, es: seq<Observation>, e: Observation, cutoff: real, cfg: Settings)
    requires cfg.Valid()
    ensures Replay(v, es + [e], cfg) == Consume(Replay(v, es, cfg), e, cfg)
    ensures ImmuneRun(v, es + [e], cutoff, cfg) <==>
              ImmuneRun(v, es, cutoff, cfg) && Immune(Replay(v, es, cfg), e, cutoff, cfg)
    ensures AgreesThroughout(v, w, es + [e], cutoff, cfg) <==>
              AgreesThroughout(v, w, es, cutoff, cfg)
              && Core(Replay(w, es + [e], cfg)) == Core(Aged(Replay(v, es + [e], cfg), cutoff))
  {
    hide Immune, Aged, Consume, Core, ImmuneRun, AgreesThroughout;
    var t := es + [e];
    assert t[..|t| - 1] == es && t[|t| - 1] == e;
    hide Replay;
    ImmuneMore(v, es, e, cutoff, cfg);
    AgreesMore(v, w, es, e, cutoff, cfg);
  }

  lemma Prefixes<T>(s: seq<T>, x: T)
    ensures forall i | 0 <= i <= |s| :: (s + [x])[..i] == s[..i]
    ensures s[..|s|] == s
  {
  }

  lemma ImmuneMore(v: EngineV, es: seq<Observation>, e: Observation, cutoff: real, cfg: Settings)
    requires cfg.Valid()
    ensures ImmuneRun(v, es + [e], cutoff, cfg) <==>
              ImmuneRun(v, es, cutoff, cfg) && Immune(Replay(v, es, cfg), e, cutoff, cfg)
  {
    hide Immune, Replay;
    var t := es + [e];
    Prefixes(es, e);
    if ImmuneRun(v, t, cutoff, cfg) {
      forall i | 0 <= i <= |es| ensures Immune(Replay(v, es[..i], cfg), t[i], cutoff, cfg) {
        assert Immune(Replay(v, t[..i], cfg), t[i], cutoff, cfg);
      }
      assert t[|es|] == e;
      forall i | 0 <= i < |es| ensures Immune(Replay(v, es[..i], cfg), es[i], cutoff, cfg) {
        assert t[i] == es[i];
      }
    } else {
      var i :| 0 <= i < |t| && !Immune(Replay(v, t[..i], cfg), t[i], cutoff, cfg);
      assert t[..i] == es[..i] && t[i] == if i < |es| then es[i] else e;
    }
  }

  lemma AgreesMore(v: EngineV, w: EngineV, es: seq<Observation>, e: Observation, cutoff: real, cfg: Settings)
    requires cfg.Valid()
    ensures AgreesThroughout(v, w, es + [e], cutoff, cfg) <==>
              AgreesThroughout(v, w, es, cutoff, cfg)
              && Core(Replay(w, es + [e], cfg)) == Core(Aged(Replay(v, es + [e], cfg), cutoff))
  {
    hide Aged, Core, Replay;
    var t := es + [e];
    Prefixes(es, e);
    assert t[..|t|] == t;
    if AgreesThroughout(v, w, t, cutoff, cfg) {
      forall i | 0 < i <= |es| ensures Core(Replay(w, es[..i], cfg)) == Core(Aged(Replay(v, es[..i], cfg), cutoff)) {
        assert t[..i] == es[..i];
        assert Core(Replay(w, t[..i], cfg)) == Core(Aged(Replay(v, t[..i], cfg), cutoff));
      }
    }
  }

  /**
   Crash transparency, exactly.  For every engine, every restart and every later suffix of the
   journal: after each record the restarted engine has the ledgers, pending attempts, learned
   capacities, penalties, producers, cursor and event number of the engine that never stopped, once
   that one ages out the same history, if and only if every record of the suffix is immune where
   it comes.
   */
  lemma CrashTransparent(v: EngineV, es: seq<Observation>, cutoff: real, now: real, cfg: Settings)
    requires cfg.Valid()
    ensures AgreesThroughout(v, Restored(v, cutoff, now), es, cutoff, cfg) <==> ImmuneRun(v, es, cutoff, cfg)
  {
    hide Immune, Restored, Aged;
    ReplayAged(v, Aged(v, cutoff), es, cutoff, cfg);
    forall i | 0 < i <= |es|
      ensures Core(Replay(Restored(v, cutoff, now), es[..i], cfg)) == Core(Replay(Aged(v, cutoff), es[..i], cfg))
    {
      RestoredCore(v, cutoff, now);
      ClockIrrelevant(Restored(v, cutoff, now), Aged(v, cutoff), es[..i], cfg);
    }
  }

  lemma RestoredCore(v: EngineV, cutoff: real, now: real)
    ensures Core(Restored(v, cutoff, now).(now := Aged(v, cutoff).now)) == Core(Aged(v, cutoff))
  {
  }

  /** At the end of an immune suffix. */
  lemma ImmuneEnd(v: EngineV, es: seq<Observation>, cutoff: real, now: real, cfg: Settings)
    requires cfg.Valid() && es != [] && ImmuneRun(v, es, cutoff, cfg)
    ensures Core(Replay(Restored(v, cutoff, now), es, cfg)) == Core(Aged(Replay(v, es, cfg), cutoff))
  {
    hide ImmuneRun, Restored, Aged, Replay;
    CrashTransparent(v, es, cutoff, now, cfg);
    assert es[..|es|] == es;
  }

  /** The attempt a record reports on, when its treatment depends on whether that is still pending. */
  function Subject(b: Body): Option<Id> {
    match b
    case Dispatch(id, _, _, _) => Some(id)
    case Demote(_, attempt, reason, _) => if reason == "429" then attempt else None
    case Success(_, attempt) => attempt
    case _ => None
  }

  /** What a look at the journal alone can tell: recent records, none about an attempt that aged out. */
  ghost predicate RecentSuffix(v: EngineV, es: seq<Observation>, cutoff: real, cfg: Settings) {
    forall e | e in es ::
      cutoff < e.at - cfg.windows.rpm && (Subject(e.body).Some? ==> !Stale(v, Subject(e.body).value, cutoff))
  }

  /** Such a suffix is immune, whatever comes of its records. */
  lemma {:induction false} RecentSuffixImmune(v: EngineV, es: seq<Observation>, cutoff: real, cfg: Settings)
    requires cfg.Valid() && IdentityOK(v) && RecentSuffix(v, es, cutoff, cfg)
    ensures ImmuneRun(v, es, cutoff, cfg)
    ensures OnlyOldStale(v, Replay(v, es, cfg), cutoff)
  {
    hide Immune, IdentityOK, ImmuneRun, OnlyOldStale;
    if es == [] {
      NothingRun(v, cutoff, cfg);
    } else {
      var before, e := es[..|es| - 1], es[|es| - 1];
      assert e in es && forall x | x in before :: x in es;
      RecentSuffixImmune(v, before, cutoff, cfg);
      assert cutoff < e.at - cfg.windows.rpm && (Subject(e.body).Some? ==> !Stale(v, Subject(e.body).value, cutoff));
      assert es == before + [e];
      hide RecentSuffix, Replay, Stale, Consume;
      OneMoreRecord(v, v, before, e, cutoff, cfg);
      RecentStep(v, Replay(v, before, cfg), e, cutoff, cfg);
    }
  }

  /** What is stale now was stale before, and no newer entry bears its id. */
  ghost predicate OnlyOldStale(v: EngineV, live: EngineV, cutoff: real) {
    && (forall id | Stale(live, id, cutoff) :: Stale(v, id, cutoff))
    && (forall id | Stale(v, id, cutoff) :: NoneNewer(live, id, cutoff))
  }

  lemma NothingRun(v: EngineV, cutoff: real, cfg: Settings)
    requires cfg.Valid() && IdentityOK(v)
    ensures ImmuneRun(v, [], cutoff, cfg) && OnlyOldStale(v, v, cutoff)
  {
    hide IdentityOK, NoneNewer;
    forall id | Stale(v, id, cutoff) ensures NoneNewer(v, id, cutoff) {
      IdentityNoneNewer(v, id, cutoff);
    }
  }

  lemma RecentStep(v: EngineV, live: EngineV, e: Observation, cutoff: real, cfg: Settings)
    requires cfg.Valid() && OnlyOldStale(v, live, cutoff) && cutoff < e.at - cfg.windows.rpm
    requires Subject(e.body).Some? ==> !Stale(v, Subject(e.body).value, cutoff)
    ensures Immune(live, e, cutoff, cfg) && OnlyOldStale(v, Consume(live, e, cfg), cutoff)
  {
    hide React, Immune, NoneNewer;
    RecentImmune(v, live, e, cutoff, cfg);
    assert Clocked(live, e).(now := e.at) == Clocked(live, e) && Clocked(live, e).pending == live.pending;
    NoNewStale(Clocked(live, e), e, cutoff, cfg);
    forall id | Stale(v, id, cutoff) ensures NoneNewer(Consume(live, e, cfg), id, cutoff) {
      NoneNewerStays(live, e, id, cutoff, cfg);
    }
  }

  lemma RecentImmune(v: EngineV, live: EngineV, e: Observation, cutoff: real, cfg: Settings)
    requires cfg.Valid() && OnlyOldStale(v, live, cutoff) && cutoff < e.at - cfg.windows.rpm
    requires Subject(e.body).Some? ==> !Stale(v, Subject(e.body).value, cutoff)
    ensures Immune(live, e, cutoff, cfg)
  {
    hide Since, Keep, PerMinute, UsageImmune, NoneNewer;
    var b := e.body;
    if b.Usage? { NoneNewerImmune(live, b, cutoff); }
    if b.Demote? { SinceKeep(Lookup(live, b.route).sent, cutoff, e.at - cfg.windows.rpm); }
  }

  /** The clock before the first record does not matter: the record brings its own. */
  lemma {:induction false} ClockIrrelevant(v: EngineV, w: EngineV, es: seq<Observation>, cfg: Settings)
    requires cfg.Valid() && es != [] && Core(v.(now := w.now)) == Core(w)
    ensures Core(Replay(v, es, cfg)) == Core(Replay(w, es, cfg))
  {
    var before, e := es[..|es| - 1], es[|es| - 1];
    if before == [] {
      assert Core(Clocked(v, e)) == Clocked(Core(v.(now := w.now)), e) == Core(Clocked(w, e));
      ReactCore(Clocked(v, e), Clocked(w, e), e, cfg);
      hide React;
    } else {
      ClockIrrelevant(v, w, before, cfg);
      var a, b := Replay(v, before, cfg), Replay(w, before, cfg);
      assert Core(Clocked(a, e)) == Clocked(Core(a), e) == Core(Clocked(b, e));
      ReactCore(Clocked(a, e), Clocked(b, e), e, cfg);
      hide React;
    }
  }

  /** When nothing had aged out at the restart, it leaves no trace at all, whatever the journal holds. */
  lemma RestartInvisible(v: EngineV, es: seq<Observation>, cutoff: real, now: real, cfg: Settings)
    requires cfg.Valid() && es != []
    requires Core(Aged(v, cutoff)) == Core(v)
    ensures Core(Replay(Restored(v, cutoff, now), es, cfg)) == Core(Replay(v, es, cfg))
  {
    hide Replay;
    RestoredCore(v, cutoff, now);
    ClockIrrelevant(Restored(v, cutoff, now), Aged(v, cutoff), es, cfg);
    ReplayCore(Aged(v, cutoff), v, es, cfg);
  }

  /** Every dispatch of the suffix uses an id no ledger entry has. */
  ghost predicate FreshRun(v: EngineV, es: seq<Observation>, cfg: Settings)
    requires cfg.Valid()
  {
    forall i | 0 <= i < |es| :: FreshDispatch(Replay(v, es[..i], cfg), es[i])
  }

  lemma UnlocatedAged(v: EngineV, id: Id, cutoff: real)
    requires Unlocated(v, id)
    ensures Unlocated(Aged(v, cutoff), id)
  {
    var w := Aged(v, cutoff);
    forall k, i: nat ensures !Located(w, k, i, id) {
      if Located(w, k, i, id) {
        KeepMembers(v.states[k].sent, cutoff);
        var j := Origin(v, w, k, i, id);
        assert false;
      }
    }
  }

  lemma {:induction false} KeepMembers(s: seq<EntryV>, cutoff: real)
    ensures forall e | e in Keep(s, cutoff) :: e in s
  {
    if s != [] {
      KeepMembers(s[..|s| - 1], cutoff);
      assert s == s[..|s| - 1] + [s[|s| - 1]];
    }
  }

  /** A restart does not turn a fresh id into a used one. */
  lemma FreshRunRestored(v: EngineV, es: seq<Observation>, cutoff: real, now: real, cfg: Settings)
    requires cfg.Valid() && ImmuneRun(v, es, cutoff, cfg) && FreshRun(v, es, cfg)
    ensures FreshRun(Restored(v, cutoff, now), es, cfg)
  {
    CrashTransparent(v, es, cutoff, now, cfg);
    forall i | 0 <= i < |es| ensures FreshDispatch(Replay(Restored(v, cutoff, now), es[..i], cfg), es[i]) {
      var a, b, e := Replay(v, es[..i], cfg), Replay(Restored(v, cutoff, now), es[..i], cfg), es[i];
      assert Immune(a, e, cutoff, cfg) && FreshDispatch(a, e);
      assert b.states == Aged(a, cutoff).states && b.pending == Aged(a, cutoff).pending;
      hide Aged, Replay, Restored, Unlocated;
      if e.body.Dispatch? && e.body.id !in b.pending { FreshStays(a, b, e, cutoff, cfg); }
    }
  }

  lemma FreshStays(v: EngineV, w: EngineV, e: Observation, cutoff: real, cfg: Settings)
    requires cfg.Valid() && e.body.Dispatch? && Immune(v, e, cutoff, cfg) && FreshDispatch(v, e)
    requires w.states == Aged(v, cutoff).states && w.pending == Aged(v, cutoff).pending && e.body.id !in w.pending
    ensures Unlocated(w, e.body.id)
  {
    assert e.body.id !in v.pending;
    UnlocatedAged(v, e.body.id, cutoff);
    SameLocated(Aged(v, cutoff), w, e.body.id);
  }

  lemma SameLocated(v: EngineV, w: EngineV, id: Id)
    requires v.states == w.states && Unlocated(v, id)
    ensures Unlocated(w, id)
  {
    forall k, i: nat ensures !Located(w, k, i, id) {
      assert !Located(v, k, i, id);
    }
  }

  /**
   How a success of an aged attempt shows: the surviving engine still counts it, the restarted one no
   longer knows the attempt.
   */
  lemma StaleSuccessDiverges(v: EngineV, e: Observation, cutoff: real, now: real, cfg: Settings)
    requires cfg.Valid() && e.body.Success? && e.body.attempt.Some?
    requires Stale(v, e.body.attempt.value, cutoff)
    requires !v.pending[e.body.attempt.value].success && v.pending[e.body.attempt.value].entry.rpm > 0.0
    ensures Lookup(Consume(v, e, cfg), e.body.route).ok == Lookup(v, e.body.route).ok + 1
    ensures Lookup(Consume(Restored(v, cutoff, now), e, cfg), e.body.route).ok == Lookup(v, e.body.route).ok
  {
    hide EventLevel, Last, Recent, Keep;
    LookupAged(v, e.body.route, cutoff);
  }
}
