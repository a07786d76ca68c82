/** Invariants of the engine over every history: learned capacities, and the event feed. */
module EngineFacts {
  import opened Prelude
  import opened Ledger
  import opened Penalties
  import opened Levels
  import opened Quota
  import opened EngineModel

  // ---- learned capacity ---------------------------------------------------------------

  /** Every route's state is coherent, and its maximum is the saved one. */
  ghost predicate CapacityOK(v: EngineV) {
    && (forall k | k in v.states :: Learned(v.states[k]) && v.states[k].safeRpm == Saved(v, k))
    && (forall k | k in v.capacity :: v.capacity[k] > 0.0)
    && (forall id | id in v.pending :: v.pending[id].entry.rpm > 0.0)
  }

  lemma LookupOK(v: EngineV, k: Key)
    requires CapacityOK(v)
    ensures Learned(Lookup(v, k)) && Lookup(v, k).safeRpm == Saved(v, k)
  {
  }

  lemma PricedOK(v: EngineV, id: Id, tokens: real)
    requires CapacityOK(v) && id in v.pending
    ensures CapacityOK(Priced(v, id, tokens))
  {
  }

  lemma SuccessOK(v: EngineV, b: Body)
    requires CapacityOK(v) && b.Success?
    ensures CapacityOK(OnSuccess(v, b))
  {
    LookupOK(v, b.route);
  }

  lemma DispatchOK(v: EngineV, producer: string, b: Body, cfg: Settings)
    requires cfg.Valid() && CapacityOK(v) && b.Dispatch?
    ensures CapacityOK(OnDispatch(v, producer, b, cfg))
  {
    LookupOK(v, b.route);
    var r := Attempted(Lookup(v, b.route));
    ChargedLearned(r, v.now, Estimate(r, b.bytes, cfg), b.face, Some(b.id), cfg);
    hide Learned, Estimate, DropLeading;
  }

  lemma DemoteOK(v: EngineV, b: Body, cfg: Settings)
    requires cfg.Valid() && CapacityOK(v) && b.Demote?
    ensures CapacityOK(OnDemote(v, b, cfg))
  {
    hide Learned, Last, EventLevel, Attributed, Penalise;
    LookupOK(v, b.route);
    DemotedLearned(Lookup(v, b.route), v.now, b.reason, b.retryAfter, Rate(Known(v, b.attempt)), cfg);
  }

  lemma UsageOK(v: EngineV, b: Body)
    requires CapacityOK(v) && b.Usage?
    ensures CapacityOK(OnUsage(v, b))
  {
    hide CapacityOK, Priced, Lookup, With, Calibrated;
    if b.tokens > 0 {
      var v1 := if Known(v, b.attempt).Some? then Priced(v, b.attempt.value, b.tokens as real) else v;
      if Known(v, b.attempt).Some? { PricedOK(v, b.attempt.value, b.tokens as real); }
      CalibratedOK(v1, b.route, b.bytes, b.tokens as real);
    }
  }

  lemma CalibratedOK(v: EngineV, k: Key, bytes: real, total: real)
    requires CapacityOK(v)
    ensures CapacityOK(With(v, k, Calibrated(Lookup(v, k), bytes, total)))
  {
    LookupOK(v, k);
  }

  lemma ReactOK(v: EngineV, e: Observation, cfg: Settings)
    requires cfg.Valid() && CapacityOK(v)
    ensures CapacityOK(React(v, e, cfg))
  {
    hide OnDispatch, OnDemote, OnUsage, OnSuccess, CapacityOK;
    match e.body
    case Dispatch(_, _, _, _) => DispatchOK(v, e.producer, e.body, cfg);
    case Demote(_, _, _, _) => DemoteOK(v, e.body, cfg);
    case Usage(_, _, _, _) => UsageOK(v, e.body);
    case Success(_, _) => SuccessOK(v, e.body);
    case Status(route, status) => StatusOK(v, route, status);
    case Timeout(route, _) => StatusOK(v, route, "");
    case _ => FewerPendingOK(v, React(v, e, cfg));
  }

  lemma ConsumeOK(v: EngineV, e: Observation, cfg: Settings)
    requires cfg.Valid() && CapacityOK(v)
    ensures CapacityOK(Consume(v, e, cfg))
  {
    FewerPendingOK(v, Clocked(v, e));
    ReactOK(Clocked(v, e), e, cfg);
    hide CapacityOK, React;
  }

  lemma FewerPendingOK(v: EngineV, w: EngineV)
    requires CapacityOK(v) && w.states == v.states && w.capacity == v.capacity
    requires forall id | id in w.pending :: id in v.pending && w.pending[id] == v.pending[id]
    ensures CapacityOK(w)
  {
  }

  lemma StatusOK(v: EngineV, k: Key, status: string)
    requires CapacityOK(v)
    ensures CapacityOK(With(v, k, Answered(Lookup(v, k), status)))
    ensures CapacityOK(With(v, k, TimedOut(Lookup(v, k))))
  {
    LookupOK(v, k);
  }

  lemma AgedOK(v: EngineV, cutoff: real)
    requires CapacityOK(v)
    ensures CapacityOK(Aged(v, cutoff))
  {
    forall k | k in v.states ensures Learned(v.states[k].(sent := Keep(v.states[k].sent, cutoff))) {
      KeepLearned(v.states[k].sent, cutoff);
    }
  }

  lemma {:induction false} WeighedOK(v: EngineV, routes: seq<Key>, cfg: Settings)
    requires cfg.Valid() && CapacityOK(v)
    ensures CapacityOK(Weighed(v, routes, cfg))
  {
    if routes != [] {
      WeighedOK(v, routes[..|routes| - 1], cfg);
      LookupOK(Weighed(v, routes[..|routes| - 1], cfg), routes[|routes| - 1]);
    }
  }

  lemma StepOK(v: EngineV, i: Input, cfg: Settings)
    requires cfg.Valid() && CapacityOK(v)
    ensures CapacityOK(Step(v, i, cfg))
  {
    hide CapacityOK, Consume, Emit, Weighed, Aged, Through;
    match i
    case Consumed(num, e) =>
      ConsumeOK(v, e, cfg);
      FewerPendingOK(Consume(v, e, cfg), Step(v, i, cfg));
    case Snapshot(now, routes) =>
      FewerPendingOK(v, v.(now := now, retentionThrough := Through(v.events, Horizon(now), v.retentionThrough)));
      AgedOK(v.(now := now, retentionThrough := Through(v.events, Horizon(now), v.retentionThrough)), Horizon(now));
      WeighedOK(Aged(v.(now := now, retentionThrough := Through(v.events, Horizon(now), v.retentionThrough)), Horizon(now)), routes, cfg);
    case Age(cutoff) => AgedOK(v, cutoff);
    case Restart(cutoff, _) =>
      AgedOK(v, cutoff);
      FewerPendingOK(Aged(v, cutoff), Step(v, i, cfg));
    case Local(kind, level, detail, message) => EmitOK(v, kind, level, detail, Text(message));
    case Skipped(_, _) => FewerPendingOK(v, Step(v, i, cfg));
    case Jumped(_) => FewerPendingOK(v, Step(v, i, cfg));
    case AgeFeed(_) => FewerPendingOK(v, Step(v, i, cfg));
  }

  lemma EmitOK(v: EngineV, kind: string, level: Level, detail: Detail, content: Content)
    requires CapacityOK(v)
    ensures CapacityOK(Emit(v, kind, level, detail, content))
  {
    hide CapacityOK, EventLevel, Last;
    FewerPendingOK(v, Emit(v, kind, level, detail, content));
  }

  /** The dispatch rate this input proves safe for `key`, or 0 when it proves nothing. */
  function Earned(v: EngineV, i: Input, key: Key): real {
    if i.Consumed? && i.e.body.Success? && i.e.body.route == key then
      var record := Known(v, i.e.body.attempt);
      if record.Some? && !record.value.success then record.value.entry.rpm else 0.0
    else 0.0
  }

  /** The best rate a whole history proved safe for `key`. */
  function BestEarned(v: EngineV, inputs: seq<Input>, key: Key, cfg: Settings): real
    requires cfg.Valid()
  {
    if inputs == [] then 0.0
    else Max(BestEarned(v, inputs[..|inputs| - 1], key, cfg),
             Earned(Fold(v, inputs[..|inputs| - 1], cfg), inputs[|inputs| - 1], key))
  }

  lemma {:induction false} WeighedKeepsCapacity(v: EngineV, routes: seq<Key>, key: Key, cfg: Settings)
    requires cfg.Valid()
    ensures Weighed(v, routes, cfg).capacity == v.capacity
    ensures Lookup(Weighed(v, routes, cfg), key).foreignSeen == Lookup(v, key).foreignSeen
  {
    if routes != [] {
      WeighedKeepsCapacity(v, routes[..|routes| - 1], key, cfg);
      WeighedKeepsCapacity(v, routes[..|routes| - 1], routes[|routes| - 1], cfg);
    }
  }

  lemma SuccessEarns(v: EngineV, b: Body, key: Key)
    requires CapacityOK(v) && b.Success?
    ensures Saved(OnSuccess(v, b), key) == Max(Saved(v, key), Earned(v, Consumed(0, Observation(v.now, "", None, b)), key))
    ensures Lookup(v, key).foreignSeen ==> Lookup(OnSuccess(v, b), key).foreignSeen
  {
    LookupOK(v, key);
    LookupOK(v, b.route);
    hide EventLevel, Last, Learned;
  }

  lemma DemoteEarns(v: EngineV, b: Body, key: Key, cfg: Settings)
    requires cfg.Valid() && b.Demote?
    ensures Saved(OnDemote(v, b, cfg), key) == Saved(v, key)
    ensures Lookup(v, key).foreignSeen ==> Lookup(OnDemote(v, b, cfg), key).foreignSeen
  {
    hide EventLevel, Last, Penalise, Attributed;
  }

  lemma DispatchEarns(v: EngineV, producer: string, b: Body, key: Key, cfg: Settings)
    requires cfg.Valid() && b.Dispatch?
    ensures Saved(OnDispatch(v, producer, b, cfg), key) == Saved(v, key)
    ensures Lookup(v, key).foreignSeen ==> Lookup(OnDispatch(v, producer, b, cfg), key).foreignSeen
  {
    hide DropLeading, Dispatched, Estimate;
  }

  lemma UsageEarns(v: EngineV, b: Body, key: Key)
    requires b.Usage?
    ensures Saved(OnUsage(v, b), key) == Saved(v, key)
    ensures Lookup(v, key).foreignSeen ==> Lookup(OnUsage(v, b), key).foreignSeen
  {
    hide Price;
  }

  lemma OthersEarn(v: EngineV, e: Observation, key: Key, cfg: Settings)
    requires cfg.Valid() && !e.body.Success? && !e.body.Demote? && !e.body.Dispatch? && !e.body.Usage?
    ensures Saved(React(v, e, cfg), key) == Saved(v, key)
    ensures Lookup(v, key).foreignSeen ==> Lookup(React(v, e, cfg), key).foreignSeen
  {
    hide OnDemote, OnDispatch, OnSuccess, OnUsage, EventLevel, Last;
  }

  lemma ReactEarns(v: EngineV, e: Observation, key: Key, cfg: Settings)
    requires cfg.Valid() && !e.body.Success?
    ensures Saved(React(v, e, cfg), key) == Saved(v, key)
    ensures Lookup(v, key).foreignSeen ==> Lookup(React(v, e, cfg), key).foreignSeen
  {
    hide OnDemote, OnDispatch, OnUsage, Lookup, Saved;
    if e.body.Demote? {
      DemoteEarns(v, e.body, key, cfg);
    } else if e.body.Dispatch? {
      DispatchEarns(v, e.producer, e.body, key, cfg);
    } else if e.body.Usage? {
      UsageEarns(v, e.body, key);
    } else {
      OthersEarn(v, e, key, cfg);
    }
  }

  lemma ConsumeEarns(v: EngineV, num: nat, e: Observation, key: Key, cfg: Settings)
    requires cfg.Valid() && CapacityOK(v)
    ensures Saved(Consume(v, e, cfg), key) == Max(Saved(v, key), Earned(v, Consumed(num, e), key))
    ensures Lookup(v, key).foreignSeen ==> Lookup(Consume(v, e, cfg), key).foreignSeen
  {
    LookupOK(v, key);
    var w := Clocked(v, e);
    FewerPendingOK(v, w);
    hide OnSuccess;
    if e.body.Success? {
      SuccessEarns(w, e.body, key);
    } else {
      hide React;
      ReactEarns(w, e, key, cfg);
    }
  }

  lemma StepEarns(v: EngineV, i: Input, key: Key, cfg: Settings)
    requires cfg.Valid() && CapacityOK(v)
    ensures Saved(Step(v, i, cfg), key) == Max(Saved(v, key), Earned(v, i, key))
    ensures Lookup(v, key).foreignSeen ==> Lookup(Step(v, i, cfg), key).foreignSeen
  {
    hide Consume, Weighed, Learned, Normalised, Recent, Through, Keep;
    LookupOK(v, key);
    match i
    case Consumed(num, e) => ConsumeEarns(v, num, e, key, cfg);
    case Snapshot(now, routes) =>
      WeighedKeepsCapacity(Aged(v.(now := now, retentionThrough := Through(v.events, Horizon(now), v.retentionThrough)), Horizon(now)), routes, key, cfg);
    case _ =>
  }

  /**
   Learned capacity over every history of observations, snapshots, ageing and restarts: each
   route's maximum is the larger of the one loaded and the best dispatch rate any counted success
   proved; it equals the saved entry; outside usage stays between zero and that maximum; and a
   route once seen in contention is never again reported as never contended.
   */
  lemma {:induction false} LearnedCapacity(v: EngineV, inputs: seq<Input>, key: Key, cfg: Settings)
    requires cfg.Valid() && CapacityOK(v)
    ensures var w := Fold(v, inputs, cfg);
            && CapacityOK(w)
            && Lookup(w, key).safeRpm == Saved(w, key) == Max(Saved(v, key), BestEarned(v, inputs, key, cfg))
            && 0.0 <= Lookup(w, key).otherRpm <= Lookup(w, key).safeRpm
            && (Lookup(v, key).foreignSeen || Lookup(w, key).otherRpm > 0.0 ==> Lookup(w, key).foreignSeen)
            && (Group(Lookup(w, key)) < 2 ==> Lookup(w, key).otherRpm == 0.0)
  {
    LookupOK(v, key);
    if inputs != [] {
      var before, i := inputs[..|inputs| - 1], inputs[|inputs| - 1];
      LearnedCapacity(v, before, key, cfg);
      StepOK(Fold(v, before, cfg), i, cfg);
      StepEarns(Fold(v, before, cfg), i, key, cfg);
    }
    LookupOK(Fold(v, inputs, cfg), key);
  }

  // ---- the event feed -------------------------------------------------------------------

  ghost predicate Numbered(s: seq<FeedEvent>, top: nat) {
    && (forall i, j | 0 <= i < j < |s| :: s[i].num < s[j].num)
    && (forall i | 0 <= i < |s| :: 0 < s[i].num <= top)
  }

  ghost predicate Normal(s: seq<FeedEvent>) {
    forall i | 0 <= i < |s| :: s[i].level == EventLevel(s[i].kind, s[i].level, s[i].detail)
  }

  ghost predicate FeedOK(v: EngineV) { Numbered(v.events, v.eventSeq) && Normal(v.events) && |v.events| <= RING }

  /** `w`'s feed extends `v`'s: same stream, nothing renumbered, nothing old invented. */
  ghost predicate Extends(v: EngineV, w: EngineV) {
    && w.streamId == v.streamId
    && w.eventSeq >= v.eventSeq
    && (forall e | e in w.events && e.num <= v.eventSeq :: e in v.events)
  }

  lemma ExtendsTransitive(u: EngineV, v: EngineV, w: EngineV)
    requires Extends(u, v) && Extends(v, w)
    ensures Extends(u, w)
  {
  }

  lemma NumberedSnoc(s: seq<FeedEvent>, e: FeedEvent, top: nat)
    requires Numbered(s, top) && e.num <= top && e.num > 0
    requires forall x | x in s :: x.num < e.num
    ensures Numbered(s + [e], top)
  {
    var t := s + [e];
    forall i, j | 0 <= i < j < |t| ensures t[i].num < t[j].num {
      if j == |s| { assert s[i] in s; }
    }
  }

  lemma NumberedBelow(s: seq<FeedEvent>, top: nat, higher: nat)
    requires Numbered(s, top) && top <= higher
    ensures Numbered(s, higher)
    ensures forall x | x in s :: x.num <= top
  {
  }

  lemma NumberedLast(s: seq<FeedEvent>, top: nat, n: nat)
    requires Numbered(s, top)
    ensures Numbered(Last(s, n), top)
    ensures forall x | x in Last(s, n) :: x in s
  {
  }

  lemma NormalSnoc(s: seq<FeedEvent>, e: FeedEvent, n: nat)
    requires Normal(s) && e.level == EventLevel(e.kind, e.level, e.detail)
    ensures Normal(Last(s + [e], n))
  {
    hide EventLevel;
    assert Normal(s + [e]);
  }

  lemma AppendNumbered(s: seq<FeedEvent>, e: FeedEvent, top: nat)
    requires Numbered(s, top) && e.num == top + 1
    ensures Numbered(Last(s + [e], RING), top + 1)
    ensures forall x | x in Last(s + [e], RING) && x.num <= top :: x in s
  {
    NumberedBelow(s, top, top + 1);
    NumberedSnoc(s, e, top + 1);
    NumberedLast(s + [e], top + 1, RING);
    hide Numbered, Last;
  }

  lemma EmitExtends(v: EngineV, kind: string, level: Level, detail: Detail, content: Content)
    requires FeedOK(v)
    ensures var w := Emit(v, kind, level, detail, content);
            FeedOK(w) && Extends(v, w) && w.eventSeq == v.eventSeq + 1
  {
    hide EventLevel, Normal, Numbered, Last;
    LevelIdempotent(kind, level, detail);
    var e := FeedEvent(v.eventSeq + 1, v.now, kind, EventLevel(kind, level, detail), detail, content);
    NormalSnoc(v.events, e, RING);
    AppendNumbered(v.events, e, v.eventSeq);
  }

  ghost predicate Speaks(v: EngineV, w: EngineV) {
    FeedOK(w) && Extends(v, w) && (w.eventSeq == v.eventSeq ==> w.events == v.events)
  }

  lemma DemoteSpeaks(v: EngineV, b: Body, cfg: Settings)
    requires cfg.Valid() && FeedOK(v) && b.Demote?
    ensures Speaks(v, OnDemote(v, b, cfg))
  {
    var r := Lookup(v, b.route);
    var observed := Rate(Known(v, b.attempt));
    var r' := Demoted(r, v.now, b.reason, b.retryAfter, observed, cfg);
    var v1 := With(v, b.route, r');
    var content := OutsideUsage(b.route, Attributed(r, v.now, observed, cfg), r.safeRpm, r'.otherRpm);
    EmitExtends(v1, "foreign", Info, PLAIN, content);
    var v2 := if b.reason == "429" && r'.otherRpm > 0.0 then Emit(v1, "foreign", Info, PLAIN, content) else v1;
    assert OnDemote(v, b, cfg) == Emit(v2, if b.reason == "429" then "throttle" else "demote", Info, PLAIN,
                  Demotion(b.route, b.reason, r'.backoff.penalty, Park(b.retryAfter, cfg.policy)));
    hide OnDemote, Emit, FeedOK, Demoted, Lookup;
    EmitExtends(v2, if b.reason == "429" then "throttle" else "demote", Info, PLAIN,
                Demotion(b.route, b.reason, r'.backoff.penalty, Park(b.retryAfter, cfg.policy)));
    ExtendsTransitive(v, v2, OnDemote(v, b, cfg));
  }

  lemma SuccessSpeaks(v: EngineV, b: Body)
    requires FeedOK(v) && b.Success?
    ensures Speaks(v, OnSuccess(v, b))
  {
    hide Emit;
    var record := Known(v, b.attempt);
    if record.Some? {
      var rate := record.value.entry.rpm;
      EmitExtends(With(v, b.route, Proven(Lookup(v, b.route), rate)).(capacity := v.capacity[b.route := rate]),
                  "capacity", Info, PLAIN, CapacityRaised(b.route, Lookup(v, b.route).safeRpm, rate));
    }
  }

  lemma ConsumeExtends(v: EngineV, e: Observation, cfg: Settings)
    requires cfg.Valid() && FeedOK(v)
    ensures Speaks(v, Consume(v, e, cfg))
  {
    hide Emit, OnDemote, OnSuccess;
    var w := Clocked(v, e);
    if e.body.Narrated? {
      EmitExtends(w, e.body.kind, e.body.level, e.body.detail, Text(e.body.message));
    } else if e.body.Demote? {
      DemoteSpeaks(w, e.body, cfg);
    } else if e.body.Success? {
      SuccessSpeaks(w, e.body);
    } else {
      SilentReaction(w, e, cfg);
    }
  }

  /** The other records say nothing. */
  lemma SilentReaction(v: EngineV, e: Observation, cfg: Settings)
    requires cfg.Valid() && !e.body.Narrated? && !e.body.Demote? && !e.body.Success?
    ensures var w := React(v, e, cfg); w.events == v.events && w.eventSeq == v.eventSeq && w.streamId == v.streamId
  {
    hide Emit, OnDemote, OnSuccess, Lookup, ChargedFor, Calibrated, Price, Answered, TimedOut;
  }

  lemma {:induction false} RecentSize(s: seq<FeedEvent>, cutoff: real)
    ensures |Recent(s, cutoff)| <= |s|
    ensures |Recent(s, cutoff)| == |s| ==> Recent(s, cutoff) == s
  {
    if s != [] {
      RecentSize(s[..|s| - 1], cutoff);
      assert s == s[..|s| - 1] + [s[|s| - 1]];
    }
  }

  lemma {:induction false} RecentMembers(s: seq<FeedEvent>, cutoff: real, e: FeedEvent)
    ensures e in Recent(s, cutoff) <==> e in s && e.at > cutoff
  {
    if s != [] {
      RecentMembers(s[..|s| - 1], cutoff, e);
      assert s == s[..|s| - 1] + [s[|s| - 1]];
    }
  }

  lemma RecentSubset(s: seq<FeedEvent>, cutoff: real)
    ensures forall e | e in Recent(s, cutoff) :: e in s && e.at > cutoff
    ensures |Recent(s, cutoff)| <= |s|
    ensures |Recent(s, cutoff)| == |s| ==> Recent(s, cutoff) == s
  {
    RecentSize(s, cutoff);
    hide Recent;
    forall e | e in Recent(s, cutoff) ensures e in s && e.at > cutoff {
      RecentMembers(s, cutoff, e);
    }
  }

  lemma {:induction false} RecentNumbered(s: seq<FeedEvent>, cutoff: real, top: nat)
    requires Numbered(s, top)
    ensures Numbered(Recent(s, cutoff), top)
  {
    if s != [] {
      var front, last := s[..|s| - 1], s[|s| - 1];
      assert Numbered(front, top);
      RecentNumbered(front, cutoff, top);
      RecentSubset(front, cutoff);
      forall x | x in Recent(front, cutoff) ensures x.num < last.num {
        var j :| 0 <= j < |front| && front[j] == x;
        assert s[j].num < s[|s| - 1].num;
      }
      assert 0 < last.num <= top;
      hide Numbered;
      if last.at > cutoff { NumberedSnoc(Recent(front, cutoff), last, top); }
    }
  }

  lemma RecentKeeps(s: seq<FeedEvent>, cutoff: real, top: nat)
    requires Numbered(s, top) && Normal(s)
    ensures forall e | e in Recent(s, cutoff) :: e in s && e.at > cutoff
    ensures |Recent(s, cutoff)| <= |s|
    ensures |Recent(s, cutoff)| == |s| ==> Recent(s, cutoff) == s
    ensures Numbered(Recent(s, cutoff), top) && Normal(Recent(s, cutoff))
  {
    RecentSubset(s, cutoff);
    RecentNumbered(s, cutoff, top);
    hide EventLevel;
    var r := Recent(s, cutoff);
    forall i | 0 <= i < |r| ensures r[i].level == EventLevel(r[i].kind, r[i].level, r[i].detail) {
      assert r[i] in s;
    }
  }

  /** Ageing twice is ageing once, at the later cutoff. */
  lemma {:induction false} RecentTwice(s: seq<FeedEvent>, c: real, d: real)
    ensures Recent(Recent(s, c), d) == Recent(s, Max(c, d))
  {
    if s != [] {
      RecentTwice(s[..|s| - 1], c, d);
      var r := Recent(s[..|s| - 1], c);
      assert (r + [s[|s| - 1]])[..|r|] == r;
    }
  }

  lemma {:induction false} WeighedKeepsFeed(v: EngineV, routes: seq<Key>, cfg: Settings)
    requires cfg.Valid()
    ensures var w := Weighed(v, routes, cfg);
            w == v.(states := w.states)
  {
    if routes != [] { WeighedKeepsFeed(v, routes[..|routes| - 1], cfg); }
  }

  /** The cutoff an input ages the feed by, if it ages it at all. */
  function FeedCut(i: Input): Option<real> {
    match i
    case Snapshot(now, _) => Some(Horizon(now))
    case Age(cutoff) => Some(cutoff)
    case AgeFeed(cutoff) => Some(cutoff)
    case Restart(cutoff, _) => Some(cutoff)
    case _ => None
  }

  lemma RestoreIsQuiet(v: EngineV, cutoff: real, now: real)
    requires FeedOK(v)
    ensures Restored(v, cutoff, now).events == Recent(v.events, cutoff)
  {
    RecentKeeps(v.events, cutoff, v.eventSeq);
    var r := Recent(v.events, cutoff);
    assert Normalised(r) == r;
  }

  lemma SnapshotExtends(v: EngineV, now: real, routes: seq<Key>, cfg: Settings)
    requires cfg.Valid() && FeedOK(v)
    ensures var w := Snapshotted(v, now, routes, cfg);
            && FeedOK(w) && Extends(v, w)
            && w.eventSeq == v.eventSeq && w.cursor == v.cursor && w.events == Recent(v.events, Horizon(now))
  {
    hide Through, Numbered, Normal;
    RecentKeeps(v.events, Horizon(now), v.eventSeq);
    WeighedKeepsFeed(Aged(v.(now := now, retentionThrough := Through(v.events, Horizon(now), v.retentionThrough)), Horizon(now)), routes, cfg);
    hide Weighed;
  }

  lemma AgedExtends(v: EngineV, w: EngineV, cutoff: real)
    requires FeedOK(v) && w.events == Recent(v.events, cutoff) && w.eventSeq == v.eventSeq && w.streamId == v.streamId
    ensures FeedOK(w) && Extends(v, w)
  {
    hide Numbered, Normal;
    RecentKeeps(v.events, cutoff, v.eventSeq);
  }

  /** What any input does to the feed and the cursor. */
  lemma StepExtends(v: EngineV, i: Input, cfg: Settings)
    requires cfg.Valid() && FeedOK(v)
    ensures var w := Step(v, i, cfg);
            && FeedOK(w) && Extends(v, w)
            && (FeedCut(i).Some? ==> w.eventSeq == v.eventSeq && w.cursor == v.cursor && w.events == Recent(v.events, FeedCut(i).value))
            && (FeedCut(i).None? && w.eventSeq == v.eventSeq ==> w.events == v.events)
            && (i.Local? ==> w.eventSeq > v.eventSeq && w.cursor == v.cursor)
            && (i.Consumed? || i.Skipped? || i.Jumped? ==> w.cursor == i.num)
  {
    hide Consume, Emit, Snapshotted, Numbered, Normal, Recent;
    match i
    case Consumed(_, e) => ConsumeExtends(v, e, cfg);
    case Skipped(_, _) =>
    case Jumped(_) =>
    case Local(kind, level, detail, message) =>
      EmitExtends(v, kind, level, detail, Text(message));
      EmitKeepsCursor(v, kind, level, detail, Text(message));
    case Snapshot(now, routes) => SnapshotExtends(v, now, routes, cfg);
    case Age(cutoff) => AgedExtends(v, Step(v, i, cfg), cutoff);
    case AgeFeed(cutoff) => AgedExtends(v, Step(v, i, cfg), cutoff);
    case Restart(cutoff, now) =>
      RestoreIsQuiet(v, cutoff, now);
      AgedExtends(v, Step(v, i, cfg), cutoff);
  }

  lemma EmitKeepsCursor(v: EngineV, kind: string, level: Level, detail: Detail, content: Content)
    ensures Emit(v, kind, level, detail, content).cursor == v.cursor
  {
  }

  lemma {:induction false} KeepMembers(s: seq<EntryV>, cutoff: real, e: EntryV)
    ensures e in Keep(s, cutoff) <==> e in s && e.at > cutoff
    ensures multiset(Keep(s, cutoff))[e] == if e.at > cutoff then multiset(s)[e] else 0
  {
    if s != [] {
      KeepMembers(s[..|s| - 1], cutoff, e);
      assert s == s[..|s| - 1] + [s[|s| - 1]];
    }
  }

  /**
   What a restart gives back: everything saved, but for the ledger entries and pending attempts that are
   not newer than the cutoff, and the feed (`RestoredFeed`).  Only the clock is the new process's own.
   */
  lemma RestoredMeans(saved: EngineV, cutoff: real, now: real)
    ensures var w := Restored(saved, cutoff, now);
            && w == saved.(now := now, pending := w.pending, states := w.states, events := w.events)
            && (forall id :: id in w.pending <==> id in saved.pending && saved.pending[id].entry.at > cutoff)
            && (forall id | id in w.pending :: w.pending[id] == saved.pending[id])
            && w.states.Keys == saved.states.Keys
            && forall k | k in saved.states :: KeptOnly(saved.states[k], w.states[k], cutoff)
  {
    hide Recent, EventLevel, Keep, KeptOnly, Normalised, Last;
    forall k | k in saved.states ensures KeptOnly(saved.states[k], saved.states[k].(sent := Keep(saved.states[k].sent, cutoff)), cutoff) {
      KeepsOnly(saved.states[k], cutoff);
    }
  }

  /** The route is the same but for its ledger, which has lost exactly the entries up to the cutoff. */
  ghost predicate KeptOnly(r: RouteV, s: RouteV, cutoff: real) {
    s == r.(sent := s.sent) && forall e :: multiset(s.sent)[e] == if e.at > cutoff then multiset(r.sent)[e] else 0
  }

  lemma KeepsOnly(r: RouteV, cutoff: real)
    ensures KeptOnly(r, r.(sent := Keep(r.sent, cutoff)), cutoff)
  {
    hide Keep;
    forall e ensures multiset(Keep(r.sent, cutoff))[e] == if e.at > cutoff then multiset(r.sent)[e] else 0 {
      KeepMembers(r.sent, cutoff, e);
    }
  }

  /** Of the feed it gives back what is newer than the cutoff, at most the last 2000, with levels named anew. */
  lemma RestoredFeed(saved: EngineV, cutoff: real, now: real)
    ensures var events, recent := Restored(saved, cutoff, now).events, Recent(saved.events, cutoff);
            && |events| == (if |recent| < 2000 then |recent| else 2000)
            && forall i | 0 <= i < |events| ::
                 var x := recent[|recent| - |events| + i]; events[i] == x.(level := EventLevel(x.kind, x.level, x.detail))
    ensures forall e :: e in Recent(saved.events, cutoff) <==> e in saved.events && e.at > cutoff
  {
    hide Recent, EventLevel, Keep;
    forall e ensures e in Recent(saved.events, cutoff) <==> e in saved.events && e.at > cutoff { RecentMembers(saved.events, cutoff, e); }
  }
}
