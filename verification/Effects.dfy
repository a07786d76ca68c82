/**
 What each journal record comes to, in its own terms: the counters of its route, the costs and rates in
 its ledger, what the feed says of it, and what it shows of its producer.
 */
module Effects {
  import opened Prelude
  import opened Ledger
  import opened Penalties
  import opened Levels
  import opened Quota
  import opened EngineModel
  import opened Histories

  // ---- the counters of a route ---------------------------------------------------------------------

  /** The record is this route's success that counts: the first of a pending attempt, at a rate. */
  ghost predicate CountsAsSuccess(v: EngineV, e: Observation, key: Key) {
    && e.body.Success? && e.body.route == key && e.body.attempt.Some? && e.body.attempt.value in v.pending
    && !v.pending[e.body.attempt.value].success && v.pending[e.body.attempt.value].entry.rpm > 0.0
  }

  /**
   One record and one route.  A dispatch of an attempt not pending counts one; a rate limit and any other
   demotion are counted apart; so are timeouts, and successes that count.  The last status is that of the
   latest answer, demotion or timeout.  Records of other routes, and of producers, leave the counters be.
   */
  lemma RecordCounts(v: EngineV, e: Observation, key: Key, cfg: Settings)
    requires cfg.Valid()
    ensures var r, s, b := Lookup(v, key), Lookup(Consume(v, e, cfg), key), e.body;
            && s.attempts == r.attempts + (if b.Dispatch? && b.route == key && b.id !in v.pending then 1 else 0)
            && s.ok == r.ok + (if CountsAsSuccess(v, e, key) then 1 else 0)
            && s.rateLimited == r.rateLimited + (if b.Demote? && b.route == key && b.reason == "429" then 1 else 0)
            && s.errors == r.errors + (if b.Demote? && b.route == key && b.reason != "429" then 1 else 0)
            && s.timeouts == r.timeouts + (if b.Timeout? && b.route == key then 1 else 0)
            && s.lastStatus == (if b.Status? && b.route == key then b.status
                                else if b.Demote? && b.route == key then b.reason
                                else if b.Timeout? && b.route == key then "timeout"
                                else r.lastStatus)
            && s.tokenSamples == r.tokenSamples + (if b.Usage? && b.route == key && b.tokens > 0 && b.bytes > 0.0 then 1 else 0)
  {
    hide OnDispatch, OnUsage, OnDemote, OnSuccess, Lookup, Emit;
    var w, b := Clocked(v, e), e.body;
    SameRoutes(v, w, key);
    if b.Dispatch? {
      DispatchCounts(w, e, key, cfg);
    } else if b.Usage? {
      UsageCounts(w, b, key);
    } else if b.Demote? {
      DemoteCounts(w, b, key, cfg);
    } else if b.Success? {
      SuccessCounts(w, b, key);
    } else {
      QuietCounts(w, e, key, cfg);
    }
  }

  lemma SameRoutes(v: EngineV, w: EngineV, key: Key)
    requires w.states == v.states && w.capacity == v.capacity
    ensures Lookup(w, key) == Lookup(v, key)
  {
  }

  lemma DispatchCounts(v: EngineV, e: Observation, key: Key, cfg: Settings)
    requires cfg.Valid() && e.body.Dispatch? && v.now == e.at
    ensures var r, s := Lookup(v, key), Lookup(OnDispatch(v, e.producer, e.body, cfg), key);
            s == r.(sent := s.sent, attempts := r.attempts + (if e.body.route == key && e.body.id !in v.pending then 1 else 0), lastDispatchRpm := s.lastDispatchRpm)
    ensures e.body.id !in v.pending && e.body.route == key ==>
              var s := Lookup(OnDispatch(v, e.producer, e.body, cfg), key);
              s.sent != [] && s.lastDispatchRpm == s.sent[|s.sent| - 1].rpm
  {
    hide Estimate, DropLeading, Since, PerMinute;
  }

  lemma UsageCounts(v: EngineV, b: Body, key: Key)
    requires b.Usage?
    ensures var r, s := Lookup(v, key), Lookup(OnUsage(v, b), key);
            && s == r.(sent := s.sent, tokensPerByte := s.tokensPerByte, tokenSamples := s.tokenSamples)
            && s.tokenSamples == r.tokenSamples + (if b.route == key && b.tokens > 0 && b.bytes > 0.0 then 1 else 0)
            && (!(b.route == key && b.tokens > 0 && b.bytes > 0.0) ==> s.tokensPerByte == r.tokensPerByte)
  {
    hide Price;
  }

  lemma DemoteCounts(v: EngineV, b: Body, key: Key, cfg: Settings)
    requires cfg.Valid() && b.Demote?
    ensures var r, s := Lookup(v, key), Lookup(OnDemote(v, b, cfg), key);
            if b.route != key then s == r
            else
              && s.rateLimited == r.rateLimited + (if b.reason == "429" then 1 else 0)
              && s.errors == r.errors + (if b.reason != "429" then 1 else 0) && s.lastStatus == b.reason
              && s == r.(backoff := s.backoff, rateLimited := s.rateLimited, errors := s.errors, lastStatus := s.lastStatus,
                         otherRpm := s.otherRpm, foreignSeen := s.foreignSeen)
              && (b.reason != "429" ==> s.otherRpm == r.otherRpm && s.foreignSeen == r.foreignSeen)
  {
    hide Attributed, Penalise, EventLevel, Last;
  }

  lemma SuccessCounts(v: EngineV, b: Body, key: Key)
    requires b.Success?
    ensures var r, s := Lookup(v, key), Lookup(OnSuccess(v, b), key);
            && s.ok == r.ok + (if b.route == key && b.attempt.Some? && b.attempt.value in v.pending
                                  && !v.pending[b.attempt.value].success && v.pending[b.attempt.value].entry.rpm > 0.0 then 1 else 0)
            && s == r.(ok := s.ok, rpmSamples := s.rpmSamples, safeRpm := s.safeRpm, otherRpm := s.otherRpm)
  {
    hide EventLevel, Last;
  }

  lemma QuietCounts(v: EngineV, e: Observation, key: Key, cfg: Settings)
    requires cfg.Valid() && !e.body.Dispatch? && !e.body.Usage? && !e.body.Demote? && !e.body.Success?
    ensures var r, s, b := Lookup(v, key), Lookup(React(v, e, cfg), key), e.body;
            && s.timeouts == r.timeouts + (if b.Timeout? && b.route == key then 1 else 0)
            && s.lastStatus == (if b.Status? && b.route == key then b.status else if b.Timeout? && b.route == key then "timeout" else r.lastStatus)
            && s == r.(timeouts := s.timeouts, lastStatus := s.lastStatus)
  {
    hide OnDispatch, OnUsage, OnDemote, OnSuccess, EventLevel, Last;
  }

  /** Snapshots, expiry, restarts and announcements leave all counters be. */
  lemma OthersCountNothing(v: EngineV, i: Input, key: Key, cfg: Settings)
    requires cfg.Valid() && !i.Consumed?
    ensures var r, s := Lookup(v, key), Lookup(Step(v, i, cfg), key); s == r.(sent := s.sent, backoff := s.backoff)
  {
    hide Keep, Recent, Through, Normalised, EventLevel, Last;
    if i.Snapshot? {
      var w := Aged(v.(now := i.now, retentionThrough := Through(v.events, Horizon(i.now), v.retentionThrough)), Horizon(i.now));
      WeighedCounts(w, i.routes, key, cfg);
    }
  }

  lemma {:induction false} WeighedCounts(v: EngineV, routes: seq<Key>, key: Key, cfg: Settings)
    requires cfg.Valid()
    ensures var r, s := Lookup(v, key), Lookup(Weighed(v, routes, cfg), key); s == r.(backoff := s.backoff)
    ensures Weighed(v, routes, cfg).capacity == v.capacity
  {
    hide Decay;
    if routes != [] { WeighedCounts(v, routes[..|routes| - 1], key, cfg); }
  }

  // ---- counted over histories ------------------------------------------------------------------------

  datatype Failure = RateLimits | OtherFailures | Timeouts

  predicate IsOne(e: Observation, key: Key, kind: Failure) {
    match kind
    case RateLimits => e.body.Demote? && e.body.route == key && e.body.reason == "429"
    case OtherFailures => e.body.Demote? && e.body.route == key && e.body.reason != "429"
    case Timeouts => e.body.Timeout? && e.body.route == key
  }

  /** How many records of the history are failures of this kind. */
  function Count(inputs: seq<Input>, key: Key, kind: Failure): nat {
    if inputs == [] then 0
    else
      var last := inputs[|inputs| - 1];
      Count(inputs[..|inputs| - 1], key, kind) + if last.Consumed? && IsOne(last.e, key, kind) then 1 else 0
  }

  /** Rate limits, other failures and timeouts of a route are each counted once, whatever was snapshot, aged or restarted between. */
  lemma {:induction false} FailuresCounted(v: EngineV, inputs: seq<Input>, key: Key, cfg: Settings)
    requires cfg.Valid()
    ensures var r, s := Lookup(v, key), Lookup(Fold(v, inputs, cfg), key);
            && s.rateLimited == r.rateLimited + Count(inputs, key, RateLimits)
            && s.errors == r.errors + Count(inputs, key, OtherFailures)
            && s.timeouts == r.timeouts + Count(inputs, key, Timeouts)
  {
    hide Step, Lookup;
    if inputs != [] {
      var before, last := inputs[..|inputs| - 1], inputs[|inputs| - 1];
      FailuresCounted(v, before, key, cfg);
      var u := Fold(v, before, cfg);
      if last.Consumed? {
        RecordCounts(u, last.e, key, cfg);
        ConsumedStates(u, last, cfg);
        SameRoutes(Consume(u, last.e, cfg), Step(u, last, cfg), key);
      } else {
        OthersCountNothing(u, last, key, cfg);
      }
    }
  }

  lemma ConsumedStates(v: EngineV, i: Input, cfg: Settings)
    requires cfg.Valid() && i.Consumed?
    ensures Step(v, i, cfg).states == Consume(v, i.e, cfg).states && Step(v, i, cfg).capacity == Consume(v, i.e, cfg).capacity
  {
  }

  // ---- what the feed says ----------------------------------------------------------------------------

  /** The event is the next one after `n`, of this kind and content, and happened at `at`. */
  ghost predicate Says(x: FeedEvent, n: nat, at: real, kind: string, level: Level, detail: Detail, content: Content) {
    x.num == n + 1 && x.at == at && x.kind == kind && x.detail == detail && x.content == content && x.level == EventLevel(kind, level, detail)
  }

  lemma EmitSays(v: EngineV, kind: string, level: Level, detail: Detail, content: Content)
    ensures var w := Emit(v, kind, level, detail, content);
            && w.eventSeq == v.eventSeq + 1 && w.events != []
            && Says(w.events[|w.events| - 1], v.eventSeq, v.now, kind, level, detail, content)
            && w == v.(eventSeq := w.eventSeq, events := w.events)
  {
  }

  /** The feed keeps its newest 2000 events. */
  lemma EmitKeeps(v: EngineV, kind: string, level: Level, detail: Detail, content: Content)
    requires |v.events| <= 2000
    ensures var w := Emit(v, kind, level, detail, content);
            && |w.events| == (if |v.events| < 2000 then |v.events| + 1 else 2000)
            && w.events[..|w.events| - 1] == v.events[|v.events| + 1 - |w.events|..]
  {
  }

  /** A throttle with outside usage says whose the difference is, and then that it demotes; any other demotion just that. */
  lemma DemoteSays(v: EngineV, b: Body, cfg: Settings)
    requires cfg.Valid() && b.Demote?
    ensures var w, s := OnDemote(v, b, cfg), Lookup(OnDemote(v, b, cfg), b.route);
            var foreign := b.reason == "429" && s.otherRpm > 0.0;
            var park := if b.retryAfter.Some? && b.retryAfter.value > 0.0 then b.retryAfter.value else cfg.policy.demoteSeconds;
            && w.eventSeq == v.eventSeq + (if foreign then 2 else 1) && |w.events| >= (if foreign then 2 else 1)
            && Says(w.events[|w.events| - 1], w.eventSeq - 1, v.now, if b.reason == "429" then "throttle" else "demote", Info, PLAIN,
                    Demotion(b.route, b.reason, s.backoff.penalty, park))
            && (foreign ==>
                  var x := w.events[|w.events| - 2];
                  && x.content.OutsideUsage? && x.content.ours + x.content.outside == x.content.safe
                  && Says(x, v.eventSeq, v.now, "foreign", Info, PLAIN,
                          OutsideUsage(b.route, x.content.ours, Lookup(v, b.route).safeRpm, s.otherRpm)))
  {
    hide Emit, Demoted, Attributed, Says, Lookup;
    var r := Lookup(v, b.route);
    var observed := Rate(Known(v, b.attempt));
    var r' := Demoted(r, v.now, b.reason, b.retryAfter, observed, cfg);
    DemotedContended(r, v.now, b, observed, cfg);
    AnnouncedSays(With(v, b.route, r'), b, Attributed(r, v.now, observed, cfg), r.safeRpm, r'.otherRpm, r'.backoff.penalty, cfg);
    AnnouncedLookup(v, b, r', Attributed(r, v.now, observed, cfg), r.safeRpm, cfg);
    var w := OnDemote(v, b, cfg);
    if b.reason == "429" && r'.otherRpm > 0.0 {
      SaysContent(w.events[|w.events| - 2], v.eventSeq, v.now, "foreign", Info, PLAIN,
                  OutsideUsage(b.route, Attributed(r, v.now, observed, cfg), r.safeRpm, r'.otherRpm));
    }
  }

  lemma SaysContent(x: FeedEvent, n: nat, at: real, kind: string, level: Level, detail: Detail, content: Content)
    requires Says(x, n, at, kind, level, detail, content)
    ensures x.content == content
  {
  }

  lemma AnnouncedLookup(v: EngineV, b: Body, r': RouteV, ours: real, safe: real, cfg: Settings)
    requires b.Demote?
    ensures Lookup(Announced(With(v, b.route, r'), b, ours, safe, r'.otherRpm, r'.backoff.penalty, cfg), b.route) == r'
  {
    hide EventLevel, Last;
  }

  lemma AnnouncedSays(u: EngineV, b: Body, ours: real, safe: real, outside: real, penalty: Penalty, cfg: Settings)
    requires b.Demote?
    ensures var w := Announced(u, b, ours, safe, outside, penalty, cfg);
            var foreign := b.reason == "429" && outside > 0.0;
            var park := if b.retryAfter.Some? && b.retryAfter.value > 0.0 then b.retryAfter.value else cfg.policy.demoteSeconds;
            && w.eventSeq == u.eventSeq + (if foreign then 2 else 1) && |w.events| >= (if foreign then 2 else 1)
            && Says(w.events[|w.events| - 1], w.eventSeq - 1, u.now, if b.reason == "429" then "throttle" else "demote", Info, PLAIN,
                    Demotion(b.route, b.reason, penalty, park))
            && (foreign ==> Says(w.events[|w.events| - 2], u.eventSeq, u.now, "foreign", Info, PLAIN, OutsideUsage(b.route, ours, safe, outside)))
  {
    hide Emit, Says;
    var foreign := b.reason == "429" && outside > 0.0;
    var said := OutsideUsage(b.route, ours, safe, outside);
    var w1 := if foreign then Emit(u, "foreign", Info, PLAIN, said) else u;
    if foreign { EmitSays(u, "foreign", Info, PLAIN, said); }
    var kind, content := if b.reason == "429" then "throttle" else "demote", Demotion(b.route, b.reason, penalty, Park(b.retryAfter, cfg.policy));
    EmitSays(w1, kind, Info, PLAIN, content);
    EmitKeepsLast(w1, kind, Info, PLAIN, content);
    assert Announced(u, b, ours, safe, outside, penalty, cfg) == Emit(w1, kind, Info, PLAIN, content);
  }

  lemma EmitKeepsLast(v: EngineV, kind: string, level: Level, detail: Detail, content: Content)
    ensures var w := Emit(v, kind, level, detail, content);
            v.events != [] ==> |w.events| >= 2 && w.events[|w.events| - 2] == v.events[|v.events| - 1]
  {
  }

  lemma DemotedContended(r: RouteV, now: real, b: Body, observed: Option<real>, cfg: Settings)
    requires cfg.Valid() && b.Demote?
    ensures var s, ours := Demoted(r, now, b.reason, b.retryAfter, observed, cfg), Attributed(r, now, observed, cfg);
            && s.safeRpm == r.safeRpm && (b.reason == "429" && s.otherRpm > 0.0 ==> ours + s.otherRpm == r.safeRpm)
  {
    hide Attributed, Penalise;
  }

  /** A rate that beats the learned maximum is announced with both; any other success says nothing. */
  lemma SuccessSays(v: EngineV, b: Body)
    requires b.Success?
    ensures var w, r := OnSuccess(v, b), Lookup(v, b.route);
            var counts := b.attempt.Some? && b.attempt.value in v.pending && !v.pending[b.attempt.value].success;
            var rate := if counts then v.pending[b.attempt.value].entry.rpm else 0.0;
            if counts && rate > 0.0 && rate > r.safeRpm then
              && w.eventSeq == v.eventSeq + 1 && w.events != []
              && Says(w.events[|w.events| - 1], v.eventSeq, v.now, "capacity", Info, PLAIN, CapacityRaised(b.route, r.safeRpm, rate))
              && w.capacity == v.capacity[b.route := rate]
            else w.events == v.events && w.eventSeq == v.eventSeq && w.capacity == v.capacity
  {
    var record := Known(v, b.attempt);
    if record.Some? && !record.value.success {
      var r, rate := Lookup(v, b.route), record.value.entry.rpm;
      var u := With(v, b.route, Proven(r, rate));
      if Raises(r, rate) {
        EmitSays(u.(capacity := u.capacity[b.route := rate]), "capacity", Info, PLAIN, CapacityRaised(b.route, r.safeRpm, rate));
      }
      hide Emit, Says;
    }
  }

  /** An announcement says what it was given; other records say nothing. */
  lemma OthersSay(v: EngineV, e: Observation, cfg: Settings)
    requires cfg.Valid() && !e.body.Demote? && !e.body.Success?
    ensures var w := Consume(v, e, cfg);
            if e.body.Narrated? then
              && w.eventSeq == v.eventSeq + 1 && w.events != []
              && Says(w.events[|w.events| - 1], v.eventSeq, e.at, e.body.kind, e.body.level, e.body.detail, Text(e.body.message))
            else w.events == v.events && w.eventSeq == v.eventSeq
  {
    if e.body.Narrated? {
      EmitSays(Clocked(v, e), e.body.kind, e.body.level, e.body.detail, Text(e.body.message));
      hide Emit, Says;
    } else {
      hide Emit, Says, ChargedFor, Calibrated, Price;
    }
  }

  // ---- what it shows of its producer -----------------------------------------------------------------

  /** A record moves the clock to its time, shows its producer alive, and ends it if it says so. */
  lemma RecordShows(v: EngineV, e: Observation, cfg: Settings)
    requires cfg.Valid()
    ensures var w := Consume(v, e, cfg);
            && w.now == e.at && w.cursor == v.cursor && w.streamId == v.streamId && w.retentionThrough == v.retentionThrough
            && w.sessions == (if e.body.Sessions? then e.body.summary else v.sessions)
            && (e.body.Stopped? ==> e.producer !in w.producers)
            && (!e.body.Stopped? && e.pid.Some? ==> e.producer in w.producers && w.producers[e.producer] == Beat(e.pid.value, e.at))
            && (!e.body.Stopped? && e.pid.None? ==> (e.producer in w.producers <==> e.producer in v.producers))
            && (forall p | p != e.producer :: (p in w.producers <==> p in v.producers) && (p in w.producers ==> w.producers[p] == v.producers[p]))
  {
    hide Emit, OnDispatch, OnUsage, OnDemote, OnSuccess, Lookup;
    var b, w := e.body, Clocked(v, e);
    if b.Narrated? {
      EmitSays(w, b.kind, b.level, b.detail, Text(b.message));
    } else if b.Demote? {
      DemoteShows(w, b, cfg);
    } else if b.Success? {
      SuccessShows(w, b);
    } else if b.Dispatch? {
      DispatchShows(w, e, cfg);
    } else if b.Usage? {
      UsageShows(w, b);
    }
  }

  lemma DispatchShows(v: EngineV, e: Observation, cfg: Settings)
    requires cfg.Valid() && e.body.Dispatch?
    ensures var w := OnDispatch(v, e.producer, e.body, cfg); w == v.(states := w.states, pending := w.pending)
  {
    hide ChargedFor;
  }

  lemma UsageShows(v: EngineV, b: Body)
    requires b.Usage?
    ensures var w := OnUsage(v, b); w == v.(states := w.states, pending := w.pending)
  {
    hide Calibrated, Price;
  }

  lemma DemoteShows(v: EngineV, b: Body, cfg: Settings)
    requires cfg.Valid() && b.Demote?
    ensures var w := OnDemote(v, b, cfg); w == v.(states := w.states, events := w.events, eventSeq := w.eventSeq)
  {
    hide Demoted, Attributed, EventLevel, Last;
  }

  lemma SuccessShows(v: EngineV, b: Body)
    requires b.Success?
    ensures var w := OnSuccess(v, b);
            w == v.(states := w.states, events := w.events, eventSeq := w.eventSeq, capacity := w.capacity, pending := w.pending)
  {
    hide Proven, EventLevel, Last;
  }

  // ---- costs in the ledger -----------------------------------------------------------------------------

  /** What an entry of the ledger cost: the latest cost settled for its attempt, or the estimate it was charged. */
  ghost function CostOf(ops: seq<Op>, id: string): Option<real> {
    if ops == [] then None
    else
      var before, op := CostOf(ops[..|ops| - 1], id), ops[|ops| - 1];
      if op.Charge? && op.id == id then Some(op.tokens)
      else if op.Settle? && op.id == id && before.Some? then Some(op.tokens)
      else before
  }

  /** No attempt is charged twice on the route. */
  ghost predicate ChargedOnce(ops: seq<Op>) {
    forall i, j | 0 <= i < j < |ops| && ops[i].Charge? && ops[j].Charge? :: ops[i].id != ops[j].id
  }

  /** The ledger of all dispatches holds each at its time, on its face, at its latest known cost. */
  lemma {:induction false} CostsSettled(ops: seq<Op>, w: Windows, e: EntryV)
    requires w.Valid() && ChargedOnce(ops) && e in RunUnpruned(ops, w)
    ensures e.attempt.Some? && CostOf(ops, e.attempt.value) == Some(e.tokens)
    ensures exists i :: 0 <= i < |ops| && ops[i].Charge? && ops[i].id == e.attempt.value && ops[i].now == e.at && ops[i].face == e.face
  {
    hide Dispatched, Since, CostOf;
    var front, op := ops[..|ops| - 1], ops[|ops| - 1];
    var s := RunUnpruned(front, w);
    assert forall i | 0 <= i < |front| :: front[i] == ops[i];
    CostStep(ops, if e.attempt.Some? then e.attempt.value else "");
    if op.Settle? {
      var r := Price(s, op.id, op.tokens);
      var i :| 0 <= i < |r| && r[i] == e;
      assert s[i] in s;
      CostsSettled(front, w, s[i]);
      var j :| 0 <= j < |front| && front[j].Charge? && front[j].id == e.attempt.value && front[j].now == e.at && front[j].face == e.face;
      assert ops[j] == front[j];
    } else if e in s {
      CostsSettled(front, w, e);
      var j :| 0 <= j < |front| && front[j].Charge? && front[j].id == e.attempt.value && front[j].now == e.at && front[j].face == e.face;
      assert ops[j] == front[j];
    } else {
      assert op.Charge?;
      DispatchedIs(s, op, w);
      assert ops[|ops| - 1] == op;
    }
  }

  lemma CostStep(ops: seq<Op>, id: string)
    requires ops != []
    ensures var before, op := CostOf(ops[..|ops| - 1], id), ops[|ops| - 1];
            CostOf(ops, id) == if op.Charge? && op.id == id then Some(op.tokens)
                               else if op.Settle? && op.id == id && before.Some? then Some(op.tokens) else before
  {
  }

  lemma DispatchedIs(s: seq<EntryV>, op: Op, w: Windows)
    requires w.Valid() && op.Charge?
    ensures var e := Dispatched(s, op.now, op.tokens, op.face, Some(op.id), w);
            e.at == op.now && e.tokens == op.tokens && e.face == op.face && e.attempt == Some(op.id)
  {
    hide Since, PerMinute;
  }

  /** The operations of a route's ledger are its dispatches, charged the estimate, and the costs settled for pending attempts. */
  lemma OpMeans(v: EngineV, i: Input, key: Key, cfg: Settings)
    requires cfg.Valid() && i.Consumed?
    ensures var op, b := OpOn(v, i, key, cfg), i.e.body;
            && (b.Dispatch? && b.route == key && b.id !in v.pending ==>
                  op.Some? && op.value.Charge? && op.value.now == i.e.at && op.value.face == b.face && op.value.id == b.id
                  && op.value.tokens == Estimate(Lookup(v, key), b.bytes, cfg))
            && (b.Usage? && b.tokens > 0 && b.attempt.Some? && b.attempt.value in v.pending ==>
                  op == Some(Settle(b.attempt.value, b.tokens as real)))
            && (op.Some? ==> (b.Dispatch? && b.route == key && b.id !in v.pending)
                             || (b.Usage? && b.tokens > 0 && b.attempt.Some? && b.attempt.value in v.pending))
  {
    hide Estimate, Lookup;
  }
}
