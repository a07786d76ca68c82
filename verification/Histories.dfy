/**
 The ledgers of an engine with a history: what records, snapshots, expiry and restarts do to one
 route's ledger is a run of that ledger, so pruning is invisible in every engine whose records came
 in the order of their times.
 */
module Histories {
  import opened Prelude
  import opened Ledger
  import opened Penalties
  import opened Levels
  import opened Quota
  import opened EngineModel

  function LedgerOf(v: EngineV, key: Key): seq<EntryV> { Lookup(v, key).sent }

  /** What an input does to the ledger of `key`, if anything. */
  function OpOn(v: EngineV, i: Input, key: Key, cfg: Settings): Option<Op>
    requires cfg.Valid()
  {
    match i
    case Consumed(_, e) =>
      var b := e.body;
      if b.Dispatch? && b.route == key && b.id !in v.pending then
        Some(Charge(e.at, Estimate(Lookup(v, key), b.bytes, cfg), b.face, b.id))
      else if b.Usage? && b.tokens > 0 && Known(v, b.attempt).Some? then Some(Settle(b.attempt.value, b.tokens as real))
      else None
    case Snapshot(now, _) => Some(Op.Age(Horizon(now)))
    case Age(cutoff) => Some(Op.Age(cutoff))
    case Restart(cutoff, _) => Some(Op.Age(cutoff))
    case _ => None
  }

  function OpsOf(v: EngineV, inputs: seq<Input>, key: Key, cfg: Settings): seq<Op>
    requires cfg.Valid()
  {
    if inputs == [] then []
    else
      var before := inputs[..|inputs| - 1];
      var op := OpOn(Fold(v, before, cfg), inputs[|inputs| - 1], key, cfg);
      OpsOf(v, before, key, cfg) + if op.Some? then [op.value] else []
  }

  // ---- one input -----------------------------------------------------------------------

  function After(s: seq<EntryV>, op: Option<Op>, w: Windows): seq<EntryV>
    requires w.Valid()
  {
    if op.Some? then Pruned(s, op.value, w) else s
  }

  lemma EmitKeepsStates(v: EngineV, kind: string, level: Level, detail: Detail, content: Content)
    ensures Emit(v, kind, level, detail, content).states == v.states
    ensures Emit(v, kind, level, detail, content).capacity == v.capacity
  {
  }

  lemma WithLedger(v: EngineV, at: Key, r: RouteV, key: Key)
    ensures LedgerOf(With(v, at, r), key) == if key == at then r.sent else LedgerOf(v, key)
  {
  }

  lemma ChargedLedger(r: RouteV, now: real, b: Body, cfg: Settings)
    requires cfg.Valid() && b.Dispatch?
    ensures ChargedFor(r, now, b, cfg).sent == Pruned(r.sent, Charge(now, Estimate(r, b.bytes, cfg), b.face, b.id), cfg.windows)
  {
    hide DropLeading, Dispatched, Estimate;
    AttemptedEstimate(r, b.bytes, cfg);
  }

  lemma AttemptedEstimate(r: RouteV, bytes: real, cfg: Settings)
    requires cfg.Valid()
    ensures Estimate(Attempted(r), bytes, cfg) == Estimate(r, bytes, cfg)
  {
  }

  lemma DispatchLedger(v: EngineV, e: Observation, key: Key, cfg: Settings)
    requires cfg.Valid() && e.body.Dispatch? && v.now == e.at
    ensures LedgerOf(OnDispatch(v, e.producer, e.body, cfg), key) == After(LedgerOf(v, key), OpOn(v, Consumed(0, e), key, cfg), cfg.windows)
  {
    hide ChargedFor, Pruned, Estimate;
    ChargedLedger(Lookup(v, e.body.route), v.now, e.body, cfg);
    WithLedger(v, e.body.route, ChargedFor(Lookup(v, e.body.route), v.now, e.body, cfg), key);
  }

  lemma UsageLedger(v: EngineV, e: Observation, key: Key, cfg: Settings)
    requires cfg.Valid() && e.body.Usage?
    ensures LedgerOf(OnUsage(v, e.body), key) == After(LedgerOf(v, key), OpOn(v, Consumed(0, e), key, cfg), cfg.windows)
  {
    var b := e.body;
    if b.tokens > 0 {
      var w := if Known(v, b.attempt).Some? then Priced(v, b.attempt.value, b.tokens as real) else v;
      WithLedger(w, b.route, Calibrated(Lookup(w, b.route), b.bytes, b.tokens as real), key);
    }
  }

  lemma DemoteLedger(v: EngineV, b: Body, key: Key, cfg: Settings)
    requires cfg.Valid() && b.Demote?
    ensures LedgerOf(OnDemote(v, b, cfg), key) == LedgerOf(v, key)
  {
    hide Attributed, EventLevel, Last;
  }

  lemma SuccessLedger(v: EngineV, b: Body, key: Key)
    requires b.Success?
    ensures LedgerOf(OnSuccess(v, b), key) == LedgerOf(v, key)
  {
    hide EventLevel, Last;
  }

  lemma ConsumedLedger(v: EngineV, e: Observation, key: Key, cfg: Settings)
    requires cfg.Valid()
    ensures LedgerOf(Consume(v, e, cfg), key) == After(LedgerOf(v, key), OpOn(v, Consumed(0, e), key, cfg), cfg.windows)
  {
    hide OnDispatch, OnUsage, OnDemote, OnSuccess, Pruned, Emit, LedgerOf;
    var w := Clocked(v, e);
    ClockedLedger(v, e, key, cfg);
    var b := e.body;
    if b.Dispatch? {
      DispatchLedger(w, e, key, cfg);
    } else if b.Usage? {
      UsageLedger(w, e, key, cfg);
    } else if b.Demote? {
      DemoteLedger(w, b, key, cfg);
    } else if b.Success? {
      SuccessLedger(w, b, key);
    } else {
      QuietLedger(w, e, key, cfg);
    }
  }

  lemma ClockedLedger(v: EngineV, e: Observation, key: Key, cfg: Settings)
    requires cfg.Valid()
    ensures LedgerOf(Clocked(v, e), key) == LedgerOf(v, key)
    ensures OpOn(Clocked(v, e), Consumed(0, e), key, cfg) == OpOn(v, Consumed(0, e), key, cfg)
  {
  }

  lemma QuietLedger(v: EngineV, e: Observation, key: Key, cfg: Settings)
    requires cfg.Valid() && !e.body.Dispatch? && !e.body.Usage? && !e.body.Demote? && !e.body.Success?
    ensures LedgerOf(React(v, e, cfg), key) == LedgerOf(v, key)
  {
    hide OnDispatch, OnUsage, OnDemote, OnSuccess, EventLevel, Last;
  }

  lemma AgedLedger(v: EngineV, cutoff: real, key: Key)
    ensures LedgerOf(Aged(v, cutoff), key) == Keep(LedgerOf(v, key), cutoff)
  {
  }

  lemma {:induction false} WeighedLedger(v: EngineV, routes: seq<Key>, key: Key, cfg: Settings)
    requires cfg.Valid()
    ensures LedgerOf(Weighed(v, routes, cfg), key) == LedgerOf(v, key)
  {
    if routes != [] {
      var w, k := Weighed(v, routes[..|routes| - 1], cfg), routes[|routes| - 1];
      WeighedLedger(v, routes[..|routes| - 1], key, cfg);
      WithLedger(w, k, Decayed(Lookup(w, k), w.now, cfg), key);
    }
  }

  /** Every input does to a route's ledger the one thing it is said to do, or nothing. */
  lemma StepLedger(v: EngineV, i: Input, key: Key, cfg: Settings)
    requires cfg.Valid()
    ensures LedgerOf(Step(v, i, cfg), key) == After(LedgerOf(v, key), OpOn(v, i, key, cfg), cfg.windows)
  {
    hide Consume, Weighed, Emit, Keep, DropLeading, Dispatched, Price, Recent, Through, Normalised, Estimate;
    match i {
      case Consumed(num, e) => ConsumedLedger(v, e, key, cfg);
      case Snapshot(now, routes) =>
        var w := v.(now := now, retentionThrough := Through(v.events, Horizon(now), v.retentionThrough));
        WeighedLedger(Aged(w, Horizon(now)), routes, key, cfg);
        AgedLedger(w, Horizon(now), key);
      case Age(cutoff) => AgedLedger(v, cutoff, key);
      case Restart(cutoff, now) => AgedLedger(v, cutoff, key);
      case Local(kind, level, detail, message) => EmitKeepsStates(v, kind, level, detail, Text(message));
      case _ =>
    }
  }

  // ---- whole histories --------------------------------------------------------------------

  lemma RunSnoc(ops: seq<Op>, op: Option<Op>, w: Windows)
    requires w.Valid()
    ensures RunPruned(ops + (if op.Some? then [op.value] else []), w) == After(RunPruned(ops, w), op, w)
  {
    hide Pruned;
    if op.Some? {
      assert (ops + [op.value])[..|ops + [op.value]| - 1] == ops;
    } else {
      assert ops + [] == ops;
    }
  }

  lemma {:induction false} LedgerIsRun(v: EngineV, inputs: seq<Input>, key: Key, cfg: Settings)
    requires cfg.Valid() && v.states == map[]
    ensures LedgerOf(Fold(v, inputs, cfg), key) == RunPruned(OpsOf(v, inputs, key, cfg), cfg.windows)
  {
    hide Step, OpOn, Pruned, After;
    if inputs != [] {
      hide LedgerOf, RunPruned;
      var before, i := inputs[..|inputs| - 1], inputs[|inputs| - 1];
      LedgerIsRun(v, before, key, cfg);
      StepLedger(Fold(v, before, cfg), i, key, cfg);
      RunSnoc(OpsOf(v, before, key, cfg), OpOn(Fold(v, before, cfg), i, key, cfg), cfg.windows);
    }
  }

  /** When the route was dispatched to. */
  function DispatchedAt(i: Input, key: Key): Option<real> {
    if i.Consumed? && i.e.body.Dispatch? && i.e.body.route == key then Some(i.e.at) else None
  }

  /** How far ageing reached. */
  function AgedTo(i: Input): Option<real> {
    match i
    case Snapshot(now, _) => Some(Horizon(now))
    case Age(cutoff) => Some(cutoff)
    case Restart(cutoff, _) => Some(cutoff)
    case _ => None
  }

  /**
   The dispatches to this route come in the order of their times, and nothing had aged that a later one
   still counts.  The clock may step back in between, as it does from every snapshot, taken at the
   present, to the records that were still on their way then.
   */
  ghost predicate InOrder(inputs: seq<Input>, key: Key, w: Windows) {
    forall i, j | 0 <= i < j < |inputs| && DispatchedAt(inputs[j], key).Some? ::
      && (DispatchedAt(inputs[i], key).Some? ==> DispatchedAt(inputs[i], key).value <= DispatchedAt(inputs[j], key).value)
      && (AgedTo(inputs[i]).Some? ==> AgedTo(inputs[i]).value < DispatchedAt(inputs[j], key).value - w.Widest())
  }

  /** No dispatch prunes, and no ageing drops, what lies at or after `c`. */
  ghost predicate Reaching(inputs: seq<Input>, key: Key, w: Windows, c: real) {
    forall i | 0 <= i < |inputs| ::
      && (DispatchedAt(inputs[i], key).Some? ==> DispatchedAt(inputs[i], key).value - w.Widest() <= c)
      && (AgedTo(inputs[i]).Some? ==> AgedTo(inputs[i]).value < c)
  }

  lemma OpTimes(v: EngineV, i: Input, key: Key, cfg: Settings)
    requires cfg.Valid()
    ensures var op := OpOn(v, i, key, cfg);
            && (op.Some? && op.value.Charge? ==> DispatchedAt(i, key) == Some(op.value.now))
            && (op.Some? && op.value.Age? ==> AgedTo(i) == Some(op.value.cutoff))
  {
    hide Estimate, Lookup;
  }

  lemma {:induction false} OpsSpare(v: EngineV, inputs: seq<Input>, key: Key, cfg: Settings, c: real)
    requires cfg.Valid() && Reaching(inputs, key, cfg.windows, c)
    ensures Spares(OpsOf(v, inputs, key, cfg), cfg.windows, c)
  {
    hide Fold, OpOn, DispatchedAt, AgedTo;
    if inputs != [] {
      var before, i := inputs[..|inputs| - 1], inputs[|inputs| - 1];
      OpsSpare(v, before, key, cfg, c);
      OpTimes(Fold(v, before, cfg), i, key, cfg);
      assert inputs[|inputs| - 1] == i;
    }
  }

  lemma {:induction false} OpsOrderly(v: EngineV, inputs: seq<Input>, key: Key, cfg: Settings)
    requires cfg.Valid() && InOrder(inputs, key, cfg.windows)
    ensures Orderly(OpsOf(v, inputs, key, cfg), cfg.windows)
  {
    hide Fold, OpOn, DispatchedAt, AgedTo;
    if inputs != [] {
      var before, i := inputs[..|inputs| - 1], inputs[|inputs| - 1];
      OpsOrderly(v, before, key, cfg);
      OpTimes(Fold(v, before, cfg), i, key, cfg);
      if DispatchedAt(i, key).Some? {
        var base := DispatchedAt(i, key).value - cfg.windows.Widest();
        assert Reaching(before, key, cfg.windows, base);
        OpsSpare(v, before, key, cfg, base);
      }
    }
  }

  /**
   Pruning is invisible in the engine.  Whatever observations, snapshots, expiry and restarts an engine
   went through, if the dispatches to a route came in the order of their times and none of its history
   aged that a later one counts, the route's ledger answers every window not reached into as a ledger
   of all dispatches ever made on it would.
   */
  lemma EngineRefinesFull(v: EngineV, inputs: seq<Input>, key: Key, cfg: Settings, now: real, window: real)
    requires cfg.Valid() && v.states == map[] && window > 0.0
    requires InOrder(inputs, key, cfg.windows) && Reaching(inputs, key, cfg.windows, now - window)
    ensures var ledger, full := LedgerOf(Fold(v, inputs, cfg), key), RunUnpruned(OpsOf(v, inputs, key, cfg), cfg.windows);
            Since(ledger, now - window) == Since(full, now - window) && Rpm(ledger, now, window) == Rpm(full, now, window)
  {
    LedgerIsRun(v, inputs, key, cfg);
    OpsOrderly(v, inputs, key, cfg);
    OpsSpare(v, inputs, key, cfg, now - window);
    PrunedRefinesFull(OpsOf(v, inputs, key, cfg), cfg.windows, now, window);
  }

  /**
   In any history at all, in whatever order its times come: the rate the engine sees never exceeds the
   true one, and is the true one if and only if nothing was pruned or aged from within the window.
   */
  lemma EngineRpmExactlyWhen(v: EngineV, inputs: seq<Input>, key: Key, cfg: Settings, now: real, window: real)
    requires cfg.Valid() && v.states == map[] && window > 0.0
    ensures var ledger, ops := LedgerOf(Fold(v, inputs, cfg), key), OpsOf(v, inputs, key, cfg);
            var full := RunUnpruned(ops, cfg.windows);
            && Rpm(ledger, now, window) <= Rpm(full, now, window)
            && (Rpm(ledger, now, window) == Rpm(full, now, window) <==> TakenBy(ops, cfg.windows, now - window) == 0)
  {
    LedgerIsRun(v, inputs, key, cfg);
    RpmExactlyWhen(OpsOf(v, inputs, key, cfg), cfg.windows, now, window);
  }

  // ---- penalties over histories -------------------------------------------------------------

  function BackoffOf(v: EngineV, key: Key): Backoff { Lookup(v, key).backoff }

  /** What an input does to the penalty of `key`, if anything: a failure, or a look while it is weighed. */
  function ActOn(i: Input, key: Key): Option<Act> {
    match i
    case Consumed(_, e) => if e.body.Demote? && e.body.route == key then Some(Fail(e.at, e.body.retryAfter)) else None
    case Snapshot(now, routes) => if key in routes then Some(Look(now)) else None
    case _ => None
  }

  function ActsOf(inputs: seq<Input>, key: Key): seq<Act> {
    if inputs == [] then []
    else
      var act := ActOn(inputs[|inputs| - 1], key);
      ActsOf(inputs[..|inputs| - 1], key) + if act.Some? then [act.value] else []
  }

  function Acted(b: Backoff, act: Option<Act>, p: Policy): Backoff { if act.Some? then Apply(b, act.value, p) else b }

  lemma WithBackoff(v: EngineV, at: Key, r: RouteV, key: Key)
    ensures BackoffOf(With(v, at, r), key) == if key == at then r.backoff else BackoffOf(v, key)
  {
  }

  lemma DemoteBackoff(v: EngineV, e: Observation, key: Key, cfg: Settings)
    requires cfg.Valid() && e.body.Demote? && v.now == e.at
    ensures BackoffOf(OnDemote(v, e.body, cfg), key) == Acted(BackoffOf(v, key), ActOn(Consumed(0, e), key), cfg.policy)
  {
    hide Attributed, EventLevel, Last, Penalise;
  }

  lemma DispatchBackoff(v: EngineV, producer: string, b: Body, key: Key, cfg: Settings)
    requires cfg.Valid() && b.Dispatch?
    ensures BackoffOf(OnDispatch(v, producer, b, cfg), key) == BackoffOf(v, key)
  {
    hide Estimate, Dispatched, DropLeading;
  }

  lemma UsageBackoff(v: EngineV, b: Body, key: Key)
    requires b.Usage?
    ensures BackoffOf(OnUsage(v, b), key) == BackoffOf(v, key)
  {
    hide Price;
  }

  lemma SuccessBackoff(v: EngineV, b: Body, key: Key)
    requires b.Success?
    ensures BackoffOf(OnSuccess(v, b), key) == BackoffOf(v, key)
  {
    hide EventLevel, Last;
  }

  lemma QuietBackoff(v: EngineV, e: Observation, key: Key, cfg: Settings)
    requires cfg.Valid() && !e.body.Dispatch? && !e.body.Usage? && !e.body.Demote? && !e.body.Success?
    ensures BackoffOf(React(v, e, cfg), key) == BackoffOf(v, key)
  {
    hide OnDispatch, OnUsage, OnDemote, OnSuccess, EventLevel, Last;
  }

  lemma ConsumedBackoff(v: EngineV, e: Observation, key: Key, cfg: Settings)
    requires cfg.Valid()
    ensures BackoffOf(Consume(v, e, cfg), key) == Acted(BackoffOf(v, key), ActOn(Consumed(0, e), key), cfg.policy)
  {
    hide OnDispatch, OnUsage, OnDemote, OnSuccess, Emit, BackoffOf, Apply;
    var w, b := Clocked(v, e), e.body;
    ClockedBackoff(v, e, key);
    if b.Dispatch? {
      DispatchBackoff(w, e.producer, b, key, cfg);
    } else if b.Usage? {
      UsageBackoff(w, b, key);
    } else if b.Demote? {
      DemoteBackoff(w, e, key, cfg);
    } else if b.Success? {
      SuccessBackoff(w, b, key);
    } else {
      QuietBackoff(w, e, key, cfg);
    }
  }

  lemma ClockedBackoff(v: EngineV, e: Observation, key: Key)
    ensures BackoffOf(Clocked(v, e), key) == BackoffOf(v, key)
  {
  }

  lemma AgedBackoff(v: EngineV, cutoff: real, key: Key)
    ensures BackoffOf(Aged(v, cutoff), key) == BackoffOf(v, key)
  {
  }

  lemma {:induction false} WeighedBackoff(v: EngineV, routes: seq<Key>, key: Key, cfg: Settings)
    requires cfg.Valid()
    ensures BackoffOf(Weighed(v, routes, cfg), key)
         == if key in routes then Decay(BackoffOf(v, key), v.now, cfg.policy.halflife) else BackoffOf(v, key)
    ensures Weighed(v, routes, cfg).now == v.now
  {
    if routes != [] {
      var front, k := routes[..|routes| - 1], routes[|routes| - 1];
      var w := Weighed(v, front, cfg);
      WeighedBackoff(v, front, key, cfg);
      WithBackoff(w, k, Decayed(Lookup(w, k), w.now, cfg), key);
      DecayTwice(BackoffOf(v, key), v.now, cfg.policy.halflife);
      assert routes == front + [k];
      hide Decay;
    }
  }

  lemma DecayTwice(b: Backoff, now: real, h: real)
    ensures Decay(Decay(b, now, h), now, h) == Decay(b, now, h)
  {
  }

  /** Every input does to a route's penalty the one thing it is said to do, or nothing. */
  lemma StepBackoff(v: EngineV, i: Input, key: Key, cfg: Settings)
    requires cfg.Valid()
    ensures BackoffOf(Step(v, i, cfg), key) == Acted(BackoffOf(v, key), ActOn(i, key), cfg.policy)
  {
    hide Consume, Weighed, Emit, Keep, Recent, Through, Normalised, Decay, Penalise;
    match i {
      case Consumed(num, e) => ConsumedBackoff(v, e, key, cfg);
      case Snapshot(now, routes) =>
        var w := v.(now := now, retentionThrough := Through(v.events, Horizon(now), v.retentionThrough));
        WeighedBackoff(Aged(w, Horizon(now)), routes, key, cfg);
        AgedBackoff(w, Horizon(now), key);
      case Age(cutoff) => AgedBackoff(v, cutoff, key);
      case Restart(cutoff, now) => AgedBackoff(v, cutoff, key);
      case Local(kind, level, detail, message) => EmitKeepsStates(v, kind, level, detail, Text(message));
      case _ =>
    }
  }

  lemma ActsSnoc(b: Backoff, acts: seq<Act>, act: Option<Act>, p: Policy)
    ensures Run(b, acts + (if act.Some? then [act.value] else []), p) == Acted(Run(b, acts, p), act, p)
  {
    hide Apply;
    if act.Some? {
      assert (acts + [act.value])[..|acts|] == acts;
    } else {
      assert acts + [] == acts;
    }
  }

  lemma {:induction false} BackoffIsRun(v: EngineV, inputs: seq<Input>, key: Key, cfg: Settings)
    requires cfg.Valid()
    ensures BackoffOf(Fold(v, inputs, cfg), key) == Run(BackoffOf(v, key), ActsOf(inputs, key), cfg.policy)
  {
    hide Step, ActOn, Acted;
    if inputs != [] {
      hide BackoffOf, Run;
      var before, i := inputs[..|inputs| - 1], inputs[|inputs| - 1];
      BackoffIsRun(v, before, key, cfg);
      StepBackoff(Fold(v, before, cfg), i, key, cfg);
      ActsSnoc(BackoffOf(v, key), ActsOf(before, key), ActOn(i, key), cfg.policy);
    }
  }

  /**
   Snapshots and penalties, in every history of an engine and whatever order its times come in: each
   failure of a route finds the penalty that its earlier failures alone produced if and only if no
   snapshot before it shows at it; and then the penalty at any instant is the one the failures alone
   produce if and only if the snapshots since the last one do not show there.
   */
  lemma EngineLooksShowExactlyWhen(v: EngineV, inputs: seq<Input>, key: Key, cfg: Settings, now: real)
    requires cfg.Valid() && v.states == map[]
    ensures var acts, p := ActsOf(inputs, key), cfg.policy;
            && BackoffOf(Fold(v, inputs, cfg), key) == Run(FRESH, acts, p)
            && (FoundAlike(acts, p) <==> Patient(acts, p))
            && (Patient(acts, p) ==>
                  (Decay(BackoffOf(Fold(v, inputs, cfg), key), now, p.halflife).penalty
                   == Decay(Run(FRESH, Failures(acts), p), now, p.halflife).penalty
                   <==> Harmless(Run(FRESH, Failures(acts), p), Seen(acts), now, p.halflife)))
  {
    BackoffIsRun(v, inputs, key, cfg);
    assert BackoffOf(v, key) == FRESH;
    hide Run, Decay, Failures, Seen, Harmless, Patient, FoundAlike, BackoffOf, ActsOf;
    LooksShowExactlyWhen(ActsOf(inputs, key), cfg.policy, now);
  }

  // ---- parking over histories ----------------------------------------------------------------

  /** The input demotes the route and asks it to rest beyond `now`. */
  ghost predicate ParksBeyond(i: Input, key: Key, now: real, cfg: Settings) {
    && i.Consumed? && i.e.body.Demote? && i.e.body.route == key
    && var b := i.e.body;
       now < i.e.at + (if b.retryAfter.Some? && b.retryAfter.value > 0.0 then b.retryAfter.value else cfg.policy.demoteSeconds)
  }

  lemma {:induction false} ActComes(inputs: seq<Input>, key: Key, a: Act) returns (i: nat)
    requires a in ActsOf(inputs, key)
    ensures i < |inputs| && ActOn(inputs[i], key) == Some(a)
  {
    hide ActOn;
    var front, last := inputs[..|inputs| - 1], inputs[|inputs| - 1];
    if ActOn(last, key) == Some(a) {
      i := |inputs| - 1;
    } else {
      i := ActComes(front, key, a);
    }
  }

  lemma {:induction false} ActGoes(inputs: seq<Input>, key: Key, i: nat)
    requires i < |inputs| && ActOn(inputs[i], key).Some?
    ensures ActOn(inputs[i], key).value in ActsOf(inputs, key)
  {
    hide ActOn;
    if i < |inputs| - 1 { ActGoes(inputs[..|inputs| - 1], key, i); }
  }

  /** The demotion as an act on the penalty. */
  lemma ParkingAct(i: Input, key: Key, now: real, cfg: Settings)
    ensures ParksBeyond(i, key, now, cfg) <==>
              ActOn(i, key).Some? && exists x :: RestsUntil(ActOn(i, key).value, cfg.policy.demoteSeconds, x) && now < x
  {
    if ParksBeyond(i, key, now, cfg) {
      var a := ActOn(i, key).value;
      assert RestsUntil(a, cfg.policy.demoteSeconds, a.at + if a.retryAfter.Some? && a.retryAfter.value > 0.0 then a.retryAfter.value else cfg.policy.demoteSeconds);
    }
  }

  /**
   A route is parked at an instant exactly when some demotion it ever had asks it to rest beyond that
   instant: by its Retry-After if it has a positive one, else by the configured seconds.  Snapshots,
   expiry and restarts change nothing about it.
   */
  lemma ParkedExactlyWhen(v: EngineV, inputs: seq<Input>, key: Key, cfg: Settings, now: real)
    requires cfg.Valid() && v.states == map[] && now >= 0.0
    ensures now < Lookup(Fold(v, inputs, cfg), key).backoff.until <==>
              exists i :: 0 <= i < |inputs| && ParksBeyond(inputs[i], key, now, cfg)
  {
    hide Fold, Run, ActsOf, ActOn, RestsUntil, ParksBeyond;
    var acts, p := ActsOf(inputs, key), cfg.policy;
    UntilOf(v, inputs, key, cfg);
    ParkedUntil(acts, p);
    var until := Run(FRESH, acts, p).until;
    if now < until {
      var j :| 0 <= j < |acts| && RestsUntil(acts[j], p.demoteSeconds, until);
      var i := ActComes(inputs, key, acts[j]);
      ParkingAct(inputs[i], key, now, cfg);
    }
    if i :| 0 <= i < |inputs| && ParksBeyond(inputs[i], key, now, cfg) {
      ParkingAct(inputs[i], key, now, cfg);
      ActGoes(inputs, key, i);
      var j :| 0 <= j < |acts| && acts[j] == ActOn(inputs[i], key).value;
    }
  }

  lemma UntilOf(v: EngineV, inputs: seq<Input>, key: Key, cfg: Settings)
    requires cfg.Valid() && v.states == map[]
    ensures Lookup(Fold(v, inputs, cfg), key).backoff.until == Run(FRESH, ActsOf(inputs, key), cfg.policy).until
  {
    BackoffIsRun(v, inputs, key, cfg);
    assert BackoffOf(v, key) == FRESH;
    hide Run, Fold, ActsOf;
  }

  // ---- pending attempts over histories ---------------------------------------------------------

  /** The input ends the attempt, which was dispatched at `at` by `producer`: its finish, its producer's start or stop, or age. */
  ghost predicate Closes(i: Input, id: Id, at: real, producer: string) {
    || (i.Consumed? && i.e.body == Finish(Some(id)))
    || (i.Consumed? && (i.e.body.Started? || i.e.body.Stopped?) && i.e.producer == producer)
    || (i.Snapshot? && at <= i.now - 86340.0)
    || ((i.Age? || i.Restart?) && at <= i.cutoff)
  }

  /** The input dispatches the attempt. */
  ghost predicate Opens(i: Input, id: Id) { i.Consumed? && i.e.body.Dispatch? && i.e.body.id == id }

  /** The pending record is that of this dispatch. */
  ghost predicate OpenedBy(p: Pending, i: Input, id: Id) {
    Opens(i, id) && p.route == i.e.body.route && p.producer == i.e.producer
    && p.entry.at == i.e.at && p.entry.face == i.e.body.face && p.entry.attempt == Some(id)
  }

  ghost predicate Succeeds(i: Input, id: Id) { i.Consumed? && i.e.body.Success? && i.e.body.attempt == Some(id) }

  /** One record, for one attempt: what it takes away, what it brings, and what it leaves. */
  lemma RecordPending(v: EngineV, e: Observation, id: Id, cfg: Settings)
    requires cfg.Valid()
    ensures var w, i := Consume(v, e, cfg), Consumed(0, e);
            if id in v.pending then
              var p := v.pending[id];
              && (id in w.pending <==> !Closes(i, id, p.entry.at, p.producer))
              && (id in w.pending ==> SamePending(p, w.pending[id]) && w.pending[id].success == (p.success || Succeeds(i, id)))
            else
              && (id in w.pending <==> Opens(i, id))
              && (id in w.pending ==> OpenedBy(w.pending[id], i, id) && !w.pending[id].success)
  {
    hide OnDispatch, OnUsage, OnSuccess, OnDemote, Emit, Lookup;
    var b := e.body;
    if b.Dispatch? {
      DispatchPending(Clocked(v, e), e, id, cfg);
    } else if b.Usage? {
      UsagePending(Clocked(v, e), b, id);
    } else if b.Success? {
      SuccessPending(Clocked(v, e), b, id);
    } else if b.Demote? {
      DemotePending(Clocked(v, e), b, cfg);
    } else if b.Narrated? {
      EmitPending(Clocked(v, e), b.kind, b.level, b.detail, Text(b.message));
    }
  }

  lemma DemotePending(v: EngineV, b: Body, cfg: Settings)
    requires cfg.Valid() && b.Demote?
    ensures OnDemote(v, b, cfg).pending == v.pending
  {
    hide Demoted, Attributed, EventLevel, Last;
  }

  /** The same attempt, whatever its cost turned out to be. */
  ghost predicate SamePending(p: Pending, q: Pending) {
    q.route == p.route && q.producer == p.producer && q.entry == p.entry.(tokens := q.entry.tokens)
  }

  lemma DispatchPending(v: EngineV, e: Observation, id: Id, cfg: Settings)
    requires cfg.Valid() && e.body.Dispatch? && v.now == e.at
    ensures var w := OnDispatch(v, e.producer, e.body, cfg);
            && (id in w.pending <==> id in v.pending || e.body.id == id)
            && (id in v.pending ==> w.pending[id] == v.pending[id])
            && (id in w.pending && id !in v.pending ==> OpenedBy(w.pending[id], Consumed(0, e), id) && !w.pending[id].success)
  {
    hide Estimate, DropLeading, Since, PerMinute;
  }

  lemma UsagePending(v: EngineV, b: Body, id: Id)
    requires b.Usage?
    ensures var w := OnUsage(v, b);
            && (id in w.pending <==> id in v.pending)
            && (id in w.pending ==> SamePending(v.pending[id], w.pending[id]) && w.pending[id].success == v.pending[id].success)
  {
    hide Price, Calibrated;
  }

  lemma SuccessPending(v: EngineV, b: Body, id: Id)
    requires b.Success?
    ensures var w := OnSuccess(v, b);
            && (id in w.pending <==> id in v.pending)
            && (id in w.pending ==> w.pending[id] == v.pending[id].(success := v.pending[id].success || b.attempt == Some(id)))
  {
    hide Proven, EventLevel, Last;
  }

  lemma {:induction false} WeighedPending(v: EngineV, routes: seq<Key>, cfg: Settings)
    requires cfg.Valid()
    ensures Weighed(v, routes, cfg).pending == v.pending
  {
    if routes != [] { WeighedPending(v, routes[..|routes| - 1], cfg); }
  }

  lemma StepPending(v: EngineV, i: Input, id: Id, cfg: Settings)
    requires cfg.Valid()
    ensures var w := Step(v, i, cfg);
            if id in v.pending then
              var p := v.pending[id];
              && (id in w.pending <==> !Closes(i, id, p.entry.at, p.producer))
              && (id in w.pending ==> SamePending(p, w.pending[id]) && w.pending[id].success == (p.success || Succeeds(i, id)))
            else
              && (id in w.pending <==> Opens(i, id))
              && (id in w.pending ==> OpenedBy(w.pending[id], i, id) && !w.pending[id].success)
  {
    hide Consume, Weighed, Emit, Keep, Recent, Through, Normalised;
    if i.Consumed? {
      RecordPending(v, i.e, id, cfg);
      assert Step(v, i, cfg).pending == Consume(v, i.e, cfg).pending;
    } else if i.Snapshot? {
      var w := Aged(v.(now := i.now, retentionThrough := Through(v.events, Horizon(i.now), v.retentionThrough)), Horizon(i.now));
      WeighedPending(w, i.routes, cfg);
    } else if i.Local? {
      EmitPending(v, i.kind, i.level, i.detail, Text(i.message));
    }
  }

  lemma EmitPending(v: EngineV, kind: string, level: Level, detail: Detail, content: Content)
    ensures Emit(v, kind, level, detail, content).pending == v.pending
  {
  }

  /** The dispatch whose attempt is still open, if there is one. */
  ghost function Outstanding(inputs: seq<Input>, id: Id): (i: Option<nat>)
    ensures i.Some? ==> i.value < |inputs| && Opens(inputs[i.value], id)
  {
    if inputs == [] then None
    else
      var before, last := Outstanding(inputs[..|inputs| - 1], id), inputs[|inputs| - 1];
      if before.Some? then
        if Closes(last, id, inputs[before.value].e.at, inputs[before.value].e.producer) then None else before
      else if Opens(last, id) then Some(|inputs| - 1) else None
  }

  /** It is the dispatch that found none open and that nothing has ended since. */
  lemma {:induction false} OutstandingMeans(inputs: seq<Input>, id: Id, i: nat)
    ensures Outstanding(inputs, id) == Some(i) <==>
              && i < |inputs| && Opens(inputs[i], id) && Outstanding(inputs[..i], id).None?
              && forall j | i < j < |inputs| :: !Closes(inputs[j], id, inputs[i].e.at, inputs[i].e.producer)
  {
    hide Opens, Closes;
    if inputs != [] {
      var n := |inputs| - 1;
      var before := inputs[..n];
      OutstandingMeans(before, id, i);
      assert forall j | 0 <= j < n :: before[j] == inputs[j];
      assert i <= n ==> before[..i] == inputs[..i];
    }
  }

  /**
   Which attempts are pending, in every history: those dispatched that have not been finished since, whose
   producer has neither started nor stopped since, and whose dispatch has not aged out.  A pending
   attempt is on the route, of the producer and at the time of that dispatch, and marked as succeeded
   exactly if a success of it came since.
   */
  lemma {:induction false} PendingExactlyWhen(v: EngineV, inputs: seq<Input>, id: Id, cfg: Settings)
    requires cfg.Valid() && v.pending == map[]
    ensures var w, i := Fold(v, inputs, cfg), Outstanding(inputs, id);
            && (id in w.pending <==> i.Some?)
            && (i.Some? ==> OpenedBy(w.pending[id], inputs[i.value], id)
                            && (w.pending[id].success <==> exists j :: i.value < j < |inputs| && Succeeds(inputs[j], id)))
  {
    hide Step, Opens, OpenedBy, Closes, Succeeds;
    if inputs != [] {
      var n := |inputs| - 1;
      var before, last := inputs[..n], inputs[n];
      PendingExactlyWhen(v, before, id, cfg);
      StepPending(Fold(v, before, cfg), last, id, cfg);
      assert forall j | 0 <= j < n :: before[j] == inputs[j];
      var i := Outstanding(before, id);
      if i.Some? {
        PendingStays(Fold(v, before, cfg).pending[id], before[i.value], last, id);
        if id in Fold(v, inputs, cfg).pending {
          OpenedStays(Fold(v, before, cfg).pending[id], Fold(v, inputs, cfg).pending[id], before[i.value], id);
        }
      }
    }
  }

  lemma PendingStays(p: Pending, i: Input, last: Input, id: Id)
    requires OpenedBy(p, i, id)
    ensures i.Consumed? && Closes(last, id, p.entry.at, p.producer) == Closes(last, id, i.e.at, i.e.producer)
  {
  }

  lemma OpenedStays(p: Pending, q: Pending, i: Input, id: Id)
    requires OpenedBy(p, i, id) && SamePending(p, q)
    ensures OpenedBy(q, i, id)
  {
  }
}
