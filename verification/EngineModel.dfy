/**
 The routing engine as a value: what one journal record does to it (`Engine.consume`), what a
 snapshot prunes, and what a checkpoint restores.  A pending attempt and the ledger entry it
 aliases are two views of one record here; EngineObject shows that the mutable engine keeps them so.
 */
module EngineModel {
  import opened Prelude
  import opened Ledger
  import opened Penalties
  import opened Levels
  import opened Quota

  type Key = string
  type Id = string

  const RING := 2000

  datatype Pending = Pending(entry: EntryV, route: Key, producer: string, success: bool)

  datatype Beat = Beat(pid: int, at: real)

  datatype Content =
    | Text(message: string)
    | CapacityRaised(route: Key, before: real, after: real)
    | OutsideUsage(route: Key, ours: real, safe: real, outside: real)
    | Demotion(route: Key, reason: string, penalty: Penalty, park: real)

  datatype FeedEvent = FeedEvent(num: nat, at: real, kind: string, level: Level, detail: Detail, content: Content)

  datatype EngineV = EngineV(
    now: real, cursor: nat,
    pending: map<Id, Pending>, states: map<Key, RouteV>, capacity: map<Key, real>,
    producers: map<string, Beat>, sessions: string,
    events: seq<FeedEvent>, eventSeq: nat, streamId: string, retentionThrough: nat)

  datatype Body =
    | Heartbeat
    | Narrated(kind: string, level: Level, detail: Detail, message: string)
    | Sessions(summary: string)
    | Started
    | Stopped
    | Finish(attempt: Option<Id>)
    | Dispatch(id: Id, route: Key, bytes: real, face: Face)
    | Status(route: Key, status: string)
    | Demote(route: Key, attempt: Option<Id>, reason: string, retryAfter: Option<real>)
    | Timeout(route: Key, attempt: Option<Id>)
    | Usage(route: Key, attempt: Option<Id>, bytes: real, tokens: int)
    | Success(route: Key, attempt: Option<Id>)

  /** One telemetry record; the pid is the one the record was stamped with. */
  datatype Observation = Observation(at: real, producer: string, pid: Option<int>, body: Body)

  // ---- small steps -----------------------------------------------------------------

  function Emit(v: EngineV, kind: string, level: Level, detail: Detail, content: Content): EngineV {
    var e := FeedEvent(v.eventSeq + 1, v.now, kind, EventLevel(kind, level, detail), detail, content);
    v.(eventSeq := v.eventSeq + 1, events := Last(v.events + [e], RING))
  }

  function Saved(v: EngineV, key: Key): real { if key in v.capacity then v.capacity[key] else 0.0 }

  /** `QuotaTracker.state`: the route's state, created from the saved maximum on first use. */
  function Lookup(v: EngineV, key: Key): RouteV {
    if key in v.states then v.states[key] else NewRoute(Saved(v, key))
  }

  function With(v: EngineV, key: Key, r: RouteV): EngineV { v.(states := v.states[key := r]) }

  function Known(v: EngineV, attempt: Option<Id>): Option<Pending> {
    if attempt.Some? && attempt.value in v.pending then Some(v.pending[attempt.value]) else None
  }

  function Rate(p: Option<Pending>): Option<real> { if p.Some? then Some(p.value.entry.rpm) else None }

  /** The attempt's real cost, seen both by its pending record and by the ledger holding its entry. */
  function Priced(v: EngineV, id: Id, tokens: real): EngineV
    requires id in v.pending
  {
    v.(states := map k | k in v.states :: v.states[k].(sent := Price(v.states[k].sent, id, tokens)),
       pending := v.pending[id := v.pending[id].(entry := v.pending[id].entry.(tokens := tokens))])
  }

  function Retire(v: EngineV, producer: string): EngineV {
    v.(pending := map k | k in v.pending && v.pending[k].producer != producer :: v.pending[k])
  }

  /** `note_attempt` and `charge`: the route after one more dispatch. */
  function ChargedFor(r: RouteV, now: real, b: Body, cfg: Settings): (r': RouteV)
    requires cfg.Valid() && b.Dispatch?
    ensures r'.sent != [] && r'.sent[|r'.sent| - 1].at == now && r'.sent[|r'.sent| - 1].attempt == Some(b.id)
  {
    var r1 := Attempted(r);
    Charged(r1, now, Estimate(r1, b.bytes, cfg), b.face, Some(b.id), cfg)
  }

  /** The charged route takes its place, and its newest entry becomes a pending attempt. */
  function Admit(v: EngineV, key: Key, r: RouteV, id: Id, producer: string): EngineV
    requires r.sent != []
  {
    With(v, key, r).(pending := v.pending[id := Pending(r.sent[|r.sent| - 1], key, producer, false)])
  }

  function OnDispatch(v: EngineV, producer: string, b: Body, cfg: Settings): EngineV
    requires cfg.Valid() && b.Dispatch?
  {
    if b.id in v.pending then v
    else Admit(v, b.route, ChargedFor(Lookup(v, b.route), v.now, b, cfg), b.id, producer)
  }

  function OnDemote(v: EngineV, b: Body, cfg: Settings): EngineV
    requires cfg.Valid() && b.Demote?
  {
    var r := Lookup(v, b.route);
    var observed := Rate(Known(v, b.attempt));
    var r' := Demoted(r, v.now, b.reason, b.retryAfter, observed, cfg);
    Announced(With(v, b.route, r'), b, Attributed(r, v.now, observed, cfg), r.safeRpm, r'.otherRpm, r'.backoff.penalty, cfg)
  }

  /** What a demotion says: outside usage, when a throttle shows any, and then the demotion itself. */
  function Announced(v: EngineV, b: Body, ours: real, safe: real, outside: real, penalty: Penalty, cfg: Settings): EngineV
    requires b.Demote?
  {
    var w := if b.reason == "429" && outside > 0.0
             then Emit(v, "foreign", Info, PLAIN, OutsideUsage(b.route, ours, safe, outside))
             else v;
    Emit(w, if b.reason == "429" then "throttle" else "demote", Info, PLAIN,
         Demotion(b.route, b.reason, penalty, Park(b.retryAfter, cfg.policy)))
  }

  function OnUsage(v: EngineV, b: Body): EngineV
    requires b.Usage?
  {
    if b.tokens <= 0 then v
    else
      var v1 := if Known(v, b.attempt).Some? then Priced(v, b.attempt.value, b.tokens as real) else v;
      With(v1, b.route, Calibrated(Lookup(v1, b.route), b.bytes, b.tokens as real))
  }

  /** A proven rate enters the route, and the saved maxima when it raises them. */
  function Learn(v: EngineV, key: Key, rate: real): EngineV {
    var r := Lookup(v, key);
    var v1 := With(v, key, Proven(r, rate));
    if Raises(r, rate)
    then Emit(v1.(capacity := v1.capacity[key := rate]), "capacity", Info, PLAIN, CapacityRaised(key, r.safeRpm, rate))
    else v1
  }

  function OnSuccess(v: EngineV, b: Body): EngineV
    requires b.Success?
  {
    var record := Known(v, b.attempt);
    if record.None? || record.value.success then v
    else
      var v1 := Learn(v, b.route, record.value.entry.rpm);
      v1.(pending := v1.pending[b.attempt.value := record.value.(success := true)])
  }

  /** A record carries the engine's clock, and proof that its producer lives. */
  function Clocked(v: EngineV, e: Observation): EngineV {
    v.(now := e.at,
       producers := if e.pid.Some? then v.producers[e.producer := Beat(e.pid.value, e.at)] else v.producers)
  }

  /** `Engine.consume`. */
  function Consume(v: EngineV, e: Observation, cfg: Settings): EngineV
    requires cfg.Valid()
  {
    React(Clocked(v, e), e, cfg)
  }

  function React(v: EngineV, e: Observation, cfg: Settings): EngineV
    requires cfg.Valid()
  {
    var b := e.body;
    match b
    case Heartbeat => v
    case Narrated(kind, level, detail, message) => Emit(v, kind, level, detail, Text(message))
    case Sessions(summary) => v.(sessions := summary)
    case Started => Retire(v, e.producer)
    case Stopped => Retire(v, e.producer).(producers := v.producers - {e.producer})
    case Finish(attempt) => if attempt.Some? then v.(pending := v.pending - {attempt.value}) else v
    case Dispatch(_, _, _, _) => OnDispatch(v, e.producer, b, cfg)
    case Status(route, status) => With(v, route, Answered(Lookup(v, route), status))
    case Demote(_, _, _, _) => OnDemote(v, b, cfg)
    case Timeout(route, _) => With(v, route, TimedOut(Lookup(v, route)))
    case Usage(_, _, _, _) => OnUsage(v, b)
    case Success(_, _) => OnSuccess(v, b)
  }

  // ---- ageing, snapshots, restarts -------------------------------------------------

  /** Everything up to this instant has aged out at `now`: 24 hours less one cleanup interval. */
  function Horizon(now: real): real { now - 86400.0 + 60.0 }

  /** `recent`: feed events strictly newer than the cutoff. */
  function Recent(s: seq<FeedEvent>, cutoff: real): seq<FeedEvent> {
    if s == [] then []
    else if s[|s| - 1].at > cutoff then Recent(s[..|s| - 1], cutoff) + [s[|s| - 1]]
    else Recent(s[..|s| - 1], cutoff)
  }

  /** The largest sequence number among events at or before the cutoff, or `floor`. */
  function Through(s: seq<FeedEvent>, cutoff: real, floor: nat): (n: nat)
    ensures n >= floor
  {
    if s == [] then floor
    else
      var n := Through(s[..|s| - 1], cutoff, floor);
      if s[|s| - 1].at <= cutoff then MaxNat(n, s[|s| - 1].num) else n
  }

  /** `prune_checkpoint`: attempts and ledger entries past the cutoff go, learned values stay. */
  function Aged(v: EngineV, cutoff: real): EngineV {
    v.(pending := map k | k in v.pending && v.pending[k].entry.at > cutoff :: v.pending[k],
       states := map k | k in v.states :: v.states[k].(sent := Keep(v.states[k].sent, cutoff)),
       events := Recent(v.events, cutoff))
  }

  /** Evaluating weights touches every listed route: created if new, its penalty decayed. */
  function Weighed(v: EngineV, routes: seq<Key>, cfg: Settings): EngineV
    requires cfg.Valid()
  {
    if routes == [] then v
    else
      var w := Weighed(v, routes[..|routes| - 1], cfg);
      var k := routes[|routes| - 1];
      With(w, k, Decayed(Lookup(w, k), w.now, cfg))
  }

  /** `Engine.snapshot`, dead producers aside. */
  function Snapshotted(v: EngineV, now: real, routes: seq<Key>, cfg: Settings): EngineV
    requires cfg.Valid()
  {
    var v := v.(now := now);
    Weighed(Aged(v.(retentionThrough := Through(v.events, Horizon(now), v.retentionThrough)), Horizon(now)), routes, cfg)
  }

  function Normalised(s: seq<FeedEvent>): (r: seq<FeedEvent>)
    ensures |r| == |s|
    ensures forall i | 0 <= i < |s| :: r[i] == s[i].(level := EventLevel(s[i].kind, s[i].level, s[i].detail))
  {
    seq(|s|, i requires 0 <= i < |s| => s[i].(level := EventLevel(s[i].kind, s[i].level, s[i].detail)))
  }

  /** `restore`: a checkpoint aged at start-up; `now` is the new process's own clock. */
  function Restored(saved: EngineV, cutoff: real, now: real): EngineV {
    var v := Aged(saved, cutoff);
    v.(events := Last(Normalised(v.events), RING), now := now)
  }

  // ---- histories ---------------------------------------------------------------------

  /** Everything that ever changes an engine's durable state. */
  datatype Input =
    | Consumed(num: nat, e: Observation)
    | Skipped(num: nat, cutoff: real)        // read, but already past the pass's retention cutoff
    | Jumped(num: nat)                       // the unread rest of the journal had expired
    | Local(kind: string, level: Level, detail: Detail, message: string)
    | Snapshot(now: real, routes: seq<Key>)
    | Age(cutoff: real)                      // the stored copy was aged in place
    | AgeFeed(cutoff: real)                  // only the stored feed was
    | Restart(cutoff: real, now: real)

  function Step(v: EngineV, i: Input, cfg: Settings): EngineV
    requires cfg.Valid()
  {
    match i
    case Consumed(num, e) => Consume(v, e, cfg).(cursor := num)
    case Skipped(num, _) => v.(cursor := num)
    case Jumped(num) => v.(cursor := num)
    case Local(kind, level, detail, message) => Emit(v, kind, level, detail, Text(message))
    case Snapshot(now, routes) => Snapshotted(v, now, routes, cfg)
    case Age(cutoff) => Aged(v, cutoff)
    case AgeFeed(cutoff) => v.(events := Recent(v.events, cutoff))
    case Restart(cutoff, now) => Restored(v, cutoff, now)
  }

  function Fold(v: EngineV, inputs: seq<Input>, cfg: Settings): EngineV
    requires cfg.Valid()
  {
    if inputs == [] then v else Step(Fold(v, inputs[..|inputs| - 1], cfg), inputs[|inputs| - 1], cfg)
  }

  function Boot(streamId: string, capacity: map<Key, real>, now: real): EngineV {
    EngineV(now, 0, map[], map[], capacity, map[], "{}", [], 0, streamId, 0)
  }

  lemma FoldSnoc(v: EngineV, inputs: seq<Input>, i: Input, cfg: Settings)
    requires cfg.Valid()
    ensures Fold(v, inputs + [i], cfg) == Step(Fold(v, inputs, cfg), i, cfg)
  {
    assert (inputs + [i])[..|inputs|] == inputs;
  }
}
