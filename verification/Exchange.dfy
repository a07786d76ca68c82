/**
 Serving and routing over one file: appends with lost acknowledgements, replay up to a waterline,
 publications that commit or fail, expiry in between, crashes and restarts.  Every step keeps the
 invariant below; the main results follow from it: each row is folded exactly once, no gap can be
 met, skipped writes change nothing, and no feed number is ever published with two contents.
 */
module Exchange {
  import opened Prelude
  import opened EngineModel
  import opened EngineFacts
  import opened Journal
  import opened Levels
  import opened Quota

  // ---- state ---------------------------------------------------------------------------

  /** Where a pass of `step` stands. */
  datatype Phase =
    | Resting
    | Replaying(waterline: nat, cutoff: real, batch: seq<Row>)
    | Prepared              // the snapshot is taken, the publication not yet committed
    | Gap                   // "telemetry gap before routing waterline"

  /** How a state came about. */
  datatype Past = Past(origin: EngineV, inputs: seq<Input>)

  /** The routing process.  `written` is the event list it last wrote out. */
  datatype Process = Process(v: EngineV, revision: nat, cache: Cache, written: seq<FeedEvent>, phase: Phase, past: Past)

  datatype Publication = Publication(streamId: string, event: FeedEvent)

  /**
   The last five fields record what happened: every row ever appended, the rows expiry deleted, how
   the saved state came about, how far the stored feed was aged since it was written, and every
   event any publication ever carried.
   */
  datatype System = System(
    db: Db, process: Option<Process>,
    log: seq<Row>, expired: set<nat>, savedPast: Past, feedCut: Option<real>, published: set<Publication>)

  const START := System(EMPTY, None, [], {}, Past(Boot("", map[], 0.0), []), None, {})

  datatype Event =
    | Append(producer: string, batch: seq<Record>)
    | Expire(cutoff: real, victims: set<nat>)
    | Launch(cutoff: real, now: real, streamId: string, capacity: map<Key, real>)
    | Crash
    | Begin(waterline: nat, cutoff: real)
    | Read
    | Take
    | Prepare(now: real, routes: seq<Key>)
    | Commit
    | Abort                 // a busy database at any point of the pass
    | Announce(kind: string, level: Level, detail: Detail, message: string)

  // ---- steps ------------------------------------------------------------------------------

  /** A row as the engine sees it: the producer is the one the journal recorded. */
  function Seen(r: Row): Observation { r.record.e.(producer := r.producer) }

  function Latest(a: Option<real>, b: real): Option<real> { Some(if a.Some? then Max(a.value, b) else b) }

  function Done(db: Db): nat { if db.checkpoint.Some? then db.checkpoint.value.cursor else 0 }

  function Did(p: Process, i: Input, cfg: Settings): Process
    requires cfg.Valid()
  {
    p.(v := Step(p.v, i, cfg), past := p.past.(inputs := p.past.inputs + [i]))
  }

  ghost predicate Enabled(s: System, ev: Event) {
    match ev
    case Append(_, _) => true
    case Expire(cutoff, victims) => Oldest(s.db.rows, cutoff, victims)
    case Launch(_, _, _, capacity) => s.process.None? && forall k | k in capacity :: capacity[k] > 0.0
    case Crash => s.process.Some?
    case Begin(waterline, _) => s.process.Some? && s.process.value.phase.Resting? && IsHighwater(s.db, waterline)
    case Read => s.process.Some? && s.process.value.phase.Replaying? && s.process.value.phase.batch == []
                 && s.process.value.v.cursor < s.process.value.phase.waterline
    case Take => s.process.Some? && s.process.value.phase.Replaying? && s.process.value.phase.batch != []
    case Prepare(_, _) => s.process.Some? && s.process.value.phase.Replaying? && s.process.value.phase.batch == []
                          && s.process.value.v.cursor >= s.process.value.phase.waterline
    case Commit => s.process.Some? && s.process.value.phase.Prepared?
    case Abort => s.process.Some? && !s.process.value.phase.Gap?
    case Announce(_, _, _, _) => s.process.Some? && s.process.value.phase.Resting?
  }

  /** A new process: the saved state restored, or a first start with an empty one. */
  function Launched(s: System, cutoff: real, now: real, streamId: string, capacity: map<Key, real>, cfg: Settings): Process
    requires cfg.Valid()
  {
    var saved := Joined(s.db);
    if saved.Some? then
      Process(Restored(saved.value, cutoff, now), s.db.revision, Nothing, [], Resting,
              s.savedPast.(inputs := s.savedPast.inputs + [Restart(cutoff, now)]))
    else
      Process(Boot(streamId, capacity, now), s.db.revision, Nothing, [], Resting, Past(Boot(streamId, capacity, now), []))
  }

  /** One `read_events`: a batch, or the end of the range, or the gap error. */
  function Reading(p: Process, db: Db, cfg: Settings): Process
    requires cfg.Valid() && p.phase.Replaying?
  {
    var b := ReadRows(db.rows, p.v.cursor, p.phase.waterline, BATCH);
    if b != [] then p.(phase := p.phase.(batch := b))
    else if db.retention.through >= p.phase.waterline then Did(p, Jumped(p.phase.waterline), cfg)
    else p.(phase := Gap)
  }

  /** A row's turn: folded if recent, passed over if already aged. */
  function TurnOf(r: Row, cutoff: real): Input {
    if r.record.e.at > cutoff then Consumed(r.num, Seen(r)) else Skipped(r.num, cutoff)
  }

  /** One row of the batch in memory. */
  function Taking(p: Process, cfg: Settings): Process
    requires cfg.Valid() && p.phase.Replaying? && p.phase.batch != []
  {
    Did(p, TurnOf(p.phase.batch[0], p.phase.cutoff), cfg).(phase := p.phase.(batch := p.phase.batch[1..]))
  }

  function SavedAs(s: System, p: Process): Past {
    if WritesFeed(p.cache, p.v) || (WritesCheckpoint(p.cache, p.v) && s.feedCut.None?) then p.past
    else if WritesCheckpoint(p.cache, p.v) then p.past.(inputs := p.past.inputs + [AgeFeed(s.feedCut.value)])
    else s.savedPast
  }

  function Committed(s: System, p: Process): System {
    var feed := WritesFeed(p.cache, p.v);
    s.(db := Published(s.db, p.cache, p.v, p.revision + 1),
       process := Some(p.(revision := p.revision + 1, cache := CacheOf(p.v),
                          written := if feed then p.v.events else p.written, phase := Resting)),
       savedPast := SavedAs(s, p),
       feedCut := if feed then None else s.feedCut,
       published := if feed then s.published + set e | e in p.v.events :: Publication(p.v.streamId, e) else s.published)
  }

  function Apply(s: System, ev: Event, cfg: Settings): System
    requires cfg.Valid() && Enabled(s, ev)
  {
    match ev
    case Append(producer, batch) =>
      s.(db := Appended(s.db, producer, batch), log := LogAppended(s.db, s.log, producer, batch))
    case Expire(cutoff, victims) =>
      s.(db := Expired(s.db, cutoff, victims), expired := s.expired + victims,
         savedPast := s.savedPast.(inputs := s.savedPast.inputs + [Input.Age(cutoff)]),
         feedCut := Latest(s.feedCut, cutoff))
    case Launch(cutoff, now, streamId, capacity) => s.(process := Some(Launched(s, cutoff, now, streamId, capacity, cfg)))
    case Crash => s.(process := None)
    case Begin(waterline, cutoff) => s.(process := Some(s.process.value.(phase := Replaying(waterline, cutoff, []))))
    case Read => s.(process := Some(Reading(s.process.value, s.db, cfg)))
    case Take => s.(process := Some(Taking(s.process.value, cfg)))
    case Prepare(now, routes) => s.(process := Some(Did(s.process.value, Input.Snapshot(now, routes), cfg).(phase := Prepared)))
    case Commit => Committed(s, s.process.value)
    case Abort => s.(process := Some(s.process.value.(phase := Resting)))
    case Announce(kind, level, detail, message) => s.(process := Some(Did(s.process.value, Local(kind, level, detail, message), cfg)))
  }

  // ---- the invariant ---------------------------------------------------------------------

  /** The input is this row's turn: folded, or passed over because it had aged. */
  predicate Turn(i: Input) { i.Consumed? || i.Skipped? }

  /** Rows take their turns in order, each at most once, as the journal recorded them. */
  ghost predicate InOrder(inputs: seq<Input>, log: seq<Row>, cursor: nat) {
    && (forall i, j | 0 <= i < j < |inputs| && Turn(inputs[i]) && Turn(inputs[j]) :: inputs[i].num < inputs[j].num)
    && (forall i | 0 <= i < |inputs| && Turn(inputs[i]) :: 0 < inputs[i].num <= cursor <= |log|)
    && (forall i | 0 <= i < |inputs| && inputs[i].Consumed? :: inputs[i].e == Seen(log[inputs[i].num - 1]))
  }

  ghost predicate HadTurn(inputs: seq<Input>, n: nat) { exists i :: 0 <= i < |inputs| && Turn(inputs[i]) && inputs[i].num == n }

  /** No row up to the cursor was missed, except those expiry deleted. */
  ghost predicate NoneMissed(inputs: seq<Input>, expired: set<nat>, cursor: nat) {
    forall n: nat | 0 < n <= cursor :: n in expired || HadTurn(inputs, n)
  }

  /** The state is the fold of its past, and that past is faithful to the journal. */
  ghost predicate Replayed(v: EngineV, past: Past, log: seq<Row>, expired: set<nat>, cfg: Settings)
    requires cfg.Valid()
  {
    && v == Fold(past.origin, past.inputs, cfg)
    && v.cursor <= |log| && InOrder(past.inputs, log, v.cursor) && NoneMissed(past.inputs, expired, v.cursor)
    && FeedOK(v)
  }

  /** Numbers determine contents. */
  ghost predicate Unambiguous(published: set<Publication>) {
    forall a, b | a in published && b in published && a.streamId == b.streamId && a.event.num == b.event.num :: a == b
  }

  /** Checkpoint and feed were committed together, and describe one replayed state. */
  ghost predicate SavedOK(s: System, cfg: Settings)
    requires cfg.Valid()
  {
    && s.db.checkpoint.Some? == s.db.feed.Some?
    && Unambiguous(s.published)
    && if s.db.checkpoint.None? then s.published == {}
       else
         var c, f := s.db.checkpoint.value, s.db.feed.value;
         && c.events == [] && c.eventSeq == f.next && c.streamId == f.streamId
         && Replayed(c.(events := f.events), s.savedPast, s.log, s.expired, cfg)
         && (forall p | p in s.published :: p.streamId == c.streamId && p.event.num <= c.eventSeq)
         && (forall e | e in f.events :: Publication(f.streamId, e) in s.published)
  }

  ghost predicate PhaseOK(ph: Phase, log: seq<Row>, expired: set<nat>, cursor: nat) {
    match ph
    case Replaying(waterline, _, batch) => waterline <= |log| && Batched(batch, log, expired, cursor, waterline)
    case Gap => false
    case _ => true
  }

  /** `a` is `b` with elements left out. */
  ghost predicate Kept(a: seq<FeedEvent>, b: seq<FeedEvent>) { |a| <= |b| && (|a| == |b| ==> a == b) }

  function Cut(s: seq<FeedEvent>, cutoff: Option<real>): seq<FeedEvent> {
    if cutoff.Some? then Recent(s, cutoff.value) else s
  }

  /** What the compact keys stand for. */
  ghost predicate CacheOK(p: Process, db: Db, feedCut: Option<real>) {
    p.cache.Cache? ==>
      && db.checkpoint.Some? && db.feed.Some?
      && p.cache.cursor == db.checkpoint.value.cursor
      && p.cache.key.next == db.checkpoint.value.eventSeq && p.cache.key.length == |p.written|
      && db.feed.value.events == Cut(p.written, feedCut)
      && (p.v.eventSeq == p.cache.key.next ==> Kept(p.v.events, p.written))
  }

  /** The process continues the saved state's stream. */
  ghost predicate Continues(p: Process, s: System) {
    s.db.checkpoint.Some? ==>
      && p.v.streamId == s.db.checkpoint.value.streamId && p.v.eventSeq >= s.db.checkpoint.value.eventSeq
      && (forall e | e in p.v.events && e.num <= s.db.checkpoint.value.eventSeq :: Publication(p.v.streamId, e) in s.published)
  }

  ghost predicate ProcessOK(p: Process, s: System, cfg: Settings)
    requires cfg.Valid()
  {
    && Replayed(p.v, p.past, s.log, s.expired, cfg)
    && Done(s.db) <= p.v.cursor
    && p.revision == s.db.revision
    && PhaseOK(p.phase, s.log, s.expired, p.v.cursor)
    && CacheOK(p, s.db, s.feedCut)
    && Continues(p, s)
  }

  ghost predicate Inv(s: System, cfg: Settings)
    requires cfg.Valid()
  {
    && JournalOK(s.db, s.log, s.expired, Done(s.db))
    && SavedOK(s, cfg)
    && (s.process.Some? ==> ProcessOK(s.process.value, s, cfg))
  }

  // ---- every input extends a faithful past -----------------------------------------------------

  /** An input that is no row's turn. */
  lemma QuietInput(v: EngineV, past: Past, i: Input, log: seq<Row>, expired: set<nat>, cfg: Settings)
    requires cfg.Valid() && Replayed(v, past, log, expired, cfg) && !Turn(i) && !i.Jumped?
    ensures Replayed(Step(v, i, cfg), past.(inputs := past.inputs + [i]), log, expired, cfg)
    ensures Step(v, i, cfg).cursor == v.cursor
  {
    hide FeedOK, Step;
    StepExtends(v, i, cfg);
    QuietCursor(v, i, cfg);
    FoldSnoc(past.origin, past.inputs, i, cfg);
    MoreInputs(past.inputs, i, log, expired, v.cursor);
  }

  lemma QuietCursor(v: EngineV, i: Input, cfg: Settings)
    requires cfg.Valid() && !Turn(i) && !i.Jumped?
    ensures Step(v, i, cfg).cursor == v.cursor
  {
    if i.Snapshot? {
      var w := Aged(v.(now := i.now, retentionThrough := Through(v.events, Horizon(i.now), v.retentionThrough)), Horizon(i.now));
      WeighedKeepsFeed(w, i.routes, cfg);
    }
  }

  lemma MoreInputs(inputs: seq<Input>, i: Input, log: seq<Row>, expired: set<nat>, cursor: nat)
    requires InOrder(inputs, log, cursor) && NoneMissed(inputs, expired, cursor) && !Turn(i)
    ensures InOrder(inputs + [i], log, cursor) && NoneMissed(inputs + [i], expired, cursor)
  {
    HadTurnStays(inputs, i);
  }

  lemma HadTurnStays(inputs: seq<Input>, i: Input)
    ensures forall n: nat | HadTurn(inputs, n) :: HadTurn(inputs + [i], n)
    ensures Turn(i) ==> HadTurn(inputs + [i], i.num)
  {
    var t := inputs + [i];
    assert t[|t| - 1] == i;
    forall n: nat | HadTurn(inputs, n) ensures HadTurn(t, n) {
      var j :| 0 <= j < |inputs| && Turn(inputs[j]) && inputs[j].num == n;
      assert t[j] == inputs[j];
    }
  }

  /** The next row takes its turn. */
  lemma TurnInput(v: EngineV, past: Past, i: Input, log: seq<Row>, expired: set<nat>, cfg: Settings)
    requires cfg.Valid() && Replayed(v, past, log, expired, cfg) && Turn(i)
    requires v.cursor < i.num <= |log| && (i.Consumed? ==> i.e == Seen(log[i.num - 1]))
    requires forall n: nat | v.cursor < n < i.num :: n in expired
    ensures Replayed(Step(v, i, cfg), past.(inputs := past.inputs + [i]), log, expired, cfg)
    ensures Step(v, i, cfg).cursor == i.num
  {
    hide FeedOK, Step, InOrder, NoneMissed;
    StepExtends(v, i, cfg);
    FoldSnoc(past.origin, past.inputs, i, cfg);
    NextTurn(past.inputs, i, log, expired, v.cursor);
  }

  lemma NextTurn(inputs: seq<Input>, i: Input, log: seq<Row>, expired: set<nat>, cursor: nat)
    requires InOrder(inputs, log, cursor) && NoneMissed(inputs, expired, cursor) && Turn(i)
    requires cursor < i.num <= |log| && (i.Consumed? ==> i.e == Seen(log[i.num - 1]))
    requires forall n: nat | cursor < n < i.num :: n in expired
    ensures InOrder(inputs + [i], log, i.num) && NoneMissed(inputs + [i], expired, i.num)
  {
    HadTurnStays(inputs, i);
    hide HadTurn;
  }

  lemma NoTurn(inputs: seq<Input>, i: Input, log: seq<Row>, expired: set<nat>, cursor: nat, n: nat)
    requires InOrder(inputs, log, cursor) && NoneMissed(inputs, expired, cursor) && i.Jumped?
    requires cursor <= n <= |log| && forall m: nat | cursor < m <= n :: m in expired
    ensures InOrder(inputs + [i], log, n) && NoneMissed(inputs + [i], expired, n)
  {
    HadTurnStays(inputs, i);
    hide HadTurn;
  }

  /** The rest of the range had expired. */
  lemma JumpInput(v: EngineV, past: Past, n: nat, log: seq<Row>, expired: set<nat>, cfg: Settings)
    requires cfg.Valid() && Replayed(v, past, log, expired, cfg) && v.cursor <= n <= |log|
    requires forall m: nat | v.cursor < m <= n :: m in expired
    ensures Replayed(Step(v, Jumped(n), cfg), past.(inputs := past.inputs + [Jumped(n)]), log, expired, cfg)
    ensures Step(v, Jumped(n), cfg) == v.(cursor := n)
  {
    hide FeedOK, InOrder, NoneMissed;
    FoldSnoc(past.origin, past.inputs, Jumped(n), cfg);
    NoTurn(past.inputs, Jumped(n), log, expired, v.cursor, n);
    StepExtends(v, Jumped(n), cfg);
  }

  /** A longer log and more expiry falsify nothing. */
  lemma LaterReplayed(v: EngineV, past: Past, log: seq<Row>, expired: set<nat>, log': seq<Row>, expired': set<nat>, cfg: Settings)
    requires cfg.Valid() && Replayed(v, past, log, expired, cfg) && log <= log' && expired <= expired'
    ensures Replayed(v, past, log', expired', cfg)
  {
    hide FeedOK, Fold;
  }

  lemma LaterBatched(b: seq<Row>, log: seq<Row>, expired: set<nat>, from: nat, to: nat, log': seq<Row>, expired': set<nat>)
    requires Batched(b, log, expired, from, to) && log <= log' && expired <= expired'
    ensures Batched(b, log', expired', from, to)
  {
  }

  lemma LaterProcess(p: Process, s: System, log': seq<Row>, expired': set<nat>, cfg: Settings)
    requires cfg.Valid() && Replayed(p.v, p.past, s.log, s.expired, cfg) && PhaseOK(p.phase, s.log, s.expired, p.v.cursor)
    requires s.log <= log' && s.expired <= expired'
    ensures Replayed(p.v, p.past, log', expired', cfg) && PhaseOK(p.phase, log', expired', p.v.cursor)
  {
    hide Replayed, Batched;
    LaterReplayed(p.v, p.past, s.log, s.expired, log', expired', cfg);
    if p.phase.Replaying? {
      LaterBatched(p.phase.batch, s.log, s.expired, p.v.cursor, p.phase.waterline, log', expired');
    }
  }

  // ---- the file's own steps -------------------------------------------------------------------------

  lemma AppendKeeps(s: System, producer: string, batch: seq<Record>, cfg: Settings)
    requires cfg.Valid() && Inv(s, cfg)
    ensures Inv(Apply(s, Append(producer, batch), cfg), cfg)
  {
    hide JournalOK, Replayed, PhaseOK, CacheOK, Unambiguous, Appended, LogAppended;
    var t := Apply(s, Append(producer, batch), cfg);
    AppendOK(s.db, s.log, s.expired, Done(s.db), producer, batch);
    if s.db.checkpoint.Some? {
      LaterReplayed(Joined(s.db).value, s.savedPast, s.log, s.expired, t.log, t.expired, cfg);
    }
    if s.process.Some? {
      LaterProcess(s.process.value, s, t.log, t.expired, cfg);
      SameCache(s.process.value, s.db, t.db, s.feedCut);
    }
  }

  lemma SameCache(p: Process, db: Db, db': Db, feedCut: Option<real>)
    requires CacheOK(p, db, feedCut) && db'.checkpoint == db.checkpoint && db'.feed == db.feed
    ensures CacheOK(p, db', feedCut)
  {
  }

  lemma ExpireKeeps(s: System, cutoff: real, victims: set<nat>, cfg: Settings)
    requires cfg.Valid() && Inv(s, cfg) && Oldest(s.db.rows, cutoff, victims)
    ensures Inv(Apply(s, Expire(cutoff, victims), cfg), cfg)
  {
    hide JournalOK, Replayed, PhaseOK, CacheOK, Unambiguous, Oldest, Without, Aged;
    var t := Apply(s, Expire(cutoff, victims), cfg);
    AgedKeepsNumbers(s.db, cutoff);
    ExpireOK(s.db, s.log, s.expired, Done(s.db), cutoff, victims);
    if s.db.checkpoint.Some? {
      var saved := Joined(s.db).value;
      LaterReplayed(saved, s.savedPast, s.log, s.expired, t.log, t.expired, cfg);
      QuietInput(saved, s.savedPast, Input.Age(cutoff), t.log, t.expired, cfg);
      JoinedAged(s.db, cutoff, victims);
    }
    if s.process.Some? {
      LaterProcess(s.process.value, s, t.log, t.expired, cfg);
      ExpireCache(s.process.value, s, cutoff, victims);
    }
  }

  lemma AgedKeepsNumbers(db: Db, cutoff: real)
    ensures db.checkpoint.Some? ==>
              var c := db.checkpoint.value; var a := Aged(c, cutoff);
              && a.cursor == c.cursor && a.eventSeq == c.eventSeq && a.streamId == c.streamId
              && (c.events == [] ==> a.events == [])
  {
  }

  lemma JoinedAged(db: Db, cutoff: real, victims: set<nat>)
    requires db.checkpoint.Some? && db.feed.Some?
    ensures Joined(Expired(db, cutoff, victims)) == Some(Aged(Joined(db).value, cutoff))
    ensures forall e | e in Recent(db.feed.value.events, cutoff) :: e in db.feed.value.events
  {
    RecentSubset(db.feed.value.events, cutoff);
  }

  lemma ExpireCache(p: Process, s: System, cutoff: real, victims: set<nat>)
    requires CacheOK(p, s.db, s.feedCut)
    ensures CacheOK(p, Expired(s.db, cutoff, victims), Latest(s.feedCut, cutoff))
  {
    if p.cache.Cache? {
      AgedKeepsNumbers(s.db, cutoff);
      if s.feedCut.Some? { RecentTwice(p.written, s.feedCut.value, cutoff); }
    }
  }

  // ---- the process's steps -------------------------------------------------------------------------

  lemma LaunchKeeps(s: System, cutoff: real, now: real, streamId: string, capacity: map<Key, real>, cfg: Settings)
    requires cfg.Valid() && Inv(s, cfg) && Enabled(s, Launch(cutoff, now, streamId, capacity))
    ensures Inv(Apply(s, Launch(cutoff, now, streamId, capacity), cfg), cfg)
  {
    hide JournalOK, Unambiguous, Aged;
    if s.db.checkpoint.Some? {
      var saved := Joined(s.db).value;
      QuietInput(saved, s.savedPast, Restart(cutoff, now), s.log, s.expired, cfg);
      assert Step(saved, Restart(cutoff, now), cfg) == Restored(saved, cutoff, now);
      RestoredFeed(saved, cutoff, now);
      hide Replayed, Restored;
    }
  }

  lemma RestoredFeed(saved: EngineV, cutoff: real, now: real)
    requires FeedOK(saved)
    ensures var v := Restored(saved, cutoff, now);
            && v.streamId == saved.streamId && v.eventSeq == saved.eventSeq && v.cursor == saved.cursor
            && forall e | e in v.events :: e in saved.events
  {
    RestoreIsQuiet(saved, cutoff, now);
    RecentSubset(saved.events, cutoff);
  }

  /** A step of the process that leaves the file alone and moves the cursor forward. */
  ghost predicate Advances(p: Process, q: Process) {
    && q.revision == p.revision && q.cache == p.cache && q.written == p.written
    && q.v.cursor >= p.v.cursor && q.v.streamId == p.v.streamId && q.v.eventSeq >= p.v.eventSeq
    && (forall e | e in q.v.events && e.num <= p.v.eventSeq :: e in p.v.events)
    && (q.v.eventSeq == p.v.eventSeq ==> Kept(q.v.events, p.v.events))
  }

  lemma AdvanceKeeps(s: System, q: Process, cfg: Settings)
    requires cfg.Valid() && Inv(s, cfg) && s.process.Some? && Advances(s.process.value, q)
    requires Replayed(q.v, q.past, s.log, s.expired, cfg) && PhaseOK(q.phase, s.log, s.expired, q.v.cursor)
    ensures Inv(s.(process := Some(q)), cfg)
  {
    hide JournalOK, Replayed, PhaseOK, Unambiguous;
    var p := s.process.value;
    assert CacheOK(q, s.db, s.feedCut);
    assert Continues(q, s);
    hide CacheOK, Continues, Advances;
    var t := s.(process := Some(q));
    assert SavedOK(t, cfg);
  }

  lemma DidAdvances(p: Process, i: Input, cfg: Settings)
    requires cfg.Valid() && FeedOK(p.v) && (Turn(i) || i.Jumped? ==> i.num >= p.v.cursor) && !i.Restart?
    ensures Advances(p, Did(p, i, cfg))
  {
    hide Step, FeedOK, Recent;
    StepExtends(p.v, i, cfg);
    if !Turn(i) && !i.Jumped? { QuietCursor(p.v, i, cfg); }
    if FeedCut(i).Some? { RecentSubset(p.v.events, FeedCut(i).value); }
  }

  lemma TakeKeeps(s: System, cfg: Settings)
    requires cfg.Valid() && Inv(s, cfg) && Enabled(s, Take)
    ensures Inv(Apply(s, Take, cfg), cfg)
  {
    hide JournalOK, Unambiguous, CacheOK, Continues, SavedOK, Step, FeedOK;
    var p := s.process.value;
    var r := p.phase.batch[0];
    var input := if r.record.e.at > p.phase.cutoff then Consumed(r.num, Seen(r)) else Skipped(r.num, p.phase.cutoff);
    FirstOfBatch(p.phase.batch, s.log, s.expired, p.v.cursor, p.phase.waterline);
    TurnInput(p.v, p.past, input, s.log, s.expired, cfg);
    DidAdvances(p, input, cfg);
    hide Replayed, Advances;
    var q := Taking(p, cfg);
    assert q == Did(p, input, cfg).(phase := p.phase.(batch := p.phase.batch[1..]));
    PhaseOnly(p, Did(p, input, cfg), q);
    AdvanceKeeps(s, q, cfg);
  }

  lemma PhaseOnly(p: Process, q: Process, r: Process)
    requires Advances(p, q) && r == q.(phase := r.phase)
    ensures Advances(p, r)
  {
  }

  lemma FirstOfBatch(b: seq<Row>, log: seq<Row>, expired: set<nat>, from: nat, to: nat)
    requires Batched(b, log, expired, from, to) && b != []
    ensures from < b[0].num <= |log| && b[0] == log[b[0].num - 1]
    ensures forall n: nat | from < n < b[0].num :: n in expired
    ensures Batched(b[1..], log, expired, b[0].num, to)
  {
    forall n: nat | from < n < b[0].num ensures n in expired {
      assert n < b[|b| - 1].num;
    }
    var t := b[1..];
    if t != [] {
      forall n: nat | b[0].num < n <= t[|t| - 1].num ensures n in expired || InRows(t, n) {
        assert t[|t| - 1] == b[|b| - 1];
        if n !in expired {
          var i :| 0 <= i < |b| && b[i].num == n;
          assert t[i - 1] == b[i];
        }
      }
    }
  }

  lemma ReadKeeps(s: System, cfg: Settings)
    requires cfg.Valid() && Inv(s, cfg) && Enabled(s, Read)
    ensures Inv(Apply(s, Read, cfg), cfg)
  {
    hide Unambiguous, CacheOK, Continues, SavedOK, Step, FeedOK, InOrder, NoneMissed, Batched, Fold;
    var p := s.process.value;
    var w := p.phase.waterline;
    assert w <= |s.log|;
    ReadOK(s.db, s.log, s.expired, Done(s.db), p.v.cursor, w);
    var b := ReadRows(s.db.rows, p.v.cursor, w, BATCH);
    var q := Reading(p, s.db, cfg);
    if b == [] {
      ReachedEnd(s.db, s.log, s.expired, Done(s.db), w);
      JumpInput(p.v, p.past, w, s.log, s.expired, cfg);
      DidAdvances(p, Jumped(w), cfg);
      EmptyBatch(s.log, s.expired, w, w);
    }
    hide JournalOK, Replayed;
    AdvanceKeeps(s, q, cfg);
  }

  lemma EmptyBatch(log: seq<Row>, expired: set<nat>, from: nat, to: nat)
    ensures Batched([], log, expired, from, to)
  {
  }

  /** A row known to have expired lies within the recorded reach of expiry. */
  lemma ReachedEnd(db: Db, log: seq<Row>, expired: set<nat>, done: nat, n: nat)
    requires JournalOK(db, log, expired, done) && n in expired
    ensures db.retention.through >= n
  {
  }

  lemma BeginKeeps(s: System, waterline: nat, cutoff: real, cfg: Settings)
    requires cfg.Valid() && Inv(s, cfg) && Enabled(s, Begin(waterline, cutoff))
    ensures Inv(Apply(s, Begin(waterline, cutoff), cfg), cfg)
  {
    HighwaterIsLast(s.db, s.log, s.expired, Done(s.db));
    var p := s.process.value;
    var q := p.(phase := Replaying(waterline, cutoff, []));
    EmptyBatch(s.log, s.expired, p.v.cursor, waterline);
    hide JournalOK, Unambiguous, CacheOK, Continues, SavedOK, Replayed, IsHighwater;
    AdvanceKeeps(s, q, cfg);
  }

  lemma QuietKeeps(s: System, i: Input, phase: Phase, cfg: Settings)
    requires cfg.Valid() && Inv(s, cfg) && s.process.Some? && (i.Snapshot? || i.Local?) && (phase.Resting? || phase.Prepared?)
    ensures Inv(s.(process := Some(Did(s.process.value, i, cfg).(phase := phase))), cfg)
  {
    hide JournalOK, Unambiguous, CacheOK, Continues, SavedOK, Step, FeedOK;
    var p := s.process.value;
    QuietInput(p.v, p.past, i, s.log, s.expired, cfg);
    DidAdvances(p, i, cfg);
    hide Replayed, Advances;
    PhaseOnly(p, Did(p, i, cfg), Did(p, i, cfg).(phase := phase));
    AdvanceKeeps(s, Did(p, i, cfg).(phase := phase), cfg);
  }

  lemma AbortKeeps(s: System, cfg: Settings)
    requires cfg.Valid() && Inv(s, cfg) && Enabled(s, Abort)
    ensures Inv(Apply(s, Abort, cfg), cfg)
  {
    hide JournalOK, Unambiguous, CacheOK, Continues, SavedOK, Replayed;
    AdvanceKeeps(s, s.process.value.(phase := Resting), cfg);
  }

  // ---- publication ------------------------------------------------------------------------------------

  /** New numbers, or contents already published under theirs. */
  lemma StillUnambiguous(published: set<Publication>, v: EngineV, top: nat)
    requires Unambiguous(published) && FeedOK(v)
    requires forall p | p in published :: p.streamId == v.streamId && p.event.num <= top
    requires forall e | e in v.events && e.num <= top :: Publication(v.streamId, e) in published
    ensures Unambiguous(published + set e | e in v.events :: Publication(v.streamId, e))
  {
    var all := published + set e | e in v.events :: Publication(v.streamId, e);
    forall a, b | a in all && b in all && a.event.num == b.event.num ensures a == b {
      if a !in published && b !in published {
        var i :| 0 <= i < |v.events| && v.events[i] == a.event;
        var j :| 0 <= j < |v.events| && v.events[j] == b.event;
        assert i == j;
      }
    }
  }

  /** Checkpoint and feed both written: what is saved is the process's state. */
  lemma WholeCommitSaved(s: System, cfg: Settings)
    requires cfg.Valid() && Inv(s, cfg) && Enabled(s, Commit) && WritesFeed(s.process.value.cache, s.process.value.v)
    ensures SavedOK(Committed(s, s.process.value), cfg)
  {
    hide JournalOK, CacheOK, PhaseOK, KeyOf, Compacted, Epoch;
    var p := s.process.value;
    var t := Committed(s, p);
    assert FeedOK(p.v);
    assert Joined(t.db) == Some(p.v);
    NumbersBelow(p.v);
    StillUnambiguous(s.published, p.v, if s.db.checkpoint.Some? then s.db.checkpoint.value.eventSeq else 0);
    hide Replayed, Unambiguous, FeedOK;
  }

  lemma NumbersBelow(v: EngineV)
    requires FeedOK(v)
    ensures forall e | e in v.events :: 0 < e.num <= v.eventSeq
  {
  }

  /** Equal keys mean equal feeds: the engine's, and the one last written. */
  lemma KeyTells(p: Process, db: Db, feedCut: Option<real>)
    requires CacheOK(p, db, feedCut) && p.cache.Cache? && p.cache.key == KeyOf(p.v)
    ensures p.v.events == p.written && p.v.eventSeq == db.checkpoint.value.eventSeq
    ensures db.feed.value.events == Cut(p.v.events, feedCut)
  {
  }

  /** Only the checkpoint written: the stored feed is the engine's, aged as far as expiry aged it. */
  lemma CheckpointCommitSaved(s: System, cfg: Settings)
    requires cfg.Valid() && Inv(s, cfg) && Enabled(s, Commit)
    requires var p := s.process.value; !WritesFeed(p.cache, p.v) && WritesCheckpoint(p.cache, p.v)
    ensures SavedOK(Committed(s, s.process.value), cfg)
  {
    hide JournalOK, CacheOK, PhaseOK, KeyOf, Compacted, Epoch, Unambiguous, Replayed, Recent;
    var p := s.process.value;
    KeyTells(p, s.db, s.feedCut);
    var t := Committed(s, p);
    if s.feedCut.Some? {
      QuietInput(p.v, p.past, AgeFeed(s.feedCut.value), s.log, s.expired, cfg);
    }
    assert Joined(t.db) == Some(if s.feedCut.Some? then Step(p.v, AgeFeed(s.feedCut.value), cfg) else p.v);
  }

  lemma NoCommitSaved(s: System, cfg: Settings)
    requires cfg.Valid() && Inv(s, cfg) && Enabled(s, Commit)
    requires var p := s.process.value; !WritesFeed(p.cache, p.v) && !WritesCheckpoint(p.cache, p.v)
    ensures SavedOK(Committed(s, s.process.value), cfg)
  {
    hide JournalOK, CacheOK, PhaseOK, KeyOf, Compacted, Epoch, Unambiguous, Replayed;
  }

  /** However much of it was written, the file ends at the process's cursor and feed number. */
  lemma CommitCatchesUp(s: System, cfg: Settings)
    requires cfg.Valid() && Inv(s, cfg) && Enabled(s, Commit)
    ensures var p, t := s.process.value, Committed(s, s.process.value);
            && t.db.checkpoint.Some? && t.db.feed.Some? && Done(t.db) == p.v.cursor
            && t.db.checkpoint.value.eventSeq == p.v.eventSeq && t.db.checkpoint.value.streamId == p.v.streamId
            && t.db.feed.value.events == Cut(p.v.events, t.feedCut)
            && t.process.value.written == p.v.events
  {
    var p := s.process.value;
    if !WritesFeed(p.cache, p.v) { KeyTells(p, s.db, s.feedCut); }
    hide JournalOK, PhaseOK, Compacted, Epoch, Unambiguous, Replayed;
  }

  lemma CommitKeeps(s: System, cfg: Settings)
    requires cfg.Valid() && Inv(s, cfg) && Enabled(s, Commit)
    ensures Inv(Apply(s, Commit, cfg), cfg)
  {
    hide JournalOK, SavedOK, ProcessOK;
    var p, t := s.process.value, Committed(s, s.process.value);
    if WritesFeed(p.cache, p.v) {
      WholeCommitSaved(s, cfg);
    } else if WritesCheckpoint(p.cache, p.v) {
      CheckpointCommitSaved(s, cfg);
    } else {
      NoCommitSaved(s, cfg);
    }
    CommitCatchesUp(s, cfg);
    CommitProcess(s, cfg);
    CommitJournal(s, cfg);
  }

  lemma CommitJournal(s: System, cfg: Settings)
    requires cfg.Valid() && Inv(s, cfg) && Enabled(s, Commit)
    ensures var t := Committed(s, s.process.value); JournalOK(t.db, s.log, s.expired, s.process.value.v.cursor)
  {
    hide JournalOK, Replayed, SavedOK, CacheOK, Continues, PhaseOK;
    var p := s.process.value;
    PublishOK(s.db, s.log, s.expired, Done(s.db), p.cache, p.v, p.revision + 1);
  }

  lemma CommitProcess(s: System, cfg: Settings)
    requires cfg.Valid() && Inv(s, cfg) && Enabled(s, Commit)
    ensures var t := Committed(s, s.process.value); ProcessOK(t.process.value, t, cfg)
  {
    var p, t := s.process.value, Committed(s, s.process.value);
    CommitCatchesUp(s, cfg);
    CommitContinues(s, cfg);
    hide JournalOK, Replayed, SavedOK, Continues, Unambiguous, WritesFeed, WritesCheckpoint, Compacted;
    assert CacheOK(t.process.value, t.db, t.feedCut);
  }

  lemma CommitContinues(s: System, cfg: Settings)
    requires cfg.Valid() && Inv(s, cfg) && Enabled(s, Commit)
    ensures var t := Committed(s, s.process.value); Continues(t.process.value, t)
  {
    CommitCatchesUp(s, cfg);
    var p := s.process.value;
    if !WritesFeed(p.cache, p.v) { KeyTells(p, s.db, s.feedCut); }
    hide JournalOK, PhaseOK, Unambiguous, Compacted;
    NumbersBelow(p.v);
  }

  // ---- what ageing may take ----------------------------------------------------------------------------

  /** A pass over the journal used this retention cutoff. */
  ghost predicate PassUsed(evs: seq<Event>, cutoff: real) {
    exists k :: 0 <= k < |evs| && evs[k].Begin? && evs[k].cutoff == cutoff
  }

  /** An expiry deleted this row, which lay at or before the cutoff of that very expiry. */
  ghost predicate Deleted(evs: seq<Event>, row: Row) {
    exists k :: 0 <= k < |evs| && evs[k].Expire? && row.num in evs[k].victims && row.record.e.at <= evs[k].cutoff
  }

  ghost predicate SkippedOnlyAged(inputs: seq<Input>, log: seq<Row>, evs: seq<Event>) {
    forall i | 0 <= i < |inputs| && inputs[i].Skipped? ::
      && 0 < inputs[i].num <= |log| && log[inputs[i].num - 1].record.e.at <= inputs[i].cutoff
      && PassUsed(evs, inputs[i].cutoff)
  }

  ghost predicate ExpiredOnlyAged(expired: set<nat>, log: seq<Row>, evs: seq<Event>) {
    forall n | n in expired :: 0 < n <= |log| && Deleted(evs, log[n - 1])
  }

  /** Rows were only ever passed over as aged for that pass, or deleted as aged for that expiry. */
  ghost predicate AgesOK(s: System, evs: seq<Event>) {
    && ExpiredOnlyAged(s.expired, s.log, evs)
    && SkippedOnlyAged(s.savedPast.inputs, s.log, evs)
    && (s.process.Some? ==>
          && SkippedOnlyAged(s.process.value.past.inputs, s.log, evs)
          && (s.process.value.phase.Replaying? ==> PassUsed(evs, s.process.value.phase.cutoff)))
  }

  lemma LaterEvents(evs: seq<Event>, ev: Event)
    ensures forall cutoff | PassUsed(evs, cutoff) :: PassUsed(evs + [ev], cutoff)
    ensures forall row: Row | Deleted(evs, row) :: Deleted(evs + [ev], row)
    ensures ev.Begin? ==> PassUsed(evs + [ev], ev.cutoff)
    ensures ev.Expire? ==> forall row: Row | row.num in ev.victims && row.record.e.at <= ev.cutoff :: Deleted(evs + [ev], row)
  {
    var t := evs + [ev];
    assert t[|evs|] == ev;
    forall cutoff | PassUsed(evs, cutoff) ensures PassUsed(t, cutoff) {
      var k :| 0 <= k < |evs| && evs[k].Begin? && evs[k].cutoff == cutoff;
      assert t[k] == evs[k];
    }
    forall row: Row | Deleted(evs, row) ensures Deleted(t, row) {
      var k :| 0 <= k < |evs| && evs[k].Expire? && row.num in evs[k].victims && row.record.e.at <= evs[k].cutoff;
      assert t[k] == evs[k];
    }
  }

  lemma LaterAges(s: System, evs: seq<Event>, ev: Event)
    requires AgesOK(s, evs)
    ensures AgesOK(s, evs + [ev])
  {
    LaterEvents(evs, ev);
    hide PassUsed, Deleted;
  }

  lemma OneMoreInput(inputs: seq<Input>, i: Input, log: seq<Row>, evs: seq<Event>)
    requires SkippedOnlyAged(inputs, log, evs)
    requires i.Skipped? ==> 0 < i.num <= |log| && log[i.num - 1].record.e.at <= i.cutoff && PassUsed(evs, i.cutoff)
    ensures SkippedOnlyAged(inputs + [i], log, evs)
  {
    hide PassUsed;
  }

  lemma LongerLog(s: System, log': seq<Row>, evs: seq<Event>)
    requires AgesOK(s, evs) && s.log <= log'
    ensures AgesOK(s.(log := log'), evs)
  {
    hide PassUsed, Deleted;
  }

  lemma AppendAges(s: System, evs: seq<Event>, producer: string, batch: seq<Record>, cfg: Settings)
    requires cfg.Valid() && Inv(s, cfg) && AgesOK(s, evs)
    ensures AgesOK(Apply(s, Append(producer, batch), cfg), evs + [Append(producer, batch)])
  {
    hide JournalOK, SavedOK, ProcessOK, Appended, LogAppended, PassUsed, Deleted, SkippedOnlyAged, ExpiredOnlyAged;
    AppendOK(s.db, s.log, s.expired, Done(s.db), producer, batch);
    LongerLog(s, LogAppended(s.db, s.log, producer, batch), evs);
    LaterAges(s.(log := LogAppended(s.db, s.log, producer, batch)), evs, Append(producer, batch));
  }

  lemma ExpireAges(s: System, evs: seq<Event>, cutoff: real, victims: set<nat>, cfg: Settings)
    requires cfg.Valid() && Inv(s, cfg) && AgesOK(s, evs) && Oldest(s.db.rows, cutoff, victims)
    ensures AgesOK(Apply(s, Expire(cutoff, victims), cfg), evs + [Expire(cutoff, victims)])
  {
    var ev := Expire(cutoff, victims);
    hide SavedOK, ProcessOK, Expired, Oldest, SkippedOnlyAged, AgedNums, Accounted, Logged, Marked, Recorded, Ascending, InRows, PassUsed, Deleted;
    assert victims <= AgedNums(s.db.rows, cutoff) by { VictimsAged(s.db.rows, cutoff, victims); }
    VictimsOnce(s.db.rows, s.log, cutoff, victims, 0);
    LaterAges(s, evs, ev);
    LaterEvents(evs, ev);
    OneMoreInput(s.savedPast.inputs, Input.Age(cutoff), s.log, evs + [ev]);
    NowDeleted(s, evs, cutoff, victims);
  }

  lemma NowDeleted(s: System, evs: seq<Event>, cutoff: real, victims: set<nat>)
    requires ExpiredOnlyAged(s.expired, s.log, evs) && Logged(s.log)
    requires forall n | n in victims :: 0 < n <= |s.log| && s.log[n - 1].record.e.at <= cutoff
    ensures ExpiredOnlyAged(s.expired + victims, s.log, evs + [Expire(cutoff, victims)])
  {
    LaterEvents(evs, Expire(cutoff, victims));
    hide Deleted, PassUsed;
    forall n | n in victims ensures Deleted(evs + [Expire(cutoff, victims)], s.log[n - 1]) {
      assert s.log[n - 1].num == n;
    }
  }

  lemma VictimsAged(rows: seq<Row>, cutoff: real, victims: set<nat>)
    requires Oldest(rows, cutoff, victims)
    ensures victims <= AgedNums(rows, cutoff)
  {
  }

  lemma TakeAges(s: System, evs: seq<Event>, cfg: Settings)
    requires cfg.Valid() && Inv(s, cfg) && AgesOK(s, evs) && Enabled(s, Take)
    ensures AgesOK(Apply(s, Take, cfg), evs + [Take])
  {
    hide JournalOK, SavedOK, Step, PassUsed, Deleted;
    var p := s.process.value;
    var r := p.phase.batch[0];
    FirstOfBatch(p.phase.batch, s.log, s.expired, p.v.cursor, p.phase.waterline);
    LaterAges(s, evs, Take);
    OneMoreInput(p.past.inputs, if r.record.e.at > p.phase.cutoff then Consumed(r.num, Seen(r)) else Skipped(r.num, p.phase.cutoff),
                 s.log, evs + [Take]);
    hide ProcessOK, SkippedOnlyAged, ExpiredOnlyAged;
  }

  lemma OtherAges(s: System, evs: seq<Event>, ev: Event, cfg: Settings)
    requires cfg.Valid() && AgesOK(s, evs) && Enabled(s, ev) && !ev.Append? && !ev.Expire? && !ev.Take?
    ensures AgesOK(Apply(s, ev, cfg), evs + [ev])
  {
    hide Step, Published, ReadRows, Restored, CacheOf, WritesFeed, WritesCheckpoint, PassUsed, Deleted;
    LaterAges(s, evs, ev);
    LaterEvents(evs, ev);
  }

  // ---- where pasts begin -------------------------------------------------------------------------------

  /** The empty engine of some launch of the run: it has folded nothing, and knows the maxima it was given. */
  ghost predicate Booted(v: EngineV, evs: seq<Event>) {
    exists k :: 0 <= k < |evs| && evs[k].Launch? && (forall r | r in evs[k].capacity :: evs[k].capacity[r] > 0.0)
                && v == Boot(evs[k].streamId, evs[k].capacity, evs[k].now)
  }

  ghost predicate OriginsOK(s: System, evs: seq<Event>) {
    && (s.db.checkpoint.Some? ==> Booted(s.savedPast.origin, evs))
    && (s.process.Some? ==> Booted(s.process.value.past.origin, evs))
  }

  lemma BootedStays(v: EngineV, evs: seq<Event>, ev: Event)
    ensures Booted(v, evs) ==> Booted(v, evs + [ev])
  {
    if Booted(v, evs) {
      var k :| 0 <= k < |evs| && evs[k].Launch? && (forall r | r in evs[k].capacity :: evs[k].capacity[r] > 0.0)
               && v == Boot(evs[k].streamId, evs[k].capacity, evs[k].now);
      assert (evs + [ev])[k] == evs[k];
    }
  }

  lemma BootedNow(evs: seq<Event>, ev: Event)
    requires ev.Launch? && forall r | r in ev.capacity :: ev.capacity[r] > 0.0
    ensures Booted(Boot(ev.streamId, ev.capacity, ev.now), evs + [ev])
  {
    assert (evs + [ev])[|evs|] == ev;
  }

  lemma StepOrigins(s: System, evs: seq<Event>, ev: Event, cfg: Settings)
    requires cfg.Valid() && OriginsOK(s, evs) && Enabled(s, ev)
    ensures OriginsOK(Apply(s, ev, cfg), evs + [ev])
  {
    hide Booted, Step, Restored, Aged, ReadRows, Boot, Appended, LogAppended, Without, Compacted, KeyOf, Epoch, IsHighwater, Oldest;
    BootedStays(s.savedPast.origin, evs, ev);
    if s.process.Some? { BootedStays(s.process.value.past.origin, evs, ev); }
    if ev.Append? { AppendKeepsSaved(s.db, ev.producer, ev.batch); }
    if ev.Launch? { BootedNow(evs, ev); }
  }

  lemma {:induction false} AppendKeepsSaved(db: Db, producer: string, batch: seq<Record>)
    ensures Appended(db, producer, batch).checkpoint == db.checkpoint
  {
    if batch != [] { AppendKeepsSaved(db, producer, batch[..|batch| - 1]); }
  }

  lemma BootedOK(v: EngineV, evs: seq<Event>)
    requires Booted(v, evs)
    ensures CapacityOK(v) && v.states == map[] && v.cursor == 0
  {
  }

  // ---- every step, every run --------------------------------------------------------------------------

  lemma StepKeeps(s: System, ev: Event, cfg: Settings)
    requires cfg.Valid() && Inv(s, cfg) && Enabled(s, ev)
    ensures Inv(Apply(s, ev, cfg), cfg)
  {
    hide Inv;
    match ev
    case Append(producer, batch) => AppendKeeps(s, producer, batch, cfg);
    case Expire(cutoff, victims) => ExpireKeeps(s, cutoff, victims, cfg);
    case Launch(cutoff, now, streamId, capacity) => LaunchKeeps(s, cutoff, now, streamId, capacity, cfg);
    case Crash => CrashKeeps(s, cfg);
    case Begin(waterline, cutoff) => BeginKeeps(s, waterline, cutoff, cfg);
    case Read => ReadKeeps(s, cfg);
    case Take => TakeKeeps(s, cfg);
    case Prepare(now, routes) => QuietKeeps(s, Input.Snapshot(now, routes), Prepared, cfg);
    case Commit => CommitKeeps(s, cfg);
    case Abort => AbortKeeps(s, cfg);
    case Announce(kind, level, detail, message) => QuietKeeps(s, Local(kind, level, detail, message), Resting, cfg);
  }

  lemma StepAges(s: System, evs: seq<Event>, ev: Event, cfg: Settings)
    requires cfg.Valid() && Inv(s, cfg) && AgesOK(s, evs) && Enabled(s, ev)
    ensures AgesOK(Apply(s, ev, cfg), evs + [ev])
  {
    hide Inv, AgesOK, Apply;
    if ev.Append? {
      AppendAges(s, evs, ev.producer, ev.batch, cfg);
    } else if ev.Expire? {
      ExpireAges(s, evs, ev.cutoff, ev.victims, cfg);
    } else if ev.Take? {
      TakeAges(s, evs, cfg);
    } else {
      OtherAges(s, evs, ev, cfg);
    }
  }

  lemma CrashKeeps(s: System, cfg: Settings)
    requires cfg.Valid() && Inv(s, cfg)
    ensures Inv(s.(process := None), cfg)
  {
    hide JournalOK, Unambiguous, Replayed, ProcessOK;
  }

  lemma StartOK(cfg: Settings)
    requires cfg.Valid()
    ensures Inv(START, cfg)
  {
  }

  /** A run: from an empty file and no process, one enabled step after another. */
  ghost predicate Runs(evs: seq<Event>, cfg: Settings)
    requires cfg.Valid()
    decreases |evs|, 0
  {
    evs == [] || (Runs(evs[..|evs| - 1], cfg) && Enabled(After(evs[..|evs| - 1], cfg), evs[|evs| - 1]))
  }

  ghost function After(evs: seq<Event>, cfg: Settings): System
    requires cfg.Valid() && Runs(evs, cfg)
    decreases |evs|, 1
  {
    if evs == [] then START else Apply(After(evs[..|evs| - 1], cfg), evs[|evs| - 1], cfg)
  }

  lemma {:induction false} EveryRun(evs: seq<Event>, cfg: Settings)
    requires cfg.Valid() && Runs(evs, cfg)
    ensures Inv(After(evs, cfg), cfg) && AgesOK(After(evs, cfg), evs) && OriginsOK(After(evs, cfg), evs)
  {
    hide Inv, AgesOK, OriginsOK, Apply, Enabled;
    if evs == [] {
      StartOK(cfg);
      StartHistory();
    } else {
      var before, last := evs[..|evs| - 1], evs[|evs| - 1];
      EveryRun(before, cfg);
      StepAll(After(before, cfg), before, last, cfg);
      assert evs == before + [last];
    }
  }

  lemma StartHistory()
    ensures AgesOK(START, []) && OriginsOK(START, [])
  {
  }

  lemma StepAll(s: System, evs: seq<Event>, ev: Event, cfg: Settings)
    requires cfg.Valid() && Enabled(s, ev) && Inv(s, cfg) && AgesOK(s, evs) && OriginsOK(s, evs)
    ensures var t := Apply(s, ev, cfg); Inv(t, cfg) && AgesOK(t, evs + [ev]) && OriginsOK(t, evs + [ev])
  {
    hide Inv, AgesOK, OriginsOK, Apply, Enabled;
    StepKeeps(s, ev, cfg);
    StepAges(s, evs, ev, cfg);
    StepOrigins(s, evs, ev, cfg);
  }

  // ---- main results ---------------------------------------------------------------------------------

  /** Exactly one input folds this row, and no input folds or passes over it or a copy of it. */
  ghost predicate FoldedOnce(inputs: seq<Input>, log: seq<Row>, n: nat)
    requires 0 < n <= |log|
  {
    exists i :: 0 <= i < |inputs| && inputs[i] == Consumed(n, Seen(log[n - 1]))
      && forall j | 0 <= j < |inputs| && Turn(inputs[j]) && j != i :: 0 < inputs[j].num <= |log| ==> !SameRecord(log[n - 1], log[inputs[j].num - 1])
  }

  /** The same observation of the same producer. */
  predicate SameRecord(a: Row, b: Row) { a.producer == b.producer && a.record.local == b.record.local }

  /** Rows take their turns in order, and no two turns are the same observation of the same producer. */
  ghost predicate OneTurnEach(inputs: seq<Input>, log: seq<Row>) {
    forall i, j | 0 <= i < j < |inputs| && Turn(inputs[i]) && Turn(inputs[j]) ::
      && 0 < inputs[i].num < inputs[j].num <= |log|
      && !SameRecord(log[inputs[i].num - 1], log[inputs[j].num - 1])
  }

  /** When its turn came the row had already aged by the cutoff of that pass. */
  ghost predicate PassedOver(inputs: seq<Input>, row: Row, evs: seq<Event>) {
    exists i :: 0 <= i < |inputs| && inputs[i].Skipped? && inputs[i].num == row.num
      && row.record.e.at <= inputs[i].cutoff && PassUsed(evs, inputs[i].cutoff)
  }

  /** Expiry deleted the row, as aged, before its turn came. */
  ghost predicate DeletedUnread(inputs: seq<Input>, row: Row, evs: seq<Event>) {
    Deleted(evs, row) && !HadTurn(inputs, row.num)
  }

  ghost predicate Accounts(inputs: seq<Input>, log: seq<Row>, evs: seq<Event>, n: nat)
    requires 0 < n <= |log|
  {
    FoldedOnce(inputs, log, n) || PassedOver(inputs, log[n - 1], evs) || DeletedUnread(inputs, log[n - 1], evs)
  }

  lemma EveryRow(inputs: seq<Input>, log: seq<Row>, expired: set<nat>, cursor: nat, evs: seq<Event>, n: nat)
    requires Logged(log) && InOrder(inputs, log, cursor) && NoneMissed(inputs, expired, cursor)
    requires SkippedOnlyAged(inputs, log, evs) && ExpiredOnlyAged(expired, log, evs)
    requires 0 < n <= cursor <= |log|
    ensures Accounts(inputs, log, evs, n)
  {
    if HadTurn(inputs, n) {
      var i :| 0 <= i < |inputs| && Turn(inputs[i]) && inputs[i].num == n;
      assert log[n - 1].num == n;
      hide Logged, NoneMissed, ExpiredOnlyAged, FoldedOnce, PassedOver, DeletedUnread, PassUsed, Deleted, HadTurn;
      if inputs[i].Consumed? {
        FoldedAt(inputs, log, cursor, i);
      } else {
        PassedAt(inputs, log, evs, i);
      }
    } else {
      hide PassUsed, Deleted, HadTurn, SkippedOnlyAged, InOrder, FoldedOnce, PassedOver;
      assert n in expired;
    }
  }

  lemma FoldedAt(inputs: seq<Input>, log: seq<Row>, cursor: nat, i: nat)
    requires Logged(log) && InOrder(inputs, log, cursor)
    requires i < |inputs| && inputs[i].Consumed? && 0 < inputs[i].num <= |log|
    ensures FoldedOnce(inputs, log, inputs[i].num)
  {
    var n := inputs[i].num;
    forall j | 0 <= j < |inputs| && Turn(inputs[j]) && j != i && 0 < inputs[j].num <= |log|
      ensures !SameRecord(log[n - 1], log[inputs[j].num - 1])
    {
      assert inputs[j].num != n;
    }
    assert inputs[i] == Consumed(n, Seen(log[n - 1]));
  }

  lemma PassedAt(inputs: seq<Input>, log: seq<Row>, evs: seq<Event>, i: nat)
    requires SkippedOnlyAged(inputs, log, evs)
    requires i < |inputs| && inputs[i].Skipped? && 0 < inputs[i].num <= |log|
    requires log[inputs[i].num - 1].num == inputs[i].num
    ensures PassedOver(inputs, log[inputs[i].num - 1], evs)
  {
    hide PassUsed;
  }

  lemma TurnsOnce(inputs: seq<Input>, log: seq<Row>, cursor: nat)
    requires Logged(log) && InOrder(inputs, log, cursor)
    ensures OneTurnEach(inputs, log)
  {
  }

  /**
   Exactly-once replay.  After every run of appends with their retries, replay, committed and failed
   publications, compaction, expiry, crashes and restarts: the saved state is the fold of its past
   into the empty engine of some launch;
   no observation takes two turns in that past, and turns come in journal order; every row up to the
   saved cursor is folded exactly once, unless it had already aged by the cutoff of the pass that
   reached it, or an expiry deleted it, as aged by its own cutoff, before any pass did; and nothing
   beyond the cursor is folded.
   */
  lemma ExactlyOnce(evs: seq<Event>, cfg: Settings)
    requires cfg.Valid() && Runs(evs, cfg)
    ensures var s := After(evs, cfg); var inputs := s.savedPast.inputs;
            s.db.checkpoint.Some? ==>
              && Booted(s.savedPast.origin, evs) && Joined(s.db) == Some(Fold(s.savedPast.origin, inputs, cfg))
              && Done(s.db) <= |s.log| && OneTurnEach(inputs, s.log)
              && (forall n: nat | 0 < n <= Done(s.db) :: Accounts(inputs, s.log, evs, n))
              && (forall i | 0 <= i < |inputs| && inputs[i].Consumed? ::
                    && 0 < inputs[i].num <= Done(s.db)
                    && var row := s.log[inputs[i].num - 1]; inputs[i].e == row.record.e.(producer := row.producer))
  {
    hide Fold, FeedOK, Accounts, OneTurnEach, Runs, Booted;
    EveryRun(evs, cfg);
    var s := After(evs, cfg);
    hide After, PassUsed, Deleted;
    if s.db.checkpoint.Some? {
      TurnsOnce(s.savedPast.inputs, s.log, Done(s.db));
      forall n: nat | 0 < n <= Done(s.db) ensures Accounts(s.savedPast.inputs, s.log, evs, n) {
        EveryRow(s.savedPast.inputs, s.log, s.expired, Done(s.db), evs, n);
      }
    }
  }

  /** The same for the process in memory: a busy database costs nothing, its progress counts. */
  lemma ExactlyOnceInMemory(evs: seq<Event>, cfg: Settings)
    requires cfg.Valid() && Runs(evs, cfg) && After(evs, cfg).process.Some?
    ensures var s := After(evs, cfg); var p := s.process.value;
            && Booted(p.past.origin, evs) && p.v == Fold(p.past.origin, p.past.inputs, cfg)
            && Done(s.db) <= p.v.cursor <= |s.log| && OneTurnEach(p.past.inputs, s.log)
            && forall n: nat | 0 < n <= p.v.cursor :: Accounts(p.past.inputs, s.log, evs, n)
  {
    hide Fold, FeedOK, Accounts, OneTurnEach, Runs, Booted;
    EveryRun(evs, cfg);
    var s := After(evs, cfg);
    var p := s.process.value;
    hide After, PassUsed, Deleted;
    TurnsOnce(p.past.inputs, s.log, p.v.cursor);
    forall n: nat | 0 < n <= p.v.cursor ensures Accounts(p.past.inputs, s.log, evs, n) {
      EveryRow(p.past.inputs, s.log, s.expired, p.v.cursor, evs, n);
    }
  }

  /** Nothing between two transactions can make the replay loop meet a gap. */
  lemma GapUnreachable(evs: seq<Event>, cfg: Settings)
    requires cfg.Valid() && Runs(evs, cfg)
    ensures var s := After(evs, cfg);
            && (s.process.Some? ==> !s.process.value.phase.Gap?)
            && (Enabled(s, Read) && ReadRows(s.db.rows, s.process.value.v.cursor, s.process.value.phase.waterline, BATCH) == [] ==>
                  s.db.retention.through >= s.process.value.phase.waterline)
  {
    EveryRun(evs, cfg);
    var s := After(evs, cfg);
    hide After, Runs;
    NoGapIn(s, cfg);
    if Enabled(s, Read) { EmptyMeansExpired(s, cfg); }
  }

  lemma NoGapIn(s: System, cfg: Settings)
    requires cfg.Valid() && Inv(s, cfg)
    ensures s.process.Some? ==> !s.process.value.phase.Gap?
  {
    hide SavedOK, JournalOK, Replayed, CacheOK, Continues, Batched;
  }

  lemma EmptyMeansExpired(s: System, cfg: Settings)
    requires cfg.Valid() && Inv(s, cfg) && Enabled(s, Read)
    ensures var p := s.process.value;
            ReadRows(s.db.rows, p.v.cursor, p.phase.waterline, BATCH) == [] ==> s.db.retention.through >= p.phase.waterline
  {
    hide SavedOK, FeedOK, Fold, InOrder, NoneMissed, CacheOK, Continues, Batched, JournalOK, ReadRows;
    var p := s.process.value;
    ReadOK(s.db, s.log, s.expired, Done(s.db), p.v.cursor, p.phase.waterline);
    if p.phase.waterline in s.expired { ReachedEnd(s.db, s.log, s.expired, Done(s.db), p.phase.waterline); }
  }

  /** Every number of the feed was published with one content only, and always on the same stream. */
  lemma NumbersNameEvents(evs: seq<Event>, cfg: Settings)
    requires cfg.Valid() && Runs(evs, cfg)
    ensures var s := After(evs, cfg);
            && (forall a, b | a in s.published && b in s.published ::
                  a.streamId == b.streamId && (a.event.num == b.event.num ==> a.event == b.event))
            && (s.db.feed.Some? ==> forall e | e in s.db.feed.value.events :: Publication(s.db.feed.value.streamId, e) in s.published)
  {
    EveryRun(evs, cfg);
    hide Runs, After, JournalOK, ProcessOK, Replayed;
  }

  /** What a pass has left to do. */
  function Remaining(p: Process): int
    requires p.phase.Replaying?
  {
    2 * (p.phase.waterline - p.v.cursor) + if p.phase.batch == [] then 1 else 0
  }

  lemma TakeShrinks(s: System, cfg: Settings)
    requires cfg.Valid() && Inv(s, cfg) && Enabled(s, Take)
    ensures var p, t := s.process.value, Apply(s, Take, cfg);
            && t.process.value.phase.Replaying? && t.process.value.phase.waterline == p.phase.waterline
            && p.v.cursor < t.process.value.v.cursor <= p.phase.waterline
  {
    hide SavedOK, FeedOK, Fold, InOrder, NoneMissed, CacheOK, Continues, JournalOK, Step;
    var p := s.process.value;
    var r := p.phase.batch[0];
    FirstOfBatch(p.phase.batch, s.log, s.expired, p.v.cursor, p.phase.waterline);
    assert r.num <= p.phase.waterline;
    TurnInput(p.v, p.past, if r.record.e.at > p.phase.cutoff then Consumed(r.num, Seen(r)) else Skipped(r.num, p.phase.cutoff), s.log, s.expired, cfg);
  }

  lemma ReadShrinks(s: System, cfg: Settings)
    requires cfg.Valid() && Inv(s, cfg) && Enabled(s, Read)
    ensures var p, t := s.process.value, Apply(s, Read, cfg);
            && t.process.value.phase.Replaying? && t.process.value.phase.waterline == p.phase.waterline
            && (t.process.value.v.cursor == p.phase.waterline
                || (t.process.value.v.cursor == p.v.cursor && t.process.value.phase.batch != []))
  {
    hide Inv, ReadRows, Step;
    ReadKeeps(s, cfg);
    NoGapIn(Apply(s, Read, cfg), cfg);
    JumpMoves(s.process.value.v, s.process.value.phase.waterline, cfg);
  }

  lemma JumpMoves(v: EngineV, n: nat, cfg: Settings)
    requires cfg.Valid()
    ensures Step(v, Jumped(n), cfg) == v.(cursor := n)
  {
  }

  /** Every read and every row reduces what is left, so a pass ends. */
  lemma PassShrinks(s: System, ev: Event, cfg: Settings)
    requires cfg.Valid() && Inv(s, cfg) && Enabled(s, ev) && (ev.Read? || ev.Take?)
    requires s.process.value.v.cursor <= s.process.value.phase.waterline
    ensures var t := Apply(s, ev, cfg);
            && t.process.Some? && t.process.value.phase.Replaying?
            && t.process.value.phase.waterline == s.process.value.phase.waterline
            && t.process.value.v.cursor <= t.process.value.phase.waterline
            && 0 <= Remaining(t.process.value) < Remaining(s.process.value)
  {
    hide Inv, Taking, Reading;
    if ev.Take? { TakeShrinks(s, cfg); } else { ReadShrinks(s, cfg); }
  }

  // ---- the loop itself ----------------------------------------------------------------------------------

  /** The run leads to this state. */
  ghost predicate Reached(s: System, evs: seq<Event>, cfg: Settings)
    requires cfg.Valid()
  {
    Runs(evs, cfg) && After(evs, cfg) == s
  }

  lemma OneMoreStep(s: System, evs: seq<Event>, ev: Event, cfg: Settings)
    requires cfg.Valid() && Reached(s, evs, cfg) && Enabled(s, ev)
    ensures Reached(Apply(s, ev, cfg), evs + [ev], cfg)
  {
    hide Enabled, Apply;
    assert (evs + [ev])[..|evs|] == evs;
  }

  lemma ReachedOK(s: System, evs: seq<Event>, cfg: Settings)
    requires cfg.Valid() && Reached(s, evs, cfg)
    ensures Inv(s, cfg) && Ascending(s.db.rows)
  {
    EveryRun(evs, cfg);
    hide Runs, After, SavedOK, ProcessOK, AgesOK;
  }

  /** Other processes' transactions, any number of them, between two of ours. */
  method Others(s: System, cfg: Settings, ghost evs: seq<Event>) returns (t: System, ghost more: seq<Event>)
    requires cfg.Valid() && Reached(s, evs, cfg)
    ensures Reached(t, more, cfg) && evs <= more && t.process == s.process
  {
    hide Reached, Apply, Oldest;
    t, more := s, evs;
    var turns: nat := *;
    while turns > 0
      invariant Reached(t, more, cfg) && evs <= more && t.process == s.process
    {
      turns := turns - 1;
      var ev: Event := *;
      if ev.Append? {
        t, more := OtherAppends(t, ev.producer, ev.batch, cfg, more);
      } else if ev.Expire? {
        t, more := OtherExpires(t, ev.cutoff, cfg, more);
      }
    }
  }

  method OtherAppends(s: System, producer: string, batch: seq<Record>, cfg: Settings, ghost evs: seq<Event>)
    returns (t: System, ghost more: seq<Event>)
    requires cfg.Valid() && Reached(s, evs, cfg)
    ensures Reached(t, more, cfg) && evs <= more && t.process == s.process
  {
    hide Reached;
    OneMoreStep(s, evs, Append(producer, batch), cfg);
    t, more := Apply(s, Append(producer, batch), cfg), evs + [Append(producer, batch)];
  }

  method OtherExpires(s: System, cutoff: real, cfg: Settings, ghost evs: seq<Event>) returns (t: System, ghost more: seq<Event>)
    requires cfg.Valid() && Reached(s, evs, cfg)
    ensures Reached(t, more, cfg) && evs <= more && t.process == s.process
  {
    hide Reached, Inv;
    ReachedOK(s, evs, cfg);
    var victims := ChooseOldest(s.db.rows, cutoff);
    OneMoreStep(s, evs, Expire(cutoff, victims), cfg);
    t, more := Apply(s, Expire(cutoff, victims), cfg), evs + [Expire(cutoff, victims)];
  }

  /** One read or one row, after whatever the others did first. */
  method Advance(s0: System, cfg: Settings, ghost evs: seq<Event>) returns (s: System, ghost more: seq<Event>)
    requires cfg.Valid() && Reached(s0, evs, cfg) && s0.process.Some? && s0.process.value.phase.Replaying?
    requires s0.process.value.phase.batch != [] || s0.process.value.v.cursor < s0.process.value.phase.waterline
    requires s0.process.value.v.cursor <= s0.process.value.phase.waterline
    ensures Reached(s, more, cfg) && evs <= more && s.process.Some? && s.process.value.phase.Replaying?
    ensures s.process.value.phase.waterline == s0.process.value.phase.waterline
    ensures s.process.value.v.cursor <= s.process.value.phase.waterline
    ensures 0 <= Remaining(s.process.value) < Remaining(s0.process.value)
  {
    hide Inv, Reached, Apply;
    var t;
    t, more := Others(s0, cfg, evs);
    var ev := if t.process.value.phase.batch == [] then Read else Take;
    ReachedOK(t, more, cfg);
    PassShrinks(t, ev, cfg);
    OneMoreStep(t, more, ev, cfg);
    s, more := Apply(t, ev, cfg), more + [ev];
  }

  /**
   The replay loop of `step`, with other processes acting before every transaction: it ends, it ends
   at the waterline read at its start, and all of it is a run of the exchange.
   */
  method CatchUp(s0: System, cfg: Settings, ghost evs: seq<Event>) returns (s: System, ghost more: seq<Event>)
    requires cfg.Valid() && Reached(s0, evs, cfg)
    requires s0.process.Some? && s0.process.value.phase.Replaying? && s0.process.value.v.cursor <= s0.process.value.phase.waterline
    ensures Reached(s, more, cfg) && evs <= more && Enabled(s, Prepare(0.0, []))
    ensures s.process.value.phase.waterline == s0.process.value.phase.waterline == s.process.value.v.cursor
  {
    hide Reached;
    s, more := s0, evs;
    while s.process.value.phase.batch != [] || s.process.value.v.cursor < s.process.value.phase.waterline
      invariant Reached(s, more, cfg) && evs <= more && s.process.Some? && s.process.value.phase.Replaying?
      invariant s.process.value.phase.waterline == s0.process.value.phase.waterline
      invariant s.process.value.v.cursor <= s.process.value.phase.waterline
      decreases Remaining(s.process.value)
    {
      s, more := Advance(s, cfg, more);
    }
  }

  /** A pass starts at or below its waterline: the highest watermark is the last row ever appended. */
  lemma BeginsBelow(s: System, waterline: nat, cutoff: real, cfg: Settings)
    requires cfg.Valid() && Inv(s, cfg) && Enabled(s, Begin(waterline, cutoff))
    ensures s.process.value.v.cursor <= waterline == |s.log|
  {
    HighwaterIsLast(s.db, s.log, s.expired, Done(s.db));
    hide JournalOK, SavedOK, FeedOK, Fold, InOrder, NoneMissed, CacheOK, Continues, IsHighwater;
  }

  /** The revision moves exactly when a publication commits, and then by one. */
  lemma RevisionsRise(s: System, ev: Event, cfg: Settings)
    requires cfg.Valid() && Inv(s, cfg) && Enabled(s, ev)
    ensures Apply(s, ev, cfg).db.revision == s.db.revision + if ev.Commit? then 1 else 0
  {
    if ev.Append? { AppendOK(s.db, s.log, s.expired, Done(s.db), ev.producer, ev.batch); }
    hide JournalOK, SavedOK, Replayed, CacheOK, Continues, PhaseOK, Step, Appended, LogAppended;
  }

  // ---- learned capacity across restarts -----------------------------------------------------------------

  /**
   In every run, whatever was saved, lost, expired or replayed: a route's learned maximum in the
   saved state is the best rate its history proved or the one first loaded, whichever is larger, and
   outside usage lies between zero and it.
   */
  lemma CapacitySurvives(evs: seq<Event>, key: Key, cfg: Settings)
    requires cfg.Valid() && Runs(evs, cfg)
    ensures var s := After(evs, cfg); var past := s.savedPast;
            Joined(s.db).Some? ==>
              var r := Lookup(Joined(s.db).value, key);
              && Booted(past.origin, evs) && CapacityOK(Joined(s.db).value)
              && r.safeRpm == Max(Saved(past.origin, key), BestEarned(past.origin, past.inputs, key, cfg))
              && 0.0 <= r.otherRpm <= r.safeRpm
  {
    hide Fold, FeedOK, FoldedOnce, Runs, After, CapacityOK, Lookup, Saved, BestEarned, Group, Booted;
    ExactlyOnce(evs, cfg);
    var s := After(evs, cfg);
    if Joined(s.db).Some? {
      BootedOK(s.savedPast.origin, evs);
      LearnedCapacity(s.savedPast.origin, s.savedPast.inputs, key, cfg);
    }
  }
}
