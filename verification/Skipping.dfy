/**
 Publications that skip the checkpoint: when nothing but snapshots happened since the last one, the
 file keeps the checkpoint it has.  What the process then holds beyond it is nothing that a crash
 could lose.
 */
module Skipping {
  import opened Prelude
  import opened Ledger
  import Penalties
  import opened Quota
  import opened EngineModel
  import opened EngineFacts
  import Histories
  import Recovery
  import opened Journal
  import opened Exchange

  // ---- what happened since the last commit ------------------------------------------------------

  /** Nothing moved the cursor or the feed since the process last committed. */
  predicate Idle(p: Process) { p.cache.Cache? && p.v.cursor == p.cache.cursor && p.v.eventSeq == p.cache.key.next }

  /** Up to `n` both pasts are one; since then the file was only aged, and an idle process took snapshots only. */
  ghost predicate Parted(past: Past, saved: Past, n: nat, idle: bool) {
    && past.origin == saved.origin && n <= |past.inputs| && n <= |saved.inputs| && past.inputs[..n] == saved.inputs[..n]
    && (forall i | n <= i < |saved.inputs| :: saved.inputs[i].Age? || saved.inputs[i].AgeFeed?)
    && (idle ==> forall i | n <= i < |past.inputs| :: past.inputs[i].Snapshot?)
  }

  ghost predicate SinceOK(s: System) {
    s.process.Some? && s.process.value.cache.Cache? ==>
      exists n: nat :: Parted(s.process.value.past, s.savedPast, n, Idle(s.process.value))
  }

  lemma SavedAges(past: Past, saved: Past, n: nat, idle: bool, i: Input)
    requires Parted(past, saved, n, idle) && (i.Age? || i.AgeFeed?)
    ensures Parted(past, saved.(inputs := saved.inputs + [i]), n, idle)
  {
  }

  lemma ProcessMoves(past: Past, saved: Past, n: nat, idle: bool, i: Input, still: bool)
    requires Parted(past, saved, n, idle) && (still ==> idle && i.Snapshot?)
    ensures Parted(past.(inputs := past.inputs + [i]), saved, n, still)
  {
  }

  lemma JustCommitted(past: Past, i: Input)
    ensures Parted(past, past, |past.inputs|, true)
    ensures i.Age? || i.AgeFeed? ==> Parted(past, past.(inputs := past.inputs + [i]), |past.inputs|, true)
  {
  }

  /** A step of the process after which it is idle only if it was, and then by a snapshot. */
  lemma MoveSince(s: System, q: Process, i: Input)
    requires SinceOK(s) && s.process.Some?
    requires q.cache == s.process.value.cache && q.past == s.process.value.past.(inputs := s.process.value.past.inputs + [i])
    requires Idle(q) ==> Idle(s.process.value) && i.Snapshot?
    ensures SinceOK(s.(process := Some(q)))
  {
    hide Parted;
    var p := s.process.value;
    if p.cache.Cache? {
      var n: nat :| Parted(p.past, s.savedPast, n, Idle(p));
      ProcessMoves(p.past, s.savedPast, n, Idle(p), i, Idle(q));
    }
  }

  /** The compact keys lie at or below the process's cursor and feed number. */
  lemma CacheBelow(s: System, cfg: Settings)
    requires cfg.Valid() && Inv(s, cfg) && s.process.Some? && s.process.value.cache.Cache?
    ensures s.process.value.cache.cursor <= s.process.value.v.cursor
    ensures s.process.value.cache.key.next <= s.process.value.v.eventSeq
  {
    hide JournalOK, SavedOK, Replayed, PhaseOK;
  }

  lemma ExpireSince(s: System, cutoff: real, victims: set<nat>, cfg: Settings)
    requires cfg.Valid() && SinceOK(s) && Enabled(s, Expire(cutoff, victims))
    ensures SinceOK(Apply(s, Expire(cutoff, victims), cfg))
  {
    hide Parted, Expired, Oldest;
    if s.process.Some? && s.process.value.cache.Cache? {
      var p := s.process.value;
      var n: nat :| Parted(p.past, s.savedPast, n, Idle(p));
      SavedAges(p.past, s.savedPast, n, Idle(p), Input.Age(cutoff));
    }
  }

  lemma CommitSince(s: System, cfg: Settings)
    requires cfg.Valid() && SinceOK(s) && Enabled(s, Commit)
    ensures SinceOK(Apply(s, Commit, cfg))
  {
    hide Parted, Published, Epoch;
    var p, t := s.process.value, Committed(s, s.process.value);
    JustCommitted(p.past, AgeFeed(if s.feedCut.Some? then s.feedCut.value else 0.0));
    if !WritesFeed(p.cache, p.v) && !WritesCheckpoint(p.cache, p.v) {
      assert Idle(p);
      var n: nat :| Parted(p.past, s.savedPast, n, Idle(p));
      assert Parted(t.process.value.past, t.savedPast, n, Idle(t.process.value));
    } else {
      assert Idle(t.process.value);
      assert Parted(t.process.value.past, t.savedPast, |p.past.inputs|, Idle(t.process.value));
    }
  }

  lemma TakeSince(s: System, cfg: Settings)
    requires cfg.Valid() && Inv(s, cfg) && SinceOK(s) && Enabled(s, Take)
    ensures SinceOK(Apply(s, Take, cfg))
  {
    hide SinceOK, Inv, Step;
    var p, t := s.process.value, Apply(s, Take, cfg);
    TakeShrinks(s, cfg);
    if p.cache.Cache? { CacheBelow(s, cfg); }
    MoveSince(s, t.process.value, TurnOf(p.phase.batch[0], p.phase.cutoff));
  }

  lemma ReadSince(s: System, cfg: Settings)
    requires cfg.Valid() && Inv(s, cfg) && SinceOK(s) && Enabled(s, Read)
    ensures SinceOK(Apply(s, Read, cfg))
  {
    hide Parted, Inv, ReadRows;
    var p, t := s.process.value, Apply(s, Read, cfg);
    if p.cache.Cache? { CacheBelow(s, cfg); }
    var b := ReadRows(s.db.rows, p.v.cursor, p.phase.waterline, BATCH);
    if b == [] && s.db.retention.through >= p.phase.waterline {
      JumpMoves(p.v, p.phase.waterline, cfg);
      MoveSince(s, t.process.value, Jumped(p.phase.waterline));
    } else {
      SameProcess(s, t.process.value);
    }
  }

  lemma QuietSince(s: System, i: Input, phase: Phase, cfg: Settings)
    requires cfg.Valid() && Inv(s, cfg) && SinceOK(s) && s.process.Some? && (i.Snapshot? || i.Local?)
    ensures SinceOK(s.(process := Some(Did(s.process.value, i, cfg).(phase := phase))))
  {
    hide SinceOK, Inv, Aged, Weighed;
    var p, q := s.process.value, Did(s.process.value, i, cfg).(phase := phase);
    if p.cache.Cache? { CacheBelow(s, cfg); }
    if i.Snapshot? {
      var w := Aged(p.v.(now := i.now, retentionThrough := Through(p.v.events, Horizon(i.now), p.v.retentionThrough)), Horizon(i.now));
      WeighedKeepsFeed(w, i.routes, cfg);
      AgedNumbers(p.v.(now := i.now, retentionThrough := Through(p.v.events, Horizon(i.now), p.v.retentionThrough)), Horizon(i.now));
    }
    MoveSince(s, q, i);
  }

  lemma AgedNumbers(v: EngineV, cutoff: real)
    ensures Aged(v, cutoff).cursor == v.cursor && Aged(v, cutoff).eventSeq == v.eventSeq
  {
  }

  lemma StepSince(s: System, ev: Event, cfg: Settings)
    requires cfg.Valid() && Inv(s, cfg) && SinceOK(s) && Enabled(s, ev)
    ensures SinceOK(Apply(s, ev, cfg))
  {
    hide Inv, Parted, Step, Restored, Published, ReadRows, Oldest, IsHighwater, Expired, Appended, LogAppended;
    match ev
    case Expire(cutoff, victims) => ExpireSince(s, cutoff, victims, cfg);
    case Read => ReadSince(s, cfg);
    case Take => TakeSince(s, cfg);
    case Prepare(now, routes) => QuietSince(s, Input.Snapshot(now, routes), Prepared, cfg);
    case Commit => CommitSince(s, cfg);
    case Announce(kind, level, detail, message) => QuietSince(s, Local(kind, level, detail, message), Resting, cfg);
    case Append(producer, batch) =>
    case Launch(cutoff, now, streamId, capacity) =>
    case Crash =>
    case Begin(waterline, cutoff) => SameProcess(s, s.process.value.(phase := Replaying(waterline, cutoff, [])));
    case Abort => SameProcess(s, s.process.value.(phase := Resting));
  }

  lemma SameProcess(s: System, q: Process)
    requires SinceOK(s) && s.process.Some? && q == s.process.value.(phase := q.phase)
    ensures SinceOK(s.(process := Some(q)))
  {
    hide Parted;
    assert Idle(q) == Idle(s.process.value);
  }

  lemma {:induction false} EverySince(evs: seq<Event>, cfg: Settings)
    requires cfg.Valid() && Runs(evs, cfg)
    ensures SinceOK(After(evs, cfg))
  {
    if evs != [] {
      hide Inv, SinceOK, Apply, Enabled, AgesOK, OriginsOK;
      EverySince(evs[..|evs| - 1], cfg);
      EveryRun(evs[..|evs| - 1], cfg);
      StepSince(After(evs[..|evs| - 1], cfg), evs[|evs| - 1], cfg);
    }
  }

  // ---- what a crash could lose ---------------------------------------------------------------------

  /** A route's state but for its ledger and its penalty. */
  function Plain(r: RouteV): RouteV { r.(sent := [], backoff := Penalties.FRESH) }

  /** Of what `w` holds, `v` holds everything: `w` was only aged and weighed further. */
  ghost predicate Within(w: EngineV, v: EngineV) {
    && w.capacity == v.capacity
    && (forall k :: Plain(Lookup(w, k)) == Plain(Lookup(v, k)))
    && (forall k, e | e in Histories.LedgerOf(w, k) :: e in Histories.LedgerOf(v, k))
    && (forall id | id in w.pending :: id in v.pending && v.pending[id] == w.pending[id])
  }

  lemma WithinTwice(u: EngineV, v: EngineV, w: EngineV)
    requires Within(w, v) && Within(v, u)
    ensures Within(w, u)
  {
    hide Lookup, Plain, Histories.LedgerOf;
  }

  lemma {:induction false} WeighedWithin(v: EngineV, routes: seq<Key>, cfg: Settings)
    requires cfg.Valid()
    ensures Within(Weighed(v, routes, cfg), v)
  {
    if routes != [] {
      hide Weighed, Within;
      var w := Weighed(v, routes[..|routes| - 1], cfg);
      WeighedWithin(v, routes[..|routes| - 1], cfg);
      LookWithin(w, routes[|routes| - 1], cfg);
      WithinTwice(v, w, With(w, routes[|routes| - 1], Decayed(Lookup(w, routes[|routes| - 1]), w.now, cfg)));
      WeighedStep(v, routes, cfg);
    } else {
      SelfWithin(v);
    }
  }

  lemma SelfWithin(v: EngineV)
    ensures Within(v, v)
  {
  }

  lemma WeighedStep(v: EngineV, routes: seq<Key>, cfg: Settings)
    requires cfg.Valid() && routes != []
    ensures var w := Weighed(v, routes[..|routes| - 1], cfg); var k := routes[|routes| - 1];
            Weighed(v, routes, cfg) == With(w, k, Decayed(Lookup(w, k), w.now, cfg))
  {
  }

  lemma LookWithin(v: EngineV, key: Key, cfg: Settings)
    ensures Within(With(v, key, Decayed(Lookup(v, key), v.now, cfg)), v)
  {
  }

  lemma AgedWithin(v: EngineV, cutoff: real)
    ensures Within(Aged(v, cutoff), v)
  {
    forall k, e | e in Histories.LedgerOf(Aged(v, cutoff), k) ensures e in Histories.LedgerOf(v, k) {
      Histories.AgedLedger(v, cutoff, k);
      Recovery.KeepMembers(Histories.LedgerOf(v, k), cutoff);
    }
    hide Keep;
  }

  lemma SnapshotWithin(v: EngineV, i: Input, cfg: Settings)
    requires cfg.Valid() && i.Snapshot?
    ensures Within(Step(v, i, cfg), v)
  {
    hide Within, Weighed, Aged;
    var w := v.(now := i.now, retentionThrough := Through(v.events, Horizon(i.now), v.retentionThrough));
    WeighedWithin(Aged(w, Horizon(i.now)), i.routes, cfg);
    AgedWithin(w, Horizon(i.now));
    WithinTwice(w, Aged(w, Horizon(i.now)), Step(v, i, cfg));
    SameWithin(v, w);
    WithinTwice(v, w, Step(v, i, cfg));
  }

  lemma SameWithin(v: EngineV, w: EngineV)
    requires w.capacity == v.capacity && w.states == v.states && w.pending == v.pending
    ensures Within(w, v)
  {
  }

  lemma {:induction false} SnapshotsWithin(origin: EngineV, inputs: seq<Input>, n: nat, cfg: Settings)
    requires cfg.Valid() && n <= |inputs| && forall i | n <= i < |inputs| :: inputs[i].Snapshot?
    ensures Within(Fold(origin, inputs, cfg), Fold(origin, inputs[..n], cfg))
    decreases |inputs|
  {
    hide Within, Step;
    if n == |inputs| {
      assert inputs[..n] == inputs;
      SelfWithin(Fold(origin, inputs, cfg));
    } else {
      var before, last := inputs[..|inputs| - 1], inputs[|inputs| - 1];
      assert before[..n] == inputs[..n];
      SnapshotsWithin(origin, before, n, cfg);
      SnapshotWithin(Fold(origin, before, cfg), last, cfg);
      WithinTwice(Fold(origin, inputs[..n], cfg), Fold(origin, before, cfg), Fold(origin, inputs, cfg));
    }
  }

  /** Expiry aged this instant in the file. */
  ghost predicate AgedInFile(inputs: seq<Input>, n: nat, at: real) {
    exists i :: n <= i < |inputs| && inputs[i].Age? && at <= inputs[i].cutoff
  }

  /** Of what `v` holds, `u` holds everything that was not aged in the file meanwhile. */
  ghost predicate Surviving(u: EngineV, v: EngineV, inputs: seq<Input>, n: nat) {
    && u.capacity == v.capacity
    && (forall k :: Lookup(u, k) == Lookup(v, k).(sent := Histories.LedgerOf(u, k)))
    && (forall k, e | e in Histories.LedgerOf(v, k) && !AgedInFile(inputs, n, e.at) :: e in Histories.LedgerOf(u, k))
    && (forall id | id in v.pending && !AgedInFile(inputs, n, v.pending[id].entry.at) ::
          id in u.pending && u.pending[id] == v.pending[id])
  }

  lemma {:induction false} KeptAfterAge(s: seq<EntryV>, cutoff: real, e: EntryV)
    requires e in s && e.at > cutoff
    ensures e in Keep(s, cutoff)
  {
    var front, last := s[..|s| - 1], s[|s| - 1];
    assert s == front + [last];
    if e in front { KeptAfterAge(front, cutoff, e); }
  }

  lemma AgedLater(inputs: seq<Input>, n: nat, i: Input, at: real)
    requires n <= |inputs|
    ensures AgedInFile(inputs, n, at) || (i.Age? && at <= i.cutoff) ==> AgedInFile(inputs + [i], n, at)
  {
    var more := inputs + [i];
    assert more[|inputs|] == i;
    if AgedInFile(inputs, n, at) {
      var j :| n <= j < |inputs| && inputs[j].Age? && at <= inputs[j].cutoff;
      assert more[j] == inputs[j];
    }
  }

  /** What ageing leaves of an engine. */
  lemma AgedLeaves(u: EngineV, cutoff: real)
    ensures var w := Aged(u, cutoff);
            && w.capacity == u.capacity
            && (forall k :: Lookup(w, k) == Lookup(u, k).(sent := Histories.LedgerOf(w, k)))
            && (forall k, e | e in Histories.LedgerOf(u, k) && e.at > cutoff :: e in Histories.LedgerOf(w, k))
            && (forall id | id in u.pending && u.pending[id].entry.at > cutoff :: id in w.pending && w.pending[id] == u.pending[id])
  {
    hide Keep;
    forall k, e | e in Histories.LedgerOf(u, k) && e.at > cutoff ensures e in Histories.LedgerOf(Aged(u, cutoff), k) {
      Histories.AgedLedger(u, cutoff, k);
      KeptAfterAge(Histories.LedgerOf(u, k), cutoff, e);
    }
  }

  lemma AgeSurvives(u: EngineV, v: EngineV, inputs: seq<Input>, n: nat, i: Input, cfg: Settings)
    requires cfg.Valid() && Surviving(u, v, inputs, n) && n <= |inputs| && (i.Age? || i.AgeFeed?)
    ensures Surviving(Step(u, i, cfg), v, inputs + [i], n)
  {
    hide AgedInFile, Aged, Lookup, Histories.LedgerOf;
    forall at ensures AgedInFile(inputs, n, at) || (i.Age? && at <= i.cutoff) ==> AgedInFile(inputs + [i], n, at) {
      AgedLater(inputs, n, i, at);
    }
    if i.Age? { AgedLeaves(u, i.cutoff); } else { FeedOnly(u, Step(u, i, cfg)); }
  }

  lemma FeedOnly(u: EngineV, w: EngineV)
    requires w == u.(events := w.events)
    ensures forall k :: Lookup(w, k) == Lookup(u, k) && Histories.LedgerOf(w, k) == Histories.LedgerOf(u, k)
  {
  }

  lemma {:induction false} AgeingSurvives(origin: EngineV, inputs: seq<Input>, n: nat, cfg: Settings)
    requires cfg.Valid() && n <= |inputs| && forall i | n <= i < |inputs| :: inputs[i].Age? || inputs[i].AgeFeed?
    ensures Surviving(Fold(origin, inputs, cfg), Fold(origin, inputs[..n], cfg), inputs, n)
    decreases |inputs|
  {
    if n == |inputs| {
      assert inputs[..n] == inputs;
    } else {
      hide Surviving, Step;
      var before, last := inputs[..|inputs| - 1], inputs[|inputs| - 1];
      assert before[..n] == inputs[..n] && inputs == before + [last];
      AgeingSurvives(origin, before, n, cfg);
      AgeSurvives(Fold(origin, before, cfg), Fold(origin, inputs[..n], cfg), before, n, last, cfg);
    }
  }

  // ---- penalties ------------------------------------------------------------------------------------

  /** The snapshots since `n` are no later than `now`. */
  ghost predicate NoLater(inputs: seq<Input>, n: nat, now: real) {
    forall i | n <= i < |inputs| && inputs[i].Snapshot? :: inputs[i].now <= now
  }

  lemma {:induction false} SnapshotsForgotten(origin: EngineV, inputs: seq<Input>, n: nat, key: Key, now: real, cfg: Settings)
    requires cfg.Valid() && n <= |inputs| && NoLater(inputs, n, now) && forall i | n <= i < |inputs| :: inputs[i].Snapshot?
    ensures var b, c := Histories.BackoffOf(Fold(origin, inputs, cfg), key), Histories.BackoffOf(Fold(origin, inputs[..n], cfg), key);
            && b.until == c.until
            && Penalties.Decay(b, now, cfg.policy.halflife).penalty == Penalties.Decay(c, now, cfg.policy.halflife).penalty
    decreases |inputs|
  {
    hide Step, Penalties.Decay, Histories.BackoffOf;
    if n == |inputs| {
      assert inputs[..n] == inputs;
    } else {
      var before, last := inputs[..|inputs| - 1], inputs[|inputs| - 1];
      assert before[..n] == inputs[..n] && last.now <= now;
      SnapshotsForgotten(origin, before, n, key, now, cfg);
      Histories.StepBackoff(Fold(origin, before, cfg), last, key, cfg);
      Penalties.DecayLater(Histories.BackoffOf(Fold(origin, before, cfg), key), last.now, now, cfg.policy.halflife);
    }
  }

  /** The file's engine `u` has all that the process's engine `w` has, but for what the file aged since. */
  ghost predicate LosesNothing(w: EngineV, u: EngineV, saved: seq<Input>, n: nat, key: Key) {
    && u.capacity == w.capacity && Plain(Lookup(u, key)) == Plain(Lookup(w, key))
    && (forall e | e in Histories.LedgerOf(w, key) && !AgedInFile(saved, n, e.at) :: e in Histories.LedgerOf(u, key))
    && (forall id | id in w.pending && !AgedInFile(saved, n, w.pending[id].entry.at) ::
          id in u.pending && u.pending[id] == w.pending[id])
  }

  lemma SurvivingLosesNothing(w: EngineV, u: EngineV, v: EngineV, saved: seq<Input>, n: nat, key: Key)
    requires Within(w, v) && Surviving(u, v, saved, n)
    ensures LosesNothing(w, u, saved, n, key) && Lookup(u, key).backoff == Lookup(v, key).backoff
  {
    hide AgedInFile, Lookup;
  }

  lemma PartedLosesNothing(past: Past, saved: Past, n: nat, key: Key, cfg: Settings)
    requires cfg.Valid() && Parted(past, saved, n, true)
    ensures LosesNothing(Fold(past.origin, past.inputs, cfg), Fold(saved.origin, saved.inputs, cfg), saved.inputs, n, key)
    ensures Lookup(Fold(saved.origin, saved.inputs, cfg), key).backoff == Lookup(Fold(past.origin, past.inputs[..n], cfg), key).backoff
  {
    hide Fold, Within, Surviving, LosesNothing, Lookup;
    SnapshotsWithin(past.origin, past.inputs, n, cfg);
    AgeingSurvives(saved.origin, saved.inputs, n, cfg);
    SurvivingLosesNothing(Fold(past.origin, past.inputs, cfg), Fold(saved.origin, saved.inputs, cfg),
                          Fold(past.origin, past.inputs[..n], cfg), saved.inputs, n, key);
  }

  /** The same penalty at `now`. */
  ghost predicate SamePenalty(a: Penalties.Backoff, b: Penalties.Backoff, now: real, h: real) {
    a.until == b.until && Penalties.Decay(a, now, h).penalty == Penalties.Decay(b, now, h).penalty
  }

  /**
   A skipped write loses nothing.  When a publication finds both keys unchanged and leaves checkpoint
   and feed as they are, process and file part at one common state: the process took snapshots since,
   and the file was aged.  So the file has the process's cursor, feed number, learned capacities and
   counters; every ledger entry and every pending attempt the process holds, unless expiry aged it
   since; and at any instant not before those snapshots, the same penalties.
   */
  lemma SkippedWriteLosesNothing(evs: seq<Event>, key: Key, now: real, cfg: Settings) returns (n: nat)
    requires cfg.Valid() && Runs(evs, cfg) && Enabled(After(evs, cfg), Commit)
    requires var p := After(evs, cfg).process.value; !WritesCheckpoint(p.cache, p.v)
    ensures var s := After(evs, cfg); var p := s.process.value;
            && Joined(s.db).Some? && Joined(s.db).value.cursor == p.v.cursor && Joined(s.db).value.eventSeq == p.v.eventSeq
            && Parted(p.past, s.savedPast, n, true)
            && LosesNothing(p.v, Joined(s.db).value, s.savedPast.inputs, n, key)
            && (NoLater(p.past.inputs, n, now) ==>
                  SamePenalty(Lookup(Joined(s.db).value, key).backoff, Lookup(p.v, key).backoff, now, cfg.policy.halflife))
  {
    hide After, Runs, Inv, SinceOK, Fold, Penalties.Decay, LosesNothing, Lookup, NoLater, WritesCheckpoint;
    EverySince(evs, cfg);
    EveryRun(evs, cfg);
    var s := After(evs, cfg);
    n := CommonPoint(s, cfg);
    var past := s.process.value.past;
    FoldsPart(s, cfg);
    PartedLosesNothing(past, s.savedPast, n, key, cfg);
    if NoLater(past.inputs, n, now) { SnapshotsForgotten(past.origin, past.inputs, n, key, now, cfg); }
  }

  lemma CommonPoint(s: System, cfg: Settings) returns (n: nat)
    requires cfg.Valid() && SinceOK(s) && s.process.Some? && !WritesCheckpoint(s.process.value.cache, s.process.value.v)
    ensures Parted(s.process.value.past, s.savedPast, n, true)
  {
    hide Parted, Epoch;
    assert Idle(s.process.value);
    n :| Parted(s.process.value.past, s.savedPast, n, Idle(s.process.value));
  }

  lemma FoldsPart(s: System, cfg: Settings)
    requires cfg.Valid() && Inv(s, cfg) && Enabled(s, Commit) && !WritesCheckpoint(s.process.value.cache, s.process.value.v)
    ensures s.process.value.v == Fold(s.process.value.past.origin, s.process.value.past.inputs, cfg)
    ensures Joined(s.db) == Some(Fold(s.savedPast.origin, s.savedPast.inputs, cfg))
    ensures Joined(s.db).value.cursor == s.process.value.v.cursor && Joined(s.db).value.eventSeq == s.process.value.v.eventSeq
  {
    hide JournalOK, PhaseOK, Unambiguous, InOrder, NoneMissed, FeedOK, Fold, Epoch;
  }
}
