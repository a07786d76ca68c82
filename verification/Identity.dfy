/**
 Attempt ids over whole runs.  If the journal dispatches each id once, then in every engine that was
 ever saved or is running, ids tell attempts apart, and every row still to come brings a fresh one.
 That is what restoring a checkpoint and replaying on objects rely on.
 */
module Identity {
  import opened Prelude
  import opened Ledger
  import opened Levels
  import opened Quota
  import opened EngineModel
  import opened Histories
  import opened Recovery
  import opened Journal
  import EngineFacts
  import Exchange
  import Pass

  // ---- one input --------------------------------------------------------------------------------

  lemma LocatedInLedger(v: EngineV)
    ensures forall k, i: nat, id ::
              Located(v, k, i, id) <==> i < |LedgerOf(v, k)| && LedgerOf(v, k)[i].attempt == Some(id)
  {
  }

  /** The same ledgers, and pending attempts with the same entries, if fewer. */
  ghost predicate SameAttempts(v: EngineV, w: EngineV) {
    && (forall k :: LedgerOf(w, k) == LedgerOf(v, k))
    && (forall id | id in w.pending :: id in v.pending && w.pending[id].entry == v.pending[id].entry)
  }

  lemma SameIdentity(v: EngineV, w: EngineV)
    requires IdentityOK(v) && SameAttempts(v, w)
    ensures IdentityOK(w)
  {
    LocatedInLedger(v);
    LocatedInLedger(w);
    hide LedgerOf;
    forall k, i: nat, l, j: nat, id | Located(w, k, i, id) && Located(w, l, j, id) ensures k == l && i == j {
      assert Located(v, k, i, id) && Located(v, l, j, id);
    }
    forall id, k, i: nat | id in w.pending && Located(w, k, i, id) ensures w.states[k].sent[i] == w.pending[id].entry {
      assert Located(v, k, i, id);
      SameEntry(v, k, i, id);
      SameEntry(w, k, i, id);
    }
  }

  lemma SameEntry(v: EngineV, k: Key, i: nat, id: Id)
    requires Located(v, k, i, id)
    ensures i < |LedgerOf(v, k)| && v.states[k].sent[i] == LedgerOf(v, k)[i]
  {
  }

  lemma {:induction false} DropIs(s: seq<EntryV>, cutoff: real) returns (d: nat)
    ensures d <= |s| && DropLeading(s, cutoff) == s[d..]
  {
    d := 0;
    if s != [] && s[0].at < cutoff {
      var less := DropIs(s[1..], cutoff);
      d := less + 1;
    }
  }

  /** One route gained an entry with an unused id, behind what pruning left, and the attempt is pending with it. */
  ghost predicate Gained(v: EngineV, w: EngineV, key: Key, d: nat, e: EntryV, id: Id) {
    && d <= |LedgerOf(v, key)| && LedgerOf(w, key) == LedgerOf(v, key)[d..] + [e] && e.attempt == Some(id)
    && (forall k | k != key :: LedgerOf(w, k) == LedgerOf(v, k))
    && id in w.pending && w.pending[id].entry == e
    && (forall x | x in w.pending && x != id :: x in v.pending && w.pending[x].entry == v.pending[x].entry)
  }

  lemma GainedFrom(v: EngineV, w: EngineV, key: Key, d: nat, e: EntryV, id: Id, k: Key, i: nat, x: Id)
    requires Gained(v, w, key, d, e, id) && Unlocated(v, id) && Located(w, k, i, x)
    ensures if x == id then k == key && i == |LedgerOf(w, key)| - 1 && w.states[k].sent[i] == e
            else var j := if k == key then d + i else i; Located(v, k, j, x) && v.states[k].sent[j] == w.states[k].sent[i]
  {
    LocatedInLedger(v);
    LocatedInLedger(w);
    SameEntry(w, k, i, x);
    var j := if k == key then d + i else i;
    hide LedgerOf;
    if k == key && i == |LedgerOf(w, key)| - 1 {
      assert LedgerOf(w, k)[i] == e;
    } else {
      assert LedgerOf(w, k)[i] == LedgerOf(v, k)[j];
      assert Located(v, k, j, x);
      SameEntry(v, k, j, x);
    }
  }

  lemma GainedIdentity(v: EngineV, w: EngineV, key: Key, d: nat, e: EntryV, id: Id)
    requires IdentityOK(v) && Gained(v, w, key, d, e, id) && Unlocated(v, id)
    ensures IdentityOK(w)
  {
    forall k, i: nat, l, j: nat, x | Located(w, k, i, x) && Located(w, l, j, x) ensures k == l && i == j {
      GainedFrom(v, w, key, d, e, id, k, i, x);
      GainedFrom(v, w, key, d, e, id, l, j, x);
    }
    hide Located, LedgerOf;
    forall x, k, i: nat | x in w.pending && Located(w, k, i, x) ensures w.states[k].sent[i] == w.pending[x].entry {
      GainedFrom(v, w, key, d, e, id, k, i, x);
    }
    forall x | x in w.pending ensures w.pending[x].entry.attempt == Some(x) {
      assert x != id ==> v.pending[x].entry.attempt == Some(x);
    }
  }

  lemma PricedIdentity(v: EngineV, id: Id, tokens: real)
    requires IdentityOK(v) && id in v.pending
    ensures IdentityOK(Priced(v, id, tokens))
  {
    var w := Priced(v, id, tokens);
    forall k, i: nat, x | Located(w, k, i, x)
      ensures Located(v, k, i, x) && w.states[k].sent[i] == if x == id then v.states[k].sent[i].(tokens := tokens) else v.states[k].sent[i]
    {
    }
    forall k, i: nat, l, j: nat, x | Located(w, k, i, x) && Located(w, l, j, x) ensures k == l && i == j {
      assert Located(v, k, i, x) && Located(v, l, j, x);
    }
    forall x, k, i: nat | x in w.pending && Located(w, k, i, x) ensures w.states[k].sent[i] == w.pending[x].entry {
      assert Located(v, k, i, x);
    }
    forall x | x in w.pending ensures w.pending[x].entry.attempt == Some(x) {
      assert v.pending[x].entry.attempt == Some(x);
    }
  }

  lemma DispatchIdentity(v: EngineV, e: Observation, cfg: Settings)
    requires cfg.Valid() && e.body.Dispatch? && IdentityOK(v) && FreshDispatch(v, e)
    ensures IdentityOK(OnDispatch(v, e.producer, e.body, cfg))
  {
    hide IdentityOK, FreshDispatch, LedgerOf, Estimate, Dispatched, DropLeading;
    var b := e.body;
    if b.id !in v.pending {
      FreshMeans(v, e);
      var w, r := OnDispatch(v, e.producer, b, cfg), ChargedFor(Lookup(v, b.route), v.now, b, cfg);
      forall k ensures LedgerOf(w, k) == if k == b.route then r.sent else LedgerOf(v, k) {
        WithLedger(v, b.route, r, k);
        SameStates(With(v, b.route, r), w, k);
      }
      var d := DropIs(Lookup(v, b.route).sent, v.now - cfg.windows.Widest());
      LookupLedger(v, b.route);
      GainedIdentity(v, w, b.route, d, r.sent[|r.sent| - 1], b.id);
    }
  }

  lemma FreshMeans(v: EngineV, e: Observation)
    requires e.body.Dispatch? && FreshDispatch(v, e) && e.body.id !in v.pending
    ensures Unlocated(v, e.body.id)
  {
  }

  lemma SameStates(v: EngineV, w: EngineV, k: Key)
    requires w.states == v.states && w.capacity == v.capacity
    ensures LedgerOf(w, k) == LedgerOf(v, k)
  {
  }

  lemma LookupLedger(v: EngineV, k: Key)
    ensures LedgerOf(v, k) == Lookup(v, k).sent
  {
  }

  lemma UsageIdentity(v: EngineV, b: Body)
    requires b.Usage? && IdentityOK(v)
    ensures IdentityOK(OnUsage(v, b))
  {
    hide IdentityOK, Calibrated, Priced, LedgerOf;
    if b.tokens > 0 {
      var known := Known(v, b.attempt).Some?;
      var v1 := if known then Priced(v, b.attempt.value, b.tokens as real) else v;
      if known { PricedIdentity(v, b.attempt.value, b.tokens as real); }
      var r := Calibrated(Lookup(v1, b.route), b.bytes, b.tokens as real);
      CalibratedKeeps(Lookup(v1, b.route), b.bytes, b.tokens as real);
      forall k ensures LedgerOf(With(v1, b.route, r), k) == LedgerOf(v1, k) {
        WithLedger(v1, b.route, r, k);
        LookupLedger(v1, b.route);
      }
      SameIdentity(v1, With(v1, b.route, r));
    }
  }

  lemma SuccessIdentity(v: EngineV, b: Body)
    requires b.Success? && IdentityOK(v)
    ensures IdentityOK(OnSuccess(v, b))
  {
    hide IdentityOK, LedgerOf, OnSuccess;
    forall k ensures LedgerOf(OnSuccess(v, b), k) == LedgerOf(v, k) {
      SuccessLedger(v, b, k);
    }
    SuccessPending(v, b);
    SameIdentity(v, OnSuccess(v, b));
  }

  lemma SuccessPending(v: EngineV, b: Body)
    requires b.Success?
    ensures forall id | id in OnSuccess(v, b).pending :: id in v.pending && OnSuccess(v, b).pending[id].entry == v.pending[id].entry
  {
    hide Proven, EventLevel, Last;
  }

  lemma QuietPending(v: EngineV, e: Observation, cfg: Settings)
    requires cfg.Valid() && !e.body.Dispatch? && !e.body.Usage? && !e.body.Success?
    ensures var w := React(v, e, cfg); forall id | id in w.pending :: id in v.pending && w.pending[id].entry == v.pending[id].entry
  {
    hide OnDispatch, OnUsage, OnSuccess, Demoted, Attributed, EventLevel, Last;
  }

  lemma ConsumeIdentity(v: EngineV, e: Observation, cfg: Settings)
    requires cfg.Valid() && IdentityOK(v) && FreshDispatch(v, e)
    ensures IdentityOK(Consume(v, e, cfg))
  {
    hide IdentityOK, FreshDispatch, LedgerOf, OnDispatch, OnUsage, OnDemote, OnSuccess, Emit;
    var w, b := Clocked(v, e), e.body;
    forall k ensures LedgerOf(w, k) == LedgerOf(v, k) {
      SameStates(v, w, k);
    }
    SameIdentity(v, w);
    if b.Dispatch? {
      ClockedFresh(v, e);
      DispatchIdentity(w, e, cfg);
    } else if b.Usage? {
      UsageIdentity(w, b);
    } else if b.Success? {
      SuccessIdentity(w, b);
    } else {
      forall k ensures LedgerOf(React(w, e, cfg), k) == LedgerOf(w, k) {
        if b.Demote? { DemoteLedger(w, b, k, cfg); } else { QuietLedger(w, e, k, cfg); }
      }
      QuietPending(w, e, cfg);
      SameIdentity(w, React(w, e, cfg));
    }
  }

  lemma ClockedFresh(v: EngineV, e: Observation)
    requires FreshDispatch(v, e)
    ensures FreshDispatch(Clocked(v, e), e)
  {
    if e.body.Dispatch? && e.body.id !in v.pending { SameLocated(v, Clocked(v, e), e.body.id); }
  }

  lemma SnapshotIdentity(v: EngineV, now: real, routes: seq<Key>, cfg: Settings)
    requires cfg.Valid() && IdentityOK(v)
    ensures IdentityOK(Snapshotted(v, now, routes, cfg))
  {
    hide IdentityOK, LedgerOf, Weighed, Aged;
    var w := v.(now := now, retentionThrough := Through(v.events, Horizon(now), v.retentionThrough));
    forall k ensures LedgerOf(w, k) == LedgerOf(v, k) {
      SameStates(v, w, k);
    }
    SameIdentity(v, w);
    AgedIdentity(w, Horizon(now));
    var a := Aged(w, Horizon(now));
    forall k ensures LedgerOf(Weighed(a, routes, cfg), k) == LedgerOf(a, k) {
      WeighedLedger(a, routes, k, cfg);
    }
    WeighedPending(a, routes, cfg);
    SameIdentity(a, Weighed(a, routes, cfg));
  }

  lemma {:induction false} WeighedPending(v: EngineV, routes: seq<Key>, cfg: Settings)
    requires cfg.Valid()
    ensures Weighed(v, routes, cfg).pending == v.pending
  {
    if routes != [] { WeighedPending(v, routes[..|routes| - 1], cfg); }
  }

  lemma StepIdentity(v: EngineV, i: Input, cfg: Settings)
    requires cfg.Valid() && IdentityOK(v) && (i.Consumed? ==> FreshDispatch(v, i.e))
    ensures IdentityOK(Step(v, i, cfg))
  {
    hide IdentityOK, FreshDispatch, Consume, Aged, Restored, Snapshotted;
    if i.Consumed? {
      ConsumeIdentity(v, i.e, cfg);
      OnlyStates(Consume(v, i.e, cfg), Step(v, i, cfg));
    } else if i.Snapshot? {
      SnapshotIdentity(v, i.now, i.routes, cfg);
    } else if i.Age? {
      AgedIdentity(v, i.cutoff);
    } else if i.Restart? {
      RestoredIdentity(v, i.cutoff, i.now);
    } else {
      OnlyStates(v, Step(v, i, cfg));
    }
  }

  lemma OnlyStates(v: EngineV, w: EngineV)
    requires IdentityOK(v) && w.states == v.states && w.pending == v.pending && w.capacity == v.capacity
    ensures IdentityOK(w)
  {
    hide IdentityOK, LedgerOf;
    forall k ensures LedgerOf(w, k) == LedgerOf(v, k) {
      SameStates(v, w, k);
    }
    SameIdentity(v, w);
  }

  // ---- whole histories ------------------------------------------------------------------------------

  /** Ids are fresh at every dispatch of the history. */
  ghost predicate FreshInputs(v: EngineV, inputs: seq<Input>, cfg: Settings)
    requires cfg.Valid()
  {
    forall i | 0 <= i < |inputs| && inputs[i].Consumed? :: FreshDispatch(Fold(v, inputs[..i], cfg), inputs[i].e)
  }

  lemma {:induction false} FoldIdentity(v: EngineV, inputs: seq<Input>, cfg: Settings)
    requires cfg.Valid() && IdentityOK(v) && FreshInputs(v, inputs, cfg)
    ensures IdentityOK(Fold(v, inputs, cfg))
  {
    hide IdentityOK, FreshDispatch, Step;
    if inputs != [] {
      var before, i := inputs[..|inputs| - 1], inputs[|inputs| - 1];
      assert forall j | 0 <= j < |before| :: before[..j] == inputs[..j] && before[j] == inputs[j];
      FoldIdentity(v, before, cfg);
      StepIdentity(Fold(v, before, cfg), i, cfg);
    }
  }

  /** Some input of the history dispatches the id. */
  ghost predicate DispatchedIn(inputs: seq<Input>, id: Id) {
    exists i :: 0 <= i < |inputs| && inputs[i].Consumed? && inputs[i].e.body.Dispatch? && inputs[i].e.body.id == id
  }

  lemma DispatchedLater(inputs: seq<Input>, i: Input, id: Id)
    ensures DispatchedIn(inputs, id) || (i.Consumed? && i.e.body.Dispatch? && i.e.body.id == id) ==> DispatchedIn(inputs + [i], id)
  {
    var more := inputs + [i];
    assert more[|inputs|] == i;
    if DispatchedIn(inputs, id) {
      var j :| 0 <= j < |inputs| && inputs[j].Consumed? && inputs[j].e.body.Dispatch? && inputs[j].e.body.id == id;
      assert more[j] == inputs[j];
    }
  }

  /** Ids in a ledger were dispatched. */
  lemma {:induction false} IdsComeFrom(v: EngineV, inputs: seq<Input>, key: Key, e: EntryV, id: Id, cfg: Settings)
    requires cfg.Valid() && v.states == map[] && e in LedgerOf(Fold(v, inputs, cfg), key) && e.attempt == Some(id)
    ensures DispatchedIn(inputs, id)
    decreases |inputs|
  {
    hide Step, DispatchedIn, OpOn, Histories.After;
    if inputs != [] {
      hide LedgerOf;
      var before, i := inputs[..|inputs| - 1], inputs[|inputs| - 1];
      var u := Fold(v, before, cfg);
      assert inputs == before + [i];
      StepLedger(u, i, key, cfg);
      AfterMembers(LedgerOf(u, key), OpOn(u, i, key, cfg), cfg.windows, e);
      DispatchedLater(before, i, id);
      ChargeComes(u, i, key, cfg);
      if d :| d in LedgerOf(u, key) && d.at == e.at && d.attempt == e.attempt {
        IdsComeFrom(v, before, key, d, id, cfg);
      }
    }
  }

  lemma ChargeComes(v: EngineV, i: Input, key: Key, cfg: Settings)
    requires cfg.Valid()
    ensures var op := OpOn(v, i, key, cfg);
            op.Some? && op.value.Charge? ==> i.Consumed? && i.e.body.Dispatch? && i.e.body.id == op.value.id
  {
  }

  /** The journal dispatches each id once. */
  ghost predicate DispatchedOnce(log: seq<Row>) {
    forall i, j | 0 <= i < j < |log| && log[i].record.e.body.Dispatch? && log[j].record.e.body.Dispatch? ::
      log[i].record.e.body.id != log[j].record.e.body.id
  }

  lemma OnceInOrder(inputs: seq<Input>, log: seq<Row>, cursor: nat, i: nat)
    requires Exchange.InOrder(inputs, log, cursor) && DispatchedOnce(log)
    requires i < |inputs| && inputs[i].Consumed? && inputs[i].e.body.Dispatch?
    ensures !DispatchedIn(inputs[..i], inputs[i].e.body.id)
  {
    var before := inputs[..i];
    forall j | 0 <= j < |before| && before[j].Consumed? && before[j].e.body.Dispatch? ensures before[j].e.body.id != inputs[i].e.body.id {
      assert before[j] == inputs[j] && inputs[j].num < inputs[i].num;
      assert inputs[j].e == Exchange.Seen(log[inputs[j].num - 1]) && inputs[i].e == Exchange.Seen(log[inputs[i].num - 1]);
    }
  }

  /** Rows taken in journal order from such a journal bring fresh ids. */
  lemma OnceFresh(v: EngineV, inputs: seq<Input>, log: seq<Row>, cursor: nat, cfg: Settings)
    requires cfg.Valid() && v.states == map[] && Exchange.InOrder(inputs, log, cursor) && DispatchedOnce(log)
    ensures FreshInputs(v, inputs, cfg)
  {
    hide Fold;
    forall i | 0 <= i < |inputs| && inputs[i].Consumed? ensures FreshDispatch(Fold(v, inputs[..i], cfg), inputs[i].e) {
      var e, u := inputs[i].e, Fold(v, inputs[..i], cfg);
      if e.body.Dispatch? {
        OnceInOrder(inputs, log, cursor, i);
        NeverLocated(v, inputs[..i], e.body.id, cfg);
      }
    }
  }

  lemma NeverLocated(v: EngineV, inputs: seq<Input>, id: Id, cfg: Settings)
    requires cfg.Valid() && v.states == map[] && !DispatchedIn(inputs, id)
    ensures Unlocated(Fold(v, inputs, cfg), id)
  {
    var u := Fold(v, inputs, cfg);
    hide Fold, DispatchedIn;
    forall k, i: nat ensures !Located(u, k, i, id) {
      if Located(u, k, i, id) {
        SameEntry(u, k, i, id);
        IdsComeFrom(v, inputs, k, LedgerOf(u, k)[i], id, cfg);
      }
    }
  }

  // ---- runs of the exchange ---------------------------------------------------------------------------

  lemma BootIdentity(v: EngineV, evs: seq<Exchange.Event>)
    requires Exchange.Booted(v, evs)
    ensures IdentityOK(v) && v.states == map[]
  {
  }

  lemma ReplayedIdentity(v: EngineV, past: Exchange.Past, log: seq<Row>, expired: set<nat>, evs: seq<Exchange.Event>, cfg: Settings)
    requires cfg.Valid() && Exchange.Replayed(v, past, log, expired, cfg) && Exchange.Booted(past.origin, evs) && DispatchedOnce(log)
    ensures IdentityOK(v)
  {
    hide IdentityOK, Fold, EngineFacts.FeedOK, Exchange.Booted, Exchange.NoneMissed;
    BootIdentity(past.origin, evs);
    OnceFresh(past.origin, past.inputs, log, v.cursor, cfg);
    FoldIdentity(past.origin, past.inputs, cfg);
  }

  /**
   Attempts stay identified.  In every run whose journal dispatches each id once, whatever was lost,
   expired or restarted: every saved state and every running engine tells attempts apart by their ids,
   with each pending attempt's entry the ledger's own.
   */
  lemma EveryIdentity(evs: seq<Exchange.Event>, cfg: Settings)
    requires cfg.Valid() && Exchange.Runs(evs, cfg) && DispatchedOnce(Exchange.After(evs, cfg).log)
    ensures var s := Exchange.After(evs, cfg);
            && (Joined(s.db).Some? ==> IdentityOK(Joined(s.db).value))
            && (s.process.Some? ==> IdentityOK(s.process.value.v))
  {
    hide IdentityOK, Exchange.Runs, Exchange.After, Exchange.Booted, DispatchedOnce;
    Exchange.EveryRun(evs, cfg);
    var s := Exchange.After(evs, cfg);
    SavedReplayed(s, cfg);
    if Joined(s.db).Some? { ReplayedIdentity(Joined(s.db).value, s.savedPast, s.log, s.expired, evs, cfg); }
    if s.process.Some? { ReplayedIdentity(s.process.value.v, s.process.value.past, s.log, s.expired, evs, cfg); }
  }

  lemma SavedReplayed(s: Exchange.System, cfg: Settings)
    requires cfg.Valid() && Exchange.Inv(s, cfg)
    ensures Joined(s.db).Some? ==> Exchange.Replayed(Joined(s.db).value, s.savedPast, s.log, s.expired, cfg)
    ensures s.process.Some? ==> Exchange.Replayed(s.process.value.v, s.process.value.past, s.log, s.expired, cfg)
  {
    hide JournalOK, Exchange.Replayed, Exchange.Unambiguous, Exchange.PhaseOK, Exchange.CacheOK, Exchange.Continues;
  }

  // ---- the rows still to come -------------------------------------------------------------------------

  lemma {:induction false} FoldOn(v: EngineV, a: seq<Input>, b: seq<Input>, cfg: Settings)
    requires cfg.Valid()
    ensures Fold(v, a + b, cfg) == Fold(Fold(v, a, cfg), b, cfg)
    decreases |b|
  {
    hide Step;
    if b == [] {
      assert a + b == a;
    } else {
      FoldOn(v, a, b[..|b| - 1], cfg);
      assert (a + b)[..|a + b| - 1] == a + b[..|b| - 1];
    }
  }

  /** Rows of the journal past the cursor, in order. */
  ghost predicate Ahead(rows: seq<Row>, log: seq<Row>, cursor: nat) {
    && (forall i | 0 <= i < |rows| :: cursor < rows[i].num <= |log| && log[rows[i].num - 1] == rows[i])
    && (forall i, j | 0 <= i < j < |rows| :: rows[i].num < rows[j].num)
  }

  lemma OrderGoesOn(inputs: seq<Input>, rows: seq<Row>, log: seq<Row>, cursor: nat, cutoff: real)
    requires Exchange.InOrder(inputs, log, cursor) && Ahead(rows, log, cursor) && cursor <= |log|
    ensures Exchange.InOrder(inputs + Pass.Turns(rows, cutoff), log, |log|)
  {
    var more := inputs + Pass.Turns(rows, cutoff);
    assert forall i | 0 <= i < |rows| :: more[|inputs| + i] == Exchange.TurnOf(rows[i], cutoff);
    assert forall i | 0 <= i < |inputs| :: more[i] == inputs[i];
  }

  lemma AheadFresh(v: EngineV, past: Exchange.Past, log: seq<Row>, rows: seq<Row>, cutoff: real, cfg: Settings)
    requires cfg.Valid() && v == Fold(past.origin, past.inputs, cfg) && past.origin.states == map[]
    requires Exchange.InOrder(past.inputs, log, v.cursor) && v.cursor <= |log| && DispatchedOnce(log) && Ahead(rows, log, v.cursor)
    ensures Pass.FreshTurns(v, Pass.Turns(rows, cutoff), cfg)
  {
    hide Fold, FreshDispatch, Exchange.InOrder, DispatchedOnce;
    var turns := Pass.Turns(rows, cutoff);
    var all := past.inputs + turns;
    OrderGoesOn(past.inputs, rows, log, v.cursor, cutoff);
    OnceFresh(past.origin, all, log, |log|, cfg);
    forall i | 0 <= i < |turns| && turns[i].Consumed? ensures FreshDispatch(Fold(v, turns[..i], cfg), turns[i].e) {
      FoldOn(past.origin, past.inputs, turns[..i], cfg);
      assert all[..|past.inputs| + i] == past.inputs + turns[..i] && all[|past.inputs| + i] == turns[i];
    }
  }

  lemma {:induction false} RangeMembers(rows: seq<Row>, after: nat, through: nat)
    requires Ascending(rows)
    ensures forall r | r in Pass.Range(rows, after, through) :: r in rows && after < r.num
    ensures Ascending(Pass.Range(rows, after, through))
  {
    if rows != [] {
      RangeMembers(rows[1..], after, through);
      var rest := Pass.Range(rows[1..], after, through);
      forall r | r in rest ensures rows[0].num < r.num {
        var i :| 0 <= i < |rows[1..]| && rows[1..][i] == r;
        assert rows[i + 1] == r;
      }
    }
  }

  lemma RangeAhead(rows: seq<Row>, log: seq<Row>, after: nat, through: nat)
    requires Ascending(rows) && FromLog(rows, log)
    ensures Ahead(Pass.Range(rows, after, through), log, after)
  {
    RangeMembers(rows, after, through);
    var b := Pass.Range(rows, after, through);
    forall i | 0 <= i < |b| ensures after < b[i].num <= |log| && log[b[i].num - 1] == b[i] {
      assert b[i] in b && b[i] in rows;
    }
  }

  /** And every row the running process has yet to read, up to any waterline, brings a fresh id. */
  lemma RowsToComeFresh(evs: seq<Exchange.Event>, waterline: nat, cutoff: real, cfg: Settings)
    requires cfg.Valid() && Exchange.Runs(evs, cfg) && DispatchedOnce(Exchange.After(evs, cfg).log)
    requires Exchange.After(evs, cfg).process.Some?
    ensures var s := Exchange.After(evs, cfg); var v := s.process.value.v;
            && Ascending(s.db.rows)
            && Pass.FreshTurns(v, Pass.Turns(Pass.Range(s.db.rows, v.cursor, waterline), cutoff), cfg)
  {
    hide Exchange.Runs, Exchange.After, DispatchedOnce, Exchange.Booted;
    Exchange.EveryRun(evs, cfg);
    var s := Exchange.After(evs, cfg);
    var p := s.process.value;
    RowsAhead(s, waterline, cfg);
    BootIdentity(p.past.origin, evs);
    AheadFresh(p.v, p.past, s.log, Pass.Range(s.db.rows, p.v.cursor, waterline), cutoff, cfg);
  }

  lemma RowsAhead(s: Exchange.System, waterline: nat, cfg: Settings)
    requires cfg.Valid() && Exchange.Inv(s, cfg) && s.process.Some?
    ensures var p := s.process.value;
            && Ascending(s.db.rows) && Ahead(Pass.Range(s.db.rows, p.v.cursor, waterline), s.log, p.v.cursor)
            && p.v == Fold(p.past.origin, p.past.inputs, cfg) && p.v.cursor <= |s.log|
            && Exchange.InOrder(p.past.inputs, s.log, p.v.cursor)
  {
    hide Exchange.SavedOK, Exchange.PhaseOK, Exchange.CacheOK, Exchange.Continues, Fold, EngineFacts.FeedOK, Exchange.InOrder, Exchange.NoneMissed, Ahead;
    RangeAhead(s.db.rows, s.log, s.process.value.v.cursor, waterline);
  }

  /** Nor does the cost of an aged attempt ever show at a restart: no newer entry bears its id. */
  lemma CostsNeverShow(evs: seq<Exchange.Event>, b: Body, cutoff: real, cfg: Settings)
    requires cfg.Valid() && b.Usage? && Exchange.Runs(evs, cfg) && DispatchedOnce(Exchange.After(evs, cfg).log)
    ensures var s := Exchange.After(evs, cfg);
            && (Joined(s.db).Some? ==> UsageImmune(Joined(s.db).value, b, cutoff))
            && (s.process.Some? ==> UsageImmune(s.process.value.v, b, cutoff))
  {
    hide Exchange.Runs, Exchange.After, DispatchedOnce, IdentityOK, UsageImmune;
    EveryIdentity(evs, cfg);
    var s := Exchange.After(evs, cfg);
    if Joined(s.db).Some? { CostImmune(Joined(s.db).value, b, cutoff); }
    if s.process.Some? { CostImmune(s.process.value.v, b, cutoff); }
  }

  lemma CostImmune(v: EngineV, b: Body, cutoff: real)
    requires b.Usage? && IdentityOK(v)
    ensures UsageImmune(v, b, cutoff)
  {
    if b.attempt.Some? && Stale(v, b.attempt.value, cutoff) { IdentityNoneNewer(v, b.attempt.value, cutoff); }
    hide IdentityOK, NoneNewer;
    NoneNewerImmune(v, b, cutoff);
  }
}
