/**
 The engine as it runs: routes and ledger entries are objects updated in place, and a pending
 attempt holds a reference to the very entry its route's ledger holds, so that correcting the
 cost of an attempt corrects both.  Every method is proved to do to the engine's value (`View`)
 what EngineModel says, which carries the results about values over to the objects.
 */
module EngineObject {
  import opened Prelude
  import opened Ledger
  import opened Penalties
  import opened Levels
  import opened Quota
  import opened EngineModel
  import opened Recovery

  class Entry {
    const at: real
    var tokens: real
    const face: Face
    const rpm: real
    var attempt: Option<Id>

    constructor (v: EntryV)
      ensures View() == v
    {
      at, tokens, face, rpm, attempt := v.at, v.tokens, v.face, v.rpm, v.attempt;
    }

    function View(): EntryV reads this { EntryV(at, tokens, face, rpm, attempt) }
  }

  function Views(s: seq<Entry>): (r: seq<EntryV>)
    reads s
    ensures |r| == |s| && forall i | 0 <= i < |s| :: r[i] == s[i].View()
  {
    if s == [] then [] else Views(s[..|s| - 1]) + [s[|s| - 1].View()]
  }

  lemma ViewsSnoc(s: seq<Entry>, e: Entry)
    ensures Views(s + [e]) == Views(s) + [e.View()]
  {
    assert (s + [e])[..|s|] == s;
  }

  /** The route after the attempt's id was written on its newest entry. */
  function Stamped(r: RouteV, attempt: Option<Id>): RouteV
    requires r.sent != []
  {
    r.(sent := r.sent[..|r.sent| - 1] + [r.sent[|r.sent| - 1].(attempt := attempt)])
  }

  lemma ChargedStamp(r: RouteV, now: real, tokens: real, face: Face, attempt: Option<Id>, cfg: Settings)
    requires cfg.Valid()
    ensures Charged(r, now, tokens, face, None, cfg).sent != []
    ensures Charged(r, now, tokens, face, attempt, cfg) == Stamped(Charged(r, now, tokens, face, None, cfg), attempt)
  {
    hide PerMinute, Since, DropLeading;
  }

  /** One route's observed quota and recent failures. */
  class RouteState {
    var sent: seq<Entry>
    var penalty: Penalty
    var penaltyUntil: real
    var penaltyAt: real
    var attempts: nat
    var ok: nat
    var rateLimited: nat
    var errors: nat
    var timeouts: nat
    var lastStatus: string
    var tokensPerByte: Option<real>
    var tokenSamples: nat
    var safeRpm: real
    var otherRpm: real
    var rpmSamples: nat
    var lastDispatchRpm: real
    var foreignSeen: bool

    function View(): RouteV
      reads this, sent
    {
      RouteV(Views(sent), Backoff(penalty, penaltyUntil, penaltyAt), attempts, ok, rateLimited, errors, timeouts,
             lastStatus, tokensPerByte, tokenSamples, safeRpm, otherRpm, rpmSamples, lastDispatchRpm, foreignSeen)
    }

    constructor (v: RouteV, entries: seq<Entry>)
      requires Views(entries) == v.sent
      ensures View() == v && sent == entries
    {
      sent := entries;
      penalty, penaltyUntil, penaltyAt := v.backoff.penalty, v.backoff.until, v.backoff.at;
      attempts, ok, rateLimited, errors, timeouts := v.attempts, v.ok, v.rateLimited, v.errors, v.timeouts;
      lastStatus, tokensPerByte, tokenSamples := v.lastStatus, v.tokensPerByte, v.tokenSamples;
      safeRpm, otherRpm, rpmSamples := v.safeRpm, v.otherRpm, v.rpmSamples;
      lastDispatchRpm, foreignSeen := v.lastDispatchRpm, v.foreignSeen;
    }

    /** `prune`: pop the head while it is older than the window. */
    method Prune(now: real, window: real) returns (ghost dropped: nat)
      modifies this`sent
      ensures dropped <= |old(sent)| && sent == old(sent)[dropped..]
      ensures Views(sent) == DropLeading(old(Views(sent)), now - window)
    {
      var cutoff := now - window;
      dropped := 0;
      while sent != [] && sent[0].at < cutoff
        invariant dropped <= |old(sent)| && sent == old(sent)[dropped..]
        invariant DropLeading(Views(sent), cutoff) == DropLeading(old(Views(sent)), cutoff)
        decreases |sent|
      {
        assert Views(sent)[1..] == Views(sent[1..]);
        dropped := dropped + 1;
        sent := sent[1..];
      }
    }

    /** How many dispatches the window starting at `cutoff` holds. */
    method Recent(cutoff: real) returns (n: nat)
      ensures n == |Since(Views(sent), cutoff)|
    {
      n := 0;
      for i := 0 to |sent|
        invariant n == |Since(Views(sent[..i]), cutoff)|
      {
        assert sent[..i + 1][..i] == sent[..i];
        if sent[i].at >= cutoff { n := n + 1; }
      }
      assert sent[..|sent|] == sent;
    }

    method Append(entry: Entry)
      modifies this`sent, this`lastDispatchRpm
      ensures sent == old(sent) + [entry]
      ensures View() == old(View()).(sent := old(View()).sent + [entry.View()], lastDispatchRpm := entry.rpm)
    {
      ViewsSnoc(sent, entry);
      sent := sent + [entry];
      lastDispatchRpm := entry.rpm;
    }

    /** `estimate_tokens`. */
    method EstimateTokens(bytes: real, cfg: Settings) returns (tokens: real)
      requires cfg.Valid()
      ensures tokens == Estimate(View(), bytes, cfg)
    {
      var ratio := 1.0 / cfg.charsPerToken;
      if tokensPerByte.Some? { ratio := tokensPerByte.value; }
      tokens := Max(1.0, bytes * ratio);
    }

    /** `charge`: record a dispatch at the rate the window now shows. */
    method Record(now: real, tokens: real, face: Face, cfg: Settings) returns (entry: Entry, ghost dropped: nat)
      requires cfg.Valid()
      modifies this
      ensures fresh(entry) && entry.attempt == None
      ensures dropped <= |old(sent)| && sent == old(sent)[dropped..] + [entry]
      ensures View() == Charged(old(View()), now, tokens, face, None, cfg)
    {
      hide PerMinute, Since, DropLeading, Views;
      dropped := Prune(now, cfg.windows.Widest());
      assert View() == old(View()).(sent := DropLeading(old(View()).sent, now - cfg.windows.Widest()));
      var recent := Recent(now - cfg.windows.rpm);
      entry := new Entry(EntryV(now, tokens, face, PerMinute(recent + 1, cfg.windows.rpm), None));
      assert entry.View() == Dispatched(View().sent, now, tokens, face, None, cfg.windows);
      Append(entry);
    }

    /** `charge` and the engine's stamp of the attempt on the new entry. */
    method Charge(now: real, tokens: real, face: Face, attempt: Option<Id>, cfg: Settings) returns (entry: Entry, ghost dropped: nat)
      requires cfg.Valid()
      modifies this
      ensures fresh(entry) && entry.attempt == attempt
      ensures dropped <= |old(sent)| && sent == old(sent)[dropped..] + [entry]
      ensures View() == Charged(old(View()), now, tokens, face, attempt, cfg)
    {
      entry, dropped := Record(now, tokens, face, cfg);
      label recorded:
      assert entry !in old(sent);
      Stamp(entry, attempt);
      hide Views, Charged, PerMinute, Since, DropLeading;
      ChargedStamp(old(View()), now, tokens, face, attempt, cfg);
    }

    method Stamp(entry: Entry, attempt: Option<Id>)
      requires sent != [] && sent[|sent| - 1] == entry && entry !in sent[..|sent| - 1]
      modifies entry`attempt
      ensures entry.attempt == attempt && sent == old(sent)
      ensures View() == Stamped(old(View()), attempt)
    {
      entry.attempt := attempt;
    }

    /** `note_success` at the dispatch rate of the attempt; says whether the maximum rose. */
    method NoteSuccess(observed: real) returns (raised: bool)
      modifies this
      ensures sent == old(sent) && View() == Proven(old(View()), observed)
      ensures raised == Raises(old(View()), observed)
    {
      hide Views;
      raised := false;
      if observed <= 0.0 { return; }
      ok := ok + 1;
      rpmSamples := rpmSamples + 1;
      if observed > safeRpm {
        raised := true;
        safeRpm := observed;
      }
      otherRpm := Min(otherRpm, Max(0.0, safeRpm - observed));
    }

    /** `_decay`. */
    method Recover(now: real, cfg: Settings)
      modifies this`penalty, this`penaltyAt
      ensures View() == Decayed(old(View()), now, cfg)
    {
      if ONE.AtMost(penalty) { return; }
      var start := Max(penaltyUntil, penaltyAt);
      if now <= start { return; }
      if cfg.policy.halflife <= 0.0 {
        penalty := ONE;
      } else if penalty.Pow? {
        penalty := Pow(Max(0.0, penalty.x - (now - start) / cfg.policy.halflife));
      }
      penaltyAt := now;
    }

    /** `note_foreign`: outside usage is what our own rate does not explain. */
    method NoteForeign(now: real, observed: Option<real>, cfg: Settings) returns (ours: real, outside: real)
      requires cfg.Valid()
      modifies this`otherRpm, this`foreignSeen
      ensures ours == Attributed(old(View()), now, observed, cfg)
      ensures View() == Contended(old(View()), ours) && outside == otherRpm
    {
      hide Views, Since, PerMinute;
      if observed.Some? {
        ours := observed.value;
      } else if lastDispatchRpm != 0.0 {
        ours := lastDispatchRpm;
      } else {
        ours := Rpm(Views(sent), now, cfg.windows.rpm);
      }
      outside := Max(0.0, safeRpm - ours);
      otherRpm := outside;
      foreignSeen := foreignSeen || outside > 0.0;
    }

    /** `demote`'s tally: only a rate limit says something about other tenants. */
    method Tally(now: real, reason: string, observed: Option<real>, cfg: Settings) returns (ours: real, outside: real)
      requires cfg.Valid()
      modifies this`rateLimited, this`errors, this`lastStatus, this`otherRpm, this`foreignSeen
      ensures View() == if reason == "429"
        then Contended(old(View()), Attributed(old(View()), now, observed, cfg))
             .(rateLimited := old(View()).rateLimited + 1, lastStatus := reason)
        else old(View()).(errors := old(View()).errors + 1, lastStatus := reason)
      ensures reason == "429" ==> ours == Attributed(old(View()), now, observed, cfg) && outside == otherRpm
    {
      hide Attributed, Views;
      ours, outside := 0.0, 0.0;
      if reason == "429" {
        ours, outside := NoteForeign(now, observed, cfg);
        rateLimited := rateLimited + 1;
      } else {
        errors := errors + 1;
      }
      lastStatus := reason;
    }

    /** `demote`'s penalty: recover first, then multiply, then park. */
    method Punish(now: real, retryAfter: Option<real>, cfg: Settings)
      modifies this`penalty, this`penaltyUntil, this`penaltyAt
      ensures View() == old(View()).(backoff := Penalise(old(View()).backoff, now, retryAfter, cfg.policy))
    {
      Recover(now, cfg);
      hide Decay;
      penalty := cfg.policy.floor.Larger(penalty.Times(cfg.policy.multiplier));
      penaltyUntil := Max(penaltyUntil, now + Park(retryAfter, cfg.policy));
      penaltyAt := now;
    }

    /** `demote`. */
    method Demote(now: real, reason: string, retryAfter: Option<real>, observed: Option<real>, cfg: Settings)
      returns (ours: real, outside: real)
      requires cfg.Valid()
      modifies this
      ensures sent == old(sent)
      ensures View() == Demoted(old(View()), now, reason, retryAfter, observed, cfg)
      ensures reason == "429" ==> ours == Attributed(old(View()), now, observed, cfg) && outside == otherRpm
    {
      hide Penalise, Attributed, Views;
      ours, outside := Tally(now, reason, observed, cfg);
      Punish(now, retryAfter, cfg);
    }

    method NoteAttempt()
      modifies this`attempts
      ensures View() == Attempted(old(View()))
    {
      attempts := attempts + 1;
    }

    /** `observed`: the last response status. */
    method NoteStatus(status: string)
      modifies this`lastStatus
      ensures View() == Answered(old(View()), status)
    {
      lastStatus := status;
    }

    method NoteTimeout()
      modifies this`timeouts, this`lastStatus
      ensures View() == TimedOut(old(View()))
    {
      timeouts := timeouts + 1;
      lastStatus := "timeout";
    }

    /** The ratio half of `settle`. */
    method Calibrate(bytes: real, total: real)
      modifies this`tokensPerByte, this`tokenSamples
      ensures View() == Calibrated(old(View()), bytes, total)
    {
      if bytes <= 0.0 { return; }
      var sample := total / bytes;
      if tokensPerByte.None? {
        tokensPerByte := Some(sample);
      } else {
        tokensPerByte := Some(0.7 * tokensPerByte.value + 0.3 * sample);
      }
      tokenSamples := tokenSamples + 1;
    }
  }

  /** An in-flight attempt: the entry is the ledger's own object while the ledger still holds it. */
  datatype Slot = Slot(entry: Entry, route: Key, producer: string, success: bool)

  function SlotView(s: Slot): Pending
    reads s.entry
  {
    Pending(s.entry.View(), s.route, s.producer, s.success)
  }

  class Engine {
    const cfg: Settings
    var now: real
    var cursor: nat
    var pending: map<Id, Slot>
    var states: map<Key, RouteState>
    var capacity: map<Key, real>
    var producers: map<string, Beat>
    var sessions: string
    var events: seq<FeedEvent>
    var eventSeq: nat
    var streamId: string
    var retentionThrough: nat

    ghost function Entries(): set<Entry>
      reads this, states.Values
    {
      (set k, i | k in states && 0 <= i < |states[k].sent| :: states[k].sent[i]) + (set id | id in pending :: pending[id].entry)
    }

    /** Every object the engine may update. */
    ghost function Parts(): set<object>
      reads this, states.Values
    {
      {this} + states.Values + Entries()
    }

    /** Also what `checkpoint` writes. */
    function View(): EngineV
      reads this, states.Values, Entries()
    {
      EngineV(now, cursor, map id | id in pending :: SlotView(pending[id]), StatesView(),
              capacity, producers, sessions, events, eventSeq, streamId, retentionThrough)
    }

    function StatesView(): map<Key, RouteV>
      reads this, states.Values, Entries()
    {
      map k | k in states :: RouteView(k)
    }

    function RouteView(k: Key): RouteV
      requires k in states
      reads this, states.Values, Entries()
    {
      assert forall e | e in states[k].sent :: e in Entries();
      states[k].View()
    }

    /** References agree with identities: one object per route, one object per attempt. */
    ghost predicate Linked()
      reads this, states.Values, Entries()
    {
      && (forall k, l | k in states && l in states && k != l :: states[k] != states[l])
      && (forall id | id in pending :: pending[id].entry.attempt == Some(id))
      && (forall k, i, id | k in states && 0 <= i < |states[k].sent| && id in pending ::
            states[k].sent[i] in Entries() && (states[k].sent[i].attempt == Some(id) ==> states[k].sent[i] == pending[id].entry))
    }

    ghost predicate Valid()
      reads this, states.Values, Entries()
    {
      cfg.Valid() && Linked() && UniqueIds(View())
    }

    constructor (cfg: Settings, v: EngineV, states: map<Key, RouteState>, pending: map<Id, Slot>)
      ensures this.cfg == cfg && this.states == states && this.pending == pending
      ensures v == EngineV(now, cursor, v.pending, v.states, capacity, producers, sessions, events, eventSeq, streamId, retentionThrough)
    {
      this.cfg, now, cursor := cfg, v.now, v.cursor;
      this.states, this.pending := states, pending;
      capacity, producers, sessions := v.capacity, v.producers, v.sessions;
      events, eventSeq, streamId, retentionThrough := v.events, v.eventSeq, v.streamId, v.retentionThrough;
    }

    /** Fields that hold the value's parts, joined by id, make a valid engine of that value. */
    lemma Rebuilt(v: EngineV)
      requires cfg.Valid() && UniqueIds(v)
      requires v == EngineV(now, cursor, v.pending, v.states, capacity, producers, sessions, events, eventSeq, streamId, retentionThrough)
      requires states.Keys == v.states.Keys && forall k | k in states :: states[k].View() == v.states[k]
      requires pending.Keys == v.pending.Keys && forall id | id in pending :: SlotView(pending[id]) == v.pending[id]
      requires forall k, l | k in states && l in states && k != l :: states[k] != states[l]
      requires Joined(states, pending)
      ensures Valid() && View() == v
    {
      assert View().states == v.states;
      assert View().pending == v.pending;
    }

    /** A valid engine's checkpoint identifies attempts without ambiguity. */
    lemma ValidMeansIdentified()
      requires Valid()
      ensures IdentityOK(View()) && cfg.Valid()
    {
    }

    /** The engine only ever takes in objects allocated for it. */
    twostate predicate GrewFresh()
      reads *
    {
      forall o | o in Parts() && o !in old(Parts()) :: fresh(o)
    }

    // ---- changes to one route that leave its ledger alone ------------------------------

    /** Everything but the fields of `states[key]` is as before, and so is that route's ledger. */
    twostate predicate OnlyTouched(new key: Key)
      reads *
    {
      && key in states && states == old(states) && pending == old(pending)
      && states[key].sent == old(states[key].sent)
      && forall o | o in old(Parts()) && o != states[key] :: unchanged(o)
    }

    twostate lemma Others(new key: Key)
      requires old(Linked()) && OnlyTouched(key)
      ensures unchanged(this)
      ensures forall k | k in states && k != key :: unchanged(states[k])
      ensures forall e | e in old(Entries()) :: unchanged(e)
    {
      assert this in old(Parts());
      forall k | k in old(states) && k != key ensures unchanged(old(states[k])) {
        assert old(states[k]) in old(Parts());
      }
      forall e | e in old(Entries()) ensures unchanged(e) {
        assert e in old(Parts());
      }
    }

    twostate lemma SameEntries(new key: Key)
      requires old(Linked()) && OnlyTouched(key)
      ensures Entries() == old(Entries()) && Parts() == old(Parts())
    {
      Others(key);
      assert forall k | k in states :: states[k].sent == old(states[k].sent);
    }

    twostate lemma SameLinks(new key: Key)
      requires old(Valid()) && OnlyTouched(key)
      ensures Linked()
    {
      Others(key);
      SameEntries(key);
      forall k, i, id | k in states && 0 <= i < |states[k].sent| && id in pending
        ensures states[k].sent[i] in Entries() && (states[k].sent[i].attempt == Some(id) ==> states[k].sent[i] == pending[id].entry)
      {
        assert old(states[k].sent)[i] == states[k].sent[i];
        assert states[k].sent[i] in old(Entries());
      }
      forall id | id in pending ensures pending[id].entry.attempt == Some(id) {
        assert pending[id].entry in old(Entries());
      }
    }

    twostate lemma OnlyRoute(new key: Key)
      requires old(Valid()) && OnlyTouched(key)
      ensures Valid() && View() == With(old(View()), key, states[key].View()) && Parts() == old(Parts())
    {
      SameEntries(key);
      SameLinks(key);
      SameViews(key);
      hide View, Linked, UniqueIds, Entries, Parts;
      SameLedgers(old(View()), View());
    }

    /** A looked-up route, once updated, is the route's new state. */
    twostate lemma Updated(new key: Key, new v: EngineV)
      requires old(Valid()) && OnlyTouched(key) && old(View()) == With(v, key, Lookup(v, key))
      ensures Valid() && View() == With(v, key, states[key].View()) && Parts() == old(Parts())
    {
      OnlyRoute(key);
      hide Valid, View, Parts, OnlyTouched, With;
      WithTwice(v, key, Lookup(v, key), states[key].View());
    }

    twostate lemma SameSlots(new key: Key)
      requires old(Linked()) && OnlyTouched(key)
      ensures View().pending == old(View()).pending
    {
      Others(key);
      forall id | id in pending ensures SlotView(pending[id]) == old(SlotView(pending[id])) {
        assert pending[id].entry in old(Entries());
      }
    }

    twostate lemma SameLedger(new key: Key)
      requires old(Linked()) && OnlyTouched(key)
      ensures forall k | k in states :: Views(states[k].sent) == old(Views(states[k].sent))
    {
      Others(key);
      forall k | k in states ensures Views(states[k].sent) == old(Views(states[k].sent)) {
        assert states[k].sent == old(states[k].sent);
        forall i | 0 <= i < |states[k].sent| ensures unchanged(states[k].sent[i]) {
          assert old(states[k].sent)[i] in old(Entries());
        }
      }
    }

    twostate lemma SameRoutes(new key: Key)
      requires old(Linked()) && OnlyTouched(key)
      ensures forall k | k in states && k != key :: RouteView(k) == old(RouteView(k))
      ensures RouteView(key).sent == old(RouteView(key)).sent
    {
      Others(key);
      SameLedger(key);
      hide UniqueIds, Linked, Views, Entries;
    }

    twostate lemma SameStates(new key: Key)
      requires old(Linked()) && OnlyTouched(key)
      ensures StatesView() == old(StatesView())[key := RouteView(key)]
      ensures RouteView(key).sent == old(RouteView(key)).sent
    {
      Others(key);
      SameRoutes(key);
      SameMaps(key, StatesView(), old(StatesView()), RouteView(key));
    }

    twostate lemma SameViews(new key: Key)
      requires old(Linked()) && OnlyTouched(key)
      ensures View() == With(old(View()), key, RouteView(key))
      ensures key in old(View()).states && RouteView(key).sent == old(View()).states[key].sent
    {
      Others(key);
      SameSlots(key);
      SameStates(key);
    }

    // ---- changes that leave every route and entry alone --------------------------------

    twostate predicate RoutesUntouched()
      reads *
    {
      && states == old(states)
      && (forall k | k in states :: unchanged(states[k]))
      && forall e | e in old(Entries()) :: unchanged(e)
    }

    twostate lemma SameRouteViews()
      requires RoutesUntouched()
      ensures StatesView() == old(StatesView())
    {
      forall k | k in states ensures RouteView(k) == old(RouteView(k)) {
        forall i | 0 <= i < |states[k].sent| ensures unchanged(states[k].sent[i]) {
          assert old(states[k].sent)[i] in old(Entries());
        }
        assert Views(states[k].sent) == old(Views(states[k].sent));
      }
    }

    /** Pending attempts may be forgotten or flagged, as long as they keep their entries. */
    twostate lemma SlotsOnly()
      requires old(Valid()) && RoutesUntouched()
      requires forall id | id in pending :: id in old(pending) && pending[id].entry == old(pending)[id].entry
      ensures Valid() && StatesView() == old(StatesView()) && Parts() <= old(Parts())
      ensures forall id | id in pending :: pending[id].entry.View() == old(pending[id].entry.View())
      ensures pending == old(pending) ==> View().pending == old(View()).pending
    {
      SameRouteViews();
      forall id | id in pending ensures unchanged(pending[id].entry) {
        assert old(pending)[id].entry in old(Entries());
      }
      SameLedgers(old(View()), View());
    }

    // ---- the observations -----------------------------------------------------------------

    method Speak(kind: string, level: Level, detail: Detail, content: Content)
      requires Valid()
      modifies this`events, this`eventSeq
      ensures Valid() && View() == Emit(old(View()), kind, level, detail, content)
      ensures Parts() == old(Parts())
    {
      eventSeq := eventSeq + 1;
      events := Last(events + [FeedEvent(eventSeq, now, kind, EventLevel(kind, level, detail), detail, content)], RING);
      SlotsOnly();
    }

    // ---- a route met for the first time -----------------------------------------------------

    twostate predicate Met(new key: Key)
      reads *
    {
      && key !in old(states) && key in states && states == old(states)[key := states[key]]
      && pending == old(pending)
      && fresh(states[key]) && states[key].sent == []
      && (forall k | k in old(states) :: unchanged(states[k]))
      && forall e | e in old(Entries()) :: unchanged(e)
    }

    twostate lemma MetEntries(new key: Key)
      requires Met(key)
      ensures Entries() == old(Entries()) && Parts() == old(Parts()) + {states[key]}
    {
      assert forall k | k in old(states) :: k in states && states[k].sent == old(states[k].sent);
      assert forall k | k in states && k != key :: k in old(states);
    }

    twostate lemma MetLedgers(new key: Key)
      requires Met(key)
      ensures forall k | k in old(states) :: Views(states[k].sent) == old(Views(states[k].sent))
    {
      forall k | k in old(states) ensures Views(states[k].sent) == old(Views(states[k].sent)) {
        forall i | 0 <= i < |states[k].sent| ensures unchanged(states[k].sent[i]) {
          assert old(states[k].sent)[i] in old(Entries());
        }
      }
    }

    twostate lemma MetRoutes(new key: Key)
      requires Met(key)
      ensures forall k | k in old(states) :: RouteView(k) == old(RouteView(k))
    {
      MetLedgers(key);
      hide Views, Entries;
    }

    twostate lemma MetViews(new key: Key)
      requires Met(key)
      ensures View().pending == old(View()).pending
      ensures StatesView() == old(StatesView())[key := RouteView(key)]
    {
      forall id | id in pending ensures SlotView(pending[id]) == old(SlotView(pending[id])) {
        assert pending[id].entry in old(Entries());
      }
      MetRoutes(key);
      MoreMaps(key, StatesView(), old(StatesView()), RouteView(key));
    }

    twostate lemma MetLinks(new key: Key)
      requires old(Valid()) && Met(key)
      ensures Linked()
    {
      MetEntries(key);
      forall k, i, id | k in states && 0 <= i < |states[k].sent| && id in pending
        ensures states[k].sent[i] in Entries() && (states[k].sent[i].attempt == Some(id) ==> states[k].sent[i] == pending[id].entry)
      {
        assert k in old(states) && old(states[k].sent)[i] == states[k].sent[i];
        assert states[k].sent[i] in old(Entries());
      }
      forall id | id in pending ensures pending[id].entry.attempt == Some(id) {
        assert pending[id].entry in old(Entries());
      }
    }

    /** `QuotaTracker.state`. */
    method Route(key: Key) returns (r: RouteState)
      requires Valid()
      modifies this`states
      ensures Valid() && View() == With(old(View()), key, Lookup(old(View()), key))
      ensures key in states && states[key] == r && r.View() == Lookup(old(View()), key)
      ensures r in Parts()
      ensures GrewFresh() && pending == old(pending)
    {
      if key in states {
        r := states[key];
        assert View().states == old(View()).states[key := r.View()];
      } else {
        r := new RouteState(NewRoute(if key in capacity then capacity[key] else 0.0), []);
        states := states[key := r];
        MetEntries(key);
        MetViews(key);
        MetLinks(key);
        hide Linked, UniqueIds, Entries, Parts, Views;
        EmptyLedger(old(View()), key, r.View());
      }
    }

    // ---- one route's fields --------------------------------------------------------------

    method MarkStatus(key: Key, status: string)
      requires key in states
      modifies states[key]
      ensures OnlyTouched(key) && states[key].View() == Answered(old(states[key].View()), status)
    {
      states[key].NoteStatus(status);
    }

    method MarkTimeout(key: Key)
      requires key in states
      modifies states[key]
      ensures OnlyTouched(key) && states[key].View() == TimedOut(old(states[key].View()))
    {
      states[key].NoteTimeout();
    }

    method MarkAttempt(key: Key)
      requires key in states
      modifies states[key]
      ensures OnlyTouched(key)
      ensures states[key].View() == Attempted(old(states[key].View()))
    {
      states[key].NoteAttempt();
    }

    method MarkDemoted(key: Key, b: Body, observed: Option<real>) returns (ours: real, outside: real)
      requires key in states && b.Demote? && cfg.Valid()
      modifies states[key]
      ensures OnlyTouched(key)
      ensures states[key].View() == Demoted(old(states[key].View()), now, b.reason, b.retryAfter, observed, cfg)
      ensures b.reason == "429" ==> ours == Attributed(old(states[key].View()), now, observed, cfg) && outside == states[key].otherRpm
    {
      hide Demoted, Attributed;
      ours, outside := states[key].Demote(now, b.reason, b.retryAfter, observed, cfg);
    }

    method MarkRatio(key: Key, bytes: real, total: real)
      requires key in states
      modifies states[key]
      ensures OnlyTouched(key) && states[key].View() == Calibrated(old(states[key].View()), bytes, total)
    {
      hide Calibrated;
      states[key].Calibrate(bytes, total);
    }

    method MarkProven(key: Key, rate: real) returns (raised: bool)
      requires key in states
      modifies states[key]
      ensures OnlyTouched(key) && states[key].View() == Proven(old(states[key].View()), rate)
      ensures raised == Raises(old(states[key].View()), rate)
    {
      hide Proven, Raises;
      raised := states[key].NoteSuccess(rate);
    }

    // ---- the observations, one by one ------------------------------------------------------

    /** `QuotaTracker.observed`, its header bookkeeping aside. */
    method NoteStatus(key: Key, status: string)
      requires Valid()
      modifies Parts()
      ensures Valid() && View() == With(old(View()), key, Answered(Lookup(old(View()), key), status))
      ensures GrewFresh()
    {
      assert this in Parts();
      hide Valid, Linked, UniqueIds, View, StatesView, RouteView, SlotView, Lookup, Views, Entries, Parts, With, OnlyTouched;
      ghost var v := View();
      var route := Route(key);
      label looked:
      MarkStatus(key, status);
      Updated@looked(key, v);
    }

    method NoteTimeout(key: Key)
      requires Valid()
      modifies Parts()
      ensures Valid() && View() == With(old(View()), key, TimedOut(Lookup(old(View()), key)))
      ensures GrewFresh()
    {
      assert this in Parts();
      hide Valid, Linked, UniqueIds, View, StatesView, RouteView, SlotView, Lookup, Views, Entries, Parts, With, OnlyTouched;
      ghost var v := View();
      var r := Route(key);
      label looked:
      MarkTimeout(key);
      Updated@looked(key, v);
    }

    /** `note_attempt`. */
    method NoteAttempt(key: Key)
      requires Valid()
      modifies Parts()
      ensures Valid() && key in states && pending == old(pending)
      ensures View() == With(old(View()), key, Attempted(Lookup(old(View()), key)))
      ensures GrewFresh()
    {
      assert this in Parts();
      hide Valid, Linked, UniqueIds, View, StatesView, RouteView, SlotView, Lookup, Views, Entries, Parts, With, OnlyTouched;
      ghost var v := View();
      var r := Route(key);
      label looked:
      MarkAttempt(key);
      Updated@looked(key, v);
    }

    /** The ratio half of `settle`. */
    method Calibrate(key: Key, bytes: real, total: real)
      requires Valid()
      modifies Parts()
      ensures Valid() && View() == With(old(View()), key, Calibrated(Lookup(old(View()), key), bytes, total))
      ensures GrewFresh()
    {
      assert this in Parts();
      hide Valid, Linked, UniqueIds, View, StatesView, RouteView, SlotView, Lookup, Views, Entries, Parts, With, OnlyTouched, Calibrated;
      ghost var v := View();
      var r := Route(key);
      label looked:
      MarkRatio(key, bytes, total);
      Updated@looked(key, v);
    }

    method Prove(key: Key, rate: real) returns (raised: bool, before: real)
      requires Valid()
      modifies Parts()
      ensures Valid() && View() == With(old(View()), key, Proven(Lookup(old(View()), key), rate))
      ensures raised == Raises(Lookup(old(View()), key), rate) && before == Lookup(old(View()), key).safeRpm
      ensures GrewFresh() && pending == old(pending)
    {
      assert this in Parts();
      hide Valid, Linked, UniqueIds, View, StatesView, RouteView, SlotView, Lookup, Views, Entries, Parts, With, OnlyTouched, Proven, Raises;
      ghost var v := View();
      var r := Route(key);
      before := r.safeRpm;
      assert r.View().safeRpm == before;
      label looked:
      raised := MarkProven(key, rate);
      Updated@looked(key, v);
    }

    /** `QuotaTracker.demote`, its events aside. */
    method Punish(b: Body, observed: Option<real>) returns (r: RouteState, ours: real, outside: real)
      requires Valid() && b.Demote? && observed == Rate(Known(View(), b.attempt))
      modifies Parts()
      ensures Valid() && GrewFresh() && r in Parts()
      ensures r.View() == Demoted(Lookup(old(View()), b.route), old(now), b.reason, b.retryAfter, observed, cfg)
      ensures View() == With(old(View()), b.route, r.View())
      ensures b.reason == "429" ==> outside == r.otherRpm && ours == Attributed(Lookup(old(View()), b.route), old(now), observed, cfg)
    {
      assert this in Parts() && cfg.Valid();
      hide Valid, Linked, UniqueIds, View, StatesView, RouteView, SlotView, Lookup, Views, Entries, Parts, With, OnlyTouched, Demoted, Attributed;
      ghost var v := View();
      r := Route(b.route);
      label looked:
      ours, outside := MarkDemoted(b.route, b, observed);
      Updated@looked(b.route, v);
    }

    method Announce(b: Body, ours: real, safe: real, outside: real, penalty: Penalty)
      requires Valid() && b.Demote?
      modifies this`events, this`eventSeq
      ensures Valid() && Parts() == old(Parts())
      ensures View() == Announced(old(View()), b, ours, safe, outside, penalty, cfg)
    {
      hide Valid, View, Parts, Emit;
      if b.reason == "429" && outside > 0.0 {
        Speak("foreign", Info, PLAIN, OutsideUsage(b.route, ours, safe, outside));
      }
      Speak(if b.reason == "429" then "throttle" else "demote", Info, PLAIN,
            Demotion(b.route, b.reason, penalty, Park(b.retryAfter, cfg.policy)));
    }

    method Demote(b: Body)
      requires Valid() && b.Demote?
      modifies Parts()
      ensures Valid() && View() == OnDemote(old(View()), b, cfg)
      ensures GrewFresh()
    {
      var observed := if b.attempt.Some? && b.attempt.value in pending then Some(pending[b.attempt.value].entry.rpm) else None;
      assert observed == Rate(Known(View(), b.attempt)) && cfg.Valid() && this in Parts();
      hide Valid, View, Parts, Linked, UniqueIds, Entries, Views, Attributed, Demoted, With, Lookup, Announced, Known;
      ghost var v := View();
      var r, ours, outside := Punish(b, observed);
      DemotedKeeps(Lookup(v, b.route), v.now, b, observed, cfg);
      UnheardRates(View(), b, ours, Attributed(Lookup(v, b.route), v.now, observed, cfg), r.safeRpm, outside, r.otherRpm, r.penalty, cfg);
      Announce(b, ours, r.safeRpm, outside, r.penalty);
    }

    method Save(key: Key, rate: real)
      requires Valid()
      modifies this`capacity
      ensures Valid() && Parts() == old(Parts()) && View() == old(View()).(capacity := old(capacity)[key := rate])
    {
      capacity := capacity[key := rate];
      SlotsOnly();
    }

    method Raise(key: Key, before: real, rate: real)
      requires Valid()
      modifies this`capacity, this`events, this`eventSeq
      ensures Valid() && Parts() == old(Parts())
      ensures View() == Emit(old(View()).(capacity := old(capacity)[key := rate]), "capacity", Info, PLAIN,
                             CapacityRaised(key, before, rate))
    {
      hide Valid, View, Parts, Emit;
      Save(key, rate);
      Speak("capacity", Info, PLAIN, CapacityRaised(key, before, rate));
    }

    /** `note_success`: a proven rate enters the route and, when it is the best yet, the saved maxima. */
    method Learn(key: Key, rate: real)
      requires Valid()
      modifies Parts()
      ensures Valid() && View() == EngineModel.Learn(old(View()), key, rate)
      ensures GrewFresh() && pending == old(pending)
    {
      assert this in Parts();
      hide Valid, View, Parts, Proven, Emit;
      var raised, before := Prove(key, rate);
      if raised { Raise(key, before, rate); }
    }

    // ---- the shared entry ----------------------------------------------------------------------

    /** The one place an entry changes after its dispatch: the attempt's real cost arrives. */
    twostate predicate OnlyPriced(new id: Id, new tokens: real)
      reads *
    {
      && unchanged(this) && id in pending
      && (forall k | k in states :: unchanged(states[k]))
      && pending[id].entry.View() == old(pending[id].entry.View()).(tokens := tokens)
      && forall e | e in old(Entries()) && e != pending[id].entry :: unchanged(e)
    }

    twostate lemma PricedLinks(new id: Id, new tokens: real)
      requires old(Linked()) && OnlyPriced(id, tokens)
      ensures Linked() && Entries() == old(Entries()) && Parts() == old(Parts())
    {
      assert Entries() == old(Entries());
      forall e | e in Entries() ensures e.attempt == old(e.attempt) {
        assert e == pending[id].entry ==> e.View().attempt == old(e.View().attempt);
      }
    }

    /** Ledger and pending record hold the same object, so one assignment corrects both. */
    twostate lemma PricedLedger(new id: Id, new tokens: real)
      requires old(Linked()) && OnlyPriced(id, tokens)
      ensures forall k | k in states :: Views(states[k].sent) == Price(old(Views(states[k].sent)), id, tokens)
    {
      assert old(pending[id].entry.attempt) == Some(id);
      forall k | k in states ensures Views(states[k].sent) == Price(old(Views(states[k].sent)), id, tokens) {
        forall i | 0 <= i < |states[k].sent|
          ensures states[k].sent[i].View() == Price(old(Views(states[k].sent)), id, tokens)[i]
        {
          assert old(states[k].sent)[i] in old(Entries());
          assert old(states[k].sent[i].attempt == Some(id)) <==> states[k].sent[i] == pending[id].entry;
        }
      }
    }

    twostate lemma PricedStates(new id: Id, new tokens: real)
      requires old(Linked()) && OnlyPriced(id, tokens)
      ensures StatesView() == map k | k in old(StatesView()) :: old(StatesView())[k].(sent := Price(old(StatesView())[k].sent, id, tokens))
    {
      PricedLedger(id, tokens);
      hide Linked, Views, Entries;
      forall k | k in states
        ensures RouteView(k) == old(RouteView(k)).(sent := Price(old(RouteView(k)).sent, id, tokens))
      {
      }
    }

    twostate lemma PricedSlots(new id: Id, new tokens: real)
      requires old(Linked()) && OnlyPriced(id, tokens)
      ensures forall x | x in pending :: SlotView(pending[x]) ==
                if x == id then old(SlotView(pending[x])).(entry := old(SlotView(pending[x])).entry.(tokens := tokens))
                else old(SlotView(pending[x]))
    {
      forall x | x in pending && x != id ensures pending[x].entry.View() == old(pending[x].entry.View()) {
        assert old(pending[x].entry) in old(Entries());
        assert old(pending[x].entry.attempt) != old(pending[id].entry.attempt);
      }
    }

    twostate lemma PricedPending(new id: Id, new tokens: real)
      requires old(Linked()) && OnlyPriced(id, tokens)
      ensures var was := old(View()).pending;
              View().pending == was[id := was[id].(entry := was[id].entry.(tokens := tokens))]
    {
      PricedSlots(id, tokens);
      hide Linked, Views, Entries, StatesView, Parts, UniqueIds, SlotView, OnlyPriced;
    }

    twostate lemma PricedView(new id: Id, new tokens: real)
      requires old(Valid()) && OnlyPriced(id, tokens)
      ensures Valid() && View() == Priced(old(View()), id, tokens) && Parts() == old(Parts())
    {
      PricedLinks(id, tokens);
      PricedStates(id, tokens);
      PricedPending(id, tokens);
      hide Linked, Views, Entries, StatesView, Parts, UniqueIds, SlotView, OnlyPriced;
      PricedUnique(old(View()), id, tokens);
    }

    method Correct(id: Id, tokens: real)
      requires id in pending
      modifies pending[id].entry
      ensures OnlyPriced(id, tokens)
    {
      pending[id].entry.tokens := tokens;
    }

    /** The attempt's entry learns its real cost, if the attempt is still pending. */
    method Pay(attempt: Option<Id>, tokens: real)
      requires Valid()
      modifies Parts()
      ensures Valid() && Parts() == old(Parts())
      ensures View() == if Known(old(View()), attempt).Some? then Priced(old(View()), attempt.value, tokens) else old(View())
    {
      if attempt.Some? && attempt.value in pending {
        assert pending[attempt.value].entry in Parts();
        label open:
        Correct(attempt.value, tokens);
        hide Valid, View, Parts, Priced, OnlyPriced;
        PricedView@open(attempt.value, tokens);
      }
    }

    /** `settle`: the entry learns its real cost, and the route its tokens per byte. */
    method Settle(b: Body)
      requires Valid() && b.Usage?
      modifies Parts()
      ensures Valid() && View() == OnUsage(old(View()), b) && GrewFresh()
    {
      hide Valid, View, Parts, Calibrated, With, Lookup, Priced, Known;
      if b.tokens > 0 {
        var total := b.tokens as real;
        Pay(b.attempt, total);
        Calibrate(b.route, b.bytes, total);
      }
    }

    // ---- a dispatch -------------------------------------------------------------------------

    /** The route's ledger lost a prefix and gained one fresh entry, which a new pending attempt shares. */
    twostate predicate Entered(new key: Key, new id: Id, new producer: string, new dropped: nat)
      reads *
    {
      && unchanged(this`now, this`cursor, this`states, this`capacity, this`producers, this`sessions,
                   this`events, this`eventSeq, this`streamId, this`retentionThrough)
      && key in states && id !in old(pending)
      && id in pending && pending == old(pending)[id := Slot(pending[id].entry, key, producer, false)]
      && fresh(pending[id].entry) && pending[id].entry.attempt == Some(id)
      && dropped <= |old(states[key].sent)|
      && states[key].sent == old(states[key].sent)[dropped..] + [pending[id].entry]
      && forall o | o in old(Parts()) && o != this && o != states[key] :: unchanged(o)
    }

    twostate lemma EnteredRest(new key: Key, new id: Id, new producer: string, new dropped: nat)
      requires old(Linked()) && Entered(key, id, producer, dropped)
      ensures forall k | k in states && k != key :: unchanged(states[k])
      ensures forall e | e in old(Entries()) :: unchanged(e)
    {
      forall k | k in old(states) && k != key ensures unchanged(old(states[k])) {
        assert old(states[k]) in old(Parts());
      }
      forall e | e in old(Entries()) ensures unchanged(e) {
        assert e in old(Parts());
      }
    }

    twostate lemma EnteredEntries(new key: Key, new id: Id, new producer: string, new dropped: nat)
      requires old(Linked()) && Entered(key, id, producer, dropped)
      ensures Entries() <= old(Entries()) + {pending[id].entry}
      ensures GrewFresh()
    {
      EnteredRest(key, id, producer, dropped);
      forall k, i | k in states && 0 <= i < |states[k].sent| ensures states[k].sent[i] in old(Entries()) + {pending[id].entry} {
        if k != key { assert states[k].sent[i] == old(states[k].sent)[i]; }
        else if i < |states[k].sent| - 1 { assert states[k].sent[i] == old(states[k].sent)[dropped + i]; }
      }
    }

    twostate lemma EnteredLinks(new key: Key, new id: Id, new producer: string, new dropped: nat)
      requires old(Valid()) && Entered(key, id, producer, dropped)
      requires old(forall k, i | k in states && 0 <= i < |states[k].sent| :: states[k].sent[i].attempt != Some(id))
      ensures Linked()
    {
      EnteredRest(key, id, producer, dropped);
      EnteredEntries(key, id, producer, dropped);
      forall x | x in pending ensures pending[x].entry.attempt == Some(x) {
        if x != id { assert old(pending)[x].entry in old(Entries()); }
      }
      forall k, i, x | k in states && 0 <= i < |states[k].sent| && x in pending
        ensures states[k].sent[i] in Entries() && (states[k].sent[i].attempt == Some(x) ==> states[k].sent[i] == pending[x].entry)
      {
        var e := states[k].sent[i];
        if k == key && i == |states[k].sent| - 1 {
          assert e == pending[id].entry;
        } else {
          var j := if k == key then dropped + i else i;
          assert e == old(states[k].sent)[j];
          assert old(states[k].sent[j].attempt) != Some(id);
        }
      }
    }

    twostate lemma EnteredLedgers(new key: Key, new id: Id, new producer: string, new dropped: nat)
      requires old(Linked()) && Entered(key, id, producer, dropped)
      ensures forall k | k in states && k != key :: Views(states[k].sent) == old(Views(states[k].sent))
      ensures Views(states[key].sent) == old(Views(states[key].sent))[dropped..] + [pending[id].entry.View()]
    {
      EnteredRest(key, id, producer, dropped);
      forall k | k in states ensures Views(old(states[k].sent)) == old(Views(states[k].sent)) {
        forall i | 0 <= i < |old(states[k].sent)| ensures unchanged(old(states[k].sent)[i]) {
          assert old(states[k].sent)[i] in old(Entries());
        }
      }
    }

    twostate lemma EnteredRoutes(new key: Key, new id: Id, new producer: string, new dropped: nat)
      requires old(Linked()) && Entered(key, id, producer, dropped)
      ensures forall k | k in states && k != key :: RouteView(k) == old(RouteView(k))
    {
      EnteredRest(key, id, producer, dropped);
      EnteredLedgers(key, id, producer, dropped);
      hide Linked, Views, Entries, Parts;
    }

    twostate lemma EnteredSlots(new key: Key, new id: Id, new producer: string, new dropped: nat)
      requires old(Linked()) && Entered(key, id, producer, dropped)
      ensures View().pending == old(View()).pending[id := Pending(pending[id].entry.View(), key, producer, false)]
    {
      EnteredRest(key, id, producer, dropped);
      forall x | x in old(pending) ensures SlotView(pending[x]) == old(SlotView(pending[x])) {
        assert pending[x] == old(pending)[x] && pending[x].entry in old(Entries());
      }
    }

    twostate lemma EnteredStates(new key: Key, new id: Id, new producer: string, new dropped: nat)
      requires old(Linked()) && Entered(key, id, producer, dropped)
      ensures StatesView() == old(StatesView())[key := RouteView(key)]
    {
      EnteredRoutes(key, id, producer, dropped);
      MoreMaps(key, StatesView(), old(StatesView()), RouteView(key));
    }

    twostate lemma EnteredView(new key: Key, new id: Id, new producer: string, new dropped: nat)
      requires old(Linked()) && Entered(key, id, producer, dropped)
      ensures states[key].View().sent != []
      ensures View() == Admit(old(View()), key, states[key].View(), id, producer)
    {
      EnteredSlots(key, id, producer, dropped);
      EnteredStates(key, id, producer, dropped);
      EnteredLedgers(key, id, producer, dropped);
      hide Linked, Views, Entries, Parts, StatesView;
    }

    method Enter(key: Key, b: Body, producer: string) returns (ghost dropped: nat)
      requires b.Dispatch? && cfg.Valid() && key in states && b.id !in pending
      modifies this`pending, states[key]
      ensures Entered(key, b.id, producer, dropped)
      ensures states[key].View() == Charged(old(states[key].View()), now, Estimate(old(states[key].View()), b.bytes, cfg), b.face, Some(b.id), cfg)
    {
      hide Estimate, Charged, Views;
      var tokens := states[key].EstimateTokens(b.bytes, cfg);
      var entry;
      entry, dropped := states[key].Charge(now, tokens, b.face, Some(b.id), cfg);
      pending := pending[b.id := Slot(entry, key, producer, false)];
    }

    twostate lemma EnteredOK(new key: Key, new id: Id, new producer: string, new dropped: nat)
      requires old(Valid()) && Entered(key, id, producer, dropped)
      requires old(Unlocated(View(), id))
      ensures Valid() && GrewFresh()
      ensures states[key].View().sent != []
      ensures View() == Admit(old(View()), key, states[key].View(), id, producer)
    {
      forall k, i | k in old(states) && 0 <= i < |old(states[k].sent)| ensures old(states[k].sent[i].attempt) != Some(id) {
        assert old(!Located(View(), k, i, id));
      }
      EnteredLinks(key, id, producer, dropped);
      EnteredEntries(key, id, producer, dropped);
      EnteredView(key, id, producer, dropped);
      EnteredLedgers(key, id, producer, dropped);
      hide Linked, Entries, UniqueIds, Admit;
      AdmitUnique(old(View()), key, states[key].View(), id, producer, dropped);
    }

    method Join(key: Key, b: Body, producer: string)
      requires Valid() && b.Dispatch? && key in states && b.id !in pending
      requires Unlocated(View(), b.id)
      modifies Parts()
      ensures Valid() && GrewFresh()
      ensures Charged(Lookup(old(View()), key), now, Estimate(Lookup(old(View()), key), b.bytes, cfg), b.face, Some(b.id), cfg).sent != []
      ensures View() == Admit(old(View()), key, Charged(Lookup(old(View()), key), now, Estimate(Lookup(old(View()), key), b.bytes, cfg), b.face, Some(b.id), cfg), b.id, producer)
    {
      assert this in Parts() && states[key] in Parts() && cfg.Valid() && Lookup(View(), key) == states[key].View();
      hide Valid, Linked, UniqueIds, View, StatesView, RouteView, SlotView, Lookup, Views, Entries, Parts, With, Charged, Estimate, Admit, Entered;
      ghost var dropped := Enter(key, b, producer);
      EnteredOK(key, b.id, producer, dropped);
    }

    /** `consume` of a dispatch: an attempt already pending is not charged twice. */
    method Dispatch(b: Body, producer: string)
      requires Valid() && b.Dispatch?
      requires b.id !in pending ==> Unlocated(View(), b.id)
      modifies Parts()
      ensures Valid() && View() == OnDispatch(old(View()), producer, b, cfg) && GrewFresh()
    {
      assert b.id in View().pending <==> b.id in pending;
      assert cfg.Valid();
      hide Valid, View, Parts, With, Charged, Estimate, Admit, UniqueIds, Unlocated;
      if b.id !in pending {
        ghost var v := View();
        NoteAttempt(b.route);
        AttemptedUnlocated(v, b.route, b.id);
        Join(b.route, b, producer);
        AdmitTwice(v, b.route, b, producer, cfg);
      }
    }

    // ---- the rest -----------------------------------------------------------------------------

    method Flag(id: Id)
      requires Valid() && id in pending
      modifies this`pending
      ensures Valid() && GrewFresh()
      ensures View() == old(View()).(pending := old(View()).pending[id := old(View()).pending[id].(success := true)])
    {
      pending := pending[id := pending[id].(success := true)];
      SlotsOnly();
      FlaggedSlots(id);
      hide Linked, UniqueIds, Entries, StatesView;
    }

    twostate lemma FlaggedSlots(new id: Id)
      requires RoutesUntouched() && id in old(pending)
      requires pending == old(pending)[id := old(pending)[id].(success := true)]
      ensures View().pending == old(View()).pending[id := old(View()).pending[id].(success := true)]
    {
      forall x | x in pending ensures pending[x].entry == old(pending)[x].entry && unchanged(pending[x].entry) {
        assert old(pending)[x].entry in old(Entries());
      }
    }

    /** `consume` of a success: each attempt proves its dispatch rate at most once. */
    method Succeed(b: Body)
      requires Valid() && b.Success?
      modifies Parts()
      ensures Valid() && View() == OnSuccess(old(View()), b) && GrewFresh()
    {
      if b.attempt.None? || b.attempt.value !in pending || pending[b.attempt.value].success { return; }
      var id := b.attempt.value;
      var rate := pending[id].entry.rpm;
      assert this in Parts();
      assert Known(View(), b.attempt) == Some(View().pending[id]) && View().pending[id].entry.rpm == rate;
      LearnKeepsPending(View(), b.route, rate);
      hide Valid, View, Parts, EngineModel.Learn;
      Learn(b.route, rate);
      Flag(id);
    }

    /** A producer that started leaves no earlier attempt behind. */
    method RetireProducer(producer: string)
      requires Valid()
      modifies this`pending
      ensures Valid() && GrewFresh() && View() == Retire(old(View()), producer)
    {
      pending := map id | id in pending && pending[id].producer != producer :: pending[id];
      SlotsOnly();
      RetiredSlots(producer);
      hide Linked, UniqueIds, Entries, StatesView, Retire;
    }

    twostate lemma RetiredSlots(new producer: string)
      requires RoutesUntouched()
      requires pending == map id | id in old(pending) && old(pending)[id].producer != producer :: old(pending)[id]
      ensures View().pending == Retire(old(View()), producer).pending
    {
      forall id | id in pending ensures SlotView(pending[id]) == old(SlotView(pending[id])) {
        assert old(pending)[id].entry in old(Entries());
      }
    }

    method DropProducer(producer: string)
      requires Valid()
      modifies this`producers
      ensures Valid() && GrewFresh() && View() == old(View()).(producers := old(producers) - {producer})
    {
      producers := producers - {producer};
      SlotsOnly();
      hide Linked, UniqueIds, Entries, StatesView;
    }

    method FinishAttempt(attempt: Option<Id>)
      requires Valid()
      modifies this`pending
      ensures Valid() && GrewFresh()
      ensures View() == if attempt.Some? then old(View()).(pending := old(View()).pending - {attempt.value}) else old(View())
    {
      if attempt.Some? {
        pending := pending - {attempt.value};
        SlotsOnly();
        FewerSlots(attempt.value);
        hide Linked, UniqueIds, Entries, StatesView;
      }
    }

    twostate lemma FewerSlots(new id: Id)
      requires RoutesUntouched() && pending == old(pending) - {id}
      ensures View().pending == old(View()).pending - {id}
    {
      forall x | x in pending ensures pending[x] == old(pending)[x] && unchanged(pending[x].entry) {
        assert old(pending)[x].entry in old(Entries());
      }
    }

    method Hear(summary: string)
      requires Valid()
      modifies this`sessions
      ensures Valid() && GrewFresh() && View() == old(View()).(sessions := summary)
    {
      sessions := summary;
      SlotsOnly();
    }

    method Tick(e: Observation)
      requires Valid()
      modifies this`now, this`producers
      ensures Valid() && Parts() == old(Parts()) && View() == Clocked(old(View()), e)
    {
      now := e.at;
      if e.pid.Some? { producers := producers[e.producer := Beat(e.pid.value, e.at)]; }
      SlotsOnly();
      hide Linked, UniqueIds, Entries, StatesView;
    }

    /** Records about a route. */
    method ReactToRoute(e: Observation)
      requires Valid() && FreshDispatch(View(), e)
      requires e.body.Dispatch? || e.body.Status? || e.body.Demote? || e.body.Timeout? || e.body.Usage? || e.body.Success?
      modifies Parts()
      ensures Valid() && View() == React(old(View()), e, cfg) && GrewFresh()
    {
      assert this in Parts() && cfg.Valid();
      assert e.body.Dispatch? ==> (e.body.id in View().pending <==> e.body.id in pending);
      RouteReaction(View(), e, cfg);
      hide Valid, View, Parts, OnDispatch, OnDemote, OnUsage, OnSuccess, With, Lookup, Answered, TimedOut, Unlocated, GrewFresh, React;
      var b := e.body;
      if b.Dispatch? { Dispatch(b, e.producer); }
      else if b.Demote? { Demote(b); }
      else if b.Usage? { Settle(b); }
      else if b.Success? { Succeed(b); }
      else if b.Status? { NoteStatus(b.route, b.status); }
      else { NoteTimeout(b.route); }
    }

    /** Records about a producer. */
    method ReactToProducer(e: Observation)
      requires Valid()
      requires e.body.Heartbeat? || e.body.Narrated? || e.body.Sessions? || e.body.Started? || e.body.Stopped? || e.body.Finish?
      modifies Parts()
      ensures Valid() && View() == React(old(View()), e, cfg) && GrewFresh()
    {
      assert this in Parts();
      hide Valid, View, Parts, Emit, Retire;
      var b := e.body;
      if b.Narrated? { Speak(b.kind, b.level, b.detail, Text(b.message)); }
      else if b.Sessions? { Hear(b.summary); }
      else if b.Finish? { FinishAttempt(b.attempt); }
      else if b.Started? { RetireProducer(e.producer); }
      else if b.Stopped? { RetireProducer(e.producer); DropProducer(e.producer); }
    }

    method ReactTo(e: Observation)
      requires Valid() && FreshDispatch(View(), e)
      modifies Parts()
      ensures Valid() && View() == React(old(View()), e, cfg) && GrewFresh()
    {
      hide Valid, View, Parts, React, FreshDispatch, GrewFresh;
      var b := e.body;
      if b.Dispatch? || b.Status? || b.Demote? || b.Timeout? || b.Usage? || b.Success? {
        ReactToRoute(e);
      } else {
        ReactToProducer(e);
      }
    }

    /** `Engine.consume`, on objects, is `Consume` on values. */
    method Consume(e: Observation)
      requires Valid() && FreshDispatch(View(), e)
      modifies Parts()
      ensures Valid() && View() == EngineModel.Consume(old(View()), e, cfg) && GrewFresh()
    {
      assert this in Parts() && cfg.Valid();
      ClockedFresh(View(), e);
      hide Valid, View, Parts, React, Clocked, FreshDispatch;
      Tick(e);
      ReactTo(e);
    }

    method MoveTo(num: nat)
      requires Valid()
      modifies this`cursor
      ensures Valid() && Parts() == old(Parts()) && View() == old(View()).(cursor := num)
    {
      cursor := num;
      SlotsOnly();
      hide Linked, UniqueIds, Entries, StatesView;
    }

    /** One row of a batch: consumed if it is newer than the cutoff, and behind us either way. */
    method Take(num: nat, e: Observation, cutoff: real)
      requires Valid() && (e.at > cutoff ==> FreshDispatch(View(), e))
      modifies Parts()
      ensures Valid() && GrewFresh()
      ensures View() == Step(old(View()), if e.at > cutoff then Consumed(num, e) else Skipped(num, cutoff), cfg)
    {
      assert this in Parts() && cfg.Valid();
      hide Valid, View, Parts, EngineModel.Consume, FreshDispatch;
      if e.at > cutoff {
        Consume(e);
      }
      assert this in Parts();
      MoveTo(num);
    }

    /** Records one after another. */
    method Replay(es: seq<Observation>)
      requires Valid() && FreshRun(View(), es, cfg)
      modifies Parts()
      ensures Valid() && View() == Recovery.Replay(old(View()), es, cfg) && GrewFresh()
    {
      assert cfg.Valid();
      hide Valid, View, Parts, EngineModel.Consume, FreshDispatch;
      for i := 0 to |es|
        invariant Valid() && View() == Recovery.Replay(old(View()), es[..i], cfg)
        invariant forall o | o in Parts() && o !in old(Parts()) :: fresh(o)
      {
        assert es[..i + 1][..i] == es[..i];
        Consume(es[i]);
      }
      assert es[..|es|] == es;
    }
  }

  lemma DemotedKeeps(r: RouteV, now: real, b: Body, observed: Option<real>, cfg: Settings)
    requires cfg.Valid() && b.Demote?
    ensures Demoted(r, now, b.reason, b.retryAfter, observed, cfg).safeRpm == r.safeRpm
  {
    hide Attributed, Penalise;
  }

  /** Rates matter to what is said only when a throttle attributes usage. */
  lemma UnheardRates(v: EngineV, b: Body, ours: real, ours': real, safe: real, outside: real, outside': real, penalty: Penalty, cfg: Settings)
    requires b.Demote? && (b.reason == "429" ==> ours == ours' && outside == outside')
    ensures Announced(v, b, ours, safe, outside, penalty, cfg) == Announced(v, b, ours', safe, outside', penalty, cfg)
  {
    hide Emit;
  }

  /** What each record about a route comes to. */
  lemma RouteReaction(v: EngineV, e: Observation, cfg: Settings)
    requires cfg.Valid()
    ensures e.body.Dispatch? ==> React(v, e, cfg) == OnDispatch(v, e.producer, e.body, cfg)
    ensures e.body.Demote? ==> React(v, e, cfg) == OnDemote(v, e.body, cfg)
    ensures e.body.Usage? ==> React(v, e, cfg) == OnUsage(v, e.body)
    ensures e.body.Success? ==> React(v, e, cfg) == OnSuccess(v, e.body)
    ensures e.body.Status? ==> React(v, e, cfg) == With(v, e.body.route, Answered(Lookup(v, e.body.route), e.body.status))
    ensures e.body.Timeout? ==> React(v, e, cfg) == With(v, e.body.route, TimedOut(Lookup(v, e.body.route)))
  {
  }

  lemma LearnKeepsPending(v: EngineV, key: Key, rate: real)
    ensures EngineModel.Learn(v, key, rate).pending == v.pending
  {
  }

  lemma ClockedFresh(v: EngineV, e: Observation)
    requires FreshDispatch(v, e)
    ensures FreshDispatch(Clocked(v, e), e)
  {
    var w := Clocked(v, e);
    if e.body.Dispatch? && e.body.id !in w.pending {
      forall k, i: nat ensures !Located(w, k, i, e.body.id) {
        assert !Located(v, k, i, e.body.id);
      }
    }
  }

  lemma AttemptedUnlocated(v: EngineV, key: Key, id: Id)
    requires Unlocated(v, id)
    ensures Unlocated(With(v, key, Attempted(Lookup(v, key))), id)
  {
    var w := With(v, key, Attempted(Lookup(v, key)));
    forall k, i: nat ensures !Located(w, k, i, id) {
      assert !Located(v, k, i, id);
    }
  }

  /** Counting the attempt and then charging it is one dispatch. */
  lemma AdmitTwice(v: EngineV, key: Key, b: Body, producer: string, cfg: Settings)
    requires cfg.Valid() && b.Dispatch? && b.route == key && b.id !in v.pending
    ensures var w := With(v, key, Attempted(Lookup(v, key)));
            var r := Charged(Lookup(w, key), w.now, Estimate(Lookup(w, key), b.bytes, cfg), b.face, Some(b.id), cfg);
            Admit(w, key, r, b.id, producer) == OnDispatch(v, producer, b, cfg)
  {
    var w := With(v, key, Attempted(Lookup(v, key)));
    var r := Charged(Lookup(w, key), w.now, Estimate(Lookup(w, key), b.bytes, cfg), b.face, Some(b.id), cfg);
    assert r == ChargedFor(Lookup(v, key), v.now, b, cfg);
    hide Charged, Estimate, ChargedFor;
    WithTwice(v, key, Attempted(Lookup(v, key)), r);
  }

  lemma PricedUnique(v: EngineV, id: Id, tokens: real)
    requires UniqueIds(v) && id in v.pending
    ensures UniqueIds(Priced(v, id, tokens))
  {
    var w := Priced(v, id, tokens);
    forall k, i: nat, l, j: nat, x | Located(w, k, i, x) && Located(w, l, j, x) ensures k == l && i == j {
      assert Located(v, k, i, x) && Located(v, l, j, x);
    }
  }

  /** A ledger that lost a prefix and gained one entry with an unused id keeps ids unique. */
  lemma AdmitUnique(v: EngineV, key: Key, r: RouteV, id: Id, producer: string, dropped: nat)
    requires UniqueIds(v) && key in v.states && forall k, i: nat :: !Located(v, k, i, id)
    requires dropped <= |v.states[key].sent| && r.sent != []
    requires r.sent[..|r.sent| - 1] == v.states[key].sent[dropped..] && r.sent[|r.sent| - 1].attempt == Some(id)
    ensures UniqueIds(Admit(v, key, r, id, producer))
  {
    var w := Admit(v, key, r, id, producer);
    forall k, i: nat, l, j: nat, x | Located(w, k, i, x) && Located(w, l, j, x) ensures k == l && i == j {
      if x != id {
        var i' := if k == key then dropped + i else i;
        var j' := if l == key then dropped + j else j;
        assert k == key ==> i < |r.sent| - 1 && r.sent[i] == r.sent[..|r.sent| - 1][i];
        assert l == key ==> j < |r.sent| - 1 && r.sent[j] == r.sent[..|r.sent| - 1][j];
        assert Located(v, k, i', x) && Located(v, l, j', x);
      } else {
        assert k == key && i == |r.sent| - 1 by { Newest(v, key, r, id, producer, dropped, k, i); }
        assert l == key && j == |r.sent| - 1 by { Newest(v, key, r, id, producer, dropped, l, j); }
      }
    }
  }

  lemma Newest(v: EngineV, key: Key, r: RouteV, id: Id, producer: string, dropped: nat, k: Key, i: nat)
    requires key in v.states && forall k, i: nat :: !Located(v, k, i, id)
    requires dropped <= |v.states[key].sent| && r.sent != []
    requires r.sent[..|r.sent| - 1] == v.states[key].sent[dropped..]
    requires Located(Admit(v, key, r, id, producer), k, i, id)
    ensures k == key && i == |r.sent| - 1
  {
    assert i < |r.sent| - 1 ==> r.sent[i] == r.sent[..|r.sent| - 1][i];
    assert !Located(v, k, i, id) && !Located(v, key, dropped + i, id);
  }

  lemma WithTwice(v: EngineV, key: Key, a: RouteV, b: RouteV)
    ensures With(With(v, key, a), key, b) == With(v, key, b)
  {
    assert With(With(v, key, a), key, b).states == With(v, key, b).states;
  }

  /** A route with an empty ledger brings no attempt. */
  lemma EmptyLedger(v: EngineV, key: Key, r: RouteV)
    requires UniqueIds(v) && r.sent == []
    ensures UniqueIds(With(v, key, r))
  {
    var w := With(v, key, r);
    forall k, i: nat, l, j: nat, id | Located(w, k, i, id) && Located(w, l, j, id) ensures k == l && i == j {
      assert Located(v, k, i, id) && Located(v, l, j, id);
    }
  }

  lemma SameMaps(key: Key, a: map<Key, RouteV>, b: map<Key, RouteV>, r: RouteV)
    requires key in a && a.Keys == b.Keys && a[key] == r && forall k | k in a.Keys && k != key :: a[k] == b[k]
    ensures a == b[key := r]
  {
  }

  // ---- loading a checkpoint -------------------------------------------------------------------

  method LoadEntries(s: seq<EntryV>) returns (es: seq<Entry>)
    ensures |es| == |s| && fresh(es) && Views(es) == s
    ensures forall i, j | 0 <= i < j < |es| :: es[i] != es[j]
  {
    hide Entry.View;
    es := [];
    for i := 0 to |s|
      invariant |es| == i && fresh(es) && Views(es) == s[..i]
      invariant forall x, y | 0 <= x < y < |es| :: es[x] != es[y]
    {
      var e := new Entry(s[i]);
      ViewsSnoc(es, e);
      es := es + [e];
    }
  }

  method LoadRoute(v: RouteV) returns (r: RouteState)
    ensures fresh(r) && fresh(r.sent) && r.View() == v
  {
    var entries := LoadEntries(v.sent);
    r := new RouteState(v, entries);
  }

  /** The entry the attempt's record holds: the ledger's own while the ledger still has it. */
  method Attach(p: Pending, id: Id, index: map<Id, Entry>) returns (slot: Slot)
    requires id in index ==> index[id].View() == p.entry
    ensures SlotView(slot) == p && if id in index then slot.entry == index[id] else fresh(slot.entry)
  {
    if id in index {
      slot := Slot(index[id], p.route, p.producer, p.success);
    } else {
      var own := new Entry(p.entry);
      slot := Slot(own, p.route, p.producer, p.success);
    }
  }

  /** Every route of the checkpoint as an object of its own. */
  method LoadStates(saved: map<Key, RouteV>) returns (states: map<Key, RouteState>)
    ensures states.Keys == saved.Keys
    ensures forall k | k in states :: fresh(states[k]) && fresh(states[k].sent) && states[k].View() == saved[k]
    ensures forall k, l | k in states && l in states && k != l :: states[k] != states[l]
  {
    hide Loaded, RouteState.View, Views;
    states := map[];
    var todo := saved.Keys;
    NoneLoaded(saved);
    while todo != {}
      invariant todo <= saved.Keys && states.Keys == saved.Keys - todo
      invariant forall k | k in states :: fresh(states[k]) && fresh(states[k].sent)
      invariant Loaded(states, saved)
      decreases |todo|
    {
      var key :| key in todo;
      var r := LoadRoute(saved[key]);
      assert forall k | k in states :: states[k] != r;
      OneMoreLoaded(states, saved, key, r);
      states := states[key := r];
      todo := todo - {key};
    }
    AllLoaded(states, saved);
  }

  /** The routes loaded so far: an object each, of the saved value. */
  ghost predicate Loaded(states: map<Key, RouteState>, saved: map<Key, RouteV>)
    reads states.Values, set k, i | k in states && 0 <= i < |states[k].sent| :: states[k].sent[i]
  {
    assert forall k, e | k in states && e in states[k].sent :: exists i :: 0 <= i < |states[k].sent| && states[k].sent[i] == e;
    && (forall k | k in states :: k in saved && states[k].View() == saved[k])
    && (forall k, l | k in states && l in states && k != l :: states[k] != states[l])
  }

  lemma NoneLoaded(saved: map<Key, RouteV>)
    ensures Loaded(map[], saved)
  {
  }

  lemma OneMoreLoaded(states: map<Key, RouteState>, saved: map<Key, RouteV>, key: Key, r: RouteState)
    requires Loaded(states, saved) && key in saved && r.View() == saved[key] && forall k | k in states :: states[k] != r
    ensures Loaded(states[key := r], saved)
  {
  }

  lemma AllLoaded(states: map<Key, RouteState>, saved: map<Key, RouteV>)
    requires Loaded(states, saved)
    ensures forall k | k in states :: k in saved && states[k].View() == saved[k]
    ensures forall k, l | k in states && l in states && k != l :: states[k] != states[l]
  {
  }

  /** `entries.update(...)`: ledger entries by the attempt id they carry. */
  method IndexEntries(states: map<Key, RouteState>) returns (index: map<Id, Entry>)
    ensures forall k, i, id | k in states && 0 <= i < |states[k].sent| && states[k].sent[i].attempt == Some(id) :: id in index
    ensures forall id | id in index :: index[id].attempt == Some(id) && exists k, i :: Held(states, k, i, index[id])
  {
    index := map[];
    var todo := states.Keys;
    while todo != {}
      invariant todo <= states.Keys
      invariant forall k, i, id | k in states && k !in todo && 0 <= i < |states[k].sent| && states[k].sent[i].attempt == Some(id) :: id in index
      invariant forall id | id in index :: index[id].attempt == Some(id) && exists k, i :: Held(states, k, i, index[id])
      decreases |todo|
    {
      var key :| key in todo;
      var s := states[key].sent;
      for j := 0 to |s|
        invariant forall k, i, id | k in states && k !in todo && 0 <= i < |states[k].sent| && states[k].sent[i].attempt == Some(id) :: id in index
        invariant forall i, id | 0 <= i < j && s[i].attempt == Some(id) :: id in index
        invariant forall id | id in index :: index[id].attempt == Some(id) && exists k, i :: Held(states, k, i, index[id])
      {
        if s[j].attempt.Some? {
          assert Held(states, key, j, s[j]);
          index := index[s[j].attempt.value := s[j]];
        }
      }
      todo := todo - {key};
    }
  }

  /** Route `k` holds this very entry at position `i`. */
  ghost predicate Held(states: map<Key, RouteState>, k: Key, i: int, e: Entry)
    reads states.Values
  {
    k in states && 0 <= i < |states[k].sent| && states[k].sent[i] == e
  }

  /** Every pending attempt shares the ledger entry with its id. */
  ghost predicate Joined(states: map<Key, RouteState>, pending: map<Id, Slot>)
    reads states.Values, set k, i | k in states && 0 <= i < |states[k].sent| :: states[k].sent[i]
    reads set id | id in pending :: pending[id].entry
  {
    && (forall id | id in pending :: pending[id].entry.attempt == Some(id))
    && (forall k, i, id | k in states && 0 <= i < |states[k].sent| && id in pending ::
          states[k].sent[i].attempt == Some(id) ==> states[k].sent[i] == pending[id].entry)
  }

  /** The ledgers of `v` as objects, and their entries by the attempt id they carry. */
  ghost predicate Indexed(v: EngineV, states: map<Key, RouteState>, index: map<Id, Entry>)
    reads states.Values, set k, i | k in states && 0 <= i < |states[k].sent| :: states[k].sent[i]
    reads index.Values
  {
    assert forall k, e | k in states && e in states[k].sent :: exists i :: 0 <= i < |states[k].sent| && states[k].sent[i] == e;
    && states.Keys == v.states.Keys && (forall k | k in states :: states[k].View() == v.states[k])
    && (forall k, i, id | k in states && 0 <= i < |states[k].sent| && states[k].sent[i].attempt == Some(id) :: id in index)
    && (forall id | id in index :: index[id].attempt == Some(id) && exists k, i :: Held(states, k, i, index[id]))
  }

  lemma Indexing(v: EngineV, states: map<Key, RouteState>, index: map<Id, Entry>)
    requires states.Keys == v.states.Keys && forall k | k in states :: states[k].View() == v.states[k]
    requires forall k, i, id | k in states && 0 <= i < |states[k].sent| && states[k].sent[i].attempt == Some(id) :: id in index
    requires forall id | id in index :: index[id].attempt == Some(id) && exists k, i :: Held(states, k, i, index[id])
    ensures Indexed(v, states, index)
  {
    hide RouteState.View, Held;
  }

  lemma IndexAgrees(v: EngineV, states: map<Key, RouteState>, index: map<Id, Entry>)
    requires IdentityOK(v) && Indexed(v, states, index)
    ensures forall id | id in v.pending && id in index :: index[id].View() == v.pending[id].entry
  {
    forall id | id in v.pending && id in index ensures index[id].View() == v.pending[id].entry {
      var k, i :| Held(states, k, i, index[id]);
      assert states[k].View().sent[i] == index[id].View();
      assert Located(v, k, i, id);
    }
  }

  lemma IndexLinks(v: EngineV, states: map<Key, RouteState>, index: map<Id, Entry>, pending: map<Id, Slot>)
    requires IdentityOK(v) && Indexed(v, states, index)
    requires pending.Keys == v.pending.Keys && forall id | id in pending :: SlotView(pending[id]) == v.pending[id]
    requires forall id | id in pending && id in index :: pending[id].entry == index[id]
    ensures states.Keys == v.states.Keys && forall k | k in states :: states[k].View() == v.states[k]
    ensures Joined(states, pending)
  {
    forall id | id in pending ensures pending[id].entry.attempt == Some(id) {
      assert SlotView(pending[id]).entry.attempt == Some(id);
    }
    forall k, i, id | k in states && 0 <= i < |states[k].sent| && id in pending && states[k].sent[i].attempt == Some(id)
      ensures states[k].sent[i] == pending[id].entry
    {
      var l, j :| Held(states, l, j, index[id]);
      assert states[k].View().sent[i].attempt == Some(id) && states[l].View().sent[j].attempt == Some(id);
      assert Located(v, k, i, id) && Located(v, l, j, id);
    }
  }

  /** `record["entry"] = entries.get(key, record["entry"])` for every pending attempt. */
  method LoadPending(saved: map<Id, Pending>, index: map<Id, Entry>) returns (pending: map<Id, Slot>)
    requires forall id | id in saved && id in index :: index[id].View() == saved[id].entry
    ensures pending.Keys == saved.Keys
    ensures forall id | id in pending :: SlotView(pending[id]) == saved[id]
    ensures forall id | id in pending :: if id in index then pending[id].entry == index[id] else fresh(pending[id].entry)
  {
    hide SlotView, Entry.View;
    pending := map[];
    var todo := saved.Keys;
    while todo != {}
      invariant todo <= saved.Keys && pending.Keys == saved.Keys - todo
      invariant forall id | id in pending :: SlotView(pending[id]) == saved[id]
      invariant forall id | id in pending :: if id in index then pending[id].entry == index[id] else fresh(pending[id].entry)
      decreases |todo|
    {
      var id :| id in todo;
      var slot := Attach(saved[id], id, index);
      pending := pending[id := slot];
      todo := todo - {id};
    }
  }

  method Rebuild(v: EngineV) returns (states: map<Key, RouteState>, pending: map<Id, Slot>)
    requires IdentityOK(v)
    ensures states.Keys == v.states.Keys
    ensures forall k | k in states :: fresh(states[k]) && fresh(states[k].sent) && states[k].View() == v.states[k]
    ensures forall k, l | k in states && l in states && k != l :: states[k] != states[l]
    ensures pending.Keys == v.pending.Keys
    ensures forall id | id in pending :: fresh(pending[id].entry) && SlotView(pending[id]) == v.pending[id]
    ensures Joined(states, pending)
  {
    hide IdentityOK, Views, RouteState.View, Indexed, Joined, SlotView;
    states := LoadStates(v.states);
    var index := IndexEntries(states);
    Indexing(v, states, index);
    IndexAgrees(v, states, index);
    pending := LoadPending(v.pending, index);
    IndexLinks(v, states, index, pending);
  }

  twostate lemma FreshParts(new engine: Engine)
    requires fresh(engine) && forall k | k in engine.states :: fresh(engine.states[k]) && fresh(engine.states[k].sent)
    requires forall id | id in engine.pending :: fresh(engine.pending[id].entry)
    ensures forall o | o in engine.Parts() :: fresh(o)
  {
  }

  /**
   `restore`: what the checkpoint still holds after ageing, rebuilt as objects, with every
   pending attempt joined again to the ledger entry that carries its id.
   */
  method Restore(cfg: Settings, saved: EngineV, cutoff: real, now: real) returns (engine: Engine)
    requires cfg.Valid() && IdentityOK(saved)
    ensures fresh(engine) && engine.cfg == cfg
    ensures engine.Valid() && engine.View() == Restored(saved, cutoff, now)
    ensures forall o | o in engine.Parts() :: fresh(o)
  {
    hide Aged, IdentityOK, UniqueIds, Restored, Views, RouteState.View, SlotView, Joined, Engine.Parts, Engine.Valid, Engine.View;
    var v := Restored(saved, cutoff, now);
    RestoredIdentity(saved, cutoff, now);
    var states, pending := Rebuild(v);
    engine := new Engine(cfg, v, states, pending);
    FreshParts(engine);
    engine.Rebuilt(v);
  }

  /**
   Crash transparency of the running engine: save it, rebuild it from what was saved, and let both
   replay the same rest of the journal.  Rebuilt and uninterrupted engine then agree, once the
   second ages out what the first aged out at its start.
   */
  method RestartAgrees(live: Engine, es: seq<Observation>, cutoff: real, now: real) returns (rebuilt: Engine)
    requires live.Valid() && es != []
    requires ImmuneRun(live.View(), es, cutoff, live.cfg) && FreshRun(live.View(), es, live.cfg)
    modifies live.Parts()
    ensures live.Valid() && live.View() == Recovery.Replay(old(live.View()), es, live.cfg)
    ensures fresh(rebuilt) && rebuilt.Valid()
    ensures Core(rebuilt.View()) == Core(Aged(live.View(), cutoff))
  {
    hide Engine.Valid, Engine.View, Aged, Restored, ImmuneRun, FreshRun, IdentityOK, Recovery.Replay;
    live.ValidMeansIdentified();
    var saved := live.View();
    ImmuneEnd(saved, es, cutoff, now, live.cfg);
    rebuilt := Revive(live.cfg, saved, es, cutoff, now);
    Undisturbed(live);
    label revived:
    live.Replay(es);
    Undisturbed@revived(rebuilt);
  }

  /** A new process: restore the checkpoint, then replay the rest of the journal. */
  method Revive(cfg: Settings, saved: EngineV, es: seq<Observation>, cutoff: real, now: real) returns (engine: Engine)
    requires cfg.Valid() && IdentityOK(saved) && ImmuneRun(saved, es, cutoff, cfg) && FreshRun(saved, es, cfg)
    ensures fresh(engine) && engine.Valid() && forall o | o in engine.Parts() :: fresh(o)
    ensures engine.View() == Recovery.Replay(Restored(saved, cutoff, now), es, cfg)
  {
    hide Engine.Valid, Engine.View, Engine.Parts, Aged, Restored, ImmuneRun, FreshRun, IdentityOK, Recovery.Replay;
    FreshRunRestored(saved, es, cutoff, now, cfg);
    engine := Restore(cfg, saved, cutoff, now);
    engine.Replay(es);
  }

  /** An engine none of whose parts changed is the engine it was. */
  twostate lemma Undisturbed(engine: Engine)
    requires forall o | o in old(engine.Parts()) :: unchanged(o)
    ensures engine.View() == old(engine.View()) && engine.Parts() == old(engine.Parts())
    ensures old(engine.Valid()) ==> engine.Valid()
  {
    assert engine in old(engine.Parts());
    assert forall k | k in engine.states :: engine.states[k] in old(engine.Parts());
    assert forall e | e in old(engine.Entries()) :: e in old(engine.Parts());
  }


  lemma MoreMaps(key: Key, a: map<Key, RouteV>, b: map<Key, RouteV>, r: RouteV)
    requires a.Keys == b.Keys + {key} && a[key] == r && forall k | k in b.Keys && k != key :: a[k] == b[k]
    ensures a == b[key := r]
  {
  }

  lemma SameLedgers(v: EngineV, w: EngineV)
    requires UniqueIds(v) && w.states.Keys == v.states.Keys
    requires forall k | k in v.states :: w.states[k].sent == v.states[k].sent
    ensures UniqueIds(w)
  {
    forall k, i: nat, l, j: nat, id | Located(w, k, i, id) && Located(w, l, j, id) ensures k == l && i == j {
      assert Located(v, k, i, id) && Located(v, l, j, id);
    }
  }
}
