/**
 `AffinityStore` and `SessionAffinity.resolve` as they run: a shared table behind each worker's
 cache of catalogs and map of unwritten activity.  Methods return, as ghosts, the clock readings
 they took, and are proved against the transactions of Affinity at those readings.
 */
module AffinityObject {
  import opened Prelude
  import opened Selection
  import opened Affinity

  /** Wall time: it may stand still between two readings, and is taken not to run backwards. */
  class Clock {
    var now: real

    method Read() returns (t: real)
      modifies this
      ensures t == now >= old(now)
    {
      var passed: real := *;
      now := now + Max(0.0, passed);
      t := now;
    }
  }

  class File {
    var bindings: map<Family, Row>
    var descriptors: set<Descriptor>
    var models: set<(Family, Model)>

    function View(): Tables reads this { Tables(bindings, descriptors, models) }
  }

  const CACHED := 128

  datatype Entry = Entry(id: Descriptor, catalog: Catalog)

  /** Least recently used first. */
  ghost predicate CacheOK(cache: seq<Entry>) {
    && |cache| <= CACHED
    && (forall i | 0 <= i < |cache| :: cache[i].catalog == cache[i].id.catalog)
    && forall i, j | 0 <= i < j < |cache| :: cache[i].id != cache[j].id
  }

  function Position(cache: seq<Entry>, id: Descriptor): (p: nat)
    ensures p <= |cache| && (p < |cache| ==> cache[p].id == id)
    ensures forall i | 0 <= i < p :: cache[i].id != id
  {
    if cache == [] || cache[0].id == id then 0 else 1 + Position(cache[1..], id)
  }

  class AffinityStore {
    const file: File
    const clock: Clock
    const ttl: real
    const window: real
    var dirty: map<Family, real>
    var cache: seq<Entry>
    var lastFlush: real

    ghost predicate Valid()
      reads this, file
    {
      ttl > 0.0 && window > 0.0 && TablesOK(file.View(), ttl) && CacheOK(cache)
    }

    constructor (file: File, clock: Clock, ttl: real, window: real)
      requires ttl > 0.0 && window > 0.0 && TablesOK(file.View(), ttl)
      ensures this.file == file && this.clock == clock && this.ttl == ttl
      ensures Valid() && dirty == map[]
    {
      this.file, this.clock, this.ttl, this.window := file, clock, ttl, window;
      dirty, cache, lastFlush := map[], [], clock.now;
    }

    /** The decoded catalog of a descriptor, kept as the most recently used of at most 128. */
    method Decoded(id: Descriptor) returns (catalog: Catalog)
      requires CacheOK(cache)
      modifies this`cache
      ensures CacheOK(cache) && catalog == id.catalog
      ensures cache != [] && cache[|cache| - 1].id == id
    {
      var p := Position(cache, id);
      if p < |cache| {
        catalog := cache[p].catalog;
        cache := cache[..p] + cache[p + 1..] + [cache[p]];
      } else {
        catalog := id.catalog;
        cache := cache + [Entry(id, catalog)];
      }
      if |cache| > CACHED { cache := cache[1..]; }
    }

    /** `_get`. */
    method Lookup(family: Family) returns (b: Option<Binding>, ghost seen: real)
      requires Valid()
      modifies this`cache, clock
      ensures Valid() && old(clock.now) <= seen <= clock.now
      ensures b == Found(file.View(), family, seen)
    {
      hide TablesOK, CacheOK;
      var now := clock.Read();
      seen := now;
      b := None;
      if family in file.bindings && file.bindings[family].descriptor in file.descriptors && file.bindings[family].expires > now {
        var r := file.bindings[family];
        var catalog := Decoded(r.descriptor);
        b := Some(Binding(r.endpoint, r.descriptor.identity, catalog, r.expires, false));
      }
    }

    /** `bind`: the winner of the family row, which is the caller's own when there was none. */
    method Bind(family: Family, endpoint: string, identity: string, catalog: Catalog)
      returns (b: Binding, ghost seen: real, ghost now: real)
      requires Valid() && CatalogOn(catalog, endpoint)
      modifies this`cache, file, clock
      ensures Valid() && old(clock.now) <= seen <= now <= clock.now
      ensures (file.View(), b) == Bound(old(file.View()), family, endpoint, Descriptor(identity, catalog), seen, now, ttl)
    {
      hide CatalogOn, CacheOK, TablesOK;
      ghost var before := file.View();
      var winner;
      winner, seen := Lookup(family);
      now := seen;
      if winner.Some? {
        b := winner.value;
      } else {
        var at := clock.Read();
        now := at;
        var d := Descriptor(identity, catalog);
        StepOK(before, OpBind(family, endpoint, d, seen, now), ttl);
        Forget({family});
        file.descriptors := file.descriptors + {d};
        file.bindings := file.bindings[family := Row(endpoint, d, at, at + ttl)];
        b := Binding(endpoint, identity, catalog, at + ttl, true);
      }
    }

    method Forget(families: set<Family>)
      modifies file
      ensures file.View() == Forgotten(old(file.View()), families)
    {
      file.models := set fm | fm in file.models && fm.0 !in families;
    }

    /** `inherit`: a fork starts on its parent's endpoint, with the parent's catalog. */
    method InheritFrom(family: Family, parent: Family)
      returns (r: Inheritance, ghost seenParent: real, ghost seen: real, ghost now: real)
      requires Valid()
      modifies this`cache, file, clock
      ensures Valid() && old(clock.now) <= seenParent <= seen <= now <= clock.now
      ensures (file.View(), r) == Inherit(old(file.View()), family, parent, seenParent, seen, now, ttl)
    {
      hide CatalogOn, CacheOK, TablesOK;
      ghost var before := file.View();
      var source, winner;
      source, seenParent := Lookup(parent);
      seen, now := seenParent, seenParent;
      if source.None? { return Orphan, seenParent, seen, now; }
      winner, seen := Lookup(family);
      now := seen;
      if winner.Some? {
        if (winner.value.endpoint, winner.value.identity) != (source.value.endpoint, source.value.identity) {
          return Conflict, seenParent, seen, now;
        }
        return Inherited(winner.value), seenParent, seen, now;
      }
      var at := clock.Read();
      now := at;
      StepOK(before, OpInherit(family, parent, seenParent, seen, now), ttl);
      var from := file.bindings[parent];
      Forget({family});
      file.bindings := file.bindings[family := Row(from.endpoint, from.descriptor, at, at + ttl)];
      assert file.descriptors == before.descriptors + {from.descriptor};
      r := Inherited(source.value.(expires := at + ttl, created := true));
    }

    /** `note_model`. */
    method NoteModel(family: Family, model: Model) returns (ghost now: real)
      requires Valid()
      modifies file, clock
      ensures Valid() && old(clock.now) <= now <= clock.now
      ensures file.View() == Noted(old(file.View()), family, model, now)
      ensures family in file.bindings && now < file.bindings[family].expires ==> model in ModelsOf(file.View(), family)
    {
      NotedMeans(file.View(), family, model, clock.now);
      now := clock.now;
      if (family, model) in file.models { return; }
      var at := clock.Read();
      now := at;
      if family in file.bindings && file.bindings[family].expires > at {
        file.models := file.models + {(family, model)};
      }
    }

    /** `flush`: the remembered activity is written, or stays remembered when the file is busy. */
    method Flush(busy: bool) returns (ok: bool)
      requires Valid()
      modifies this`dirty, this`lastFlush, file, clock
      ensures Valid() && ok == (!busy || old(dirty) == map[])
      ensures clock.now >= old(clock.now)
      ensures if ok then file.View() == Flushed(old(file.View()), old(dirty), ttl) && dirty == map[]
              else file.View() == old(file.View()) && dirty == old(dirty) && lastFlush == old(lastFlush)
      ensures ok ==> Prolonged(old(file.View()), file.View(), old(dirty), ttl) && old(clock.now) <= lastFlush <= clock.now
    {
      hide CatalogOn, CacheOK, TablesOK;
      ghost var before := file.View();
      if dirty != map[] {
        if busy { return false; }
        StepOK(before, OpFlush(dirty), ttl);
        file.bindings := map f | f in file.bindings ::
          if f in dirty then Extended(file.bindings[f], dirty[f], ttl) else file.bindings[f];
        dirty := map[];
      } else {
        assert Flushed(before, map[], ttl) == before;
      }
      FlushedProlongs(before, old(dirty), ttl);
      lastFlush := clock.Read();
      ok := true;
    }

    /** `flush_due`. */
    method FlushDue(busy: bool) returns (ok: bool, ghost at: real)
      requires Valid()
      modifies this`dirty, this`lastFlush, file, clock
      ensures Valid() && old(clock.now) <= at <= clock.now
      ensures ok == (!busy || old(dirty) == map[] || at - old(lastFlush) < Min(1.0, Min(ttl / 4.0, window / 4.0)))
      ensures busy ==> file.View() == old(file.View()) && dirty == old(dirty)
      ensures ok && at - old(lastFlush) >= Min(1.0, Min(ttl / 4.0, window / 4.0)) ==>
                Prolonged(old(file.View()), file.View(), old(dirty), ttl) && dirty == map[]
      ensures (file.View() == old(file.View()) && dirty == old(dirty))
           || (file.View() == Flushed(old(file.View()), old(dirty), ttl) && dirty == map[])
    {
      var now := clock.Read();
      ok, at := true, now;
      if now - lastFlush >= Min(1.0, Min(ttl / 4.0, window / 4.0)) { ok := Flush(busy); }
    }

    /** `touch`: activity is remembered; a binding about to expire is written at once. */
    method Touch(family: Family, expires: real, busy: bool) returns (ok: bool, ghost now: real)
      requires Valid()
      modifies this`dirty, this`lastFlush, file, clock
      ensures Valid() && old(clock.now) <= now <= clock.now
      ensures var d := old(dirty)[family := now];
              (file.View() == old(file.View()) && dirty == d)
              || (file.View() == Flushed(old(file.View()), d, ttl) && dirty == map[])
      ensures !busy && expires - now <= Min(2.0, ttl / 2.0) ==>
                file.View() == Flushed(old(file.View()), old(dirty)[family := now], ttl)
      ensures if family in dirty then dirty[family] == now && file.View() == old(file.View())
              else Prolonged(old(file.View()), file.View(), old(dirty)[family := now], ttl)
      ensures (busy ==> family in dirty) && (!ok ==> busy)
      ensures busy && expires - now <= Min(2.0, ttl / 2.0) ==> !ok
    {
      var at := clock.Read();
      now := at;
      dirty := dirty[family := at];
      FlushedProlongs(file.View(), dirty, ttl);
      ghost var later;
      if expires - at <= Min(2.0, ttl / 2.0) { ok := Flush(busy); } else { ok, later := FlushDue(busy); }
    }

    /** Any number of other workers' transactions, with clock readings of their own. */
    method OtherWorkers() returns (ghost ops: seq<Op>)
      requires Valid()
      modifies file, clock
      ensures Valid() && clock.now >= old(clock.now)
      ensures Serial(old(file.View()), ops, ttl) && file.View() == After(old(file.View()), ops, ttl)
      ensures forall i | 0 <= i < |ops| :: JudgedBy(ops[i], clock.now)
      ensures Held(old(file.View()), file.View(), clock.now)
    {
      hide TablesOK, CacheOK, Held, Did, Allowed, JudgedBy;
      ghost var before := file.View();
      ops := [];
      var turns: nat := *;
      while turns > 0
        invariant Valid() && clock.now >= old(clock.now)
        invariant Serial(before, ops, ttl) && file.View() == After(before, ops, ttl)
        invariant forall i | 0 <= i < |ops| :: JudgedBy(ops[i], clock.now)
      {
        turns := turns - 1;
        ghost var op;
        ghost var earlier := clock.now;
        op := OtherTransaction();
        assert (ops + [op])[..|ops|] == ops;
        forall i | 0 <= i < |ops| ensures JudgedBy(ops[i], clock.now) {
          JudgedLater(ops[i], earlier, clock.now);
        }
        ops := ops + [op];
      }
      RunHeld(before, ops, ttl, clock.now);
    }

    /** One of them: a binding, a fork, a recorded model, written activity or a cleanup. */
    method OtherTransaction() returns (ghost op: Op)
      requires Valid()
      modifies file, clock
      ensures Valid() && clock.now >= old(clock.now)
      ensures Allowed(old(file.View()), op) && JudgedBy(op, clock.now) && file.View() == Did(old(file.View()), op, ttl)
    {
      hide TablesOK, CacheOK, CatalogOn;
      ghost var before := file.View();
      var choice: Op := *;
      if choice.OpClean? {
        op := Cleanup();
        return;
      }
      var seenParent := clock.Read();
      var seen := clock.Read();
      var now := clock.Read();
      var other := OpFlush(map[]);
      if choice.OpBind? && CatalogOn(choice.d.catalog, choice.endpoint) {
        other := OpBind(choice.family, choice.endpoint, choice.d, seen, now);
      } else if choice.OpInherit? {
        other := OpInherit(choice.family, choice.parent, seenParent, seen, now);
      } else if choice.OpNote? {
        other := OpNote(choice.family, choice.model, now);
      } else if choice.OpFlush? {
        other := choice;
      }
      StepOK(before, other, ttl);
      var t := Did(file.View(), other, ttl);
      file.bindings, file.descriptors, file.models := t.bindings, t.descriptors, t.models;
      op := other;
    }

    /** `get`. */
    method Get(family: Family, busy: bool) returns (b: Option<Binding>, ok: bool, ghost seen: real)
      requires Valid()
      modifies this, file, clock
      ensures Valid() && old(clock.now) <= seen <= clock.now
      ensures ok ==> b == Found(file.View(), family, seen)
      ensures !ok ==> b == None && busy
      ensures Held(old(file.View()), file.View(), clock.now)
    {
      hide TablesOK, CacheOK, Held;
      ghost var before, dirtied := file.View(), dirty;
      ghost var due;
      ok, due := FlushDue(busy);
      FlushHeld(before, file.View(), dirtied, ttl, clock.now);
      ghost var flushed, at := file.View(), clock.now;
      ghost var ops := OtherWorkers();
      HeldOn(before, flushed, file.View(), at, clock.now);
      HeldLonger(before, file.View(), clock.now);
      seen := clock.now;
      b := None;
      if ok { b, seen := Lookup(family); }
    }

    /** `cleanup`: three bounded deletions in one transaction, two of them at clock readings of their own. */
    method Cleanup() returns (ghost op: Op)
      requires Valid()
      modifies file, clock
      ensures Valid() && clock.now >= old(clock.now)
      ensures op.OpClean? && Allowed(old(file.View()), op) && old(clock.now) <= op.first <= op.second <= clock.now
      ensures file.View() == Did(old(file.View()), op, ttl)
    {
      hide CatalogOn, CacheOK, TablesOK;
      ghost var before := file.View();
      var first := clock.Read();
      var forgotten := AtMost(ExpiredBy(file.View(), first), 500);
      Forget(forgotten);
      var second := clock.Read();
      var gone := AtMost(ExpiredBy(file.View(), second), 500);
      assert ExpiredBy(file.View(), second) == ExpiredBy(before, second);
      file.bindings := file.bindings - gone;
      var unused := AtMost(Unused(file.View()), 50);
      assert Unused(file.View()) == Unused(before.(bindings := before.bindings - gone));
      file.descriptors := file.descriptors - unused;
      op := OpClean(first, second, forgotten, gone, unused);
      StepOK(before, op, ttl);
    }
  }

  /** Any `limit` elements, or all when there are fewer. */
  method AtMost<T(==)>(all: set<T>, limit: nat) returns (some: set<T>)
    ensures SomeOf(some, all, limit)
  {
    some := {};
    while |some| < limit && some != all
      invariant some <= all && |some| <= limit
      decreases limit - |some|
    {
      PartLeaves(some, all);
      var x :| x in all && x !in some;
      some := some + {x};
    }
    PartSmaller(some, all);
  }

  // ---- resolving a request ---------------------------------------------------------------------

  /** What a request says about the state it depends on. */
  datatype Ask = Ask(model: Model, encrypted: bool, chained: bool, stored: bool) {
    /** `sticky`. */
    predicate Sticky() { encrypted || chained || stored }
  }

  datatype Error = SessionIdRequired | StateMissing | ParentConflict | EndpointRenamed | ModelUnavailable | StoreBusy

  datatype Resolution = Free(routes: seq<Published>) | On(routes: seq<Published>, binding: Binding) | Failed(error: Error)

  method Draws(n: nat) returns (us: seq<real>)
    ensures |us| == n && Unit(us)
  {
    us := [];
    while |us| < n
      invariant |us| <= n && Unit(us)
    {
      var u: real := *;
      us := us + [if 0.0 <= u < 1.0 then u else 0.0];
    }
  }

  class SessionAffinity {
    const store: AffinityStore
    var cfg: Config

    ghost predicate Valid()
      reads this, store, store.file
    {
      store.Valid() && cfg.Valid()
    }

    constructor (store: AffinityStore, cfg: Config)
      requires store.Valid() && cfg.Valid()
      ensures Valid() && this.store == store && this.cfg == cfg
    {
      this.store, this.cfg := store, cfg;
    }

    /**
     The binding a request runs under: its own, its parent's, or a new one when its state needs it.
     `looked` is the table and `seen` the instant at which its own was looked for.
     */
    method Bind(family: Family, ask: Ask, table: string, parent: Option<Family>, busy: bool)
      returns (b: Option<Binding>, error: Option<Error>, ghost from: Tables, ghost looked: Tables, ghost seen: real)
      requires Valid()
      modifies store, store.file, store.clock
      ensures Valid() && store.clock.now >= seen >= old(store.clock.now)
      ensures error.Some? ==> b.None?
      ensures b.Some? ==> CatalogOn(b.value.catalog, b.value.endpoint) && Recorded(from, family, b.value)
      ensures Held(from, store.file.View(), store.clock.now)
      ensures b.None? && error.None? ==> !ask.encrypted && !ask.chained && (!ask.Sticky() || cfg.Routes(table, ask.model) == [])
      ensures error != Some(StoreBusy) && Found(looked, family, seen).Some? ==> b == Found(looked, family, seen)
      ensures error != Some(StoreBusy) && Found(looked, family, seen).None? && b.Some? ==>
                b.value.created || (parent.Some? && parent.value != family) || ask.Sticky()
      ensures b.Some? && b.value.created ==>
                || (cfg.Routes(table, ask.model) != [] && BoundTo(cfg, cfg.Routes(table, ask.model)[0], b.value))
                || (parent.Some? && parent.value != family && parent.value in from.bindings && b.value.endpoint == from.bindings[parent.value].endpoint)
      ensures error.Some? ==> error.value in {StoreBusy, ParentConflict, StateMissing}
      ensures error == Some(StateMissing) ==> ask.encrypted || ask.chained
      ensures error == Some(ParentConflict) ==> parent.Some? && parent.value != family && Elsewhere(from, family, parent.value)
      ensures error == Some(StoreBusy) ==> busy
      ensures error == Some(StateMissing) && parent.Some? && parent.value != family ==>
                exists at | seen <= at <= store.clock.now :: Found(from, parent.value, at).None?
    {
      hide CatalogOn, CacheOK, TablesOK, Held, Recorded, BoundTo;
      var ok;
      b, ok, seen := store.Get(family, busy);
      error, from := None, store.file.View();
      looked := from;
      HeldAtOnce(from, store.clock.now);
      if !ok { return None, Some(StoreBusy), from, looked, seen; }
      if b.Some? {
        FoundRecorded(from, family, seen, store.ttl);
        return;
      }
      if parent.Some? && parent.value != family {
        ghost var at;
        b, error, from, at := Fork(family, parent.value);
        if b.Some? || error.Some? { return; }
        assert Found(from, parent.value, at).None?;
      }
      if ask.encrypted || ask.chained { return None, Some(StateMissing), from, looked, seen; }
      var routes := cfg.Routes(table, ask.model);
      if !ask.Sticky() || routes == [] { return; }
      var own;
      own, from := BindNew(family, routes[0]);
      b := Some(own);
    }

    /** The parent's binding, after whatever the other workers did first. */
    method Fork(family: Family, parent: Family) returns (b: Option<Binding>, error: Option<Error>, ghost from: Tables, ghost at: real)
      requires Valid()
      modifies store, store.file, store.clock
      ensures Valid() && old(store.clock.now) <= at <= store.clock.now
      ensures error.Some? ==> b.None? && error == Some(ParentConflict)
      ensures b.Some? ==> CatalogOn(b.value.catalog, b.value.endpoint) && Recorded(from, family, b.value)
      ensures from == store.file.View() && Held(from, store.file.View(), store.clock.now)
      ensures b.None? && error.None? ==> Found(from, parent, at).None?
      ensures b.Some? ==> parent in from.bindings && (b.value.endpoint, b.value.identity) == Place(from.bindings[parent])
      ensures error.Some? ==> Elsewhere(from, family, parent)
    {
      hide CatalogOn, CacheOK, TablesOK, Held;
      ghost var ops := store.OtherWorkers();
      ghost var before := store.file.View();
      ghost var seenParent, seen, now;
      var r;
      r, seenParent, seen, now := store.InheritFrom(family, parent);
      from, at := store.file.View(), seenParent;
      HeldAtOnce(from, store.clock.now);
      NewBindingHasNoModels(before, family, parent, "", Descriptor("", Catalog(map[])), seenParent, seen, now, store.ttl);
      InheritMeans(before, family, parent, seenParent, seen, now, store.ttl);
      b, error := None, None;
      if r.Conflict? { error := Some(ParentConflict); }
      if r.Inherited? {
        b := Some(r.binding);
        RowCatalog(from, family, store.ttl);
      }
    }

    /** A binding of its own, unless another worker's came first. */
    method BindNew(family: Family, route: Published) returns (b: Binding, ghost from: Tables)
      requires Valid()
      modifies store, store.file, store.clock
      ensures Valid() && store.clock.now >= old(store.clock.now)
      ensures CatalogOn(b.catalog, b.endpoint) && Recorded(from, family, b)
      ensures from == store.file.View() && Held(from, store.file.View(), store.clock.now)
      ensures b.created ==> BoundTo(cfg, route, b)
    {
      hide CatalogOn, CacheOK, TablesOK, Held, Catalogued;
      var catalog := Catalogued(cfg, route.endpoint, route.resource);
      CataloguedOn(cfg, route.endpoint, route.resource);
      ghost var ops := store.OtherWorkers();
      ghost var before := store.file.View();
      ghost var seen, now;
      b, seen, now := store.Bind(family, route.endpoint, route.resource, catalog);
      from := store.file.View();
      HeldAtOnce(from, store.clock.now);
      NewBindingHasNoModels(before, family, family, route.endpoint, Descriptor(route.resource, catalog), seen, seen, now, store.ttl);
      RowCatalog(from, family, store.ttl);
    }

    /**
     `resolve`, with other workers acting before every transaction and before its return.  A family
     that is bound when looked at is served from that binding or refused for what became of its
     endpoint; it only ever gets routes of its bound endpoint, live or retained, each candidate exactly
     once, and its request counts as activity.  A request that needs its state never runs unbound.
     `from` is the table as the transaction that produced the binding left it: the family's row names
     the binding there, without recorded models if it is new, and still names it at return unless it
     has expired by then.  `looked` and `seen` are the table and the instant of the first look.
     */
    method Resolve(family: Option<Family>, ask: Ask, table: string, parent: Option<Family>, busy: bool)
      returns (r: Resolution, ghost from: Tables, ghost looked: Tables, ghost seen: real)
      requires Valid()
      modifies store, store.file, store.clock
      ensures Valid()
      ensures r.On? ==> family.Some? && Recorded(from, family.value, r.binding) && !Renamed(cfg, r.binding.endpoint, r.binding.identity)
      ensures r.On? && r.binding.expires > store.clock.now ==> Same(from, store.file.View(), family.value)
      ensures r.On? ==> r.routes != [] && forall i | 0 <= i < |r.routes| :: r.routes[i].endpoint == r.binding.endpoint
      ensures r.On? ==> multiset(r.routes) == multiset(Candidates(cfg, r.binding, table, ask.model))
      ensures r.On? ==> exists at | seen <= at <= store.clock.now :: RemembersUse(store, family.value, r.binding, at)
      ensures r.On? && r.binding.created ==>
                || (cfg.Routes(table, ask.model) != [] && BoundTo(cfg, cfg.Routes(table, ask.model)[0], r.binding))
                || (parent.Some? && parent != family && parent.value in from.bindings && r.binding.endpoint == from.bindings[parent.value].endpoint)
      ensures r.Free? ==> r.routes == cfg.Routes(table, ask.model) && !ask.encrypted && !ask.chained && (ask.Sticky() ==> r.routes == [])
      ensures family.None? && ask.Sticky() ==> r == Failed(SessionIdRequired)
      ensures family.None? && !ask.Sticky() ==> r.Free?
      ensures family.Some? && Found(looked, family.value, seen).Some? && r != Failed(StoreBusy) ==>
                var b := Found(looked, family.value, seen).value;
                if Renamed(cfg, b.endpoint, b.identity) then r == Failed(EndpointRenamed)
                else if Candidates(cfg, b, table, ask.model) == [] then r == Failed(ModelUnavailable)
                else r.On? && r.binding == b
      ensures r == Failed(StoreBusy) ==> busy
      ensures r == Failed(StateMissing) ==> (ask.encrypted || ask.chained) && Found(looked, family.value, seen).None?
      ensures r == Failed(SessionIdRequired) ==> family.None?
      ensures r == Failed(ParentConflict) ==> family.Some? && parent.Some? && Elsewhere(from, family.value, parent.value)
    {
      hide CatalogOn, CacheOK, TablesOK, Renamed, Candidates, Recorded, Held, Found, RemembersUse, BoundTo;
      from, looked, seen := store.file.View(), store.file.View(), store.clock.now;
      if family.None? {
        return if ask.Sticky() then Failed(SessionIdRequired) else Free(cfg.Routes(table, ask.model)), from, looked, seen;
      }
      var b, error;
      b, error, from, looked, seen := Bind(family.value, ask, table, parent, busy);
      if error.Some? { return Failed(error.value), from, looked, seen; }
      if b.None? { return Free(cfg.Routes(table, ask.model)), from, looked, seen; }
      var binding := b.value;
      ghost var at;
      var ok;
      ok, at := Remember(family.value, binding, busy, from);
      if !ok { return Failed(StoreBusy), from, looked, seen; }
      RecordedStays(from, store.file.View(), family.value, binding, store.clock.now);
      if Renamed(cfg, binding.endpoint, binding.identity) { return Failed(EndpointRenamed), from, looked, seen; }
      var candidates := Candidates(cfg, binding, table, ask.model);
      CandidatesBound(cfg, binding, table, ask.model);
      if candidates == [] { return Failed(ModelUnavailable), from, looked, seen; }
      var us := Draws(|candidates|);
      var ordered := WeightedOrder(candidates, us);
      SameElements(candidates, ordered, binding.endpoint);
      assert RemembersUse(store, family.value, binding, at);
      r := On(ordered, binding);
    }

    /** The touch, between other workers' transactions. */
    method Remember(family: Family, binding: Binding, busy: bool, ghost from: Tables) returns (ok: bool, ghost at: real)
      requires Valid() && Held(from, store.file.View(), store.clock.now) && Recorded(from, family, binding)
      modifies store, store.file, store.clock
      ensures Valid() && Held(from, store.file.View(), store.clock.now)
      ensures old(store.clock.now) <= at <= store.clock.now && RemembersUse(store, family, binding, at)
      ensures !ok ==> busy
    {
      hide TablesOK, CacheOK, Held, Prolonged;
      ghost var t0, c0 := store.file.View(), store.clock.now;
      ghost var ops := store.OtherWorkers();
      HeldOn(from, t0, store.file.View(), c0, store.clock.now);
      ghost var t1, c1, dirtied := store.file.View(), store.clock.now, store.dirty;
      ok, at := store.Touch(family, binding.expires, busy);
      FlushHeld(t1, store.file.View(), dirtied[family := at], store.ttl, store.clock.now);
      HeldOn(from, t1, store.file.View(), c1, store.clock.now);
      ghost var t2, c2 := store.file.View(), store.clock.now;
      ops := store.OtherWorkers();
      HeldOn(from, t2, store.file.View(), c2, store.clock.now);
      if family !in store.dirty {
        UseWritten(from, t1, t2, store.file.View(), family, binding, dirtied[family := at], at, c1, store.clock.now, store.ttl);
      }
    }
  }

  /** Both families are bound, and not to one endpoint and resource. */
  ghost predicate Elsewhere(t: Tables, family: Family, parent: Family) {
    family in t.bindings && parent in t.bindings && Place(t.bindings[family]) != Place(t.bindings[parent])
  }

  /** A new binding to the endpoint and resource of this route, retaining all they offer. */
  ghost predicate BoundTo(cfg: Config, route: Published, b: Binding) {
    b.endpoint == route.endpoint && b.identity == route.resource && b.catalog == Catalogued(cfg, route.endpoint, route.resource)
  }

  /** The family's activity at `at` is remembered, or written: a row that is live still has its lifetime from there. */
  ghost predicate RemembersUse(store: AffinityStore, family: Family, binding: Binding, at: real)
    reads store, store.file, store.clock
  {
    || (family in store.dirty && store.dirty[family] == at)
    || (binding.expires > store.clock.now ==> family in store.file.bindings && store.file.bindings[family].expires >= at + store.ttl)
  }

  lemma UseWritten(from: Tables, t1: Tables, t2: Tables, t3: Tables, family: Family, b: Binding, dirty: map<Family, real>, at: real, c1: real, now: real, ttl: real)
    requires Recorded(from, family, b) && Held(from, t1, c1) && Prolonged(t1, t2, dirty, ttl) && Held(t2, t3, now)
    requires family in dirty && dirty[family] == at && c1 <= at <= now && ttl > 0.0
    ensures b.expires > now ==> family in t3.bindings && t3.bindings[family].expires >= at + ttl
  {
  }

  /** The table holds this binding of the family, without recorded models if it is new. */
  ghost predicate Recorded(t: Tables, family: Family, b: Binding) {
    && family in t.bindings && t.bindings[family].endpoint == b.endpoint && t.bindings[family].expires == b.expires
    && t.bindings[family].descriptor == Descriptor(b.identity, b.catalog)
    && (b.created ==> ModelsOf(t, family) == {})
  }

  lemma RecordedStays(t: Tables, t': Tables, family: Family, b: Binding, now: real)
    requires Recorded(t, family, b) && Held(t, t', now)
    ensures b.expires > now ==> Same(t, t', family)
  {
  }

  lemma FoundRecorded(t: Tables, family: Family, seen: real, ttl: real)
    requires TablesOK(t, ttl) && Found(t, family, seen).Some?
    ensures var b := Found(t, family, seen).value; Recorded(t, family, b) && CatalogOn(b.catalog, b.endpoint)
  {
    hide CatalogOn;
  }

  lemma RowCatalog(t: Tables, family: Family, ttl: real)
    requires TablesOK(t, ttl) && family in t.bindings
    ensures CatalogOn(t.bindings[family].descriptor.catalog, t.bindings[family].endpoint)
  {
    hide CatalogOn;
  }

  lemma FlushHeld(t: Tables, t': Tables, dirty: map<Family, real>, ttl: real, latest: real)
    requires ttl > 0.0 && TablesOK(t, ttl) && (t' == t || t' == Flushed(t, dirty, ttl))
    ensures Held(t, t', latest)
  {
    if t' == t { HeldAtOnce(t, latest); } else { StepHeld(t, OpFlush(dirty), ttl, latest); }
  }

  lemma HeldLonger(t: Tables, t': Tables, now: real)
    ensures forall later | later >= now && Held(t, t', now) :: Held(t, t', later)
  {
  }

  lemma JudgedLater(op: Op, earlier: real, later: real)
    requires JudgedBy(op, earlier) && earlier <= later
    ensures JudgedBy(op, later)
  {
  }

  lemma SameElements(a: seq<Published>, b: seq<Published>, endpoint: string)
    requires multiset(a) == multiset(b) && OnEndpoint(a, endpoint) && a != []
    ensures b != [] && forall i | 0 <= i < |b| :: b[i].endpoint == endpoint
  {
    assert |multiset(a)| == |a| && |multiset(b)| == |b|;
    forall i | 0 <= i < |b| ensures b[i].endpoint == endpoint {
      assert b[i] in multiset(b);
      assert b[i] in a;
    }
  }
}
