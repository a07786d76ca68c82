/**
 Durable bindings of session families to endpoints (`AffinityStore`): several workers share one
 table and each keeps its own unwritten activity and its own cache of catalogs.  Each function is
 one transaction; the results say what no interleaving of them can do.
 */
module Affinity {
  import opened Prelude
  import opened Selection

  type Family = string
  type Model = string

  /** What is retained of an endpoint: its routes by table and model. */
  datatype Catalog = Catalog(tables: map<string, map<Model, seq<Published>>>)

  /** A descriptor is its own address: digests do not collide. */
  datatype Descriptor = Descriptor(identity: string, catalog: Catalog)

  datatype Row = Row(endpoint: string, descriptor: Descriptor, activity: real, expires: real)

  datatype Tables = Tables(bindings: map<Family, Row>, descriptors: set<Descriptor>, models: set<(Family, Model)>)

  const EMPTY := Tables(map[], {}, {})

  datatype Binding = Binding(endpoint: string, identity: string, catalog: Catalog, expires: real, created: bool)

  // ---- transactions -----------------------------------------------------------------

  predicate Live(t: Tables, family: Family, now: real) {
    family in t.bindings && t.bindings[family].descriptor in t.descriptors && t.bindings[family].expires > now
  }

  function BindingOf(r: Row, created: bool): Binding {
    Binding(r.endpoint, r.descriptor.identity, r.descriptor.catalog, r.expires, created)
  }

  /** `_get`: the row joined with its descriptor, unless it has expired. */
  function Found(t: Tables, family: Family, now: real): Option<Binding> {
    if Live(t, family, now) then Some(BindingOf(t.bindings[family], false)) else None
  }

  function ModelsOf(t: Tables, family: Family): set<Model> { set fm | fm in t.models && fm.0 == family :: fm.1 }

  function Forgotten(t: Tables, families: set<Family>): Tables {
    t.(models := set fm | fm in t.models && fm.0 !in families)
  }

  /** A row replaces whatever the family had, and no model recorded before counts for it. */
  function Rebound(t: Tables, family: Family, r: Row): Tables {
    Forgotten(t, {family}).(bindings := t.bindings[family := r], descriptors := t.descriptors + {r.descriptor})
  }

  function NewRow(endpoint: string, d: Descriptor, now: real, ttl: real): Row { Row(endpoint, d, now, now + ttl) }

  /** `bind`, having looked at `seen` and written at `now`. */
  function Bound(t: Tables, family: Family, endpoint: string, d: Descriptor, seen: real, now: real, ttl: real): (Tables, Binding) {
    var winner := Found(t, family, seen);
    if winner.Some? then (t, winner.value)
    else
      var r := NewRow(endpoint, d, now, ttl);
      (Rebound(t, family, r), BindingOf(r, true))
  }

  datatype Inheritance = Orphan | Conflict | Inherited(binding: Binding)

  /** `inherit`: the parent is looked at first, then the family, then the row is written. */
  function Inherit(t: Tables, family: Family, parent: Family, seenParent: real, seen: real, now: real, ttl: real): (Tables, Inheritance) {
    var source := Found(t, parent, seenParent);
    if source.None? then (t, Orphan)
    else
      var winner := Found(t, family, seen);
      if winner.Some? then
        if (winner.value.endpoint, winner.value.identity) != (source.value.endpoint, source.value.identity)
        then (t, Conflict) else (t, Inherited(winner.value))
      else
        var r := NewRow(t.bindings[parent].endpoint, t.bindings[parent].descriptor, now, ttl);
        (Rebound(t, family, r), Inherited(BindingOf(r, true)))
  }

  /** `note_model`. */
  function Noted(t: Tables, family: Family, model: Model, now: real): Tables {
    if (family, model) !in t.models && family in t.bindings && t.bindings[family].expires > now
    then t.(models := t.models + {(family, model)}) else t
  }

  function Extended(r: Row, at: real, ttl: real): Row {
    if r.expires > at then r.(activity := Max(r.activity, at), expires := Max(r.expires, at + ttl)) else r
  }

  /** `flush`: every touched family whose row had not expired when it was touched. */
  function Flushed(t: Tables, dirty: map<Family, real>, ttl: real): Tables {
    t.(bindings := map f | f in t.bindings :: if f in dirty then Extended(t.bindings[f], dirty[f], ttl) else t.bindings[f])
  }

  ghost predicate SomeOf<T>(some: set<T>, all: set<T>, limit: nat) { some <= all && |some| == MinNat(limit, |all|) }

  function ExpiredBy(t: Tables, now: real): set<Family> { set f | f in t.bindings && t.bindings[f].expires <= now }

  function Unused(t: Tables): set<Descriptor> { set d | d in t.descriptors && forall f | f in t.bindings :: t.bindings[f].descriptor != d }

  /** `cleanup`, having chosen which rows its three bounded deletions take. */
  function Cleaned(t: Tables, forgotten: set<Family>, gone: set<Family>, unused: set<Descriptor>): Tables {
    var t1 := Forgotten(t, forgotten);
    var t2 := t1.(bindings := t1.bindings - gone);
    t2.(descriptors := t2.descriptors - unused)
  }

  ghost predicate MayClean(t: Tables, first: real, second: real, forgotten: set<Family>, gone: set<Family>, unused: set<Descriptor>) {
    && SomeOf(forgotten, ExpiredBy(t, first), 500)
    && SomeOf(gone, ExpiredBy(t, second), 500)
    && SomeOf(unused, Unused(t.(bindings := t.bindings - gone)), 50)
  }

  // ---- what every transaction keeps -------------------------------------------------------

  /** Selection weights as publications carry them. */
  predicate Weighable(routes: seq<Published>) {
    forall i | 0 <= i < |routes| && routes[i].weight.Some? :: routes[i].weight.value >= 0.0
  }

  predicate OnEndpoint(routes: seq<Published>, endpoint: string) {
    Weighable(routes) && forall i | 0 <= i < |routes| :: routes[i].endpoint == endpoint
  }

  predicate CatalogOn(c: Catalog, endpoint: string) {
    forall name, model | name in c.tables && model in c.tables[name] :: OnEndpoint(c.tables[name][model], endpoint)
  }

  ghost predicate RowOK(t: Tables, r: Row, ttl: real) {
    r.descriptor in t.descriptors && r.expires == r.activity + ttl && CatalogOn(r.descriptor.catalog, r.endpoint)
  }

  /** Every binding's descriptor is there, its catalog names its endpoint only, and expiry follows activity. */
  ghost predicate TablesOK(t: Tables, ttl: real) { forall f | f in t.bindings :: RowOK(t, t.bindings[f], ttl) }

  datatype Op =
    | OpBind(family: Family, endpoint: string, d: Descriptor, seen: real, now: real)
    | OpInherit(family: Family, parent: Family, seenParent: real, seen: real, now: real)
    | OpNote(family: Family, model: Model, now: real)
    | OpFlush(dirty: map<Family, real>)
    | OpClean(first: real, second: real, forgotten: set<Family>, gone: set<Family>, unused: set<Descriptor>)

  ghost predicate Allowed(t: Tables, op: Op) {
    match op
    case OpBind(_, endpoint, d, _, _) => CatalogOn(d.catalog, endpoint)
    case OpClean(first, second, forgotten, gone, unused) => MayClean(t, first, second, forgotten, gone, unused)
    case _ => true
  }

  function Did(t: Tables, op: Op, ttl: real): Tables {
    match op
    case OpBind(family, endpoint, d, seen, now) => Bound(t, family, endpoint, d, seen, now, ttl).0
    case OpInherit(family, parent, seenParent, seen, now) => Inherit(t, family, parent, seenParent, seen, now, ttl).0
    case OpNote(family, model, now) => Noted(t, family, model, now)
    case OpFlush(dirty) => Flushed(t, dirty, ttl)
    case OpClean(_, _, forgotten, gone, unused) => Cleaned(t, forgotten, gone, unused)
  }

  /** The clock reading at which the transaction judged that family's row, if it judged it at all. */
  function Judged(op: Op, family: Family): Option<real> {
    match op
    case OpBind(f, _, _, seen, _) => if f == family then Some(seen) else None
    case OpInherit(f, _, _, seen, _) => if f == family then Some(seen) else None
    case OpClean(_, second, _, _, _) => Some(second)
    case _ => None
  }

  lemma ReboundOK(t: Tables, family: Family, r: Row, ttl: real)
    requires TablesOK(t, ttl) && CatalogOn(r.descriptor.catalog, r.endpoint) && r.expires == r.activity + ttl
    ensures TablesOK(Rebound(t, family, r), ttl)
    ensures ModelsOf(Rebound(t, family, r), family) == {}
  {
  }

  lemma StepOK(t: Tables, op: Op, ttl: real)
    requires ttl > 0.0 && TablesOK(t, ttl) && Allowed(t, op)
    ensures TablesOK(Did(t, op, ttl), ttl)
  {
    hide CatalogOn, Rebound;
    match op
    case OpBind(family, endpoint, d, _, now) => ReboundOK(t, family, NewRow(endpoint, d, now, ttl), ttl);
    case OpInherit(family, parent, seenParent, _, now) =>
      if Live(t, parent, seenParent) {
        ReboundOK(t, family, NewRow(t.bindings[parent].endpoint, t.bindings[parent].descriptor, now, ttl), ttl);
      }
    case OpClean(_, _, forgotten, gone, unused) =>
      var t' := Cleaned(t, forgotten, gone, unused);
      forall f | f in t'.bindings ensures RowOK(t', t'.bindings[f], ttl) {
        assert RowOK(t, t.bindings[f], ttl);
      }
    case OpFlush(dirty) =>
    case OpNote(_, _, _) =>
  }

  /** The family keeps its endpoint and resource, and its expiry does not move back. */
  ghost predicate Same(t: Tables, t': Tables, family: Family) {
    && family in t.bindings && family in t'.bindings
    && t'.bindings[family].endpoint == t.bindings[family].endpoint
    && t'.bindings[family].descriptor == t.bindings[family].descriptor
    && t'.bindings[family].expires >= t.bindings[family].expires
  }

  /** Only a transaction that judged the row expired may replace or delete it. */
  lemma StepSame(t: Tables, op: Op, ttl: real, family: Family)
    requires ttl > 0.0 && TablesOK(t, ttl) && Allowed(t, op) && family in t.bindings
    requires Judged(op, family).Some? ==> t.bindings[family].expires > Judged(op, family).value
    ensures Same(t, Did(t, op, ttl), family)
  {
    assert RowOK(t, t.bindings[family], ttl);
    hide CatalogOn;
    if op.OpClean? { assert family !in ExpiredBy(t, op.second); }
  }

  /** Recorded models only ever join a live binding. */
  lemma NewBindingHasNoModels(t: Tables, family: Family, parent: Family, endpoint: string, d: Descriptor, seenParent: real, seen: real, now: real, ttl: real)
    ensures var r := Bound(t, family, endpoint, d, seen, now, ttl);
            (r.1.created ==> ModelsOf(r.0, family) == {} && r.1.endpoint == endpoint && r.1.expires == now + ttl)
            && (r.1.created <==> !Live(t, family, seen))
    ensures var r := Inherit(t, family, parent, seenParent, seen, now, ttl);
            r.1.Inherited? && r.1.binding.created ==>
              && ModelsOf(r.0, family) == {} && !Live(t, family, seen) && Live(t, parent, seenParent)
              && r.1.binding.endpoint == t.bindings[parent].endpoint && r.0.bindings[family].descriptor == t.bindings[parent].descriptor
  {
    hide CatalogOn;
  }

  /** The endpoint and resource a row names. */
  function Place(r: Row): (string, string) { (r.endpoint, r.descriptor.identity) }

  /** Binding: a live row wins and nothing is written; otherwise the family gets the place offered, for a lifetime from now. */
  lemma BoundMeans(t: Tables, family: Family, endpoint: string, d: Descriptor, seen: real, now: real, ttl: real)
    ensures var (t', b) := Bound(t, family, endpoint, d, seen, now, ttl);
            && (Live(t, family, seen) ==> t' == t && b == Binding(t.bindings[family].endpoint, t.bindings[family].descriptor.identity,
                                                               t.bindings[family].descriptor.catalog, t.bindings[family].expires, false))
            && (!Live(t, family, seen) ==>
                  && t'.bindings == t.bindings[family := Row(endpoint, d, now, now + ttl)] && t'.descriptors == t.descriptors + {d}
                  && b == Binding(endpoint, d.identity, d.catalog, now + ttl, true))
  {
  }

  /**
   Inheriting: nothing without a live parent; a conflict exactly when the family has a live row in another
   place than the parent's; otherwise its own row, in the parent's place, or a new one there.
   */
  lemma InheritMeans(t: Tables, family: Family, parent: Family, seenParent: real, seen: real, now: real, ttl: real)
    ensures var (t', r) := Inherit(t, family, parent, seenParent, seen, now, ttl);
            && (r.Orphan? <==> !Live(t, parent, seenParent))
            && (r.Conflict? <==> Live(t, parent, seenParent) && Live(t, family, seen) && Place(t.bindings[family]) != Place(t.bindings[parent]))
            && (r.Inherited? ==> (r.binding.endpoint, r.binding.identity) == Place(t.bindings[parent]))
            && (r.Inherited? && Live(t, family, seen) ==> r.binding.expires == t.bindings[family].expires && !r.binding.created)
            && (if r.Inherited? && !Live(t, family, seen)
                then t'.bindings == t.bindings[family := Row(t.bindings[parent].endpoint, t.bindings[parent].descriptor, now, now + ttl)]
                     && r.binding.expires == now + ttl && r.binding.created
                else t' == t)
  {
  }

  // ---- what each transaction does to the rows --------------------------------------------------

  /**
   What written activity does.  A row that was live when its family was touched is active since then,
   unless it was already active later, and lives for the lifetime from there; every other row, and
   everything else, is as it was.
   */
  ghost predicate Prolonged(t: Tables, t': Tables, dirty: map<Family, real>, ttl: real) {
    && t'.bindings.Keys == t.bindings.Keys && t'.descriptors == t.descriptors && t'.models == t.models
    && forall f | f in t.bindings ::
         var r, s := t.bindings[f], t'.bindings[f];
         && s.endpoint == r.endpoint && s.descriptor == r.descriptor
         && (f in dirty && dirty[f] < r.expires ==>
               && s.expires >= dirty[f] + ttl && s.activity >= dirty[f] && s.expires >= r.expires && s.activity >= r.activity
               && (s.expires == dirty[f] + ttl || s.expires == r.expires) && (s.activity == dirty[f] || s.activity == r.activity))
         && (!(f in dirty && dirty[f] < r.expires) ==> s == r)
  }

  lemma FlushedProlongs(t: Tables, dirty: map<Family, real>, ttl: real)
    ensures Prolonged(t, Flushed(t, dirty, ttl), dirty, ttl)
  {
  }

  /** Recording a model: once, for a family whose row is live, and nothing else. */
  lemma NotedMeans(t: Tables, family: Family, model: Model, now: real)
    ensures var t' := Noted(t, family, model, now);
            && t'.bindings == t.bindings && t'.descriptors == t.descriptors
            && (forall f | f != family :: ModelsOf(t', f) == ModelsOf(t, f))
            && (family in t.bindings && now < t.bindings[family].expires ==> ModelsOf(t', family) == ModelsOf(t, family) + {model})
            && (!(family in t.bindings && now < t.bindings[family].expires) ==> ModelsOf(t', family) == ModelsOf(t, family))
  {
    var t' := Noted(t, family, model, now);
    forall f, m ensures m in ModelsOf(t', f) <==> m in ModelsOf(t, f) || (t' != t && f == family && m == model) {
      assert m in ModelsOf(t', f) <==> (f, m) in t'.models;
      assert m in ModelsOf(t, f) <==> (f, m) in t.models;
    }
  }

  /** Cleanup deletes the rows it chose, all of them expired, and keeps every other; a descriptor goes only if no row is left with it. */
  lemma CleanedMeans(t: Tables, first: real, second: real, forgotten: set<Family>, gone: set<Family>, unused: set<Descriptor>)
    requires MayClean(t, first, second, forgotten, gone, unused)
    ensures var t' := Cleaned(t, forgotten, gone, unused);
            && t'.bindings.Keys == t.bindings.Keys - gone && (forall f | f in t'.bindings :: t'.bindings[f] == t.bindings[f])
            && (forall f | f in gone :: t.bindings[f].expires <= second)
            && ((forall f | f in t'.bindings :: t'.bindings[f].expires > second) || |gone| == 500)
            && t'.descriptors <= t.descriptors && (forall f | f in t'.bindings && t.bindings[f].descriptor in t.descriptors :: t'.bindings[f].descriptor in t'.descriptors)
            && (forall f :: ModelsOf(t', f) == if f in forgotten then {} else ModelsOf(t, f))
            && (forall f | f in forgotten :: t.bindings[f].expires <= first)
  {
    var t' := Cleaned(t, forgotten, gone, unused);
    forall f ensures ModelsOf(t', f) == if f in forgotten then {} else ModelsOf(t, f) {
      forall m ensures m in ModelsOf(t', f) <==> f !in forgotten && m in ModelsOf(t, f) {
        assert m in ModelsOf(t', f) <==> (f, m) in t'.models;
      }
    }
    if |gone| != 500 {
      assert |gone| == |ExpiredBy(t, second)|;
      PartSmaller(gone, ExpiredBy(t, second));
    }
  }

  // ---- runs of many workers ----------------------------------------------------------------------

  /** Each transaction finds what the earlier ones left. */
  ghost predicate Serial(t: Tables, ops: seq<Op>, ttl: real) {
    ops == [] || (Serial(t, ops[..|ops| - 1], ttl) && Allowed(After(t, ops[..|ops| - 1], ttl), ops[|ops| - 1]))
  }

  function After(t: Tables, ops: seq<Op>, ttl: real): Tables {
    if ops == [] then t else Did(After(t, ops[..|ops| - 1], ttl), ops[|ops| - 1], ttl)
  }

  lemma {:induction false} RunOK(t: Tables, ops: seq<Op>, ttl: real)
    requires ttl > 0.0 && TablesOK(t, ttl) && Serial(t, ops, ttl)
    ensures TablesOK(After(t, ops, ttl), ttl)
  {
    hide TablesOK, Did, Allowed;
    if ops != [] {
      RunOK(t, ops[..|ops| - 1], ttl);
      StepOK(After(t, ops[..|ops| - 1], ttl), ops[|ops| - 1], ttl);
    }
  }

  /** No transaction of the run judged the family's row expired. */
  ghost predicate NeverExpired(t: Tables, ops: seq<Op>, ttl: real, family: Family) {
    forall i | 0 <= i < |ops| && Judged(ops[i], family).Some? ::
      family in After(t, ops[..i], ttl).bindings ==> After(t, ops[..i], ttl).bindings[family].expires > Judged(ops[i], family).value
  }

  /**
   Binding safety.  However transactions of any number of workers interleave, with whatever clock
   readings: as long as none of them finds the family's row expired, the family stays on its
   endpoint and resource, its expiry never moves back, its descriptor stays readable, and the
   retained catalog names that endpoint only.
   */
  lemma {:induction false} BindingSafety(t: Tables, ops: seq<Op>, ttl: real, family: Family)
    requires ttl > 0.0 && TablesOK(t, ttl) && Serial(t, ops, ttl) && family in t.bindings
    requires NeverExpired(t, ops, ttl, family)
    ensures Same(t, After(t, ops, ttl), family)
    ensures var r := After(t, ops, ttl).bindings[family];
            && r.descriptor in After(t, ops, ttl).descriptors && r.expires == r.activity + ttl
            && CatalogOn(r.descriptor.catalog, r.endpoint)
            && forall now | now < t.bindings[family].expires :: Found(After(t, ops, ttl), family, now).Some?
  {
    hide TablesOK, Did, Allowed, CatalogOn;
    RunOK(t, ops, ttl);
    if ops != [] {
      var before, op := ops[..|ops| - 1], ops[|ops| - 1];
      assert forall i | 0 <= i < |before| :: ops[i] == before[i] && ops[..i] == before[..i];
      BindingSafety(t, before, ttl, family);
      RunOK(t, before, ttl);
      assert ops[..|ops| - 1] == before;
      StepSame(After(t, before, ttl), op, ttl, family);
    }
    RowsOK(After(t, ops, ttl), ttl, family);
  }

  lemma RowsOK(t: Tables, ttl: real, family: Family)
    requires TablesOK(t, ttl) && family in t.bindings
    ensures RowOK(t, t.bindings[family], ttl)
  {
  }

  // ---- activity over runs --------------------------------------------------------------------

  /** The latest touch of the family that the run wrote, or the one it began with. */
  function Touched(ops: seq<Op>, family: Family, first: real): real {
    if ops == [] then first
    else
      var before, op := Touched(ops[..|ops| - 1], family, first), ops[|ops| - 1];
      if op.OpFlush? && family in op.dirty && op.dirty[family] > before then op.dirty[family] else before
  }

  /** The family was touched, and judged, always before a lifetime had passed since its latest touch. */
  ghost predicate InUse(ops: seq<Op>, family: Family, first: real, ttl: real) {
    forall i | 0 <= i < |ops| ::
      && (ops[i].OpFlush? && family in ops[i].dirty ==> ops[i].dirty[family] < Touched(ops[..i], family, first) + ttl)
      && (Judged(ops[i], family).Some? ==> Judged(ops[i], family).value < Touched(ops[..i], family, first) + ttl)
  }

  /**
   Use keeps a binding.  However transactions of any number of workers interleave: a family that is
   touched at gaps shorter than the lifetime, its touches written, stays bound to its endpoint and
   resource, and can be found exactly until a lifetime after its latest touch.
   */
  lemma {:induction false} UseKeepsBinding(t: Tables, ops: seq<Op>, ttl: real, family: Family, now: real)
    requires ttl > 0.0 && TablesOK(t, ttl) && Serial(t, ops, ttl) && family in t.bindings
    requires InUse(ops, family, t.bindings[family].activity, ttl)
    ensures Same(t, After(t, ops, ttl), family)
    ensures After(t, ops, ttl).bindings[family].activity == Touched(ops, family, t.bindings[family].activity)
    ensures var b := Found(After(t, ops, ttl), family, now);
            && (b.Some? <==> now < Touched(ops, family, t.bindings[family].activity) + ttl)
            && (b.Some? ==> b.value.endpoint == t.bindings[family].endpoint && b.value.identity == t.bindings[family].descriptor.identity)
  {
    hide TablesOK, Did, Allowed, CatalogOn, Judged;
    RunOK(t, ops, ttl);
    if ops != [] {
      var before, op := ops[..|ops| - 1], ops[|ops| - 1];
      assert forall i | 0 <= i < |before| :: ops[i] == before[i] && ops[..i] == before[..i];
      UseKeepsBinding(t, before, ttl, family, now);
      RunOK(t, before, ttl);
      var u := After(t, before, ttl);
      RowsOK(u, ttl, family);
      assert ops[..|ops| - 1] == before;
      StepSame(u, op, ttl, family);
      StepActivity(u, op, ttl, family);
    }
    RowsOK(After(t, ops, ttl), ttl, family);
  }

  lemma StepActivity(t: Tables, op: Op, ttl: real, family: Family)
    requires ttl > 0.0 && TablesOK(t, ttl) && Allowed(t, op) && family in t.bindings
    requires Judged(op, family).Some? ==> Judged(op, family).value < t.bindings[family].expires
    requires op.OpFlush? && family in op.dirty ==> op.dirty[family] < t.bindings[family].expires
    ensures family in Did(t, op, ttl).bindings
    ensures Did(t, op, ttl).bindings[family].activity
         == if op.OpFlush? && family in op.dirty && op.dirty[family] > t.bindings[family].activity then op.dirty[family] else t.bindings[family].activity
  {
    RowsOK(t, ttl, family);
    StepSame(t, op, ttl, family);
    hide CatalogOn, TablesOK;
    match op
    case OpFlush(dirty) => FlushedProlongs(t, dirty, ttl);
    case OpClean(first, second, forgotten, gone, unused) => CleanedMeans(t, first, second, forgotten, gone, unused);
    case OpNote(f, model, now) => NotedMeans(t, f, model, now);
    case OpBind(_, _, _, _, _) =>
    case OpInherit(_, _, _, _, _) =>
  }

  // ---- what a worker may rely on while others act --------------------------------------------------

  /** Every family whose row outlived `latest` is where it was, and expires no earlier. */
  ghost predicate Held(t: Tables, t': Tables, latest: real) {
    forall family | family in t.bindings && t.bindings[family].expires > latest :: Same(t, t', family)
  }

  /** The transaction looked at no clock later than this. */
  ghost predicate JudgedBy(op: Op, latest: real) {
    forall family :: Judged(op, family).Some? ==> Judged(op, family).value <= latest
  }

  lemma StepHeld(t: Tables, op: Op, ttl: real, latest: real)
    requires ttl > 0.0 && TablesOK(t, ttl) && Allowed(t, op) && JudgedBy(op, latest)
    ensures TablesOK(Did(t, op, ttl), ttl) && Held(t, Did(t, op, ttl), latest)
  {
    hide TablesOK, Allowed, Did;
    StepOK(t, op, ttl);
    forall family | family in t.bindings && t.bindings[family].expires > latest ensures Same(t, Did(t, op, ttl), family) {
      StepSame(t, op, ttl, family);
    }
  }

  lemma HeldOn(t: Tables, t1: Tables, t2: Tables, earlier: real, latest: real)
    requires Held(t, t1, earlier) && Held(t1, t2, latest) && earlier <= latest
    ensures Held(t, t2, latest)
  {
  }

  lemma {:induction false} RunHeld(t: Tables, ops: seq<Op>, ttl: real, latest: real)
    requires ttl > 0.0 && TablesOK(t, ttl) && Serial(t, ops, ttl) && forall i | 0 <= i < |ops| :: JudgedBy(ops[i], latest)
    ensures TablesOK(After(t, ops, ttl), ttl) && Held(t, After(t, ops, ttl), latest)
  {
    hide TablesOK, Allowed, Did, Held, JudgedBy;
    if ops == [] {
      HeldAtOnce(t, latest);
    } else {
      var before := ops[..|ops| - 1];
      RunHeld(t, before, ttl, latest);
      assert JudgedBy(ops[|ops| - 1], latest);
      StepHeld(After(t, before, ttl), ops[|ops| - 1], ttl, latest);
      HeldOn(t, After(t, before, ttl), After(t, ops, ttl), latest, latest);
    }
  }

  lemma HeldAtOnce(t: Tables, latest: real)
    ensures Held(t, t, latest)
  {
  }

  // ---- choosing routes ---------------------------------------------------------------------------

  /** The installed mapping: routes by table and model, and the resource each endpoint names. */
  datatype Config = Config(tables: map<string, map<Model, seq<Published>>>, identities: map<string, string>) {
    function Routes(table: string, model: Model): seq<Published> {
      if table in tables && model in tables[table] then tables[table][model] else []
    }

    ghost predicate Valid() {
      forall table, model | table in tables && model in tables[table] :: Weighable(tables[table][model])
    }
  }

  function Locals(routes: seq<Published>, endpoint: string, identity: string): seq<Published> {
    if routes == [] then []
    else
      var r := routes[|routes| - 1];
      Locals(routes[..|routes| - 1], endpoint, identity) + if r.endpoint == endpoint && r.resource == identity then [r] else []
  }

  lemma {:induction false} LocalsAreLocal(routes: seq<Published>, endpoint: string, identity: string)
    requires Weighable(routes)
    ensures OnEndpoint(Locals(routes, endpoint, identity), endpoint)
    ensures forall r :: r in Locals(routes, endpoint, identity) <==> r in routes && r.endpoint == endpoint && r.resource == identity
  {
    if routes != [] {
      LocalsAreLocal(routes[..|routes| - 1], endpoint, identity);
      assert routes == routes[..|routes| - 1] + [routes[|routes| - 1]];
    }
  }

  /** `catalog`: everything the mapping offers on this endpoint of this resource. */
  function Catalogued(cfg: Config, endpoint: string, identity: string): Catalog {
    Catalog(map name | name in cfg.tables ::
              map model | model in cfg.tables[name] && Locals(cfg.tables[name][model], endpoint, identity) != [] ::
                Locals(cfg.tables[name][model], endpoint, identity))
  }

  lemma CataloguedOn(cfg: Config, endpoint: string, identity: string)
    requires cfg.Valid()
    ensures CatalogOn(Catalogued(cfg, endpoint, identity), endpoint)
  {
    var c := Catalogued(cfg, endpoint, identity);
    forall name, model | name in c.tables && model in c.tables[name] ensures OnEndpoint(c.tables[name][model], endpoint) {
      LocalsAreLocal(cfg.tables[name][model], endpoint, identity);
    }
  }

  /** The endpoint's name has been given to another resource. */
  predicate Renamed(cfg: Config, endpoint: string, identity: string) {
    || (endpoint in cfg.identities && cfg.identities[endpoint] != "" && cfg.identities[endpoint] != identity)
    || exists table, model | table in cfg.tables && model in cfg.tables[table] ::
         exists r | r in cfg.tables[table][model] :: r.endpoint == endpoint && r.resource != identity
  }

  function Retained(c: Catalog, table: string, model: Model): seq<Published> {
    if table in c.tables && model in c.tables[table] then c.tables[table][model] else []
  }

  /** The candidates of a bound family: what is live on its endpoint, else what was retained. */
  function Candidates(cfg: Config, b: Binding, table: string, model: Model): seq<Published> {
    var local := Locals(cfg.Routes(table, model), b.endpoint, b.identity);
    if local != [] then local else Retained(b.catalog, table, model)
  }

  lemma CandidatesBound(cfg: Config, b: Binding, table: string, model: Model)
    requires cfg.Valid() && CatalogOn(b.catalog, b.endpoint)
    ensures OnEndpoint(Candidates(cfg, b, table, model), b.endpoint)
  {
    LocalsAreLocal(cfg.Routes(table, model), b.endpoint, b.identity);
  }

  /** A route is kept as often as it is offered, if it is on the endpoint of that resource, and not at all otherwise. */
  lemma {:induction false} LocalsCount(routes: seq<Published>, endpoint: string, identity: string, r: Published)
    ensures multiset(Locals(routes, endpoint, identity))[r] == if (r.endpoint, r.resource) == (endpoint, identity) then multiset(routes)[r] else 0
  {
    if routes != [] {
      LocalsCount(routes[..|routes| - 1], endpoint, identity, r);
      assert routes == routes[..|routes| - 1] + [routes[|routes| - 1]];
    }
  }

  /**
   What a binding keeps available.  A family is served with the live routes of its endpoint, as long as
   its endpoint and resource offer any for that table and model; once they are gone, with what its
   endpoint offered when the binding was made, of the same resource, each as often as it was offered then.
   */
  lemma CandidatesMean(was: Config, cfg: Config, b: Binding, table: string, model: Model, r: Published)
    requires b.catalog == Catalogued(was, b.endpoint, b.identity)
    ensures var gone := forall x | x in cfg.Routes(table, model) :: (x.endpoint, x.resource) != (b.endpoint, b.identity);
            multiset(Candidates(cfg, b, table, model))[r]
            == if (r.endpoint, r.resource) != (b.endpoint, b.identity) then 0
               else multiset(if gone then was.Routes(table, model) else cfg.Routes(table, model))[r]
  {
    LocalsCount(cfg.Routes(table, model), b.endpoint, b.identity, r);
    LocalsCount(was.Routes(table, model), b.endpoint, b.identity, r);
    LocalsEmpty(cfg.Routes(table, model), b.endpoint, b.identity);
    CataloguedMeans(was, b.endpoint, b.identity, table, model);
    hide Locals;
  }

  lemma {:induction false} LocalsEmpty(routes: seq<Published>, endpoint: string, identity: string)
    ensures Locals(routes, endpoint, identity) == [] <==> forall x | x in routes :: (x.endpoint, x.resource) != (endpoint, identity)
  {
    if routes != [] {
      LocalsEmpty(routes[..|routes| - 1], endpoint, identity);
      assert routes == routes[..|routes| - 1] + [routes[|routes| - 1]];
    }
  }

  lemma CataloguedMeans(cfg: Config, endpoint: string, identity: string, table: string, model: Model)
    ensures Retained(Catalogued(cfg, endpoint, identity), table, model) == Locals(cfg.Routes(table, model), endpoint, identity)
  {
    hide Locals;
    assert Locals([], endpoint, identity) == [] by { LocalsEmpty([], endpoint, identity); }
  }

  /** An endpoint's name is intact when every publication of it that names a resource names the bound one. */
  lemma RenamedMeans(cfg: Config, endpoint: string, identity: string)
    ensures !Renamed(cfg, endpoint, identity) <==>
              && (endpoint in cfg.identities ==> cfg.identities[endpoint] in {"", identity})
              && forall table, model, r | r in cfg.Routes(table, model) && r.endpoint == endpoint :: r.resource == identity
  {
    if table, model, r :| r in cfg.Routes(table, model) && r.endpoint == endpoint && r.resource != identity {
      assert table in cfg.tables && model in cfg.tables[table] && r in cfg.tables[table][model];
    }
    forall table, model, r | table in cfg.tables && model in cfg.tables[table] && r in cfg.tables[table][model] && r.endpoint == endpoint
      ensures r in cfg.Routes(table, model)
    {
    }
  }
}
