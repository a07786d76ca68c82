/**
 One pass of the routing process over the journal, on the engine and the connection it has: batches
 from the store, the retention cutoff of the pass, the cursor that moves with every row, and the end
 of the range when expiry took the rest.
 */
module Pass {
  import opened Quota
  import opened EngineModel
  import opened Recovery
  import opened EngineObject
  import opened Journal
  import opened StoreObject
  import opened Exchange

  /** Every row after `after` and up to `through`, however many batches they take. */
  function Range(rows: seq<Row>, after: nat, through: nat): seq<Row> {
    if rows == [] then []
    else if after < rows[0].num <= through then [rows[0]] + Range(rows[1..], after, through)
    else Range(rows[1..], after, through)
  }

  /** Where the cursor is once the rows have had their turns. */
  function Behind(rows: seq<Row>, cursor: nat): nat { if rows == [] then cursor else rows[|rows| - 1].num }

  lemma {:induction false} RangeFrom(rows: seq<Row>, a: nat, b: nat, through: nat)
    requires a <= b && forall i | 0 <= i < |rows| :: rows[i].num > b
    ensures Range(rows, a, through) == Range(rows, b, through)
  {
    if rows != [] { RangeFrom(rows[1..], a, b, through); }
  }

  /** The last row of a batch lies in the range. */
  lemma {:induction false} BatchEnds(rows: seq<Row>, after: nat, through: nat, limit: nat)
    requires ReadRows(rows, after, through, limit) != []
    ensures var b := ReadRows(rows, after, through, limit);
            exists i :: 0 <= i < |rows| && rows[i] == b[|b| - 1] && after < rows[i].num <= through
  {
    var b, b' := ReadRows(rows, after, through, limit), ReadRows(rows[1..], after, through, limit - 1);
    if after < rows[0].num <= through && b' == [] {
      assert rows[0] == b[|b| - 1];
    } else {
      var less := if after < rows[0].num <= through then limit - 1 else limit;
      BatchEnds(rows[1..], after, through, less);
      var c := ReadRows(rows[1..], after, through, less);
      var i :| 0 <= i < |rows[1..]| && rows[1..][i] == c[|c| - 1] && after < rows[1..][i].num <= through;
      assert rows[i + 1] == b[|b| - 1];
    }
  }

  lemma RangeSkips(rows: seq<Row>, after: nat, through: nat)
    requires rows != [] && !(after < rows[0].num <= through)
    ensures Range(rows, after, through) == Range(rows[1..], after, through)
  {
  }

  lemma {:induction false} RangeEnds(rows: seq<Row>, after: nat, through: nat)
    requires after >= through
    ensures Range(rows, after, through) == []
  {
    if rows != [] { RangeEnds(rows[1..], after, through); }
  }

  lemma BatchStep(rows: seq<Row>, after: nat, through: nat, limit: nat)
    requires rows != [] && limit > 0
    ensures ReadRows(rows, after, through, limit)
         == if after < rows[0].num <= through then [rows[0]] + ReadRows(rows[1..], after, through, limit - 1)
            else ReadRows(rows[1..], after, through, limit)
    ensures Range(rows, after, through)
         == if after < rows[0].num <= through then [rows[0]] + Range(rows[1..], after, through)
            else Range(rows[1..], after, through)
  {
  }

  /** A batch is the front of the range, and the next read goes on behind it. */
  lemma {:induction false} BatchThenRest(rows: seq<Row>, after: nat, through: nat, limit: nat)
    requires Ascending(rows) && limit > 0
    ensures var b := ReadRows(rows, after, through, limit);
            && Range(rows, after, through) == b + Range(rows, Behind(b, after), through)
            && (b == [] <==> Range(rows, after, through) == [])
  {
    if rows != [] {
      var first, rest := rows[0], rows[1..];
      var inside := after < first.num <= through;
      BatchStep(rows, after, through, limit);
      if inside && limit == 1 {
        assert ReadRows(rest, after, through, 0) == [];
        RangeSkips(rows, first.num, through);
        RangeFrom(rest, after, first.num, through);
      } else {
        hide Range, ReadRows;
        var less := if inside then limit - 1 else limit;
        var c := ReadRows(rest, after, through, less);
        BatchThenRest(rest, after, through, less);
        if c != [] {
          BatchEnds(rest, after, through, less);
          RangeSkips(rows, Behind(c, after), through);
        } else if inside {
          RangeFrom(rest, after, first.num, through);
          RangeSkips(rows, first.num, through);
        } else {
          RangeSkips(rows, after, through);
        }
      }
    }
  }

  function Turns(rows: seq<Row>, cutoff: real): (inputs: seq<Input>)
    ensures |inputs| == |rows| && forall i | 0 <= i < |rows| :: inputs[i] == TurnOf(rows[i], cutoff)
  {
    seq(|rows|, i requires 0 <= i < |rows| => TurnOf(rows[i], cutoff))
  }

  /** Every dispatch among the turns uses an id no ledger entry has. */
  ghost predicate FreshTurns(v: EngineV, inputs: seq<Input>, cfg: Settings)
    requires cfg.Valid()
  {
    forall i | 0 <= i < |inputs| && inputs[i].Consumed? :: FreshDispatch(Fold(v, inputs[..i], cfg), inputs[i].e)
  }

  lemma {:induction false} FoldCursor(v: EngineV, rows: seq<Row>, cutoff: real, cfg: Settings)
    requires cfg.Valid()
    ensures Fold(v, Turns(rows, cutoff), cfg).cursor == Behind(rows, v.cursor)
  {
    if rows != [] {
      assert Turns(rows, cutoff)[..|rows| - 1] == Turns(rows[..|rows| - 1], cutoff);
      hide Consume;
    }
  }

  lemma TurnsSnoc(v: EngineV, done: seq<Row>, r: Row, cutoff: real, cfg: Settings)
    requires cfg.Valid()
    ensures Fold(v, Turns(done + [r], cutoff), cfg) == Step(Fold(v, Turns(done, cutoff), cfg), TurnOf(r, cutoff), cfg)
  {
    hide Step, TurnOf;
    var next := Turns(done + [r], cutoff);
    assert next[..|next| - 1] == Turns(done, cutoff) && next[|next| - 1] == TurnOf(r, cutoff);
  }

  lemma FreshTurn(v: EngineV, all: seq<Row>, n: nat, cutoff: real, cfg: Settings)
    requires cfg.Valid() && FreshTurns(v, Turns(all, cutoff), cfg) && n < |all|
    ensures all[n].record.e.at > cutoff ==> FreshDispatch(Fold(v, Turns(all[..n], cutoff), cfg), Seen(all[n]))
  {
    hide FreshDispatch, Fold;
    assert Turns(all, cutoff)[..n] == Turns(all[..n], cutoff);
    assert Turns(all, cutoff)[n] == TurnOf(all[n], cutoff);
  }

  /** The rows of one batch, those before it having had their turns. */
  method TakeBatch(engine: Engine, ghost v: EngineV, ghost all: seq<Row>, ghost n: nat, batch: seq<Row>, cutoff: real)
    requires engine.Valid() && engine.cfg.Valid() && FreshTurns(v, Turns(all, cutoff), engine.cfg)
    requires n + |batch| <= |all| && all[n..n + |batch|] == batch
    requires engine.View() == Fold(v, Turns(all[..n], cutoff), engine.cfg)
    modifies engine.Parts()
    ensures engine.Valid() && engine.GrewFresh()
    ensures engine.View() == Fold(v, Turns(all[..n + |batch|], cutoff), engine.cfg)
  {
    hide Engine.Valid, Engine.View, Engine.Parts, FreshTurns, FreshDispatch, Turns, Fold, Step;
    for i := 0 to |batch|
      invariant engine.Valid() && engine.View() == Fold(v, Turns(all[..n + i], cutoff), engine.cfg)
      invariant forall o | o in engine.Parts() && o !in old(engine.Parts()) :: fresh(o)
    {
      assert batch[i] == all[n + i] && all[..n + i + 1] == all[..n + i] + [all[n + i]];
      FreshTurn(v, all, n + i, cutoff, engine.cfg);
      TurnsSnoc(v, all[..n + i], all[n + i], cutoff, engine.cfg);
      engine.Take(batch[i].num, Seen(batch[i]), cutoff);
    }
  }

  /** `n` of the rows have had their turns, and the rest are still to be read. */
  ghost predicate Midway(v: EngineV, now: EngineV, rows: seq<Row>, all: seq<Row>, n: nat, waterline: nat, cutoff: real, cfg: Settings) {
    && cfg.Valid() && n <= |all| && now == Fold(v, Turns(all[..n], cutoff), cfg)
    && all[n..] == Range(rows, now.cursor, waterline)
  }

  lemma MidwayAtStart(v: EngineV, rows: seq<Row>, waterline: nat, cutoff: real, cfg: Settings)
    requires cfg.Valid()
    ensures Midway(v, v, rows, Range(rows, v.cursor, waterline), 0, waterline, cutoff, cfg)
  {
    assert Turns(Range(rows, v.cursor, waterline)[..0], cutoff) == [];
  }

  lemma MidwayBatch(v: EngineV, now: EngineV, rows: seq<Row>, all: seq<Row>, n: nat, waterline: nat, cutoff: real, cfg: Settings)
    requires Midway(v, now, rows, all, n, waterline, cutoff, cfg) && Ascending(rows)
    ensures var b := ReadRows(rows, now.cursor, waterline, BATCH);
            && cfg.Valid() && now == Fold(v, Turns(all[..n], cutoff), cfg)
            && n + |b| <= |all| && all[n..n + |b|] == b && (b == [] <==> n == |all|)
            && Midway(v, Fold(v, Turns(all[..n + |b|], cutoff), cfg), rows, all, n + |b|, waterline, cutoff, cfg)
            && (b != [] ==> Fold(v, Turns(all[..n + |b|], cutoff), cfg).cursor <= waterline)
  {
    hide ReadRows, Range, Fold, Turns;
    var b := ReadRows(rows, now.cursor, waterline, BATCH);
    BatchThenRest(rows, now.cursor, waterline, BATCH);
    Slices(all, n, b, Range(rows, Behind(b, now.cursor), waterline));
    if b != [] {
      BatchEnds(rows, now.cursor, waterline, BATCH);
      TurnsCursor(v, all, n, |b|, cutoff, cfg);
    }
  }

  lemma MidwayAtEnd(v: EngineV, now: EngineV, rows: seq<Row>, all: seq<Row>, n: nat, waterline: nat, cutoff: real, cfg: Settings)
    requires Midway(v, now, rows, all, n, waterline, cutoff, cfg) && (n == |all| || now.cursor >= waterline)
    ensures now == Fold(v, Turns(all, cutoff), cfg)
  {
    hide Range, Fold, Turns;
    if now.cursor >= waterline { RangeEnds(rows, now.cursor, waterline); }
    assert all[..n] == all;
  }

  lemma Slices<T>(s: seq<T>, n: nat, front: seq<T>, rest: seq<T>)
    requires n <= |s| && s[n..] == front + rest
    ensures n + |front| <= |s| && s[n..n + |front|] == front && s[n + |front|..] == rest
  {
  }

  lemma TurnsCursor(v: EngineV, all: seq<Row>, n: nat, k: nat, cutoff: real, cfg: Settings)
    requires cfg.Valid() && 0 < k && n + k <= |all|
    ensures Fold(v, Turns(all[..n + k], cutoff), cfg).cursor == all[n..n + k][k - 1].num
  {
    FoldCursor(v, all[..n + k], cutoff, cfg);
  }

  method Fetch(engine: Engine, store: Store, waterline: nat) returns (batch: seq<Row>)
    requires engine.Valid()
    ensures engine.Valid() && engine.View() == old(engine.View()) && engine.Parts() == old(engine.Parts())
    ensures batch == ReadRows(store.file.rows, engine.View().cursor, waterline, BATCH)
  {
    CursorOf(engine);
    hide ReadRows, Engine.Valid, Engine.View;
    batch := store.ReadEvents(engine.cursor, waterline);
    Undisturbed(engine);
  }

  /** One batch of the loop, or the news that there are no more rows. */
  method TakeNext(engine: Engine, store: Store, ghost v: EngineV, ghost all: seq<Row>, ghost n: nat, waterline: nat, cutoff: real)
    returns (batch: seq<Row>, ghost m: nat)
    requires engine.Valid() && Ascending(store.file.rows) && store.file !in engine.Parts()
    requires FreshTurns(v, Turns(all, cutoff), engine.cfg)
    requires Midway(v, engine.View(), store.file.rows, all, n, waterline, cutoff, engine.cfg)
    modifies engine.Parts()
    ensures engine.Valid() && engine.GrewFresh()
    ensures Midway(v, engine.View(), store.file.rows, all, m, waterline, cutoff, engine.cfg)
    ensures m == n + |batch| <= |all| && (batch == [] <==> n == |all|)
    ensures batch != [] ==> engine.View().cursor <= waterline
  {
    hide Engine.Valid, Engine.View, Engine.Parts, FreshTurns, Turns, ReadRows, Fold, Ascending, Midway;
    MidwayBatch(v, engine.View(), store.file.rows, all, n, waterline, cutoff, engine.cfg);
    batch := Fetch(engine, store, waterline);
    m := n + |batch|;
    TakeBatch(engine, v, all, n, batch, cutoff);
  }

  /**
   The replay loop of `step`.  Whatever the number of batches, the engine ends as the fold of every
   row between its cursor and the waterline, each consumed or, if older than the cutoff, passed over;
   its cursor ends at the waterline; and the loop gives up exactly when the rows end before the
   waterline and expiry did not reach it either.
   */
  method CatchUp(engine: Engine, store: Store, waterline: nat, cutoff: real) returns (gap: bool)
    requires engine.Valid() && Ascending(store.file.rows) && store.file !in engine.Parts()
    requires FreshTurns(engine.View(), Turns(Range(store.file.rows, engine.View().cursor, waterline), cutoff), engine.cfg)
    modifies engine.Parts()
    ensures engine.Valid() && engine.GrewFresh()
    ensures var rows := Range(store.file.rows, old(engine.View()).cursor, waterline);
            var v := Fold(old(engine.View()), Turns(rows, cutoff), engine.cfg);
            && (gap <==> v.cursor < waterline && store.file.retention.through < waterline)
            && engine.View() == if v.cursor < waterline && !gap then v.(cursor := waterline) else v
    ensures !gap && old(engine.View()).cursor <= waterline ==> engine.View().cursor == waterline
  {
    assert engine.cfg.Valid();
    ghost var v, n := engine.View(), 0;
    ghost var all := Range(store.file.rows, v.cursor, waterline);
    MidwayAtStart(v, store.file.rows, waterline, cutoff, engine.cfg);
    CursorOf(engine);
    gap := false;
    hide Engine.Valid, Engine.View, Engine.Parts, FreshTurns, Turns, Range, Fold, Midway, Ascending;
    while engine.cursor < waterline
      invariant engine.Valid() && n <= |all| && engine.cursor == engine.View().cursor
      invariant Midway(v, engine.View(), store.file.rows, all, n, waterline, cutoff, engine.cfg)
      invariant v.cursor <= waterline ==> engine.cursor <= waterline
      invariant store.file !in engine.Parts() && GrownFrom(engine, old(engine.Parts()))
      decreases |all| - n
    {
      ghost var m: nat;
      var batch;
      batch, m := TakeNext(engine, store, v, all, n, waterline, cutoff);
      CursorOf(engine);
      n := m;
      if batch == [] {
        MidwayAtEnd(v, engine.View(), store.file.rows, all, n, waterline, cutoff, engine.cfg);
        if store.file.retention.through < waterline { gap := true; } else { engine.MoveTo(waterline); }
        return;
      }
    }
    MidwayAtEnd(v, engine.View(), store.file.rows, all, n, waterline, cutoff, engine.cfg);
  }

  /** All parts but those it had are new. */
  twostate predicate GrownFrom(engine: Engine, parts: set<object>)
    reads *
  {
    forall o | o in engine.Parts() && o !in parts :: fresh(o)
  }

  lemma CursorOf(engine: Engine)
    ensures engine.View().cursor == engine.cursor
  {
  }
}
