/**
 `Store` as it runs: tables updated in place, one connection per object, several connections on
 one file.  Each method is proved to do to the file's contents (`Db`) what the Journal function of
 its transaction says, and to remember of a publication exactly what that publication committed.
 */
module StoreObject {
  import opened Prelude
  import opened EngineModel
  import opened Journal

  /** The tables of the control database. */
  class File {
    var rows: seq<Row>
    var lastNum: nat
    var marks: map<string, Mark>
    var revision: nat
    var checkpoint: Option<EngineV>
    var feed: Option<Feed>
    var retention: Retention
    /** Every row ever inserted; compaction and expiry do not touch it. */
    ghost var log: seq<Row>

    function Db(): Db reads this { Journal.Db.Db(rows, lastNum, marks, revision, checkpoint, feed, retention) }

    constructor ()
      ensures Db() == EMPTY && log == []
    {
      rows, lastNum, marks, revision, checkpoint, feed, retention := [], 0, map[], 0, None, None, Journal.Retention.Retention(0, 0);
      log := [];
    }
  }

  class Store {
    const file: File
    var cache: Cache

    constructor (file: File)
      ensures this.file == file && cache == Nothing && file.Db() == old(file.Db())
    {
      this.file, cache := file, Nothing;
    }

    /** `append`: skip what the producer's watermark covers, insert the rest, move the watermark. */
    method Append(producer: string, batch: seq<Record>) returns (local: nat, num: nat)
      modifies file
      ensures file.Db() == Appended(old(file.Db()), producer, batch)
      ensures file.log == LogAppended(old(file.Db()), old(file.log), producer, batch)
      ensures Mark(local, num) == file.marks[producer]
    {
      ghost var before := file.Db();
      var mark := MarkOf(file.Db(), producer);
      local, num := mark.local, mark.num;
      for i := 0 to |batch|
        invariant file.Db().(marks := file.marks[producer := Mark(local, num)]) == Appended(before, producer, batch[..i])
        invariant file.marks == before.marks && file.log == LogAppended(before, old(file.log), producer, batch[..i])
      {
        assert batch[..i + 1][..i] == batch[..i];
        if batch[i].local > local {
          file.lastNum := file.lastNum + 1;
          file.rows := file.rows + [Row(file.lastNum, producer, batch[i])];
          file.log := file.log + [Row(file.lastNum, producer, batch[i])];
          local, num := batch[i].local, file.lastNum;
        }
      }
      assert batch[..|batch|] == batch;
      file.marks := file.marks[producer := Mark(local, num)];
    }

    /** `highwater`. */
    method Highwater() returns (n: nat)
      ensures IsHighwater(file.Db(), n)
    {
      n := 0;
      var todo := file.marks.Keys;
      while todo != {}
        invariant todo <= file.marks.Keys
        invariant forall p | p in file.marks && p !in todo :: file.marks[p].num <= n
        invariant n == 0 || exists p :: p in file.marks && file.marks[p].num == n
        decreases |todo|
      {
        var p :| p in todo;
        if file.marks[p].num > n { n := file.marks[p].num; }
        todo := todo - {p};
      }
    }

    /** `read_events`, the rows in order of their numbers. */
    method ReadEvents(after: nat, through: nat) returns (batch: seq<Row>)
      ensures batch == ReadRows(file.rows, after, through, BATCH)
    {
      batch := [];
      var i := 0;
      while i < |file.rows| && |batch| < BATCH
        invariant i <= |file.rows| && |batch| <= BATCH
        invariant batch + ReadRows(file.rows[i..], after, through, BATCH - |batch|) == ReadRows(file.rows, after, through, BATCH)
      {
        assert file.rows[i..][1..] == file.rows[i + 1..];
        if after < file.rows[i].num <= through {
          assert batch + ReadRows(file.rows[i..], after, through, BATCH - |batch|)
              == (batch + [file.rows[i]]) + ReadRows(file.rows[i + 1..], after, through, BATCH - |batch| - 1);
          batch := batch + [file.rows[i]];
        }
        i := i + 1;
      }
    }

    /** `expire`: returns how many rows went, so that its caller repeats until none does. */
    method Expire(now: real) returns (n: nat, ghost victims: set<nat>)
      requires Ascending(file.rows)
      modifies file
      ensures file.log == old(file.log)
      ensures Oldest(old(file.rows), Horizon(now), victims) && n == |victims|
      ensures n == MinNat(2000, |AgedNums(old(file.rows), now - 86340.0)|)
      ensures file.Db() == Expired(old(file.Db()), Horizon(now), victims)
    {
      hide Aged, AgedFeed, AgedNums, OlderFirst, Ascending;
      var cutoff := Horizon(now);
      var chosen := ChooseOldest(file.rows, cutoff);
      var kept := [];
      var through := file.retention.through;
      for i := 0 to |file.rows|
        invariant kept == Without(file.rows[..i], chosen)
        invariant through == Reach(file.rows[..i], chosen, file.retention.through)
      {
        assert file.rows[..i + 1][..i] == file.rows[..i];
        if file.rows[i].num in chosen {
          through := MaxNat(through, file.rows[i].num);
        } else {
          kept := kept + [file.rows[i]];
        }
      }
      assert file.rows[..|file.rows|] == file.rows;
      victims, n := chosen, |chosen|;
      file.retention := Journal.Retention.Retention(through, file.retention.deleted + n);
      file.rows := kept;
      if file.checkpoint.Some? { file.checkpoint := Some(Aged(file.checkpoint.value, cutoff)); }
      if file.feed.Some? { file.feed := Some(AgedFeed(file.feed.value, cutoff)); }
    }

    /**
     `publish`: everything in one transaction or, when the file is busy, nothing; the connection
     remembers a publication only once it has committed.
     */
    method Publish(v: EngineV, revision: nat, busy: bool) returns (committed: bool)
      modifies file, this`cache
      ensures file.log == old(file.log)
      ensures committed == !busy
      ensures committed ==> file.Db() == Published(old(file.Db()), old(cache), v, revision) && cache == CacheOf(v)
      ensures !committed ==> file.Db() == old(file.Db()) && cache == old(cache)
    {
      var key := KeyOf(v);
      var epoch := Epoch(v.now);
      var wholeFeed := cache.Nothing? || cache.key != key;
      var checkpoint := wholeFeed || cache.cursor != v.cursor || cache.epoch != epoch;
      if busy { return false; }
      file.revision := revision;
      if checkpoint { file.checkpoint := Some(v.(events := [])); }
      if wholeFeed { file.feed := Some(FeedOf(v)); }
      Compact(v.cursor);
      cache := Cache.Cache(v.cursor, key, epoch);
      committed := true;
    }

    /** Deletes one bounded run of rows the checkpoint covers. */
    method Compact(cursor: nat)
      modifies file`rows
      ensures file.rows == Compacted(old(file.rows), cursor, BATCH)
    {
      var n := 0;
      while n < |file.rows| && n < BATCH && file.rows[n].num <= cursor
        invariant n <= |file.rows| && n <= BATCH
        invariant Compacted(file.rows[n..], cursor, BATCH - n) == Compacted(file.rows, cursor, BATCH)
      {
        assert file.rows[n..][1..] == file.rows[n + 1..];
        n := n + 1;
      }
      file.rows := file.rows[n..];
    }
  }

  /**
   A batch sent twice over two connections, because the first acknowledgement was lost, leaves the
   file and the acknowledged mark as after the first.
   */
  method RetryIsHarmless(first: Store, second: Store, producer: string, batch: seq<Record>)
    requires first.file == second.file
    modifies first.file
    ensures first.file.Db() == Appended(old(first.file.Db()), producer, batch)
  {
    ghost var before := first.file.Db();
    var local, num := first.Append(producer, batch);
    AppendedMark(before, producer, batch);
    AppendCovered(first.file.Db(), producer, batch);
    var local', num' := second.Append(producer, batch);
    assert (local', num') == (local, num);
  }
}
