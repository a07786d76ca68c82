/**
 The exchange file shared by the serving and routing processes (`Store`): the telemetry journal
 with its per-producer watermarks, and the checkpoint, event feed and publication that commit
 together.  Each function is one transaction on the file's contents; StoreObject runs them.
 */
module Journal {
  import opened Prelude
  import opened EngineModel

  const BATCH := 2000

  /** One observation as a producer numbers it. */
  datatype Record = Record(local: nat, e: Observation)

  /** One telemetry row. */
  datatype Row = Row(num: nat, producer: string, record: Record)

  /** A producer's watermark: its last local number, and the row that holds it. */
  datatype Mark = Mark(local: nat, num: nat)

  datatype Feed = Feed(events: seq<FeedEvent>, next: nat, streamId: string, retentionThrough: nat)

  datatype Retention = Retention(through: nat, deleted: nat)

  datatype Db = Db(
    rows: seq<Row>, lastNum: nat, marks: map<string, Mark>,
    revision: nat, checkpoint: Option<EngineV>, feed: Option<Feed>, retention: Retention)

  const EMPTY := Db([], 0, map[], 0, None, None, Retention(0, 0))

  function MarkOf(db: Db, producer: string): Mark {
    if producer in db.marks then db.marks[producer] else Mark(0, 0)
  }

  // ---- append -------------------------------------------------------------------------

  /** One record enters unless its producer's watermark already covers it. */
  function Inserted(db: Db, producer: string, r: Record): Db {
    if r.local <= MarkOf(db, producer).local then db
    else db.(rows := db.rows + [Row(db.lastNum + 1, producer, r)], lastNum := db.lastNum + 1,
             marks := db.marks[producer := Mark(r.local, db.lastNum + 1)])
  }

  /** `append`: a batch in one transaction; the watermark row is written even when nothing is new. */
  function Appended(db: Db, producer: string, batch: seq<Record>): (d: Db)
    ensures producer in d.marks
  {
    if batch == [] then db.(marks := db.marks[producer := MarkOf(db, producer)])
    else Inserted(Appended(db, producer, batch[..|batch| - 1]), producer, batch[|batch| - 1])
  }

  // ---- reading --------------------------------------------------------------------------

  /** `highwater`: the largest row any watermark names. */
  ghost predicate IsHighwater(db: Db, n: nat) {
    && (forall p | p in db.marks :: db.marks[p].num <= n)
    && (n == 0 || exists p :: p in db.marks && db.marks[p].num == n)
  }

  /** `read_events`: the first `limit` rows past `after`, up to and including `through`. */
  function ReadRows(rows: seq<Row>, after: nat, through: nat, limit: nat): seq<Row> {
    if rows == [] || limit == 0 then []
    else if after < rows[0].num <= through then [rows[0]] + ReadRows(rows[1..], after, through, limit - 1)
    else ReadRows(rows[1..], after, through, limit)
  }

  /** `get("checkpoint")`: the saved state joined with the feed it was committed with. */
  function Joined(db: Db): Option<EngineV> {
    if db.checkpoint.Some? && db.feed.Some? then Some(db.checkpoint.value.(events := db.feed.value.events)) else None
  }

  // ---- expire ---------------------------------------------------------------------------

  function Without(rows: seq<Row>, victims: set<nat>): seq<Row> {
    if rows == [] then []
    else if rows[|rows| - 1].num in victims then Without(rows[..|rows| - 1], victims)
    else Without(rows[..|rows| - 1], victims) + [rows[|rows| - 1]]
  }

  function AgedNums(rows: seq<Row>, cutoff: real): set<nat> {
    set i | 0 <= i < |rows| && rows[i].record.e.at <= cutoff :: rows[i].num
  }

  /** One bounded batch of aged rows, oldest first. */
  ghost predicate Oldest(rows: seq<Row>, cutoff: real, victims: set<nat>) {
    && victims <= AgedNums(rows, cutoff)
    && |victims| == MinNat(BATCH, |AgedNums(rows, cutoff)|)
    && OlderFirst(rows, cutoff, victims)
  }

  ghost predicate OlderFirst(rows: seq<Row>, cutoff: real, victims: set<nat>) {
    forall i, j | 0 <= i < |rows| && 0 <= j < |rows| && rows[i].num in victims && rows[j].num !in victims ::
      rows[j].record.e.at <= cutoff ==> rows[i].record.e.at <= rows[j].record.e.at
  }

  /** The largest row number deleted, or `floor`. */
  function Reach(rows: seq<Row>, victims: set<nat>, floor: nat): (m: nat)
    ensures m >= floor && (m == floor || m in victims)
    ensures forall i | 0 <= i < |rows| && rows[i].num in victims :: rows[i].num <= m
  {
    if rows == [] then floor
    else
      var m := Reach(rows[..|rows| - 1], victims, floor);
      if rows[|rows| - 1].num in victims then MaxNat(m, rows[|rows| - 1].num) else m
  }

  function AgedFeed(f: Feed, cutoff: real): Feed {
    f.(events := Recent(f.events, cutoff), retentionThrough := Through(f.events, cutoff, f.retentionThrough))
  }

  /** `expire`: delete the batch, record how far deletion reached, age the saved copies in place. */
  function Expired(db: Db, cutoff: real, victims: set<nat>): Db {
    db.(rows := Without(db.rows, victims),
        retention := Retention(Reach(db.rows, victims, db.retention.through), db.retention.deleted + |victims|),
        checkpoint := if db.checkpoint.Some? then Some(Aged(db.checkpoint.value, cutoff)) else None,
        feed := if db.feed.Some? then Some(AgedFeed(db.feed.value, cutoff)) else None)
  }

  // ---- publish --------------------------------------------------------------------------

  /** The compact key that stands for a whole feed. */
  datatype EventKey = EventKey(streamId: string, retentionThrough: nat, next: nat, length: nat, first: Option<nat>)

  function KeyOf(v: EngineV): EventKey {
    EventKey(v.streamId, v.retentionThrough, v.eventSeq, |v.events|, if v.events == [] then None else Some(v.events[0].num))
  }

  /** What a connection remembers of its last publication. */
  datatype Cache = Nothing | Cache(cursor: nat, key: EventKey, epoch: int)

  function Epoch(now: real): int { (now / 60.0).Floor }

  predicate WritesCheckpoint(cache: Cache, v: EngineV) {
    cache.Nothing? || cache.cursor != v.cursor || cache.key != KeyOf(v) || cache.epoch != Epoch(v.now)
  }

  predicate WritesFeed(cache: Cache, v: EngineV) { cache.Nothing? || cache.key != KeyOf(v) }

  function FeedOf(v: EngineV): Feed { Feed(v.events, v.eventSeq, v.streamId, v.retentionThrough) }

  function CacheOf(v: EngineV): Cache { Cache(v.cursor, KeyOf(v), Epoch(v.now)) }

  /** Deletes at most `limit` of the leading rows up to the cursor. */
  function Compacted(rows: seq<Row>, cursor: nat, limit: nat): seq<Row> {
    if rows == [] || limit == 0 || rows[0].num > cursor then rows else Compacted(rows[1..], cursor, limit - 1)
  }

  /** `publish`: publication, checkpoint, feed and compaction in one transaction. */
  function Published(db: Db, cache: Cache, v: EngineV, revision: nat): Db {
    db.(rows := Compacted(db.rows, v.cursor, BATCH),
        revision := revision,
        checkpoint := if WritesCheckpoint(cache, v) then Some(v.(events := [])) else db.checkpoint,
        feed := if WritesFeed(cache, v) then Some(FeedOf(v)) else db.feed)
  }

  // ---- what the journal always satisfies -----------------------------------------------------

  /** Everything ever appended, in order: row `n` is the `n`-th, and no producer repeats or reorders itself. */
  ghost predicate Logged(log: seq<Row>) {
    && (forall i | 0 <= i < |log| :: log[i].num == i + 1)
    && (forall i, j | 0 <= i < j < |log| && log[i].producer == log[j].producer :: log[i].record.local < log[j].record.local)
  }

  ghost predicate InRows(rows: seq<Row>, n: nat) { exists i :: 0 <= i < |rows| && rows[i].num == n }

  ghost predicate Ascending(rows: seq<Row>) { forall i, j | 0 <= i < j < |rows| :: rows[i].num < rows[j].num }

  ghost predicate FromLog(rows: seq<Row>, log: seq<Row>) {
    forall i | 0 <= i < |rows| :: 0 < rows[i].num <= |log| && log[rows[i].num - 1] == rows[i]
  }

  /** The watermark names its producer's row, or is the initial one. */
  ghost predicate Points(m: Mark, p: string, log: seq<Row>) {
    if m.num == 0 then m.local == 0
    else m.num <= |log| && log[m.num - 1].producer == p && log[m.num - 1].record.local == m.local
  }

  ghost predicate Covers(marks: map<string, Mark>, row: Row) {
    row.producer in marks && row.record.local <= marks[row.producer].local && row.num <= marks[row.producer].num
  }

  /** Each watermark is its producer's last row. */
  ghost predicate Marked(marks: map<string, Mark>, log: seq<Row>) {
    (forall i | 0 <= i < |log| :: Covers(marks, log[i])) && (forall p | p in marks :: Points(marks[p], p, log))
  }

  /** Every row ever appended is still there, was recorded as expired, or lies at or before `done`. */
  ghost predicate Accounted(rows: seq<Row>, log: seq<Row>, expired: set<nat>, done: nat) {
    forall n: nat | 0 < n <= |log| :: n in expired || n <= done || InRows(rows, n)
  }

  /** The retention record counts every row expiry deleted and reaches past all of them. */
  ghost predicate Recorded(expired: set<nat>, total: nat, retention: Retention) {
    |expired| == retention.deleted && forall n | n in expired :: 0 < n <= total && n <= retention.through
  }

  ghost predicate Gone(rows: seq<Row>, expired: set<nat>) { forall i | 0 <= i < |rows| :: rows[i].num !in expired }

  ghost predicate JournalOK(db: Db, log: seq<Row>, expired: set<nat>, done: nat) {
    && Logged(log) && |log| == db.lastNum
    && Ascending(db.rows) && FromLog(db.rows, log) && Marked(db.marks, log)
    && Accounted(db.rows, log, expired, done)
    && Recorded(expired, |log|, db.retention) && Gone(db.rows, expired)
  }

  // ---- append keeps it ------------------------------------------------------------------------

  /** The log after the same record was offered. */
  function LogInserted(db: Db, log: seq<Row>, producer: string, r: Record): seq<Row> {
    if r.local <= MarkOf(db, producer).local then log else log + [Row(db.lastNum + 1, producer, r)]
  }

  function LogAppended(db: Db, log: seq<Row>, producer: string, batch: seq<Record>): seq<Row> {
    if batch == [] then log
    else
      var front := batch[..|batch| - 1];
      LogInserted(Appended(db, producer, front), LogAppended(db, log, producer, front), producer, batch[|batch| - 1])
  }

  lemma InsertMarked(marks: map<string, Mark>, log: seq<Row>, row: Row)
    requires Marked(marks, log) && row.num == |log| + 1
    requires forall i | 0 <= i < |log| :: log[i].num == i + 1
    requires row.producer in marks ==> marks[row.producer].local < row.record.local
    ensures Marked(marks[row.producer := Mark(row.record.local, row.num)], log + [row])
  {
    var m, l := marks[row.producer := Mark(row.record.local, row.num)], log + [row];
    forall i | 0 <= i < |l| ensures Covers(m, l[i]) {
      if i < |log| { assert Covers(marks, log[i]); }
    }
    forall p | p in m ensures Points(m[p], p, l) {
      if p != row.producer { assert Points(marks[p], p, log); }
    }
  }

  lemma InsertLogged(db: Db, log: seq<Row>, producer: string, r: Record)
    requires Logged(log) && |log| == db.lastNum && Marked(db.marks, log)
    ensures var d, l := Inserted(db, producer, r), LogInserted(db, log, producer, r);
            Logged(l) && |l| == d.lastNum && Marked(d.marks, l) && log <= l
  {
    if r.local > MarkOf(db, producer).local {
      var row := Row(db.lastNum + 1, producer, r);
      InsertMarked(db.marks, log, row);
      forall i | 0 <= i < |log| && log[i].producer == producer ensures log[i].record.local < r.local {
        assert Covers(db.marks, log[i]);
      }
      hide Marked;
    }
  }

  lemma InsertRows(rows: seq<Row>, log: seq<Row>, expired: set<nat>, done: nat, row: Row)
    requires Ascending(rows) && FromLog(rows, log) && Accounted(rows, log, expired, done) && row.num == |log| + 1
    ensures Ascending(rows + [row]) && FromLog(rows + [row], log + [row]) && Accounted(rows + [row], log + [row], expired, done)
  {
    var s, l := rows + [row], log + [row];
    forall n: nat | 0 < n <= |l| ensures n in expired || n <= done || InRows(s, n) {
      if n == |l| {
        assert s[|s| - 1].num == n;
      } else if n !in expired && n > done {
        var i :| 0 <= i < |rows| && rows[i].num == n;
        assert s[i].num == n;
      }
    }
  }

  lemma InsertOK(db: Db, log: seq<Row>, expired: set<nat>, done: nat, producer: string, r: Record)
    requires JournalOK(db, log, expired, done)
    ensures JournalOK(Inserted(db, producer, r), LogInserted(db, log, producer, r), expired, done)
    ensures log <= LogInserted(db, log, producer, r)
  {
    hide Logged, Ascending, FromLog, Marked, Accounted;
    InsertLogged(db, log, producer, r);
    if r.local <= MarkOf(db, producer).local { return; }
    InsertRows(db.rows, log, expired, done, Row(db.lastNum + 1, producer, r));
  }

  lemma {:induction false} AppendOK(db: Db, log: seq<Row>, expired: set<nat>, done: nat, producer: string, batch: seq<Record>)
    requires JournalOK(db, log, expired, done)
    ensures JournalOK(Appended(db, producer, batch), LogAppended(db, log, producer, batch), expired, done)
    ensures log <= LogAppended(db, log, producer, batch)
    ensures var d := Appended(db, producer, batch); d == db.(rows := d.rows, lastNum := d.lastNum, marks := d.marks)
  {
    if batch == [] {
      hide Logged, Ascending, FromLog, Accounted;
      assert Marked(db.marks[producer := MarkOf(db, producer)], log);
    } else {
      hide JournalOK;
      var front := batch[..|batch| - 1];
      AppendOK(db, log, expired, done, producer, front);
      InsertOK(Appended(db, producer, front), LogAppended(db, log, producer, front), expired, done, producer, batch[|batch| - 1]);
    }
  }

  // ---- retries change nothing -------------------------------------------------------------------

  lemma {:induction false} AppendedMark(db: Db, producer: string, batch: seq<Record>)
    ensures var d := Appended(db, producer, batch);
            && MarkOf(d, producer).local >= MarkOf(db, producer).local
            && (forall i | 0 <= i < |batch| :: batch[i].local <= MarkOf(d, producer).local)
            && (batch != [] && MarkOf(d, producer).local > MarkOf(db, producer).local ==>
                  exists i :: 0 <= i < |batch| && batch[i].local == MarkOf(d, producer).local)
  {
    if batch != [] {
      var front := batch[..|batch| - 1];
      AppendedMark(db, producer, front);
      var d := Appended(db, producer, front);
      if batch[|batch| - 1].local <= MarkOf(d, producer).local && MarkOf(d, producer).local > MarkOf(db, producer).local {
        if front != [] {
          var i :| 0 <= i < |front| && front[i].local == MarkOf(d, producer).local;
          assert batch[i].local == MarkOf(d, producer).local;
        }
      }
    }
  }

  /** A batch the watermark already covers changes nothing. */
  lemma {:induction false} AppendCovered(db: Db, producer: string, batch: seq<Record>)
    requires producer in db.marks && forall i | 0 <= i < |batch| :: batch[i].local <= db.marks[producer].local
    ensures Appended(db, producer, batch) == db
  {
    if batch == [] {
      assert db.marks[producer := db.marks[producer]] == db.marks;
    } else {
      AppendCovered(db, producer, batch[..|batch| - 1]);
    }
  }

  lemma {:induction false} AppendSplit(db: Db, producer: string, a: seq<Record>, b: seq<Record>)
    ensures Appended(db, producer, a + b) == Appended(Appended(db, producer, a), producer, b)
  {
    if b == [] {
      assert a + b == a;
      AppendCovered(Appended(db, producer, a), producer, []);
    } else {
      assert (a + b)[..|a + b| - 1] == a + b[..|b| - 1];
      AppendSplit(db, producer, a, b[..|b| - 1]);
    }
  }

  /**
   Sending part of a stream again, after its acknowledgement was lost or together with what follows
   it, leaves the journal as if every record had been sent once.
   */
  lemma AppendIdempotent(db: Db, producer: string, s: seq<Record>, from: nat, sent: nat, upto: nat)
    requires from <= sent <= upto <= |s|
    ensures Appended(Appended(db, producer, s[..sent]), producer, s[from..upto]) == Appended(db, producer, s[..upto])
  {
    hide Appended;
    var d := Appended(db, producer, s[..sent]);
    AppendedMark(db, producer, s[..sent]);
    forall i | 0 <= i < |s[from..sent]| ensures s[from..sent][i].local <= d.marks[producer].local {
      assert s[from..sent][i] == s[..sent][from + i];
    }
    AppendCovered(d, producer, s[from..sent]);
    assert s[from..upto] == s[from..sent] + s[sent..upto];
    AppendSplit(d, producer, s[from..sent], s[sent..upto]);
    assert s[..upto] == s[..sent] + s[sent..upto];
    AppendSplit(db, producer, s[..sent], s[sent..upto]);
  }

  // ---- reading -----------------------------------------------------------------------------------

  /** The watermarks never fall behind the journal: the highest one is the last row ever appended. */
  lemma HighwaterIsLast(db: Db, log: seq<Row>, expired: set<nat>, done: nat)
    requires JournalOK(db, log, expired, done)
    ensures forall n: nat :: IsHighwater(db, n) <==> n == |log|
  {
    forall p | p in db.marks ensures db.marks[p].num <= |log| {
      assert Points(db.marks[p], p, log);
    }
    if |log| > 0 {
      var last := log[|log| - 1];
      assert Covers(db.marks, last);
      assert last.num == |log|;
    }
  }

  /** Records past the watermark become the next rows, one each, in order and as they are. */
  lemma {:induction false} AppendWrites(db: Db, producer: string, batch: seq<Record>)
    requires forall i, j | 0 <= i < j < |batch| :: batch[i].local < batch[j].local
    requires batch != [] ==> batch[0].local > MarkOf(db, producer).local
    ensures var d := Appended(db, producer, batch);
            && d.lastNum == db.lastNum + |batch| && |d.rows| == |db.rows| + |batch| && d.rows[..|db.rows|] == db.rows
            && (forall k | 0 <= k < |batch| :: d.rows[|db.rows| + k] == Row(db.lastNum + 1 + k, producer, batch[k]))
            && (forall p | p != producer :: MarkOf(d, p) == MarkOf(db, p))
            && d.marks[producer] == if batch == [] then MarkOf(db, producer) else Mark(batch[|batch| - 1].local, d.lastNum)
  {
    if batch != [] {
      var front, last := batch[..|batch| - 1], batch[|batch| - 1];
      AppendWrites(db, producer, front);
      assert front != [] ==> front[|front| - 1].local < last.local;
      assert forall k | 0 <= k < |front| :: front[k] == batch[k];
    }
  }

  lemma {:induction false} ReadMembers(rows: seq<Row>, after: nat, through: nat, limit: nat)
    ensures var b := ReadRows(rows, after, through, limit);
            |b| <= limit && forall r | r in b :: after < r.num <= through && r in rows
  {
    if rows != [] && limit != 0 {
      var rest := rows[1..];
      ReadMembers(rest, after, through, limit);
      ReadMembers(rest, after, through, limit - 1);
      assert forall r | r in rest :: r in rows;
    }
  }

  lemma {:induction false} ReadAscending(rows: seq<Row>, after: nat, through: nat, limit: nat)
    requires Ascending(rows)
    ensures Ascending(ReadRows(rows, after, through, limit))
  {
    if rows != [] && limit != 0 {
      var rest := rows[1..];
      ReadAscending(rest, after, through, limit);
      ReadAscending(rest, after, through, limit - 1);
      ReadMembers(rest, after, through, limit - 1);
      FirstSmallest(rows);
      hide Ascending;
      if after < rows[0].num <= through {
        AscendingCons(rows[0], ReadRows(rest, after, through, limit - 1));
      }
    }
  }

  lemma FirstSmallest(rows: seq<Row>)
    requires Ascending(rows) && rows != []
    ensures forall r | r in rows[1..] :: rows[0].num < r.num
    ensures Ascending(rows[1..])
  {
    forall r | r in rows[1..] ensures rows[0].num < r.num {
      var i :| 0 <= i < |rows[1..]| && rows[1..][i] == r;
      assert rows[i + 1] == r;
    }
  }

  lemma AscendingCons(r: Row, rows: seq<Row>)
    requires Ascending(rows) && forall x | x in rows :: r.num < x.num
    ensures Ascending([r] + rows)
  {
    var s := [r] + rows;
    forall i, j | 0 <= i < j < |s| ensures s[i].num < s[j].num {
      assert s[j] == rows[j - 1] && rows[j - 1] in rows;
    }
  }

  /** Nothing in range is missing, except past the end of a full batch. */
  lemma {:induction false} ReadComplete(rows: seq<Row>, after: nat, through: nat, limit: nat, r: Row)
    requires Ascending(rows) && r in rows && after < r.num <= through
    ensures var b := ReadRows(rows, after, through, limit);
            r in b || (|b| == limit && forall x | x in b :: x.num < r.num)
  {
    if limit != 0 {
      var rest := rows[1..];
      FirstSmallest(rows);
      hide Ascending;
      if r != rows[0] {
        assert rows == [rows[0]] + rest;
        ReadComplete(rest, after, through, limit, r);
        ReadComplete(rest, after, through, limit - 1, r);
      }
    }
  }

  /** A batch in memory: rows of the log past `from`, none missing up to its end unless expired. */
  ghost predicate Batched(b: seq<Row>, log: seq<Row>, expired: set<nat>, from: nat, to: nat) {
    && Ascending(b) && FromLog(b, log)
    && (forall i | 0 <= i < |b| :: from < b[i].num <= to)
    && (b != [] ==> forall n: nat | from < n <= b[|b| - 1].num :: n in expired || InRows(b, n))
  }

  lemma SubsetFromLog(some: seq<Row>, rows: seq<Row>, log: seq<Row>)
    requires FromLog(rows, log) && forall r | r in some :: r in rows
    ensures FromLog(some, log)
  {
    forall i | 0 <= i < |some| ensures 0 < some[i].num <= |log| && log[some[i].num - 1] == some[i] {
      assert some[i] in rows;
    }
  }

  /** What `read_events` returns; an empty answer means that all of the range has expired. */
  lemma ReadOK(db: Db, log: seq<Row>, expired: set<nat>, done: nat, after: nat, through: nat)
    requires JournalOK(db, log, expired, done) && done <= after && through <= |log|
    ensures var b := ReadRows(db.rows, after, through, BATCH);
            && Batched(b, log, expired, after, through) && |b| <= BATCH
            && (|b| < 2000 ==> forall i | 0 <= i < |db.rows| && after < db.rows[i].num <= through :: db.rows[i] in b)
            && (b == [] ==> forall n: nat | after < n <= through :: n in expired)
  {
    hide JournalOK, Ascending, FromLog, InRows, ReadRows;
    var b := ReadRows(db.rows, after, through, BATCH);
    ReadMembers(db.rows, after, through, BATCH);
    ReadParts(db, log, expired, done, after, through);
    if |b| < 2000 { ReadWhole(db, log, expired, done, after, through); }
    var end := if b == [] then through else b[|b| - 1].num;
    forall n: nat | after < n <= end && n !in expired ensures b != [] && InRows(b, n) {
      ReadReaches(db, log, expired, done, after, through, n);
    }
  }

  lemma ReadWhole(db: Db, log: seq<Row>, expired: set<nat>, done: nat, after: nat, through: nat)
    requires JournalOK(db, log, expired, done)
    ensures var b := ReadRows(db.rows, after, through, BATCH);
            |b| < BATCH ==> forall i | 0 <= i < |db.rows| && after < db.rows[i].num <= through :: db.rows[i] in b
  {
    hide Ascending, ReadRows;
    forall i | 0 <= i < |db.rows| && after < db.rows[i].num <= through
      ensures |ReadRows(db.rows, after, through, BATCH)| < BATCH ==> db.rows[i] in ReadRows(db.rows, after, through, BATCH)
    {
      ReadComplete(db.rows, after, through, BATCH, db.rows[i]);
    }
  }

  lemma ReadParts(db: Db, log: seq<Row>, expired: set<nat>, done: nat, after: nat, through: nat)
    requires JournalOK(db, log, expired, done)
    ensures var b := ReadRows(db.rows, after, through, BATCH); Ascending(b) && FromLog(b, log)
  {
    hide Ascending, FromLog, ReadRows;
    ReadMembers(db.rows, after, through, BATCH);
    ReadAscending(db.rows, after, through, BATCH);
    SubsetFromLog(ReadRows(db.rows, after, through, BATCH), db.rows, log);
  }

  lemma ReadReaches(db: Db, log: seq<Row>, expired: set<nat>, done: nat, after: nat, through: nat, n: nat)
    requires JournalOK(db, log, expired, done) && done <= after < n <= through <= |log| && n !in expired
    requires var b := ReadRows(db.rows, after, through, BATCH); b == [] || n <= b[|b| - 1].num
    ensures var b := ReadRows(db.rows, after, through, BATCH); b != [] && InRows(b, n)
  {
    var b := ReadRows(db.rows, after, through, BATCH);
    assert InRows(db.rows, n);
    var i :| 0 <= i < |db.rows| && db.rows[i].num == n;
    ReadComplete(db.rows, after, through, BATCH, db.rows[i]);
    assert b != [] ==> b[|b| - 1] in b;
  }

  // ---- deleting --------------------------------------------------------------------------------------

  lemma {:induction false} WithoutMembers(rows: seq<Row>, victims: set<nat>)
    ensures forall r :: r in Without(rows, victims) <==> r in rows && r.num !in victims
  {
    if rows != [] {
      WithoutMembers(rows[..|rows| - 1], victims);
      assert rows == rows[..|rows| - 1] + [rows[|rows| - 1]];
    }
  }

  lemma {:induction false} WithoutAscending(rows: seq<Row>, victims: set<nat>)
    requires Ascending(rows)
    ensures Ascending(Without(rows, victims))
  {
    if rows != [] {
      var front, last := rows[..|rows| - 1], rows[|rows| - 1];
      WithoutAscending(front, victims);
      WithoutMembers(front, victims);
      var w := Without(front, victims);
      forall i | 0 <= i < |w| ensures w[i].num < last.num {
        assert w[i] in front;
      }
    }
  }

  lemma WithoutOK(rows: seq<Row>, log: seq<Row>, victims: set<nat>)
    requires Ascending(rows) && FromLog(rows, log)
    ensures var w := Without(rows, victims);
            && Ascending(w) && FromLog(w, log)
            && (forall i | 0 <= i < |w| :: w[i] in rows && w[i].num !in victims)
            && (forall n: nat | InRows(rows, n) && n !in victims :: InRows(w, n))
  {
    WithoutMembers(rows, victims);
    WithoutAscending(rows, victims);
    var w := Without(rows, victims);
    SubsetFromLog(w, rows, log);
    forall n: nat | InRows(rows, n) && n !in victims ensures InRows(w, n) {
      var i :| 0 <= i < |rows| && rows[i].num == n;
      assert rows[i] in w;
    }
  }

  /** Compaction drops a bounded front of covered rows. */
  lemma {:induction false} CompactedFront(rows: seq<Row>, cursor: nat, limit: nat) returns (k: nat)
    ensures k <= |rows| && k <= limit && Compacted(rows, cursor, limit) == rows[k..]
    ensures forall i | 0 <= i < k :: rows[i].num <= cursor
  {
    k := 0;
    if rows != [] && limit != 0 && rows[0].num <= cursor {
      var less := CompactedFront(rows[1..], cursor, limit - 1);
      k := less + 1;
      assert rows[1..][less..] == rows[k..];
      assert forall i | 0 < i < k :: rows[i] == rows[1..][i - 1];
    }
  }

  lemma CompactedOK(rows: seq<Row>, log: seq<Row>, cursor: nat, limit: nat)
    requires Ascending(rows) && FromLog(rows, log)
    ensures var w := Compacted(rows, cursor, limit);
            && Ascending(w) && FromLog(w, log)
            && (forall i | 0 <= i < |w| :: w[i] in rows)
            && (forall n: nat | InRows(rows, n) && n > cursor :: InRows(w, n))
            && |rows| - limit <= |w| <= |rows|
  {
    var k := CompactedFront(rows, cursor, limit);
    var w := rows[k..];
    hide Compacted;
    forall n: nat | InRows(rows, n) && n > cursor ensures InRows(w, n) {
      var i :| 0 <= i < |rows| && rows[i].num == n;
      assert w[i - k].num == n;
    }
  }

  /** How many of the rows the cursor covers. */
  function Covered(rows: seq<Row>, cursor: nat): (n: nat)
    ensures n <= |rows|
  {
    if rows == [] then 0 else Covered(rows[..|rows| - 1], cursor) + if rows[|rows| - 1].num <= cursor then 1 else 0
  }

  lemma {:induction false} CoveredFront(rows: seq<Row>, cursor: nat)
    requires Ascending(rows)
    ensures forall i | 0 <= i < |rows| :: rows[i].num <= cursor <==> i < Covered(rows, cursor)
  {
    if rows != [] {
      var front := rows[..|rows| - 1];
      CoveredFront(front, cursor);
      assert forall i | 0 <= i < |front| :: front[i] == rows[i];
    }
  }

  lemma {:induction false} CompactedDrop(rows: seq<Row>, cursor: nat, limit: nat, c: nat)
    requires c <= |rows| && forall i | 0 <= i < |rows| :: rows[i].num <= cursor <==> i < c
    ensures Compacted(rows, cursor, limit) == rows[MinNat(limit, c)..]
    decreases limit
  {
    if rows != [] && limit != 0 && rows[0].num <= cursor {
      assert forall i | 0 <= i < |rows[1..]| :: rows[1..][i] == rows[i + 1];
      CompactedDrop(rows[1..], cursor, limit - 1, c - 1);
      assert rows[1..][MinNat(limit - 1, c - 1)..] == rows[MinNat(limit, c)..];
    } else if rows != [] && limit != 0 {
      assert !(0 < c);
    }
  }

  /**
   Compaction deletes the oldest rows the cursor covers, as many as one publication may, and keeps all
   others in order: of the covered rows none is left beyond the first 2000 of them.
   */
  lemma CompactedExactly(db: Db, cache: Cache, v: EngineV, revision: nat)
    requires Ascending(db.rows)
    ensures var covered := Covered(db.rows, v.cursor);
            Published(db, cache, v, revision).rows == db.rows[if covered < 2000 then covered else 2000..]
    ensures forall i | 0 <= i < |db.rows| :: db.rows[i].num <= v.cursor <==> i < Covered(db.rows, v.cursor)
  {
    CoveredFront(db.rows, v.cursor);
    CompactedDrop(db.rows, v.cursor, BATCH, Covered(db.rows, v.cursor));
    hide Compacted;
  }

  lemma VictimsOnce(rows: seq<Row>, log: seq<Row>, cutoff: real, victims: set<nat>, floor: nat)
    requires FromLog(rows, log) && victims <= AgedNums(rows, cutoff)
    ensures forall n | n in victims ::
              0 < n <= |log| && n <= Reach(rows, victims, floor) && InRows(rows, n) && log[n - 1].record.e.at <= cutoff
  {
    forall n | n in victims
      ensures 0 < n <= |log| && n <= Reach(rows, victims, floor) && InRows(rows, n) && log[n - 1].record.e.at <= cutoff
    {
      var i :| 0 <= i < |rows| && rows[i].record.e.at <= cutoff && rows[i].num == n;
      assert rows[i].num in victims;
    }
  }

  lemma ExpireAccounts(rows: seq<Row>, w: seq<Row>, log: seq<Row>, expired: set<nat>, victims: set<nat>, done: nat)
    requires Accounted(rows, log, expired, done) && forall n: nat | InRows(rows, n) && n !in victims :: InRows(w, n)
    ensures Accounted(w, log, expired + victims, done)
  {
  }

  lemma NeverTwice(rows: seq<Row>, expired: set<nat>, victims: set<nat>, total: nat, was: Retention, now: Retention)
    requires Gone(rows, expired) && Recorded(expired, total, was) && now.deleted == was.deleted + |victims| && now.through >= was.through
    requires forall n | n in victims :: InRows(rows, n) && 0 < n <= total && n <= now.through
    ensures expired !! victims && Recorded(expired + victims, total, now)
  {
    assert expired !! victims;
    assert |expired + victims| == |expired| + |victims|;
  }

  /** Expiry deletes in order of age, not of sequence; the recorded reach still bounds all it ever deleted. */
  lemma ExpireOK(db: Db, log: seq<Row>, expired: set<nat>, done: nat, cutoff: real, victims: set<nat>)
    requires JournalOK(db, log, expired, done) && Oldest(db.rows, cutoff, victims)
    ensures JournalOK(Expired(db, cutoff, victims), log, expired + victims, done)
    ensures expired !! victims
  {
    assert victims <= AgedNums(db.rows, cutoff);
    hide Logged, Ascending, FromLog, Marked, Oldest, Accounted, InRows, Recorded, Gone, Recent, Through, Aged, AgedFeed, AgedNums, Without;
    WithoutOK(db.rows, log, victims);
    VictimsOnce(db.rows, log, cutoff, victims, db.retention.through);
    NeverTwice(db.rows, expired, victims, |log|, db.retention, Expired(db, cutoff, victims).retention);
    ExpireAccounts(db.rows, Without(db.rows, victims), log, expired, victims, done);
    ExpireLeaves(db.rows, Without(db.rows, victims), expired, victims);
  }

  lemma ExpireLeaves(rows: seq<Row>, w: seq<Row>, expired: set<nat>, victims: set<nat>)
    requires Gone(rows, expired)
    requires forall i | 0 <= i < |w| :: w[i] in rows && w[i].num !in victims
    ensures Gone(w, expired + victims)
  {
  }

  /** Compaction removes only what the committed checkpoint has replayed. */
  lemma PublishOK(db: Db, log: seq<Row>, expired: set<nat>, done: nat, cache: Cache, v: EngineV, revision: nat)
    requires JournalOK(db, log, expired, done) && done <= v.cursor
    ensures JournalOK(Published(db, cache, v, revision), log, expired, v.cursor)
  {
    CompactedOK(db.rows, log, v.cursor, BATCH);
    var d := Published(db, cache, v, revision);
    forall n: nat | 0 < n <= |log| ensures n in expired || n <= v.cursor || InRows(d.rows, n) {
    }
  }

  /**
   What a publication writes, after the same connection published `u`: the checkpoint unless neither the
   cursor nor the feed nor the minute has moved, the feed unless it has not, told by five numbers.
   A connection that has published nothing yet writes both.
   */
  lemma PublishesExactlyWhen(db: Db, u: EngineV, v: EngineV, revision: nat)
    ensures var d := Published(db, CacheOf(u), v, revision);
            var sameFeed := u.streamId == v.streamId && u.retentionThrough == v.retentionThrough && u.eventSeq == v.eventSeq && |u.events| == |v.events|
                            && (u.events != [] ==> v.events[0].num == u.events[0].num);
            var sameMinute := (u.now / 60.0).Floor == (v.now / 60.0).Floor;
            && d.revision == revision && d.retention == db.retention && d.marks == db.marks && d.lastNum == db.lastNum
            && d.feed == (if sameFeed then db.feed else Some(Feed(v.events, v.eventSeq, v.streamId, v.retentionThrough)))
            && d.checkpoint == if sameFeed && u.cursor == v.cursor && sameMinute then db.checkpoint else Some(v.(events := []))
    ensures var d := Published(db, Nothing, v, revision);
            d.feed == Some(Feed(v.events, v.eventSeq, v.streamId, v.retentionThrough)) && d.checkpoint == Some(v.(events := []))
  {
    hide Compacted;
    assert KeyOf(u) == KeyOf(v) <==>
             && u.streamId == v.streamId && u.retentionThrough == v.retentionThrough && u.eventSeq == v.eventSeq && |u.events| == |v.events|
             && (u.events != [] ==> v.events[0].num == u.events[0].num);
  }

  // ---- choosing what to expire -----------------------------------------------------------------------

  /** `ORDER BY at LIMIT`: aged rows, oldest first, up to one batch. */
  method ChooseOldest(rows: seq<Row>, cutoff: real) returns (victims: set<nat>)
    requires Ascending(rows)
    ensures Oldest(rows, cutoff, victims)
  {
    hide AgedNums;
    victims := {};
    var aged := AgedNums(rows, cutoff);
    while |victims| < BATCH && victims != aged
      invariant victims <= aged && |victims| <= BATCH && OlderFirst(rows, cutoff, victims)
      decreases BATCH - |victims|
    {
      var m := OldestLeft(rows, cutoff, victims);
      OlderStill(rows, cutoff, victims, m);
      victims := victims + {rows[m].num};
    }
    PartSmaller(victims, aged);
  }

  /** Index of an oldest aged row not yet chosen. */
  method OldestLeft(rows: seq<Row>, cutoff: real, victims: set<nat>) returns (m: nat)
    requires victims <= AgedNums(rows, cutoff) && victims != AgedNums(rows, cutoff)
    ensures m < |rows| && rows[m].record.e.at <= cutoff && rows[m].num !in victims && rows[m].num in AgedNums(rows, cutoff)
    ensures forall j | 0 <= j < |rows| && rows[j].num !in victims && rows[j].record.e.at <= cutoff ::
              rows[m].record.e.at <= rows[j].record.e.at
  {
    PartLeaves(victims, AgedNums(rows, cutoff));
    var best := -1;
    for i := 0 to |rows|
      invariant -1 <= best < i
      invariant best >= 0 ==> rows[best].record.e.at <= cutoff && rows[best].num !in victims
      invariant forall j | 0 <= j < i && rows[j].num !in victims && rows[j].record.e.at <= cutoff ::
                  best >= 0 && rows[best].record.e.at <= rows[j].record.e.at
    {
      if rows[i].num !in victims && rows[i].record.e.at <= cutoff
         && (best < 0 || rows[i].record.e.at < rows[best].record.e.at) {
        best := i;
      }
    }
    m := best;
  }

  lemma OlderStill(rows: seq<Row>, cutoff: real, victims: set<nat>, m: nat)
    requires Ascending(rows) && OlderFirst(rows, cutoff, victims) && m < |rows|
    requires forall j | 0 <= j < |rows| && rows[j].num !in victims && rows[j].record.e.at <= cutoff ::
               rows[m].record.e.at <= rows[j].record.e.at
    ensures OlderFirst(rows, cutoff, victims + {rows[m].num})
  {
    forall i, j | 0 <= i < |rows| && 0 <= j < |rows| && rows[i].num in victims + {rows[m].num}
                  && rows[j].num !in victims + {rows[m].num} && rows[j].record.e.at <= cutoff
      ensures rows[i].record.e.at <= rows[j].record.e.at
    {
      assert rows[i].num == rows[m].num ==> i == m;
    }
  }
}
