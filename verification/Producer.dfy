/**
 The serving side of the exchange (`ServingBridge`): observations queue in memory, go out in
 bounded batches, and leave the queue only when an acknowledgement names them.  An acknowledgement
 may be lost after the batch was committed; requests keep recording while a batch is under way.
 */
module Producer {
  import opened Prelude
  import opened EngineModel
  import opened Journal
  import opened StoreObject

  const MAX_PENDING := 100000

  // ---- where a producer's observations are ------------------------------------------------

  /** The local numbers of this producer's rows, ever inserted. */
  ghost function Journaled(log: seq<Row>, producer: string): set<nat> {
    set i | 0 <= i < |log| && log[i].producer == producer :: log[i].record.local
  }

  ghost function Queued(pending: seq<Record>): (r: set<nat>)
    ensures forall i | 0 <= i < |pending| :: pending[i].local in r
  {
    if pending == [] then {} else Queued(pending[..|pending| - 1]) + {pending[|pending| - 1].local}
  }

  ghost function UpTo(n: nat): (r: set<nat>)
    ensures forall i :: i in r <==> 0 < i <= n
    ensures |r| == n
  {
    if n == 0 then {} else UpTo(n - 1) + {n}
  }

  /** The numbers of a batch that the watermark does not cover. */
  ghost function News(batch: seq<Record>, mark: nat): set<nat> {
    set i | 0 <= i < |batch| && batch[i].local > mark :: batch[i].local
  }

  ghost predicate Ordered(pending: seq<Record>, last: nat) {
    && (forall i, j | 0 <= i < j < |pending| :: pending[i].local < pending[j].local)
    && (forall i | 0 <= i < |pending| :: 0 < pending[i].local <= last)
  }

  /** Every number drawn is in exactly one account: dropped, or journaled or still queued or both. */
  ghost predicate Accounts(last: nat, lost: set<nat>, journaled: set<nat>, queued: set<nat>) {
    UpTo(last) == lost + journaled + queued && lost !! journaled && lost !! queued
  }

  /** A queued record is journaled exactly when the watermark covers it. */
  ghost predicate Covered(pending: seq<Record>, mark: nat, journaled: set<nat>) {
    forall i | 0 <= i < |pending| :: pending[i].local in journaled <==> pending[i].local <= mark
  }

  ghost predicate Conserved(pending: seq<Record>, last: nat, lost: set<nat>, mark: nat, journaled: set<nat>) {
    Ordered(pending, last) && Accounts(last, lost, journaled, Queued(pending)) && Covered(pending, mark, journaled)
  }

  /** The same as a count. */
  lemma ConservedCount(pending: seq<Record>, last: nat, lost: set<nat>, mark: nat, journaled: set<nat>)
    requires Conserved(pending, last, lost, mark, journaled)
    ensures last == |lost| + |journaled + Queued(pending)|
    ensures (forall i | 0 <= i < |pending| :: pending[i].local > mark) ==> last == |lost| + |journaled| + |pending|
  {
    assert UpTo(last) == lost + (journaled + Queued(pending));
    assert |UpTo(last)| == |lost| + |journaled + Queued(pending)|;
    if forall i | 0 <= i < |pending| :: pending[i].local > mark {
      QueuedCount(pending, last);
      JournaledApart(pending, mark, journaled);
      assert |journaled + Queued(pending)| == |journaled| + |Queued(pending)|;
    }
  }

  lemma NothingQueued(pending: seq<Record>, last: nat, lost: set<nat>, mark: nat, journaled: set<nat>)
    requires Conserved(pending, last, lost, mark, journaled) && pending == []
    ensures UpTo(last) == lost + journaled && last == |lost| + |journaled|
  {
    ConservedCount(pending, last, lost, mark, journaled);
  }

  lemma {:induction false} JournaledApart(pending: seq<Record>, mark: nat, journaled: set<nat>)
    requires Covered(pending, mark, journaled) && forall i | 0 <= i < |pending| :: pending[i].local > mark
    ensures journaled !! Queued(pending)
  {
    if pending != [] { JournaledApart(pending[..|pending| - 1], mark, journaled); }
  }

  lemma {:induction false} QueuedCount(pending: seq<Record>, last: nat)
    requires Ordered(pending, last)
    ensures |Queued(pending)| == |pending|
    ensures forall x | x in Queued(pending) :: pending != [] && x <= pending[|pending| - 1].local
  {
    if pending != [] {
      var front := pending[..|pending| - 1];
      QueuedCount(front, last);
      assert front != [] ==> front[|front| - 1].local < pending[|pending| - 1].local;
    }
  }

  lemma QueuedSnoc(pending: seq<Record>, r: Record)
    ensures Queued(pending + [r]) == Queued(pending) + {r.local}
  {
    assert (pending + [r])[..|pending|] == pending;
  }

  lemma {:induction false} QueuedCons(pending: seq<Record>)
    requires pending != []
    ensures Queued(pending) == {pending[0].local} + Queued(pending[1..])
  {
    if |pending| == 1 {
      assert pending[1..] == [] && pending[..0] == [];
    } else {
      var front := pending[..|pending| - 1];
      QueuedCons(front);
      assert pending[1..][..|pending| - 2] == front[1..];
    }
  }

  // ---- what one append does to the journal ---------------------------------------------------

  ghost predicate Rising(batch: seq<Record>) { forall i, j | 0 <= i < j < |batch| :: batch[i].local < batch[j].local }

  lemma RisingFront(batch: seq<Record>)
    requires Rising(batch) && batch != []
    ensures var front := batch[..|batch| - 1];
            Rising(front) && (front != [] ==> front[|front| - 1].local < batch[|batch| - 1].local) && batch == front + [batch[|batch| - 1]]
  {
  }

  /** The watermark after an ordered batch is its last number, unless it was past that already. */
  function Reached(batch: seq<Record>, mark: nat): nat {
    if batch == [] then mark else MaxNat(mark, batch[|batch| - 1].local)
  }

  lemma {:induction false} AppendedReach(db: Db, producer: string, batch: seq<Record>)
    requires Rising(batch)
    ensures MarkOf(Appended(db, producer, batch), producer).local == Reached(batch, MarkOf(db, producer).local)
  {
    if batch != [] {
      hide Rising;
      RisingFront(batch);
      AppendedReach(db, producer, batch[..|batch| - 1]);
    }
  }

  /** An ordered batch enters the journal from the watermark on. */
  lemma {:induction false} AppendJournals(db: Db, log: seq<Row>, producer: string, batch: seq<Record>)
    requires Rising(batch)
    ensures var l := LogAppended(db, log, producer, batch);
            && Journaled(l, producer) == Journaled(log, producer) + News(batch, MarkOf(db, producer).local)
            && (forall p | p != producer :: Journaled(l, p) == Journaled(log, p))
    ensures MarkOf(Appended(db, producer, batch), producer).local == Reached(batch, MarkOf(db, producer).local)
  {
    AppendedReach(db, producer, batch);
    if batch == [] {
      assert News(batch, MarkOf(db, producer).local) == {};
    } else {
      hide Journaled, News, Inserted, LogInserted, Rising, Appended;
      var front, r := batch[..|batch| - 1], batch[|batch| - 1];
      RisingFront(batch);
      AppendJournals(db, log, producer, front);
      InsertJournals(Appended(db, producer, front), LogAppended(db, log, producer, front), producer, r);
      NewsSnoc(front, r, MarkOf(db, producer).local);
    }
  }

  /** One record past the watermark becomes one more row; any other changes nothing. */
  lemma InsertJournals(db: Db, log: seq<Row>, producer: string, r: Record)
    ensures var l := LogInserted(db, log, producer, r); var news := r.local > MarkOf(db, producer).local;
            && Journaled(l, producer) == Journaled(log, producer) + (if news then {r.local} else {})
            && (forall p | p != producer :: Journaled(l, p) == Journaled(log, p))
            && MarkOf(Inserted(db, producer, r), producer).local == if news then r.local else MarkOf(db, producer).local
  {
    OneMore(log, Row(db.lastNum + 1, producer, r));
    hide Journaled;
  }

  lemma NewsSnoc(front: seq<Record>, r: Record, mark: nat)
    ensures News(front + [r], mark) == News(front, mark) + if r.local > mark then {r.local} else {}
  {
    var batch := front + [r];
    assert batch[|front|] == r && forall i | 0 <= i < |front| :: front[i] == batch[i];
  }

  lemma OneMore(log: seq<Row>, row: Row)
    ensures Journaled(log + [row], row.producer) == Journaled(log, row.producer) + {row.record.local}
    ensures forall p | p != row.producer :: Journaled(log + [row], p) == Journaled(log, p)
  {
    var l := log + [row];
    assert forall i | 0 <= i < |log| :: l[i] == log[i];
    assert l[|l| - 1] == row;
  }

  /** Another producer's appends leave this one's account alone. */
  lemma OthersAppend(db: Db, log: seq<Row>, other: string, batch: seq<Record>, producer: string)
    requires other != producer
    ensures Journaled(LogAppended(db, log, other, batch), producer) == Journaled(log, producer)
    ensures MarkOf(Appended(db, other, batch), producer) == MarkOf(db, producer)
  {
    if batch != [] {
      var front := batch[..|batch| - 1];
      OthersAppend(db, log, other, front, producer);
      OneMore(LogAppended(db, log, other, front), Row(Appended(db, other, front).lastNum + 1, other, batch[|batch| - 1]));
    }
  }

  // ---- the account across one step -------------------------------------------------------------

  lemma RecordAccounts(last: nat, lost: set<nat>, journaled: set<nat>, queued: set<nat>)
    requires Accounts(last, lost, journaled, queued)
    ensures Accounts(last + 1, lost, journaled, queued + {last + 1})
    ensures Accounts(last + 1, lost + {last + 1}, journaled, queued)
    ensures last + 1 !in lost + journaled + queued
  {
    assert last + 1 !in UpTo(last);
    assert UpTo(last + 1) == UpTo(last) + {last + 1};
    hide UpTo;
  }

  lemma RecordOrdered(pending: seq<Record>, last: nat, mark: nat, journaled: set<nat>, r: Record)
    requires Ordered(pending, last) && Covered(pending, mark, journaled) && mark <= last
    requires r.local == last + 1 && r.local !in journaled
    ensures Ordered(pending + [r], last + 1) && Covered(pending + [r], mark, journaled)
    ensures Ordered(pending, last + 1)
  {
  }

  lemma RecordConserves(pending: seq<Record>, last: nat, lost: set<nat>, mark: nat, journaled: set<nat>, e: Observation)
    requires Conserved(pending, last, lost, mark, journaled) && mark <= last
    ensures Conserved(pending + [Record(last + 1, e)], last + 1, lost, mark, journaled)
    ensures Conserved(pending, last + 1, lost + {last + 1}, mark, journaled)
    ensures last + 1 !in lost
  {
    hide Queued, UpTo, Accounts, Ordered, Covered;
    var r := Record(last + 1, e);
    QueuedSnoc(pending, r);
    RecordAccounts(last, lost, journaled, Queued(pending));
    RecordOrdered(pending, last, mark, journaled, r);
  }

  /** The queue's head entered the journal. */
  lemma SendConserves(pending: seq<Record>, last: nat, lost: set<nat>, mark: nat, journaled: set<nat>, n: nat, mark': nat, journaled': set<nat>)
    requires Conserved(pending, last, lost, mark, journaled) && 0 < n <= |pending|
    requires mark' == MaxNat(mark, pending[n - 1].local)
    requires journaled' == journaled + News(pending[..n], mark)
    ensures Conserved(pending, last, lost, mark', journaled')
    ensures forall i | 0 <= i < n :: pending[i].local in journaled'
    ensures mark' <= MaxNat(mark, last) && journaled <= journaled'
  {
    hide UpTo, Accounts, Queued, News;
    NewsQueued(pending, mark, n);
    SendAccounts(last, lost, journaled, Queued(pending), News(pending[..n], mark));
    SendCovered(pending, last, mark, journaled, n, mark', journaled');
  }

  lemma NewsQueued(pending: seq<Record>, mark: nat, n: nat)
    requires n <= |pending|
    ensures News(pending[..n], mark) <= Queued(pending)
  {
    assert forall i | 0 <= i < n :: pending[i] == pending[..n][i];
  }

  lemma SendCovered(pending: seq<Record>, last: nat, mark: nat, journaled: set<nat>, n: nat, mark': nat, journaled': set<nat>)
    requires Ordered(pending, last) && Covered(pending, mark, journaled) && 0 < n <= |pending|
    requires mark' == MaxNat(mark, pending[n - 1].local) && journaled' == journaled + News(pending[..n], mark)
    ensures Covered(pending, mark', journaled') && forall i | 0 <= i < n :: pending[i].local in journaled'
  {
    assert forall i | 0 <= i < n :: pending[i] == pending[..n][i];
    forall i | 0 <= i < n ensures pending[i].local in journaled' {
      if pending[i].local > mark { assert pending[..n][i].local in News(pending[..n], mark); }
    }
  }

  lemma SendAccounts(last: nat, lost: set<nat>, journaled: set<nat>, queued: set<nat>, news: set<nat>)
    requires Accounts(last, lost, journaled, queued) && news <= queued
    ensures Accounts(last, lost, journaled + news, queued)
  {
    hide UpTo;
    assert lost + (journaled + news) + queued == lost + journaled + queued;
  }

  lemma PopAccounts(last: nat, lost: set<nat>, journaled: set<nat>, queued: set<nat>, x: nat, rest: set<nat>)
    requires Accounts(last, lost, journaled, queued) && x in journaled && queued == {x} + rest
    ensures Accounts(last, lost, journaled, rest)
  {
    hide UpTo;
    assert lost + journaled + queued == lost + journaled + rest;
  }

  /** What the watermark covers may leave the queue. */
  lemma PopConserves(pending: seq<Record>, last: nat, lost: set<nat>, mark: nat, journaled: set<nat>)
    requires Conserved(pending, last, lost, mark, journaled) && pending != [] && pending[0].local <= mark
    ensures Conserved(pending[1..], last, lost, mark, journaled)
  {
    hide Accounts, Queued;
    QueuedCons(pending);
    PopAccounts(last, lost, journaled, Queued(pending), pending[0].local, Queued(pending[1..]));
    assert forall i | 0 <= i < |pending[1..]| :: pending[1..][i] == pending[i + 1];
  }

  lemma RisingBatch(pending: seq<Record>, last: nat, n: nat)
    ensures n <= |pending| && Ordered(pending, last) ==> Rising(pending[..n])
  {
  }

  lemma QueueOrdered(pending: seq<Record>, last: nat, lost: set<nat>, mark: nat, journaled: set<nat>)
    requires Conserved(pending, last, lost, mark, journaled)
    ensures Ordered(pending, last)
  {
  }

  function Arrived(arrivals: seq<seq<Observation>>): nat {
    if arrivals == [] then 0 else |arrivals[0]| + Arrived(arrivals[1..])
  }

  function From<T>(s: seq<T>, n: nat): seq<T> { if n <= |s| then s[n..] else [] }

  lemma ArrivedNext(arrivals: seq<seq<Observation>>, n: nat)
    ensures n < |arrivals| ==> Arrived(From(arrivals, n)) == |arrivals[n]| + Arrived(From(arrivals, n + 1)) && |From(arrivals, n + 1)| < |From(arrivals, n)|
    ensures n >= |arrivals| ==> From(arrivals, n) == From(arrivals, n + 1) == []
  {
    if n < |arrivals| { assert arrivals[n..][1..] == arrivals[n + 1..]; }
  }

  /** What becomes of a flush: acknowledged, failed before the commit, or committed with the acknowledgement lost. */
  datatype Answer = Heard | Refused | Unheard

  predicate AllHeard(answers: seq<Answer>, flushes: nat) { forall i | 0 <= i < MinNat(flushes, |answers|) :: answers[i] == Heard }

  // ---- the bridge --------------------------------------------------------------------------------

  class Bridge {
    const producer: string
    const store: Store
    var pending: seq<Record>
    var localSeq: nat
    var committedSeq: nat
    var lastEventSeq: nat
    var dropped: nat
    var revision: Option<nat>
    ghost var lost: set<nat>

    ghost function Mark(): nat reads this, store.file { MarkOf(store.file.Db(), producer).local }

    ghost function Rows(): set<nat> reads this, store.file { Journaled(store.file.log, producer) }

    ghost predicate Valid()
      reads this, store.file
    {
      && Conserved(pending, localSeq, lost, Mark(), Rows())
      && Mark() <= localSeq && committedSeq <= Mark() && |lost| == dropped
      && (forall i | 0 <= i < |pending| :: pending[i].local > committedSeq)
      && |pending| <= MAX_PENDING
    }

    /** A new producer draws an id no journal has seen. */
    constructor (store: Store, producer: string)
      requires producer !in store.file.marks && Journaled(store.file.log, producer) == {}
      ensures this.store == store && this.producer == producer
      ensures Valid() && localSeq == 0 && revision == None
    {
      this.store, this.producer := store, producer;
      pending, localSeq, committedSeq, lastEventSeq, dropped, revision, lost := [], 0, 0, 0, 0, None, {};
      new;
      assert UpTo(0) == {} && Queued([]) == {};
    }

    /** `record`: a number is drawn even for what a full queue must drop. */
    method Record(e: Observation)
      requires Valid()
      modifies this
      ensures Valid() && localSeq == old(localSeq) + 1
      ensures committedSeq == old(committedSeq) && lastEventSeq == old(lastEventSeq) && revision == old(revision)
      ensures if |old(pending)| >= 100000
              then pending == old(pending) && dropped == old(dropped) + 1 && lost == old(lost) + {localSeq}
              else pending == old(pending) + [Journal.Record.Record(localSeq, e)] && dropped == old(dropped) && lost == old(lost)
    {
      hide Conserved, Journaled;
      RecordConserves(pending, localSeq, lost, Mark(), Rows(), e);
      localSeq := localSeq + 1;
      if |pending| >= MAX_PENDING {
        dropped := dropped + 1;
        lost := lost + {localSeq};
      } else {
        pending := pending + [Journal.Record.Record(localSeq, e)];
      }
    }

    /** The head of the queue goes into the journal; until the acknowledgement the queue keeps it. */
    method Send() returns (local: nat, num: nat, ghost n: nat)
      requires Valid() && pending != []
      modifies store.file
      ensures Valid() && n == MinNat(|pending|, 2000)
      ensures store.file.Db() == Appended(old(store.file.Db()), producer, pending[..n])
      ensures local == Mark() && local == MaxNat(old(Mark()), pending[n - 1].local)
      ensures forall i | 0 <= i < n :: pending[i].local in Rows()
      ensures old(Rows()) <= Rows() && Ordered(pending, localSeq)
    {
      hide Conserved, Journaled, Appended, LogAppended, News, Rising;
      RisingBatch(pending, localSeq, MinNat(|pending|, BATCH));
      QueueOrdered(pending, localSeq, lost, Mark(), Rows());
      var batch := pending[..MinNat(|pending|, BATCH)];
      n := |batch|;
      AppendJournals(store.file.Db(), store.file.log, producer, batch);
      SendConserves(pending, localSeq, lost, Mark(), Rows(), n, MaxNat(Mark(), pending[n - 1].local),
                    Rows() + News(batch, Mark()));
      local, num := store.Append(producer, batch);
    }

    /** The acknowledgement: everything up to `local` leaves the queue. */
    method Acknowledge(local: nat, num: nat)
      requires Valid() && committedSeq <= local <= Mark()
      modifies this
      ensures Valid() && committedSeq == local && lastEventSeq == num
      ensures localSeq == old(localSeq) && dropped == old(dropped) && lost == old(lost) && revision == old(revision)
      ensures exists k :: 0 <= k <= |old(pending)| && pending == old(pending)[k..]
                && (forall i | 0 <= i < k :: old(pending)[i].local <= local) && (forall i | k <= i < |old(pending)| :: old(pending)[i].local > local)
    {
      hide Conserved, Journaled;
      var k := 0;
      while pending != [] && pending[0].local <= local
        invariant k <= |old(pending)| && pending == old(pending)[k..]
        invariant forall i | 0 <= i < k :: old(pending)[i].local <= local
        invariant Valid() && committedSeq == old(committedSeq)
        invariant localSeq == old(localSeq) && dropped == old(dropped) && lost == old(lost) && revision == old(revision)
        decreases |pending|
      {
        PopConserves(pending, localSeq, lost, Mark(), Rows());
        assert old(pending)[k..][1..] == old(pending)[k + 1..];
        pending := pending[1..];
        k := k + 1;
      }
      QueueOrdered(pending, localSeq, lost, Mark(), Rows());
      committedSeq, lastEventSeq := local, num;
    }

    /**
     One `flush`, with the observations other requests record meanwhile.  When the acknowledgement
     is lost the batch is in the journal and still in the queue.
     */
    method Flush(meanwhile: seq<Observation>, ackLost: bool)
      requires Valid()
      modifies this, store.file
      ensures Valid() && localSeq == old(localSeq) + |meanwhile| && revision == old(revision)
      ensures old(Rows()) <= Rows() && old(lost) <= lost
      ensures old(pending) != [] ==> forall i | 0 <= i < MinNat(|old(pending)|, 2000) :: old(pending)[i].local in Rows()
      ensures committedSeq >= old(committedSeq)
      ensures !ackLost && old(pending) != [] ==>
                && committedSeq == Mark() && |pending| < |old(pending)| + |meanwhile|
                && forall i | 0 <= i < |pending| :: pending[i].local > Mark()
    {
      hide Conserved, Journaled, Appended;
      var sent := pending != [];
      var local, num := committedSeq, lastEventSeq;
      ghost var n: nat := 0;
      if sent { local, num, n := Send(); }
      ghost var was := pending;
      label sending:
      for i := 0 to |meanwhile|
        invariant Valid() && localSeq == old(localSeq) + i && committedSeq == old(committedSeq) && revision == old(revision)
        invariant was <= pending && |pending| <= |was| + i && old(lost) <= lost
        invariant unchanged@sending(store.file)
      {
        Record(meanwhile[i]);
      }
      if sent && !ackLost {
        ghost var q := pending;
        assert q[0] == was[0] && was[0].local <= local;
        Acknowledge(local, num);
      }
    }

    /**
     `stop`: drain until the queue is empty, giving up on the first failure, whether it comes before
     the batch is committed or only its acknowledgement is lost.  Requests that are still finishing
     record while a batch is under way: `arrivals` holds what comes in during each flush, `answers`
     what becomes of it.  Only a failure keeps the queue from being emptied.
     */
    method Drain(arrivals: seq<seq<Observation>>, answers: seq<Answer>) returns (drained: bool, flushes: nat)
      requires Valid()
      modifies this, store.file
      ensures Valid() && old(localSeq) <= localSeq <= old(localSeq) + Arrived(arrivals)
      ensures old(Rows()) <= Rows() && old(lost) <= lost
      ensures drained ==> pending == [] && UpTo(localSeq) == lost + Rows() && localSeq == dropped + |Rows()|
      ensures drained <==> AllHeard(answers, flushes)
      ensures !drained ==> 0 < flushes <= |answers| && AllHeard(answers, flushes - 1) && answers[flushes - 1] != Heard
    {
      hide Conserved, Journaled, UpTo;
      flushes := 0;
      while pending != []
        invariant Valid() && AllHeard(answers, flushes)
        invariant old(localSeq) <= localSeq && localSeq + Arrived(From(arrivals, flushes)) <= old(localSeq) + Arrived(arrivals)
        invariant old(Rows()) <= Rows() && old(lost) <= lost
        decreases |From(arrivals, flushes)|, |pending|
      {
        var meanwhile := if flushes < |arrivals| then arrivals[flushes] else [];
        var answer := if flushes < |answers| then answers[flushes] else Heard;
        ArrivedNext(arrivals, flushes);
        flushes := flushes + 1;
        if answer == Refused { return false, flushes; }
        Flush(meanwhile, answer == Unheard);
        if answer == Unheard { return false, flushes; }
      }
      NothingQueued(pending, localSeq, lost, Mark(), Rows());
      drained := true;
    }

    /** `install`: only a newer, decodable snapshot replaces the mapping. */
    method Install(candidate: nat, decodable: bool) returns (installed: bool)
      requires Valid()
      modifies this`revision
      ensures Valid()
      ensures installed <==> decodable && (old(revision).None? || candidate > old(revision).value)
      ensures revision == if installed then Some(candidate) else old(revision)
    {
      if revision.Some? && candidate <= revision.value { return false; }
      if !decodable { return false; }
      revision := Some(candidate);
      installed := true;
    }
  }
}
