/**
 The attempt loop (`_forward`) against an upstream, a clock and a client that may do anything: when it
 goes on to the next route and when it stops, what the caller gets, and exactly what each charged
 attempt is reported to have come to.
 */
module Forward {
  import opened Prelude
  import opened Scan
  import opened StreamWatch
  import opened Attempts

  datatype Policy = Policy(
    retryOnStatus: set<int>, retryOnTimeout: bool, retryOnTransport: bool, probing: bool, markers: seq<Bytes>)
  {
    /** A plain 200 is not itself listed as a status to retry. */
    predicate Strict() { 200 !in retryOnStatus }
  }

  /** How a response body ends. */
  datatype Ending = Eof | Stalled | Broken

  /** What one attempt will meet. */
  datatype Upstream =
    | NoToken
    | SendStalled
    | SendBroken
    | Response(status: int, retryAfter: Option<real>, body: seq<Bytes>, ending: Ending)

  /**
   What the caller got: an error of the proxy's own, a buffered reply, a stream that ended as the
   upstream's did or (`None`) because the caller left, or a broken connection.
   */
  datatype Answer =
    | Refusal(status: int)
    | Buffered(attempt: nat, status: int, content: Bytes)
    | Streamed(attempt: nat, sent: seq<Bytes>, ended: Option<Ending>)
    | Escaped

  datatype Verdict = Answered(answer: Answer) | Next | GiveUp

  /** The attempt is over and was reported as it should be; `once`: with one demotion at most. */
  ghost predicate Accounted(trace: seq<Note>, id: nat, once: bool) {
    var a := AccountOf(trace, id);
    a.Closed? && a.tally.successes <= 1 && |a.tally.demotions| <= 2 && (once ==> |a.tally.demotions| <= 1 && !a.tally.late)
  }

  /**
   The one family of attempts that may be demoted twice: 200 is a status to retry, and a plain 200 to a
   streaming request arrives on the last route, where it is probed and relayed all the same.
   */
  predicate Doubtful(p: Policy, r: Upstream, isLast: bool, stream: bool) {
    !p.Strict() && isLast && stream && r.Response? && r.status == 200 && r.retryAfter.None?
  }

  /** Refused with a 200 that names a time to come back. */
  predicate Throttled(r: Upstream) { r.Response? && r.status == 200 && r.retryAfter.Some? }

  // ---- where a request goes next ------------------------------------------------------------

  /** Demotions earned by the reply's status line and headers alone. */
  function ByStatus(p: Policy, r: Upstream): seq<Cause>
    requires r.Response?
  {
    if Throttled(r) then [Status(429)] else if r.status in p.retryOnStatus then [Status(r.status)] else []
  }

  /** A reply that is probed and relayed as it comes; every other one is read to its end first. */
  predicate Streams(p: Policy, r: Upstream, isLast: bool, stream: bool) {
    stream && r.Response? && r.status == 200 && (isLast || ByStatus(p, r) == [])
  }

  /**
   What the policy passes over, of the attempts that are not streamed: no token; a timeout, or a failed
   connection, where those are retried; a reply to retry that was read to its end.  A timeout in the
   body and a reply to retry need a route to go on to.
   */
  predicate Retried(p: Policy, r: Upstream, isLast: bool) {
    match r
    case NoToken => true
    case SendStalled => p.retryOnTimeout
    case SendBroken => p.retryOnTransport
    case Response(_, _, _, ending) => !isLast && ((ending == Eof && ByStatus(p, r) != []) || (ending == Stalled && p.retryOnTimeout))
  }

  /** What the caller gets from an attempt, not streamed, that is not passed over. */
  function Due(r: Upstream, id: nat): Answer
    requires !r.NoToken?
  {
    match r
    case SendStalled => Refusal(504)
    case SendBroken => Refusal(502)
    case Response(status, _, body, ending) =>
      if ending == Eof then Buffered(id, status, Whole(body)) else if ending == Stalled then Refusal(504) else Escaped
  }

  /** What may come of a streamed attempt: it is relayed, or fails before the caller has seen anything of it. */
  ghost predicate StreamComes(p: Policy, r: Upstream, isLast: bool, v: Verdict, head: nat, id: nat)
    requires r.Response? && head <= |r.body|
  {
    var refused := Refused(Whole(r.body[..head]), p.markers);
    match v
    case Answered(Streamed(attempt, sent, ended)) =>
      && attempt == id && Whole(sent) <= Whole(r.body) && (refused ==> isLast)
      && (ended.Some? ==> ended.value == r.ending && Whole(sent) == Whole(r.body))
    case Answered(Refusal(status)) => status == 504 && p.probing && r.ending == Stalled && head == |r.body| && !refused
    case Answered(_) => false
    case Next => !isLast && p.probing && (refused || (r.ending == Broken && head == |r.body|))
    case GiveUp => isLast && p.probing && !refused && r.ending == Broken && head == |r.body|
  }

  /** Where an attempt leads, for everything it can meet. */
  ghost predicate Leads(p: Policy, r: Upstream, isLast: bool, stream: bool, v: Verdict, head: nat, id: nat)
    requires !r.NoToken? && (r.Response? ==> head <= |r.body|)
  {
    if Streams(p, r, isLast, stream) then StreamComes(p, r, isLast, v, head, id)
    else if Retried(p, r, isLast) then v == if isLast then GiveUp else Next
    else v == Answered(Due(r, id))
  }

  // ---- what an attempt is reported to have come to ----------------------------------------------

  function Nonzero(total: Option<nat>): Option<nat> { if total.Some? && total.value > 0 then total else None }

  /** A refusal was visible in the probed head, or to the scan of what the client was sent. */
  predicate SawRefusal(p: Policy, r: Upstream, head: nat, sent: seq<Bytes>)
    requires r.Response? && head <= |r.body|
  {
    Refused(Whole(r.body[..head]), p.markers) || Watched(sent, p.markers).limited
  }

  /** With markers of at most 49 bytes, that is: one was there to be seen. */
  lemma SeenIsThere(p: Policy, r: Upstream, head: nat, sent: seq<Bytes>)
    requires r.Response? && head <= |r.body| && Scannable(p.markers)
    ensures SawRefusal(p, r, head, sent) <==> Refused(Whole(r.body[..head]), p.markers) || Refused(Whole(sent), p.markers)
  {
    hide Refused, Watched;
    RefusalIsChunkingFree(sent, p.markers);
  }

  /** Demotions earned by the body: a refusal in it, or a connection that broke off in the probe. */
  function InBody(p: Policy, r: Upstream, isLast: bool, stream: bool, v: Verdict, head: nat): seq<Cause>
    requires r.Response? && head <= |r.body|
  {
    if Streams(p, r, isLast, stream) then
      if Throttled(r) || (v.Answered? && !v.answer.Streamed?) then []
      else if if v.Answered? then SawRefusal(p, r, head, v.answer.sent) else Refused(Whole(r.body[..head]), p.markers) then [Status(429)]
      else if v.Answered? then [] else [Transport]
    else if r.status == 200 && ByStatus(p, r) == [] && r.ending == Eof && Refused(Whole(r.body), p.markers) then [Status(429)] else []
  }

  /** The demotions of an attempt, in order, for everything it can meet and every way it can end. */
  function Earned(p: Policy, r: Upstream, isLast: bool, stream: bool, v: Verdict, head: nat): seq<Cause>
    requires r.Response? ==> head <= |r.body|
  {
    match r
    case NoToken => []
    case SendStalled => []
    case SendBroken => [Transport]
    case Response(_, _, _, _) => ByStatus(p, r) + InBody(p, r, isLast, stream, v, head)
  }

  /** What the body of a streamed reply came to: refused in sight, or broken off in the probe. */
  predicate Failing(p: Policy, r: Upstream, v: Verdict, head: nat)
    requires r.Response? && head <= |r.body|
  {
    if v.Answered? then v.answer.Streamed? && SawRefusal(p, r, head, v.answer.sent) else true
  }

  /**
   One demotion at most, exactly: unless 200 is a status to retry, a plain 200 to a streaming request
   met the last route, and it then showed a refusal or broke off in the probe.
   */
  lemma OnceExactlyWhen(p: Policy, r: Upstream, isLast: bool, stream: bool, v: Verdict, head: nat)
    requires r.Response? ==> head <= |r.body|
    ensures |Earned(p, r, isLast, stream, v, head)| <= 1 <==> !(Doubtful(p, r, isLast, stream) && Failing(p, r, v, head))
    ensures |Earned(p, r, isLast, stream, v, head)| <= 2
  {
    hide SawRefusal, Refused;
  }

  /**
   The first moment at which a relayed stream has earned its success, and the total known then: a
   completed response with no refusal and no error event so far.  `spoilt` is the first chunk that
   brought an error event.
   */
  ghost function Praise(p: Policy, sent: seq<Bytes>, spoilt: Option<nat>): Option<Option<nat>> {
    if sent == [] then None
    else
      var before := Praise(p, sent[..|sent| - 1], spoilt);
      var w := Watched(sent, p.markers);
      if before.Some? then before
      else if w.progress.completed && !w.limited && (spoilt.None? || |sent| <= spoilt.value) then Some(w.total)
      else None
  }

  /** The same at the stream's end: where no completion is announced, coming to the end is enough. */
  ghost function Praised(p: Policy, sent: seq<Bytes>, ended: Option<Ending>, responses: bool, spoilt: Option<nat>): Option<Option<nat>> {
    var early, w := Praise(p, sent, spoilt), Watched(sent, p.markers);
    if early.None? && ended == Some(Eof) && !responses && spoilt.None? && !w.limited then Some(w.total) else early
  }

  /** A success was earned exactly if some moment of the stream earned it. */
  lemma {:induction false} PraiseMeans(p: Policy, sent: seq<Bytes>, spoilt: Option<nat>)
    ensures Praise(p, sent, spoilt).Some? <==>
              exists k | 0 < k <= |sent| ::
                var w := Watched(sent[..k], p.markers);
                w.progress.completed && !w.limited && (spoilt.None? || k <= spoilt.value)
  {
    hide Watched;
    if sent != [] {
      var front := sent[..|sent| - 1];
      PraiseMeans(p, front, spoilt);
      assert forall k | 0 <= k <= |front| :: sent[..k] == front[..k];
      assert sent[..|sent|] == sent;
      if Praise(p, front, spoilt).Some? {
        var k :| 0 < k <= |front| && var w := Watched(front[..k], p.markers);
                                     w.progress.completed && !w.limited && (spoilt.None? || k <= spoilt.value);
        assert sent[..k] == front[..k];
      }
    }
  }

  /** The relay's part: what it adds to what was reported before. */
  ghost function Relayed(b: Tally, p: Policy, sent: seq<Bytes>, ended: Option<Ending>, counted: bool, responses: bool, spoilt: Option<nat>): Tally {
    var w := Watched(sent, p.markers);
    var praised := if counted then None else Praised(p, sent, ended, responses, spoilt);
    b.(demotions := b.demotions + if !counted && w.limited then [Status(429)] else [],
       successes := if praised.Some? then 1 else 0,
       timeouts := b.timeouts + if ended == Some(Stalled) then 1 else 0,
       cost := Nonzero(if praised.Some? then praised.value else w.total),
       late := praised.Some? && b.demotions != [])
  }

  /** The buffered reply's part. */
  function Read(b: Tally, p: Policy, status: int, body: Bytes, counted: bool): Tally {
    var refused := status == 200 && !counted && Refused(body, p.markers);
    b.(demotions := b.demotions + if refused then [Status(429)] else [],
       successes := if status < 400 && !counted && !refused then 1 else 0,
       cost := Nonzero(Total(body)))
  }

  /** Before anything came of the reply's body. */
  function Begun(p: Policy, route: Route, r: Upstream): Tally
    requires r.Response?
  {
    Tally(route, [r.status], ByStatus(p, r), 0, 0, None, false)
  }

  /** Everything an attempt is reported to have come to. */
  ghost function Tallied(p: Policy, route: Route, r: Upstream, isLast: bool, stream: bool, responses: bool, v: Verdict, head: nat, spoilt: Option<nat>): Tally
    requires !r.NoToken? && (r.Response? ==> head <= |r.body|)
  {
    match r
    case SendStalled => Tally(route, [], [], 0, 1, None, false)
    case SendBroken => Tally(route, [], [Transport], 0, 0, None, false)
    case Response(status, _, body, ending) =>
      var b := Begun(p, route, r);
      if Streams(p, r, isLast, stream) then
        if v.Answered? && v.answer.Streamed? then
          var refused := Refused(Whole(body[..head]), p.markers);
          var b' := b.(demotions := b.demotions + if refused && !Throttled(r) then [Status(429)] else []);
          Relayed(b', p, v.answer.sent, v.answer.ended, refused || Throttled(r), responses, spoilt)
        else b.(demotions := Earned(p, r, isLast, stream, v, head), timeouts := if v.Answered? then 1 else 0)
      else if ending == Eof && (isLast || ByStatus(p, r) == []) then Read(b, p, status, Whole(body), ByStatus(p, r) != [])
      else b.(timeouts := if ending == Stalled then 1 else 0)
  }

  /** The demotions among them are those earned, and only a doubtful attempt has a success after one. */
  lemma TalliedDemotions(p: Policy, route: Route, r: Upstream, isLast: bool, stream: bool, responses: bool, v: Verdict, head: nat, spoilt: Option<nat>)
    requires !r.NoToken? && (r.Response? ==> head <= |r.body|)
    ensures var t := Tallied(p, route, r, isLast, stream, responses, v, head, spoilt);
            && t.demotions == Earned(p, r, isLast, stream, v, head) && t.successes <= 1
            && (t.late ==> Doubtful(p, r, isLast, stream)) && (t.late ==> t.successes == 1 && t.demotions != [])
  {
    hide Watched, Refused, Praised, Total;
  }

  // ---- the buffered face ------------------------------------------------------------------

  /** `_relay`: a body read to its end; an in-band refusal demotes unless the status already did. */
  method Relay(t: Telemetry, e: Attempt, p: Policy, status: int, body: Bytes, counted: bool, ghost b: Tally) returns (answer: Answer)
    requires t.Valid() && t.Tracks(e, b) && !e.finished && b.successes == 0 && b.cost == None && !b.late && (b.demotions != [] ==> counted)
    modifies t`trace, e
    ensures t.Valid() && t.Tracks(e, Read(b, p, status, body, counted)) && !e.finished && t.OnlyAbout(e.id) && e.streaming == old(e.streaming)
    ensures answer == Buffered(e.id, status, body)
  {
    hide Refused, Total;
    var limited := counted;
    ghost var b' := b;
    if status == 200 && !counted && Refused(body, p.markers) {
      t.Demote(e, Status(429), b);
      b' := b.(demotions := b.demotions + [Status(429)]);
      limited := true;
    }
    var total := ReadTotal(body);
    t.Settle(e, total, b');
    if status < 400 && !limited { t.NoteSuccess(e, b'.(cost := Nonzero(total))); }
    answer := Buffered(e.id, status, body);
  }

  // ---- the streamed face -------------------------------------------------------------------

  /** What probing the head of a stream found. */
  datatype Head = Head(chunks: nat, pending: bool, refused: bool, failed: Option<Ending>)

  /**
   `_probe_stream_head`: reads until the head shows what the stream is, or time or space run out;
   the last two are the environment's choice here.
   */
  method Probe(p: Policy, body: seq<Bytes>, ending: Ending) returns (head: Head)
    ensures head.chunks <= |body|
    ensures head.refused ==> head.failed.None?
    ensures head.refused <==> Refused(Whole(body[..head.chunks]), p.markers)
    ensures head.failed.Some? ==> head.chunks == |body| && head.failed == Some(ending) && ending != Eof
    ensures !p.probing ==> head == Head(0, false, false, None)
  {
    hide Refused;
    head := Head(0, false, false, None);
    NothingRefused(p.markers);
    assert body[..0] == [];
    if !p.probing { return; }
    var buffered: Bytes := "";
    while head.chunks < |body|
      invariant head.chunks <= |body| && !head.refused && head.failed.None? && !head.pending
      invariant buffered == Whole(body[..head.chunks]) && !Refused(buffered, p.markers)
    {
      var stop: bool := *;
      if stop {
        var outstanding: bool := *;
        return head.(pending := outstanding);
      }
      assert body[..head.chunks + 1][..head.chunks] == body[..head.chunks];
      buffered := buffered + body[head.chunks];
      head := head.(chunks := head.chunks + 1);
      if Refused(buffered, p.markers) { return head.(refused := true); }
      var content: bool := *;
      if content { return; }
    }
    var waited: bool := *;
    if !waited {
      var outstanding: bool := *;
      head := head.(pending := outstanding);
    } else if ending != Eof {
      head := head.(failed := Some(ending));
    }
  }

  lemma NothingRefused(markers: seq<Bytes>)
    ensures !Refused("", markers)
  {
    forall k | 0 <= k < |markers| && Heeded(markers, k) ensures !Contains("", markers[k]) {
      assert markers[k] != "";
    }
  }

  /** What is reported while a stream is relayed. */
  ghost function Midway(b: Tally, p: Policy, sent: seq<Bytes>, counted: bool, spoilt: Option<nat>): Tally {
    var praised := if counted then None else Praise(p, sent, spoilt);
    b.(demotions := b.demotions + if !counted && Watched(sent, p.markers).limited then [Status(429)] else [],
       successes := if praised.Some? then 1 else 0,
       cost := if praised.Some? then Nonzero(praised.value) else None,
       late := praised.Some? && b.demotions != [])
  }

  /** `record_success` inside the stream: once, and never for a refused or failed stream. */
  method RecordSuccess(t: Telemetry, e: Attempt, watch: Watcher, failed: bool, recorded: bool, ghost b: Tally)
    returns (now: bool, ghost b': Tally)
    requires t.Valid() && t.Tracks(e, b) && !e.finished && (!recorded ==> b.successes == 0 && b.cost == None && !b.late)
    modifies t`trace, e`usage, e`success
    ensures t.Valid() && t.Tracks(e, b') && !e.finished && t.OnlyAbout(e.id)
    ensures now == (recorded || (!watch.rateLimited && !failed))
    ensures b' == if recorded || !now then b else b.(successes := 1, cost := Nonzero(watch.totalTokens), late := b.demotions != [])
  {
    now, b' := recorded, b;
    if !recorded && !watch.rateLimited && !failed {
      t.Settle(e, watch.totalTokens, b);
      t.NoteSuccess(e, b.(cost := Nonzero(watch.totalTokens)));
      b' := b.(successes := 1, cost := Nonzero(watch.totalTokens), late := b.demotions != []);
      now := true;
    }
  }

  /** `inspect`: the scan's findings on one chunk, reported before the chunk goes out. */
  method Inspect(t: Telemetry, e: Attempt, p: Policy, watch: Watcher, chunk: Bytes, failed: bool, recorded: bool, ghost b: Tally)
    returns (failed': bool, recorded': bool, ghost b': Tally)
    requires t.Valid() && t.Tracks(e, b) && !e.finished && (!recorded ==> b.successes == 0 && b.cost == None && !b.late)
    modifies t`trace, e`usage, e`success, watch
    ensures t.Valid() && t.Tracks(e, b') && !e.finished && t.OnlyAbout(e.id)
    ensures watch.View() == Fed(old(watch.View()), chunk, p.markers)
    ensures failed ==> failed'
    ensures recorded' == (recorded || (watch.completed && !watch.rateLimited && !failed'))
    ensures var told := b.(demotions := b.demotions + if watch.rateLimited && !old(watch.rateLimited) then [Status(429)] else []);
            b' == if recorded || !recorded' then told
                  else told.(successes := 1, cost := Nonzero(watch.totalTokens), late := told.demotions != [])
  {
    var found := watch.Feed(chunk, p.markers);
    b', recorded' := b, recorded;
    if found {
      t.Demote(e, Status(429), b);
      b' := b.(demotions := b.demotions + [Status(429)]);
    }
    assert b'.demotions == b.demotions + if found then [Status(429)] else [];
    var error: bool := *;                    // an `error` event went past
    failed' := failed || error;
    if watch.completed { recorded', b' := RecordSuccess(t, e, watch, failed', recorded, b'); }
  }

  /** The end of the stream, however it came: timeout, success, cost, and the first cleanup. */
  method Conclude(t: Telemetry, e: Attempt, watch: Watcher, stalled: bool, whole: bool, failed: bool, recorded: bool, ghost b: Tally)
    returns (ghost b': Tally)
    requires t.Valid() && t.Tracks(e, b) && !e.finished && (!recorded ==> b.successes == 0 && b.cost == None && !b.late)
    modifies t`trace, e`usage, e`success, e`finished
    ensures t.Valid() && t.Tracks(e, b') && e.finished && t.OnlyAbout(e.id)
    ensures var told := b.(timeouts := b.timeouts + if stalled then 1 else 0);
            b' == if recorded then told
                  else if whole && !watch.rateLimited && !failed
                  then told.(successes := 1, cost := Nonzero(watch.totalTokens), late := told.demotions != [])
                  else told.(cost := Nonzero(watch.totalTokens))
  {
    var now := recorded;
    b' := b;
    if stalled {
      t.NoteTimeout(e, b);
      b' := b.(timeouts := b.timeouts + 1);
    }
    if whole { now, b' := RecordSuccess(t, e, watch, failed, recorded, b'); }
    if !now {
      t.Settle(e, watch.totalTokens, b');
      b' := b'.(cost := Nonzero(watch.totalTokens));
    }
    t.Finish(e, b');
  }

  lemma NothingSent(b: Tally, p: Policy, counted: bool)
    requires b.successes == 0 && b.cost == None && !b.late
    ensures Midway(b, p, [], counted, None) == b && Watched([], p.markers) == NEW && Praise(p, [], None) == None
    ensures forall responses :: Relayed(b, p, [], None, counted, responses, None) == b
  {
  }

  /** One more chunk was inspected. */
  lemma Inspected(b: Tally, b': Tally, p: Policy, sent: seq<Bytes>, chunk: Bytes, counted: bool, spoilt: Option<nat>, w: Watch, failed: bool, recorded: bool)
    requires b.successes == 0 && b.cost == None && !b.late && (spoilt.Some? ==> spoilt.value < |sent|)
    requires w == Fed(Watched(sent, p.markers).(limited := counted || Watched(sent, p.markers).limited), chunk, p.markers)
    requires spoilt.Some? ==> failed
    requires recorded == (!counted && Praise(p, sent, spoilt).Some?)
    requires var now := recorded || (w.progress.completed && !w.limited && !failed);
             var m := Midway(b, p, sent, counted, spoilt);
             var told := m.(demotions := m.demotions + if w.limited && !(counted || Watched(sent, p.markers).limited) then [Status(429)] else []);
             b' == if recorded || !now then told else told.(successes := 1, cost := Nonzero(w.total), late := told.demotions != [])
    ensures var more, spoilt' := sent + [chunk], if failed && spoilt.None? then Some(|sent|) else spoilt;
            && Watched(more, p.markers) == Fed(Watched(sent, p.markers), chunk, p.markers)
            && w == Watched(more, p.markers).(limited := counted || Watched(more, p.markers).limited)
            && b' == Midway(b, p, more, counted, spoilt')
            && (recorded || (w.progress.completed && !w.limited && !failed)) == (!counted && Praise(p, more, spoilt').Some?)
  {
    hide Refused, Total, Watched, Praise;
    var more, spoilt' := sent + [chunk], if failed && spoilt.None? then Some(|sent|) else spoilt;
    WatchedNext(sent, chunk, p.markers);
    SpoiltLater(p, sent, spoilt, spoilt');
    PraiseNext(p, sent, chunk, spoilt');
  }

  lemma WatchedNext(sent: seq<Bytes>, chunk: Bytes, markers: seq<Bytes>)
    ensures Watched(sent + [chunk], markers) == Fed(Watched(sent, markers), chunk, markers)
  {
    assert (sent + [chunk])[..|sent|] == sent;
  }

  lemma PraiseNext(p: Policy, sent: seq<Bytes>, chunk: Bytes, spoilt: Option<nat>)
    ensures var more := sent + [chunk]; var w := Watched(more, p.markers); var before := Praise(p, sent, spoilt);
            Praise(p, more, spoilt)
            == if before.Some? then before
               else if w.progress.completed && !w.limited && (spoilt.None? || |more| <= spoilt.value) then Some(w.total) else None
  {
    assert (sent + [chunk])[..|sent|] == sent;
  }

  /** An error event in a later chunk does not undo a success. */
  lemma {:induction false} SpoiltLater(p: Policy, sent: seq<Bytes>, spoilt: Option<nat>, later: Option<nat>)
    requires later == spoilt || (spoilt.None? && later.Some? && later.value >= |sent|)
    ensures Praise(p, sent, spoilt) == Praise(p, sent, later)
  {
    hide Watched;
    if sent != [] { SpoiltLater(p, sent[..|sent| - 1], spoilt, later); }
  }

  /** The end of the relay. */
  lemma Concluded(b: Tally, b': Tally, p: Policy, sent: seq<Bytes>, ended: Option<Ending>, counted: bool, responses: bool, spoilt: Option<nat>, w: Watch)
    requires b.successes == 0 && b.cost == None && !b.late
    requires w == Watched(sent, p.markers).(limited := counted || Watched(sent, p.markers).limited)
    requires var recorded, m := !counted && Praise(p, sent, spoilt).Some?, Midway(b, p, sent, counted, spoilt);
             var told := m.(timeouts := m.timeouts + if ended == Some(Stalled) then 1 else 0);
             b' == if recorded then told
                   else if ended == Some(Eof) && !responses && !w.limited && spoilt.None?
                   then told.(successes := 1, cost := Nonzero(w.total), late := told.demotions != [])
                   else told.(cost := Nonzero(w.total))
    ensures b' == Relayed(b, p, sent, ended, counted, responses, spoilt)
  {
    hide Watched, Praise;
  }

  /** The relay has handed on `sent` and is not over. */
  ghost predicate Relaying(t: Telemetry, e: Attempt, p: Policy, watch: Watcher, b: Tally, sent: seq<Bytes>, counted: bool, spoilt: Option<nat>, failed: bool, recorded: bool)
    reads t, e, watch
  {
    && b.successes == 0 && b.cost == None && !b.late
    && t.Valid() && t.Tracks(e, Midway(b, p, sent, counted, spoilt)) && !e.finished
    && watch.View() == Watched(sent, p.markers).(limited := counted || Watched(sent, p.markers).limited)
    && recorded == (!counted && Praise(p, sent, spoilt).Some?)
    && failed == spoilt.Some? && (spoilt.Some? ==> spoilt.value < |sent|)
  }

  /** One chunk: inspected, then handed on. */
  method HandOn(t: Telemetry, e: Attempt, p: Policy, watch: Watcher, chunk: Bytes, failed: bool, recorded: bool, ghost b: Tally, ghost sent: seq<Bytes>, ghost counted: bool, ghost spoilt: Option<nat>)
    returns (failed': bool, recorded': bool, ghost spoilt': Option<nat>)
    requires Relaying(t, e, p, watch, b, sent, counted, spoilt, failed, recorded)
    modifies t`trace, e`usage, e`success, watch
    ensures Relaying(t, e, p, watch, b, sent + [chunk], counted, spoilt', failed', recorded') && t.OnlyAbout(e.id)
  {
    hide AccountOf, Fed, Refused, Watched, Praise, Midway;
    ghost var b' := Midway(b, p, sent, counted, spoilt);
    if !recorded { MidwayQuiet(b, p, sent, counted, spoilt); }
    failed', recorded', b' := Inspect(t, e, p, watch, chunk, failed, recorded, b');
    Inspected(b, b', p, sent, chunk, counted, spoilt, watch.View(), failed', recorded);
    spoilt' := if failed' && spoilt.None? then Some(|sent|) else spoilt;
  }

  /**
   `_relay_stream`: chunks go out unchanged, in order, as they arrive; the scan only reports.  The
   client may leave before the first byte or after any chunk.  `counted`: this refusal was already
   charged, so the scan must not charge it again.
   */
  method RelayStream(t: Telemetry, e: Attempt, p: Policy, r: Upstream, head: Head, counted: bool, responses: bool, ghost b: Tally)
    returns (answer: Answer, ghost spoilt: Option<nat>)
    requires r.Response? && head.chunks <= |r.body|
    requires t.Valid() && t.Tracks(e, b) && !e.finished && b.successes == 0 && b.cost == None && !b.late
    modifies t`trace, e
    ensures t.Valid() && e.finished && t.OnlyAbout(e.id)
    ensures answer.Streamed? && answer.attempt == e.id
    ensures t.Tracks(e, Relayed(b, p, answer.sent, answer.ended, counted, responses, spoilt))
    ensures Whole(answer.sent) <= Whole(r.body)
    ensures answer.ended.Some? ==> answer.ended.value == r.ending && Whole(answer.sent) == Whole(r.body)
  {
    hide AccountOf, Whole, Fed, Refused, Watched, Praise, Midway, Relayed;
    e.streaming := true;
    var watch := new Watcher();
    watch.rateLimited := counted;
    var sent: seq<Bytes> := [];
    var recorded, failed := false, false;
    var ended: Option<Ending> := None;
    spoilt := None;
    ghost var b' := b;
    var gone: bool := *;                     // sending failed before iteration started
    WholeEmpty(r.body);
    NothingSent(b, p, counted);
    if !gone {
      var k := 0;
      while k < |r.body| && !gone
        invariant k <= |r.body| && Whole(sent) == Whole(r.body[..k])
        invariant Relaying(t, e, p, watch, b, sent, counted, spoilt, failed, recorded) && t.OnlyAbout(e.id)
        invariant fresh(watch)
      {
        hide Relaying;
        var chunk := r.body[k];
        WholeNext(r.body, k, sent);
        if k == head.chunks && head.pending && chunk == "" {
          // an outstanding read that brought nothing is not handed on
        } else {
          failed, recorded, spoilt := HandOn(t, e, p, watch, chunk, failed, recorded, b, sent, counted, spoilt);
          sent := sent + [chunk];
          gone := *;
        }
        k := k + 1;
      }
      assert r.body[..|r.body|] == r.body;
      WholePrefix(r.body, k);
      ended := if gone then None else Some(r.ending);
      if !recorded { MidwayQuiet(b, p, sent, counted, spoilt); }
      b' := Conclude(t, e, watch, ended == Some(Stalled), ended == Some(Eof) && !responses, failed, recorded,
                     Midway(b, p, sent, counted, spoilt));
      Concluded(b, b', p, sent, ended, counted, responses, spoilt, watch.View());
    }
    t.Finish(e, b');                         // cleanup again, from the response
    answer := Streamed(e.id, sent, ended);
  }

  /** One more chunk of the body, handed on or empty. */
  lemma WholeNext(body: seq<Bytes>, k: nat, sent: seq<Bytes>)
    requires k < |body| && Whole(sent) == Whole(body[..k])
    ensures Whole(sent + [body[k]]) == Whole(body[..k + 1])
    ensures body[k] == "" ==> Whole(sent) == Whole(body[..k + 1])
  {
    WholeSnoc(body[..k], body[k]);
    WholeSnoc(sent, body[k]);
    assert body[..k + 1] == body[..k] + [body[k]];
  }

  lemma MidwayQuiet(b: Tally, p: Policy, sent: seq<Bytes>, counted: bool, spoilt: Option<nat>)
    requires (counted || Praise(p, sent, spoilt).None?) && b.cost == None && !b.late
    ensures var m := Midway(b, p, sent, counted, spoilt); m.successes == 0 && m.cost == None && !m.late
  {
  }

  lemma WholeSnoc(chunks: seq<Bytes>, chunk: Bytes)
    ensures Whole(chunks + [chunk]) == Whole(chunks) + chunk
  {
    assert (chunks + [chunk])[..|chunks|] == chunks;
  }

  lemma WholeEmpty(chunks: seq<Bytes>)
    ensures Whole([]) == "" && chunks[..0] == [] && Whole([]) <= Whole(chunks)
  {
  }

  lemma {:induction false} WholePrefix(chunks: seq<Bytes>, k: nat)
    requires k <= |chunks|
    ensures Whole(chunks[..k]) <= Whole(chunks)
    decreases |chunks|
  {
    if k < |chunks| {
      WholePrefix(chunks[..|chunks| - 1], k);
      assert chunks[..|chunks| - 1][..k] == chunks[..k];
    } else {
      assert chunks[..k] == chunks;
    }
  }

  // ---- one attempt ---------------------------------------------------------------------------

  /** What is reported, and where it leads, once an attempt is over. */
  ghost predicate Over(a: Account, p: Policy, route: Route, r: Upstream, isLast: bool, stream: bool, responses: bool, v: Verdict, head: nat, id: nat, spoilt: Option<nat>)
    requires !r.NoToken? && (r.Response? ==> head <= |r.body|)
  {
    a == Closed(Tallied(p, route, r, isLast, stream, responses, v, head, spoilt)) && Leads(p, r, isLast, stream, v, head, id)
  }

  /** A 200 on a streaming request: probe it, then give up on it, move on, or relay it. */
  method StreamReply(t: Telemetry, e: Attempt, p: Policy, route: Route, r: Upstream, isLast: bool, throttled: bool, responses: bool)
    returns (v: Verdict, ghost head: nat, ghost spoilt: Option<nat>)
    requires Streams(p, r, isLast, true) && throttled == Throttled(r)
    requires t.Valid() && t.Tracks(e, Begun(p, route, r)) && !e.finished
    modifies t`trace, e
    ensures t.Valid() && t.OnlyAbout(e.id) && head <= |r.body|
    ensures Over(AccountOf(t.trace, e.id), p, route, r, isLast, true, responses, v, head, e.id, spoilt)
  {
    hide AccountOf, Whole, Refused, Relayed;
    var probed := Probe(p, r.body, r.ending);
    head, spoilt := probed.chunks, None;
    ghost var b := Begun(p, route, r);
    assert b.demotions + [] == b.demotions && b.(demotions := b.demotions) == b;
    if probed.failed == Some(Stalled) {
      t.NoteTimeout(e, b);
      t.Finish(e, b.(timeouts := 1));
      return Answered(Refusal(504)), head, spoilt;
    }
    if probed.refused || probed.failed.Some? {
      if !throttled {
        var cause := if probed.refused then Status(429) else Transport;
        t.Demote(e, cause, b);
        b := b.(demotions := b.demotions + [cause]);
      }
      if !isLast {
        t.Finish(e, b);
        return Next, head, spoilt;
      }
      if probed.failed.Some? {
        t.Finish(e, b);
        return GiveUp, head, spoilt;
      }
    }
    var answer;
    answer, spoilt := RelayStream(t, e, p, r, probed, probed.refused || throttled, responses, b);
    v := Answered(answer);
  }

  /** A reply whose headers arrived: judged by status, then read, probed, relayed or thrown away. */
  method Reply(t: Telemetry, e: Attempt, p: Policy, route: Route, r: Upstream, isLast: bool, stream: bool, responses: bool)
    returns (v: Verdict, ghost head: nat, ghost spoilt: Option<nat>)
    requires r.Response? && t.Valid() && t.Tracks(e, Tally(route, [], [], 0, 0, None, false)) && !e.finished
    modifies t`trace, e
    ensures t.Valid() && t.OnlyAbout(e.id) && head <= |r.body|
    ensures Over(AccountOf(t.trace, e.id), p, route, r, isLast, stream, responses, v, head, e.id, spoilt)
  {
    hide AccountOf, Whole, Refused, Over;
    head, spoilt := 0, None;
    ghost var b := Tally(route, [], [], 0, 0, None, false);
    t.Observe(e, r.status, b);
    b := b.(statuses := [r.status]);
    var throttled := r.status == 200 && r.retryAfter.Some?;
    var retryable := r.status in p.retryOnStatus || throttled;
    if retryable {
      t.Demote(e, if throttled then Status(429) else Status(r.status), b);
    }
    assert t.Tracks(e, Begun(p, route, r));
    if retryable && !isLast {
      v := Discard(t, e, p, route, r, isLast, stream, responses);
    } else if stream && r.status == 200 {
      v, head, spoilt := StreamReply(t, e, p, route, r, isLast, throttled, responses);
    } else {
      v := ReadAndRelay(t, e, p, route, r, isLast, stream, responses, retryable);
    }
  }

  /** Reading a body that will be thrown away can still stall or break. */
  method Discard(t: Telemetry, e: Attempt, p: Policy, route: Route, r: Upstream, isLast: bool, stream: bool, responses: bool)
    returns (v: Verdict)
    requires r.Response? && !isLast && ByStatus(p, r) != [] && t.Valid() && t.Tracks(e, Begun(p, route, r)) && !e.finished
    modifies t`trace, e
    ensures t.Valid() && t.OnlyAbout(e.id)
    ensures Over(AccountOf(t.trace, e.id), p, route, r, isLast, stream, responses, v, 0, e.id, None)
  {
    hide AccountOf, Whole, Refused;
    ghost var b := Begun(p, route, r);
    match r.ending {
      case Eof => v := Next;
      case Stalled =>
        t.NoteTimeout(e, b);
        b := b.(timeouts := 1);
        v := if p.retryOnTimeout then Next else Answered(Refusal(504));
      case Broken => v := Answered(Escaped);
    }
    t.Finish(e, b);
  }

  method ReadAndRelay(t: Telemetry, e: Attempt, p: Policy, route: Route, r: Upstream, isLast: bool, stream: bool, responses: bool, counted: bool)
    returns (v: Verdict)
    requires r.Response? && !Streams(p, r, isLast, stream) && (isLast || !counted) && counted == (ByStatus(p, r) != [])
    requires t.Valid() && t.Tracks(e, Begun(p, route, r)) && !e.finished
    modifies t`trace, e
    ensures t.Valid() && t.OnlyAbout(e.id)
    ensures Over(AccountOf(t.trace, e.id), p, route, r, isLast, stream, responses, v, 0, e.id, None)
  {
    hide AccountOf, Whole, Refused, Read;
    ghost var b := Begun(p, route, r);
    match r.ending {
      case Eof =>
        var answer := Relay(t, e, p, r.status, Whole(r.body), counted, b);
        b := Read(b, p, r.status, Whole(r.body), counted);
        v := Answered(answer);
      case Stalled =>
        t.NoteTimeout(e, b);
        b := b.(timeouts := 1);
        v := if p.retryOnTimeout && !isLast then Next else Answered(Refusal(504));
      case Broken => v := Answered(Escaped);
    }
    t.Finish(e, b);
  }

  /** One pass of the loop over a route whose token is at hand. */
  method Try(t: Telemetry, p: Policy, route: Route, r: Upstream, isLast: bool, stream: bool, responses: bool)
    returns (v: Verdict, ghost head: nat, ghost spoilt: Option<nat>)
    requires !r.NoToken? && t.Valid()
    modifies t
    ensures t.Valid() && t.drawn == old(t.drawn) + 1
    ensures forall x: nat | x != old(t.drawn) :: AccountOf(t.trace, x) == old(AccountOf(t.trace, x))
    ensures r.Response? ==> head <= |r.body|
    ensures Over(AccountOf(t.trace, old(t.drawn)), p, route, r, isLast, stream, responses, v, head, old(t.drawn), spoilt)
  {
    hide AccountOf;
    head, spoilt := 0, None;
    var e := t.Charge(route);
    ghost var b := Tally(route, [], [], 0, 0, None, false);
    match r {
      case SendStalled =>
        t.NoteTimeout(e, b);
        v := if !p.retryOnTimeout then Answered(Refusal(504)) else if isLast then GiveUp else Next;
        t.Finish(e, b.(timeouts := 1));
      case SendBroken =>
        t.Demote(e, Transport, b);
        v := if !p.retryOnTransport then Answered(Refusal(502)) else if isLast then GiveUp else Next;
        t.Finish(e, b.(demotions := [Transport]));
      case Response(_, _, _, _) =>
        hide Over;
        v, head, spoilt := Reply(t, e, p, route, r, isLast, stream, responses);
    }
  }

  // ---- the whole request -----------------------------------------------------------------------

  /** Passed over on the way: by the policy, or streamed and failed before the caller saw anything. */
  ghost predicate PassedOver(p: Policy, r: Upstream, isLast: bool, stream: bool) {
    if Streams(p, r, isLast, stream) then
      p.probing && ((!isLast && exists k | 0 <= k <= |r.body| :: Refused(Whole(r.body[..k]), p.markers)) || r.ending == Broken)
    else Retried(p, r, isLast)
  }

  /** The attempt that ended the request, and what the caller got of it. */
  ghost predicate Concluding(p: Policy, r: Upstream, isLast: bool, stream: bool, a: Answer, id: nat) {
    && !r.NoToken?
    && if Streams(p, r, isLast, stream) then exists head | 0 <= head <= |r.body| :: StreamComes(p, r, isLast, Answered(a), head, id)
       else !Retried(p, r, isLast) && a == Due(r, id)
  }

  /** How the request went: every attempt before `final` was passed over, and `final` ended it, or none did. */
  ghost predicate Went(p: Policy, meets: seq<Upstream>, stream: bool, a: Answer, final: nat, id: int) {
    && final <= |meets|
    && (forall i | 0 <= i < final :: PassedOver(p, meets[i], i == |meets| - 1, stream))
    && (if final < |meets| then id >= 0 && Concluding(p, meets[final], final == |meets| - 1, stream, a, id) else a == Refusal(503))
  }

  lemma LedOn(p: Policy, r: Upstream, isLast: bool, stream: bool, v: Verdict, head: nat, id: nat)
    requires !r.NoToken? && (r.Response? ==> head <= |r.body|) && Leads(p, r, isLast, stream, v, head, id)
    ensures if v.Answered? then Concluding(p, r, isLast, stream, v.answer, id) else PassedOver(p, r, isLast, stream)
  {
    hide Refused, Whole;
    if Streams(p, r, isLast, stream) && !v.Answered? {
      assert 0 <= head <= |r.body|;
    }
  }

  /** The reports on every attempt passed over so far; ids are drawn in the order of the attempts. */
  ghost predicate AllAccounted(trace: seq<Note>, first: nat, p: Policy, attempts: seq<Route>, meets: seq<Upstream>, n: nat, stream: bool, responses: bool)
    requires n <= |meets| == |attempts|
  {
    forall i | 0 <= i < n && !meets[i].NoToken? ::
      ReportedAs(AccountOf(trace, first + Charged(meets[..i])), p, attempts[i], meets[i], i == |meets| - 1, stream, responses,
                 None, first + Charged(meets[..i]))
  }

  /** The attempt is over, and reported as one that gave the caller this answer, or none. */
  ghost predicate ReportedAs(a: Account, p: Policy, route: Route, r: Upstream, isLast: bool, stream: bool, responses: bool, given: Option<Answer>, id: nat)
    requires !r.NoToken?
  {
    exists v, head: nat, spoilt ::
      && (r.Response? ==> head <= |r.body|) && given == Given(v)
      && Over(a, p, route, r, isLast, stream, responses, v, head, id, spoilt)
  }

  function Given(v: Verdict): Option<Answer> { if v.Answered? then Some(v.answer) else None }

  /** In particular: closed, one success at most, and one demotion at most unless the attempt is doubtful. */
  lemma ReportedMeans(trace: seq<Note>, id: nat, p: Policy, route: Route, r: Upstream, isLast: bool, stream: bool, responses: bool, given: Option<Answer>)
    requires !r.NoToken? && ReportedAs(AccountOf(trace, id), p, route, r, isLast, stream, responses, given, id)
    ensures Accounted(trace, id, !Doubtful(p, r, isLast, stream)) && AccountOf(trace, id).tally.route == route
  {
    hide Tallied, Leads, Earned;
    var v, head: nat, spoilt :| (r.Response? ==> head <= |r.body|) && given == Given(v)
                               && Over(AccountOf(trace, id), p, route, r, isLast, stream, responses, v, head, id, spoilt);
    TalliedDemotions(p, route, r, isLast, stream, responses, v, head, spoilt);
    OnceExactlyWhen(p, r, isLast, stream, v, head);
    RouteKept(p, route, r, isLast, stream, responses, v, head, spoilt);
  }

  lemma RouteKept(p: Policy, route: Route, r: Upstream, isLast: bool, stream: bool, responses: bool, v: Verdict, head: nat, spoilt: Option<nat>)
    requires !r.NoToken? && (r.Response? ==> head <= |r.body|)
    ensures Tallied(p, route, r, isLast, stream, responses, v, head, spoilt).route == route
  {
  }

  lemma NoneAccounted(trace: seq<Note>, first: nat, p: Policy, attempts: seq<Route>, meets: seq<Upstream>, stream: bool, responses: bool)
    requires |meets| == |attempts|
    ensures AllAccounted(trace, first, p, attempts, meets, 0, stream, responses)
  {
  }

  /** A skipped route charges nothing. */
  lemma SkippedAccounted(trace: seq<Note>, first: nat, p: Policy, attempts: seq<Route>, meets: seq<Upstream>, n: nat, stream: bool, responses: bool)
    requires n < |meets| == |attempts| && meets[n].NoToken? && AllAccounted(trace, first, p, attempts, meets, n, stream, responses)
    ensures AllAccounted(trace, first, p, attempts, meets, n + 1, stream, responses)
  {
  }

  lemma OneMoreAccounted(before: seq<Note>, after: seq<Note>, first: nat, p: Policy, attempts: seq<Route>, meets: seq<Upstream>, n: nat, stream: bool, responses: bool)
    requires n < |meets| == |attempts| && !meets[n].NoToken? && AllAccounted(before, first, p, attempts, meets, n, stream, responses)
    requires forall x: nat | x != first + Charged(meets[..n]) :: AccountOf(after, x) == AccountOf(before, x)
    ensures AllAccounted(after, first, p, attempts, meets, n, stream, responses)
    ensures ReportedAs(AccountOf(after, first + Charged(meets[..n])), p, attempts[n], meets[n], n == |meets| - 1, stream, responses,
                       None, first + Charged(meets[..n])) ==>
              AllAccounted(after, first, p, attempts, meets, n + 1, stream, responses)
  {
    hide ReportedAs, AccountOf, Charged;
    forall i | 0 <= i < n && !meets[i].NoToken?
      ensures AccountOf(after, first + Charged(meets[..i])) == AccountOf(before, first + Charged(meets[..i]))
    {
      ChargedRises(meets, i, n);
    }
  }

  lemma {:induction false} ChargedRises(meets: seq<Upstream>, i: nat, n: nat)
    requires i < n <= |meets| && !meets[i].NoToken?
    ensures Charged(meets[..i]) < Charged(meets[..n])
  {
    assert meets[..n][..n - 1] == meets[..n - 1];
    if i < n - 1 { ChargedRises(meets, i, n - 1); }
  }

  /** Attempts with a token are charged; the others are skipped before any charge. */
  function Charged(meets: seq<Upstream>): nat {
    if meets == [] then 0 else Charged(meets[..|meets| - 1]) + if meets[|meets| - 1].NoToken? then 0 else 1
  }

  /**
   `_forward`: it goes on exactly as long as the policy passes attempts over, and the caller gets the
   reply of the first one that is not, byte for byte and in order, or the error that its failure calls
   for; a 503 of the proxy's own if there is none.  Each attempt with a token up to there is charged, on
   its own route, and reported once as what it came to; nothing is reported of any other.
   */
  method ForwardRequest(t: Telemetry, p: Policy, attempts: seq<Route>, meets: seq<Upstream>, stream: bool, responses: bool)
    returns (answer: Answer, ghost final: nat)
    requires |meets| == |attempts| && t.Valid()
    modifies t
    ensures t.Valid() && Went(p, meets, stream, answer, final, t.drawn - 1)
    ensures t.drawn - old(t.drawn) == Charged(meets[..if final < |meets| then final + 1 else |meets|])
    ensures AllAccounted(t.trace, old(t.drawn), p, attempts, meets, final, stream, responses)
    ensures final < |meets| ==>
              ReportedAs(AccountOf(t.trace, t.drawn - 1), p, attempts[final], meets[final], final == |meets| - 1, stream, responses, Some(answer), t.drawn - 1)
    ensures forall id: nat | id < old(t.drawn) :: AccountOf(t.trace, id) == old(AccountOf(t.trace, id))
  {
    hide AccountOf, AllAccounted, Over, ReportedAs, Concluding, PassedOver, Leads;
    final := |attempts|;
    var i := 0;
    NoneAccounted(t.trace, t.drawn, p, attempts, meets, stream, responses);
    while i < |attempts|
      invariant i <= |attempts| && final == |attempts|
      invariant t.Valid() && t.drawn == old(t.drawn) + Charged(meets[..i]) && Charged(meets[..i]) <= i
      invariant AllAccounted(t.trace, old(t.drawn), p, attempts, meets, i, stream, responses)
      invariant forall j | 0 <= j < i :: PassedOver(p, meets[j], j == |meets| - 1, stream)
      invariant forall id: nat | id < old(t.drawn) :: AccountOf(t.trace, id) == old(AccountOf(t.trace, id))
    {
      assert meets[..i + 1][..i] == meets[..i];
      if !meets[i].NoToken? {
        ghost var trace, id := t.trace, t.drawn;
        var v;
        ghost var head, spoilt;
        v, head, spoilt := Try(t, p, attempts[i], meets[i], i == |attempts| - 1, stream, responses);
        OverMeans(AccountOf(t.trace, id), p, attempts[i], meets[i], i == |attempts| - 1, stream, responses, v, head, id, spoilt);
        OneMoreAccounted(trace, t.trace, old(t.drawn), p, attempts, meets, i, stream, responses);
        if v.Answered? {
          final := i;
          return v.answer, final;
        }
      } else {
        SkippedAccounted(t.trace, old(t.drawn), p, attempts, meets, i, stream, responses);
        TokenlessPassed(p, meets[i], i == |attempts| - 1, stream);
      }
      i := i + 1;
    }
    answer := Refusal(503);
  }

  lemma TokenlessPassed(p: Policy, r: Upstream, isLast: bool, stream: bool)
    requires r.NoToken?
    ensures PassedOver(p, r, isLast, stream)
  {
  }

  lemma OverMeans(a: Account, p: Policy, route: Route, r: Upstream, isLast: bool, stream: bool, responses: bool, v: Verdict, head: nat, id: nat, spoilt: Option<nat>)
    requires !r.NoToken? && (r.Response? ==> head <= |r.body|)
    requires Over(a, p, route, r, isLast, stream, responses, v, head, id, spoilt)
    ensures ReportedAs(a, p, route, r, isLast, stream, responses, Given(v), id)
    ensures if v.Answered? then Concluding(p, r, isLast, stream, v.answer, id) else PassedOver(p, r, isLast, stream)
  {
    LedOn(p, r, isLast, stream, v, head, id);
    hide Tallied, Leads, Concluding, PassedOver;
  }

  // ---- what the caller can count on --------------------------------------------------------------

  /** Nothing in sight will be taken for a refusal, and nothing breaks before the caller has the stream. */
  ghost predicate Plain(p: Policy, r: Upstream, isLast: bool, stream: bool) {
    !Streams(p, r, isLast, stream)
    || !p.probing || (r.ending == Eof && forall k | 0 <= k <= |r.body| :: !Refused(Whole(r.body[..k]), p.markers))
  }

  /**
   The first attempt the policy does not pass over is the one the caller hears from.  If every attempt
   before it is passed over without being streamed, and it is itself plain, the request ends there, with
   its bytes, its timeout, its failed connection or its broken body.
   */
  lemma FirstToAnswer(p: Policy, meets: seq<Upstream>, stream: bool, a: Answer, final: nat, id: int, i: nat)
    requires Went(p, meets, stream, a, final, id) && i < |meets|
    requires forall j | 0 <= j < i :: !Streams(p, meets[j], j == |meets| - 1, stream) && Retried(p, meets[j], j == |meets| - 1)
    requires var isLast := i == |meets| - 1;
             Plain(p, meets[i], isLast, stream) && (Streams(p, meets[i], isLast, stream) || !Retried(p, meets[i], isLast))
    ensures final == i
    ensures !Streams(p, meets[i], i == |meets| - 1, stream) ==> a == Due(meets[i], id)
    ensures Streams(p, meets[i], i == |meets| - 1, stream) ==>
              a.Streamed? && a.attempt == id && Whole(a.sent) <= Whole(meets[i].body)
              && (a.ended.Some? ==> Whole(a.sent) == Whole(meets[i].body))
  {
    hide PassedOver, Concluding, Retried, Streams, Plain, StreamComes;
    PlainStops(p, meets[i], i == |meets| - 1, stream);
    if final < |meets| { AnsweredMeans(p, meets[final], final == |meets| - 1, stream, a, id); }
    assert final <= i;
    if final == i && Streams(p, meets[i], i == |meets| - 1, stream) { PlainStream(p, meets[i], i == |meets| - 1, stream, a, id); }
  }

  lemma PlainStops(p: Policy, r: Upstream, isLast: bool, stream: bool)
    requires Plain(p, r, isLast, stream) && (Streams(p, r, isLast, stream) || !Retried(p, r, isLast))
    ensures !PassedOver(p, r, isLast, stream)
  {
    hide Refused, Whole;
  }

  lemma AnsweredMeans(p: Policy, r: Upstream, isLast: bool, stream: bool, a: Answer, id: nat)
    requires Concluding(p, r, isLast, stream, a, id)
    ensures Streams(p, r, isLast, stream) || (!Retried(p, r, isLast) && !r.NoToken? && a == Due(r, id))
  {
    hide Refused, Whole;
  }

  lemma PlainStream(p: Policy, r: Upstream, isLast: bool, stream: bool, a: Answer, id: nat)
    requires Streams(p, r, isLast, stream) && Plain(p, r, isLast, stream) && Concluding(p, r, isLast, stream, a, id)
    ensures a.Streamed? && a.attempt == id && Whole(a.sent) <= Whole(r.body) && (a.ended.Some? ==> Whole(a.sent) == Whole(r.body))
  {
    hide Refused, Whole;
  }

  /** The proxy's own 503 means that every attempt was passed over, and nothing else does. */
  lemma ExhaustedExactlyWhen(p: Policy, meets: seq<Upstream>, stream: bool, a: Answer, final: nat, id: int)
    requires Went(p, meets, stream, a, final, id)
    ensures a == Refusal(503) <==> final == |meets|
    ensures a == Refusal(503) ==> forall i | 0 <= i < |meets| :: PassedOver(p, meets[i], i == |meets| - 1, stream)
    ensures (forall i | 0 <= i < |meets| :: !Streams(p, meets[i], i == |meets| - 1, stream) && Retried(p, meets[i], i == |meets| - 1)) ==>
              a == Refusal(503)
  {
    hide Refused, Whole, PassedOver, Retried;
    if final < |meets| { NotExhausted(p, meets[final], final == |meets| - 1, stream, a, id); }
  }

  lemma NotExhausted(p: Policy, r: Upstream, isLast: bool, stream: bool, a: Answer, id: nat)
    requires Concluding(p, r, isLast, stream, a, id)
    ensures a != Refusal(503) && (Streams(p, r, isLast, stream) || !Retried(p, r, isLast))
  {
    hide Refused, Whole;
  }

  /** The proxy's other errors are those of the attempt that ended the request, as its failure and the policy call for. */
  lemma ErrorsMean(p: Policy, meets: seq<Upstream>, stream: bool, a: Answer, final: nat, id: int)
    requires Went(p, meets, stream, a, final, id) && final < |meets|
    ensures var r, isLast := meets[final], final == |meets| - 1;
            && (a == Refusal(502) <==> r.SendBroken?)
            && (r.SendBroken? ==> !p.retryOnTransport) && (r.SendStalled? ==> !p.retryOnTimeout)
            && (a == Escaped <==> r.Response? && r.ending == Broken && !Streams(p, r, isLast, stream))
            && (a == Refusal(504) ==> r.SendStalled? || (r.Response? && r.ending == Stalled))
            && (r.SendStalled? || (r.Response? && r.ending == Stalled && !Streams(p, r, isLast, stream)) ==> a == Refusal(504))
            && (r.Response? && r.ending == Stalled && !Streams(p, r, isLast, stream) ==> isLast || !p.retryOnTimeout)
            && (a.Refusal? ==> a.status in {502, 504})
  {
    hide Refused, Whole;
    assert Concluding(p, meets[final], final == |meets| - 1, stream, a, id);
  }

  /**
   Failover, said of two routes.  With a plain reply waiting on the second route the caller gets that
   reply exactly when the first has no token, or times out or loses its connection under a policy that
   retries this, or is read to the end of a reply that refuses by its status or by a 200 that names a
   time to come back.
   */
  lemma FailsOverExactlyWhen(p: Policy, r: Upstream, status: int, body: seq<Bytes>, a: Answer, final: nat, id: int)
    requires Went(p, [r, Response(status, None, body, Eof)], false, a, final, id)
    ensures var second := id >= 0 && a == Buffered(id, status, Whole(body)) && final == 1;
            second <==>
              || r.NoToken?
              || (r.SendStalled? && p.retryOnTimeout) || (r.SendBroken? && p.retryOnTransport)
              || (r.Response? && r.ending == Stalled && p.retryOnTimeout)
              || (r.Response? && r.ending == Eof && (r.status in p.retryOnStatus || (r.status == 200 && r.retryAfter.Some?)))
    ensures final == 0 ==> id >= 0 && a == match r
      case SendStalled => Refusal(504)
      case SendBroken => Refusal(502)
      case Response(s, _, b, ending) => if ending == Eof then Buffered(id, s, Whole(b)) else if ending == Stalled then Refusal(504) else Escaped
      case NoToken => Refusal(503)
  {
    hide Whole;
    var meets := [r, Response(status, None, body, Eof)];
    assert meets[0] == r && meets[1] == Response(status, None, body, Eof);
    assert final > 0 ==> PassedOver(p, meets[0], false, false);
    PlainStops(p, meets[1], true, false);
  }

  /**
   When an attempt has its one success.  Read to its end: a status below 400 that is not to be retried,
   with no refusal in the body.  Streamed: not refused before the relay, and the stream completed with
   no refusal or error event so far, or came to its end clean where no completion is announced.
   */
  lemma SuccessExactlyWhen(p: Policy, route: Route, r: Upstream, isLast: bool, stream: bool, responses: bool, v: Verdict, head: nat, spoilt: Option<nat>)
    requires !r.NoToken? && (r.Response? ==> head <= |r.body|)
    ensures var t := Tallied(p, route, r, isLast, stream, responses, v, head, spoilt);
            if r.Response? && Streams(p, r, isLast, stream) then
              t.successes == 1 <==>
                && v.Answered? && v.answer.Streamed? && !Throttled(r) && !Refused(Whole(r.body[..head]), p.markers)
                && var sent := v.answer.sent;
                   ((exists k | 0 < k <= |sent| ::
                       var w := Watched(sent[..k], p.markers);
                       w.progress.completed && !w.limited && (spoilt.None? || k <= spoilt.value))
                    || (v.answer.ended == Some(Eof) && !responses && spoilt.None? && !Watched(sent, p.markers).limited))
            else
              t.successes == 1 <==>
                && r.Response? && r.ending == Eof && r.status < 400 && r.status !in p.retryOnStatus
                && (r.status == 200 ==> r.retryAfter.None? && !Refused(Whole(r.body), p.markers))
  {
    hide Watched, Refused, Whole, Total;
    if r.Response? && Streams(p, r, isLast, stream) && v.Answered? && v.answer.Streamed? {
      PraiseMeans(p, v.answer.sent, spoilt);
      hide Praise;
    }
  }

  /**
   What else is reported.  A timeout exactly when the attempt, its body, the probe or the relay timed
   out; the causes of its demotions by status; and the cost that a reply read to its end states, or that
   a relayed stream had stated by its success or its end.
   */
  lemma ReportsMean(p: Policy, route: Route, r: Upstream, isLast: bool, stream: bool, responses: bool, v: Verdict, head: nat, spoilt: Option<nat>, id: nat)
    requires !r.NoToken? && (r.Response? ==> head <= |r.body|) && Leads(p, r, isLast, stream, v, head, id)
    ensures var t := Tallied(p, route, r, isLast, stream, responses, v, head, spoilt);
            && t.route == route && t.statuses == (if r.Response? then [r.status] else [])
            && t.timeouts == (if r.SendStalled? || (r.Response? && r.ending == Stalled
                                 && (Streams(p, r, isLast, stream) ==> v.Answered? && (v.answer.Streamed? ==> v.answer.ended.Some?)))
                              then 1 else 0)
            && (r.Response? && r.ending == Eof && v.Answered? && v.answer.Buffered? ==>
                  t.cost == if Total(Whole(r.body)) == Some(0) then None else Total(Whole(r.body)))
            && (v.Answered? && v.answer.Streamed? && t.successes == 0 ==>
                  t.cost == var total := Watched(v.answer.sent, p.markers).total; if total == Some(0) then None else total)
            && (r.Response? && r.status == 200 && r.retryAfter.Some? ==> t.demotions == [Status(429)])
            && (r.Response? && r.status != 200 ==> t.demotions == if r.status in p.retryOnStatus then [Status(r.status)] else [])
            && (r.SendBroken? ==> t.demotions == [Transport]) && (r.SendStalled? ==> t.demotions == [])
            && (r.Response? && r.status == 200 && r.retryAfter.None? && !stream && 200 !in p.retryOnStatus ==>
                  t.demotions == if r.ending == Eof && Refused(Whole(r.body), p.markers) then [Status(429)] else [])
            && (r.Response? && r.status == 200 && r.retryAfter.None? && stream && 200 !in p.retryOnStatus && v.Answered? && v.answer.Streamed? ==>
                  t.demotions == if SawRefusal(p, r, head, v.answer.sent) then [Status(429)] else [])
            && (r.Response? && r.status == 200 && r.retryAfter.None? && stream && 200 !in p.retryOnStatus && !v.Answered? ==>
                  t.demotions == if Refused(Whole(r.body[..head]), p.markers) then [Status(429)] else [Transport])
  {
    hide Watched, Refused, Whole, Total, Praise;
  }

  // ---- the one exception -----------------------------------------------------------------------

  /**
   Both ways to be demoted twice when 200 is a status to retry: a plain stream relayed to its end that
   carries a refusal, and one whose connection breaks in the probe and that is never relayed.
   */
  method TwiceDemoted(t: Telemetry, p: Policy, route: Route, marker: Bytes) returns (v: Verdict)
    requires t.Valid() && p.markers == [marker] && 0 < |marker| <= OVERLAP + 1
    modifies t
    ensures v.Answered? && v.answer.Streamed? && v.answer.ended.Some? ==>
              AccountOf(t.trace, old(t.drawn)).Closed?
              && AccountOf(t.trace, old(t.drawn)).tally.demotions == if p.Strict() then [Status(429)] else [Status(200), Status(429)]
  {
    ghost var head, spoilt;
    var r := Response(200, None, [marker], Eof);
    v, head, spoilt := Try(t, p, route, r, true, true, false);
    TalliedDemotions(p, route, r, true, true, false, v, head, spoilt);
    hide Tallied;
    if v.Answered? && v.answer.Streamed? { SeenIsThere(p, r, head, v.answer.sent); }
    assert [marker][..0] == [] && Whole([marker]) == marker;
    assert StartsAt(marker, 0, marker);
    assert p.markers[0] == marker && Heeded(p.markers, 0);
    assert Refused(marker, p.markers);
  }

  method TwiceUnrelayed(t: Telemetry, p: Policy, route: Route) returns (v: Verdict)
    requires t.Valid()
    modifies t
    ensures v.GiveUp? ==> AccountOf(t.trace, old(t.drawn)).Closed?
                          && AccountOf(t.trace, old(t.drawn)).tally.demotions == if p.Strict() then [Transport] else [Status(200), Transport]
  {
    ghost var head, spoilt;
    var r := Response(200, None, [], Broken);
    v, head, spoilt := Try(t, p, route, r, true, true, false);
    TalliedDemotions(p, route, r, true, true, false, v, head, spoilt);
    hide Tallied;
  }
}
