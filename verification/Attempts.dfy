/**
 What serving reports about each upstream attempt (`Telemetry`, `Attempt`): a trace of notes, and
 for one attempt the account those notes add up to.
 */
module Attempts {
  import opened Prelude

  type Route = string

  /** Why a route is demoted: the status it answered, or that the connection failed. */
  datatype Cause = Status(code: int) | Transport

  datatype Note =
    | Dispatched(id: nat, route: Route)
    | Observed(id: nat, status: int)
    | Demoted(id: nat, cause: Cause)
    | TimedOut(id: nat)
    | Used(id: nat, tokens: nat)
    | Succeeded(id: nat)
    | Finished(id: nat)

  /**
   What an attempt's notes come to: its route, the statuses observed, the causes of its demotions, its
   successes and timeouts, the cost last reported; `late` says that a success followed a demotion.
   */
  datatype Tally = Tally(route: Route, statuses: seq<int>, demotions: seq<Cause>, successes: nat, timeouts: nat, cost: Option<nat>, late: bool)

  /**
   An attempt's account.  `Wrong`: something was reported out of turn, before the dispatch, after the
   end, or a second dispatch.
   */
  datatype Account =
    | Unknown
    | Open(tally: Tally)
    | Closed(tally: Tally)
    | Wrong

  function Counted(t: Tally, n: Note): Tally {
    match n
    case Observed(_, status) => t.(statuses := t.statuses + [status])
    case Demoted(_, cause) => t.(demotions := t.demotions + [cause])
    case TimedOut(_) => t.(timeouts := t.timeouts + 1)
    case Used(_, tokens) => t.(cost := Some(tokens))
    case Succeeded(_) => t.(successes := t.successes + 1, late := t.late || t.demotions != [])
    case _ => t
  }

  function Reported(a: Account, n: Note): Account {
    match n
    case Dispatched(_, route) => if a.Unknown? then Open(Tally(route, [], [], 0, 0, None, false)) else Wrong
    case Finished(_) => if a.Open? then Closed(a.tally) else Wrong
    case _ => if a.Open? then Open(Counted(a.tally, n)) else Wrong
  }

  function AccountOf(trace: seq<Note>, id: nat): Account {
    if trace == [] then Unknown
    else
      var a := AccountOf(trace[..|trace| - 1], id);
      if trace[|trace| - 1].id == id then Reported(a, trace[|trace| - 1]) else a
  }

  lemma Noted(trace: seq<Note>, n: Note)
    ensures AccountOf(trace + [n], n.id) == Reported(AccountOf(trace, n.id), n)
    ensures forall id | id != n.id :: AccountOf(trace + [n], id) == AccountOf(trace, id)
  {
    assert (trace + [n])[..|trace|] == trace;
  }

  /** What a closed account says about its notes. */
  lemma {:induction false} ClosedMeans(trace: seq<Note>, id: nat)
    ensures var a := AccountOf(trace, id);
            && (a.Unknown? <==> forall i | 0 <= i < |trace| :: trace[i].id != id)
            && (a.Closed? ==> exists i :: FinalNote(trace, id, i))
            && ((a.Open? || a.Closed?) && !a.tally.late ==> NoSuccessAfterDemotion(trace, id))
            && (a.Open? ==> forall i | 0 <= i < |trace| && trace[i].id == id :: !trace[i].Finished?)
  {
    if trace != [] {
      var front, n := trace[..|trace| - 1], trace[|trace| - 1];
      ClosedMeans(front, id);
      var b := AccountOf(front, id);
      assert forall i | 0 <= i < |front| :: trace[i] == front[i];
      if n.id == id && n.Finished? && b.Open? {
        assert FinalNote(trace, id, |trace| - 1);
      } else if n.id != id && b.Closed? {
        var i :| FinalNote(front, id, i);
        assert FinalNote(trace, id, i);
      }
      if n.id == id && n.Succeeded? && b.Open? && b.tally.demotions == [] {
        NoDemotion(front, id);
      }
    }
  }

  /** The causes an attempt was demoted for, in order. */
  function Causes(trace: seq<Note>, id: nat): seq<Cause> {
    if trace == [] then []
    else Causes(trace[..|trace| - 1], id) + if trace[|trace| - 1].id == id && trace[|trace| - 1].Demoted? then [trace[|trace| - 1].cause] else []
  }

  function Successes(trace: seq<Note>, id: nat): nat {
    if trace == [] then 0
    else Successes(trace[..|trace| - 1], id) + if trace[|trace| - 1].id == id && trace[|trace| - 1].Succeeded? then 1 else 0
  }

  function Timeouts(trace: seq<Note>, id: nat): nat {
    if trace == [] then 0
    else Timeouts(trace[..|trace| - 1], id) + if trace[|trace| - 1].id == id && trace[|trace| - 1].TimedOut? then 1 else 0
  }

  /** The account counts the notes. */
  lemma {:induction false} AccountCounts(trace: seq<Note>, id: nat)
    ensures var a := AccountOf(trace, id);
            && (a.Open? || a.Closed? ==>
                  a.tally.demotions == Causes(trace, id) && a.tally.successes == Successes(trace, id)
                  && a.tally.timeouts == Timeouts(trace, id))
            && (a.Unknown? ==> Causes(trace, id) == [] && Successes(trace, id) == Timeouts(trace, id) == 0)
  {
    if trace != [] { AccountCounts(trace[..|trace| - 1], id); }
  }

  /** The attempt's only finish, and its last note. */
  ghost predicate FinalNote(trace: seq<Note>, id: nat, i: int) {
    && 0 <= i < |trace| && trace[i] == Finished(id)
    && (forall j | i < j < |trace| :: trace[j].id != id)
    && (forall j | 0 <= j < i && trace[j].id == id :: !trace[j].Finished?)
  }

  ghost predicate NoSuccessAfterDemotion(trace: seq<Note>, id: nat) {
    forall i, j | 0 <= i < j < |trace| && trace[i].id == id && trace[j].id == id && trace[i].Demoted? :: !trace[j].Succeeded?
  }

  lemma {:induction false} NoDemotion(trace: seq<Note>, id: nat)
    requires var a := AccountOf(trace, id); a.Unknown? || ((a.Open? || a.Closed?) && a.tally.demotions == [])
    ensures forall i | 0 <= i < |trace| && trace[i].id == id :: !trace[i].Demoted?
  {
    if trace != [] { NoDemotion(trace[..|trace| - 1], id); }
  }

  // ---- the reporters ----------------------------------------------------------------------

  class Attempt {
    const id: nat
    var streaming: bool
    var finished: bool
    var success: bool
    var usage: Option<nat>

    constructor (id: nat)
      ensures this.id == id && !streaming && !finished && !success && usage == None
    {
      this.id, streaming, finished, success, usage := id, false, false, false, None;
    }
  }

  class Telemetry {
    var trace: seq<Note>
    var drawn: nat

    /** Ids are drawn once; the flags of a live attempt match its account. */
    ghost predicate Valid() reads this { forall i | 0 <= i < |trace| :: trace[i].id < drawn }

    ghost predicate Tracks(e: Attempt, t: Tally)
      reads this, e
    {
      && e.id < drawn
      && AccountOf(trace, e.id) == (if e.finished then Closed(t) else Open(t))
      && t.successes == (if e.success then 1 else 0) && t.cost == e.usage
    }

    /** Every other attempt's account is as it was. */
    twostate predicate OnlyAbout(id: nat)
      reads this
    {
      drawn == old(drawn) && forall x | x != id :: AccountOf(trace, x) == old(AccountOf(trace, x))
    }

    method Add(n: Note)
      requires Valid() && n.id < drawn
      modifies this`trace
      ensures Valid() && OnlyAbout(n.id) && AccountOf(trace, n.id) == Reported(old(AccountOf(trace, n.id)), n)
    {
      Noted(trace, n);
      trace := trace + [n];
    }

    method Charge(route: Route) returns (e: Attempt)
      requires Valid()
      modifies this
      ensures Valid() && fresh(e) && e.id == old(drawn) && drawn == old(drawn) + 1
      ensures Tracks(e, Tally(route, [], [], 0, 0, None, false)) && !e.finished && !e.success && !e.streaming
      ensures forall x | x != e.id :: AccountOf(trace, x) == old(AccountOf(trace, x))
    {
      e := new Attempt(drawn);
      Unheard(trace, drawn);
      Noted(trace, Dispatched(drawn, route));
      trace := trace + [Dispatched(drawn, route)];
      drawn := drawn + 1;
    }

    method Observe(e: Attempt, status: int, ghost t: Tally)
      requires Valid() && Tracks(e, t) && !e.finished
      modifies this`trace
      ensures Valid() && Tracks(e, t.(statuses := t.statuses + [status])) && OnlyAbout(e.id)
    {
      Add(Observed(e.id, status));
    }

    method Demote(e: Attempt, cause: Cause, ghost t: Tally)
      requires Valid() && Tracks(e, t) && !e.finished
      modifies this`trace
      ensures Valid() && Tracks(e, t.(demotions := t.demotions + [cause])) && OnlyAbout(e.id)
    {
      Add(Demoted(e.id, cause));
    }

    method NoteTimeout(e: Attempt, ghost t: Tally)
      requires Valid() && Tracks(e, t) && !e.finished
      modifies this`trace
      ensures Valid() && Tracks(e, t.(timeouts := t.timeouts + 1)) && OnlyAbout(e.id)
    {
      Add(TimedOut(e.id));
    }

    /** `settle`: a changed total is reported, a repeated one is not. */
    method Settle(e: Attempt, total: Option<nat>, ghost t: Tally)
      requires Valid() && Tracks(e, t) && !e.finished
      modifies this`trace, e`usage
      ensures Valid() && Tracks(e, t.(cost := if total.Some? && total.value > 0 then total else t.cost)) && OnlyAbout(e.id)
    {
      if total.Some? && total.value != 0 && e.usage != total {
        e.usage := total;
        Add(Used(e.id, total.value));
      }
    }

    /** `note_success`: once. */
    method NoteSuccess(e: Attempt, ghost t: Tally)
      requires Valid() && Tracks(e, t) && !e.finished
      modifies this`trace, e`success
      ensures Valid() && Tracks(e, t.(successes := 1, late := t.late || (!old(e.success) && t.demotions != []))) && OnlyAbout(e.id)
    {
      if !e.success {
        e.success := true;
        Add(Succeeded(e.id));
      }
    }

    /** `finish`: once, whoever asks. */
    method Finish(e: Attempt, ghost t: Tally)
      requires Valid() && Tracks(e, t)
      modifies this`trace, e`finished
      ensures Valid() && Tracks(e, t) && e.finished && OnlyAbout(e.id)
    {
      if !e.finished {
        e.finished := true;
        Add(Finished(e.id));
      }
    }
  }

  lemma {:induction false} Unheard(trace: seq<Note>, id: nat)
    requires forall i | 0 <= i < |trace| :: trace[i].id != id
    ensures AccountOf(trace, id) == Unknown
  {
    if trace != [] { Unheard(trace[..|trace| - 1], id); }
  }
}
