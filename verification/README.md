# A verified model of the routing exchange, stream watcher and session bindings

The proxy is split into a *serving* process, which forwards requests and records raw observations,
and a *routing* process, which replays those observations into per-route quota state and publishes
route mappings. They meet in one SQLite file. This project models that exchange and the smaller
protocols around it in Dafny and proves what they promise, over every run rather than per call.

| file | part of the system |
|---|---|
| `Prelude.dfy` | options, maxima, sums |
| `Ledger.dfy`, `Penalties.dfy`, `Quota.dfy`, `Selection.dfy`, `Levels.dfy` | one route's dispatch ledger, failure penalty and learned capacity; drawing an attempt order; event severities |
| `EngineModel.dfy`, `EngineFacts.dfy`, `Histories.dfy`, `Effects.dfy`, `Recovery.dfy` | the routing engine as a value: what a journal record, a snapshot, ageing and a restart do to it; its invariants; its ledgers, penalties and pending attempts over whole histories; what it counts and what it says; crash transparency |
| `EngineObject.dfy`, `Ordering.dfy` | the same engine as mutable objects, with pending attempts that alias ledger entries; the attempt order and the targets published from its routes |
| `Journal.dfy`, `StoreObject.dfy` | the exchange file: each transaction as a function on its tables, and the connection object that runs them |
| `Exchange.dfy`, `Pass.dfy` | the whole exchange as a step system: appends, replay, publication, expiry, crashes, restarts; one pass of the replay loop on the engine and connection objects |
| `Identity.dfy`, `Skipping.dfy` | attempt ids over whole runs; publications that skip the checkpoint |
| `Producer.dfy` | the serving side's queue of observations |
| `Scan.dfy`, `Framing.dfy`, `StreamWatch.dfy` | scanning a response stream cut into arbitrary chunks |
| `Attempts.dfy`, `Forward.dfy` | attempt accounting and the retry loop against an arbitrary upstream and client |
| `Affinity.dfy`, `AffinityObject.dfy` | durable bindings of session families to endpoints, shared by several workers |
| `Delivery.dfy` | delivering the event feed to a poller |
| `Bar.dfy` | sharing out the cells of a stacked bar |

`dafny verify dfyconfig.toml` checks everything.

## How to read it

Operations that update state in the source are methods here, on classes with the source's fields,
and each is proved against a function of the old state. The main results are lemmas about those
functions and about runs of them: `Exchange.ExactlyOnce`, `Exchange.GapUnreachable`,
`Exchange.NumbersNameEvents`, `Recovery.CrashTransparent` with `EngineObject.RestartAgrees`,
`EngineFacts.LearnedCapacity`, `Histories.EngineRefinesFull` with `Histories.EngineRpmExactlyWhen`,
`Histories.ParkedExactlyWhen`, `Histories.PendingExactlyWhen`,
`Penalties.LooksShowExactlyWhen`, `Identity.EveryIdentity`, `Skipping.SkippedWriteLosesNothing`,
`Ordering.WeightedTargets`, `Pass.CatchUp`, `StreamWatch.RefusalIsChunkingFree`,
`StreamWatch.TotalIsChunkingFree` with `StreamWatch.TotalLostExactlyWhen`,
`StreamWatch.NumberRecorded`, `StreamWatch.CompletionNotMissed`, `Forward.ForwardRequest` with
`Forward.FirstToAnswer` and `Forward.FailsOverExactlyWhen`, `Affinity.BindingSafety` with
`Affinity.UseKeepsBinding`,
`AffinityObject.SessionAffinity.Resolve`, `Delivery.PollConserves`, `Delivery.RestartRelabels`,
`Bar.Allocate`.

Assumptions: each SQLite transaction is one atomic, serial step and AUTOINCREMENT hands out the next
number; there is one routing process at a time; attempt ids are never drawn twice; digests do not
collide; arithmetic is over the reals and integers are unbounded (Python's are too); a penalty
p in (0, 1] is carried by the exponent x with p = 2^-x, and where a weight needs the number, any
non-negative function of the penalty may stand for it. A byte is a Dafny character.

## What the code does that its documentation does not say

- `README.md:1078-1118` of the repository describes outside usage reclaimed linearly over time. The
  code has no such law: `other_rpm` changes only at a throttle and at a success, and the model
  follows the code.
- `tui/layout.py:57-59` says fractions of less than a whole leave the bar proportionally short. The
  code hands every spare cell to a positive fraction first: `Bar.ShortOfWhole` shows a fraction owed
  exactly n cells getting n + 1, and `Bar.Allocate` states the exact sum.
- The 48-byte overlap finds every marker of up to 49 bytes and no longer one for certain
  (`StreamWatch.MarkerLimit`). An empty marker is never reported and hides every marker listed after
  it. A stated total of 50 bytes or more can be cut short or missed, and then what was recorded
  before it stays (`StreamWatch.Changeable`, `StreamWatch.TotalLostExactlyWhen`).
- Whether a completion is reported can depend on how the stream is cut, in one direction: none announced
  in up to 49 bytes is missed, but a line that only begins with the words can be taken for one
  (`StreamWatch.CompletionInvented`).
- An attempt is demoted twice exactly when 200 is listed in `retry_on_status`, a 200 without the
  throttle header answers a streaming request on the last route, and the stream then shows a refusal
  or breaks off while it is probed (`Forward.OnceExactlyWhen`; relayed in `Forward.TwiceDemoted`, never
  relayed in `Forward.TwiceUnrelayed`). No attempt is demoted more often.
- The engine's clock steps back: a snapshot sets it to the present, and the next pass consumes records
  that were stamped before and still on their way. Rates do not suffer as long as the dispatches to a
  route come in order (`Histories.EngineRefinesFull`); where they do not, the rate falls short by exactly
  what was pruned too early (`Histories.EngineRpmExactlyWhen`, `Ledger.BackwardClockUndercounts`). A
  penalty can suffer: a snapshot may recover it beyond the time of a failure that is consumed later
  (`Penalties.EarlyLookForgives`, exactly when: `Histories.EngineLooksShowExactlyWhen`).
- A restart forgets how far aged feed events reached: it drops them without moving
  `retention_through`, unlike a snapshot. A poller may then be told "buffer_overwrite" where
  "retention" was the cause (`Delivery.RestartMislabels`); for which pollers is
  `Delivery.RestartRelabels`. The events delivered and the count missed are unaffected.
- A restart shows in a later record exactly in three cases (`Recovery.Immune`, `Recovery.ReactAged`):
  a second dispatch of an attempt that aged out, or a dispatch whose rate window reaches back past
  the restart cutoff to an entry that aged; a throttle whose attributed rate thereby differs and comes
  to another outside usage; the first success of an aged attempt. The surviving engine counts that
  success and the restarted one does not (`Recovery.StaleSuccessDiverges`). A fourth case of the
  predicate, the cost of an aged attempt whose id a newer ledger entry bears, belongs to values, which
  correct every entry with the id, and cannot arise when ids are drawn once (`Identity.CostsNeverShow`).
- The penalty leaves the range from the floor to 1 if a `weight_floor` or `demote_multiplier` above 1
  is configured, which is accepted (`Penalties.PenaltyBounded`).

## Model

| member | source | states |
|---|---|---|
| Ledger.PrunedRefinesFull | routing/quota.py:94-121 | after any run of dispatches, corrections and ageing in which dispatches come in the order of their times, the pruned ledger shows the same entries, in order and with the same costs, as a ledger of every dispatch ever made, for every window that pruning and ageing did not reach into; hence the same rates |
| Ledger.UndercountExactly | routing/quota.py:94-103 | in any run, in whatever order its times come, the pruned ledger counts fewer requests in a window than were made by exactly those that pruning and ageing took from within it |
| Histories.EngineRefinesFull | routing/quota.py:94-121 | for every history of records, snapshots, expiry and restarts, the clock stepping back included: if the dispatches to a route come in the order of their times and nothing aged that a later one counts, its ledger in the engine answers every window not reached into as a ledger of all dispatches ever made on that route would |
| Histories.EngineRpmExactlyWhen | routing/quota.py:94-103 | in every history the rate the engine sees is at most the true one, and is the true one if and only if nothing was pruned or aged from within the window |
| Histories.StepLedger | routing/engine.py:104-260 | every input of an engine does to a route's ledger the one ledger operation it stands for, or nothing |
| Ledger.BackwardClockUndercounts | routing/quota.py:94-98 | a concrete run in which a clock that steps back makes the pruned ledger undercount |
| Ledger.DispatchRpmIsMeasured | routing/quota.py:277-295 | the rate stamped on a dispatch is the rate anyone measures right after it, and positive |
| Ledger.InWindow | routing/quota.py:100-103 | counts exactly the requests and tokens dispatched inside the window |
| Ledger.InWindowByFace | routing/quota.py:105-121 | each face's slot holds that face's entries and tokens in the window, and the slots add up to the totals |
| Ledger.RpmCounts | routing/quota.py:100-103 | the rate times the window is sixty for every entry not older than the window |
| Ledger.SinceMembers | routing/quota.py:100-103 | a window shows each entry as often as the ledger holds it if it is not older than the window's start, and never otherwise |
| Ledger.DropLeadingIs | routing/quota.py:94-98 | pruning takes the front of the ledger up to the first entry that is not too old |
| Ledger.FaceMeans | routing/quota.py:105-121 | a face's numbers are those of the entries of that face |
| Penalties.LooksAreInvisible | routing/quota.py:500-567 | whatever evaluations are interleaved with a route's failures under a clock that does not step back, the penalty in force at any later instant is the one the failures alone produce |
| Penalties.LooksShowExactlyWhen | routing/quota.py:500-567 | in whatever order the times come: each failure finds the penalty its predecessors alone produced if and only if no evaluation went beyond its time while something was left to recover; then the same holds at any instant if and only if that is so for it |
| Penalties.EarlyLookForgives | routing/quota.py:500-519 | one evaluation ahead of a failure stamped earlier that forgives a penalty the failure should have met |
| Penalties.ParkedUntil | routing/quota.py:480-483 | after every run of failures and evaluations, in whatever order of times, the parking window ends at the latest of 0 and, for each failure, its time plus its Retry-After where that is positive and plus the configured seconds otherwise |
| Penalties.FailuresCompound | routing/quota.py:478-485 | n failures with nothing recovered between them multiply the penalty n times by the factor, down to the floor |
| Penalties.InForce | routing/quota.py:500-553 | the floor counts while a route is parked; h half-lives after that the penalty has been halved h times less often, up to 1, however often it was evaluated |
| Histories.ParkedExactlyWhen | routing/engine.py:223-225 | over every history of an engine: a route is parked beyond an instant if and only if some demotion of it named or implied a rest reaching beyond it |
| Ordering.RetryAfterHonoured | routing/quota.py:480-483 | in every history, snapshots, expiry and restarts included, a route demoted at t with Retry-After x is stepped over at every instant before t + x |
| Histories.EngineLooksShowExactlyWhen | routing/engine.py:180-276 | a route's penalty in the engine is the run of its demotions and of the snapshots that weigh it, so snapshots show in it exactly under that condition |
| Penalties.PenaltyBounded | routing/quota.py:478-485 | after every run of failures and evaluations the penalty lies between the floor and 1, if and only if neither configured factor exceeds 1 |
| Penalties.EffectiveBounded | routing/quota.py:541-553 | the multiplier in force is never below the floor and never above the larger of the floor and 1 |
| Penalties.ForgivenExactlyWhen | routing/quota.py:507-519 | a penalty 2^-x is fully forgiven exactly x half-lives after the parking window or the failure, whichever is later |
| Quota.WeightBounded | routing/quota.py:555-567 | for every configured floor and multiplier a route's weight lies between the floor's share of its capacity and the larger factor's; when it is positive and when negative |
| Quota.ParametersMeaning | routing/quota.py:570-585 | in capacity mode groups 0 and 1 hold only routes with no current outside usage, drawn uniformly; a route in contention is in group 2 and weighed by its capacity at most times the larger factor; elsewhere there is one group; when a weight is positive and when negative |
| Quota.FreeIsTheRest | routing/quota.py:555-567 | what is free, what others use and our own rate make up the capacity whenever the last two do not exceed it; otherwise nothing is free |
| Quota.UnflooredWeight | routing/quota.py:555-567 | at floor zero a weight is positive exactly when others' usage and our rate stay below the capacity and the multiplier is positive |
| Quota.OthersLowerWeight | routing/quota.py:555-567 | one request a minute more of others' lowers the unfloored weight by exactly the multiplier, while anything is left |
| Quota.EstimateMeans | routing/quota.py:274-275 | bytes times the learned ratio, or one token for so many characters before any was learned, and never less than one |
| Quota.CalibratedMeans | routing/quota.py:355-365 | the first ratio is taken as it is, and each later one closes three tenths of the distance |
| Quota.RatioWithin | routing/quota.py:355-365 | after any run of samples the learned ratio lies within every bounds the samples lie in |
| Quota.ContendedMeans | routing/quota.py:401-415 | outside usage and the attributed rate make up the maximum, unless the rate alone exceeds it |
| Quota.AttributedMeans | routing/quota.py:401-412 | a throttle speaks of the attempt's own rate; without one of the last dispatched; before any of the window's |
| Quota.ProvenMeans | routing/quota.py:306-329 | the maximum becomes the larger of itself and the proven rate, and outside usage is lowered exactly where maximum and rate leave it no room |
| Selection.Draw | routing/quota.py:632-638 | the drawn index is one whose prefix-sum interval holds u times the total, and its weight is positive, so the fallback index is never needed |
| Selection.DrawUnique | routing/quota.py:632-638 | no second index has the target in its interval |
| Selection.ShareIsWeightOverTotal | routing/quota.py:632-638 | the draws that select an entry form an interval of length weight over total |
| Selection.SampledIsGroupedPermutation | routing/quota.py:618-641 | sampling without replacement returns a permutation with nondecreasing groups |
| Selection.SampledDraws | routing/quota.py:618-641 | each place of a sampled order is a draw of its own out of the candidates left: in their leading group, the one whose share of the group's weight the draw falls into, or the group's first when it weighs nothing |
| Selection.Sample | routing/quota.py:618-641 | the loop that pops from the pool computes exactly that sampling |
| Ordering.Order | routing/quota.py:587-616 | from the routes' state objects at the engine's clock: all three modes return permutations; strict priority is untouched; capacity samples by the groups and weights the learned state has; under a threshold the first route neither parked nor at its load goes to the front with the rest in order, and with none it samples; routes looked at have their penalties recovered and nothing else changed |
| Ordering.BusyExactlyWhen | routing/quota.py:595-609 | a route is stepped over exactly when it is parked, or has a learned maximum and our rate and the others' reach the threshold's share of it |
| Ordering.SelectionParameters | routing/quota.py:555-585 | the two loops read off every route's state the group and weight the law gives it, recovering penalties on the way |
| Ordering.WeightedTargets | routing/engine.py:234-237 | every route of a chain is published once, with the group and weight of its learned state although ordering has already looked at it; in capacity mode the published order is itself a draw by that law |
| Ordering.CandidateMeans | routing/quota.py:555-585 | group and weight of a route in the sampling, from its fields: its maximum, others' usage, the requests of its window and the multiplier in force |
| Selection.WeightedOrder | proxy/affinity.py:42-59 | a permutation; with published weights it is the same sampling, with none the given order |
| Levels.LevelIdempotent | proxy/events.py:86-119 | normalising a saved event's level again does not change it |
| Levels.LevelMeans | proxy/events.py:86-119 | an upstream rate limit is a warning and nothing more, a routine request stays in the background, and no other event is less severe than it was said to be |
| Levels.SevereMeans | proxy/events.py:86-119 | a timeout, an exhausted request or an upstream error, a broken or 5xx response and a token that is gone are errors |
| Levels.WarningMeans | proxy/events.py:86-119 | a throttle, a demotion, a failover, a 4xx and a failed token are warnings at least |
| EngineFacts.LearnedCapacity | routing/quota.py:306-436 | over every history of observations, snapshots, ageing and restarts: a route's maximum is the larger of the one loaded and the best rate a counted success proved, and equals the saved entry; 0 <= outside usage <= maximum; positive outside usage is remembered for good; the first two groups hold only routes without outside usage |
| EngineFacts.StepExtends | routing/engine.py:91-130 | whatever happens to an engine, its feed keeps its stream, its numbers only rise and strictly increase along the feed, no old number gets new content, and ageing, snapshots and restarts only remove aged events |
| EngineFacts.ConsumeExtends | routing/engine.py:180-232 | a record adds events only under new numbers, and leaves the feed alone when it adds none |
| Histories.PendingExactlyWhen | routing/engine.py:200-220 | over every history: an attempt is pending if and only if some record dispatched it and nothing since ended it, that is no finish of it, no start or stop of its producer and no ageing past its dispatch; it is then pending with that dispatch's route and producer |
| Effects.RecordCounts | routing/engine.py:180-232 | the counters of every route after any record: what each kind of record adds, to which route, and that it adds nothing elsewhere |
| Effects.FailuresCounted | routing/quota.py:438-495 | over every history the throttles, errors and timeouts of a route are the records of it of each kind, each counted once, whatever was snapshot, aged or restarted between |
| Effects.DemoteSays | routing/engine.py:223-225 | a demotion is announced with its reason, penalty and rest under the next number; where a throttle shows outside usage, that is announced before it, with our rate and the others' making up the maximum |
| Effects.SuccessSays | routing/engine.py:230-232 | a success is announced exactly when it raises the maximum, with the old and the new one |
| Effects.OthersSay | routing/engine.py:180-232 | every other record says nothing, or what it narrates |
| Effects.EmitKeeps | routing/engine.py:68-102 | the feed keeps its newest 2000 events |
| Effects.RecordShows | routing/engine.py:180-211 | clock, cursor, producers and sessions after any record |
| Effects.CostsSettled | routing/quota.py:340-366 | in the ledger of all dispatches each entry is one dispatch, at its time and on its face, and costs the last amount reported for it, or its estimate if none was |
| Effects.OpMeans | routing/engine.py:212-229 | the operations of a route's ledger are its first dispatches, charged the estimate, and the costs reported for pending attempts |
| EngineFacts.RestoredMeans | routing/engine.py:104-130 | a restart gives back everything saved but the ledger entries and pending attempts not newer than the cutoff, and takes the new process's clock |
| EngineFacts.RestoredFeed | routing/engine.py:104-112 | of the feed it gives back exactly what is newer than the cutoff, at most the last 2000 events, with their levels named anew |
| Recovery.CrashTransparent | routing/engine.py:104-232 | for every engine, restart and later stretch of the journal: after each record the restored engine has the ledgers, pending attempts, capacities, penalties, producers, cursor and event number of the engine that never stopped, once that one ages the same history, if and only if every record is immune where it comes |
| Recovery.ReactAged | routing/engine.py:180-232 | for one record, ageing before it and ageing after it come to the same if and only if the record is immune |
| Recovery.RecentSuffixImmune | routing/engine.py:104-232 | where attempt ids are unambiguous at the restart, records newer than the cutoff by the rate window, none of which dispatches, throttles or reports the success of an attempt that had aged out, are all immune |
| Recovery.RestartInvisible | routing/engine.py:104-143 | when nothing had aged out, the restart leaves no trace at all, whatever the rest of the journal holds |
| Recovery.StaleSuccessDiverges | routing/engine.py:230-232 | a success for an aged attempt is counted by the surviving engine and not by the restarted one |
| Recovery.StampsAgreeExactlyWhen | routing/quota.py:277-289 | the restarted engine stamps a dispatch with the same rate as the other exactly when no entry of the rate window had aged out |
| Recovery.ReplayAged | proxy/retention.py:11-18 | ageing before a stretch of journal and ageing after it agree after each of its records if and only if each is immune |
| Recovery.AgedIdentity | proxy/retention.py:11-18 | ageing keeps attempt ids unambiguous and pending attempts consistent with the ledger |
| EngineObject.RouteState.Prune | routing/quota.py:94-98 | drops exactly the leading entries older than the window |
| EngineObject.RouteState.Charge | routing/quota.py:277-289 | prunes, appends one fresh entry at the rate of the window including itself, and stamps the attempt's id on it |
| EngineObject.RouteState.Demote | routing/quota.py:438-495 | tallies, attributes outside usage on a rate limit only, recovers first, then multiplies by the factor down to the floor and extends the parking window |
| EngineObject.RouteState.NoteForeign | routing/quota.py:401-415 | outside usage becomes what the attributed rate does not explain of the maximum, and contention is remembered |
| EngineObject.RouteState.NoteSuccess | routing/quota.py:306-329 | the maximum rises exactly when the proven rate beats it, and outside usage is capped by what is left |
| EngineObject.Engine.Route | routing/quota.py:219-233 | the route's one state object, created from the saved maximum on first use |
| EngineObject.Engine.Dispatch | routing/engine.py:212-220 | a dispatch of an attempt not pending counts it, charges its route and lets the pending record share the ledger's new entry; a repeated one changes nothing |
| EngineObject.Engine.Settle | routing/engine.py:228-229 | the one entry object gets its real cost, so ledger and pending record are both corrected, and the ratio is updated |
| EngineObject.Engine.Succeed | routing/engine.py:230-232 | a pending attempt's first success proves its dispatch rate; a second one changes nothing |
| EngineObject.Engine.Demote | routing/engine.py:223-225 | a demotion attributed to the attempt's own rate, with the events it emits in order |
| EngineObject.Engine.Consume | routing/engine.py:180-232 | one record updates the objects to the value the model gives, keeps every pending attempt joined to the ledger entry with its id, and takes in only new objects |
| EngineObject.Restore | routing/engine.py:104-130 | rebuilds an engine of new objects whose value is the aged checkpoint, in which each pending attempt's entry is the ledger's own object while the ledger holds it |
| EngineObject.Engine.Take | routing/engine.py:336-339 | one row on the objects: consumed if newer than the pass's cutoff, and the cursor moves to it either way |
| Pass.CatchUp | routing/engine.py:328-339 | the replay loop on the engine and connection objects, whatever number of batches it takes: the engine ends as the fold of every row up to the waterline, each consumed or passed over by age, its cursor at the waterline; the gap error is raised exactly when the rows end before the waterline and expiry did not reach it |
| EngineObject.RestartAgrees | routing/engine.py:104-143 | saving, rebuilding and replaying records that are immune agrees, on objects, with the engine that never stopped, while that engine runs on undisturbed |
| Journal.AppendIdempotent | proxy/state.py:110-125 | sending any already sent part of a stream again, alone or with what follows, leaves the journal as if each record had been sent once |
| Journal.AppendWrites | proxy/state.py:110-125 | records past the watermark become the next rows, one each, in order and as they are; other producers' watermarks stay |
| Journal.AppendOK | proxy/state.py:110-125 | appends keep the journal's invariant: rows numbered in order, no producer repeating or reordering itself, each watermark its producer's last row |
| Journal.HighwaterIsLast | proxy/state.py:127-129 | the highest watermark is the last row ever appended, compaction and expiry notwithstanding |
| Journal.ReadOK | proxy/state.py:131-136 | a batch misses no row of its range up to its end that has not expired; one of fewer than 2000 misses none at all, and an empty one means the whole range has expired |
| Journal.ExpireOK | proxy/state.py:138-170 | expiry, which goes by age, keeps the invariant: every row is present, recorded as expired or replayed; the recorded reach bounds all it deleted; no row is deleted twice |
| Delivery.ExpiredFeed | proxy/state.py:153-166 | expiry takes exactly the aged events from the stored feed and moves its reach to the last of them |
| Journal.PublishOK | proxy/state.py:193-199 | compaction removes only rows at or before the published cursor |
| Journal.CompactedExactly | proxy/state.py:196-199 | of the rows up to the published cursor exactly the oldest 2000, or all of them, are deleted, and no others |
| Journal.PublishesExactlyWhen | proxy/state.py:178-203 | the checkpoint is written unless neither cursor, nor feed, nor minute moved since the connection's last publication, the feed unless stream, reach, number, length and first event are the same; a new connection writes both |
| Journal.ChooseOldest | proxy/state.py:144-147 | picks a bounded batch of aged rows, none newer than an aged row left behind |
| StoreObject.Store.Append | proxy/state.py:110-125 | the loop over a batch performs exactly the specified append and returns the new watermark |
| StoreObject.Store.Highwater | proxy/state.py:127-129 | returns the largest row number any watermark names |
| StoreObject.Store.ReadEvents | proxy/state.py:131-136 | returns the first 2000 rows past the cursor and up to the waterline |
| StoreObject.Store.Expire | proxy/state.py:138-170 | deletes an oldest batch, records its reach and count, ages the saved checkpoint and feed in place |
| StoreObject.Store.Publish | proxy/state.py:178-203 | commits publication, changed checkpoint, changed feed and compaction together and then remembers their keys, or changes nothing |
| StoreObject.RetryIsHarmless | proxy/state.py:110-125 | a batch sent again over another connection leaves file and watermark as after the first |
| Exchange.ExactlyOnce | routing/engine.py:315-359 | after every run of appends, retries, replay, committed and failed publications, compaction, expiry, crashes and restarts, the saved state is the fold of its past into the empty engine of some launch; in that past no observation has two turns and turns come in journal order; every row up to the saved cursor is folded exactly once unless it had already aged by the cutoff of the very pass that reached it, or an expiry deleted it as aged by its own cutoff before any pass did; nothing beyond the cursor is folded |
| Exchange.ExactlyOnceInMemory | routing/engine.py:315-359 | the same for the process in memory, so a busy database costs no progress |
| Exchange.GapUnreachable | routing/engine.py:330-335 | no run reaches the telemetry gap error: an empty batch below the waterline means expiry reached the waterline |
| Exchange.CatchUp | routing/engine.py:328-342 | the replay loop, with any transactions of others before each of its own, ends, ends at the waterline read at its start, and is itself a run of the exchange |
| Exchange.PassShrinks | routing/engine.py:328-339 | every read and every row brings the pass closer to its end |
| Exchange.BeginsBelow | routing/engine.py:318-321 | a pass starts at or below its waterline, which is the last row ever appended |
| Exchange.NumbersNameEvents | routing/engine.py:91-130 | across crashes and restarts no feed number is ever published with two contents, and all publications are of one stream |
| Exchange.CommitCatchesUp | proxy/state.py:178-203 | however much of it the compact keys let it skip, a publication leaves the file at the process's cursor and feed number, with its feed up to what expiry aged |
| Skipping.SkippedWriteLosesNothing | proxy/state.py:178-203 | when a publication leaves checkpoint and feed as they are, the file and the process part at one common state, from which the process took snapshots only; the file then has its cursor, feed number, capacities and counters, every ledger entry and pending attempt it holds unless expiry aged it since, and the same penalties |
| Identity.EveryIdentity | routing/engine.py:104-130 | in every run whose journal dispatches each id once, every saved state and every running engine identifies attempts without ambiguity, so a restart can join them to ledger entries by id |
| Identity.RowsToComeFresh | routing/engine.py:212-220 | in such a run every row still to be read brings a fresh id, as the replay loop on objects asks |
| Identity.CostsNeverShow | routing/quota.py:340-366 | in such a run the cost of an attempt that aged out never meets a newer entry with its id |
| Exchange.RevisionsRise | routing/engine.py:349 | the revision moves exactly when a publication commits, by one |
| Exchange.CapacitySurvives | routing/quota.py:306-329 | in every run of the exchange, a route's maximum in the saved state is the larger of the one loaded by the launch its history begins with and the best rate that history proved, and outside usage lies between zero and it |
| Exchange.StepKeeps | routing/engine.py:315-359 | every step of serving, routing, maintenance, crash and restart keeps the exchange's invariant |
| Delivery.RestartRelabels | routing/engine.py:107-113 | a restart never changes what a poll delivers or how much it reports missed; it leaves the reasons unchanged exactly when the poll is a first load, missed nothing, is at or past the largest number the restart dropped, or the reach still known covers that number or everything missed |
| Delivery.RestartMislabels | routing/engine.py:107-113 | one engine, one restart and one poll told "overwritten" where without the restart it is told "retained" |
| Producer.Bridge.Record | proxy/bridge.py:164-172 | draws a number for every observation and queues it, or counts it as dropped when the queue is full |
| Producer.Bridge.Send | proxy/bridge.py:197-200 | the head of the queue enters the journal while the queue keeps it |
| Producer.Bridge.Acknowledge | proxy/bridge.py:201-203 | exactly the acknowledged prefix leaves the queue, so nothing acknowledged is sent again |
| Producer.Bridge.Flush | proxy/bridge.py:197-203 | with records arriving meanwhile and the acknowledgement possibly lost, every number stays in exactly one account, and an acknowledged flush shrinks the queue |
| Producer.Bridge.Drain | proxy/bridge.py:232-243 | with records still arriving and any flush failing before its commit or losing its acknowledgement, the shutdown loop ends with every number in exactly one account; it gives up exactly at the first failure, and without one every observation ever recorded is in the journal or counted as dropped |
| Producer.Bridge.Install | proxy/bridge.py:188-195 | a mapping is replaced exactly by a newer, decodable one |
| Producer.ConservedCount | proxy/bridge.py:164-203 | recorded observations = dropped + (journaled or queued), each number once |
| Producer.OthersAppend | proxy/state.py:110-125 | another producer's appends change neither this one's rows nor its watermark |
| Scan.ReadTotal | proxy/server.py:686-697 | the left-to-right scan that skips past each match finds the last total stated anywhere, and the number it gives is the one written there |
| Scan.TotalsApart | proxy/server.py:654-697 | two stated totals never overlap, so the skipping scan misses none |
| Scan.DecimalOfNumeral | proxy/server.py:686-697 | reading the decimal numeral of a number, defined by division by ten, gives the number, whatever zeros stand before it |
| Scan.TotalIsNumber | proxy/server.py:654-697 | a response that states a total n with any white space and zeros the pattern allows, and none after it, is read as n |
| StreamWatch.RefusalIsChunkingFree | proxy/server.py:660-765 | however a response is cut, it counts as refused exactly when one of the markers of at most 49 bytes occurs in it with no empty marker listed before it, and exactly one chunk raises the alarm |
| StreamWatch.MarkerLimit | proxy/server.py:651-671 | every cut finds a marker if and only if it has between 1 and 49 bytes |
| StreamWatch.TotalIsChunkingFree | proxy/server.py:737-765 | however a response is cut, the recorded total is the last one stated anywhere in it, when that one spans at most 49 bytes |
| StreamWatch.NumberRecorded | proxy/server.py:686-745 | a total n stated last in up to 49 bytes is recorded as n, however the response is cut |
| StreamWatch.TotalLostExactlyWhen | proxy/server.py:651-697 | for every response, whatever totals it states: some cut changes what is recorded if and only if the last total spans 50 bytes or more and its digits can be cut short to another value, or its first digit lies 49 bytes or more from its start and what was recorded before it differs or can be changed |
| StreamWatch.LoneTotalChangeable | proxy/server.py:651-697 | with one total stated, that is: it spans 50 bytes or more and is not a zero whose first digit lies within 49 bytes of its start |
| StreamWatch.CompletionNotMissed | proxy/server.py:746-757 | a completion announced on its own line, in words of at most 49 bytes, in an event ended by a blank line is noticed however the stream is cut; completion is never reported before a blank line or without the words having occurred; at most 48 bytes of an event are kept |
| StreamWatch.EventLineNoticed | proxy/server.py:656-757 | an `event: response.completed` line and its blank line, with either line end, are noticed however they are cut, with up to 25 blanks before the name and any number after it |
| StreamWatch.DataLineNoticed | proxy/server.py:656-757 | a `data:` line whose object opens with the type `response.completed` is noticed however it is cut, with up to 16 blanks in its head, once a blank line of either kind follows |
| StreamWatch.CompletionInvented | proxy/server.py:656-757 | one line that only begins with the announcing words, taken for an announcement when a chunk ends right after them and not when it comes in one piece |
| StreamWatch.CompletionStays | proxy/server.py:746-757 | a reported completion is not taken back |
| StreamWatch.Watcher.Feed | proxy/server.py:737-765 | one chunk updates the watcher as specified, and it answers true exactly on the chunk that first reveals a refusal |
| StreamWatch.Watcher.Frame | proxy/server.py:746-757 | the loop over the events that end in a chunk confirms a completion only at a delimiter |
| StreamWatch.Watch200 | proxy/server.py:539-563 | a streamed response gives the same verdict and total as one look at the whole buffered body |
| Framing.ChunkFrames | proxy/server.py:655-757 | the ends of events found from the kept tail and the next chunk are those of the whole stream |
| Framing.ScanNotes | proxy/server.py:746-757 | one scan notes every announcement in its text, at once or when the event ends |
| Attempts.ClosedMeans | proxy/bridge.py:270-313 | an account that is closed has exactly one finish, its last note; one not marked late has no success after a demotion |
| Attempts.AccountCounts | proxy/bridge.py:270-313 | the account tallies the attempt's statuses, demotions with their causes in order, successes, timeouts and cost, as they were noted |
| Attempts.Telemetry.NoteSuccess | proxy/bridge.py:305-308 | a success is reported once |
| Attempts.Telemetry.Finish | proxy/bridge.py:310-313 | a finish is reported once, whoever asks |
| Forward.ForwardRequest | proxy/server.py:1388-1637 | the request ends at the first attempt the policy does not pass over, all earlier ones having been passed over, or in 503 after all were; the answer is what that attempt calls for; every attempt with a token up to it is charged, in order, and each account is closed with exactly the statuses, demotions with their causes, successes, timeouts and cost of an attempt that was passed over, or that gave the caller this answer; one without a token is not charged |
| Forward.ReportedMeans | proxy/server.py:1305-1637 | so every charged attempt has one finish, last, at most one success, and at most one demotion with no success after it unless 200 is a status to retry and the attempt is the last route's plain 200 to a streaming request |
| Forward.FirstToAnswer | proxy/server.py:1388-1637 | the first attempt the policy does not retry is the one the caller hears from, with its bytes, its timeout, its failed connection or its broken body, when all before it met only what the policy retries |
| Forward.ExhaustedExactlyWhen | proxy/server.py:1388-1637 | the proxy's own 503 comes exactly when every attempt was passed over; it does if every one meets what the policy retries |
| Forward.ErrorsMean | proxy/server.py:1405-1500 | of the attempt that ended the request: 502 exactly when its connection failed, 504 only when it or its body timed out, an escaping error exactly when its unstreamed body broke off; the first two only where the policy does not retry |
| Forward.FailsOverExactlyWhen | proxy/server.py:1388-1500 | with a plain reply waiting on the second of two routes, the caller gets it exactly when the first has no token, fails in a way the policy retries, or is read to the end of a reply that refuses by its status or as a throttled 200; otherwise what the caller gets is the first route's own |
| Forward.SuccessExactlyWhen | proxy/server.py:539-563 | an attempt has a success exactly when it was read to its end with a status below 400 not to be retried and no refusal in it, or its stream completed, or ended clean where no completion is announced, before any refusal or error event |
| Forward.ReportsMean | proxy/server.py:1405-1637 | when an attempt reports a timeout, which cost it reports, and by which causes it is demoted |
| Forward.Try | proxy/server.py:1405-1637 | what one attempt ends in and everything it reports, for all it can meet and every way it can end |
| Forward.OnceExactlyWhen | proxy/server.py:1484-1567 | the number of demotions is at most one if and only if 200 is not a status to retry, or the attempt is not the last route's plain 200 to a streaming request, or nothing refused came in sight and the probe did not break off |
| Forward.RelayStream | proxy/server.py:989-1133 | what goes out is a prefix of the upstream bytes, all of them when drained; the relay demotes exactly when an uncounted refusal occurs in what it saw, and praises at the first moment a completed stream has shown no refusal and no error event |
| Forward.Relay | proxy/server.py:539-563 | a buffered 200 is demoted exactly when its body carries a refusal not yet counted, and then earns no success; else it earns one, with the cost it states |
| Forward.Probe | proxy/server.py:892-958 | a head is called refused exactly when it holds a marker, so no visible refusal is relayed unseen; a head that failed was read to where the body failed |
| Forward.StreamReply | proxy/server.py:1503-1567 | probing or not, one refusal is charged once whether headers, probe or relay see it; an earlier route never relays a head that shows a refusal |
| Forward.TwiceDemoted | proxy/server.py:1484-1567 | a refused stream relayed to its end on the last route, probed or not, has one demotion if and only if 200 is not a status to retry, else two |
| Forward.TwiceUnrelayed | proxy/server.py:1484-1531 | a stream that breaks off in the probe on the last route is never relayed and has one demotion if and only if 200 is not a status to retry, else two |
| Affinity.BindingSafety | proxy/affinity.py:104-207 | however transactions of several workers interleave, as long as none finds the family's row expired the family keeps its endpoint and resource, its expiry never moves back, its descriptor stays readable, and its retained catalog names that endpoint only |
| Affinity.RunOK | proxy/affinity.py:124-207 | in every run each binding's descriptor exists and expiry is activity plus the lifetime |
| Affinity.StepSame | proxy/affinity.py:124-207 | only a transaction that judged a family's row absent or expired replaces or deletes it |
| Affinity.RunHeld | proxy/affinity.py:124-207 | over every run whose clock readings stay at or below an instant, every row that outlives that instant keeps its endpoint and descriptor and never expires earlier |
| Affinity.NewBindingHasNoModels | proxy/affinity.py:124-160 | a new or inherited binding arises exactly when none was live, starts without recorded models, and an inherited one has its parent's endpoint and descriptor |
| Affinity.BoundMeans | proxy/affinity.py:124-140 | a live row wins and nothing is written; otherwise the family is bound to the endpoint and resource offered, for a lifetime from now |
| Affinity.InheritMeans | proxy/affinity.py:142-160 | nothing without a live parent; a conflict exactly when the family has a live row of another endpoint or resource than the parent's; otherwise a binding in the parent's place, its own if it has one |
| Affinity.FlushedProlongs | proxy/affinity.py:186-196 | written activity prolongs exactly the rows live when touched: to the touch plus the lifetime, never back; every other row and table is as it was |
| Affinity.UseKeepsBinding | proxy/affinity.py:104-207 | over every run: a family touched and written at gaps shorter than the lifetime is still found, on its endpoint, up to its last written touch plus the lifetime |
| Affinity.NotedMeans | proxy/affinity.py:162-171 | a model joins the models of a live family, once, and nothing else changes |
| Affinity.CleanedMeans | proxy/affinity.py:198-207 | cleanup deletes only expired rows, up to 500 and otherwise all, and a descriptor only when no row is left with it |
| Affinity.CandidatesMean | proxy/affinity.py:302-358 | a bound family is offered each live route of its endpoint and resource as often as it is listed, and once there is none, each of those its endpoint offered when it was bound |
| Affinity.RenamedMeans | proxy/affinity.py:342-352 | an endpoint is intact exactly when everything that names a resource for it names the bound one |
| AffinityObject.AffinityStore.Decoded | proxy/affinity.py:109-115 | the bounded, recency-ordered cache always returns the descriptor's own catalog |
| AffinityObject.AffinityStore.Lookup | proxy/affinity.py:104-117 | answers with the joined row exactly when it is live at the reading taken |
| AffinityObject.AffinityStore.Bind | proxy/affinity.py:124-140 | returns the live winner, or writes and returns a new binding |
| AffinityObject.AffinityStore.InheritFrom | proxy/affinity.py:142-160 | a fork gets its parent's binding, its own live one if it agrees, or a conflict that changes nothing |
| AffinityObject.AffinityStore.NoteModel | proxy/affinity.py:162-171 | a model is recorded once, and only for a live binding |
| AffinityObject.AffinityStore.Flush | proxy/affinity.py:186-196 | when written, every row live at the instant its family was touched expires no earlier than that instant plus the lifetime, every other row is unchanged, and nothing stays remembered; when the file is busy nothing changes |
| AffinityObject.AffinityStore.Touch | proxy/affinity.py:173-184 | activity is remembered at this instant, and written at once when the binding is about to expire; what is written prolongs exactly the rows live when touched |
| AffinityObject.AffinityStore.Cleanup | proxy/affinity.py:198-207 | three bounded deletions remove only expired rows and unreferenced descriptors |
| AffinityObject.SessionAffinity.Resolve | proxy/affinity.py:323-358 | with other workers acting before each of its transactions: a family bound when looked at is served from that binding, with exactly the candidates of its endpoint, each once, or refused as its endpoint was renamed or offers nothing; its use is remembered or written; a new binding is to the first route's endpoint or the parent's; the binding is the family's row as the transaction that found or made it left it, and still is at return unless it expired meanwhile; a request that needs its state never runs unbound |
| AffinityObject.AffinityStore.OtherWorkers | proxy/affinity.py:104-207 | other workers' transactions are a serial run of the shared tables, so rows live at the latest reading keep endpoint and descriptor and expire no earlier |
| Delivery.PollConserves | proxy/events.py:122-155 | delivered events and reported gap add up to the cursor's advance for every feed, cursor and limit; the gap's reasons add up to it; delivered numbers increase past the cursor |
| Delivery.PollDelivers | proxy/events.py:122-155 | a poll delivers the events of the last day, past the cursor and of the kinds asked for, all of them or, beyond a limit, the newest, and nothing else, in order |
| Delivery.GapTells | proxy/events.py:136-152 | what a gap calls aged out, overwritten and over the limit, and that it names no loss that did not occur |
| Delivery.FirstLoad | proxy/events.py:132-155 | a first load reports no gap, only whether history was left out |
| Delivery.Poller.Accept | tui/client.py:83-126 | another stream starts over, a stale reply changes nothing, any other moves the cursor, appends its newer events, of which 4000 are kept, and adds its gap; without a stream's name a lower number is believed when it comes twice |
| Delivery.Poller.Poll | tui/client.py:177-189 | from a new poller on: the first accepted poll sets the base, another stream starts over, a stale reply changes nothing, and from the base on accepted plus missed events equal the cursor's advance, accepted numbers increasing |
| Bar.Distribute | tui/layout.py:86-94 | each entry gets its whole cells or one more, the extra ones going to the largest remainders with ties to the left; exact shares of the whole row fill it |
| Bar.RoundedShares | tui/layout.py:83-94 | before borrowing every fraction has its exact share rounded down or up |
| Bar.Borrow | tui/layout.py:96-103 | borrowing moves cells without changing their number, never to a fraction of nothing, and with enough cells leaves no real fraction invisible |
| Bar.Allocate | tui/layout.py:51-104 | fractions of at least a whole fill the row exactly, otherwise the sum is as stated; zero gets nothing; in a wide enough row every real fraction shows |
| Bar.ExactMeans | tui/layout.py:83-94 | the exact share of a fraction is its part of the row, of the fractions' sum where that exceeds one |
| Bar.WholeMeans | tui/bars.py:53-65 | the fractions handed over: each face's, others' usage and what is free, scaled down where the route is overfull |
| Bar.ShortOfWhole | tui/layout.py:57-59 | a lone fraction below one gets one cell more than its whole cells |
| Bar.WholeIsOne | tui/bars.py:53-65 | what the bar hands over is never negative and always sums to one |
| Bar.CapacityBar | tui/bars.py:32-76 | the segments fill the width, nothing is drawn for nothing, and an overfull route shows no free cells |

## Left out

- HTTP, TLS, the ASGI framework, Azure CLI and token fetching: upstream replies, missing tokens, elapsed time and client disconnects are arbitrary inputs.
- SQLite internals, JSON encoding and floating-point rounding: see the assumptions above.
- Route tables, `catalog`, `retired_routes`, discovery reload beyond the event it emits, and the report section of a snapshot: they carry no state the exchange depends on.
- Quota header fields (`limit_*`, `remaining_*`, `headroom`) and the diagnostic fields (`foreign` and its dates, `last_throttle_rpm`, `last_timeout_rpm`): nothing routes on them.
- Dead-process cleanup in `snapshot` and the one-off history initialisation tool: they depend on the environment.
- The text of in-band errors (`upstream_error`): whether one went past is an arbitrary input to the relay.
- Probe timing and the content-event cutoff: the probe may stop after any chunk, which includes every stop the code makes.
- StreamWatch.CompletionNotMissed: the converse fails (`StreamWatch.CompletionInvented`); which cuts invent a completion is not characterised beyond "never before a blank line" and "never without the words".
- EngineObject.RestartAgrees: on objects the agreement is stated at the end of records that are immune and use fresh attempt ids; the equivalence is `Recovery.CrashTransparent`, on values.
- Pass.CatchUp: on objects no other process acts between the batches; that it may is `Exchange.CatchUp`.
- Selection.Draw: draws are modelled for weights that are not negative; a negative `weight_floor`, which the configuration accepts, can make one negative (`Quota.WeightBounded`).
- Delivery.Poller.Accept: servers that name no stream are modelled, but no conservation is claimed for them, since a restart cannot be told from a stale reply.
- Delivery.PollConserves: polls filtered by kind are not counted, since events of other kinds are neither delivered nor missed.
- Affinity credential screening, image deployment lists, session keys, fork ancestry headers and the activity report: parsing or display.
- Supervisor, workers, scheduled restarts, probing of deployments, configuration parsing and terminal rendering: they rest on processes, signals and I/O outside this model.
