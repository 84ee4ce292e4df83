# xflow scheduling core, verified

A Dafny model of the engine that schedules xflow workflows: a crash-tolerant,
at-least-once protocol over a store and a queue. The store is a state machine whose
atomic transitions follow the in-memory and the Redis backends; the engine's functions
are steps over it. A run is any sequence of steps, so deliveries repeat, overtake each
other and arrive late, and callers die between any two store calls. The theorems
quantify over all such sequences.

| file | what it holds |
|---|---|
| `units.dfy`, `topology.dfy`, `arrivals.dfy` | the compiled graph, units built from nodes, the loops that produce and apply arrivals |
| `store.dfy`, `runs.dfy`, `diagrams.dfy`, `schedule.dfy`, `safety.dfy` | the scheduling state machine, the same step read unit by unit, its invariant, and the safety theorem |
| `merge_cancels.dfy` | how a fired merge retires the branches it no longer needs |
| `liveness.dfy`, `cascade.dfy`, `completion.dfy`, `orderings.dfy` | when a live run can be stuck, the inline cascade ends, which executions can be carried to success |
| `confluence.dfy`, `folding.dfy`, `canonical.dfy`, `requests.dfy` | which units run depends only on the ports fired; folded arrivals and advance tasks agree; what depends on the order of arrivals; what the store does with a request |
| `reach.dfy`, `rerun.dfy`, `rerun_fresh.dfy` | the rerun walks, the plan, the seed, and its equality with a fresh run |
| `lifecycle.dfy`, `deadlines.dfy`, `backoff.dfy`, `sweep.dfy` | expiry and cancel under crashes, deadline arithmetic, the backoff table, the sweep |
| `outbox.dfy`, `flushes.dfy`, `outbox_leases.dfy`, `leases.dfy`, `expansion.dfy`, `batches.dfy` | delivery, what a flush does to each entry, its leases, task leases, the map barrier, batches |
| `cyclic.dfy`, `evidence.dfy`, `reclaim.dfy` | cyclic planning, the "gone" verdict, early deletion of outputs |
| `common.dfy` | an option type and one fact about set sizes |

`dafny verify dfyconfig.toml` checks the whole project.

## Where the code does not keep the promise

Each of these is a lemma with a concrete input or run, beside a lemma that says exactly
when the promise holds.

- Skipping a **group** unit consumes the out-edges of the group's entry member, not the
  group's boundary edges, so a unit behind the group may never be decided
  (`Completion.SkippedGroupStrands`). A skip matches a unit's edges to another unit if and
  only if all of them leave from the entry and none is an error output
  (`Topology.SkipMatchesIff`). The counters of a reachable state are exact if and only if
  every unit settled as skipped has a matching skip (`Safety.CountersExactIffClean`); no
  theorem assumes it. A run can be stuck only behind such a skip (`Liveness.NeverStuck`),
  and with given outcomes it can succeed if and only if the units can be put in an order
  that starts every unit so missed early (`Orderings.SucceedsIff`); where every unit has
  one merge mode that means it waits for any input and runs
  (`Completion.UniformSucceedsIff`).
- An unselected **group root** is neither started nor skipped, and then no run succeeds
  (`Liveness.UnselectedGroupRootNeverSucceeds`, `Orderings.SucceedsIff`).
- The in-memory store concludes a **canceling** execution as success or failed; the Redis
  store does not. "Canceling can only end canceled" holds if and only if the store guards
  the concluding commit or every node is settled (`Lifecycle.CancelHoldsIffGuarded`). The in-memory store also
  still moves counters for advance tasks and group commits while canceling, and nothing
  else does (`Safety.CancelFreezesIff`, `Safety.CanceledYetMoving`), although its comments
  say the gates mirror the distributed ones.
- A rerun copies every row but a success or a pin as if it had fired nothing. The plan's
  comment says arrivals are computed exactly as the unit's own advance would have: that
  holds for a unit if and only if every copied row that fired into it was a success or a
  pin (`RerunFresh.ReplayFaithfulIff`). Inputs: a **disabled** node in front of the start
  (`RerunFresh.DisabledUpstreamIsLost`), a **continued** node beside it
  (`RerunFresh.ContinuedIsLost`).
- Re-putting an **outbox id**, as two predecessors of one cyclic activation do, while a
  flush may still ack its earlier put can lose the new one, because an ack names only the
  id. It can if and only if there is such a flush
  (`Outbox.LosableIffThreatened`).
- The cancel of a parked **sub-workflow node** and the merge cancel write an activation
  they read earlier, without a token. Every continuation keeps a good lease history if and
  only if the row is not in a later activation (`Leases.KeepsHistoryIffFresh`,
  `Leases.StaleFinalizeRepeatsAttempt`); in an acyclic execution it never is
  (`Leases.AcyclicHistory`).
- An output is reclaimed once its only consumer has committed. That can be before the
  producing group has ended, if and only if the consumer waits for any input and another
  group that names it as its **error output** can be started first
  (`Reclaim.EarlyIffForeignStarts`).
- A lease **renewed** to an instant that is already past is meant to be reclaimable at once.
  The in-memory store measures the term from the lease's issue and cuts it off at zero, and
  a lease without a term never runs out: it runs out at its new deadline if and only if that
  is after its issue (`Leases.RunsOutAtDeadlineIff`).
- A **map** node whose batches are running is ended early by an error or timeout verdict
  on its own lease, because the commit fence admits a waiting row
  (`Expansion.EndsEarlyIff`).
- Batches are stored as windows after comparing **lengths** only; windows equal the inline
  batches if and only if the batches are the items in order
  (`Batches.ExternalizedIffCutInOrder`). The split a map node makes is
  (`Batches.ChunksIndexed`).
- A delivery lease has no identity but its deadline, so two claims of one entry in the same
  **millisecond** defeat the fence: a renewal in flight when its flush gave the entry back
  moves the next deliverer's lease, if and only if both claimed in one millisecond
  (`OutboxLeases.StaleRenewalIff`). While the clock advances between claims of one entry
  the fence holds (`OutboxLeases.DeadlineFences`).
- A group arrival carries the unit's merge mode (always wait_all for a group) and a node
  arrival the entry node's, so a group entered by a wait_any node starts early if and only
  if the first arrival that fired came from a node (`Canonical.EarlyIffFirstIsAny`,
  `Canonical.MixedModesDependOnOrder`). What is decided in the end does not depend on it
  (`Confluence.Confluent`).

## Model

| member | source | states |
|---|---|---|
| `Safety.SchedulingSafety` | engine/atomic.go:928-1095 | after any sequence of actions no unit is both executed and skipped; a skipped unit has only terminal sources, none of which fired into it; an executed non-root has a terminal source that did; success means every unit is terminal; a unit not skipped never counts fewer edges than are open; the active counter is the number of edges fired by settled units, which in a live folding run are all terminal units |
| `Safety.RunGrows` | backend/providers/local/atomic_state.go:119-319 | over any run terminal rows, decisions and terminal execution statuses are never revised and no task is unwritten |
| `Safety.TerminalOnlyWhenFenced` | backend/providers/local/atomic_state.go:119-176 | a leased unit ends only by a commit under its token, a merge cancel while it does not wait, or a cancel cascade while it does; an unleased one only by a system commit its marker allows |
| `Safety.CancelFreezesIff` | backend/providers/local/atomic_state.go:257-286 | while canceling, a step moves a counter if and only if the store is the in-memory one and the step is an unconsumed advance, or a group commit under its token, with an arrival to apply |
| `Safety.CanceledYetMoving` | backend/providers/local/atomic_state.go:352-374 | every entry with an out-edge gives a run in which the in-memory store moves a counter while canceling |
| `Safety.CountersExactIffClean` | engine/atomic.go:985-1012 | in every reachable state all counters equal the inbound edges of unsettled sources if and only if every unit settled as skipped has exactly the out-edges of the node its skip names |
| `Schedule.RunKeeps` | backend/providers/local/atomic_state.go:404-459 | the whole invariant (counters equal to the open edges plus what skips fell short, markers that match them, tasks that match markers, rows that match tasks, advances only of terminal units, totals that match rows, owed advances) holds after any sequence of actions |
| `Diagrams.RowsFollow` | backend/providers/local/atomic_state.go:119-176 | every row follows its life cycle in every step: leased when started, parked, requeued or reported under its token, served in place if disabled or pinned, skipped if marked so, retired by a merge unless it waits, swept by a cancel only if parked or waiting, and final once ended |
| `Diagrams.LandingCounts` | backend/providers/local/atomic_state.go:240-255 | a unit that ends takes one off the units left, counts as failed only by a failed report, and ends the execution exactly if it is fatal or the last one and the store does not withhold it: failed if fatal or any unit failed, success otherwise |
| `Diagrams.OthersCountNothing` | backend/providers/local/atomic_state.go:240-255 | every other step leaves the totals, and the status moves only by the cancel and expiry writes |
| `Diagrams.LandingCarries` | backend/providers/local/atomic_state.go:257-286 | the step that ends a unit moves every counter by its arrivals, leaves them to an advance task, or drops them, exactly by carrier, backend, unit kind and status |
| `Diagrams.OthersApplyNothing` | backend/providers/local/atomic_state.go:352-402 | otherwise only an advance task not yet consumed moves counters, by the arrivals of its unit |
| `MergeCancels.RetiresIff` | backend/providers/local/atomic_state.go:335-350 | with the merge's intent written and the execution active, cancelling a node unit ends it as canceled if and only if it is idle with an execute marker, parked, or leased and not waiting, and not marked to skip; otherwise nothing changes |
| `MergeCancels.RetirableIffStarted` | engine/merge_cancel.go:113-141 | in reachable states that is every started unit neither ended nor waiting on children, except a root nobody has leased |
| `MergeCancels.RetiredClosesEdges` | engine/merge_cancel.go:141-165 | a retired branch lowers each successor's counter by its edges, adds no active arrival, and counts as ended but not failed |
| `MergeCancels.IntentIffAsked` | engine/atomic_commit.go:301-324 | the intent is written if and only if the step is a successful commit of that node under its lease that asks for it, on a folding store, and does not end the execution |
| `MergeCancels.MergeRetiresBranch` | engine/merge_cancel.go:58-108 | for every wait_any merge fed by two entries there is a run in which it fires on one and its intent then retires the other, which was at work |
| `Liveness.NeverStuck` | engine/initial_outbox.go:20-68 | in every reachable running state a lease is held, a node is parked, an outstanding task still has something to do, or a unit is left behind a settled skip that missed an edge to it, if every unselected root is a node unit |
| `Liveness.UnselectedGroupRootNeverSucceeds` | engine/entry_skips.go:29-48 | with an unselected group root no run ever succeeds |
| `Cascade.SystemStepDescends` | engine/atomic.go:824-898 | handling a skip, advance or merge cancel strictly lowers twice the units left plus the unconsumed advances if the unit has still to end or to be advanced by it, and changes nothing otherwise |
| `Cascade.Drain` | engine/atomic.go:580-733 | from any reachable state the inline cascade visits every pending system task, including those it appends, ends, and continues the run |
| `Completion.CanSucceed` | engine/engine.go:464-471 | every running state reached under fixed outcomes with nothing failed has a continuation under the same outcomes that succeeds, if unselected roots are node units and every unit a skip misses waits for any input and runs |
| `Completion.SuccessMeansPassable` | engine/atomic.go:985-1012 | a run under fixed outcomes that succeeded had only node units among its unselected roots, and every unit missed by a skip was entered by a wait_any node and ran |
| `Completion.UniformSucceedsIff` | engine/entry_skips.go:29-48 | where every unit has one merge mode, some run under given outcomes succeeds if and only if every root left out is a node unit and every unit missed by a skip waits for any input and runs |
| `Orderings.SuccessIsTimely` | backend/providers/local/atomic_state.go:404-459 | the order in which a successful run settled its units puts each of them after all its sources, missed by no skip, or after a source whose arrival carries wait_any and that precedes every source feeding it wait_all |
| `Orderings.TimelySucceeds` | engine/atomic.go:949-1033 | from any such order of the units of the graph, settling them in that order is a run that succeeds |
| `Orderings.SucceedsIff` | engine/entry_skips.go:29-48 | for any merge modes, some run under given outcomes succeeds if and only if every root left out is a node unit and such an order exists |
| `Completion.SkippedGroupStrands` | engine/atomic.go:949-1033 | a concrete run that skips a group and is still running with nothing leased, parked or outstanding and one unit left |
| `Confluence.DecisionsMatch` | engine/atomic.go:1057-1095 | in every state of a run with fixed outcomes, each decision taken equals the recursive reading of the graph: a unit runs if it is an entry or a running predecessor fires into it |
| `Confluence.CompleteDecision` | engine/atomic.go:949-1033 | a complete run executed exactly those units and skipped exactly the others |
| `Confluence.Confluent` | engine/atomic.go:1057-1095 | two complete runs over the same outcomes execute and skip the same units, whatever the order, duplication, carrier, store and merge modes of either |
| `Folding.FoldingRefines` | engine/atomic_commit.go:232-331 | every run of the folding store is matched by a run of the advancing store with the same counters, decisions, rows, totals and status |
| `Canonical.CellsDetermined` | backend/providers/local/atomic_state.go:404-459 | two states with the same applied arrivals and terminal rows have the same counters and failures, and decide a unit alike if and only if it is a root, its counter reached zero, or both first saw an active arrival of one mode |
| `Canonical.EarlyIffFirstIsAny` | backend/providers/local/atomic_state.go:419-428 | in every reachable state with an edge into a unit open, the unit has been started if and only if the first arrival that fired into it carried wait_any |
| `Canonical.DrainedRunsAgree` | engine/atomic.go:824-898 | once all advances are consumed, live runs with the same terminal rows agree on counters, totals and failures, and on decisions and tasks of units whose arrivals carried one mode, whichever carrier each used |
| `Canonical.SuccessMeansNoFailure` | backend/providers/local/atomic_state.go:240-255 | an execution that succeeded has every unit terminal and none failed |
| `Canonical.MixedModesDependOnOrder` | engine/graph/graph.go:367-381 | for every graph in which a node entry, a group entry and a third unit feed a group entered by a wait_any node, two runs with the same rows and applied arrivals differ in having started the group |
| `Canonical.MixedGraphDiffers` | engine/graph/graph.go:367-381 | such a graph exists, with every skip matching its edges |
| `Requests.OncePerCarrier` | backend/providers/local/atomic_state.go:257-286 | after a commit and any number of deliveries of its advance task, every counter has moved by its arrival once per carrier the request named |
| `Requests.CountedOnceIffOneCarrier` | engine/atomic.go:192-223 | for a unit with arrivals to send, all counters move by exactly what it sends if and only if the request has exactly one carrier, and an accepted request never has two |
| `Requests.JudgeFacts` | engine/atomic_commit.go:92-211 | a report is retried if and only if attempts are left and its failure is curable (a system failure neither permanent nor the execution's deadline, or an error port without an error), is inactive exactly for a timeout at that deadline, expands or ends normally exactly without a failure, and otherwise ends as its strategy says: fatally, on the error port, or on the main port |
| `Requests.AcceptedIff` | engine/atomic.go:198-240 | a request is accepted if and only if it is cyclic without any acyclic part, or acyclic with at most one carrier, nothing folded into a fatal end, and intents or reclaims only on an ordinary success |
| `Requests.BuiltCommit` | engine/atomic_commit.go:232-331 | the request built from a judged report is accepted, fires exactly the verdict's port, reclaims exactly after a report without failure, and applied to the store is exactly the state machine's commit |
| `Requests.BuiltSystem` | engine/merge_cancel.go:141-165 | every skip, disable, pin and cancel request is accepted and applied to the store is exactly the state machine's terminal transition; every cyclic request is accepted, completes the execution under a fatal verdict and otherwise carries what was planned |
| `Topology.NodeUnitFaithful` | engine/graph/unit.go:161-226 | between a node unit and any unit the unit graph has exactly the node's edges, on each port, and a skip names exactly those |
| `Topology.SkipMatchesIff` | engine/atomic.go:985-1012 | a skip consumes at most a unit's edges to another unit, and all of them if and only if they leave from the entry and none is an error output |
| `Topology.CompiledWellFormed` | engine/graph/unit.go:161-226 | an acyclic compiled graph, with any groups and error outputs, meets the scheduler's hypotheses |
| `ArrivalLoops.DownstreamArrivals` | engine/atomic.go:1057-1095 | one entry per destination node, in node order, with the number of edges to it and of those on the active port |
| `ArrivalLoops.NodeListDelivers` | engine/atomic.go:1057-1095 | that list is, per destination unit, the unit's edges and the ones that fired; with the empty port, the skip's |
| `ArrivalLoops.DownstreamUnitArrivals` | engine/group_exec.go:376-415 | a group's list is, per destination unit, its edges and those whose exit or error output fired |
| `ArrivalLoops.ApplyArrivals` | backend/providers/local/atomic_state.go:404-459 | each listed unit's cell moves by its arrival, every other cell stays, and a task is written for exactly the units decided |
| `ArrivalLoops.FoldNodeArrivals` | backend/providers/local/atomic_state.go:277-286 | building and applying a node's list is the state machine's transition, also for a skip |
| `ArrivalLoops.FoldGroupArrivals` | backend/providers/local/group_state.go:269-323 | the same for a group commit |
| `ArrivalLoops.UnselectedRootSkips` | engine/entry_skips.go:29-48 | the skips written beside a single entry are exactly those of the initial state, in unit order |
| `Reach.Descendants` | engine/rerun.go:354-366 | the breadth-first walk marks exactly the units reachable from the start |
| `Reach.Ancestors` | engine/rerun.go:367-380 | the reversed walk marks exactly the units with a non-empty path to the start |
| `Rerun.PlanRerun` | engine/rerun.go:333-409 | a plan is refused exactly for a start inside a group, a group among the copied units or an ancestor without a result, naming the first of these in order; otherwise it lists every unit outside the subtree once, in order, with its copied outcome |
| `Rerun.SeedExecution` | backend/providers/local/execution_seed.go:55-175 | the seeded counters are the open and live edges over the copied units, copied units are never scheduled, and tasks are written for exactly the units those counters decide, plus the start |
| `RerunFresh.RerunIsFreshRun` | engine/rerun.go:333-463 | if in the state a parent's run reached everything outside the subtree was a success, pin or cascaded skip, some fresh run executed exactly those units with those outcomes, and after any further actions the rerun and that run agree on rows, counters, totals and, in the subtree, decisions and tasks, whether the store folds or not |
| `RerunFresh.RunRelated` | engine/seed.go:98-122 | related seeded and fresh states stay related under any actions |
| `RerunFresh.StartDecidedOnce` | engine/rerun.go:397-408 | the start gets exactly one of an execute and a skip task: execute if it is a root or a copied success or pin fires into it |
| `RerunFresh.ReplayFaithfulIff` | engine/rerun.go:418-463 | for every unit the seeded active counter is the number of edges the parent's copied rows fired into it if and only if every row that fired one was a success or a pin |
| `RerunFresh.StartReplayIff` | engine/rerun.go:397-408 | the start is decided as the parent's rows dictate if and only if a success or pin fires into it or no disabled node does |
| `RerunFresh.DisabledUpstreamIsLost` | engine/disabled.go:53-90 | a two-node graph whose rerun skips a start that the parent's disabled node fired into |
| `RerunFresh.ContinuedIsLost` | engine/rerun.go:455-462 | a plannable parent whose continued node beside the start feeds a merge that the rerun sees without live input |
| `Lifecycle.StatusesAreFinal` | backend/providers/local/memory_state.go:730-782 | over any interleaving no terminal status is overwritten and, with a guarding store, a canceling execution only ends canceled |
| `Lifecycle.CancelHoldsIffGuarded` | backend/providers/distributed/internal/rstate/atomic_state.go:191-198 | a canceling execution can end as something other than canceled if and only if the store does not guard the concluding commit and some node is not settled |
| `Lifecycle.EntryStaysUntilStopped` | engine/expire.go:93-202 | whatever precedes and follows the deadline write, with a crash after any store call, the entry stays while something that write found suspended, parked or running as a child has not left that state |
| `Lifecycle.NeverExpiresEarly` | engine/expire.go:136-144 | no interleaving writes the deadline timeout before the deadline, less the clock slack, or without one |
| `Lifecycle.CallingAgainCompletes` | engine/cancel.go:45-158 | from any timed-out or canceling state an undisturbed call stops everything and ends: entry withdrawn, or execution canceled |
| `Lifecycle.ExpiryAnswers` | engine/expire.go:93-202 | an undisturbed expiry of an execution in any state: a running one past its deadline is timed out, all that is held and nothing else is stopped and the entry goes; before the deadline nothing changes; a written timeout is completed; one ended otherwise loses its entry; a canceling or unknown one is left alone; each with its own answer |
| `Lifecycle.SnapshotAnswers` | engine/expire.go:126-175 | the same when another call ended or canceled the execution between the two reads: "not due" before the deadline, past it whoever won is answered for and a timeout of another call is completed |
| `Lifecycle.CancelAnswers` | engine/cancel.go:45-96 | an undisturbed cancel of a live execution passes through canceling, stops all that is held and nothing else and ends canceled without entry; of any other it changes nothing |
| `Lifecycle.FailedChildAnswers` | engine/subworkflow_cancel.go:57-100 | after a child whose cancel failed the others are still canceled; an expiry then gives up with its entry kept, a cancel goes on to the end |
| `Lifecycle.UndisturbedCall` | engine/expire.go:93-202 | in the interleaved system a caller that nobody disturbs does what it does alone |
| `Lifecycle.EndedHasNoEntry` | backend/providers/local/memory_state.go:730-782 | over any interleaving an execution that succeeded, failed or was canceled has no deadline entry |
| `Outbox.NothingLost` | engine/atomic.go:557-733 | with any flushes, crashes, full queues, failed calls and clock readings every put, puts under one id counted apart, is still in the outbox unless it was delivered or dead-lettered after as many failures recorded against it as the limit, if no put finds a flush that may still ack an earlier put of its id |
| `Outbox.LosableIffThreatened` | backend/providers/local/atomic_state.go:567-576 | from any reachable state a new put can be lost in some continuation if and only if some flush may still ack an earlier put of the same id |
| `Outbox.AttemptsOnlyRecorded` | engine/observers.go:526-560 | an entry's attempts change only by a recorded failure, by one; claims, renewals, acks and backpressure leave them |
| `Flushes.ClaimedFlush` | engine/atomic.go:580-733 | from any state, a flush that claims due entries and whose deliveries come out in any way, undisturbed: each delivered entry is acked, each failed one is released with exactly one more attempt or dead-lettered exactly at the limit, from the first full queue on every entry is given back as it was, no other entry or put changes, and the flush ends holding nothing |
| `Flushes.RecordedWithinFailed` | engine/atomic.go:670-703 | over any run the failures recorded against a put are at most the failed deliveries of its id |
| `Flushes.UnfailedUncounted` | engine/atomic.go:670-703 | an id none of whose deliveries failed has no attempts against it and no dead letter, whatever full queues, crashes and lost calls there were |
| `Flushes.LostCalls` | engine/atomic.go:696-733 | a failed ack ends the flush and leaves the entry, after a failed release the failure is still recorded, a failed record or give-back is passed over; the store is untouched |
| `Flushes.PutStores` | backend/providers/local/atomic_state.go:1006-1024 | a put of an absent id is a new unleased entry without attempts, a put of a stored one changes nothing |
| `OutboxLeases.DeadlineFences` | engine/outbox_lease.go:91-141 | over any run in which each claim of an entry is later than its earlier grants and no renewal shortens a lease, at most one deliverer can present the stored deadline, from what it holds, a call in flight or an answer not yet merged, and a renewal changes only entries it presents and whose latest claim was its own |
| `OutboxLeases.ClaimFenced` | backend/providers/local/atomic_state.go:479-494 | a claim later than the entries' earlier grants keeps the fence: every deadline a deliverer knows was granted, and the latest one of an entry is known only to its owner |
| `OutboxLeases.ClaimsOnlyLapsed` | backend/providers/local/atomic_state.go:479-494 | an entry changes hands only by a claim made when its former lease had lapsed or been released and the entry was due |
| `OutboxLeases.ForgottenNeverRenewed` | engine/outbox_lease.go:143-153 | over any such run, once a flush's ack, release or give-back of an entry is applied no renewal of that flush, even one in flight, ever changes the entry, and an acked or given-back entry is never held again |
| `OutboxLeases.RoundRenews` | engine/outbox_lease.go:91-141 | an undisturbed round extends exactly the leases still the deliverer's and not run out, to a full term, and the keeper goes on with those and no others |
| `OutboxLeases.StaleRenewalIff` | backend/providers/local/atomic_state.go:506-531 | from any state with a due entry: one flush claims it, starts a renewal, finds the queue full and gives it back, another claims it, and the first one's renewal then changes the second one's lease if and only if both claims fell into one millisecond |
| `OutboxLeases.LeaseKeeper.constructor` | engine/outbox_lease.go:51-75 | the keeper starts with exactly the batch and its deadlines |
| `OutboxLeases.LeaseKeeper.RenewOnce` | engine/outbox_lease.go:91-141 | a failed call keeps every lease; an answer is merged into what is held by then: refused entries are dropped, granted ones carry their new deadline, forgotten ones stay out; renewal goes on while any is left |
| `OutboxLeases.LeaseKeeper.ForgetRest` | engine/atomic.go:689-692 | giving back the rest of a batch leaves the keeper exactly the entries outside it, with their deadlines |
| `Leases.LeaseHistory` | engine/lease.go:226-235 | over any run whose writes never find the row in a later activation than they carry, a node terminalizes at most once per activation, attempts within an activation are 1, 2, 3 and so on, and retries are of issued leases, below the limit, at most one per lease |
| `Leases.AcyclicHistory` | engine/merge_cancel.go:113-197 | with one activation per node, as in an acyclic execution, the same holds of every run, merge cancels, parked-node cancels and stale reads included |
| `Leases.KeepsHistoryIffFresh` | backend/providers/local/memory_state.go:1037-1066 | a system commit, a merge cancel or the write of a parked row that ends a row at work leaves every continuation with a good history, as in `LeaseHistory`, if and only if it does not carry an earlier activation than the row's |
| `Leases.StaleFinalizeRepeatsAttempt` | engine/subworkflow_cancel.go:140-158 | a run in which a parked row's late write ends an earlier activation and the current one gets a second first attempt |
| `Leases.SupersededForever` | engine/lease.go:540-658 | a lease that is no longer the row's, or whose row has ended, never acts again: nothing it presents changes anything |
| `Leases.LiveLeaseKept` | backend/providers/local/atomic_state.go:335-350 | while a lease is current and has not run out, a call that does not present it changes the row if and only if it is a merge cancel of a unit neither waiting nor skipped, or the write of a row read while it waited |
| `Leases.ActsIffCurrent` | backend/providers/local/atomic_state.go:119-176 | a call under a lease takes the row to its next status if and only if the lease is the row's and the row is where the call expects it; otherwise nothing changes |
| `Leases.EndsUnleasedIff` | backend/providers/local/atomic_state.go:136-170 | a call without a lease ends the row, under the activation it carries, if and only if it finds it where it may |
| `Leases.RenewsIffHeld` | backend/providers/local/memory_state.go:2179-2216 | a renewal under the row's token, while it runs or waits, moves when the lease runs out and nothing else; otherwise nothing changes |
| `Leases.RunsOutAtDeadlineIff` | backend/providers/local/memory_state.go:2205-2214 | a renewed lease runs out exactly at its new deadline if and only if that is after its issue; otherwise it never runs out |
| `Leases.ReplacedIffExpired` | backend/providers/local/memory_state.go:1291-1306 | a running row's lease is replaced by the next attempt if and only if it has run out by then |
| `Leases.ReopenedIffLater` | backend/providers/local/memory_state.go:1283-1288 | an ended row is leased again if and only if the activation is a later one, from attempt one |
| `Leases.RetriesRunOut` | engine/atomic_commit.go:495-507 | a node that fails every time gets exactly as many attempts as the limit, each retried except the last |
| `Leases.MixedActivationsEndTwice` | backend/providers/local/memory_state.go:1283-1288 | a run mixing activation zero with positive ones ends one activation twice |
| `Expansion.BarrierHolds` | engine/expand.go:65-111 | a map node ends at most once, and at the barrier only after every batch of its generation reported, with one result per batch in order |
| `Expansion.FirstReportWins` | backend/providers/local/expand_state.go:84-123 | a batch's first report is kept whatever follows |
| `Expansion.ReportSettlesItsBatch` | backend/providers/local/expand_state.go:95-107 | a report of the waiting generation settles exactly its own batch with exactly its result, if that had not reported |
| `Expansion.BarrierResults` | backend/providers/local/expand_state.go:84-123 | over any run a barrier ending has one result per batch its generation began with, each the first report made for that batch while the generation waited |
| `Expansion.AllReportedFinishes` | engine/expand.go:65-111 | in every reachable state in which all batches have reported, finishing ends the node with their results |
| `Expansion.WaitingCanFinish` | engine/expand.go:65-111 | every reachable waiting state can be carried to the barrier, with what has been reported kept |
| `Expansion.BeginsAgain` | backend/providers/local/expand_state.go:15-83 | a node taken back begins a fresh generation with unreported batches, or ends at once without any |
| `Expansion.EndsEarlyIff` | backend/providers/local/atomic_state.go:172-176 | a step ends the node before its batches reported if and only if it is a verdict on the node's own lease while the row waits |
| `Expansion.LateErrorBypassesBarrier` | engine/commit.go:143-176 | a concrete run of that kind |
| `Batches.FlattenBatchResults` | engine/expand.go:756-773 | the flattened array is the batches' slots in order, with the batch itself where it reported no items |
| `Batches.SplitInvisible` | engine/expand.go:745-773 | for a body of the item, its index and the whole array, any two batch sizes flatten to the same array, one slot per item, slot k what the body makes of item k at index k |
| `Batches.SlotPlace` | engine/expand.go:756-773 | with one slot per item, slot j of batch i lands at that item's place |
| `Batches.GlobalIndexIff` | engine/batch_body.go:149-154 | a batch's global indexes are right if and only if every non-empty batch starts at its multiple of the size, or at nothing when the size is not positive |
| `Batches.ChunksIndexed` | node/internal/flow/map.go:169-174 | in the split a map node makes every item's global index is its place in the array, and every batch reads back from the stored array as its inline items |
| `Batches.ExternalizeBatches` | engine/batch_items.go:74-104 | every batch points at its window, or stays inline when lengths differ or the store declines |
| `Batches.ExternalizedIffCutInOrder` | engine/batch_items.go:74-104 | all stored batches resolve to their inline items and the whole array if and only if they are the array cut in order or were kept inline |
| `Batches.ResolveWindow` | engine/batch_items.go:219-247 | a window that does not fit is refused; otherwise a batch gets a new array with the cached contents and its items as a window whose capacity ends with it |
| `Batches.AppendItem` | engine/batch_items.go:234-237 | an append to a window leaves the array as it was if the window's capacity ends with it, and overwrites the next element otherwise |
| `Batches.BatchResultForCommit` | engine/batch_body.go:184-255 | one slot per item, the failure count, the timeout mark, and a failed verdict exactly if an item failed and not (failures are tolerated and one succeeded) |
| `Cyclic.PlanCyclicDownstream` | engine/scheduler.go:29-71 | success if the port leads nowhere, failure past the depth limit, otherwise exactly one task of the next activation and depth per destination |
| `Cyclic.CyclicRunsEnd` | engine/scheduler.go:29-78 | in every run activation is depth plus one and depth is within the limit, so at most nodes times (limit + 1) activations are written |
| `Cyclic.PlannedIsWritten` | engine/scheduler.go:29-78 | what any completion of a run plans is written, and nothing written is unwritten |
| `Evidence.GoneIsSound` | engine/inactive.go:196-245 | a stamped delivery without a status is never gone if the execution had ended when the marker was read |
| `Evidence.UnknownNeverGone` | engine/inactive.go:278-291 | unknown retention, or a finite one without a stamp, never yields gone |
| `Evidence.GoneIff` | engine/inactive.go:196-245 | a found status decides, a marker means ended, and without either work is called gone if and only if state never expires or the known age is within the retention |
| `Evidence.MisreportIffAnchorLate` | engine/inactive.go:260-268 | an ended execution can be misreported at some instant if and only if the age is measured from after its end |
| `Reclaim.ReclaimForCommit` | engine/transient_output_reclaim.go:22-51 | a source is named exactly when it is the consumer's only feeder, a group's exit that feeds nothing else, and nothing outside refers to it |
| `Reclaim.HasExternalReference` | engine/transient_output_reclaim.go:64-83 | found exactly if a node outside the group and the consumer computes names or names the source, itself or in its body |
| `Reclaim.DeletedOutputUnread` | engine/input.go:139-283 | no node outside the producing group and the consumer reads a deleted output through any route |
| `Reclaim.NothingReadsDeleted` | engine/transient_output_reclaim.go:22-51 | in every reachable state after the consumer's commit no node that can still run reads the output, unless the consumer waits for any input and another group that names it as error output can be started while the producing group has not ended |
| `Reclaim.ProducerIsDone` | engine/transient_output_reclaim.go:53-63 | in every reachable state in which the consumer has been started the producing group is terminal, under the same condition |
| `Reclaim.EarlyIffForeignStarts` | engine/group_exec.go:376-415 | some run commits the consumer before the producing group has ended if and only if the consumer waits for any input and some run starts another group that names it as error output before either has ended |
| `Backoff.ExpireBackoffDelay` | engine/expire_backoff.go:167-176 | the doubling loop gives min(2^(n-1) seconds, 5 minutes) |
| `Backoff.ExpireBackoff.constructor` | engine/expire_backoff.go:47-50 | an empty table with the given or the default capacity |
| `Backoff.ExpireBackoff.Allow` | engine/expire_backoff.go:54-59 | a key is allowed if it has no record or its window has elapsed |
| `Backoff.ExpireBackoff.Waiting` | engine/expire_backoff.go:113-123 | counts exactly the keys still inside their window |
| `Backoff.ExpireBackoff.EvictEarliest` | engine/expire_backoff.go:152-164 | drops exactly the record due soonest, smallest key on a tie |
| `Backoff.ExpireBackoff.Failure` | engine/expire_backoff.go:63-74 | one more failure with its delay, room made only for a new key in a full table, capacity kept |
| `Backoff.ExpireBackoff.Defer` | engine/expire_backoff.go:82-92 | the same schedule counted apart; failures do not move |
| `Backoff.ExpireBackoff.Success` | engine/expire_backoff.go:95-99 | forgets the key and nothing else |
| `Backoff.RoomKeepsWaiting` | engine/expire_backoff.go:135-164 | making room never forgets a waiting key while fewer keys wait than the table holds |
| `Sweeping.DeadlineSweep.FetchLimit` | engine/deadline_sweep.go:347-353 | the batch plus one place per waiting key, capped exactly when that exceeds the ceiling |
| `Sweeping.DeadlineSweep.Record` | engine/deadline_sweep.go:322-341 | failures and set-aside executions are not allowed again at this instant, others are forgotten, and no other key changes |
| `Sweeping.PageSuffices` | engine/deadline_sweep.go:343-353 | a page of that length yields the same first batch of open executions as the whole due list |
| `Sweeping.DeadlineSweep.Sweep` | engine/deadline_sweep.go:234-315 | a pass neither capped nor stopped attempts exactly the first batch of the due executions whose window had elapsed; it stops exactly at the first candidate where leadership is found lost or the sweep over, at an interrupted attempt, at the end of the page or with a full batch; the result counts the attempts by how they came back; the table stays within capacity |
| `Deadlines.DeadlinesAreEarliest` | engine/execution_deadline.go:37-45 | node, recovered, group and batch deadlines are the earliest of the budgets that are set, a batch has its parent's budget or, not knowing its issue time, none of its own, and all of them and every renewal are within the execution's |
| `Deadlines.RenewalsStayWithin` | engine/lease.go:734-777 | any number of renewals stays within the execution's deadline |
| `Deadlines.LastRenewalDecides` | engine/lease.go:749-771 | after any number of renewals the deadline is that of the last one, capped at the execution's |
| `Deadlines.SlackIffCutByExecution` | engine/expire_guard.go:55-57 | a built lease gets the clock slack if and only if no budget shorter than the execution's was set |
| `Deadlines.GuardAgreesWithExpiry` | engine/expire_guard.go:105-125 | a reached guard is never answered "not due" at that or a later instant, and on a shorter lease it means the deadline itself has passed |
| `Deadlines.ExactExpiryWouldContradict` | engine/expire.go:136-144 | without passing the slack on, the two would disagree exactly in the last milliseconds before the deadline |

## Left out

- Confluence.Confluent: excludes fatal commits and merge cancels, which end or retire work depending on timing.
- Leases.LeaseHistory: assumes a node's tasks do not mix activation zero with positive activations, which the counterexample beside it shows to be needed.
- OutboxLeases.DeadlineFences: assumes the clock advances between claims of one entry and no renewal shortens its lease; grants of different entries may share an instant, and `OutboxLeases.StaleRenewalIff` shows the claims are where it is needed.
- Batches.ResolveWindow: models the array a batch may write through; nested maps and lists inside items are values, so their aliasing is not captured.
- Merge cancel: the scan may reach any node unit instead of the merge's ancestors only; every theorem holds for that larger set of runs.
- Outbox claims pick any ready entries up to the batch size rather than the first in key order.
- Sub-workflow dispatch and conclusions; only the cancel cascade over linked children is modelled, and a child's own cancel is one step.
- Retry delays and jitter: an easy clamping loop that no other property depends on.
- Suspension in cyclic runs, signals, pause and resume, idempotency claims, concurrency admission and entry activation fencing.
- Key expiry in the Redis store, except where the "gone" verdict and the forgetting of ended executions depend on it.
- Payloads, outputs, hooks, metrics, tracing, namespaces, privacy and JSON encoding, which do not change control flow.
- The dispatcher's ticking, goroutines and locks: every store call is atomic and interleavings are explicit.
