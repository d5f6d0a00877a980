# Engine verification

A Dafny model of the parts of this repository whose correctness spans many steps: the workflow run
loop and the ledgers it keeps, the graph validator, the loop combinator, the budget gate and its two
restores, the suspension protocol, durable delivery, parallel branches, the cross-process build permit,
and the depth-bounded directory sweep. `dafny verify dfyconfig.toml` checks everything.

## How the model is built

A run is a fold. `Workflows.Iterate` is one pass of the run loop (cancel, then budget, then pause, then
one dispatch), `Workflows.Exec` folds it over any sequence of events: a *tick* is one boundary at which
the cancellation token and the pause signal may read anything, a *continue* is a resume from the stored
context alone. The imperative loop (`Workflows.Walk`, `RunWith`, `RunFrom`, `NodeContext`, over the
classes `TaskContext`, `BudgetLedger` and `ProgressSink`) is proved to compute exactly that fold, and the
theorems are about every event sequence, so they cover whole runs and runs cut into segments.

Nodes are arbitrary total functions from a context to a new context or an error. What is assumed of
them is written as predicates and asked for only where it is needed:

- `Nodes.Framed`: a node leaves statuses, the dispatch ledger and the stop markers to the engine.
- `Nodes.KeepsRows`: a node leaves the rows of the dispatch ledger alone; the ledger theorems ask no more, and
  the budget theorems ask nothing.
- `InnerSteps.OpensRecords`: a node may file run records of its own, as running, under new names.
- `Transparency.Oblivious`: what a node does depends on, and keeps equal, what is left when the suspension
  marker (other than a request), telemetry and row identifiers are forgotten.
- `LossyRestores.LeavesOthers`: a node leaves alone what other nodes report; `OwnEntries`: it reports nothing
  under any other name at all.
- `Loops.Ordinary`: a non-router node that keeps its frame and writes its own output only.

| file | part of the system |
|---|---|
| `json.dfy`, `context.dfy`, `task_context.dfy`, `schema.dfy` | values, the context and its markers, the mutable context, the schema |
| `suspend.dfy`, `budget.dfy`, `ledgers.dfy`, `nodes.dfy` | the marker protocol, the spend ledgers, sessions and dispatch rows, nodes and their registry |
| `workflow.dfy` | the run loop, as functions and as the methods proved against them |
| `runs.dfy`, `accounts.dfy`, `records.dfy`, `inner_steps.dfy`, `guarantees.dfy` | invariants of every run, by what they ask of nodes, and what follows from them |
| `transparency.dfy`, `lossy.dfy` | pause and resume change nothing; how far the lossy restore is off |
| `orders.dfy`, `graphs.dfy`, `validate.dfy`, `linear.dfy`, `unresolved.dfy` | sorting, graphs, the validator, router-free runs, runs that come to a missing node |
| `loops.dfy`, `loop_runs.dfy`, `loop_halting.dfy`, `loop_potential.dfy`, `endless.dfy` | loop clusters, their exact counts, halting with and without wrapping counters, and its converse |
| `durable.dfy`, `parallel.dfy`, `permits.dfy`, `permit_runs.dfy`, `sweep.dfy` | durable delivery, branch merging, build permits, the sweep |

## Where the code and its documentation disagree

The model follows the code.

- The documentation promises that declared nodes are registered and that every edge points at a real node
  (`README.md:88-91`, `crates/engine-core/src/validate.rs:33-34`), but `WorkflowValidator::validate` never
  returns `UnregisteredNode` and does not look at whether targets are declared
  (`crates/engine-core/src/validate.rs:85-103`); the run then stops where the node is missing.
  `UnresolvedRuns.AcceptedYetUnresolved` is an instance, `UnresolvedRuns.UnresolvedIffUnregistered` the exact
  condition; elsewhere registration and declared targets are explicit hypotheses.
- The path in a `Cycle` error is the whole search stack plus the repeated node
  (`crates/engine-core/src/validate.rs:187-190`); the cycle proper is a suffix of it.
- The loop counter is never reset and is read back in 32 bits, while it is stored in 64
  (`crates/engine-core/src/loop_combinator.rs:156-172`, `crates/engine-core/src/loop_combinator.rs:192-205`).
- A loop whose body leads straight into its own increment passes validation and never ends: "declared
  edges minus increment-to-body edges are acyclic" does not bound a run. `EndlessLoops.AcceptedYetEndless`
  gives such a workflow, and `EndlessLoops.CutGraphDecidesHalting` gives the condition that is exact.
- The module comment of the parallel node promises that disjoint keys from every branch survive
  (`crates/engine-core/src/parallel.rs:8-12`). A later branch's untouched copy of an inherited key
  overwrites an earlier branch's update: `ParallelBranches.DisjointUpdateIsLost` is an instance, and
  `ParallelBranches.DisjointWritesSurvive` says exactly when.
- `Identified` moves whatever sits under the inner node's default identity
  (`crates/engine-core/src/node.rs:202-208`): `Nodes.RelabelStealsForeignEntry`.
- An agent step whose name is not the dispatched identity files a run record as running
  (`crates/engine-core/src/nodes/agent_code_step.rs:632-642`) that only a later dispatch of that name closes, so
  a returned context may show a running node: `InnerSteps.InnerStepsShowAsRunning` says exactly when. Its usage
  is never folded into the live ledger but is summed by the lossy restore, which can therefore exceed it
  (`LossyRestores.RebuiltExceedsLive`, `LossyRestores.LossyRestoreIsOffBy`).
- A node-requested suspension is not preceded by a budget check (`Guarantees.RequestSuspendsOverCap`), only the
  operator's pause is (`Guarantees.OperatorPausesBelowCaps`); `Guarantees.ResumeHaltsAtStoredSpend` says exactly
  which resumes are halted at once. And the derived terminal status does not look at suspension.
- `_sweep_stale` never looks at its age limit (`scripts/fleet_build.py:172-189`): a stranded permit whose
  pid was taken over stays (`Permits.StrandedPermitStays`, `PermitRuns.StrandedPermitBlocks`), and a wrapper
  that was given the pid keeps itself out (`PermitRuns.WrapperKeepsItselfOut`).
- Its comment says a live holder is never swept, but an entry that fails to be read is removed whoever holds it
  (`scripts/fleet_build.py:181-185`). `PermitRuns.OneFailedReadExceedsMax` shows the maximum exceeded that
  way. The safety theorems hold as long as no read of a live holder's file fails, and that is exact: after one
  such failure a holder can lose its permit (`Permits.FailedReadIsExactlyTheBreach`) and any maximum can be
  exceeded (`PermitRuns.FailedReadIsExactlyTheOverrun`).

## Model

| member | source | states |
|---|---|---|
| `Workflows.NodeContext` | crates/engine-core/src/workflow.rs:686-836 | One node call in place: running snapshot, then success or rollback, row appended; the context, the failure flag and the two snapshots equal `Dispatch` of the context before |
| `Workflows.StampFailure` | crates/engine-core/src/workflow.rs:775-834 | Carried sessions one by one in order, the node's own report, the failed run record and the row end in exactly `Fail` of the pre-call context |
| `Workflows.Walk` | crates/engine-core/src/workflow.rs:406-528 | The loop over context, ledger and sink ends in exactly the state `Exec` gives for the boundaries it read: same exit, context, spend and snapshots |
| `Workflows.Pass` | crates/engine-core/src/workflow.rs:433-524 | One pass, cancel before budget before pause before dispatch, with the marker, telemetry and snapshot of each early exit |
| `Workflows.FinishVisit` | crates/engine-core/src/workflow.rs:477-523 | After a dispatch: break on failure, fold the spend, resolve the successor, suspend only when requested and a successor exists |
| `Workflows.RunWith` | crates/engine-core/src/workflow.rs:314-332 | A fresh run seeds every declared node as pending, starts from an empty ledger and computes `Exec` from `Begin` |
| `Workflows.RunFrom` | crates/engine-core/src/workflow.rs:341-361 | A resume uses the stored context only: pointer and spend from its marker, the lossy rebuild when no spend was stored; it computes `Exec` from `Resumed` |
| `Workflows.ExecConcat` | crates/engine-core/src/workflow.rs:334-361 | A run may be cut anywhere: running the first part and then the rest is running the whole |
| `TaskContexts.TaskContext.SeedMissingPending` | crates/engine-core/src/workflow.rs:265-276 | Declared nodes the context has never heard of become pending; every existing run record stays untouched |
| `Runs.DispatchHasOutline` | crates/engine-core/src/workflow.rs:686-836 | One dispatch appends exactly one row, numbered by the ledger's length and carrying the dispatch's id, ends its node in success or failure, and keeps every other status and every stop marker |
| `Records.NodeSeesTheContext` | crates/engine-core/src/workflow.rs:686-719 | A node is given the context as it stands, but for its own run record, which shows it running and keeps the rest of itself |
| `Records.SuccessKeepsReturnedContext` | crates/engine-core/src/workflow.rs:727-773 | What a node hands back is kept whole: event, outputs, all metadata but the one row appended, every run record, its own turned to success |
| `Records.RowRecordsDispatch` | crates/engine-core/src/workflow.rs:721-834 | A dispatch's row: its id, node and outcome, run and campaign and cap as before the call, an error's message, or the node's own output, recorded whole within the cap and marked as cut beyond it |
| `Records.SessionsAreThoseOfCalls` | crates/engine-core/src/workflow.rs:741-834 | Over whole runs the sessions are exactly those the node calls appended or carried in their errors, in call order |
| `Records.EveryVisitSpendsReported` | crates/engine-core/src/workflow.rs:477-503 | Over whole runs each visit folds in what its node reported under its own name, and a failed one nothing |
| `Records.EveryReportedFieldCounts` | crates/engine-core/src/workflow.rs:628-654 | Both cache channels and a cost of either number kind are read from a node's output; a missing one adds nothing |
| `Records.EveryChannelCounts` | crates/engine-core/src/budget.rs:178-193 | Input and output tokens both count, and cache tokens beside them |
| `Records.EveryVisitLeadsByRule` | crates/engine-core/src/workflow.rs:495-508 | Over whole runs a router's choice is followed, its refusal to choose ends the walk, any other node leads to the first of its connections, and the walk stands, waits or has completed accordingly |
| `Records.PassStampsOnlyItsExit` | crates/engine-core/src/workflow.rs:433-527 | A pass stamps nothing but the marker of the exit taken and the telemetry, and nothing where the walk goes on |
| `Records.EveryExitIsStamped` | crates/engine-core/src/workflow.rs:433-527 | Over whole runs every exit but that at a missing node has stamped the telemetry last, harvested from the context with its marker set, and a budget halt names the cap reached and the spend that reached it |
| `Records.BeginIsSeeded` | crates/engine-core/src/workflow.rs:369-393 | A fresh run holds the event it was given, the seeded outputs, every declared node pending, its run id, and nothing else |
| `Records.EventIsTheOneGiven` | crates/engine-core/src/workflow.rs:314-332 | Nodes that leave the event alone run on the one the run was given, through every resume |
| `Records.ResumeKeepsStoredContext` | crates/engine-core/src/workflow.rs:341-361 | A resume keeps the stored context but for the marker, which it clears and counts, and a run id of its own; a declared node never heard of becomes pending |
| `Runs.PassOutline` | crates/engine-core/src/workflow.rs:433-524 | A pass either stops early (markers only, one snapshot) or is one visit whose spend, snapshots and successor are as recorded |
| `Runs.ResumeChangesOnlyTheMarker` | crates/engine-core/src/workflow.rs:341-361 | From an engine-made suspension a resume restores pointer and spend exactly and changes nothing but the marker |
| `Runs.PassKeepsInvariant` | crates/engine-core/src/workflow.rs:433-524 | Every pass keeps the ledger, snapshot, marker and budget invariants |
| `Runs.EveryRunKeepsInvariant` | crates/engine-core/src/workflow.rs:314-528 | Those invariants hold in every reachable state, resumes included: no request pending at a loop top, exactly the marker of the exit taken, ledger equal to the sum of all visits' spend |
| `Accounts.EveryRunKeepsRows` | crates/engine-core/src/workflow.rs:741-834 | Of the nodes this asks only that they leave the ledger's rows alone: one row per visit, snapshots prefix-ordered, over every run |
| `Accounts.EveryRunKeepsAccount` | crates/engine-core/src/workflow.rs:443-523 | Of the nodes this asks nothing: the spend ledger is the sum of all visits' spend, and a suspension stores pointer and spend exactly, and the reason that the operator's pause or the node's own request gave |
| `Guarantees.OutcomeIsExclusive` | crates/engine-core/src/completion.rs:100-136 | At most one of cancelled, budget-halted and suspended is ever set, none after a node failure, and the derived status names the exit taken |
| `Guarantees.TerminalStatusByMarker` | crates/engine-core/src/completion.rs:100-136 | Each derived status by what it takes: cancellation before a budget halt, either before a failure |
| `Guarantees.CancelStopsDispatching` | crates/engine-core/src/workflow.rs:433-441 | Once boundaries read the token as cancelled at most one more dispatch begins, and the walk ends cancelled |
| `Guarantees.InvocationLedgerIsExact` | crates/engine-core/src/invocations.rs:110-145 | Over any number of segments: one row per dispatch in dispatch order, numbered 0 to n-1, at most one failed and then last; ledgers shown by successive snapshots are prefixes of one another |
| `Guarantees.SnapshotsAreCounted` | crates/engine-core/src/workflow.rs:369-524 | Whatever the nodes do: one snapshot per segment start, two per dispatch, one per early stop |
| `Guarantees.SnapshotStateMachine` | crates/engine-core/src/workflow.rs:369-524 | For framed nodes each snapshot shows at most one running node, the one in flight; failure shows only last; a returned context shows none running; the resume count is the number of resumes |
| `InnerSteps.InnerStepsShowAsRunning` | crates/engine-core/src/nodes/agent_code_step.rs:632-642 | Where nodes may file run records for inner steps: in every run a name shows as running if and only if some visit filed it as an inner step and it was not dispatched at that visit or later |
| `InnerSteps.SnapshotsShowOpenSteps` | crates/engine-core/src/workflow.rs:431-524 | There every snapshot shows as running exactly the inner steps left open by the visits whose rows it holds, and besides at most the one node in flight |
| `Guarantees.InnerStepStaysRunning` | crates/engine-core/src/nodes/agent_code_step.rs:632-642 | An instance: a completed run returns an inner step as running if and only if its name is not the dispatched one |
| `Guarantees.BudgetBoundsWholeRuns` | crates/engine-core/src/workflow.rs:443-503 | Every dispatch of every run, resumes included, begins strictly below each cap, so recorded spend stays below the cap plus the last node's spend |
| `Guarantees.OperatorPausesBelowCaps` | crates/engine-core/src/workflow.rs:443-468 | A suspension the operator asked for leaves the run strictly below every cap |
| `Guarantees.ResumeHaltsAtStoredSpend` | crates/engine-core/src/workflow.rs:341-448 | Any suspended run is halted at the first uncancelled boundary after its resume if and only if the spend its marker stores has reached a cap; after an operator's pause never |
| `Guarantees.RequestSuspendsOverCap` | crates/engine-core/src/workflow.rs:517-523 | An instance: a node's request suspends the run whatever the node has just spent, at or above the cap too |
| `Guarantees.FailedDispatchRollsBack` | crates/engine-core/src/workflow.rs:775-834 | After a node error only its run record, its optional report, the carried sessions and one row differ from the context before |
| `Guarantees.FailedDispatchConservesSessions` | crates/engine-core/src/sessions.rs:121-219 | Session totals grow by exactly the carried sessions'; earlier sessions are neither lost nor doubled |
| `Transparency.PausesAreTransparent` | crates/engine-core/src/workflow.rs:341-523 | For every sequence of pauses and resumes without cancellation, the cut run is the same run as the uninterrupted one at as many boundaries as it did work |
| `Transparency.CutRunEndsLikePlainRun` | crates/engine-core/src/suspend.rs:137-181 | A cut run that ended ends as the uninterrupted one: same exit, dispatch sequence, event, outputs, run records, sessions, rows up to ids, stop markers and spend |
| `Transparency.CancelledRunsEndAlike` | crates/engine-core/src/workflow.rs:433-441 | A cancellation of the cut run is matched by one at the same working boundary of the uninterrupted run: both end cancelled and alike |
| `LossyRestores.LossyRestoreIsOffBy` | crates/engine-core/src/budget.rs:140-166 | At every suspension the rebuilt ledger lacks exactly the spend that repeated visits overwrote and has exactly the spend reported under names that belong to no node; it is no more than the live one if and only if the second is no more than the first |
| `LossyRestores.LossyRestoreIsALowerBound` | crates/engine-core/src/budget.rs:140-166 | Where nodes and seeds report nothing under foreign names it is never above the live ledger, and equal when no identity ran twice |
| `LossyRestores.RebuiltExceedsLive` | crates/engine-core/src/nodes/agent_code_step.rs:632-642 | A run whose inner step's usage is rebuilt although the live ledger never counted it |
| `LossyRestores.ResumeStartsFrom` | crates/engine-serve/src/resume.rs:402-409 | A resume takes the spend its marker stores; where it stores none, everything the context reports |
| `LossyRestores.ResumeHaltsAtReportedSpend` | crates/engine-serve/src/resume.rs:402-409 | The first uncancelled boundary after such a resume halts it if and only if what the context reports has reached a cap |
| `LossyRestores.ResumeWithoutSpendIsOffBy` | crates/engine-core/src/budget.rs:125-166 | Over runs: with its stored spend erased, a suspended run resumes from the live spend less what repeated visits overwrote plus what was reported under foreign names |
| `Budgets.CheckIsMonotone` | crates/engine-core/src/budget.rs:226-266 | With non-negative spends a halt stays a halt, and tokens are named whenever both caps are reached |
| `Budgets.HaltNamesFigures` | crates/engine-core/src/budget.rs:238-266 | The gate allows exactly below every cap, and a halt names the spend it saw and the cap it reached |
| `Budgets.BudgetLedger.Record` | crates/engine-core/src/budget.rs:178-193 | Usage, cache tokens and cost are added; an unknown cost adds nothing |
| `Budgets.BudgetLedger.FromContext` | crates/engine-core/src/budget.rs:140-173 | The rebuilt ledger is the one that sums each run record's usage and each output's cache tokens and cost |
| `Budgets.SumUsage` | crates/engine-core/src/budget.rs:140-150 | The loop over run records in any order sums their usage |
| `Budgets.SumOutputs` | crates/engine-core/src/budget.rs:150-173 | The loop over outputs in any order sums cache tokens and cost and notices an unknown cost |
| `Budgets.CampaignLedger.RecordStep` | crates/engine-core/src/budget.rs:318-325 | Steps add up, unknown costs are remembered and add nothing |
| `Budgets.CampaignLedger.CheckStep` | crates/engine-core/src/budget.rs:353-356 | The gate between steps allows if and only if the whole chain's recorded spend is below every cap |
| `Budgets.ChainSpendAdds` | crates/engine-core/src/budget.rs:318-325 | A chain's recorded spend is additive, and one step spends its tokens and its known cost |
| `Suspensions.TrailCountsResumes` | crates/engine-core/src/suspend.rs:137-214 | After any sequence of marker writes the resume count is the number of resumes since the marker first existed |
| `Suspensions.HistoryDecides` | crates/engine-core/src/suspend.rs:137-283 | Over whole mixed histories: the latest suspend or resume decides suspension, the latest suspend alone holds pointer and spend, the latest write but a resume decides the reason, a request stands until the next suspend or resume |
| `Ledgers.RollUp` | crates/engine-core/src/sessions.rs:204-219 | One pass over the sessions gives their count, cost, token and unknown-cost totals |
| `Ledgers.TotalsAreAdditive` | crates/engine-core/src/sessions.rs:204-219 | Totals of a ledger with sessions appended are the two parts' totals added |
| `Ledgers.OneSessionCounts` | crates/engine-core/src/sessions.rs:204-219 | A single session counts for itself in every channel |
| `Nodes.InstancesAreIndependent` | crates/engine-core/src/node.rs:188-212 | Two instances of one type under different identities leave both outputs standing and nothing under the default identity |
| `Nodes.NodeRegistry.Register` | crates/engine-core/src/node.rs:351-354 | A node is filed under its own name, replacing an earlier one; every key stays its node's name |
| `Nodes.RelabelStealsForeignEntry` | crates/engine-core/src/node.rs:202-208 | A wrapper around a node that leaves its default entry alone adds nothing if and only if there is no such entry; otherwise it moves the foreign entry to its own identity |
| `Validation.VisitReachable` | crates/engine-core/src/validate.rs:118-132 | The worklist ends with exactly the identities the start reaches over declared connections |
| `Validation.CheckReachability` | crates/engine-core/src/validate.rs:118-146 | Accepts if and only if every declared node is reachable; otherwise names the least unreachable one |
| `Validation.CycleSearch.Visit` | crates/engine-core/src/validate.rs:171-204 | The marking search ends on every graph; it closes the node and all below it in an order no edge contradicts, or returns a walk that closes a cycle |
| `Validation.CheckCycles` | crates/engine-core/src/validate.rs:151-169 | Accepts if and only if the declared graph without router out-edges has no cycle; a rejected path is a walk whose last node occurs earlier in it |
| `Validation.Validate` | crates/engine-core/src/validate.rs:85-103 | Accepts exactly the well-formed schemas, reports the first kind of defect with a true witness, and never reports an unregistered node |
| `UnresolvedRuns.EveryRunStandsReachable` | crates/engine-core/src/workflow.rs:470-508 | Without routers, whatever the nodes do and whatever signals come, a run stands only at names reachable over declared connections, and stops unresolved only at one without a node |
| `UnresolvedRuns.UnresolvedIffUnregistered` | crates/engine-core/src/workflow.rs:470-472 | An accepted router-free schema, its nodes succeeding, can stop unresolved if and only if some name reachable over declared connections has no node |
| `UnresolvedRuns.AcceptedYetUnresolved` | crates/engine-core/src/validate.rs:85-103 | A schema that validation accepts and whose run stops at a name neither declared nor registered |
| `LinearRuns.ValidatedSchemaIsOnePath` | crates/engine-core/src/validate.rs:85-169 | A validated router-free schema with declared targets is one simple path through every declared node |
| `LinearRuns.EveryRunFollowsPath` | crates/engine-core/src/workflow.rs:433-524 | Whatever its nodes do and whatever signals it is sent, a run of it dispatches a prefix of that path, in order, and stands, waits or has completed accordingly |
| `LinearRuns.LinearWorkflowRunsEveryNodeOnce` | crates/engine-core/src/workflow.rs:433-508 | An undisturbed run over it, its nodes succeeding, completes having dispatched every declared node exactly once, in path order, all ending as successes |
| `Loops.IdentitiesAreDistinct` | crates/engine-core/src/loop_combinator.rs:102-112 | Clusters of different prefixes share no identity, and none collides with a base name |
| `Loops.LoopDispatch` | crates/engine-core/src/loop_combinator.rs:155-222 | In a workflow of loop clusters and ordinary nodes one dispatch moves at most the dispatched increment's own counter, by one, and leads along a declared connection, a guard's by its own rule |
| `LoopRuns.FirstEntryRunsExactly` | crates/engine-core/src/loop_combinator.rs:155-222 | On first entry the k-th guard visit finds the counter at k-1 and leaves if and only if k reaches the bound or the predicate holds there |
| `LoopRuns.TurnsNeverExceedBound` | crates/engine-core/src/loop_combinator.rs:185-222 | Over a whole run, however often the loop is re-entered, its increment runs at most max(0, bound-1) times and its counter is the number of those runs |
| `LoopRuns.GuardReadsThirtyTwoBits` | crates/engine-core/src/loop_combinator.rs:155-173 | Whatever count is stored, a guard reads it in 32 bits, adds the body run in flight, and leaves at the bound or on the predicate |
| `LoopHalting.DispatchesStayWithinBound` | crates/engine-core/src/loop_combinator.rs:155-284 | With no cycle in the cut graph, and where no counter can wrap, every run takes at most nodes x (1 + sum of turns) dispatches and returns |
| `LoopPotential.LoopWorkflowsHalt` | crates/engine-core/src/loop_combinator.rs:155-284 | With no cycle in the cut graph every run halts, counters wrapping or not, within nodes x (1 + loops x 2^32)^(nodes + 1) dispatches |
| `EndlessLoops.SomeVariationNeverHalts` | crates/engine-core/src/loop_combinator.rs:155-284 | With a cycle in the cut graph there are exit predicates, and idle nodes, under which no undisturbed run ever returns |
| `EndlessLoops.CutGraphDecidesHalting` | crates/engine-core/src/loop_combinator.rs:155-284 | All choices of exit predicates and ordinary nodes halt if and only if the cut graph has no cycle, whatever the bounds |
| `EndlessLoops.AcyclicForwardSuffices` | crates/engine-core/src/loop_combinator.rs:238-284 | When increments are entered from their own guards only, acyclic forward edges make the cut graph acyclic |
| `EndlessLoops.AcyclicForwardPassesValidation` | crates/engine-core/src/validate.rs:171-204 | Clusters are acyclic to the validator although cyclic at run time |
| `EndlessLoops.AcceptedYetEndless` | crates/engine-core/src/loop_combinator.rs:217-222 | A workflow that passes validation with acyclic forward edges and itself never halts when left undisturbed: its body leads straight into its increment |
| `DurableDelivery.Forwarder.OnProgress` | crates/engine-serve/src/durable.rs:314-332 | Each snapshot is sent, then every ledger row past the mark in order, and the mark rises to the ledger's length |
| `DurableDelivery.Writer.Drain` | crates/engine-serve/src/durable.rs:229-284 | The writer applies every item in order; without a pool it takes and drops them |
| `DurableDelivery.ForwardsEachRowOnce` | crates/engine-serve/src/durable.rs:301-332 | Over snapshots whose ledgers grow at the end, one forwarder sends each row exactly once, in order |
| `DurableDelivery.MarkIsTheLongest` | crates/engine-serve/src/durable.rs:301-332 | Over any snapshots, shrinking ledgers included, the mark is the longest ledger shown and the number of rows sent |
| `DurableDelivery.TableHoldsExactlyTheLedger` | crates/engine-store/src/postgres.rs:312-331 | After any number of processes, cut off mid-drain or with writes refused, one drained forwarder leaves exactly the last snapshot's rows beside other runs' rows, revising none, that snapshot, and every other run's snapshot as it was |
| `DurableDelivery.WritingKeepsOtherSnapshots` | crates/engine-store/src/postgres.rs:97-114 | Writes leave alone the snapshot of every run they hold none of |
| `DurableDelivery.RefusedWriteChangesNothing` | crates/engine-serve/src/durable.rs:239-270 | A write the database refuses changes nothing, wherever in the channel it comes |
| `DurableDelivery.RowIdsAreDistinct` | crates/engine-core/src/workflow.rs:741-771 | With fresh identifiers at each boundary no two rows of a run share an id |
| `DurableDelivery.RunsAreDeliveredExactly` | crates/engine-serve/src/durable.rs:301-332 | For the engine's own runs, cut into any stretches of snapshots, that delivery theorem holds with no further assumption |
| `ParallelBranches.MergeBranchOutputs` | crates/engine-core/src/parallel.rs:89-106 | The nested insert loops compute the overlay of all branches over the parent |
| `ParallelBranches.MergedEntry` | crates/engine-core/src/parallel.rs:86-106 | A merged entry is the last holding branch's, else the parent's, for outputs and run records; event and metadata stay the parent's |
| `ParallelBranches.FreshKeySurvivesEveryOrder` | crates/engine-core/src/parallel.rs:8-12 | A key only one branch returns survives in every order of the branches |
| `ParallelBranches.DisjointWritesSurvive` | crates/engine-core/src/parallel.rs:8-12 | With disjoint writes a branch's entry survives if and only if the key was new to the parent, the branch is last, or the value equals the parent's |
| `ParallelBranches.DisjointUpdateIsLost` | crates/engine-core/src/parallel.rs:86-106 | Two branches writing one key each, the first an inherited one: its update is lost |
| `ParallelBranches.Process` | crates/engine-core/src/parallel.rs:111-181 | Both modes compute `Processed`: the first branch error in declared order, or the merge with every branch's outcome |
| `ParallelBranches.ProcessFailRun` | crates/engine-core/src/parallel.rs:129-142 | Succeeds if and only if every branch does, with their merge; otherwise returns the first failing branch's error |
| `ParallelBranches.ParallelReturnsLastBranch` | crates/engine-core/src/parallel.rs:86-181 | Read off the branches: every output and run record is that of the last successful branch, in declared order, that returns one, else the parent's; event and metadata are the parent's |
| `ParallelBranches.FailRunPropagatesFirst` | crates/engine-core/src/parallel.rs:129-142 | Failing the run, it fails if and only if some branch does, with the first failing branch's whole error |
| `ParallelBranches.OutcomesRecordEveryBranch` | crates/engine-core/src/parallel.rs:143-179 | The outcome entry has one object a branch, in declared order, with its name, whether it succeeded, and its error only if it did not |
| `ParallelBranches.TolerateAddsOutcomesOnly` | crates/engine-core/src/parallel.rs:143-179 | Tolerating equals failing the run on the branches that succeed, plus the outcome entry; with no failures the two modes differ in that entry only |
| `ParallelBranches.ParallelIsFramed` | crates/engine-core/src/parallel.rs:111-181 | A parallel node of framed branches is framed, so the theorems about runs hold with it |
| `Permits.HoldersNeverExceedMax` | scripts/fleet_build.py:258-286 | Under every interleaving in which no read of a live holder's file fails, with kills between any two file operations and pid reuse allowed, live holders never exceed the maximum |
| `Permits.HolderKeepsItsPermit` | scripts/fleet_build.py:172-189 | In the same runs no other process's step removes or changes a live holder's permit |
| `Permits.DecideLetsIn` | scripts/fleet_build.py:274-284 | A decision lets a process go on to its claim exactly when a slot is free and memory suffices |
| `Permits.EveryHolderWasLetIn` | scripts/fleet_build.py:258-286 | Over every run whoever holds or is claiming a permit was let in by a decision taken since it last took the lock, with a slot free in the directory it had counted and memory enough |
| `Permits.RefusedTriesAgain` | scripts/fleet_build.py:274-287 | A process turned away leaves the lock and the directory as they are and can try again |
| `Permits.ClaimedBuildsAndReleases` | scripts/fleet_build.py:280-347 | A process that has claimed leaves the lock and builds; done, it removes its own file and no other |
| `Permits.DegradedMetAFailure` | scripts/fleet_build.py:325-347 | Over every run whoever builds without a permit had the store fail on it |
| `Permits.FailedReadIsExactlyTheBreach` | scripts/fleet_build.py:181-185 | The condition is exact for the permit: the next action breaks it if and only if the sweep's own next step can leave a live holder without its permit |
| `PermitRuns.FailedReadIsExactlyTheOverrun` | scripts/fleet_build.py:181-185 | And for the maximum: the next action breaks it if and only if the run can then go on, with no further such failure, until live holders exceed the maximum, whatever it is |
| `PermitRuns.OneFailedReadExceedsMax` | scripts/fleet_build.py:181-185 | So two processes can come to build under a maximum of one |
| `Permits.RefusedOnlyWhenFull` | scripts/fleet_build.py:267-286 | An attempt is refused only for lack of memory, or because when it took the lock for this very attempt live holders and unreaped processes' permits reached the maximum; with pid reuse, live holders and stranded permits |
| `Permits.StrandedPermitStays` | scripts/fleet_build.py:172-189 | A dead holder's permit whose pid was taken over, by an outside process or another wrapper, goes on standing through a step if and only if that pid still runs and the step is no failed read of it: age is never looked at |
| `PermitRuns.StrandedPermitBlocks` | scripts/fleet_build.py:172-189 | Such a permit is reached by a run, and turns an attempt away although memory suffices and nobody holds a permit |
| `PermitRuns.WrapperKeepsItselfOut` | scripts/fleet_build.py:172-189 | A wrapper given the pid keeps the dead process's permit in its own sweep and is refused, with no process outside the fleet and no holder |
| `Permits.PermitDir.SweepStale` | scripts/fleet_build.py:172-189 | The sweep leaves exactly the complete entries it can read whose process runs |
| `Permits.LoneSweepIsSwept` | scripts/fleet_build.py:172-189 | The protocol's sweeping steps, left alone, leave what the loop leaves, failed reads included |
| `Permits.PermitDir.AcquirePermit` | scripts/fleet_build.py:258-286 | The poll that claims has memory enough and a slot free once swept, every earlier one lacked one of the two, and the directory is its swept content plus the caller's permit |
| `Sweeps.Sweep` | crates/engine-core/src/roadmap_status.rs:184-210 | The worklist ends on every directory graph, cyclic ones included, and returns, sorted, exactly the matching files on paths of at most the bounded number of unskipped directory steps, each once |
| `Sweeps.HitsAreFound` | crates/engine-core/src/roadmap_status.rs:180-210 | The hits of the bounded unfolding are exactly the files described step by step, without reference to the traversal |
| `Sweeps.SweepLimits` | crates/engine-core/src/roadmap_status.rs:52-59 | In plain figures: a file is found behind at most twelve directories, each leading to the next and none a build or dependency directory |
| `Sweeps.KindsComeInOrder` | crates/engine-core/src/roadmap_status.rs:184-210 | Sorted paths: the root first, then the current directory, then the parent, then names, and equal heads compare by what follows |
| `Sweeps.RealpathDedup` | crates/engine-core/src/roadmap_status.rs:221-251 | With parents resolved once and remembered, the sorted distinct result is the image of the hits under the uncached resolver |
| `Sweeps.HitsAreTakenFromRoot` | crates/engine-core/src/roadmap_status.rs:221-229 | A relative hit is one under the root; an absolute one stands for itself, whatever the root |
| `Sweeps.NamelessStandsForItself` | crates/engine-core/src/roadmap_status.rs:230-240 | The root and a path that ends in no name are taken as they are |
| `Sweeps.DisksAreCoherent` | crates/engine-core/src/roadmap_status.rs:212-220 | On every disk of directories, files and links, real paths are found component by component, and only links change a name |
| `Sweeps.ResolvesToCanonical` | crates/engine-core/src/roadmap_status.rs:221-251 | So resolving the parent and then a linked leaf gives an existing hit's full real path |
| `Sweeps.SameFileSameHit` | crates/engine-core/src/roadmap_status.rs:212-220 | Existing hits collapse into one if and only if they are the same file |
| `Sweeps.AliasesMeet` | crates/engine-core/src/roadmap_status.rs:212-251 | An instance: through a directory link, through `..` and through a file link one and the same file is found |

## Left out

- Workflows.Walk: the method is given enough boundary observations to return, so a walk that never returns has no value; `Exec` covers it step by step, and halting is proved separately.
- Workflows.RunFrom: the refusal of stored contexts without a pointer, and the heavy-work resume gate of the HTTP layer, are not modelled.
- LoopHalting.DispatchesStayWithinBound: the small bound holds where increments are entered from their guards only, or where it stays below 2^32; elsewhere a counter can wrap when it is read back, and only the larger bound of LoopPotential.LoopWorkflowsHalt is proved.
- Runs.EveryRunKeepsInvariant: a resume is one call of `run_from`; the heavy-work path (`crates/engine-core/src/workflows/queue_park.rs:215-245`) first stamps a resume of its own and files the awaited outcome, so there the resume count is twice the number of resumes; and a cancellation while it waits (`crates/engine-core/src/workflows/queue_park.rs:237-243`) is stamped onto a context still marked suspended, so there both markers are set. That path is not modelled.
- UnresolvedRuns.UnresolvedIffUnregistered: speaks of workflows without routers; a router may name any identity, declared or not.
- Transparency.PausesAreTransparent: speaks of runs nobody cancels; a cancellation at a boundary is matched by Transparency.CancelledRunsEndAlike, one that falls between two segments is not.
- Permits.HoldersNeverExceedMax: bounds the wrappers, not their children; a killed wrapper may leave its build running. All processes share one maximum.
- Permits.PermitDir.AcquirePermit: is given the polls it makes, one of which admits; whether one ever comes is up to the other processes.
- Permits.RefusedOnlyWhenFull: a failed write leaves no file or a partial one; a write that fails after its last byte is not modelled.
- ParallelBranches.Process: branches run one after the other on copies of the context; the interleaving inside `join_all` is not modelled.
- DurableDelivery.TableHoldsExactlyTheLedger: the store is a map with insert-if-absent; creation and update times, journal rows and progress items are left out.
- Budgets.BudgetLedger.Record: costs are reals and totals unbounded integers, so float rounding and u64 overflow are not modelled.
- Clocks and timestamps, tracing spans and the contents of the telemetry stamp, which is an opaque value computed from the context.
- Serde formats and malformed metadata: markers and ledgers are datatypes, so the repairs of ill-formed metadata are not modelled. The encoded length that payload truncation compares is a parameter.
- The cancellation token and the pause signal are not modelled as shared flags: each boundary may read anything, which covers every behaviour of theirs.
- Nodes are deterministic functions of the context; I/O inside a node is not modelled.
- HTTP handlers, Postgres, the queue bridge, the progress sinks, input bindings, the rest of `roadmap_status`, and the scripts around external tools: plumbing, or easy members.
