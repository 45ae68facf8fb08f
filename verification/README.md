# cc-loop: its scheduler, its recovery loop and its parallel batches, verified

`cc-loop` drives a plan, implement, test, review and merge cycle over a graph of dependent nodes.
This project models that machinery and proves what it keeps:

* the **task graph** (`TaskGraph`, `Blocking`, `ScanOutcome`, `Dispatcher`, `GraphRuns`): node objects
  scanned and marked in place; what a scan selects and blocks, progress, and the soundness of every run;
* **graph patches** (`GraphPatch`, `PatchSafety`, `PatchEffects`, on `Reachability`): the depth-first
  search with its shared visited set, validation, application in place, what an accepted patch keeps,
  and what every field is after it;
* the **auto loop** (`TaskState`, `AutoLoop`, then `DecisionTable`, `MergeGate`, `PhaseOutcomes`,
  `AutoTermination`, `UncountedSteps`, `AutoSafety`, `AutoRuns`, `Evidence`, `AutoHistory`, `FirstPass`,
  with `AttemptNaming`, `MergeMessages` and `Runs`): a transition system over status, iteration, history
  and counters, whose inputs (`World`) are whatever providers, tests, reviewers and git answer.
  `TaskRunner` is the same machine as the program has it, a task record updated field by field, proved
  method by method against the functions of `AutoLoop`;
* the **parallel batch** (`StateLock`, `NodePipeline`, `ParallelBatch`, `BatchResults`,
  `WorkerIsolation`): threads interleaved under a re-entrant lock, and workers whose updates are
  conserved in every order.  `ParallelRunner` and `MergeQueue` are the coordinator's loops and the
  serial merge queue; `ParallelChain`, `ParallelSafety`, `BatchEvidence` and `ParallelSoundness` follow a
  batch from discovery to its merges and to the next batch;
* **patch selection** for the reviewer (`PatchSelection`) and the **test command** (`TestCommand`).

The usual reading order is the functions of a module, then the classes that compute them, then the
lemmas.  A graph node, an attempt and a task are values in the functions (`Node`, `Attempt`, `Task`)
and objects in the classes; `View()` is the value an object holds.  `ScanOutcome`, `PatchEffects`,
`DecisionTable`, `MergeGate`, `PhaseOutcomes` and `Evidence` say what those functions come to over
statuses, fields and inputs alone, without the predicates the functions are made of.

## Where the code does not do what it says

The model follows the code.  Each of these is a theorem about it.

* "True if adding the edge creates a cycle" (graph_patch.py:66): the edge is inserted before the
  search, so the answer is true for every pair, and no `add_dependency` is ever accepted
  (`CycleTestAlwaysTrue`, `CycleTestIsRightExactlyWhen`, `AcceptedAddsNoDependency`).
* Validation does not look at values, so an accepted patch can stop halfway in memory
  (`AcceptedPatchCompletesExactlyWhen`, `AcceptedPatchCanStopHalfway`); with repeated ids it can undo
  passed work (`DuplicateIdsLosePassedWork`, `PatchUndoesNothingExactlyWhen`), and two added nodes may
  share an id (`PatchKeepsUniqueIds`).
* The message stored for a busy merge worktree is read back as an unknown merge failure, so the merge
  retry counter stays 0 (`ReadBackForgetsBusy`, `NoBusyReport`, `RepairsAreCounted`).
* The auto loop can go on for ever.  What nothing counts is, exactly, a replan, a merge retry, and
  the resume of an attempt that was not rejected (`PassProgressesExactlyWhen`).  Each of them can
  repeat: a merge that keeps failing and an approved attempt that no policy lets it merge
  (`ApprovedRepeatsExactlyWhen`, `UnmergeableRepeatsExactlyWhen`), a replan (`ReplanLeadsToReplan`,
  `ReplanRepeatsExactlyWhen`, `FailingReplanRepeatsExactlyWhen`), and a planner, implementer or
  reviewer that keeps failing, or a graph with nothing to run, since the handler asks for recovery
  budget and does not spend it (`FailedPlanningRepeats`, `FailedImplementerRepeatsExactlyWhen`,
  `FailingReviewRepeatsExactlyWhen`).  Runs reach such states (`PassReachesMergeFailed`,
  `PassReachesUnmergeable`, `PassReachesImplementerFailed`, `PassReachesNothingToRun`).
* Most implementer failures mark `history[-1]` rather than the attempt the phase was given.  In a
  parallel batch this can overwrite the last attempt and its node, exactly as
  `LastAttemptSurvivesExactlyWhen` and `BatchLeavesNodes` say, and strand an approved node in the
  merge queue (`LastNodeIsFoundExactlyWhen`, `TwoWorkersCanStrand`).  No schedule does so exactly when
  no other worker strays (`LastAttemptIsSafeExactlyWhen`, `NoScheduleStrandsExactlyWhen`).
* The merge loop does not save when it finds no attempt for the head of the queue, so it reloads the
  same head for ever unless that head is alone (`MergeLoopEndsExactlyWhen`).

## Model

| member | source | states |
|---|---|---|
| `TaskGraph.TaskGraph.GetNode` | src/cc_loop/task_graph.py:318-322 | the lookup loop finds the first node of an id, or nothing, on a list that may repeat ids |
| `TaskGraph.LastIndex` | src/cc_loop/task_graph.py:205-206 | the lookup through the id dictionary finds the last node of an id: later nodes override earlier ones |
| `TaskGraph.TaskGraph.ScanNode` | src/cc_loop/task_graph.py:335-355 | one turn of the scan, in place, is the verdict that `JudgedExactlyWhen` is about; only a PENDING node changes, to BLOCKED |
| `TaskGraph.JudgedExactlyWhen` | src/cc_loop/task_graph.py:335-355 | that turn blocks a node exactly when it is PENDING, not excluded, and has a dependency that nobody has or that is literally FAILED or BLOCKED, and picks one exactly when it is PENDING, or REJECTED with a retry left, and all its dependencies are PASSED |
| `TaskGraph.TaskGraph.NextRunnableNodes` | src/cc_loop/task_graph.py:325-356 | the whole scan, in place, is `Scan` of the old nodes, and returns the node objects it picked, in order |
| `TaskGraph.TaskGraph.MarkNodeRunning` | src/cc_loop/task_graph.py:365-371 | the first node of the id becomes RUNNING and current; an unknown id changes nothing |
| `TaskGraph.TaskGraph.MarkNodePassed` | src/cc_loop/task_graph.py:374-382 | the first node of the id becomes PASSED and records the iteration once; an unknown id changes nothing |
| `TaskGraph.TaskGraph.MarkNodeRejected` | src/cc_loop/task_graph.py:385-394 | the first node of the id becomes REJECTED with one more retry; an unknown id changes nothing |
| `TaskGraph.TaskGraph.MarkNodeFailed` | src/cc_loop/task_graph.py:397-405 | the first node of the id becomes FAILED; an unknown id changes nothing |
| `TaskGraph.TaskGraph.ApplyInvalidDependencyBlocking` | src/cc_loop/task_graph.py:308-315 | one pass blocks exactly the planner's nodes that name an unknown dependency |
| `Blocking.ScanPicksFirstRunnable` | src/cc_loop/task_graph.py:333-356 | a scan selects exactly the first `limit` nodes (one at least) that were runnable when it began, whatever it blocks on the way |
| `Blocking.PickedIsRunnable` | src/cc_loop/task_graph.py:223-237 | each selected node was runnable when the scan began and is untouched by it |
| `Blocking.ScanBlocksOnlyDoomed` | src/cc_loop/task_graph.py:333-350 | a scan changes only PENDING to BLOCKED, only outside `exclude`, and only for nodes with a chain of dependencies to a failed or blocked node or to an unknown id |
| `Blocking.ScanBlocksExactlyDoomed` | src/cc_loop/task_graph.py:333-350 | in a topologically ordered list an unbroken scan blocks all of those nodes and no other |
| `Blocking.ScanLeavesNobodyDoomed` | src/cc_loop/task_graph.py:333-350 | after such a scan no node is left with a chain to a failure and still PENDING |
| `Blocking.SecondScanChangesNothing` | src/cc_loop/task_graph.py:333-356 | such a scan is a fixpoint: a second one, with any limit, changes no node |
| `ScanOutcome.ScanBlocksOnlyBlamed` | src/cc_loop/task_graph.py:219-220 | said over the statuses themselves: a scan, with any limit and exclusions, blocks a node only where a chain of PENDING nodes leads from it to a node that is FAILED or BLOCKED, or to an id nobody has |
| `ScanOutcome.ScanBlocksExactlyBlamed` | src/cc_loop/task_graph.py:333-350 | in a list where dependencies stand first, a scan that its limit does not cut short blocks exactly those nodes |
| `ScanOutcome.ScanWithoutFailuresChangesNothing` | src/cc_loop/task_graph.py:344-349 | a graph without FAILED or BLOCKED nodes and without unknown dependencies is left unchanged, whatever is SKIPPED, REJECTED, RUNNING or PASSED in it |
| `ScanOutcome.ScanSelectsExactly` | src/cc_loop/task_graph.py:223-237 | a scan selects exactly the first nodes, `limit` of them or one, that are PENDING or REJECTED with a retry left, have only PASSED dependencies and are not excluded |
| `Dispatcher.Progress` | src/cc_loop/task_graph.py:359-362 | on an acyclic graph with unique ids and known dependencies, not complete, all unfinished nodes pending or rejected with retries left, the dispatcher gets a node |
| `Dispatcher.DispatchEffect` | src/cc_loop/task_graph.py:325-405 | one dispatch runs and marks one runnable node; elsewhere only doomed nodes move, to BLOCKED |
| `Dispatcher.RunIsBounded` | src/cc_loop/task_graph.py:232-237 | a dispatcher-driven run on N pending nodes makes at most N * max(1, max_retries) dispatches |
| `Dispatcher.FinishedRunIsComplete` | src/cc_loop/task_graph.py:408-417 | a run with nothing left to dispatch has completed the graph exactly when no node failed or used up its retries |
| `Dispatcher.RunCanBeExtended` | src/cc_loop/task_graph.py:359-362 | a run that is not complete and has lost no node can always make one more dispatch, whatever its outcome |
| `GraphRuns.StepKeepsSound` | src/cc_loop/task_graph.py:344-405 | each scan, start, restart, pass, rejection, failure and accepted patch keeps: unique ids, and PASSED or in-flight nodes have only known, PASSED dependencies |
| `GraphRuns.RunsAreSound` | src/cc_loop/task_graph.py:223-229 | that holds in every state of every run that begins with nothing started |
| `GraphRuns.SelectionIsIndependent` | src/cc_loop/task_graph.py:333-356 | no node a scan selects reaches another selected node along any chain of dependencies |
| `GraphPatch.PathSearch.HasPath` | src/cc_loop/graph_patch.py:73-82 | the search with one visited set for all branches: a true answer is a path; a false one leaves a visited set that holds `start`, misses `target` and is closed but for searches still under way |
| `GraphPatch.HasPath` | src/cc_loop/graph_patch.py:73-84 | called with nothing visited on any finite map, cyclic or not, it ends and is true exactly when the target is reachable |
| `GraphPatch.WouldCreateCycle` | src/cc_loop/graph_patch.py:66-84 | the cycle test as written: reachability in the map that already holds the new edge |
| `GraphPatch.CycleTestAlwaysTrue` | src/cc_loop/graph_patch.py:66-84 | the test answers true for every graph and every pair |
| `GraphPatch.EdgeCreatesCycle` | src/cc_loop/graph_patch.py:66-71 | what the edge really does: it keeps an acyclic graph acyclic exactly when its source did not reach its target |
| `GraphPatch.CycleTestIsRightExactlyWhen` | src/cc_loop/graph_patch.py:66-84 | the answer is the documented one exactly on the pairs whose source already reaches the target |
| `GraphPatch.ValidateOp` | src/cc_loop/graph_patch.py:92-151 | the errors of one operation, in the order the branches append them |
| `GraphPatch.ValidatePatch` | src/cc_loop/graph_patch.py:87-152 | the error list of a patch: every operation judged against the starting graph |
| `GraphPatch.ApplyOpInPlace` | src/cc_loop/graph_patch.py:165-223 | one operation on the nodes in memory: a skip leaves its node SKIPPED, an unblock PENDING, a removal takes one entry of the dependency; a new node is appended, and a failed lookup, or any value that does not convert, stops where the code stops |
| `GraphPatch.ApplyAll` | src/cc_loop/graph_patch.py:162-223 | the loop over the operations, in place, stops at the first that fails and keeps what was done by then |
| `GraphPatch.ApplyPatch` | src/cc_loop/graph_patch.py:155-237 | a rejected patch changes neither nodes nor current node; an accepted one does what its operations do, then keeps or replaces the current node |
| `PatchSafety.AcceptedAddsNoDependency` | src/cc_loop/graph_patch.py:119-126 | an accepted patch has no `add_dependency` that could add one |
| `PatchSafety.AcceptedPatchKeepsGraph` | src/cc_loop/graph_patch.py:87-223 | for any number and order of operations: no lookup fails, the original ids stay in order as a prefix, statuses change only to SKIPPED or PENDING, PASSED nodes keep status, dependencies, criteria and retry count, added nodes follow in order |
| `PatchSafety.AcceptedPatchCompletesExactlyWhen` | src/cc_loop/graph_patch.py:162-223 | an accepted patch goes through exactly when every value in it converts, those of `files_scope`, `acceptance_criteria`, `reviewer_providers` and the numeric limits included |
| `PatchSafety.AcceptedPatchCanStopHalfway` | src/cc_loop/graph_patch.py:162-223 | an accepted patch that stops after it has already skipped a node |
| `PatchSafety.DuplicateIdsLosePassedWork` | src/cc_loop/task_graph.py:205-206 | with a repeated id, validation reads the last node and application writes the first: an accepted patch skips a PASSED node |
| `PatchSafety.PatchUndoesNothingExactlyWhen` | src/cc_loop/graph_patch.py:162-223 | on any list, a patch that goes through keeps every PASSED status exactly when none of its skips and unblocks names an id whose first node has passed |
| `PatchSafety.PatchKeepsUniqueIds` | src/cc_loop/graph_patch.py:106-112 | ids stay unique exactly when the added ids differ from one another |
| `PatchSafety.PatchStaysAcyclicExactlyWhen` | src/cc_loop/graph_patch.py:155-223 | an accepted patch keeps an acyclic graph acyclic exactly when the added nodes form no cycle among themselves |
| `PatchSafety.ForwardPatchStaysAcyclic` | src/cc_loop/graph_patch.py:155-223 | in particular when every added node depends only on nodes before it |
| `PatchEffects.ReportedExactlyWhen` | src/cc_loop/graph_patch.py:92-151 | each error is reported exactly for these operations on these graphs, said over ids and statuses |
| `PatchEffects.AcceptedExactlyWhen` | src/cc_loop/graph_patch.py:87-152 | a patch is accepted exactly when each operation is admissible on the graph it starts from: new ids unknown, named ids known, PASSED nodes without new criteria, dependency changes or skips, unblocked ones BLOCKED with no FAILED or BLOCKED dependency |
| `PatchEffects.PatchWrites` | src/cc_loop/graph_patch.py:162-235 | after a patch that went through, on any list: the first node of an id is SKIPPED where the last skip or unblock naming it is a skip, PENDING where that is an unblock, and has its old status where neither names it; its file limit and merge policies are those of the last update that carries them |
| `PatchEffects.LaterNodesStay` | src/cc_loop/graph_patch.py:162-235 | a later node of a repeated id is not touched at all |
| `PatchEffects.PatchFrees` | src/cc_loop/graph_patch.py:180-223 | after an accepted patch criteria are those of the last update that carries any, and of each dependency as many entries have gone, the first ones, as operations remove it, the others in their order; none is added |
| `PatchEffects.PatchAppends` | src/cc_loop/graph_patch.py:165-178 | an accepted patch appends one PENDING, untried node for each `add_node`, in their order, with the fields it gives, and no other |
| `PatchEffects.AcceptedPatchStopsAt` | src/cc_loop/graph_patch.py:162-223 | an accepted patch that does not go through stops at an operation with a value that does not convert, with all before it done and an update left halfway: its criteria and limit may be written, its merge policies are not |
| `PatchEffects.KnownCurrentStays` | src/cc_loop/graph_patch.py:238-243 | after the patch a known current node stays current and no node is touched |
| `PatchEffects.UnknownCurrentIsReplaced` | src/cc_loop/graph_patch.py:238-243 | an unknown one gives way to the first node that may start, or to none, and the scan for it blocks only whom a failure or an unknown id keeps from running |
| `TaskState.ApprovedMeansEveryReviewer` | src/cc_loop/run.py:510-521 | an attempt is approved exactly when the reviewer chain is not empty and every reviewer approves |
| `TaskState.SkippedTestsPassExactlyWhen` | src/cc_loop/task_graph.py:450-464 | skipped tests pass the gate exactly where the task allows it, or weakening is on and the node asks for it, and the node does not forbid it |
| `MergeGate.CanAutoMergeExactlyWhen` | src/cc_loop/run.py:2956-2997 | an attempt may be merged exactly under these conditions on the fields of the configuration, of the attempt and of the first node of its id: among them no more changed files than the node's limit where that is positive, else than the task's where that is |
| `MergeGate.BlockedByTestsExactlyWhen` | src/cc_loop/failure.py:144-170 | an approved attempt counts as blocked by its tests exactly when they failed, ran out of time, or were skipped where task and node do not allow that |
| `MergeGate.FinalizingMergesExactlyWhen` | src/cc_loop/run.py:2106-2257 | finalising merges an attempt exactly when those conditions hold and the merge goes through |
| `AutoTermination.NoBusyReport` | src/cc_loop/failure.py:197-268 | the loop never acts on a busy worktree, since the stored merge message is not read back as one: that branch of the decision is dead |
| `MergeMessages.ReadBackForgetsBusy` | src/cc_loop/failure.py:197-268 | whatever git said, the kind read back from the stored message is the kind the failure was given, but for a busy worktree, which comes back unknown: derived from the keywords and the stored texts |
| `AutoTermination.PassMoves` | src/cc_loop/cli.py:762-917 | every pass continues the last attempt, retries it or starts the next iteration, and only where the guards allow it; a counted step that goes on is one of the counted moves |
| `AutoTermination.PassProgressesExactlyWhen` | src/cc_loop/recovery.py:43-235 | a pass that goes on lowers (iterations left, retries left, recovery budget left, merge retries left) lexicographically exactly when its step is a run, a retry of a rejected attempt, or a repair; otherwise the four are unchanged |
| `AutoTermination.PassNeverRises` | src/cc_loop/recovery.py:43-89 | no pass, whether it goes on or not, gives back what an earlier one has used up |
| `AutoTermination.CountedPassesAreBounded` | src/cc_loop/recovery.py:104-235 | the counted passes of any run, whatever uncounted ones stand between them and over however many invocations, are no more than a number the configuration and the first state fix |
| `DecisionTable.RepairsExactlyWhen` | src/cc_loop/recovery.py:182-225 | the decision is REPAIR exactly when the task is undecided, no replan is asked for, retries are not used up, and a patch is uncaptured, a merge in conflict, a test at fault or a stop fixable, each with its switch on and its recovery budget left |
| `DecisionTable.RepairsWhatIsWrong` | src/cc_loop/recovery.py:182-225 | and the report it is given names the first of these that applies |
| `DecisionTable.ReplansExactlyWhen` | src/cc_loop/recovery.py:122-191 | the decision is REPLAN exactly for a task that is replanning or an undecided one whose last attempt asks for it |
| `DecisionTable.RetriesMergeExactlyWhen` | src/cc_loop/recovery.py:156-180 | MERGE_RETRY exactly for an approved attempt of a stopped task, without a conflict, and where nothing was stored for the merge with no tests against it |
| `DecisionTable.ResumesExactlyWhen` | src/cc_loop/recovery.py:227-235 | RESUME exactly where nothing is wrong, or a rejected attempt has a retry left, and the task is running, interrupted, or stopped before a merge |
| `DecisionTable.RunsExactlyWhen` | src/cc_loop/recovery.py:126-155 | RUN exactly for a DONE that came too early with iterations left, for a task without attempts, and where the last attempt is merged or the task was not begun |
| `DecisionTable.IsDoneExactlyWhen` | src/cc_loop/recovery.py:126-145 | DONE exactly for a DONE task of which nothing is left to do |
| `DecisionTable.EndsExactlyWhen` | src/cc_loop/recovery.py:114-210 | TERMINAL exactly in the remaining states: cancelled, failed, out of iterations or retries, forbidden by tests, hopeless, or out of budget |
| `DecisionTable.EndsWithReport` | src/cc_loop/recovery.py:114-210 | and the failure it is labelled with, case by case |
| `DecisionTable.PassRepairsExactlyWhen` | src/cc_loop/cli.py:762-917 | a pass counts one more repair on the last attempt exactly where that table says so of the rechecked state |
| `UncountedSteps.ApprovedRepeatsExactlyWhen` | src/cc_loop/recovery.py:161-180 | the whole branch for an approved attempt: a pass leaves the task as it was and the loop going on exactly when the budgets last, the recheck takes no label off, there is no conflict, tests do not block, and finalising comes out as it did |
| `UncountedSteps.UnmergeableRepeatsExactlyWhen` | src/cc_loop/recovery.py:180-180 | an approved attempt that may not be merged for a reason other than its tests is retried for ever, exactly while the budgets last |
| `UncountedSteps.FinalizingReachesUnmergeable` | src/cc_loop/run.py:2132-2150 | finalising an approved attempt that may not be merged comes to that state |
| `UncountedSteps.FailingMergeRepeatsExactlyWhen` | src/cc_loop/recovery.py:161-180 | a merge that keeps failing the same way leaves the task as it was, and the loop going on, exactly when it is not a conflict |
| `UncountedSteps.ReplanLeadsToReplan` | src/cc_loop/run.py:359-456 | after any accepted replan the next step is a replan again, whatever its attempt is labelled, and no counter has moved |
| `UncountedSteps.ReplanRepeatsExactlyWhen` | src/cc_loop/recovery.py:190-191 | an accepted patch that changes nothing leaves the task as it was and the loop going on, exactly when the budgets last and the recheck takes no uncaptured-patch label off the attempt |
| `UncountedSteps.FailingReplanRepeatsExactlyWhen` | src/cc_loop/cli.py:920-950 | a replan that keeps failing, or whose patch keeps being rejected, repeats exactly while the handler survives it and labels it alike |
| `UncountedSteps.FailedImplementerRepeatsExactlyWhen` | src/cc_loop/run.py:1449-1455 | resuming an attempt whose implementer failed or is not to be had leaves the task as it was and the loop going on exactly when the failure is read as the same kind, providers are retried and the attempt has recovery budget, which is not spent (and no budget or stale runner ends it from outside) |
| `UncountedSteps.FailingReviewRepeatsExactlyWhen` | src/cc_loop/run.py:1885-1941 | a reviewer that keeps failing is asked again in every pass, exactly under the same conditions |
| `UncountedSteps.FailedPlanningGoesOnExactlyWhen` | src/cc_loop/run.py:1316-1365 | an attempt for which there is no plan, or no node to run, fails its planning again in every resume: the pass goes on exactly while the handler survives it |
| `UncountedSteps.FailedPlanningRepeats` | src/cc_loop/run.py:1316-1365 | and leads to such a state again with every counter as it was, so it never ends by itself; it changes nothing at all once scans have blocked what they can |
| `UncountedSteps.PassReachesNothingToRun` | src/cc_loop/run.py:1335-1350 | one pass leads there from any state of a run whose last attempt is merged and whose graph has nothing to run |
| `UncountedSteps.FinalizingReachesMergeFailed` | src/cc_loop/run.py:2186-2212 | an approved attempt that may be merged comes to the repeating state when its merge fails |
| `AutoSafety.FinalizingKeeps` | src/cc_loop/run.py:2106-2257 | finalising keeps the invariant, and merges only through the gate |
| `AutoRuns.PassKeepsInv` | src/cc_loop/cli.py:762-917 | one pass keeps the invariant of graph, attempts and status, across retries, repairs, replans and handled failures |
| `AutoRuns.RunsKeepInv` | src/cc_loop/cli.py:762-917 | the invariant holds in every state of every run |
| `AutoRuns.PassMergesThroughGate` | src/cc_loop/run.py:2956-2997 | an attempt becomes MERGED in a pass only as the last one, where the merge of that pass goes through, with implementer exit 0, every reviewer approving, tests passed or allowed to be skipped, no manual review asked for, and changed files within the limit of its node, else of the task |
| `AutoRuns.MergedStays` | src/cc_loop/run.py:3065-3084 | what is merged stays merged, with everything but its failure type as it was |
| `AutoRuns.EveryMergeWasGated` | src/cc_loop/run.py:2048-2257 | every MERGED attempt of a run was merged through that gate by some pass, on that pass's inputs, and is unchanged since |
| `AutoRuns.PassedExactlyWhenMerged` | src/cc_loop/run.py:2229-2257 | in every state of every run a node is PASSED exactly when a MERGED attempt carries its id, that attempt's iteration is recorded on it, and DONE means the graph is complete |
| `AutoRuns.GraphsStaySound` | src/cc_loop/task_graph.py:223-229 | in every state of every run what has started, and the node of every attempt, has only known, PASSED dependencies |
| `Evidence.TestingRecords` | src/cc_loop/run.py:1667-1772 | the test phase records PASSED exactly when a command is configured and returned 0, FAILED exactly on another code, TIMED_OUT on a timeout, SKIPPED without a command, and leaves an attempt that was tested alone |
| `Evidence.PassFlows` | src/cc_loop/run.py:641-904 | in every pass each attempt's exit code, test status and reviews stay, or are what the pass's inputs answer: a new exit code comes with new tests and new tests with new reviews, so nothing found out about earlier code is kept for later code |
| `Evidence.RunsHaveSources` | src/cc_loop/run.py:641-904 | in every state of every run each attempt's results are answers of passes of the run, reviews not older than tests and tests not older than the exit code |
| `Evidence.MergedRestsOnAnswers` | src/cc_loop/run.py:641-904 | every MERGED attempt of a run was merged by a pass whose merge went through, and before that, in this order, its implementer returned 0 or its work was found captured, its tests returned 0, and its reviewers all approved; without a test command its policy allows that |
| `FirstPass.GoodPassIsDone` | src/cc_loop/run.py:847-904 | the happy path is there: from the initial task, one pass in which everything answers well plans, runs, tests, reviews and merges a one-node graph and ends DONE |
| `FirstPass.PassReachesMergeFailed` | src/cc_loop/run.py:2186-2212 | the same pass with a failing merge reaches the state that `FailingMergeRepeatsExactlyWhen` is about |
| `FirstPass.PassReachesUnmergeable` | src/cc_loop/run.py:2132-2150 | the same pass without permission to merge reaches the state that `UnmergeableRepeatsExactlyWhen` is about |
| `FirstPass.PassReachesImplementerFailed` | src/cc_loop/run.py:1628-1647 | an implementer that exits with an error brings the first pass to the state that `FailedImplementerRepeatsExactlyWhen` is about; the loop goes on exactly where providers are retried with some budget |
| `AutoRuns.TurnsAreRun` | src/cc_loop/cli.py:762-917 | the states one invocation of the loop goes through are a run, from any state |
| `AutoHistory.RunsKeepHistory` | src/cc_loop/run.py:801-841 | in every state of every run the (iteration, retry) pairs increase strictly, within their limits |
| `AutoHistory.AttemptsHaveTheirOwnNames` | src/cc_loop/state.py:50-76 | no two attempts of a run share an artifact directory, a worktree or a branch |
| `AutoHistory.HistoryIsBounded` | src/cc_loop/run.py:3000-3041 | a run holds at most max_iterations * (max_retries_per_step + 1) attempts |
| `AutoHistory.RepairsAreCounted` | src/cc_loop/recovery.py:85-89 | every repair is counted on its attempt and stays within the larger of the two recovery limits; no attempt ever records a merge retry |
| `AutoHistory.TurnsDeliver` | src/cc_loop/cli.py:762-917 | an invocation on an initial task goes through a run that starts there and uses the first of its inputs, and ends with every merge gated in it and resting on answers of its passes, nodes PASSED exactly where merged, and history within its bound |
| `AutoHistory.PreparationKeepsOrder` | src/cc_loop/parallel_scheduler.py:68-84 | preparing a parallel batch keeps the attempts' numbers strictly increasing |
| `AttemptNaming.PaddedValue` | src/cc_loop/state.py:50-53 | a zero-padded number can be read back, of however many digits |
| `AttemptNaming.SuffixIsInjective` | src/cc_loop/state.py:50-53 | the iteration suffix names one (iteration, retry) pair only |
| `AttemptNaming.NamesAreInjective` | src/cc_loop/state.py:56-76 | artifact directories, worktrees and branches are each shared only by one pair |
| `AttemptNaming.MergeWorktreeIsApart` | src/cc_loop/run.py:3054-3062 | the worktree of a merge is never the worktree of an attempt |
| `TaskRunner.TaskRecord.MarkAttemptFailed` | src/cc_loop/run.py:3428-3470 | the given attempt and its node are marked failed; an unknown node stops it before the attempt is marked |
| `TaskRunner.TaskRecord.PersistFailure` | src/cc_loop/recovery.py:92-101 | the report stored on an attempt before a phase raises |
| `TaskRunner.TaskRecord.GraphNodeSetup` | src/cc_loop/run.py:1316-1414 | setting up a given attempt, in place |
| `TaskRunner.TaskRecord.ImplementerPhase` | src/cc_loop/run.py:1440-1664 | the implementer on a given attempt, with the failure it stores; every failure but a plain exit code marks `history[-1]` |
| `TaskRunner.TaskRecord.TestPhase` | src/cc_loop/run.py:1667-1772 | the tests of a given attempt: PASSED exactly when a command is configured and returned 0, FAILED exactly on another code, TIMED_OUT on a timeout, SKIPPED without a command; a recorded result is not run again |
| `TaskRunner.TaskRecord.ReviewPhase` | src/cc_loop/run.py:1781-2096 | the loop over the reviewer chain stores the report of the first reviewer that fails and stops there, and otherwise stores the aggregate decision |
| `TaskRunner.TaskRecord.FinalizePhase` | src/cc_loop/run.py:2106-2257 | finalising a given attempt, branch by branch; it becomes MERGED exactly when the fields of configuration, node and attempt allow that (`MayMerge`) and the merge goes through |
| `TaskRunner.TaskRecord.PlanningPhase` | src/cc_loop/run.py:1106-1313 | planning, with or without a graph, and the report that a failing planner stores |
| `TaskRunner.TaskRecord.RunFromPhase` | src/cc_loop/run.py:847-904 | the remaining phases from a given one, stopping at an uncaptured patch or an exception |
| `TaskRunner.TaskRecord.StartRun` | src/cc_loop/run.py:121-132 | a run: refused by status, continuation or iteration limit, or one more iteration and attempt and its phases |
| `TaskRunner.TaskRecord.ResumeAttempt` | src/cc_loop/run.py:135-193 | a resume: refused, a retry of a rejected attempt, a finalise, or the remaining phases |
| `TaskRunner.TaskRecord.RepairAttempt` | src/cc_loop/run.py:641-776 | a repair: refused, reconciled, or reset, implemented again and tested |
| `TaskRunner.TaskRecord.ReplanGraph` | src/cc_loop/run.py:359-456 | a replan: the patch is applied as a whole or nothing of it is kept |
| `TaskRunner.TaskRecord.ResetDownstream` | src/cc_loop/run.py:3087-3093 | a repair reset clears exit code, tests, decision and merge error together |
| `TaskRunner.TaskRecord.IncrementRecoveryCounter` | src/cc_loop/recovery.py:85-89 | which counter a report raises |
| `TaskRunner.TaskRecord.HandleProviderFailure` | src/cc_loop/cli.py:920-951 | which failures the loop survives, and how the attempt is labelled |
| `TaskRunner.TaskRecord.AutoLoopTurn` | src/cc_loop/cli.py:762-917 | one turn of the loop, in place, is one pass of the transition system, and counts a repair exactly where the decision table says so |
| `TaskRunner.TaskRecord.RunAutoLoop` | src/cc_loop/cli.py:762-917 | the `while True` over any sequence of inputs is that many passes, and an initial record is brought, by passes on those inputs, to one with every merge gated and resting on their answers, nodes PASSED exactly where merged, and history within its bound |
| `TaskRunner.TaskRecord.RunSingleNodePipeline` | src/cc_loop/parallel_scheduler.py:87-138 | a parallel worker's critical section, in place |
| `PhaseOutcomes.RunIsRefusedExactlyWhen` | src/cc_loop/run.py:121-132 | a run is refused exactly by status, an unfinished attempt, the iteration limit or the preflight |
| `PhaseOutcomes.ResumeIsRefusedExactlyWhen` | src/cc_loop/run.py:135-193 | a resume is refused exactly by status, a stale runner in four phases, spent retries or preflight of a rejected attempt, or an attempt that has nothing to go on with |
| `PhaseOutcomes.NewAttemptsAreBlank` | src/cc_loop/run.py:793-841 | a run or a retry adds one attempt with nothing stored on it, numbered next, a retry for the same node, and keeps all earlier ones |
| `PhaseOutcomes.LoopSurvivesExactlyWhen` | src/cc_loop/cli.py:920-951 | the loop goes on after a step exactly where it came through, or where planner, implementer or reviewer failed readably, provider recovery is on and recovery budget is left |
| `PhaseOutcomes.FailureIsLabelled` | src/cc_loop/cli.py:875-951 | such a failure stops the task, names itself on the attempt, and puts that back into the phase that raised; any other outcome stands as it is |
| `PhaseOutcomes.ImplementerOutcome` | src/cc_loop/run.py:1417-1664 | when the implementer phase comes through, and what label it leaves: the provider's failure, an uncaptured patch, or the earlier one unless that is resolved |
| `PhaseOutcomes.FailingReviewerOutcome` | src/cc_loop/run.py:1885-1941 | the first reviewer of the chain that fails decides the label, and no decision is stored |
| `PhaseOutcomes.ReviewOutcome` | src/cc_loop/run.py:510-521 | a chain heard to the end decides by its gravest word: stop, then replan, then reject, then approve; only approval takes a label off |
| `PhaseOutcomes.UnmergedOutcome` | src/cc_loop/run.py:2106-2212 | what finalising makes of an attempt it does not merge: a rejection costs its node a retry, a failing merge is stored, tests that forbid the merge are named, and nothing else changes |
| `PhaseOutcomes.MergedOutcome` | src/cc_loop/run.py:2229-2257 | a merge passes the attempt's node, records the iteration once, and the task is DONE exactly when every other node is PASSED or SKIPPED |
| `PhaseOutcomes.SetupTakesFirst` | src/cc_loop/run.py:1316-1414 | an attempt without a node is given the first node that may start, and starts it |
| `PhaseOutcomes.PlannedNodesWait` | src/cc_loop/task_graph.py:259-316 | a planner's graph keeps no trace of an earlier life: its nodes are PENDING, or BLOCKED where a dependency is unknown or leads to such a node |
| `PhaseOutcomes.PlanTakesFirst` | src/cc_loop/run.py:1106-1313 | planning gives the attempt the first node of the plan that may start, and starts it |
| `PhaseOutcomes.WaitingPlanFails` | src/cc_loop/run.py:1106-1313 | a plan in order in which every node waits for another is blocked as a whole, and planning with it fails |
| `PhaseOutcomes.RepairForgets` | src/cc_loop/run.py:3087-3093 | a repair whose implementer cannot be run leaves the report's label and nothing that an earlier run, test, review or merge had stored |
| `PhaseOutcomes.UncapturedRepairStops` | src/cc_loop/run.py:641-776 | a repair whose implementer comes through goes on to its tests, unless an uncaptured patch is still not captured |
| `PhaseOutcomes.ResumedCapture` | src/cc_loop/run.py:548-640 | resuming an attempt whose patch was not captured goes on with its tests where it now is, and stops again where it is not |
| `PhaseOutcomes.ReplanOutcome` | src/cc_loop/run.py:359-456 | a replan keeps every result of the attempt, and changes the graph exactly where an accepted patch goes through |
| `PhaseOutcomes.RunStepBegins` | src/cc_loop/cli.py:762-917 | a RUN step begins the next iteration, after a DONE that came too early as well, unless iterations or preflight forbid it |
| `StateLock.TaskLock.Acquire` | src/cc_loop/state_lock.py:72-85 | a stale-looking lock is tried again and never taken from its holder |
| `StateLock.TaskLock.EnterFrame` | src/cc_loop/state_lock.py:43-62 | entering a frame refines the interleaved model's step, and waits exactly when that step is not enabled |
| `StateLock.TaskLock.LeaveFrame` | src/cc_loop/state_lock.py:63-69 | leaving a frame refines the model's step: the lock goes with the frame that owns it |
| `StateLock.StepKeepsInv` | src/cc_loop/state_lock.py:43-85 | every step of every thread keeps the lock, frame and log invariant |
| `StateLock.MutualExclusion` | src/cc_loop/state_lock.py:43-69 | in every state of every interleaving at most one thread is inside a frame |
| `StateLock.NestedLeaveKeepsLock` | src/cc_loop/state_lock.py:51-53 | the lock is given up by leaving the outermost frame and by no other step |
| `StateLock.DiskIsFoldOfSections` | src/cc_loop/state_lock.py:43-69 | the persisted state is the saves folded in lock order; a state saved without being loaded in its section stands there as a constant |
| `StateLock.SaveBuildsOnDisk` | src/cc_loop/state_lock.py:43-69 | a save of what its section loaded writes the state that is on disk, edited: nothing saved before it is lost |
| `StateLock.SectionActsAtOnce` | src/cc_loop/state_lock.py:43-69 | the saves of a critical section stand together, by one thread, between all earlier and all later sections |
| `StateLock.LogFallsIntoSections` | src/cc_loop/state_lock.py:43-69 | the saves of every run fall into those of its sections, each by one thread, in lock order |
| `StateLock.PutIsAnEditExactlyWhen` | src/cc_loop/parallel_scheduler.py:164-174 | a save of a state that was loaded before the section is an edit of the persisted state exactly when that state is still the one on disk |
| `StateLock.PutCanLoseASave` | src/cc_loop/parallel_scheduler.py:164-174 | otherwise what was saved in between is gone: an interleaving of two threads in which it is |
| `NodePipeline.LastIsSequential` | src/cc_loop/run.py:3400-3403 | given the last attempt, the phases with an `attempt` argument are the sequential ones |
| `NodePipeline.PipelineTouches` | src/cc_loop/parallel_scheduler.py:116-137 | a worker writes its own attempt and the first node of its own id, and then, if its implementer fails other than by exit code, `history[-1]` and its node |
| `NodePipeline.PipelineTwin` | src/cc_loop/parallel_scheduler.py:116-137 | what a worker makes of its attempt and of its node depends on these, the node names and its own inputs only |
| `NodePipeline.PipelineRuns` | src/cc_loop/parallel_scheduler.py:116-137 | a worker that does not raise leaves its node RUNNING and otherwise as it was |
| `ParallelBatch.BatchFitsAndIsIndependent` | src/cc_loop/parallel_scheduler.py:47-56 | a batch fits in max_parallel_nodes less what runs, holds no running node and none twice, and no node in it reaches another |
| `ScanOutcome.DiscoveryIsExact` | src/cc_loop/parallel_scheduler.py:47-56 | discovery hands over exactly the first nodes that may start and are not running, as many as max_parallel_nodes, or one, still admits, and none where it is full; it blocks nothing that is running or blameless |
| `ParallelBatch.PreparedBatch` | src/cc_loop/parallel_scheduler.py:163-174 | every node of a batch gets an attempt of its own, and `running_attempts` finds it |
| `ParallelChain.DiscoveredIsStartable` | src/cc_loop/parallel_scheduler.py:47-56 | what discovery finds on a sound graph is what a batch may start on |
| `BatchResults.BatchConservesUpdates` | src/cc_loop/parallel_scheduler.py:190-213 | for every interleaving of workers and coordinator: all batch nodes leave `running_attempts`, each attempt and each node is what its worker makes of it alone, FAILED where its worker failed, the last ones also where another worker's failure was blamed on them later; everything else is untouched |
| `BatchResults.LastAttemptSurvivesExactlyWhen` | src/cc_loop/run.py:1452-1612 | the last attempt keeps its worker's result exactly when no other worker strayed after it was through, unless it had failed by itself |
| `BatchResults.LastAttemptIsSafeExactlyWhen` | src/cc_loop/run.py:1452-1612 | before the batch starts: it keeps it in every schedule exactly when no other worker strays, with the same exception |
| `BatchResults.OrderedMovesRun` | src/cc_loop/parallel_scheduler.py:176-213 | every order that takes each critical section once, a worker's before its collection, is the order of a run |
| `BatchResults.QueueGainsExactlyTheApproved` | src/cc_loop/parallel_scheduler.py:192-201 | the merge queue keeps its order, stays free of duplicates, and gains exactly the nodes whose workers approve |
| `WorkerIsolation.PipelineBehaves` | src/cc_loop/parallel_scheduler.py:87-138 | the node pipeline meets what the batch theorems ask of a worker |
| `WorkerIsolation.BatchOfPipelinesConserves` | src/cc_loop/parallel_scheduler.py:141-213 | the batch of the program, from preparation to last collection, conserves every update of an attempt and of a node and restores `running_attempts` |
| `WorkerIsolation.BatchLeavesNodes` | src/cc_loop/parallel_scheduler.py:141-213 | at the end every node of the batch is as it was but for its status: FAILED if its worker failed, or if it is the last and was blamed later; RUNNING otherwise |
| `WorkerIsolation.DiskFollowsTheBatch` | src/cc_loop/parallel_scheduler.py:164-213 | critical sections that perform a batch's moves under the lock, each with as many saves as it makes, leave on disk what the batch comes to, in lock order |
| `ParallelRunner.SharedRecord.PrepareBatch` | src/cc_loop/parallel_scheduler.py:164-173 | the preparation loop, in place |
| `ParallelRunner.SharedRecord.CollectResult` | src/cc_loop/parallel_scheduler.py:192-213 | one turn of the collection loop, in place; marking a node that is not in the graph raises out of the handler with nothing changed |
| `ParallelRunner.SharedRecord.Enqueue` | src/cc_loop/merge_queue.py:9-13 | a node is appended unless it is queued already |
| `ParallelRunner.SharedRecord.Dequeue` | src/cc_loop/merge_queue.py:16-22 | the head of the queue leaves it |
| `ParallelRunner.SharedRecord.FindAttempt` | src/cc_loop/merge_queue.py:29-40 | the running attempt, or else the latest approved or merged one of the node, found from the end of history |
| `MergeQueue.FoundExactlyWhen` | src/cc_loop/merge_queue.py:29-40 | it is the one `running_attempts` names, where history has it, and otherwise exactly the last one of that node that is approved or merged |
| `ParallelRunner.MergeLoop` | src/cc_loop/parallel_scheduler.py:215-230 | the loop that reloads, dequeues, finalises and saves performs the turns of the model |
| `MergeQueue.MergeLoopDrains` | src/cc_loop/parallel_scheduler.py:215-230 | given an attempt for every queued node, the loop ends, has finalised each in FIFO order, and leaves the queue empty in memory and on disk |
| `MergeQueue.NoneIsFinalisedTwice` | src/cc_loop/parallel_scheduler.py:215-230 | the attempts it finalises are all different |
| `MergeQueue.TurnSavesOnlyResults` | src/cc_loop/parallel_scheduler.py:215-230 | a turn saves only what it has finalised: without an attempt, or with a finalising that raises, the persisted state stays |
| `MergeQueue.MergeLoopEndsExactlyWhen` | src/cc_loop/parallel_scheduler.py:223-225 | the loop ends exactly when every queued node but the last has an attempt, and empties the persisted queue exactly when they all have one |
| `ParallelChain.BatchEndsSane` | src/cc_loop/parallel_scheduler.py:190-213 | a batch leaves a state the merge loop's theorems apply to |
| `ParallelChain.QueueHasAttemptsExactlyWhen` | src/cc_loop/merge_queue.py:29-40 | after a batch every queued node has an attempt exactly when the last one is not stranded |
| `ParallelChain.BatchThenMergesDrains` | src/cc_loop/parallel_scheduler.py:141-230 | unless its last node is stranded, a batch is followed by a merge loop that ends, has finalised every queued node in order, and leaves the queue empty |
| `ParallelChain.DiscoveredBatchDrains` | src/cc_loop/parallel_scheduler.py:141-230 | from end to end: the same from discovery on a sound graph, through the batch it starts, to the empty queue |
| `ParallelSoundness.BatchKeepsSound` | src/cc_loop/parallel_scheduler.py:141-213 | a batch of discovered nodes leaves a sound graph in which the node of every attempt has only PASSED dependencies |
| `ParallelSoundness.TurnKeepsSound` | src/cc_loop/parallel_scheduler.py:215-230 | so does a turn of the merge loop |
| `ParallelSoundness.BatchesFollowOneAnother` | src/cc_loop/parallel_scheduler.py:141-230 | after discovery, batch and merge loop, whatever becomes of them, whatever is discovered next may start |
| `ParallelSafety.PipelineKeepsOk` | src/cc_loop/parallel_scheduler.py:116-137 | however a worker ends, a decision on its attempt rests on tests that ran and on its whole reviewer chain |
| `ParallelSafety.BatchKeepsAttemptsOk` | src/cc_loop/parallel_scheduler.py:141-213 | and that holds of every attempt after a batch |
| `ParallelSafety.TurnMergesThroughGate` | src/cc_loop/parallel_scheduler.py:226-230 | a turn merges nothing but the attempt of the queue's head, where its merge goes through, with implementer exit 0, every reviewer approving, tests passed or allowed to be skipped and changed files within the limit, and passes its node |
| `ParallelSafety.TurnMergesExactlyWhen` | src/cc_loop/run.py:2956-2997 | it merges that attempt exactly when the fields of configuration, node and attempt allow it and the merge goes through |
| `ParallelSafety.LoopMergesThroughGate` | src/cc_loop/parallel_scheduler.py:215-230 | whatever the loop merged, one of its turns merged through that gate, on that turn's inputs |
| `BatchEvidence.PipelineIsAnswered` | src/cc_loop/parallel_scheduler.py:116-137 | however a worker ends, exit code, test status and reviews on its attempt are what its own inputs answered |
| `BatchEvidence.BatchIsAnswered` | src/cc_loop/parallel_scheduler.py:141-213 | after a batch, in every interleaving, that holds of each of its attempts |
| `BatchEvidence.BatchMergesRestOnAnswers` | src/cc_loop/parallel_scheduler.py:141-230 | every attempt of a batch that the merge loop after it has merged had a worker whose implementer returned 0, whose tests returned 0, or had no command where the policy allows that, and whose reviewers all approved |
| `MergeQueue.LastNodeIsFoundExactlyWhen` | src/cc_loop/merge_queue.py:29-40 | when the last worker approved, its node is queued, and an attempt is found for it exactly when no other worker's failure was blamed on that attempt later |
| `MergeQueue.NoScheduleStrandsExactlyWhen` | src/cc_loop/merge_queue.py:29-40 | before the batch starts: no schedule strands that node exactly when no other worker strays |
| `ParallelChain.TwoWorkersCanStrand` | src/cc_loop/merge_queue.py:29-40 | two nodes and a schedule after which the approved one is queued with no attempt to be found |
| `PatchSelection.Collect` | src/cc_loop/diff.py:184-228 | the loop's selected paths, omissions with reasons and used bytes are those of the greedy choice, used bytes being the sum of the sizes |
| `PatchSelection.GreedyIsFeasible` | src/cc_loop/diff.py:196-222 | the selection stays within a non-negative budget; a negative one selects nothing |
| `PatchSelection.GreedyIsGreatest` | src/cc_loop/diff.py:196-222 | the selection is lexicographically the greatest of all feasible ones in priority order |
| `PatchSelection.SelectedExactlyWhenItFits` | src/cc_loop/diff.py:196-222 | an eligible file is selected exactly when it fits beside what was selected before it |
| `PatchSelection.SelectionRespectsPriority` | src/cc_loop/diff.py:184-222 | on the sorted list a file gives way only to files that rank at least as high: it is selected exactly when it fits beside the selected ones before it of its rank or better |
| `PatchSelection.NothingLeftWouldFit` | src/cc_loop/diff.py:212-216 | no file left out for its size would still fit at the end |
| `PatchSelection.FindMergeable` | src/cc_loop/diff.py:171-181 | the loop finds whether any file is mergeable |
| `PatchSelection.SelectionNonemptyExactlyWhen` | src/cc_loop/diff.py:196-222 | something is selected exactly when one eligible file fits the budget by itself |
| `PatchSelection.AmpleBudgetSelectsExactlyWhenMergeable` | src/cc_loop/diff.py:171-228 | with a budget no file exceeds, something is selected exactly when there is something to merge |
| `PatchSelection.EveryFileIsAccountedFor` | src/cc_loop/diff.py:184-228 | a file is selected exactly when it is no lockfile, not generated, has a patch and fits beside those before it; each other one is reported with the first reason that applies, or not at all without a patch, and nothing else is reported |
| `PatchSelection.RanksFollowTheKind` | src/cc_loop/diff.py:146-155 | tests rank before sources, sources before what is neither, that before lockfiles, and lockfiles before what is only generated |
| `TestCommand.ExpandTestCommand` | src/cc_loop/test_command.py:105-143 | the index-driven loop, on every argument list |
| `TestCommand.SeparatedCommandRoundTrips` | src/cc_loop/test_command.py:105-167 | `--test-command -- tokens` leaves every earlier argument unchanged and normalises back to the tokens, even where they are flags of the program |
| `TestCommand.UnseparatedCommandExpands` | src/cc_loop/test_command.py:105-143 | `--test-command tokens` takes the tokens up to the next flag of the program that the subcommand has, or to the end: they become one argument, and all else is unchanged |
| `TestCommand.NormalizeRefusesExactlyWhen` | src/cc_loop/test_command.py:146-167 | a command is refused exactly where nothing is left of it, an argument is empty, or it is a command line with a shell operator; otherwise it comes out as its words |
| `TestCommand.NormalizeOfJoin` | src/cc_loop/test_command.py:146-167 | joined plain tokens normalise back to the tokens |
| `TestCommand.ExpandWithoutCommand` | src/cc_loop/test_command.py:105-143 | without `--test-command` the argument list is unchanged |

## Left out

What the model takes as given, or does not hold:

- Git, subprocesses, signals, worktree files and the providers: their answers are the fields of `World`, and a pass may get any.
- Keyword and regular-expression matching in failure.py other than that of merge messages: only the resulting failure types, as tables in `TaskState`; `World` chooses among what the matching could find.
- Lower-casing other than of ASCII letters, the line ends between an exception's text and a command's output, and a merge exception with an empty text, which would be stored as no error at all.
- Titles, descriptions, notes, timestamps, artifact paths, prompts, traces, events and heartbeats: nothing modelled reads them.
- The verdict of `check_budgets`, the preflight and whether a patch turns out captured: inputs of a pass.
- Parallel steps inside the auto loop: `AutoPass` and `RunAutoLoop` are the sequential loop; a batch is modelled from its discovery on, not as a step of that loop.
- A call interrupted in the middle: each executor call and each critical section is one step, though a section may save several times.
- Attempts as shared objects: history holds attempts as values, and a phase writes back the one it was given; two names for one attempt object are not modelled.  `TaskRecord` keeps the graph as a list of node values; the node objects are those of `TaskGraph.TaskGraph`.
- The JSON forms of state, graph and patches, and the planner's item parsing: the model starts from their values.
- Liveness of rejected nodes in parallel mode and termination of the whole auto loop: the code has no transition or counter for them.
- Sorting of changed files and the name tests of diff.py: `File` carries their verdicts; what the order by rank is good for is `SelectionRespectsPriority`, the order by path within a rank is not stated; paths that the file name mapping would make equal are not told apart.
- `shlex.split`: a parameter of `Normalize`, assumed to split plain text at spaces and nothing more.
- Subcommands registered at run time, and the warning for misplaced flags.

Stated for less than every state, and why:

- TaskGraph.LastIndex: says which node the dictionary returns, not how the dictionary is built.
- PatchSafety.AcceptedPatchKeepsGraph: unique ids are a hypothesis, since planner graphs are not checked for them; `DuplicateIdsLosePassedWork` shows it fails without.
- GraphRuns.RunsAreSound: steps of a pass, rejection or failure concern a node that was started; patches add distinct ids.
- AutoRuns.PassedExactlyWhenMerged: planners are taken to name their nodes apart, with no empty id, and patches to add distinct ids (`WorldOk`).
- AutoTermination.CountedPassesAreBounded: bounds the counted passes; how many uncounted ones stand between them depends on the world, as `UncountedSteps` says.
- UncountedSteps.ApprovedRepeatsExactlyWhen: merge failures are taken to be of the kinds that `classify_merge_failure` gives.
- StateLock.PutIsAnEditExactlyWhen: no other writer of the program is known to run beside the preparation of a batch, where a state loaded outside the lock is saved; the lemma says what would follow.
- TaskRunner.TaskRecord.AutoLoopTurn: a RUN step is the sequential one; the parallel branch of that step is the batch of `ParallelRunner`, not a turn of this method.
- TaskRunner.TaskRecord.RunAutoLoop: sequential turns only, for the same reason.
- BatchResults.BatchConservesUpdates: for workers that meet `Isolated`, which `WorkerIsolation.WorkersAreIsolated` proves of the node pipeline.
- ParallelChain.DiscoveredIsStartable: for graphs that are sound and have no empty id, as `AutoRuns.GraphsStaySound` and `ParallelSoundness.BatchesFollowOneAnother` keep them.
- ParallelSoundness.TurnKeepsSound: with nothing in `running_attempts`, as every batch that began so leaves it.
- ScanOutcome.ScanBlocksExactlyBlamed: for lists in which dependencies stand first and scans that select fewer than their limit; `ScanBlocksOnlyBlamed` holds of all.
- PatchEffects.PatchFrees: unique ids and acceptance are hypotheses; `PatchWrites` and `LaterNodesStay` hold of any list.
- BatchEvidence.BatchMergesRestOnAnswers: for tasks whose earlier attempts are as the loop leaves them (`AttemptsOk`), with running entries that point into history.
- PhaseOutcomes.SetupTakesFirst: with unique, nonempty ids, as every graph of a run has them.
- MergeQueue.LastNodeIsFoundExactlyWhen: where no older attempt of that node can stand in for the new one (`NeverMergeable`); `QueueHasAttemptsExactlyWhen` does without.
- MergeQueue.MergeLoopDrains: for queues whose nodes have attempts; `MergeLoopEndsExactlyWhen` says what happens otherwise.
- WorkerIsolation.DiskFollowsTheBatch: that the saves of each critical section together perform a move of the batch is a hypothesis (`AllPerform`), about the state the section begins with; `StateLock.LogFallsIntoSections` gives the sections.
