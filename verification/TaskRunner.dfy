/**
 * The task in memory, updated in place by the phases and executors of src/cc_loop/run.py and by
 * the loop of src/cc_loop/cli.py.  Every method computes the function of the same step in
 * NodePipeline or AutoLoop; a raised exception is the returned error.
 */
module TaskRunner {
  import opened Option
  import opened TaskGraph
  import opened TaskState
  import opened GraphPatch
  import opened AutoLoop
  import opened AutoSafety
  import opened AutoRuns
  import opened AutoHistory
  import opened MergeGate
  import opened DecisionTable
  import opened NodePipeline

  function Of(s: Task, error: Option<Error>): Outcome {
    match error case None => Ok(s) case Some(e) => Raised(s, e)
  }

  class TaskRecord {
    var status: TaskStatus
    var iteration: nat
    var history: seq<Attempt>
    var graph: Option<seq<Node>>

    constructor (s: Task)
      ensures View() == s
    {
      status, iteration, history, graph := s.status, s.iteration, s.history, s.graph;
    }

    function View(): Task
      reads this
    {
      Task(status, iteration, history, graph)
    }

    // -------------------------------------------------------------- phases, on the attempt they are given

    /** `_mark_planning_failed` and its siblings; the caller raises `e`. */
    method MarkAttemptFailed(k: nat, e: Error) returns (error: Option<Error>)
      requires k < |history|
      modifies this
      ensures Of(View(), error) == FailAt(old(View()), k, e)
    {
      var a := history[k];
      if graph.Some? && a.nodeId != "" {
        var marked := MarkFailed(graph.value, a.nodeId);
        if marked.None? { return Some(Crash); }
        graph := marked;
      }
      history := history[k := a.(phase := AtFailed)];
      status := TaskFailed;
      return Some(e);
    }

    /** `persist_failure_state`, where there is a report to store. */
    method PersistFailure(k: nat, stored: Option<FailureType>)
      requires k < |history|
      modifies this`history
      ensures history == old(history)[k := Labelled(old(history)[k], stored)]
    {
      if stored.Some? {
        history := history[k := history[k].(failureType := Some(ProviderReport(stored.value).kind))];
      } else {
        assert history[k := history[k]] == history;
      }
    }

    /** `_run_graph_node_setup` */
    method GraphNodeSetup(cfg: Config, k: nat, w: World) returns (error: Option<Error>)
      requires k < |history| && graph.Some?
      modifies this
      ensures Of(View(), error) == SetupAt(cfg, old(View()), k, w)
    {
      var id := history[k].nodeId;
      if id != "" {
        if FirstIndex(graph.value, id).None? {
          error := MarkAttemptFailed(k, PlanningError);
          return;
        }
      } else {
        var scan := Scan(graph.value, cfg.maxRetries, 1, {});
        graph := Some(scan.nodes);
        if scan.picked == [] || scan.picked[0] >= |scan.nodes| {
          error := MarkAttemptFailed(k, PlanningError);
          return;
        }
        id := scan.nodes[scan.picked[0]].id;
      }
      error := StartNodeFor(k, id, w);
    }

    method StartNodeFor(k: nat, id: string, w: World) returns (error: Option<Error>)
      requires k < |history| && graph.Some?
      modifies this
      ensures Of(View(), error) == Put(old(View()), k, StartNode(Focus(old(View()), k), id, w))
    {
      var a := history[k];
      assert history[k := a] == history;
      var running := MarkRunning(graph.value, id);
      if running.None? { return Some(Crash); }
      graph := running;
      history := history[k := a.(nodeId := id, hasPlan := true, finalStep := a.hasPlan && a.finalStep)];
      if !w.worktreeAdded {
        error := MarkAttemptFailed(k, PlanningError);
        return;
      }
      history := history[k := history[k].(phase := AtWorktree)];
      return None;
    }

    /** The implementer has come back: what it stores on the attempt. */
    method StoreExit(k: nat, run: Implementer)
      requires k < |history| && run.Implemented?
      modifies this`history
      ensures history == old(history)[k := old(history)[k].(exitCode := Some(run.exitCode), failureType := RunLabel(old(history)[k], run))]
    {
      history := history[k := history[k].(exitCode := Some(run.exitCode),
        failureType := CaptureState(history[k], run.exitCode, run.uncaptured))];
      if run.abnormal || run.exitCode != 0 { PersistFailure(k, Some(run.failure)); }
    }

    /** `run_implementer_phase`: `history[-1]` is marked on every failure but a plain exit code. */
    method ImplementerPhase(k: nat, w: World) returns (error: Option<Error>)
      requires k < |history|
      modifies this
      ensures Of(View(), error) == ImplementingAt(old(View()), k, w)
    {
      var a := history[k];
      if a.exitCode == Some(0) { return None; }
      if a.exitCode.Some? || !a.hasPlan {
        error := MarkLastFailed(ImplementingError);
        return;
      }
      history := history[k := a.(phase := AtExecuting)];
      if w.implementer.ImplementerUnavailable? {
        error := MarkLastFailed(ImplementingError);
        return;
      }
      StoreExit(k, w.implementer);
      if w.implementer.abnormal {
        error := MarkLastFailed(ImplementingError);
      } else if w.implementer.exitCode != 0 {
        error := MarkAttemptFailed(k, ImplementingError);
      } else {
        error := None;
      }
    }

    method MarkLastFailed(e: Error) returns (error: Option<Error>)
      requires history != []
      modifies this
      ensures Of(View(), error) == FailAttempt(old(View()), e)
    {
      FailLast(View(), e);
      error := MarkAttemptFailed(|history| - 1, e);
    }

    /** `run_test_phase` */
    method TestPhase(cfg: Config, k: nat, w: World)
      requires k < |history|
      modifies this
      ensures View() == TestingAt(cfg, old(View()), k, w)
      ensures |history| == old(|history|)
      ensures old(history)[k].testStatus == NotTested ==>
        && (history[k].testStatus == TestsPassed <==> cfg.hasTestCommand && w.tests == TestsReturn(0))
        && (history[k].testStatus == TestsFailed <==> cfg.hasTestCommand && w.tests.TestsReturn? && w.tests.exitCode != 0)
        && (history[k].testStatus == TestsTimedOut <==> cfg.hasTestCommand && w.tests == TestsTimeOut)
        && (history[k].testStatus == TestsSkipped <==> !cfg.hasTestCommand)
    {
      var a := history[k];
      if a.testStatus != NotTested {
        assert history[k := a] == history;
        return;
      }
      history := history[k := a.(phase := AtTesting)];
      var result := TestsSkipped;
      if cfg.hasTestCommand {
        match w.tests {
          case TestsTimeOut => result := TestsTimedOut;
          case TestsReturn(code) => result := if code == 0 then TestsPassed else TestsFailed;
        }
      }
      history := history[k := history[k].(testStatus := result)];
    }

    /** The reviewers of the chain are asked in order, and the first that fails ends it. */
    method AskReviewers(k: nat, chain: seq<Reviewer>) returns (decisions: seq<Decision>, error: Option<Error>)
      requires k < |history|
      modifies this
      ensures error.None? ==> !ReviewerFailed(chain) && decisions == Decisions(chain) && View() == old(View())
      ensures error.Some? ==> ReviewerFailed(chain)
      ensures error.Some? ==>
        Of(View(), error) == FailAt(PutAttempt(old(View()), k, Labelled(old(history)[k], FirstFailure(chain))), k, ReviewError)
    {
      decisions, error := [], None;
      for i := 0 to |chain|
        invariant |decisions| == i && View() == old(View())
        invariant FirstFailure(chain) == FirstFailure(chain[i..])
        invariant forall j | 0 <= j < i :: chain[j].Reviewed? && decisions[j] == chain[j].decision
      {
        match chain[i] {
          case ReviewerFails(stored) =>
            PersistFailure(k, stored);
            error := MarkAttemptFailed(k, ReviewError);
            return;
          case Reviewed(d) =>
            decisions := decisions + [d];
        }
      }
      assert decisions == Decisions(chain);
    }

    method RecordDecisions(k: nat, decisions: seq<Decision>)
      requires k < |history|
      modifies this`history
      ensures var d := Aggregate(decisions);
        history == old(history)[k := old(history)[k].(reviews := decisions, decision := Some(d),
          phase := if d == Approve then AtApproved else AtRejected,
          failureType := if d == Approve then None else old(history)[k].failureType)]
    {
      var decision := Aggregate(decisions);
      history := history[k := history[k].(reviews := decisions, decision := Some(decision))];
      if decision == Approve {
        history := history[k := history[k].(phase := AtApproved, failureType := None)];
      } else {
        history := history[k := history[k].(phase := AtRejected)];
      }
    }

    method AskAndRecord(k: nat, chain: seq<Reviewer>) returns (error: Option<Error>)
      requires k < |history|
      modifies this
      ensures ReviewerFailed(chain) ==>
        Of(View(), error) == FailAt(PutAttempt(old(View()), k, Labelled(old(history)[k], FirstFailure(chain))), k, ReviewError)
      ensures !ReviewerFailed(chain) ==> error.None? && View() == PutAttempt(old(View()), k, ReviewedAttempt(old(history)[k], chain))
    {
      var decisions;
      decisions, error := AskReviewers(k, chain);
      if error.None? { RecordDecisions(k, decisions); }
    }

    /** `run_review_phase` */
    method ReviewPhase(k: nat, w: World) returns (error: Option<Error>)
      requires k < |history|
      modifies this
      ensures Of(View(), error) == ReviewingAt(old(View()), k, w)
    {
      ReviewIs(View(), k, w);
      if history[k].decision.Some? { return None; }
      var a := history[k].(phase := AtReviewing);
      PutTwice(View(), k, a, Labelled(a, FirstFailure(w.reviewers)));
      if !ReviewerFailed(w.reviewers) { PutTwice(View(), k, a, ReviewedAttempt(history[k], w.reviewers)); }
      history := history[k := a];
      if w.reviewers == [] { return Some(Crash); }
      error := AskAndRecord(k, w.reviewers);
    }

    /** `_run_finalize_phase` */
    method FinalizePhase(cfg: Config, k: nat, w: World) returns (error: Option<Error>)
      requires k < |history|
      modifies this
      ensures Of(View(), error) == FinalizingAt(cfg, old(View()), k, w)
      ensures |history| == old(|history|)
      ensures old(history)[k].phase != AtMerged ==>
        (history[k].phase == AtMerged <==> MayMerge(cfg, old(View()), old(history)[k], w.changedFiles) && w.merger.Merges?)
    {
      var a := history[k];
      assert history[k := a] == history;
      GatesReadTheGraph(cfg, View(), Focus(View(), k), a, w.changedFiles);
      CanAutoMergeExactlyWhen(cfg, View(), a, w.changedFiles);
      if a.decision == Some(Stop) || a.decision == Some(Replan) {
        status := TaskStopped;
        return None;
      }
      if a.decision == Some(Reject) {
        if graph.Some? && a.nodeId != "" {
          var rejected := MarkRejected(graph.value, a.nodeId);
          if rejected.None? { return Some(Crash); }
          graph := rejected;
        }
        status := TaskStopped;
        return None;
      }
      if !CanAutoMerge(cfg, View(), a, w.changedFiles) {
        if BlockedByTestGate(cfg, View(), a) {
          history := history[k := a.(failureType := Some(TestGateBlocked))];
        }
        status := TaskStopped;
        return None;
      }
      match w.merger {
        case MergeFails(kind) =>
          history := history[k := a.(mergeError := Some(kind), failureType := Some(kind))];
          status := TaskStopped;
          error := None;
        case Merges =>
          error := FinishMerge(k);
      }
    }

    /** The merge has gone through: the attempt is MERGED, its node PASSED. */
    method FinishMerge(k: nat) returns (error: Option<Error>)
      requires k < |history|
      modifies this
      ensures Of(View(), error) == Put(old(View()), k, Merged(Focus(old(View()), k)))
    {
      var a := history[k].(phase := AtMerged, mergeError := None, failureType := None);
      history := history[k := a];
      if graph.Some? && a.nodeId != "" {
        var passed := MarkPassed(graph.value, a.nodeId, a.iteration);
        if passed.None? { return Some(Crash); }
        graph := passed;
        status := if Complete(passed.value) then TaskDone else TaskStopped;
      } else {
        status := if a.hasPlan && !a.finalStep then TaskStopped else TaskDone;
      }
      return None;
    }

    // -------------------------------------------------------------- the worker of a parallel batch

    /** `run_single_node_pipeline`, between its load of the task and the end of its lock. */
    method RunSingleNodePipeline(cfg: Config, k: nat, id: string, w: World) returns (error: Option<Error>)
      modifies this
      ensures Of(View(), error) == Pipeline(cfg, old(View()), k, id, w)
    {
      if graph.None? || k >= |history| { return Some(Crash); }
      var running := MarkRunning(graph.value, id);
      if running.None? { return Some(Crash); }
      graph := running;
      history := history[k := history[k].(nodeId := id)];
      status := TaskRunning;
      error := PhasesToReview(cfg, k, w);
    }

    method PhasesToReview(cfg: Config, k: nat, w: World) returns (error: Option<Error>)
      requires k < |history| && graph.Some?
      modifies this
      ensures Of(View(), error) == FromSetup(cfg, old(View()), k, w)
    {
      error := GraphNodeSetup(cfg, k, w);
      if error.Some? { return; }
      error := ImplementerPhase(k, w);
      if error.Some? { return; }
      TestPhase(cfg, k, w);
      error := ReviewPhase(k, w);
    }

    // -------------------------------------------------------------- the sequential executors

    /** `run_planning_phase` when there is no graph yet: the planner's list becomes the graph. */
    method PlanGraphPhase(cfg: Config, w: World) returns (error: Option<Error>)
      requires history != []
      modifies this
      ensures Of(View(), error) == PlanGraph(cfg, old(View()), w)
    {
      var k := |history| - 1;
      if !w.worktreeAdded {
        error := MarkLastFailed(PlanningError);
        return;
      }
      if w.planner.PlannerFails? {
        PersistFailure(k, w.planner.stored);
        error := MarkLastFailed(PlanningError);
        return;
      }
      if w.planner.nodes == [] {
        error := MarkLastFailed(PlanningError);
        return;
      }
      var scan := Scan(PlannedGraph(w.planner.nodes), cfg.maxRetries, 1, {});
      graph := Some(scan.nodes);
      if scan.picked == [] || scan.picked[0] >= |scan.nodes| {
        error := MarkLastFailed(PlanningError);
        return;
      }
      var id := scan.nodes[scan.picked[0]].id;
      var running := MarkRunning(scan.nodes, id);
      if running.None? { return Some(Crash); }
      graph := running;
      history := history[k := history[k].(nodeId := id, hasPlan := true, finalStep := w.planner.finalStep,
        failureType := None, phase := AtWorktree)];
      return None;
    }

    method SetupCurrent(cfg: Config, w: World) returns (error: Option<Error>)
      requires history != [] && graph.Some?
      modifies this
      ensures Of(View(), error) == SetupNode(cfg, old(View()), w)
    {
      SetupLast(cfg, View(), w);
      error := GraphNodeSetup(cfg, |history| - 1, w);
    }

    /** `run_planning_phase` */
    method PlanningPhase(cfg: Config, w: World) returns (error: Option<Error>)
      requires history != []
      modifies this
      ensures Of(View(), error) == Planning(cfg, old(View()), w)
    {
      var a := history[|history| - 1];
      if a.hasPlan && a.phase != AtPlanning && a.phase != AtPreflight && a.phase != AtWorktree { return None; }
      if graph.Some? {
        error := SetupCurrent(cfg, w);
      } else {
        error := PlanGraphPhase(cfg, w);
      }
    }

    method ReviewCurrent(w: World) returns (error: Option<Error>)
      requires history != []
      modifies this
      ensures Of(View(), error) == Reviewing(old(View()), w)
    {
      ReviewLast(View(), w);
      error := ReviewPhase(|history| - 1, w);
    }

    method FinalizeCurrent(cfg: Config, w: World) returns (error: Option<Error>)
      requires history != []
      modifies this
      ensures Of(View(), error) == Finalizing(cfg, old(View()), w)
    {
      FinalizeLast(cfg, View(), w);
      error := FinalizePhase(cfg, |history| - 1, w);
    }

    method ImplementCurrent(w: World) returns (error: Option<Error>)
      requires history != []
      modifies this
      ensures Of(View(), error) == Implementing(old(View()), w)
    {
      ImplementLast(View(), w);
      error := ImplementerPhase(|history| - 1, w);
    }

    method RunFromReview(cfg: Config, w: World) returns (error: Option<Error>)
      requires history != []
      modifies this
      ensures Of(View(), error) == FromReview(cfg, old(View()), w)
    {
      error := ReviewCurrent(w);
      if error.Some? { return; }
      error := FinalizeCurrent(cfg, w);
    }

    method RunFromTests(cfg: Config, w: World) returns (error: Option<Error>)
      requires history != []
      modifies this
      ensures Of(View(), error) == FromTests(cfg, old(View()), w)
    {
      TestLast(cfg, View(), w);
      TestPhase(cfg, |history| - 1, w);
      error := RunFromReview(cfg, w);
    }

    method RunFromImplementer(cfg: Config, w: World) returns (error: Option<Error>)
      requires history != []
      modifies this
      ensures Of(View(), error) == FromImplementer(cfg, old(View()), w)
    {
      error := ImplementCurrent(w);
      if error.Some? { return; }
      if history[|history| - 1].failureType == Some(PatchNotCaptured) {
        status := TaskStopped;
        return None;
      }
      error := RunFromTests(cfg, w);
    }

    method RunFromPlanning(cfg: Config, w: World) returns (error: Option<Error>)
      requires history != []
      modifies this
      ensures Of(View(), error) == FromPlanning(cfg, old(View()), w)
    {
      error := PlanningPhase(cfg, w);
      if error.Some? { return; }
      error := RunFromImplementer(cfg, w);
    }

    /** `_run_from_phase` */
    method RunFromPhase(cfg: Config, start: Phase, w: World) returns (error: Option<Error>)
      requires history != []
      modifies this
      ensures Of(View(), error) == RunFrom(cfg, old(View()), start, w)
    {
      match start {
        case AtPreflight => error := RunFromPlanning(cfg, w);
        case AtPlanning => error := RunFromPlanning(cfg, w);
        case AtWorktree => error := RunFromImplementer(cfg, w);
        case AtExecuting => error := RunFromImplementer(cfg, w);
        case AtTesting => error := RunFromTests(cfg, w);
        case AtReviewing => error := RunFromReview(cfg, w);
        case AtApproved =>
          error := FinalizeCurrent(cfg, w);
        case _ => error := Some(RunError);
      }
    }

    /** `prepare_run`, past its checks. */
    method PrepareRun()
      modifies this
      ensures View() == Prepared(old(View())) && history != []
    {
      iteration := iteration + 1;
      status := TaskRunning;
      history := history + [NewAttempt(iteration, 0, "")];
    }

    method RunNextIteration(cfg: Config, w: World) returns (error: Option<Error>)
      modifies this
      ensures Of(View(), error) == FromPlanning(cfg, Prepared(old(View())), w)
    {
      PrepareRun();
      error := RunFromPlanning(cfg, w);
    }

    /** `execute_run` */
    method StartRun(cfg: Config, w: World) returns (error: Option<Error>)
      modifies this
      ensures Of(View(), error) == ExecuteRun(cfg, old(View()), w)
    {
      if status == TaskStopped && history != [] && NeedsContinuation(history[|history| - 1]) { return Some(RunError); }
      if status != TaskInitialized && status != TaskStopped { return Some(RunError); }
      if iteration >= cfg.maxIterations || !w.preflightOk { return Some(RunError); }
      assert ExecuteRun(cfg, View(), w) == FromPlanning(cfg, Prepared(View()), w);
      error := RunNextIteration(cfg, w);
    }

    /** `_begin_retry_attempt` */
    method BeginRetryAttempt()
      requires history != []
      modifies this
      ensures View() == Retried(old(View())) && history != []
    {
      var a := history[|history| - 1];
      history := history + [NewAttempt(a.iteration, a.retry + 1, a.nodeId)];
      status := TaskRunning;
    }

    /** What `reconcile_patch_not_captured` does to the last attempt. */
    method Reconcile()
      requires history != []
      modifies this
      ensures View() == Reconciled(old(View())) && history != []
    {
      var k := |history| - 1;
      history := history[k := history[k].(failureType := None)];
      if history[k].exitCode.None? {
        history := history[k := history[k].(exitCode := Some(0))];
      }
    }

    method ReconcileAndTest(cfg: Config, w: World) returns (error: Option<Error>)
      requires history != []
      modifies this
      ensures Of(View(), error) == TestReconciled(cfg, old(View()), w)
    {
      Reconcile();
      status := TaskRunning;
      error := RunFromTests(cfg, w);
    }

    method ContinueCurrent(cfg: Config, w: World) returns (error: Option<Error>)
      requires history != []
      modifies this
      ensures Of(View(), error) == ContinueAttempt(cfg, old(View()), w)
    {
      var a := history[|history| - 1];
      if a.failureType == Some(PatchNotCaptured) && w.capturedBeforeStep {
        error := ReconcileAndTest(cfg, w);
        return;
      }
      status := TaskRunning;
      error := RunFromPhase(cfg, a.phase, w);
    }

    /** `execute_resume` */
    method ResumeAttempt(cfg: Config, w: World) returns (error: Option<Error>)
      modifies this
      ensures Of(View(), error) == ExecuteResume(cfg, old(View()), w)
    {
      if (status != TaskStopped && status != TaskInterrupted && status != TaskRunning) || history == [] { return Some(ResumeError); }
      var a := history[|history| - 1];
      if w.staleRunner && (a.phase == AtExecuting || a.phase == AtPlanning || a.phase == AtReviewing || a.phase == AtTesting) {
        return Some(ResumeError);
      }
      if a.phase == AtRejected {
        if a.retry >= cfg.maxRetries || !w.preflightOk { return Some(ResumeError); }
        BeginRetryAttempt();
        error := RunFromPlanning(cfg, w);
        return;
      }
      if a.phase == AtApproved {
        error := FinalizeCurrent(cfg, w);
        return;
      }
      if !NeedsContinuation(a) { return Some(ResumeError); }
      error := ContinueCurrent(cfg, w);
    }

    // -------------------------------------------------------------- repair and replan

    /** `_reset_attempt_downstream_for_repair`, after the report is put on the attempt. */
    method ResetDownstream(report: Report)
      requires history != []
      modifies this`history
      ensures View() == SetLast(old(View()), ResetForRepair(Last(old(View())), report)) && history != []
    {
      var k := |history| - 1;
      history := history[k := history[k].(failureType := Some(report.kind))];
      history := history[k := history[k].(exitCode := None, testStatus := NotTested)];
      history := history[k := history[k].(decision := None, reviews := [], mergeError := None)];
    }

    /** `_run_implementer_with_prompt` */
    method RunImplementerWithPrompt(w: World) returns (error: Option<Error>)
      requires history != []
      modifies this
      ensures Of(View(), error) == RepairRun(old(View()), w)
    {
      var k := |history| - 1;
      history := history[k := history[k].(phase := AtExecuting)];
      if w.implementer.ImplementerUnavailable? { return Some(Crash); }
      var code := w.implementer.exitCode;
      history := history[k := history[k].(exitCode := Some(code), failureType := CaptureState(history[k], code, w.implementer.uncaptured))];
      if w.implementer.abnormal || code != 0 {
        error := MarkLastFailed(ImplementingError);
      } else {
        error := None;
      }
    }

    /** `execute_repair_recovery` */
    method RepairAttempt(cfg: Config, report: Report, w: World) returns (error: Option<Error>)
      requires history != []
      modifies this
      ensures Of(View(), error) == ExecuteRepair(cfg, old(View()), report, w)
    {
      var a := history[|history| - 1];
      if a.phase == AtApproved && a.decision == Some(Approve) && report.kind != MergeConflict { return Some(RunError); }
      if report.kind == PatchNotCaptured && a.failureType == Some(PatchNotCaptured) && w.capturedBeforeStep {
        error := ReconcileAndTest(cfg, w);
        return;
      }
      error := ResetAndRepair(cfg, report, w);
    }

    method ResetAndRepair(cfg: Config, report: Report, w: World) returns (error: Option<Error>)
      requires history != []
      modifies this
      ensures Of(View(), error) == ResetAndRepaired(cfg, old(View()), report, w)
    {
      ResetDownstream(report);
      status := TaskRunning;
      error := RepairAndGoOn(cfg, report, w);
    }

    method RepairAndGoOn(cfg: Config, report: Report, w: World) returns (error: Option<Error>)
      requires history != []
      modifies this
      ensures Of(View(), error) == Repaired(cfg, old(View()), report, w)
    {
      error := RunImplementerWithPrompt(w);
      if error.Some? { return; }
      error := AfterRepair(cfg, report, w);
    }

    method AfterRepair(cfg: Config, report: Report, w: World) returns (error: Option<Error>)
      requires history != []
      modifies this
      ensures Of(View(), error) == AfterRepairRun(cfg, old(View()), report, w)
    {
      var k := |history| - 1;
      if report.kind == PatchNotCaptured {
        if w.capturedAfterRepair {
          history := history[k := history[k].(failureType := None)];
        } else if history[k].failureType == Some(PatchNotCaptured) {
          status := TaskStopped;
          return None;
        }
      }
      error := RunFromTests(cfg, w);
    }

    /** `execute_replan`: a patch that is refused or half applied leaves the saved graph as it was. */
    method ReplanGraph(w: World) returns (error: Option<Error>)
      requires history != []
      modifies this
      ensures Of(View(), error) == ExecuteReplan(old(View()), w)
    {
      var k := |history| - 1;
      status := TaskReplanning;
      history := history[k := history[k].(phase := AtReplanning)];
      if graph.None? { return Some(PlanningError); }
      history := history[k := history[k].(phase := AtPlanning)];
      match w.replanner {
        case ReplannerFails => return Some(PlanningError);
        case ReplannerCrashes => return Some(Crash);
        case Replanned(ops) =>
          var errors := ValidateOps(graph.value, ops);
          if errors != [] { return Some(PlanningError); }
          var applied := ApplyOps(graph.value, ops);
          if !applied.Done? { return Some(Crash); }
          graph := Some(applied.nodes);
          history := history[k := history[k].(phase := AtWorktree)];
          status := TaskStopped;
          return None;
      }
    }

    // -------------------------------------------------------------- the auto loop

    /** `increment_recovery_counter` on the last attempt. */
    method IncrementRecoveryCounter(report: Report)
      requires history != []
      modifies this`history
      ensures View() == SetLast(old(View()), Counted(Last(old(View())), report)) && history != []
    {
      var k := |history| - 1;
      if report.kind == MergeWorktreeBusy {
        history := history[k := history[k].(mergeRetryCount := history[k].mergeRetryCount + 1)];
      } else if report.recoverable {
        history := history[k := history[k].(recoveryRetryCount := history[k].recoveryRetryCount + 1)];
      }
    }

    /** `_handle_provider_auto_failure` */
    method HandleProviderFailure(cfg: Config, phase: Phase, w: World) returns (goOn: bool)
      modifies this
      ensures HandleFailure(cfg, old(View()), phase, w) == if goOn then Continue(View()) else Exit(View())
    {
      if history == [] { return false; }
      var k := |history| - 1;
      var report := ProviderReport(w.providerKind);
      history := history[k := history[k].(phase := phase, failureType := Some(report.kind))];
      status := TaskStopped;
      return report.recoverable && cfg.autoRecoverProvider && BudgetRemaining(cfg, history[k], report.kind);
    }

    method RecordFailure(kind: FailureType)
      modifies this`history
      ensures View() == WithFailure(old(View()), kind)
    {
      if history != [] {
        var k := |history| - 1;
        history := history[k := history[k].(failureType := Some(kind))];
      }
    }

    /** The step that was decided, whatever exception it ends with. */
    method ExecuteStep(cfg: Config, c: Choice, w: World) returns (error: Option<Error>)
      modifies this
      ensures Of(View(), error) == Execute(cfg, old(View()), c, w)
    {
      match c.step {
        case StepRun =>
          if status == TaskDone { status := TaskStopped; }
          error := StartRun(cfg, w);
        case StepReplan =>
          if history == [] { return Some(RunError); }
          error := ReplanGraph(w);
        case StepRepair =>
          if c.report.None? || history == [] { return Some(RunError); }
          IncrementRecoveryCounter(c.report.value);
          error := RepairAttempt(cfg, c.report.value, w);
        case StepMergeRetry =>
          if c.report.Some? && history != [] { IncrementRecoveryCounter(c.report.value); }
          error := ResumeAttempt(cfg, w);
        case _ =>
          error := ResumeAttempt(cfg, w);
      }
    }

    /** The loop's `except` clauses. */
    method HandleError(cfg: Config, error: Option<Error>, w: World) returns (goOn: bool)
      modifies this
      ensures AfterStep(cfg, Of(old(View()), error), w) == if goOn then Continue(View()) else Exit(View())
    {
      match error {
        case None => goOn := true;
        case Some(PlanningError) => goOn := HandleProviderFailure(cfg, AtPlanning, w);
        case Some(ImplementingError) => goOn := HandleProviderFailure(cfg, AtExecuting, w);
        case Some(ReviewError) => goOn := HandleProviderFailure(cfg, AtReviewing, w);
        case _ => goOn := false;
      }
    }

    method TakeStep(cfg: Config, c: Choice, w: World) returns (goOn: bool)
      modifies this
      ensures AfterStep(cfg, Execute(cfg, old(View()), c, w), w) == if goOn then Continue(View()) else Exit(View())
    {
      var error := ExecuteStep(cfg, c, w);
      goOn := HandleError(cfg, error, w);
    }

    method Recheck(w: World)
      modifies this
      ensures View() == Rechecked(old(View()), w)
    {
      if history != [] && history[|history| - 1].failureType == Some(PatchNotCaptured) && w.capturedAtDispatch {
        Reconcile();
      }
    }

    /** One turn of the `while True` in `_run_auto_loop`. */
    method AutoLoopTurn(cfg: Config, w: World) returns (goOn: bool)
      modifies this
      ensures AutoPass(cfg, old(View()), w) == if goOn then Continue(View()) else Exit(View())
      ensures old(history) != [] && !w.budgetExhausted ==> (RepairedOnce(old(View()), View()) <==> RepairFalls(cfg, Rechecked(old(View()), w), w))
    {
      if history != [] && !w.budgetExhausted { PassRepairsExactlyWhen(cfg, View(), w); }
      if history != [] && w.budgetExhausted {
        RecordFailure(BudgetExhausted);
        return false;
      }
      Recheck(w);
      var c := Decide(cfg, View(), w);
      if c.step == StepDone { return false; }
      if c.step == StepTerminal {
        if c.report.Some? { RecordFailure(c.report.value.kind); }
        return false;
      }
      goOn := TakeStep(cfg, c, w);
    }

    method TurnAs(cfg: Config, w: World, ghost pass: (Task, World) -> Pass) returns (goOn: bool)
      requires IsPass(cfg, pass)
      modifies this
      ensures pass(old(View()), w) == if goOn then Continue(View()) else Exit(View())
    {
      goOn := AutoLoopTurn(cfg, w);
    }

    method LoopAs(cfg: Config, worlds: seq<World>, ghost pass: (Task, World) -> Pass) returns (goOn: bool)
      requires IsPass(cfg, pass)
      modifies this
      ensures TurnsOf(pass, old(View()), worlds) == if goOn then Continue(View()) else Exit(View())
    {
      goOn := true;
      var i := 0;
      while goOn && i < |worlds|
        invariant i <= |worlds|
        invariant TurnsOf(pass, old(View()), worlds) == if goOn then TurnsOf(pass, View(), worlds[i..]) else Exit(View())
      {
        assert worlds[i..][1..] == worlds[i + 1..];
        goOn := TurnAs(cfg, worlds[i], pass);
        i := i + 1;
      }
    }

    /** `_run_auto_loop`, for as many turns as there are inputs. */
    method RunAutoLoop(cfg: Config, worlds: seq<World>) returns (goOn: bool)
      modifies this
      ensures AutoTurns(cfg, old(View()), worlds) == if goOn then Continue(View()) else Exit(View())
      ensures Initial(old(View())) && (forall k | 0 <= k < |worlds| :: WorldOk(worlds[k]))
        ==> Delivered(cfg, old(View()), worlds, View())
    {
      if Initial(View()) && forall k | 0 <= k < |worlds| :: WorldOk(worlds[k]) {
        TurnsDeliver(cfg, View(), worlds);
      }
      goOn := LoopAs(cfg, worlds, ThePass(cfg));
    }
  }
}
