/**
 * The sequential auto loop: `decide_auto_step` (recovery.py), the phases and executors of run.py,
 * and one pass of `_run_auto_loop` (cli.py).  Everything outside the program is in `World`: what
 * the providers, the tests, git and the worktree answer during one pass.
 */
module AutoLoop {
  import opened Option
  import opened TaskGraph
  import opened TaskState
  import opened GraphPatch

  /** A phase that fails may label the attempt before it raises; `stored` is that label. */
  datatype Planner = PlannerFails(stored: Option<FailureType>) | Plan(nodes: seq<Node>, finalStep: bool)
  datatype Implementer = ImplementerUnavailable | Implemented(exitCode: int, abnormal: bool, uncaptured: bool, failure: FailureType)
  datatype Tests = TestsReturn(exitCode: int) | TestsTimeOut
  datatype Reviewer = ReviewerFails(stored: Option<FailureType>) | Reviewed(decision: Decision)
  datatype Merger = Merges | MergeFails(kind: FailureType)
  datatype Replanner = ReplannerFails | ReplannerCrashes | Replanned(ops: seq<PatchOp>)

  datatype World = World(
    preflightOk: bool,
    worktreeAdded: bool,
    planner: Planner,
    implementer: Implementer,
    tests: Tests,
    reviewers: seq<Reviewer>,
    merger: Merger,
    replanner: Replanner,
    changedFiles: nat,
    budgetExhausted: bool,
    capturedAtDispatch: bool,
    capturedAtDecision: bool,
    capturedBeforeStep: bool,
    capturedAfterRepair: bool,
    stopKind: FailureType,
    testKind: FailureType,
    providerKind: FailureType,
    staleRunner: bool)

  datatype Error = PlanningError | ImplementingError | ReviewError | RunError | ResumeError | Crash

  datatype Outcome = Ok(state: Task) | Raised(state: Task, error: Error) {
    predicate IsFailure() { Raised? }
    function PropagateFailure(): Outcome requires Raised? { this }
    function Extract(): Task requires Ok? { state }
  }

  /**
   * `t` continues the attempt that is last in `s`: no attempt was added, earlier ones are as they
   * were, and the attempt keeps its number, its retry and its counters.
   */
  predicate SameAttempt(s: Task, t: Task) {
    && |t.history| == |s.history| && s.history != [] && t.iteration == s.iteration
    && (forall k | 0 <= k < |s.history| - 1 :: t.history[k] == s.history[k])
    && Last(t).iteration == Last(s).iteration && Last(t).retry == Last(s).retry
    && Last(t).recoveryRetryCount == Last(s).recoveryRetryCount && Last(t).mergeRetryCount == Last(s).mergeRetryCount
  }

  // ---------------------------------------------------------------- phases

  /** `persist_failure_state` with a provider's report. */
  function Labelled(a: Attempt, stored: Option<FailureType>): Attempt {
    match stored case None => a case Some(kind) => a.(failureType := Some(ProviderReport(kind).kind))
  }

  /** `_mark_planning_failed` and its siblings, followed by the exception. */
  function FailAttempt(s: Task, e: Error): (r: Outcome)
    requires s.history != []
    ensures SameAttempt(s, r.state)
  {
    var a := Last(s);
    if s.graph.Some? && a.nodeId != "" then
      match MarkFailed(s.graph.value, a.nodeId)
      case None => Raised(s, Crash)
      case Some(g) => Raised(SetLast(s.(graph := Some(g), status := TaskFailed), a.(phase := AtFailed)), e)
    else Raised(SetLast(s.(status := TaskFailed), a.(phase := AtFailed)), e)
  }

  function StartNode(s: Task, id: string, w: World): (r: Outcome)
    requires s.history != [] && s.graph.Some?
    ensures SameAttempt(s, r.state)
  {
    match MarkRunning(s.graph.value, id)
    case None => Raised(s, Crash)
    case Some(g) =>
      var a := Last(s);
      var s1 := SetLast(s.(graph := Some(g)), a.(nodeId := id, hasPlan := true, finalStep := a.hasPlan && a.finalStep));
      if !w.worktreeAdded then FailAttempt(s1, PlanningError)
      else Ok(SetLast(s1, Last(s1).(phase := AtWorktree)))
  }

  /** `_run_graph_node_setup` */
  function SetupNode(cfg: Config, s: Task, w: World): (r: Outcome)
    requires s.history != [] && s.graph.Some?
    ensures SameAttempt(s, r.state)
  {
    var a := Last(s);
    if a.nodeId != "" then
      if FirstIndex(s.graph.value, a.nodeId).None? then FailAttempt(s, PlanningError) else StartNode(s, a.nodeId, w)
    else
      var scan := Scan(s.graph.value, cfg.maxRetries, 1, {});
      var s1 := s.(graph := Some(scan.nodes));
      if scan.picked == [] || scan.picked[0] >= |scan.nodes| then FailAttempt(s1, PlanningError)
      else StartNode(s1, scan.nodes[scan.picked[0]].id, w)
  }

  /** Nodes as `graph_node_from_planner_item` creates them. */
  function PlannedNodes(ns: seq<Node>): (r: seq<Node>)
    ensures |r| == |ns|
    ensures forall k | 0 <= k < |ns| :: r[k] == ns[k].(status := Pending, attemptIterations := [], retryCount := 0)
  {
    seq(|ns|, k requires 0 <= k < |ns| => ns[k].(status := Pending, attemptIterations := [], retryCount := 0))
  }

  /** `graph_from_planner_json`: unknown dependencies are blocked, then a first scan names the current node. */
  function PlannedGraph(ns: seq<Node>): seq<Node> {
    Scan(BlockInvalid(PlannedNodes(ns)), 2, 1, {}).nodes
  }

  /** The first node of a new graph, if one can run. */
  function PlanFirst(s: Task, scan: ScanResult, finalStep: bool): (r: Outcome)
    requires s.history != []
    ensures SameAttempt(s, r.state)
  {
    var s1 := s.(graph := Some(scan.nodes));
    if scan.picked == [] || scan.picked[0] >= |scan.nodes| then FailAttempt(s1, PlanningError)
    else
      var id := scan.nodes[scan.picked[0]].id;
      match MarkRunning(scan.nodes, id)
      case None => Raised(s1, Crash)
      case Some(g) =>
        Ok(SetLast(s.(graph := Some(g)),
          Last(s).(nodeId := id, hasPlan := true, finalStep := finalStep, failureType := None, phase := AtWorktree)))
  }

  /** The planning phase of a task that has no graph yet. */
  function PlanGraph(cfg: Config, s: Task, w: World): (r: Outcome)
    requires s.history != []
    ensures SameAttempt(s, r.state)
  {
    if !w.worktreeAdded then FailAttempt(s, PlanningError)
    else if w.planner.PlannerFails? then FailAttempt(SetLast(s, Labelled(Last(s), w.planner.stored)), PlanningError)
    else if w.planner.nodes == [] then FailAttempt(s, PlanningError)
    else PlanFirst(s, Scan(PlannedGraph(w.planner.nodes), cfg.maxRetries, 1, {}), w.planner.finalStep)
  }

  /** `run_planning_phase` */
  function Planning(cfg: Config, s: Task, w: World): (r: Outcome)
    requires s.history != []
    ensures SameAttempt(s, r.state)
  {
    var a := Last(s);
    if a.hasPlan && a.phase != AtPlanning && a.phase != AtPreflight && a.phase != AtWorktree then Ok(s)
    else if s.graph.Some? then SetupNode(cfg, s, w)
    else PlanGraph(cfg, s, w)
  }

  /** What `_record_uncaptured_patch_if_needed` and `_clear_resolved_patch_not_captured` leave behind. */
  function CaptureState(a: Attempt, code: int, uncaptured: bool): Option<FailureType> {
    if code == 0 && uncaptured then Some(PatchNotCaptured)
    else if a.failureType == Some(PatchNotCaptured) && !uncaptured then None
    else a.failureType
  }

  /** What `run_implementer_phase` stores before it raises, or leaves when it does not. */
  function RunLabel(a: Attempt, i: Implementer): Option<FailureType>
    requires i.Implemented?
  {
    if i.abnormal || i.exitCode != 0 then Some(ProviderReport(i.failure).kind) else CaptureState(a, i.exitCode, i.uncaptured)
  }

  /** `run_implementer_phase` */
  function Implementing(s: Task, w: World): (r: Outcome)
    requires s.history != []
    ensures SameAttempt(s, r.state)
  {
    var a := Last(s);
    if a.exitCode == Some(0) then Ok(s)
    else if a.exitCode.Some? || !a.hasPlan then FailAttempt(s, ImplementingError)
    else
      var s1 := SetLast(s, a.(phase := AtExecuting));
      match w.implementer
      case ImplementerUnavailable => FailAttempt(s1, ImplementingError)
      case Implemented(code, abnormal, _, _) =>
        var s2 := SetLast(s1, Last(s1).(exitCode := Some(code), failureType := RunLabel(a, w.implementer)));
        if abnormal || code != 0 then FailAttempt(s2, ImplementingError) else Ok(s2)
  }

  /** `run_test_phase` */
  function Testing(cfg: Config, s: Task, w: World): (r: Task)
    requires s.history != []
    ensures SameAttempt(s, r)
  {
    var a := Last(s);
    if a.testStatus != NotTested then s
    else
      var result := if !cfg.hasTestCommand then TestsSkipped
        else match w.tests
          case TestsTimeOut => TestsTimedOut
          case TestsReturn(code) => if code == 0 then TestsPassed else TestsFailed;
      SetLast(s, a.(phase := AtTesting, testStatus := result))
  }

  function Decisions(rs: seq<Reviewer>): (ds: seq<Decision>)
    requires forall k | 0 <= k < |rs| :: rs[k].Reviewed?
    ensures |ds| == |rs| && forall k | 0 <= k < |rs| :: ds[k] == rs[k].decision
  {
    seq(|rs|, k requires 0 <= k < |rs| => rs[k].decision)
  }

  /** The label stored for the first reviewer that fails: none after it is asked. */
  function FirstFailure(rs: seq<Reviewer>): Option<FailureType> {
    if rs == [] then None else if rs[0].ReviewerFails? then rs[0].stored else FirstFailure(rs[1..])
  }

  /** `run_review_phase` */
  function Reviewing(s: Task, w: World): (r: Outcome)
    requires s.history != []
    ensures SameAttempt(s, r.state)
  {
    var a := Last(s);
    if a.decision.Some? then Ok(s)
    else
      var s1 := SetLast(s, a.(phase := AtReviewing));
      if w.reviewers == [] then Raised(s1, Crash)
      else if exists k | 0 <= k < |w.reviewers| :: w.reviewers[k].ReviewerFails?
      then FailAttempt(SetLast(s1, Labelled(Last(s1), FirstFailure(w.reviewers))), ReviewError)
      else
        var ds := Decisions(w.reviewers);
        var d := Aggregate(ds);
        Ok(SetLast(s1, Last(s1).(
          reviews := ds, decision := Some(d),
          phase := if d == Approve then AtApproved else AtRejected,
          failureType := if d == Approve then None else a.failureType)))
  }

  /** The end of `_run_finalize_phase`: the merge went through. */
  function Merged(s: Task): (r: Outcome)
    requires s.history != []
    ensures SameAttempt(s, r.state)
  {
    var a := Last(s).(phase := AtMerged, mergeError := None, failureType := None);
    if s.graph.Some? && a.nodeId != "" then
      match MarkPassed(s.graph.value, a.nodeId, a.iteration)
      case None => Raised(SetLast(s, a), Crash)
      case Some(g) => Ok(SetLast(s.(graph := Some(g), status := if Complete(g) then TaskDone else TaskStopped), a))
    else Ok(SetLast(s.(status := if a.hasPlan && !a.finalStep then TaskStopped else TaskDone), a))
  }

  /** `_run_finalize_phase` */
  function Finalizing(cfg: Config, s: Task, w: World): (r: Outcome)
    requires s.history != []
    ensures SameAttempt(s, r.state)
  {
    var a := Last(s);
    if a.decision == Some(Stop) || a.decision == Some(Replan) then Ok(s.(status := TaskStopped))
    else if a.decision == Some(Reject) then
      if s.graph.Some? && a.nodeId != "" then
        match MarkRejected(s.graph.value, a.nodeId)
        case None => Raised(s, Crash)
        case Some(g) => Ok(s.(graph := Some(g), status := TaskStopped))
      else Ok(s.(status := TaskStopped))
    else if !CanAutoMerge(cfg, s, a, w.changedFiles) then
      Ok(SetLast(s.(status := TaskStopped),
        if BlockedByTestGate(cfg, s, a) then a.(failureType := Some(TestGateBlocked)) else a))
    else match w.merger
      case MergeFails(kind) => Ok(SetLast(s.(status := TaskStopped), a.(mergeError := Some(kind), failureType := Some(kind))))
      case Merges => Merged(s)
  }

  // ---------------------------------------------------------------- _run_from_phase, one entry point per phase

  function FromReview(cfg: Config, s: Task, w: World): (r: Outcome)
    requires s.history != []
    ensures SameAttempt(s, r.state)
  {
    var reviewed :- Reviewing(s, w);
    Finalizing(cfg, reviewed, w)
  }

  function FromTests(cfg: Config, s: Task, w: World): (r: Outcome)
    requires s.history != []
    ensures SameAttempt(s, r.state)
  {
    FromReview(cfg, Testing(cfg, s, w), w)
  }

  function FromImplementer(cfg: Config, s: Task, w: World): (r: Outcome)
    requires s.history != []
    ensures SameAttempt(s, r.state)
  {
    var done :- Implementing(s, w);
    if Last(done).failureType == Some(PatchNotCaptured) then Ok(done.(status := TaskStopped))
    else FromTests(cfg, done, w)
  }

  function FromPlanning(cfg: Config, s: Task, w: World): (r: Outcome)
    requires s.history != []
    ensures SameAttempt(s, r.state)
  {
    var planned :- Planning(cfg, s, w);
    FromImplementer(cfg, planned, w)
  }

  function RunFrom(cfg: Config, s: Task, start: Phase, w: World): (r: Outcome)
    requires s.history != []
    ensures SameAttempt(s, r.state)
  {
    match start
    case AtPreflight => FromPlanning(cfg, s, w)
    case AtPlanning => FromPlanning(cfg, s, w)
    case AtWorktree => FromImplementer(cfg, s, w)
    case AtExecuting => FromImplementer(cfg, s, w)
    case AtTesting => FromTests(cfg, s, w)
    case AtReviewing => FromReview(cfg, s, w)
    case AtApproved => Finalizing(cfg, s, w)
    case _ => Raised(s, RunError)
  }

  // ---------------------------------------------------------------- executors

  function NewAttempt(iteration: nat, retry: nat, nodeId: string): Attempt {
    Attempt(iteration, retry, nodeId, AtPlanning, false, true, None, NotTested, [], None, None, None, 0, 0)
  }

  /** `_attempt_needs_continuation` */
  predicate NeedsContinuation(a: Attempt) {
    if a.phase == AtMerged || a.phase == AtFailed || a.phase == AtRejected then false
    else if a.phase == AtApproved then true
    else if a.exitCode == Some(0) && a.testStatus != NotTested then a.decision.None?
    else if a.exitCode == Some(0) then true
    else if a.hasPlan && a.exitCode.None? then true
    else if a.phase == AtPlanning || a.phase == AtWorktree || a.phase == AtPreflight then !a.hasPlan
    else a.phase == AtExecuting || a.phase == AtTesting || a.phase == AtReviewing
  }

  /** The state `prepare_run` leaves: one more iteration, one more attempt. */
  function Prepared(s: Task): (r: Task)
    ensures r.history != []
  {
    s.(status := TaskRunning, iteration := s.iteration + 1,
       history := s.history + [NewAttempt(s.iteration + 1, 0, "")])
  }

  /** `execute_run` with `prepare_run` */
  function ExecuteRun(cfg: Config, s: Task, w: World): (r: Outcome)
    ensures r == Raised(s, RunError) || (s.iteration < cfg.maxIterations && SameAttempt(Prepared(s), r.state))
  {
    if s.status == TaskStopped && s.history != [] && NeedsContinuation(Last(s)) then Raised(s, RunError)
    else if s.status != TaskInitialized && s.status != TaskStopped then Raised(s, RunError)
    else if s.iteration >= cfg.maxIterations || !w.preflightOk then Raised(s, RunError)
    else FromPlanning(cfg, Prepared(s), w)
  }

  /** `_begin_retry_attempt` */
  function Retried(s: Task): (r: Task)
    requires s.history != []
    ensures r.history != []
  {
    var a := Last(s);
    s.(status := TaskRunning, history := s.history + [NewAttempt(a.iteration, a.retry + 1, a.nodeId)])
  }

  /** What `reconcile_patch_not_captured` does once the worktree turns out to hold the changes. */
  function Reconciled(s: Task): (r: Task)
    requires s.history != []
    ensures r.history != []
  {
    var a := Last(s);
    SetLast(s, a.(failureType := None, exitCode := if a.exitCode.None? then Some(0) else a.exitCode))
  }

  /** A reconciled attempt goes on with its tests. */
  function TestReconciled(cfg: Config, s: Task, w: World): (r: Outcome)
    requires s.history != []
    ensures SameAttempt(s, r.state)
  {
    FromTests(cfg, Reconciled(s).(status := TaskRunning), w)
  }

  /** The remaining phases of an attempt that was interrupted. */
  function ContinueAttempt(cfg: Config, s: Task, w: World): (r: Outcome)
    requires s.history != []
    ensures SameAttempt(s, r.state)
  {
    if Last(s).failureType == Some(PatchNotCaptured) && w.capturedBeforeStep then
      TestReconciled(cfg, s, w)
    else RunFrom(cfg, s.(status := TaskRunning), Last(s).phase, w)
  }

  /** `execute_resume` */
  function ExecuteResume(cfg: Config, s: Task, w: World): (r: Outcome)
    ensures r == Raised(s, ResumeError) ||
      (s.history != [] &&
       if Last(s).phase == AtRejected then Last(s).retry < cfg.maxRetries && SameAttempt(Retried(s), r.state)
       else SameAttempt(s, r.state))
  {
    if (s.status != TaskStopped && s.status != TaskInterrupted && s.status != TaskRunning) || s.history == []
    then Raised(s, ResumeError)
    else
      var a := Last(s);
      if w.staleRunner && (a.phase == AtExecuting || a.phase == AtPlanning || a.phase == AtReviewing || a.phase == AtTesting)
      then Raised(s, ResumeError)
      else if a.phase == AtRejected then
        if a.retry >= cfg.maxRetries || !w.preflightOk then Raised(s, ResumeError)
        else FromPlanning(cfg, Retried(s), w)
      else if a.phase == AtApproved then Finalizing(cfg, s, w)
      else if !NeedsContinuation(a) then Raised(s, ResumeError)
      else ContinueAttempt(cfg, s, w)
  }

  /** `_reset_attempt_downstream_for_repair`, after the report is put on the attempt. */
  function ResetForRepair(a: Attempt, report: Report): Attempt {
    a.(failureType := Some(report.kind), exitCode := None, testStatus := NotTested,
       decision := None, reviews := [], mergeError := None)
  }

  /** `_run_implementer_with_prompt` */
  function RepairRun(s: Task, w: World): (r: Outcome)
    requires s.history != []
    ensures SameAttempt(s, r.state)
  {
    var s1 := SetLast(s, Last(s).(phase := AtExecuting));
    match w.implementer
    case ImplementerUnavailable => Raised(s1, Crash)
    case Implemented(code, abnormal, uncaptured, _) =>
      var s2 := SetLast(s1, Last(s1).(exitCode := Some(code), failureType := CaptureState(Last(s1), code, uncaptured)));
      if abnormal || code != 0 then FailAttempt(s2, ImplementingError) else Ok(s2)
  }

  /** A repair once the implementer has run. */
  function AfterRepairRun(cfg: Config, s: Task, report: Report, w: World): (r: Outcome)
    requires s.history != []
    ensures SameAttempt(s, r.state)
  {
    if report.kind == PatchNotCaptured && !w.capturedAfterRepair && Last(s).failureType == Some(PatchNotCaptured) then
      Ok(s.(status := TaskStopped))
    else
      var cleared := report.kind == PatchNotCaptured && w.capturedAfterRepair;
      FromTests(cfg, if cleared then SetLast(s, Last(s).(failureType := None)) else s, w)
  }

  function Repaired(cfg: Config, s: Task, report: Report, w: World): (r: Outcome)
    requires s.history != []
    ensures SameAttempt(s, r.state)
  {
    var repaired :- RepairRun(s, w);
    AfterRepairRun(cfg, repaired, report, w)
  }

  function ResetAndRepaired(cfg: Config, s: Task, report: Report, w: World): (r: Outcome)
    requires s.history != []
    ensures SameAttempt(s, r.state)
  {
    Repaired(cfg, SetLast(s.(status := TaskRunning), ResetForRepair(Last(s), report)), report, w)
  }

  /** `execute_repair_recovery` */
  function ExecuteRepair(cfg: Config, s: Task, report: Report, w: World): (r: Outcome)
    requires s.history != []
    ensures SameAttempt(s, r.state)
  {
    var a := Last(s);
    if a.phase == AtApproved && a.decision == Some(Approve) && report.kind != MergeConflict then Raised(s, RunError)
    else if report.kind == PatchNotCaptured && a.failureType == Some(PatchNotCaptured) && w.capturedBeforeStep then
      TestReconciled(cfg, s, w)
    else ResetAndRepaired(cfg, s, report, w)
  }

  /** `execute_replan` */
  ghost function ExecuteReplan(s: Task, w: World): (r: Outcome)
    requires s.history != []
    ensures SameAttempt(s, r.state)
  {
    var s1 := SetLast(s.(status := TaskReplanning), Last(s).(phase := AtReplanning));
    var s2 := SetLast(s1, Last(s1).(phase := AtPlanning));
    if s1.graph.None? then Raised(s1, PlanningError)
    else match w.replanner
      case ReplannerFails => Raised(s2, PlanningError)
      case ReplannerCrashes => Raised(s2, Crash)
      case Replanned(ops) =>
        if !Accepted(s.graph.value, ops) then Raised(s2, PlanningError)
        else match ApplyOps(s.graph.value, ops)
          case Done(g) =>
            Ok(SetLast(s2.(graph := Some(g), status := TaskStopped), Last(s2).(phase := AtWorktree)))
          case _ => Raised(s2, Crash)   // nothing of a half-applied patch is saved
  }

  // ---------------------------------------------------------------- decide_auto_step

  datatype AutoStep = StepRun | StepResume | StepRepair | StepMergeRetry | StepTerminal | StepDone | StepReplan

  datatype Choice = Choice(step: AutoStep, report: Option<Report>)

  /** `recovery_budget_remaining` */
  predicate BudgetRemaining(cfg: Config, a: Attempt, kind: FailureType) {
    match kind
    case MergeWorktreeBusy => a.mergeRetryCount < cfg.maxMergeRetries
    case MergeConflict => cfg.autoRecoverMerge && a.recoveryRetryCount < cfg.maxMergeRecovery
    case TestImplementation => cfg.autoRecoverTests && a.recoveryRetryCount < cfg.maxRecovery
    case TestGateBlocked => cfg.autoRecoverTests && a.recoveryRetryCount < cfg.maxRecovery
    case PatchNotCaptured => cfg.autoRecoverTests && a.recoveryRetryCount < cfg.maxRecovery
    case ProviderExitError => cfg.autoRecoverProvider && a.recoveryRetryCount < cfg.maxRecovery
    case ProviderTimeout => cfg.autoRecoverProvider && a.recoveryRetryCount < cfg.maxRecovery
    case ProviderInterrupted => cfg.autoRecoverProvider && a.recoveryRetryCount < cfg.maxRecovery
    case ProviderHung => cfg.autoRecoverProvider && a.recoveryRetryCount < cfg.maxRecovery
    case ReviewerStopFixable => a.recoveryRetryCount < cfg.maxRecovery
    case ReviewerReject => a.retry < cfg.maxRetries
    case _ => false
  }

  /** `increment_recovery_counter` */
  function Counted(a: Attempt, report: Report): Attempt {
    if report.kind == MergeWorktreeBusy then a.(mergeRetryCount := a.mergeRetryCount + 1)
    else if report.recoverable then a.(recoveryRetryCount := a.recoveryRetryCount + 1)
    else a
  }

  /** `classify_reviewer_outcome` */
  function ReviewerReport(a: Attempt, w: World): Option<Report> {
    match a.decision
    case Some(Reject) => Some(Report(ReviewerReject, true))
    case Some(Replan) => Some(Report(ReviewerReject, true))
    case Some(Stop) => Some(StopReport(w.stopKind))
    case _ => None
  }

  /** `classify_attempt_outcome` */
  function AttemptReport(cfg: Config, s: Task, a: Attempt, w: World): Option<Report> {
    if a.mergeError.Some? then Some(StoredMergeReport(a.mergeError.value))
    else if ReviewerGatePassed(a) then
      if s.status == TaskStopped && a.phase == AtApproved && BlockedByTestGate(cfg, s, a)
      then Some(Report(TestGateBlocked, false)) else None
    else if a.failureType == Some(PatchNotCaptured) then
      if w.capturedAtDecision then None else Some(Report(PatchNotCaptured, true))
    else if ReviewerReport(a, w).Some? then ReviewerReport(a, w)
    else if (a.testStatus == TestsFailed || a.testStatus == TestsTimedOut) && a.decision.None? then
      Some(TestFailureReport(a.testStatus, w.testKind))
    else if s.status == TaskFailed || a.phase == AtFailed then Some(Report(ProviderExitError, false))
    else None
  }

  /** The report `decide_auto_step` settles on before it looks at budgets. */
  function CurrentReport(cfg: Config, s: Task, a: Attempt, w: World): Option<Report> {
    var outcome := AttemptReport(cfg, s, a, w);
    if outcome.Some? && outcome.value.kind == PatchNotCaptured then outcome
    else if ReviewerReport(a, w).Some? then ReviewerReport(a, w)
    else outcome
  }

  predicate IsRepairable(kind: FailureType) {
    kind == MergeConflict || kind == TestImplementation || kind == PatchNotCaptured ||
    kind == ProviderExitError || kind == ProviderTimeout || kind == ReviewerStopFixable
  }

  function Exhausted(): Option<Report> {
    Some(Report(BudgetExhausted, false))
  }

  /** The branch for an approved attempt whose merge has not happened. */
  function DecideApproved(cfg: Config, s: Task, a: Attempt): Choice {
    if a.mergeError.Some? then
      var report := StoredMergeReport(a.mergeError.value);
      if report.kind == MergeWorktreeBusy then
        if BudgetRemaining(cfg, a, report.kind) then Choice(StepMergeRetry, Some(report)) else Choice(StepTerminal, Exhausted())
      else if report.recoverable && !BudgetRemaining(cfg, a, report.kind) then Choice(StepTerminal, Exhausted())
      else if report.recoverable && report.kind == MergeConflict then Choice(StepRepair, Some(report))
      else Choice(StepMergeRetry, Some(report))
    else if BlockedByTestGate(cfg, s, a) then Choice(StepTerminal, Some(Report(TestGateBlocked, false)))
    else Choice(StepMergeRetry, None)
  }

  /** The last branches: nothing terminal, nothing to repair. */
  function DecideByStatus(cfg: Config, s: Task, a: Attempt, report: Option<Report>): Choice {
    if s.status == TaskRunning || s.status == TaskInterrupted then Choice(StepResume, report)
    else if s.status == TaskStopped && a.phase == AtRejected && a.retry < cfg.maxRetries then Choice(StepResume, report)
    else if s.status == TaskInitialized then Choice(StepRun, report)
    else if s.status == TaskStopped && a.phase == AtMerged then Choice(StepRun, report)
    else if s.status == TaskStopped then Choice(StepResume, report)
    else Choice(StepRun, report)
  }

  /** The branches for an attempt with this report. */
  function DecideReported(cfg: Config, s: Task, a: Attempt, report: Option<Report>): Choice {
    if report.Some? && a.decision == Some(Replan) then Choice(StepReplan, report)
    else if s.status == TaskStopped && a.phase == AtRejected && a.retry >= cfg.maxRetries then
      Choice(StepTerminal, Some(Report(ReviewerReject, false)))
    else if report.None? then DecideByStatus(cfg, s, a, report)
    else if !report.value.recoverable then Choice(StepTerminal, report)
    else if !BudgetRemaining(cfg, a, report.value.kind) then Choice(StepTerminal, Exhausted())
    else if report.value.kind == MergeWorktreeBusy then Choice(StepMergeRetry, report)
    else if IsRepairable(report.value.kind) then Choice(StepRepair, report)
    else DecideByStatus(cfg, s, a, report)
  }

  function DecideAttempt(cfg: Config, s: Task, a: Attempt, w: World): Choice {
    if s.status == TaskStopped && a.phase == AtApproved && ReviewerGatePassed(a) then DecideApproved(cfg, s, a)
    else DecideReported(cfg, s, a, CurrentReport(cfg, s, a, w))
  }

  /** `decide_auto_step`, called with the runner not running and the artifacts of the last attempt. */
  function Decide(cfg: Config, s: Task, w: World): Choice {
    var terminal := Choice(StepTerminal, Some(Report(NoFailure, false)));
    if s.status == TaskCancelled then terminal
    else if s.status == TaskReplanning then Choice(StepReplan, None)
    else if s.status == TaskDone then
      var more := if s.graph.Some? then !Complete(s.graph.value)
        else s.history != [] && Last(s).hasPlan && !Last(s).finalStep;
      if !more then Choice(StepDone, None)
      else if s.iteration >= cfg.maxIterations then terminal
      else Choice(StepRun, None)
    else if s.status == TaskFailed then Choice(StepTerminal, Some(Report(ProviderExitError, false)))
    else if s.history == [] then Choice(StepRun, None)
    else DecideAttempt(cfg, s, Last(s), w)
  }

  // ---------------------------------------------------------------- one pass of the loop

  datatype Pass = Continue(state: Task) | Exit(state: Task)

  function WithFailure(s: Task, kind: FailureType): Task {
    if s.history == [] then s else SetLast(s, Last(s).(failureType := Some(kind)))
  }

  /** `_handle_provider_auto_failure` */
  function HandleFailure(cfg: Config, s: Task, phase: Phase, w: World): Pass {
    if s.history == [] then Exit(s)
    else
      var report := ProviderReport(w.providerKind);
      var s1 := SetLast(s.(status := TaskStopped), Last(s).(phase := phase, failureType := Some(report.kind)));
      if report.recoverable && cfg.autoRecoverProvider && BudgetRemaining(cfg, Last(s1), report.kind) then Continue(s1)
      else Exit(s1)
  }

  function AfterStep(cfg: Config, r: Outcome, w: World): Pass {
    match r
    case Ok(s) => Continue(s)
    case Raised(s, PlanningError) => HandleFailure(cfg, s, AtPlanning, w)
    case Raised(s, ImplementingError) => HandleFailure(cfg, s, AtExecuting, w)
    case Raised(s, ReviewError) => HandleFailure(cfg, s, AtReviewing, w)
    case Raised(s, _) => Exit(s)
  }

  /** The loop's recheck before it decides. */
  function Rechecked(s: Task, w: World): Task {
    if s.history != [] && Last(s).failureType == Some(PatchNotCaptured) && w.capturedAtDispatch then Reconciled(s) else s
  }

  ghost function Execute(cfg: Config, s: Task, c: Choice, w: World): Outcome {
    match c.step
    case StepRun => ExecuteRun(cfg, if s.status == TaskDone then s.(status := TaskStopped) else s, w)
    case StepReplan => if s.history == [] then Raised(s, RunError) else ExecuteReplan(s, w)
    case StepRepair =>
      if c.report.None? || s.history == [] then Raised(s, RunError)
      else ExecuteRepair(cfg, SetLast(s, Counted(Last(s), c.report.value)), c.report.value, w)
    case StepMergeRetry =>
      ExecuteResume(cfg, if c.report.Some? && s.history != [] then SetLast(s, Counted(Last(s), c.report.value)) else s, w)
    case _ => ExecuteResume(cfg, s, w)
  }

  /** One turn of the `while True` in `_run_auto_loop`, for a task that does not run in parallel. */
  ghost function AutoPass(cfg: Config, s: Task, w: World): Pass {
    if s.history != [] && w.budgetExhausted then Exit(WithFailure(s, BudgetExhausted))
    else
      var s1 := Rechecked(s, w);
      var c := Decide(cfg, s1, w);
      match c.step
      case StepDone => Exit(s1)
      case StepTerminal => Exit(if c.report.Some? then WithFailure(s1, c.report.value.kind) else s1)
      case _ => AfterStep(cfg, Execute(cfg, s1, c, w), w)
  }
}
