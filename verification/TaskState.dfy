/** Attempts, tasks and configuration (src/cc_loop/state.py, config.py, failure.py). */
module TaskState {
  import opened Option
  import opened TaskGraph

  datatype TaskStatus =
    | TaskInitialized | TaskRunning | TaskWaitingReview | TaskDone | TaskFailed
    | TaskStopped | TaskInterrupted | TaskCancelled | TaskReplanning

  datatype Phase =
    | AtPreflight | AtPlanning | AtWorktree | AtExecuting | AtTesting | AtReviewing
    | AtApproved | AtRejected | AtMerged | AtFailed | AtReplanning

  datatype TestStatus = NotTested | TestsPassed | TestsFailed | TestsSkipped | TestsTimedOut

  datatype Decision = Approve | Reject | Stop | Replan

  datatype FailureType =
    | MergeConflict | MergeWorktreeBusy | MergeBranchMissing | MergePermission | MergeUnknown
    | ProviderTimeout | ProviderInterrupted | ProviderHung | ProviderExitError | ProviderParseError
    | TestImplementation | TestEnvironment | TestFlaky
    | ReviewerStopFixable | ReviewerStopTerminal | ReviewerReject
    | TestGateBlocked | PatchNotCaptured | BudgetExhausted | NoFailure

  datatype Report = Report(kind: FailureType, recoverable: bool)

  /**
   * One attempt.  `reviews` are the decisions of the reviewer chain behind `decision`, and
   * `mergeError` is what the stored merge message was written for; both are absent when empty.
   */
  datatype Attempt = Attempt(
    iteration: nat,
    retry: nat,
    nodeId: string,
    phase: Phase,
    hasPlan: bool,
    finalStep: bool,
    exitCode: Option<int>,
    testStatus: TestStatus,
    reviews: seq<Decision>,
    decision: Option<Decision>,
    mergeError: Option<FailureType>,
    failureType: Option<FailureType>,
    recoveryRetryCount: nat,
    mergeRetryCount: nat)

  datatype Config = Config(
    maxIterations: int,
    maxRetries: int,
    maxMergeRetries: int,
    maxMergeRecovery: int,
    maxRecovery: int,
    autoRecoverMerge: bool,
    autoRecoverTests: bool,
    autoRecoverProvider: bool,
    autoMerge: bool,
    allowNoTests: bool,
    allowWeakening: bool,
    maxChangedFiles: int,
    hasTestCommand: bool)

  datatype Task = Task(status: TaskStatus, iteration: nat, history: seq<Attempt>, graph: Option<seq<Node>>)

  function Last(s: Task): Attempt
    requires s.history != []
  {
    s.history[|s.history| - 1]
  }

  function SetLast(s: Task, a: Attempt): (r: Task)
    requires s.history != []
    ensures |r.history| == |s.history| && Last(r) == a
    ensures forall k | 0 <= k < |s.history| - 1 :: r.history[k] == s.history[k]
    ensures r.status == s.status && r.iteration == s.iteration && r.graph == s.graph
  {
    s.(history := s.history[|s.history| - 1 := a])
  }

  // ---------------------------------------------------------------- gates

  /** `effective_node_policy`: a node may weaken the task's test gate only where the task lets it. */
  function AllowsMergeWithoutTests(cfg: Config, n: Node): bool {
    match n.allowMergeWithoutTests
    case None => cfg.allowNoTests
    case Some(allow) =>
      if allow && !cfg.allowWeakening && !cfg.allowNoTests then false else allow
  }

  /** The node `get_node` finds, where there is a graph. */
  function NodeNamed(s: Task, id: string): Option<Node> {
    if s.graph.Some? && FirstIndex(s.graph.value, id).Some? then Some(s.graph.value[FirstIndex(s.graph.value, id).value]) else None
  }

  function NodeOf(s: Task, a: Attempt): Option<Node> {
    if a.nodeId != "" then NodeNamed(s, a.nodeId) else None
  }

  function NoTestsAllowed(cfg: Config, s: Task, a: Attempt): bool {
    match NodeOf(s, a) case Some(n) => AllowsMergeWithoutTests(cfg, n) case None => cfg.allowNoTests
  }

  function FileLimit(cfg: Config, s: Task, a: Attempt): int {
    match NodeOf(s, a)
    case Some(n) => if n.maxChangedFiles > 0 then n.maxChangedFiles else cfg.maxChangedFiles
    case None => cfg.maxChangedFiles
  }

  predicate NeedsManualReview(s: Task, a: Attempt) {
    match NodeOf(s, a) case Some(n) => n.requiresManualReview case None => false
  }

  /** `_can_auto_merge`; `changedFiles` is what diff.files.txt counts. */
  predicate CanAutoMerge(cfg: Config, s: Task, a: Attempt, changedFiles: nat) {
    && cfg.autoMerge
    && a.exitCode == Some(0)
    && a.decision == Some(Approve)
    && a.testStatus != TestsFailed && a.testStatus != TestsTimedOut
    && !NeedsManualReview(s, a)
    && !(a.testStatus == TestsSkipped && !NoTestsAllowed(cfg, s, a))
    && !(FileLimit(cfg, s, a) > 0 && changedFiles > FileLimit(cfg, s, a))
  }

  predicate ReviewerGatePassed(a: Attempt) {
    a.decision == Some(Approve)
  }

  predicate BlockedByTestGate(cfg: Config, s: Task, a: Attempt) {
    ReviewerGatePassed(a) &&
    (a.testStatus == TestsFailed || a.testStatus == TestsTimedOut ||
     (a.testStatus == TestsSkipped && !NoTestsAllowed(cfg, s, a)))
  }

  /** `_aggregate_reviewer_decisions`: stop, then replan, then reject, then the last word. */
  function Aggregate(ds: seq<Decision>): Decision {
    if Stop in ds then Stop
    else if Replan in ds then Replan
    else if Reject in ds then Reject
    else if ds == [] then Reject
    else ds[|ds| - 1]
  }

  /** An attempt is approved exactly when the chain is not empty and every reviewer approved. */
  lemma ApprovedMeansEveryReviewer(ds: seq<Decision>)
    ensures Aggregate(ds) == Approve <==> ds != [] && forall k | 0 <= k < |ds| :: ds[k] == Approve
  {
    if ds != [] && forall k | 0 <= k < |ds| :: ds[k] == Approve {
      assert ds[|ds| - 1] == Approve;
    }
    if Aggregate(ds) == Approve {
      forall k | 0 <= k < |ds| ensures ds[k] == Approve {
        assert ds[k] in ds;
      }
    }
  }

  /**
   * Skipped tests pass the gate exactly where the task allows it, or weakening is on and the node asks for
   * it, and the node does not forbid it.
   */
  lemma SkippedTestsPassExactlyWhen(cfg: Config, n: Node)
    ensures AllowsMergeWithoutTests(cfg, n) <==>
      n.allowMergeWithoutTests != Some(false) &&
      (cfg.allowNoTests || (cfg.allowWeakening && n.allowMergeWithoutTests == Some(true)))
  {
  }

  // ---------------------------------------------------------------- outcome tables

  /** `classify_merge_error_message`: what the loop reads back from the message stored for `kind`. */
  function StoredMergeReport(kind: FailureType): Report {
    match kind
    case MergeConflict => Report(MergeConflict, true)
    case MergeBranchMissing => Report(MergeBranchMissing, false)
    case MergePermission => Report(MergePermission, false)
    case _ => Report(MergeUnknown, false)   // the busy-worktree message no longer names its cause
  }

  function ProviderReport(kind: FailureType): Report {
    match kind
    case ProviderParseError => Report(ProviderParseError, false)
    case ProviderInterrupted => Report(kind, true)
    case ProviderHung => Report(kind, true)
    case ProviderTimeout => Report(kind, true)
    case _ => Report(ProviderExitError, true)
  }

  /** `classify_test_failure` and the stop branch of `classify_reviewer_outcome`, keywords abstracted. */
  function TestFailureReport(status: TestStatus, kind: FailureType): Report {
    if status == TestsTimedOut then Report(TestFlaky, false)
    else match kind
      case TestEnvironment => Report(TestEnvironment, false)
      case TestFlaky => Report(TestFlaky, false)
      case _ => Report(TestImplementation, true)
  }

  function StopReport(kind: FailureType): Report {
    match kind
    case TestImplementation => Report(TestImplementation, true)
    case ReviewerStopFixable => Report(ReviewerStopFixable, true)
    case _ => Report(ReviewerStopTerminal, false)
  }
}
