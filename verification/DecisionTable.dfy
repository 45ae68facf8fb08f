/**
 * The answers of `decide_auto_step` as a table over status, phase, decision, stored errors, counters
 * and configuration: for each step, exactly the states in which it is taken.
 */
module DecisionTable {
  import opened Option
  import opened TaskGraph
  import opened TaskState
  import opened AutoLoop
  import opened MergeGate
  import opened AutoTermination

  // ---------------------------------------------------------------- what can be wrong with the last attempt

  /** The implementer's changes are still not in a patch; neither a merge error nor an approval stands before that. */
  predicate Uncaptured(a: Attempt, w: World) {
    a.failureType == Some(PatchNotCaptured) && a.mergeError.None? && a.decision != Some(Approve) && !w.capturedAtDecision
  }

  /** No reviewer speaks against the attempt. */
  predicate Unopposed(a: Attempt) {
    a.decision.None? || a.decision == Some(Approve)
  }

  predicate Conflicts(a: Attempt) {
    Unopposed(a) && a.mergeError == Some(MergeConflict)
  }

  /** The recorded tests are what counts: nothing was merged, decided or left uncaptured. */
  predicate TestsCount(a: Attempt) {
    a.decision.None? && a.mergeError.None? && a.failureType != Some(PatchNotCaptured)
  }

  predicate TestsAtFault(a: Attempt, w: World) {
    || (TestsCount(a) && a.testStatus == TestsFailed && w.testKind != TestEnvironment && w.testKind != TestFlaky)
    || (a.decision == Some(Stop) && !Uncaptured(a, w) && w.stopKind == TestImplementation)
  }

  predicate FixableStop(a: Attempt, w: World) {
    a.decision == Some(Stop) && !Uncaptured(a, w) && w.stopKind == ReviewerStopFixable
  }

  predicate TurnedDown(a: Attempt, w: World) {
    a.decision == Some(Reject) && !Uncaptured(a, w)
  }

  /** Nothing the loop could do about it. */
  predicate Hopeless(a: Attempt, w: World) {
    || (a.decision == Some(Stop) && !Uncaptured(a, w) && w.stopKind != TestImplementation && w.stopKind != ReviewerStopFixable)
    || (Unopposed(a) && a.mergeError.Some? && a.mergeError != Some(MergeConflict))
    || (TestsCount(a) && a.testStatus == TestsTimedOut)
    || (TestsCount(a) && a.testStatus == TestsFailed && (w.testKind == TestEnvironment || w.testKind == TestFlaky))
    || (TestsCount(a) && a.testStatus != TestsFailed && a.testStatus != TestsTimedOut && a.phase == AtFailed)
  }

  predicate NothingWrong(a: Attempt, w: World) {
    && Unopposed(a) && a.mergeError.None? && !Uncaptured(a, w)
    && (TestsCount(a) ==> a.testStatus != TestsFailed && a.testStatus != TestsTimedOut && a.phase != AtFailed)
  }

  // ---------------------------------------------------------------- budgets

  predicate CodeBudget(cfg: Config, a: Attempt) {
    cfg.autoRecoverTests && a.recoveryRetryCount < cfg.maxRecovery
  }

  predicate ConflictBudget(cfg: Config, a: Attempt) {
    cfg.autoRecoverMerge && a.recoveryRetryCount < cfg.maxMergeRecovery
  }

  /** Some repair of this attempt is due, and paid for. */
  predicate RepairDue(cfg: Config, a: Attempt, w: World) {
    || (Uncaptured(a, w) && CodeBudget(cfg, a))
    || (Conflicts(a) && ConflictBudget(cfg, a))
    || (TestsAtFault(a, w) && CodeBudget(cfg, a))
    || (FixableStop(a, w) && a.recoveryRetryCount < cfg.maxRecovery)
  }

  /** Some repair or retry is due, and the budget for it is spent. */
  predicate BudgetSpent(cfg: Config, a: Attempt, w: World) {
    || (Uncaptured(a, w) && !CodeBudget(cfg, a))
    || (Conflicts(a) && !ConflictBudget(cfg, a))
    || (TestsAtFault(a, w) && !CodeBudget(cfg, a))
    || (FixableStop(a, w) && a.recoveryRetryCount >= cfg.maxRecovery)
    || (TurnedDown(a, w) && a.retry >= cfg.maxRetries)
  }

  // ---------------------------------------------------------------- the state of the task

  /** The task is neither over nor waiting for a new plan, and has an attempt to look at. */
  predicate Undecided(s: Task) {
    && s.history != []
    && (s.status == TaskInitialized || s.status == TaskRunning || s.status == TaskWaitingReview
        || s.status == TaskStopped || s.status == TaskInterrupted)
  }

  /** The attempt was approved and waits for its merge. */
  predicate AwaitsMerge(s: Task) {
    s.history != [] && s.status == TaskStopped && Last(s).phase == AtApproved && Last(s).decision == Some(Approve)
  }

  predicate OutOfRetries(cfg: Config, s: Task) {
    s.history != [] && s.status == TaskStopped && Last(s).phase == AtRejected && Last(s).retry >= cfg.maxRetries
  }

  /** DONE was reached too early: nodes, or steps of a plan without a graph, are left. */
  predicate MoreToDo(s: Task) {
    if s.graph.Some? then
      s.graph.value == [] || exists k | 0 <= k < |s.graph.value| :: s.graph.value[k].status != Passed && s.graph.value[k].status != Skipped
    else s.history != [] && Last(s).hasPlan && !Last(s).finalStep
  }

  /** The attempt's own tests forbid the merge. */
  ghost predicate TestsForbid(cfg: Config, s: Task, a: Attempt) {
    a.testStatus == TestsFailed || a.testStatus == TestsTimedOut || (a.testStatus == TestsSkipped && !MayGoUntested(cfg, s, a))
  }

  /** Nothing keeps the attempt from going on, or its node from being tried again. */
  predicate MayGoOn(cfg: Config, s: Task, w: World) {
    Undecided(s) && !AwaitsMerge(s) && !OutOfRetries(cfg, s) &&
    var a := Last(s); NothingWrong(a, w) || (TurnedDown(a, w) && a.retry < cfg.maxRetries)
  }

  // ---------------------------------------------------------------- the report

  predicate Told(report: Option<Report>, kind: FailureType) {
    report == Some(Report(kind, true))
  }

  /** The report the decision starts from, case by case; only an approved attempt that awaits its merge has another. */
  ghost predicate ReportOf(a: Attempt, w: World, report: Option<Report>) {
    && (report.None? <==> NothingWrong(a, w))
    && (report.Some? && !report.value.recoverable <==> Hopeless(a, w))
    && (Told(report, PatchNotCaptured) <==> Uncaptured(a, w))
    && (Told(report, MergeConflict) <==> Conflicts(a))
    && (Told(report, TestImplementation) <==> TestsAtFault(a, w))
    && (Told(report, ReviewerStopFixable) <==> FixableStop(a, w))
    && (Told(report, ReviewerReject) <==> TurnedDown(a, w) || (a.decision == Some(Replan) && !Uncaptured(a, w)))
    && (report.Some? && report.value.recoverable ==>
          report.value.kind in {PatchNotCaptured, MergeConflict, TestImplementation, ReviewerStopFixable, ReviewerReject})
  }

  lemma ReportIs(cfg: Config, s: Task, w: World)
    requires Undecided(s) && !AwaitsMerge(s)
    ensures ReportOf(Last(s), w, CurrentReport(cfg, s, Last(s), w))
  {
  }

  lemma DecidesOnReport(cfg: Config, s: Task, w: World) returns (report: Option<Report>)
    requires Undecided(s) && !AwaitsMerge(s)
    ensures ReportOf(Last(s), w, report) && Decide(cfg, s, w) == DecideReported(cfg, s, Last(s), report)
  {
    report := CurrentReport(cfg, s, Last(s), w);
    ReportIs(cfg, s, w);
  }

  /** A choice against everything that is literally wrong with the attempt. */
  ghost predicate Tabled(cfg: Config, s: Task, w: World, c: Choice)
    requires s.history != []
  {
    var a := Last(s);
    && (c.step == StepReplan <==> a.decision == Some(Replan))
    && (c.step == StepRepair <==> a.decision != Some(Replan) && !OutOfRetries(cfg, s) && RepairDue(cfg, a, w))
    && (c.step == StepTerminal <==>
          a.decision != Some(Replan) && (OutOfRetries(cfg, s) || Hopeless(a, w) || BudgetSpent(cfg, a, w)))
    && (c.step == StepResume || c.step == StepRun <==> MayGoOn(cfg, s, w))
    && (c.step == StepResume ==> s.status == TaskRunning || s.status == TaskInterrupted || (s.status == TaskStopped && a.phase != AtMerged))
    && (c.step == StepRun ==> s.status == TaskInitialized || s.status == TaskWaitingReview || (s.status == TaskStopped && a.phase == AtMerged))
    && c.step != StepMergeRetry && c.step != StepDone
  }

  lemma ReportedIsTabled(cfg: Config, s: Task, w: World, report: Option<Report>)
    requires Undecided(s) && !AwaitsMerge(s) && ReportOf(Last(s), w, report)
    ensures Tabled(cfg, s, w, DecideReported(cfg, s, Last(s), report))
  {
  }

  lemma UndecidedIsTabled(cfg: Config, s: Task, w: World)
    requires Undecided(s) && !AwaitsMerge(s)
    ensures Tabled(cfg, s, w, Decide(cfg, s, w))
  {
    var report := DecidesOnReport(cfg, s, w);
    ReportedIsTabled(cfg, s, w, report);
  }

  // ---------------------------------------------------------------- the table

  lemma RepairsExactlyWhen(cfg: Config, s: Task, w: World)
    ensures Decide(cfg, s, w).step == StepRepair <==>
      Undecided(s) && Last(s).decision != Some(Replan) && !OutOfRetries(cfg, s) && RepairDue(cfg, Last(s), w)
  {
    if Undecided(s) && !AwaitsMerge(s) { UndecidedIsTabled(cfg, s, w); }
  }

  /** What a repair is told to repair: the first of these that applies. */
  lemma RepairsWhatIsWrong(cfg: Config, s: Task, w: World)
    requires Decide(cfg, s, w).step == StepRepair
    ensures s.history != []
    ensures Decide(cfg, s, w).report == Some(Report(
      if Uncaptured(Last(s), w) then PatchNotCaptured else if Conflicts(Last(s)) then MergeConflict
      else if FixableStop(Last(s), w) then ReviewerStopFixable else TestImplementation, true))
  {
  }

  lemma ReplansExactlyWhen(cfg: Config, s: Task, w: World)
    ensures Decide(cfg, s, w).step == StepReplan <==>
      s.status == TaskReplanning || (Undecided(s) && Last(s).decision == Some(Replan))
  {
    if Undecided(s) && !AwaitsMerge(s) { UndecidedIsTabled(cfg, s, w); }
  }

  lemma RetriesMergeExactlyWhen(cfg: Config, s: Task, w: World)
    ensures Decide(cfg, s, w).step == StepMergeRetry <==>
      AwaitsMerge(s) && Last(s).mergeError != Some(MergeConflict) && (Last(s).mergeError.None? ==> !TestsForbid(cfg, s, Last(s)))
  {
    if s.history != [] { BlockedByTestsExactlyWhen(cfg, s, Last(s)); }
  }

  lemma ResumesExactlyWhen(cfg: Config, s: Task, w: World)
    ensures Decide(cfg, s, w).step == StepResume <==>
      MayGoOn(cfg, s, w) &&
      (s.status == TaskRunning || s.status == TaskInterrupted || (s.status == TaskStopped && Last(s).phase != AtMerged))
  {
    if Undecided(s) && !AwaitsMerge(s) { UndecidedIsTabled(cfg, s, w); }
  }

  lemma RunsExactlyWhen(cfg: Config, s: Task, w: World)
    ensures Decide(cfg, s, w).step == StepRun <==>
      || (s.status == TaskDone && MoreToDo(s) && s.iteration < cfg.maxIterations)
      || (s.history == [] && s.status != TaskCancelled && s.status != TaskReplanning && s.status != TaskDone && s.status != TaskFailed)
      || (MayGoOn(cfg, s, w) &&
          (s.status == TaskInitialized || s.status == TaskWaitingReview || (s.status == TaskStopped && Last(s).phase == AtMerged)))
  {
    if Undecided(s) && !AwaitsMerge(s) { UndecidedIsTabled(cfg, s, w); }
  }

  lemma IsDoneExactlyWhen(cfg: Config, s: Task, w: World)
    ensures Decide(cfg, s, w).step == StepDone <==> s.status == TaskDone && !MoreToDo(s)
  {
  }

  lemma EndsExactlyWhen(cfg: Config, s: Task, w: World)
    ensures Decide(cfg, s, w).step == StepTerminal <==>
      || s.status == TaskCancelled || s.status == TaskFailed
      || (s.status == TaskDone && MoreToDo(s) && s.iteration >= cfg.maxIterations)
      || (AwaitsMerge(s) && Conflicts(Last(s)) && !ConflictBudget(cfg, Last(s)))
      || (AwaitsMerge(s) && Last(s).mergeError.None? && TestsForbid(cfg, s, Last(s)))
      || (Undecided(s) && !AwaitsMerge(s) && Last(s).decision != Some(Replan) &&
          (OutOfRetries(cfg, s) || Hopeless(Last(s), w) || BudgetSpent(cfg, Last(s), w)))
  {
    if Undecided(s) && !AwaitsMerge(s) { UndecidedIsTabled(cfg, s, w); }
    if s.history != [] { BlockedByTestsExactlyWhen(cfg, s, Last(s)); }
  }

  /** The failure an end without a way on is labelled with. */
  function HopelessKind(a: Attempt, w: World): FailureType {
    if a.decision == Some(Stop) then ReviewerStopTerminal
    else if a.mergeError.Some? then
      if a.mergeError == Some(MergeBranchMissing) || a.mergeError == Some(MergePermission) then a.mergeError.value else MergeUnknown
    else if a.testStatus == TestsTimedOut then TestFlaky
    else if a.testStatus == TestsFailed then w.testKind
    else ProviderExitError
  }

  lemma HopelessReport(cfg: Config, s: Task, w: World)
    requires Undecided(s) && !AwaitsMerge(s) && Hopeless(Last(s), w)
    ensures CurrentReport(cfg, s, Last(s), w) == Some(Report(HopelessKind(Last(s), w), false))
  {
  }

  lemma EndsWithReport(cfg: Config, s: Task, w: World)
    requires Decide(cfg, s, w).step == StepTerminal
    ensures s.history == [] ==> s.status == TaskCancelled || s.status == TaskDone || s.status == TaskFailed
    ensures Decide(cfg, s, w).report == Some(Report(
      if s.status == TaskCancelled || s.status == TaskDone then NoFailure
      else if s.status == TaskFailed then ProviderExitError
      else if AwaitsMerge(s) then if Conflicts(Last(s)) then BudgetExhausted else TestGateBlocked
      else if OutOfRetries(cfg, s) then ReviewerReject
      else if Hopeless(Last(s), w) then HopelessKind(Last(s), w)
      else BudgetExhausted, false))
  {
    EndsExactlyWhen(cfg, s, w);
    if Undecided(s) && !AwaitsMerge(s) {
      if Hopeless(Last(s), w) { HopelessReport(cfg, s, w); } else { ReportIs(cfg, s, w); }
    }
  }

  // ---------------------------------------------------------------- what a pass does of it

  /** The last attempt has been repaired once more, and no attempt was added. */
  ghost predicate RepairedOnce(s: Task, t: Task) {
    s.history != [] && |t.history| == |s.history| && Last(t).recoveryRetryCount == Last(s).recoveryRetryCount + 1
  }

  /** A repair of the last attempt is due, paid for, and neither a replan nor the retry limit comes first. */
  predicate RepairFalls(cfg: Config, s: Task, w: World) {
    Undecided(s) && Last(s).decision != Some(Replan) && !OutOfRetries(cfg, s) && RepairDue(cfg, Last(s), w)
  }

  /** A pass counts a repair on the last attempt exactly where the table says so of the rechecked state. */
  lemma PassRepairsExactlyWhen(cfg: Config, s: Task, w: World)
    requires s.history != [] && !w.budgetExhausted
    ensures RepairedOnce(s, AutoPass(cfg, s, w).state) <==> RepairFalls(cfg, Rechecked(s, w), w)
  {
    RepairsExactlyWhen(cfg, Rechecked(s, w), w);
    var m := PassMoves(cfg, s, w);
  }
}
