/**
 * Where the results stored on an attempt come from: exit code, test status and reviews against what
 * implementer, tests and reviewers answered, over every pass of the loop and over every run.
 */
module Evidence {
  import opened Option
  import opened TaskGraph
  import opened TaskState
  import opened AutoLoop
  import opened AutoTermination
  import opened MergeGate
  import opened AutoRuns
  import opened Induction = Runs
  import AutoSafety

  // ---------------------------------------------------------------- answers

  /** The test status is what running the tests, or having none to run, comes to. */
  predicate TestedBy(cfg: Config, w: World, status: TestStatus) {
    && (status == TestsPassed ==> cfg.hasTestCommand && w.tests == TestsReturn(0))
    && (status == TestsFailed ==> cfg.hasTestCommand && w.tests.TestsReturn? && w.tests.exitCode != 0)
    && (status == TestsTimedOut ==> cfg.hasTestCommand && w.tests == TestsTimeOut)
    && (status == TestsSkipped ==> !cfg.hasTestCommand)
  }

  /** The test phase records exactly that on an attempt that was not tested, and leaves any other alone. */
  lemma TestingRecords(cfg: Config, s: Task, w: World)
    requires s.history != []
    ensures Last(s).testStatus != NotTested ==> Testing(cfg, s, w) == s
    ensures Last(s).testStatus == NotTested ==>
      var a, b := Last(s), Last(Testing(cfg, s, w));
      && b == a.(phase := AtTesting, testStatus := b.testStatus)
      && (b.testStatus == TestsPassed <==> cfg.hasTestCommand && w.tests == TestsReturn(0))
      && (b.testStatus == TestsFailed <==> cfg.hasTestCommand && w.tests.TestsReturn? && w.tests.exitCode != 0)
      && (b.testStatus == TestsTimedOut <==> cfg.hasTestCommand && w.tests == TestsTimeOut)
      && (b.testStatus == TestsSkipped <==> !cfg.hasTestCommand)
  {
  }

  /** The implementer returned this code, or the worktree turned out to hold its work after all. */
  predicate ExitedBy(w: World, code: int) {
    || (w.implementer.Implemented? && w.implementer.exitCode == code)
    || (code == 0 && (w.capturedAtDispatch || w.capturedBeforeStep))
  }

  /** The reviewers of the chain gave these decisions, in order. */
  predicate ReviewedBy(w: World, reviews: seq<Decision>) {
    |reviews| == |w.reviewers| && forall k | 0 <= k < |reviews| :: w.reviewers[k] == Reviewed(reviews[k])
  }

  predicate ExitIsNew(w: World, b: Attempt) {
    b.exitCode.None? || ExitedBy(w, b.exitCode.value)
  }

  predicate TestsAreNew(cfg: Config, w: World, b: Attempt) {
    TestedBy(cfg, w, b.testStatus)
  }

  predicate ReviewsAreNew(w: World, b: Attempt) {
    b.decision.None? || (ReviewedBy(w, b.reviews) && b.decision == Some(Aggregate(b.reviews)))
  }

  /**
   * From `a` to `b` by answers of `w`: a new exit code comes with new tests, and new tests with new
   * reviews.  Nothing that was found out about earlier code is kept for later code.
   */
  predicate Follows(cfg: Config, w: World, a: Attempt, b: Attempt) {
    || ((b.exitCode == a.exitCode || ExitIsNew(w, b)) && TestsAreNew(cfg, w, b) && ReviewsAreNew(w, b))
    || (b.exitCode == a.exitCode && b.testStatus == a.testStatus
        && ((b.decision == a.decision && b.reviews == a.reviews) || ReviewsAreNew(w, b)))
  }

  /** Results were stored in the order of the phases. */
  predicate InOrder(a: Attempt) {
    && (a.decision.Some? ==> a.testStatus != NotTested)
    && (a.testStatus != NotTested || a.phase == AtTesting || a.phase == AtReviewing || a.phase == AtApproved ==> a.exitCode.Some?)
    && (a.phase == AtReviewing || a.phase == AtApproved ==> a.testStatus != NotTested)
  }

  /** The step continued the last attempt of `s`, by answers of `w`. */
  ghost predicate Flows(cfg: Config, w: World, s: Task, t: Task) {
    SameAttempt(s, t) && Follows(cfg, w, Last(s), Last(t)) && InOrder(Last(t))
  }

  ghost predicate FlowsOut(cfg: Config, w: World, s: Task, r: Outcome) {
    Flows(cfg, w, s, r.state) && (r.Raised? && r.error == ReviewError ==> Last(r.state).testStatus != NotTested)
  }

  lemma FlowsOn(cfg: Config, w: World, s: Task, t: Task, r: Outcome)
    requires Flows(cfg, w, s, t) && FlowsOut(cfg, w, t, r)
    ensures FlowsOut(cfg, w, s, r)
  {
  }

  // ---------------------------------------------------------------- phases

  /** No result is touched, and none is claimed by the phase. */
  predicate OnlyPlaced(a: Attempt, b: Attempt) {
    && b == a.(nodeId := b.nodeId, hasPlan := b.hasPlan, finalStep := b.finalStep, failureType := b.failureType, phase := b.phase)
    && (b.phase == a.phase || b.phase == AtFailed || b.phase == AtWorktree)
  }

  lemma FailPlaces(s: Task, e: Error)
    requires s.history != []
    ensures OnlyPlaced(Last(s), Last(FailAttempt(s, e).state)) && (FailAttempt(s, e).error == e || FailAttempt(s, e).error == Crash)
  {
  }

  lemma FailFlows(cfg: Config, w: World, s: Task, e: Error)
    requires s.history != [] && InOrder(Last(s)) && (e == ReviewError ==> Last(s).testStatus != NotTested)
    ensures FlowsOut(cfg, w, s, FailAttempt(s, e))
  {
    FailPlaces(s, e);
  }

  lemma StartPlaces(s: Task, id: string, w: World)
    requires s.history != [] && s.graph.Some?
    ensures var r := StartNode(s, id, w); OnlyPlaced(Last(s), Last(r.state)) && (r.Raised? ==> r.error != ReviewError)
  {
  }

  lemma SetupPlaces(cfg: Config, s: Task, w: World)
    requires s.history != [] && s.graph.Some?
    ensures var r := SetupNode(cfg, s, w); OnlyPlaced(Last(s), Last(r.state)) && (r.Raised? ==> r.error != ReviewError)
  {
    var a := Last(s);
    if a.nodeId != "" {
      FailPlaces(s, PlanningError);
      StartPlaces(s, a.nodeId, w);
    } else {
      var scan := Scan(s.graph.value, cfg.maxRetries, 1, {});
      var s1 := s.(graph := Some(scan.nodes));
      FailPlaces(s1, PlanningError);
      if scan.picked != [] && scan.picked[0] < |scan.nodes| { StartPlaces(s1, scan.nodes[scan.picked[0]].id, w); }
    }
  }

  lemma PlanPlaces(cfg: Config, s: Task, w: World)
    requires s.history != []
    ensures var r := PlanGraph(cfg, s, w); OnlyPlaced(Last(s), Last(r.state)) && (r.Raised? ==> r.error != ReviewError)
  {
    FailPlaces(s, PlanningError);
    if w.planner.PlannerFails? {
      FailPlaces(SetLast(s, Labelled(Last(s), w.planner.stored)), PlanningError);
    } else {
      PlanFirstPlaces(s, Scan(PlannedGraph(w.planner.nodes), cfg.maxRetries, 1, {}), w.planner.finalStep);
    }
  }

  lemma PlanFirstPlaces(s: Task, scan: ScanResult, finalStep: bool)
    requires s.history != []
    ensures var r := PlanFirst(s, scan, finalStep); OnlyPlaced(Last(s), Last(r.state)) && (r.Raised? ==> r.error != ReviewError)
  {
    FailPlaces(s.(graph := Some(scan.nodes)), PlanningError);
  }

  lemma PlanningFlows(cfg: Config, s: Task, w: World)
    requires s.history != [] && InOrder(Last(s))
    ensures FlowsOut(cfg, w, s, Planning(cfg, s, w))
  {
    if s.graph.Some? { SetupPlaces(cfg, s, w); } else { PlanPlaces(cfg, s, w); }
    PlacedFlows(cfg, w, s, Planning(cfg, s, w));
  }

  lemma PlacedFlows(cfg: Config, w: World, s: Task, r: Outcome)
    requires s.history != [] && InOrder(Last(s)) && SameAttempt(s, r.state)
    requires OnlyPlaced(Last(s), Last(r.state)) && (r.Raised? ==> r.error != ReviewError)
    ensures FlowsOut(cfg, w, s, r)
  {
  }

  lemma ImplementingFlows(cfg: Config, s: Task, w: World)
    requires s.history != [] && InOrder(Last(s))
    ensures FlowsOut(cfg, w, s, Implementing(s, w))
    ensures Implementing(s, w).Ok? ==> Last(Implementing(s, w).state).exitCode.Some?
  {
    var a := Last(s);
    FailFlows(cfg, w, s, ImplementingError);
    if a.exitCode.None? && a.hasPlan {
      var s1 := SetLast(s, a.(phase := AtExecuting));
      match w.implementer {
        case ImplementerUnavailable => FailFlows(cfg, w, s1, ImplementingError);
        case Implemented(code, _, _, _) =>
          var s2 := SetLast(s1, Last(s1).(exitCode := Some(code), failureType := RunLabel(a, w.implementer)));
          FailFlows(cfg, w, s2, ImplementingError);
          FlowsOn(cfg, w, s, s2, FailAttempt(s2, ImplementingError));
      }
    }
  }

  lemma TestingFlows(cfg: Config, s: Task, w: World)
    requires s.history != [] && InOrder(Last(s)) && Last(s).exitCode.Some?
    ensures Flows(cfg, w, s, Testing(cfg, s, w)) && Last(Testing(cfg, s, w)).testStatus != NotTested
  {
  }

  lemma ReviewingFlows(cfg: Config, s: Task, w: World)
    requires s.history != [] && InOrder(Last(s)) && Last(s).testStatus != NotTested
    ensures FlowsOut(cfg, w, s, Reviewing(s, w))
  {
    var s1 := SetLast(s, Last(s).(phase := AtReviewing));
    FailFlows(cfg, w, SetLast(s1, Labelled(Last(s1), FirstFailure(w.reviewers))), ReviewError);
  }

  lemma FinalizingFlows(cfg: Config, s: Task, w: World)
    requires s.history != [] && InOrder(Last(s))
    ensures FlowsOut(cfg, w, s, Finalizing(cfg, s, w))
  {
  }

  // ---------------------------------------------------------------- pipelines

  lemma FromReviewFlows(cfg: Config, s: Task, w: World)
    requires s.history != [] && InOrder(Last(s)) && Last(s).testStatus != NotTested
    ensures FlowsOut(cfg, w, s, FromReview(cfg, s, w))
  {
    ReviewingFlows(cfg, s, w);
    var r := Reviewing(s, w);
    if r.Ok? {
      FinalizingFlows(cfg, r.state, w);
      FlowsOn(cfg, w, s, r.state, Finalizing(cfg, r.state, w));
    }
  }

  lemma FromTestsFlows(cfg: Config, s: Task, w: World)
    requires s.history != [] && InOrder(Last(s)) && Last(s).exitCode.Some?
    ensures FlowsOut(cfg, w, s, FromTests(cfg, s, w))
  {
    TestingFlows(cfg, s, w);
    FromReviewFlows(cfg, Testing(cfg, s, w), w);
    FlowsOn(cfg, w, s, Testing(cfg, s, w), FromTests(cfg, s, w));
  }

  lemma FromImplementerFlows(cfg: Config, s: Task, w: World)
    requires s.history != [] && InOrder(Last(s))
    ensures FlowsOut(cfg, w, s, FromImplementer(cfg, s, w))
  {
    ImplementingFlows(cfg, s, w);
    var r := Implementing(s, w);
    if r.Ok? && Last(r.state).failureType != Some(PatchNotCaptured) {
      FromTestsFlows(cfg, r.state, w);
      FlowsOn(cfg, w, s, r.state, FromTests(cfg, r.state, w));
    }
  }

  lemma FromPlanningFlows(cfg: Config, s: Task, w: World)
    requires s.history != [] && InOrder(Last(s))
    ensures FlowsOut(cfg, w, s, FromPlanning(cfg, s, w))
  {
    PlanningFlows(cfg, s, w);
    var r := Planning(cfg, s, w);
    if r.Ok? {
      FromImplementerFlows(cfg, r.state, w);
      FlowsOn(cfg, w, s, r.state, FromImplementer(cfg, r.state, w));
    }
  }

  lemma RunFromFlows(cfg: Config, s: Task, start: Phase, w: World)
    requires s.history != [] && InOrder(Last(s)) && start == Last(s).phase
    ensures FlowsOut(cfg, w, s, RunFrom(cfg, s, start, w))
  {
    match start
    case AtPreflight => FromPlanningFlows(cfg, s, w);
    case AtPlanning => FromPlanningFlows(cfg, s, w);
    case AtWorktree => FromImplementerFlows(cfg, s, w);
    case AtExecuting => FromImplementerFlows(cfg, s, w);
    case AtTesting => FromTestsFlows(cfg, s, w);
    case AtReviewing => FromReviewFlows(cfg, s, w);
    case AtApproved => FinalizingFlows(cfg, s, w);
    case _ =>
  }

  // ---------------------------------------------------------------- executors

  lemma TestReconciledFlows(cfg: Config, s: Task, w: World)
    requires s.history != [] && InOrder(Last(s)) && w.capturedBeforeStep
    ensures FlowsOut(cfg, w, s, TestReconciled(cfg, s, w))
  {
    var t := Reconciled(s).(status := TaskRunning);
    FromTestsFlows(cfg, t, w);
    FlowsOn(cfg, w, s, t, FromTests(cfg, t, w));
  }

  lemma ContinueFlows(cfg: Config, s: Task, w: World)
    requires s.history != [] && InOrder(Last(s))
    ensures FlowsOut(cfg, w, s, ContinueAttempt(cfg, s, w))
  {
    if Last(s).failureType == Some(PatchNotCaptured) && w.capturedBeforeStep {
      TestReconciledFlows(cfg, s, w);
    } else {
      var t := s.(status := TaskRunning);
      RunFromFlows(cfg, t, Last(s).phase, w);
      FlowsOn(cfg, w, s, t, RunFrom(cfg, t, Last(s).phase, w));
    }
  }

  /** What a repair runs anew it also tests and reviews anew. */
  lemma RepairRunFlows(cfg: Config, s: Task, w: World)
    requires s.history != [] && Last(s).testStatus == NotTested && Last(s).decision.None? && Last(s).exitCode.None?
    ensures var r := RepairRun(s, w);
      && FlowsOut(cfg, w, s, r) && (r.Ok? ==> Last(r.state).exitCode.Some?)
      && (r.Raised? ==> r.error != ReviewError)
  {
    match w.implementer {
      case ImplementerUnavailable =>
      case Implemented(code, abnormal, uncaptured, _) =>
        var s1 := SetLast(s, Last(s).(phase := AtExecuting));
        var s2 := SetLast(s1, Last(s1).(exitCode := Some(code), failureType := CaptureState(Last(s1), code, uncaptured)));
        FailFlows(cfg, w, s2, ImplementingError);
    }
  }

  lemma RepairedFlows(cfg: Config, s: Task, report: Report, w: World)
    requires s.history != [] && Last(s).testStatus == NotTested && Last(s).decision.None? && Last(s).exitCode.None?
    ensures FlowsOut(cfg, w, s, Repaired(cfg, s, report, w))
  {
    RepairRunFlows(cfg, s, w);
    var r := RepairRun(s, w);
    if r.Ok? {
      AfterRepairFlows(cfg, r.state, report, w);
      FlowsOn(cfg, w, s, r.state, AfterRepairRun(cfg, r.state, report, w));
    }
  }

  lemma AfterRepairFlows(cfg: Config, s: Task, report: Report, w: World)
    requires s.history != [] && InOrder(Last(s)) && Last(s).exitCode.Some?
    ensures FlowsOut(cfg, w, s, AfterRepairRun(cfg, s, report, w))
  {
    if report.kind == PatchNotCaptured && w.capturedAfterRepair {
      ClearedFlows(cfg, s, w);
    } else if report.kind == PatchNotCaptured && Last(s).failureType == Some(PatchNotCaptured) {
      assert FlowsOut(cfg, w, s, Ok(s.(status := TaskStopped)));
    } else {
      FromTestsFlows(cfg, s, w);
    }
  }

  lemma ClearedFlows(cfg: Config, s: Task, w: World)
    requires s.history != [] && InOrder(Last(s)) && Last(s).exitCode.Some?
    ensures FlowsOut(cfg, w, s, FromTests(cfg, SetLast(s, Last(s).(failureType := None)), w))
  {
    var t := SetLast(s, Last(s).(failureType := None));
    FromTestsFlows(cfg, t, w);
    FlowsOn(cfg, w, s, t, FromTests(cfg, t, w));
  }

  lemma ResetFlows(cfg: Config, s: Task, report: Report, w: World)
    requires s.history != []
    ensures FlowsOut(cfg, w, s, ResetAndRepaired(cfg, s, report, w))
  {
    var t := SetLast(s.(status := TaskRunning), ResetForRepair(Last(s), report));
    RepairedFlows(cfg, t, report, w);
    AfterReset(cfg, w, s, t, Repaired(cfg, t, report, w));
  }

  /** Whatever follows a reset owes nothing to what was there before it. */
  lemma AfterReset(cfg: Config, w: World, s: Task, t: Task, r: Outcome)
    requires SameAttempt(s, t) && FlowsOut(cfg, w, t, r)
    requires Last(t).testStatus == NotTested && Last(t).decision.None? && Last(t).exitCode.None?
    ensures FlowsOut(cfg, w, s, r)
  {
  }

  lemma RepairFlows(cfg: Config, s: Task, report: Report, w: World)
    requires s.history != [] && InOrder(Last(s))
    ensures FlowsOut(cfg, w, s, ExecuteRepair(cfg, s, report, w))
  {
    var a := Last(s);
    if a.phase == AtApproved && a.decision == Some(Approve) && report.kind != MergeConflict {
    } else if report.kind == PatchNotCaptured && a.failureType == Some(PatchNotCaptured) && w.capturedBeforeStep {
      TestReconciledFlows(cfg, s, w);
    } else {
      ResetFlows(cfg, s, report, w);
    }
  }

  lemma ReplanFlows(cfg: Config, s: Task, w: World)
    requires s.history != [] && InOrder(Last(s))
    ensures FlowsOut(cfg, w, s, ExecuteReplan(s, w))
  {
  }

  // ---------------------------------------------------------------- one pass, over all attempts

  /** Every attempt of `t` follows the one that was in its place, or an empty one. */
  ghost predicate AllFollow(cfg: Config, w: World, s: Task, t: Task) {
    && |s.history| <= |t.history|
    && (forall k | 0 <= k < |s.history| :: Follows(cfg, w, s.history[k], t.history[k]))
    && (forall k | |s.history| <= k < |t.history| :: Follows(cfg, w, NewAttempt(0, 0, ""), t.history[k]))
  }

  ghost predicate AllInOrder(s: Task) {
    forall k | 0 <= k < |s.history| :: InOrder(s.history[k])
  }

  /** What one executor made of the task, whatever it raised. */
  ghost predicate StepFlows(cfg: Config, w: World, s: Task, r: Outcome) {
    && AllFollow(cfg, w, s, r.state) && AllInOrder(r.state)
    && (r.Raised? && r.error == ReviewError ==> r.state.history != [] && Last(r.state).testStatus != NotTested)
  }

  lemma SameStepFlows(cfg: Config, w: World, s: Task, r: Outcome)
    requires AllInOrder(s) && s.history != [] && FlowsOut(cfg, w, s, r)
    ensures StepFlows(cfg, w, s, r)
  {
    assert forall k | 0 <= k < |s.history| - 1 :: r.state.history[k] == s.history[k];
    assert s.history[|s.history| - 1] == Last(s) && r.state.history[|s.history| - 1] == Last(r.state);
  }

  lemma AddedStepFlows(cfg: Config, w: World, s: Task, p: Task, a: Attempt, r: Outcome)
    requires AllInOrder(s) && p.history == s.history + [a] && FlowsOut(cfg, w, p, r)
    requires a.exitCode.None? && a.testStatus == NotTested && a.decision.None? && a.reviews == []
    ensures StepFlows(cfg, w, s, r)
  {
    var n := |s.history|;
    assert forall k | 0 <= k < n :: r.state.history[k] == p.history[k] == s.history[k];
    assert r.state.history[n] == Last(r.state) && Last(p) == a;
  }

  lemma UnchangedStepFlows(cfg: Config, w: World, s: Task, r: Outcome)
    requires AllInOrder(s) && r.state.history == s.history && (r.Raised? ==> r.error != ReviewError)
    ensures StepFlows(cfg, w, s, r)
  {
  }

  lemma RunFlows(cfg: Config, s: Task, w: World)
    ensures ExecuteRun(cfg, s, w) == Raised(s, RunError) || FlowsOut(cfg, w, Prepared(s), ExecuteRun(cfg, s, w))
  {
    if ExecuteRun(cfg, s, w) != Raised(s, RunError) { FromPlanningFlows(cfg, Prepared(s), w); }
  }

  lemma RunOutcomeFlows(cfg: Config, w: World, s: Task, r: Outcome)
    requires AllInOrder(s) && (r == Raised(s, RunError) || FlowsOut(cfg, w, Prepared(s), r))
    ensures StepFlows(cfg, w, s, r)
  {
    if r == Raised(s, RunError) {
      UnchangedStepFlows(cfg, w, s, r);
    } else {
      AddedStepFlows(cfg, w, s, Prepared(s), NewAttempt(s.iteration + 1, 0, ""), r);
    }
  }

  lemma RunStepFlows(cfg: Config, s: Task, w: World)
    requires AllInOrder(s)
    ensures StepFlows(cfg, w, s, ExecuteRun(cfg, s, w))
  {
    RunFlows(cfg, s, w);
    RunOutcomeFlows(cfg, w, s, ExecuteRun(cfg, s, w));
  }

  lemma ResumeFlows(cfg: Config, s: Task, w: World)
    requires s.history != [] ==> InOrder(Last(s))
    ensures var r := ExecuteResume(cfg, s, w);
      r == Raised(s, ResumeError) ||
      (s.history != [] && if Last(s).phase == AtRejected then FlowsOut(cfg, w, Retried(s), r) else FlowsOut(cfg, w, s, r))
  {
    var r := ExecuteResume(cfg, s, w);
    if r != Raised(s, ResumeError) {
      if Last(s).phase == AtRejected {
        FromPlanningFlows(cfg, Retried(s), w);
      } else if Last(s).phase == AtApproved {
        FinalizingFlows(cfg, s, w);
      } else {
        ContinueFlows(cfg, s, w);
      }
    }
  }

  lemma ResumeOutcomeFlows(cfg: Config, w: World, s: Task, r: Outcome)
    requires AllInOrder(s)
    requires r == Raised(s, ResumeError) ||
      (s.history != [] && if Last(s).phase == AtRejected then FlowsOut(cfg, w, Retried(s), r) else FlowsOut(cfg, w, s, r))
    ensures StepFlows(cfg, w, s, r)
  {
    if r == Raised(s, ResumeError) {
      UnchangedStepFlows(cfg, w, s, r);
    } else if Last(s).phase == AtRejected {
      AddedStepFlows(cfg, w, s, Retried(s), NewAttempt(Last(s).iteration, Last(s).retry + 1, Last(s).nodeId), r);
    } else {
      SameStepFlows(cfg, w, s, r);
    }
  }

  lemma ResumeStepFlows(cfg: Config, s: Task, w: World)
    requires AllInOrder(s)
    ensures StepFlows(cfg, w, s, ExecuteResume(cfg, s, w))
  {
    if s.history != [] { assert InOrder(s.history[|s.history| - 1]); }
    ResumeFlows(cfg, s, w);
    ResumeOutcomeFlows(cfg, w, s, ExecuteResume(cfg, s, w));
  }

  /** Counting a repair on the last attempt first changes nothing of this. */
  lemma CountedStepFlows(cfg: Config, w: World, s: Task, report: Report, r: Outcome)
    requires AllInOrder(s) && s.history != [] && StepFlows(cfg, w, SetLast(s, Counted(Last(s), report)), r)
    ensures StepFlows(cfg, w, s, r)
  {
    var t := SetLast(s, Counted(Last(s), report));
    forall k | 0 <= k < |s.history| ensures Follows(cfg, w, s.history[k], r.state.history[k]) {
      assert Follows(cfg, w, t.history[k], r.state.history[k]);
    }
  }

  lemma CountedInOrder(s: Task, report: Report)
    requires AllInOrder(s) && s.history != []
    ensures AllInOrder(SetLast(s, Counted(Last(s), report)))
  {
    assert InOrder(s.history[|s.history| - 1]);
  }

  lemma ExecuteFlows(cfg: Config, s: Task, c: Choice, w: World)
    requires AllInOrder(s)
    ensures StepFlows(cfg, w, s, Execute(cfg, s, c, w))
  {
    match c.step {
      case StepRun =>
        RunStepFlows(cfg, if s.status == TaskDone then s.(status := TaskStopped) else s, w);
      case StepReplan =>
        if s.history == [] {
          UnchangedStepFlows(cfg, w, s, Raised(s, RunError));
        } else {
          assert InOrder(s.history[|s.history| - 1]);
          ReplanFlows(cfg, s, w);
          SameStepFlows(cfg, w, s, ExecuteReplan(s, w));
        }
      case StepRepair =>
        if c.report.None? || s.history == [] {
          UnchangedStepFlows(cfg, w, s, Raised(s, RunError));
        } else {
          RepairStepFlows(cfg, s, c.report.value, w);
        }
      case StepMergeRetry =>
        if c.report.Some? && s.history != [] {
          CountedInOrder(s, c.report.value);
          var t := SetLast(s, Counted(Last(s), c.report.value));
          ResumeStepFlows(cfg, t, w);
          CountedStepFlows(cfg, w, s, c.report.value, ExecuteResume(cfg, t, w));
        } else {
          ResumeStepFlows(cfg, s, w);
        }
      case _ =>
        ResumeStepFlows(cfg, s, w);
    }
  }

  lemma RepairStepFlows(cfg: Config, s: Task, report: Report, w: World)
    requires AllInOrder(s) && s.history != []
    ensures StepFlows(cfg, w, s, ExecuteRepair(cfg, SetLast(s, Counted(Last(s), report)), report, w))
  {
    CountedInOrder(s, report);
    var t := SetLast(s, Counted(Last(s), report));
    assert InOrder(t.history[|t.history| - 1]);
    RepairFlows(cfg, t, report, w);
    SameStepFlows(cfg, w, t, ExecuteRepair(cfg, t, report, w));
    CountedStepFlows(cfg, w, s, report, ExecuteRepair(cfg, t, report, w));
  }

  /** The loop's handling of a failure relabels the last attempt; it claims reviews only where tests were made. */
  lemma HandlingClaims(cfg: Config, r: Outcome, w: World)
    requires r.Raised? && r.error == ReviewError ==> r.state.history != [] && Last(r.state).testStatus != NotTested
    requires r.state.history != [] ==> InOrder(Last(r.state))
    ensures var u := AfterStep(cfg, r, w).state;
      Relabelled(r.state, u) && (u.history != [] ==> InOrder(Last(u)))
  {
    HandlingRelabels(cfg, r, w);
  }

  lemma RelabelledFollows(cfg: Config, w: World, s: Task, t: Task, u: Task)
    requires AllFollow(cfg, w, s, t) && AllInOrder(t) && Relabelled(t, u) && (u.history != [] ==> InOrder(Last(u)))
    ensures AllFollow(cfg, w, s, u) && AllInOrder(u)
  {
    if t.history != [] {
      var n := |t.history| - 1;
      assert u.history[n] == t.history[n].(phase := u.history[n].phase, failureType := u.history[n].failureType);
      forall k | 0 <= k <= n ensures InOrder(u.history[k]) {
        assert k < n ==> u.history[k] == t.history[k];
      }
    }
  }

  lemma HandlingFlows(cfg: Config, s: Task, r: Outcome, w: World)
    requires StepFlows(cfg, w, s, r)
    ensures AllFollow(cfg, w, s, AfterStep(cfg, r, w).state) && AllInOrder(AfterStep(cfg, r, w).state)
  {
    if r.state.history != [] { assert InOrder(r.state.history[|r.state.history| - 1]); }
    HandlingClaims(cfg, r, w);
    RelabelledFollows(cfg, w, s, r.state, AfterStep(cfg, r, w).state);
  }

  lemma RecheckFlows(cfg: Config, s: Task, w: World)
    requires AllInOrder(s)
    ensures AllFollow(cfg, w, s, Rechecked(s, w)) && AllInOrder(Rechecked(s, w))
  {
    if s.history != [] { assert InOrder(s.history[|s.history| - 1]); }
  }

  lemma FollowsTwice(cfg: Config, w: World, s: Task, t: Task, u: Task)
    requires AllFollow(cfg, w, s, t) && AllFollow(cfg, w, t, u)
    ensures AllFollow(cfg, w, s, u)
  {
    forall k | 0 <= k < |s.history| ensures Follows(cfg, w, s.history[k], u.history[k]) {
      assert Follows(cfg, w, s.history[k], t.history[k]) && Follows(cfg, w, t.history[k], u.history[k]);
    }
    forall k | |s.history| <= k < |u.history| ensures Follows(cfg, w, NewAttempt(0, 0, ""), u.history[k]) {
      if k < |t.history| {
        assert Follows(cfg, w, NewAttempt(0, 0, ""), t.history[k]) && Follows(cfg, w, t.history[k], u.history[k]);
      }
    }
  }

  lemma FailureFlows(cfg: Config, w: World, s: Task, kind: FailureType)
    requires AllInOrder(s)
    ensures AllFollow(cfg, w, s, WithFailure(s, kind)) && AllInOrder(WithFailure(s, kind))
    ensures AllFollow(cfg, w, s, s)
  {
    if s.history != [] { assert InOrder(s.history[|s.history| - 1]); }
  }

  /**
   * In every pass each attempt's results stay, or are replaced by what the pass's inputs answer, later
   * phases with earlier ones.
   */
  lemma PassFlows(cfg: Config, s: Task, w: World)
    requires AllInOrder(s)
    ensures AllFollow(cfg, w, s, AutoPass(cfg, s, w).state) && AllInOrder(AutoPass(cfg, s, w).state)
  {
    if s.history != [] && w.budgetExhausted {
      FailureFlows(cfg, w, s, BudgetExhausted);
    } else {
      var s1 := Rechecked(s, w);
      RecheckFlows(cfg, s, w);
      var c := Decide(cfg, s1, w);
      if c.step == StepTerminal {
        if c.report.Some? {
          FailureFlows(cfg, w, s1, c.report.value.kind);
          FollowsTwice(cfg, w, s, s1, WithFailure(s1, c.report.value.kind));
        }
      } else if c.step != StepDone {
        StepPassFlows(cfg, s, s1, c, w);
      }
    }
  }

  lemma StepPassFlows(cfg: Config, s: Task, s1: Task, c: Choice, w: World)
    requires AllFollow(cfg, w, s, s1) && AllInOrder(s1)
    ensures var t := AfterStep(cfg, Execute(cfg, s1, c, w), w).state; AllFollow(cfg, w, s, t) && AllInOrder(t)
  {
    var r := Execute(cfg, s1, c, w);
    ExecuteFlows(cfg, s1, c, w);
    HandlingFlows(cfg, s1, r, w);
    FollowsTwice(cfg, w, s, s1, AfterStep(cfg, r, w).state);
  }

  // ---------------------------------------------------------------- whole runs

  /**
   * The results of attempt `a` after the passes on the inputs `past`, and the passes that brought them:
   * its exit code pass `e`, its test status pass `t`, its reviews pass `r`, in this order.
   */
  ghost predicate Sourced(cfg: Config, past: seq<World>, a: Attempt, e: nat, t: nat, r: nat) {
    && e <= t <= r < |past|
    && ExitIsNew(past[e], a) && TestsAreNew(cfg, past[t], a) && ReviewsAreNew(past[r], a)
  }

  ghost predicate HasSources(cfg: Config, past: seq<World>, a: Attempt) {
    exists e: nat, t: nat, r: nat :: Sourced(cfg, past, a, e, t, r)
  }

  lemma SourcesFollow(cfg: Config, past: seq<World>, w: World, a: Attempt, b: Attempt)
    requires HasSources(cfg, past, a) && Follows(cfg, w, a, b)
    ensures HasSources(cfg, past + [w], b)
  {
    var e: nat, t: nat, r: nat :| Sourced(cfg, past, a, e, t, r);
    var more, n := past + [w], |past|;
    if b.exitCode == a.exitCode && b.testStatus == a.testStatus && b.decision == a.decision && b.reviews == a.reviews {
      assert Sourced(cfg, more, b, e, t, r);
    } else if b.exitCode == a.exitCode && b.testStatus == a.testStatus {
      assert Sourced(cfg, more, b, e, t, n);
    } else if b.exitCode == a.exitCode {
      assert Sourced(cfg, more, b, e, n, n);
    } else {
      assert Sourced(cfg, more, b, n, n, n);
    }
  }

  lemma NewSources(cfg: Config, past: seq<World>, w: World, b: Attempt)
    requires Follows(cfg, w, NewAttempt(0, 0, ""), b)
    ensures HasSources(cfg, past + [w], b)
  {
    var n := |past|;
    assert Sourced(cfg, past + [w], b, n, n, n);
  }

  /**
   * Each attempt's results are answers of earlier passes, reviews not older than tests and tests not older
   * than the exit code.
   */
  ghost predicate AllSourced(cfg: Config, past: seq<World>, s: Task) {
    AllInOrder(s) && forall k | 0 <= k < |s.history| :: HasSources(cfg, past, s.history[k])
  }

  lemma FollowersHaveSources(cfg: Config, past: seq<World>, w: World, s: Task, t: Task)
    requires AllSourced(cfg, past, s) && AllFollow(cfg, w, s, t) && AllInOrder(t)
    ensures AllSourced(cfg, past + [w], t)
  {
    forall k | 0 <= k < |t.history| ensures HasSources(cfg, past + [w], t.history[k]) {
      if k < |s.history| {
        SourcesFollow(cfg, past, w, s.history[k], t.history[k]);
      } else {
        NewSources(cfg, past, w, t.history[k]);
      }
    }
  }

  lemma PassesKeepSources(cfg: Config)
    ensures forall past, s, w, t | AllSourced(cfg, past, s) && PassRelation(cfg)(s, w, t) :: AllSourced(cfg, past + [w], t)
  {
    forall past, s, w, t | AllSourced(cfg, past, s) && PassRelation(cfg)(s, w, t) ensures AllSourced(cfg, past + [w], t) {
      PassFlows(cfg, s, w);
      FollowersHaveSources(cfg, past, w, s, t);
    }
  }

  /** That holds in every state of every run. */
  lemma RunsHaveSources(cfg: Config, trace: seq<Task>, worlds: seq<World>, n: nat)
    requires AutoRun(cfg, trace, worlds) && n <= |worlds|
    ensures AllSourced(cfg, worlds[..n], trace[n])
  {
    PassesKeepSources(cfg);
    PrefixInvariance(PassRelation(cfg), (past: seq<World>, s: Task) => AllSourced(cfg, past, s), trace, worlds, n);
  }

  /** What stands behind a merge: the answers of implementer, tests, reviewers and git, of these passes. */
  ghost predicate RestsOn(cfg: Config, worlds: seq<World>, e: nat, t: nat, r: nat, m: nat) {
    && e <= t <= r <= m < |worlds|
    && ExitedBy(worlds[e], 0)
    && (cfg.hasTestCommand ==> worlds[t].tests == TestsReturn(0))
    && worlds[r].reviewers != [] && (forall j | 0 <= j < |worlds[r].reviewers| :: worlds[r].reviewers[j] == Reviewed(Approve))
    && worlds[m].merger.Merges?
  }

  /**
   * Pass `m` merged attempt `k` through the gate, on such answers; without a test command the policy of
   * its node allows that.
   */
  ghost predicate MergedOn(cfg: Config, trace: seq<Task>, worlds: seq<World>, k: int, e: nat, t: nat, r: nat, m: nat) {
    && m + 1 < |trace| && RestsOn(cfg, worlds, e, t, r, m)
    && MergesNow(cfg, trace[m], worlds[m], trace[m + 1], k)
    && (!cfg.hasTestCommand ==> MayGoUntested(cfg, trace[m + 1], trace[m + 1].history[k]))
  }

  ghost predicate MergedOnAnswers(cfg: Config, trace: seq<Task>, worlds: seq<World>, n: nat, k: int) {
    exists e: nat, t: nat, r: nat, m: nat :: m < n && MergedOn(cfg, trace, worlds, k, e, t, r, m)
  }

  /**
   * Every MERGED attempt of every run was merged by a pass `m` whose merge went through, and before
   * that, in this order, the implementer returned 0 (or its work was found in the worktree), the tests
   * returned 0, and every reviewer approved, each in a pass of the run; without a test command it was
   * merged only where the task or the policy of its node allows that.
   */
  lemma MergedRestsOnAnswers(cfg: Config, trace: seq<Task>, worlds: seq<World>, n: nat, k: int)
    requires AutoRun(cfg, trace, worlds) && n <= |worlds|
    requires 0 <= k < |trace[n].history| && trace[n].history[k].phase == AtMerged
    ensures MergedOnAnswers(cfg, trace, worlds, n, k)
  {
    RunIsGrounded(cfg, trace, worlds, n);
    RunMerged(cfg, trace, worlds, n, k);
    GroundedMergeRests(cfg, trace, worlds, n, k);
  }

  /** In each of the first `n` states the attempts are in order and have their sources. */
  ghost predicate GroundedTo(cfg: Config, trace: seq<Task>, worlds: seq<World>, n: nat) {
    n <= |worlds| < |trace| && forall j: nat | j <= n :: AllSourced(cfg, worlds[..j], trace[j]) && AutoSafety.AttemptsOk(trace[j])
  }

  ghost predicate MergedBefore(cfg: Config, trace: seq<Task>, worlds: seq<World>, n: nat, k: int) {
    n <= |worlds| < |trace| && exists m: nat :: m < n && MergesNow(cfg, trace[m], worlds[m], trace[m + 1], k)
  }

  lemma RunIsGrounded(cfg: Config, trace: seq<Task>, worlds: seq<World>, n: nat)
    requires AutoRun(cfg, trace, worlds) && n <= |worlds|
    ensures GroundedTo(cfg, trace, worlds, n)
  {
    forall j: nat | j <= n ensures AllSourced(cfg, worlds[..j], trace[j]) && AutoSafety.AttemptsOk(trace[j]) {
      RunsHaveSources(cfg, trace, worlds, j);
      RunAttemptsOk(cfg, trace, worlds, j);
    }
  }

  lemma RunAttemptsOk(cfg: Config, trace: seq<Task>, worlds: seq<World>, n: nat)
    requires AutoRun(cfg, trace, worlds) && n <= |worlds|
    ensures AutoSafety.AttemptsOk(trace[n])
  {
    RunsKeepInv(cfg, trace, worlds, n);
  }

  lemma RunMerged(cfg: Config, trace: seq<Task>, worlds: seq<World>, n: nat, k: int)
    requires AutoRun(cfg, trace, worlds) && n <= |worlds|
    requires 0 <= k < |trace[n].history| && trace[n].history[k].phase == AtMerged
    ensures MergedBefore(cfg, trace, worlds, n, k)
  {
    var m := EveryMergeWasGated(cfg, trace, worlds, n, k);
  }

  lemma GroundedMergeRests(cfg: Config, trace: seq<Task>, worlds: seq<World>, n: nat, k: int)
    requires GroundedTo(cfg, trace, worlds, n) && MergedBefore(cfg, trace, worlds, n, k)
    ensures MergedOnAnswers(cfg, trace, worlds, n, k)
  {
    var m: nat :| m < n && MergesNow(cfg, trace[m], worlds[m], trace[m + 1], k);
    var e, t, r := GateRests(cfg, worlds, trace[m + 1], k, m);
    assert MergedOn(cfg, trace, worlds, k, e, t, r, m);
  }

  lemma GateRests(cfg: Config, worlds: seq<World>, s: Task, k: int, m: nat) returns (e: nat, t: nat, r: nat)
    requires m < |worlds| && AllSourced(cfg, worlds[..m + 1], s) && AutoSafety.AttemptsOk(s)
    requires 0 <= k < |s.history| && GateHolds(cfg, worlds[m], s, s.history[k]) && s.history[k].phase == AtMerged
    ensures RestsOn(cfg, worlds, e, t, r, m) && (!cfg.hasTestCommand ==> MayGoUntested(cfg, s, s.history[k]))
  {
    var a := s.history[k];
    assert HasSources(cfg, worlds[..m + 1], a) && AutoSafety.AttemptOk(a);
    e, t, r :| Sourced(cfg, worlds[..m + 1], a, e, t, r);
    assert ReviewedBy(worlds[r], a.reviews);
  }
}
