/**
 * The first pass of the auto loop on a plan of one node: it can end with the node merged, with a
 * merge that failed, and with an implementer that failed.
 */
module FirstPass {
  import opened Option
  import opened TaskGraph
  import opened TaskState
  import opened AutoLoop
  import opened UncountedSteps
  import opened AutoRuns

  /** Providers, tests and reviewers all answer well. */
  predicate AnswersWell(cfg: Config, w: World) {
    && StartsWell(cfg, w) && cfg.hasTestCommand && w.implementer == Implemented(0, false, false, NoFailure)
    && w.tests == TestsReturn(0) && w.reviewers == [Reviewed(Approve)] && w.changedFiles == 0
  }

  /** ... and the program may merge what they come to. */
  predicate GoesWell(cfg: Config, w: World) {
    AnswersWell(cfg, w) && cfg.autoMerge
  }

  /** The run can begin and the worktree is there. */
  predicate StartsWell(cfg: Config, w: World) {
    cfg.maxIterations >= 1 && w.preflightOk && w.worktreeAdded
  }

  predicate StandsAlone(n: Node) {
    n.id != "" && n.dependencies == [] && !n.requiresManualReview
  }

  /** The only node of a plan is runnable, and no scan blocks it. */
  lemma OnlyNodeIsPicked(n: Node, maxRetries: int)
    requires n.dependencies == [] && n.status == Pending
    ensures Scan([n], maxRetries, 1, {}) == ScanResult([n], [0])
    ensures FirstIndex([n], n.id) == Some(0)
  {
    assert Judge([n], 0, maxRetries, {}) == Pick;
    assert [n][0].id == n.id;
  }

  lemma OnlyNodeIsPlanned(n: Node)
    requires n.dependencies == []
    ensures PlannedGraph([n]) == [n.(status := Pending, attemptIterations := [], retryCount := 0)]
  {
    var m := n.(status := Pending, attemptIterations := [], retryCount := 0);
    assert PlannedNodes([n]) == [m];
    assert BlockInvalid([m]) == [m];
    OnlyNodeIsPicked(m, 2);
  }

  /** The plan of one node, started. */
  lemma OnlyNodeStarts(cfg: Config, n: Node, s: Task, w: World)
    requires StartsWell(cfg, w) && StandsAlone(n) && w.planner == Plan([n], true) && s.history != [] && s.graph.None?
    ensures var m := n.(status := Running, attemptIterations := [], retryCount := 0);
      PlanGraph(cfg, s, w) == Ok(SetLast(s.(graph := Some([m])),
        Last(s).(nodeId := n.id, hasPlan := true, finalStep := true, failureType := None, phase := AtWorktree)))
  {
    var m := n.(status := Pending, attemptIterations := [], retryCount := 0);
    OnlyNodeIsPlanned(n);
    OnlyNodeIsPicked(m, cfg.maxRetries);
    assert SetStatus([m], 0, Running) == [m.(status := Running)];
  }

  /** A started node whose attempt is approved may be merged. */
  lemma OnlyNodeMayMerge(cfg: Config, n: Node, s: Task, w: World)
    requires GoesWell(cfg, w) && StandsAlone(n) && s.history != [] && s.graph == Some([n])
    requires Last(s).nodeId == n.id && Last(s).exitCode == Some(0) && Last(s).decision == Some(Approve) && Last(s).testStatus == TestsPassed
    ensures FirstIndex([n], n.id) == Some(0) && CanAutoMerge(cfg, s, Last(s), w.changedFiles)
  {
    assert [n][0].id == n.id && FirstIndex([n], n.id) == Some(0);
    assert NodeOf(s, Last(s)) == Some(n);
  }

  /** ... and then it has passed, and that completes the graph. */
  lemma OnlyNodeMerges(cfg: Config, n: Node, s: Task, w: World)
    requires GoesWell(cfg, w) && StandsAlone(n) && s.history != [] && s.graph == Some([n]) && w.merger == Merges
    requires Last(s).nodeId == n.id && Last(s).exitCode == Some(0) && Last(s).decision == Some(Approve) && Last(s).testStatus == TestsPassed
    ensures var r := Finalizing(cfg, s, w);
      r.Ok? && r.state.status == TaskDone && Last(r.state).phase == AtMerged && r.state.graph.Some?
      && r.state.graph.value == [n.(status := Passed, attemptIterations := WithIteration(n.attemptIterations, Last(s).iteration))]
  {
    OnlyNodeMayMerge(cfg, n, s, w);
    var m := n.(status := Passed, attemptIterations := WithIteration(n.attemptIterations, Last(s).iteration));
    assert MarkPassed([n], n.id, Last(s).iteration).value == [m];
  }

  /** A fresh attempt that has its plan and nothing else. */
  predicate JustPlanned(n: Node, s: Task) {
    s.history != [] && s.graph == Some([n]) &&
    var a := Last(s);
    a.nodeId == n.id && a.hasPlan && a.exitCode.None? && a.testStatus == NotTested && a.decision.None? && a.mergeError.None? && a.failureType.None?
  }

  lemma OnlyNodeIsApproved(cfg: Config, n: Node, s: Task, w: World) returns (t: Task)
    requires AnswersWell(cfg, w) && JustPlanned(n, s)
    ensures |t.history| == |s.history| && t.history != [] && t.graph == s.graph && FromImplementer(cfg, s, w) == Finalizing(cfg, t, w)
    ensures Last(t).nodeId == n.id && Last(t).exitCode == Some(0) && Last(t).decision == Some(Approve) && Last(t).testStatus == TestsPassed
    ensures Last(t).phase == AtApproved && Last(t).mergeError.None? && Last(t).failureType.None?
  {
    var done := Implementing(s, w);
    assert done.Ok? && Last(done.state).exitCode == Some(0) && Last(done.state).failureType.None?;
    var tested := Testing(cfg, done.state, w);
    assert Decisions(w.reviewers) == [Approve];
    assert Aggregate([Approve]) == Approve;
    t := Reviewing(tested, w).state;
  }

  /** The first pass is a run, and the run begins by planning. */
  lemma FirstPassRuns(cfg: Config, s: Task, w: World)
    requires StartsWell(cfg, w) && Initial(s)
    ensures AutoPass(cfg, s, w) == AfterStep(cfg, ExecuteRun(cfg, s, w), w)
    ensures ExecuteRun(cfg, s, w) == FromPlanning(cfg, Prepared(s), w)
  {
  }

  lemma PlannedGoesOn(cfg: Config, s: Task, w: World)
    requires s.history != [] && s.graph.None? && !Last(s).hasPlan && PlanGraph(cfg, s, w).Ok?
    ensures FromPlanning(cfg, s, w) == FromImplementer(cfg, PlanGraph(cfg, s, w).state, w)
  {
  }

  lemma RunIsFromPlanned(cfg: Config, n: Node, s: Task, w: World) returns (m: Node, planned: Task)
    requires StartsWell(cfg, w) && StandsAlone(n) && w.planner == Plan([n], true) && Initial(s)
    ensures m == n.(status := Running, attemptIterations := [], retryCount := 0) && JustPlanned(m, planned) && |planned.history| == 1
    ensures Last(planned).recoveryRetryCount == 0 && planned.status == TaskRunning
    ensures ExecuteRun(cfg, s, w) == FromImplementer(cfg, planned, w)
    ensures AutoPass(cfg, s, w) == AfterStep(cfg, ExecuteRun(cfg, s, w), w)
  {
    m := n.(status := Running, attemptIterations := [], retryCount := 0);
    OnlyNodeStarts(cfg, n, Prepared(s), w);
    planned := PlanGraph(cfg, Prepared(s), w).state;
    FirstPassRuns(cfg, s, w);
    PlannedGoesOn(cfg, Prepared(s), w);
  }

  /** From the initial task, one pass in which everything answers well merges the node and is DONE. */
  lemma GoodPassIsDone(cfg: Config, n: Node, s: Task, w: World)
    requires GoesWell(cfg, w) && StandsAlone(n) && w.planner == Plan([n], true) && Initial(s) && w.merger == Merges
    ensures AutoPass(cfg, s, w).Continue?
    ensures var t := AutoPass(cfg, s, w).state;
      t.status == TaskDone && |t.history| == 1 && t.history[0].phase == AtMerged && t.graph.Some? && Complete(t.graph.value)
  {
    var m, planned := RunIsFromPlanned(cfg, n, s, w);
    var t := OnlyNodeIsApproved(cfg, m, planned, w);
    OnlyNodeMerges(cfg, m, t, w);
  }

  /** The same with a merge that fails: the attempt stays approved, and the failure is on it. */
  lemma PassReachesMergeFailed(cfg: Config, n: Node, s: Task, w: World, kind: FailureType)
    requires GoesWell(cfg, w) && StandsAlone(n) && w.planner == Plan([n], true) && Initial(s) && w.merger == MergeFails(kind)
    ensures AutoPass(cfg, s, w).Continue? && MergeFailed(cfg, AutoPass(cfg, s, w).state, kind, w.changedFiles)
  {
    var m, planned := RunIsFromPlanned(cfg, n, s, w);
    var t := OnlyNodeIsApproved(cfg, m, planned, w);
    OnlyNodeMayMerge(cfg, m, t, w);
    FinalizingReachesMergeFailed(cfg, t, w, kind);
  }

  /** The same where the program may not merge: the attempt is approved, and retried for ever. */
  lemma PassReachesUnmergeable(cfg: Config, n: Node, s: Task, w: World)
    requires AnswersWell(cfg, w) && !cfg.autoMerge && StandsAlone(n) && w.planner == Plan([n], true) && Initial(s)
    ensures AutoPass(cfg, s, w).Continue? && Unmergeable(cfg, AutoPass(cfg, s, w).state, w.changedFiles)
  {
    var m, planned := RunIsFromPlanned(cfg, n, s, w);
    var t := OnlyNodeIsApproved(cfg, m, planned, w);
    FinalizingReachesUnmergeable(cfg, t, w);
  }

  lemma ImplementerExitFails(cfg: Config, n: Node, s: Task, w: World)
    requires JustPlanned(n, s) && n.id != "" && w.implementer.Implemented? && w.implementer.exitCode != 0
    requires ProviderReport(w.providerKind).kind == ProviderExitError
    ensures var r := FromImplementer(cfg, s, w);
      r.Raised? && r.error == ImplementingError && |r.state.history| == |s.history|
    ensures var t := AfterStep(cfg, FromImplementer(cfg, s, w), w).state;
      t.history != [] && ImplementerFailed(t) && Last(t).exitCode.Some? && Last(t).recoveryRetryCount == Last(s).recoveryRetryCount
    ensures AfterStep(cfg, FromImplementer(cfg, s, w), w).Continue?
      <==> cfg.autoRecoverProvider && Last(s).recoveryRetryCount < cfg.maxRecovery
  {
    assert [n][0].id == n.id && FirstIndex([n], n.id) == Some(0);
    var f := n.(status := Failed);
    assert SetStatus([n], 0, Failed) == [f];
    assert [f][0].id == n.id && FirstIndex([f], n.id) == Some(0);
    assert SetStatus([f], 0, Failed) == [f];
  }

  /**
   * An implementer that exits with an error brings the first pass to the state whose resume repeats
   * for ever, wherever providers are retried and there is recovery budget at all.
   */
  lemma PassReachesImplementerFailed(cfg: Config, n: Node, s: Task, w: World)
    requires StartsWell(cfg, w) && StandsAlone(n) && w.planner == Plan([n], true) && Initial(s)
    requires w.implementer.Implemented? && w.implementer.exitCode != 0 && ProviderReport(w.providerKind).kind == ProviderExitError
    ensures var p := AutoPass(cfg, s, w);
      p.state.history != [] && ImplementerFailed(p.state) && Last(p.state).exitCode.Some? && Last(p.state).recoveryRetryCount == 0
      && (p.Continue? <==> cfg.autoRecoverProvider && cfg.maxRecovery > 0)
  {
    var m, planned := RunIsFromPlanned(cfg, n, s, w);
    ImplementerExitFails(cfg, m, planned, w);
  }
}
