/** The steps of the auto loop that nothing counts, and when each of them repeats for ever. */
module UncountedSteps {
  import opened Option
  import opened TaskGraph
  import opened TaskState
  import opened AutoLoop
  import opened AutoSafety
  import opened AutoTermination
  import opened Blocking
  import opened GraphPatch
  import opened DecisionTable

  // ---------------------------------------------------------------- merge retries

  /** The kinds `classify_merge_failure` gives. */
  predicate IsMergeKind(kind: FailureType) {
    kind == MergeConflict || kind == MergeWorktreeBusy || kind == MergeBranchMissing || kind == MergePermission || kind == MergeUnknown
  }

  /** Finalising finds the attempt as an earlier finalising left it. */
  predicate FinalizesTheSame(cfg: Config, s: Task, w: World)
    requires s.history != []
  {
    var a := Last(s);
    if CanAutoMerge(cfg, s, a, w.changedFiles)
    then w.merger.MergeFails? && a.mergeError == Some(w.merger.kind) && a.failureType == Some(w.merger.kind)
    else BlockedByTestGate(cfg, s, a) ==> a.failureType == Some(TestGateBlocked)
  }

  lemma FinalizingAgain(cfg: Config, s: Task, w: World)
    requires AwaitsMerge(s)
    ensures ExecuteResume(cfg, s, w) == Ok(s) <==> FinalizesTheSame(cfg, s, w)
    ensures ExecuteResume(cfg, s, w) == Finalizing(cfg, s, w)
  {
    var a := Last(s);
    assert SetLast(s.(status := TaskStopped), a) == s;
    var t := Finalizing(cfg, s, w).state;
    assert Finalizing(cfg, s, w) == Ok(s) ==> Last(t) == a;
  }

  /** A merge retry follows exactly where the stored failure, if any, is no conflict and tests do not block. */
  lemma AwaitingIsRetried(cfg: Config, s: Task, w: World)
    requires AwaitsMerge(s) && (Last(s).mergeError.Some? ==> IsMergeKind(Last(s).mergeError.value))
    ensures var step, a := Decide(cfg, s, w).step, Last(s);
      if a.mergeError == Some(MergeConflict) then step == StepRepair || step == StepTerminal
      else if a.mergeError.None? && BlockedByTestGate(cfg, s, a) then step == StepTerminal
      else step == StepMergeRetry
  {
  }

  /** Once the recheck has taken an uncaptured-patch label off, finalising does not put it back. */
  lemma LabelIsGone(cfg: Config, s: Task, w: World)
    requires s.history != [] && Last(s).failureType.None? && (w.merger.MergeFails? ==> IsMergeKind(w.merger.kind))
    ensures Last(Finalizing(cfg, s, w).state).failureType != Some(PatchNotCaptured)
  {
  }

  /**
   * The whole of the approved branch: a pass leaves the task as it was and the loop going on exactly
   * when the budgets last, no label is taken off, the attempt is neither in conflict nor blocked by
   * its tests, and finalising comes out as it did.  So does every merge that keeps failing the same
   * way, and every approved attempt that no policy lets the program merge.
   */
  lemma ApprovedRepeatsExactlyWhen(cfg: Config, s: Task, w: World)
    requires AwaitsMerge(s) && (Last(s).mergeError.Some? ==> IsMergeKind(Last(s).mergeError.value))
    requires w.merger.MergeFails? ==> IsMergeKind(w.merger.kind)
    ensures var a := Last(s);
      AutoPass(cfg, s, w) == Continue(s) <==>
        && !w.budgetExhausted && !(a.failureType == Some(PatchNotCaptured) && w.capturedAtDispatch)
        && a.mergeError != Some(MergeConflict) && (a.mergeError.None? ==> !BlockedByTestGate(cfg, s, a))
        && FinalizesTheSame(cfg, s, w)
  {
    if !w.budgetExhausted {
      RecheckShows(s, w);
      if Rechecked(s, w) == s { ApprovedPass(cfg, s, w); } else { UnlabelledPass(cfg, s, w); }
    }
  }

  lemma RecheckShows(s: Task, w: World)
    requires s.history != []
    ensures Rechecked(s, w) == s <==> !(Last(s).failureType == Some(PatchNotCaptured) && w.capturedAtDispatch)
  {
    assert Last(s).failureType == Some(PatchNotCaptured) ==> Last(Reconciled(s)).failureType.None?;
  }

  lemma ApprovedPass(cfg: Config, s: Task, w: World)
    requires AwaitsMerge(s) && (Last(s).mergeError.Some? ==> IsMergeKind(Last(s).mergeError.value))
    requires !w.budgetExhausted && Rechecked(s, w) == s
    ensures var a := Last(s);
      AutoPass(cfg, s, w) == Continue(s) <==>
        a.mergeError != Some(MergeConflict) && (a.mergeError.None? ==> !BlockedByTestGate(cfg, s, a)) && FinalizesTheSame(cfg, s, w)
  {
    AwaitingIsRetried(cfg, s, w);
    if Decide(cfg, s, w).step == StepMergeRetry {
      RetriedPass(cfg, s, w);
      FinalizingAgain(cfg, s, w);
    } else if Decide(cfg, s, w).step == StepRepair {
      RepairIsNoFixpoint(cfg, s, w);
    }
  }

  lemma UnlabelledPass(cfg: Config, s: Task, w: World)
    requires AwaitsMerge(s) && (Last(s).mergeError.Some? ==> IsMergeKind(Last(s).mergeError.value))
    requires w.merger.MergeFails? ==> IsMergeKind(w.merger.kind)
    requires !w.budgetExhausted && Rechecked(s, w) != s
    ensures AutoPass(cfg, s, w) != Continue(s)
  {
    var s1 := Rechecked(s, w);
    AwaitingIsRetried(cfg, s1, w);
    if Decide(cfg, s1, w).step == StepMergeRetry {
      RetriedPass(cfg, s, w);
      FinalizingAgain(cfg, s1, w);
      LabelIsGone(cfg, s1, w);
    } else if Decide(cfg, s1, w).step == StepRepair {
      RepairIsNoFixpoint(cfg, s, w);
    }
  }

  lemma RetriedPass(cfg: Config, s: Task, w: World)
    requires !w.budgetExhausted && Decide(cfg, Rechecked(s, w), w).step == StepMergeRetry
    ensures AutoPass(cfg, s, w) == AfterStep(cfg, ExecuteResume(cfg, Rechecked(s, w), w), w)
  {
    MergeRetryChangesNothing(cfg, Rechecked(s, w), w);
  }

  lemma RepairIsNoFixpoint(cfg: Config, s: Task, w: World)
    requires s.history != [] && !w.budgetExhausted && Decide(cfg, Rechecked(s, w), w).step == StepRepair
    ensures AutoPass(cfg, s, w) != Continue(s)
  {
    var m := PassMoves(cfg, s, w);
  }

  /**
   * In particular an approved attempt that may not be merged for a reason other than its tests
   * (auto_merge off, a manual review asked for, too many files) is retried for ever.
   */
  lemma UnmergeableRepeatsExactlyWhen(cfg: Config, s: Task, w: World)
    requires Unmergeable(cfg, s, w.changedFiles) && (w.merger.MergeFails? ==> IsMergeKind(w.merger.kind))
    ensures AutoPass(cfg, s, w) == Continue(s) <==> !w.budgetExhausted
  {
    ApprovedRepeatsExactlyWhen(cfg, s, w);
  }

  predicate Unmergeable(cfg: Config, s: Task, changedFiles: nat) {
    AwaitsMerge(s) && var a := Last(s);
    a.mergeError.None? && a.failureType != Some(PatchNotCaptured)
    && !BlockedByTestGate(cfg, s, a) && !CanAutoMerge(cfg, s, a, changedFiles)
  }

  /** An approved attempt comes to that by its first finalising. */
  lemma FinalizingReachesUnmergeable(cfg: Config, s: Task, w: World)
    requires s.history != [] && Last(s).phase == AtApproved && Last(s).decision == Some(Approve)
    requires Last(s).mergeError.None? && Last(s).failureType != Some(PatchNotCaptured)
    requires !BlockedByTestGate(cfg, s, Last(s)) && !CanAutoMerge(cfg, s, Last(s), w.changedFiles)
    ensures var r := Finalizing(cfg, s, w); r.Ok? && Unmergeable(cfg, r.state, w.changedFiles)
  {
    var t := Finalizing(cfg, s, w).state;
    assert Last(t) == Last(s) && NodeOf(t, Last(t)) == NodeOf(s, Last(s));
  }

  /** An approved, mergeable attempt whose merge failed for `kind`, as finalizing leaves it. */
  predicate MergeFailed(cfg: Config, s: Task, kind: FailureType, changedFiles: nat) {
    s.status == TaskStopped && s.history != [] &&
    var a := Last(s);
    a.phase == AtApproved && a.mergeError == Some(kind) && a.failureType == Some(kind) &&
    CanAutoMerge(cfg, s, a, changedFiles)
  }

  /**
   * When the merge keeps failing the same way, a pass leaves the task exactly as it was, and so
   * the loop never ends, unless the failure is a conflict: then the pass repairs or stops.
   */
  lemma FailingMergeRepeatsExactlyWhen(cfg: Config, s: Task, w: World, kind: FailureType)
    requires MergeFailed(cfg, s, kind, w.changedFiles) && w.merger == MergeFails(kind) && !w.budgetExhausted
    requires kind != PatchNotCaptured
    ensures AutoPass(cfg, s, w) == Continue(s) <==> kind != MergeConflict
  {
    FailedMergeIsDecided(cfg, s, w, kind);
    if kind == MergeConflict {
      var m := PassMoves(cfg, s, w);
    } else {
      FailedMergeFailsAgain(cfg, s, w, kind);
      MergeRetryChangesNothing(cfg, s, w);
    }
  }

  lemma FailedMergeIsDecided(cfg: Config, s: Task, w: World, kind: FailureType)
    requires MergeFailed(cfg, s, kind, w.changedFiles) && kind != PatchNotCaptured
    ensures Rechecked(s, w) == s
    ensures var step := Decide(cfg, s, w).step;
      if kind == MergeConflict then step == StepRepair || step == StepTerminal else step == StepMergeRetry
  {
  }

  lemma FailedMergeFailsAgain(cfg: Config, s: Task, w: World, kind: FailureType)
    requires MergeFailed(cfg, s, kind, w.changedFiles) && w.merger == MergeFails(kind)
    ensures ExecuteResume(cfg, s, w) == Ok(s)
  {
    var a := Last(s);
    assert a.(mergeError := Some(kind), failureType := Some(kind)) == a;
    assert SetLast(s.(status := TaskStopped), a) == s;
  }

  // ---------------------------------------------------------------- replans

  /** An attempt whose reviewer asked for a new plan, as `execute_replan` leaves it. */
  predicate ReplanPending(s: Task) {
    s.status == TaskStopped && s.history != [] && s.graph.Some? && Last(s).decision == Some(Replan) && Last(s).phase == AtWorktree
  }

  lemma ReplanIsDecided(cfg: Config, s: Task, w: World)
    requires ReplanPending(s)
    ensures Decide(cfg, s, w).step == StepReplan && ReplanPending(Rechecked(s, w))
  {
  }

  /** Whatever patch is accepted, the next pass replans again: no counter and no other step comes between. */
  lemma ReplanLeadsToReplan(cfg: Config, s: Task, w: World, next: World)
    requires s.history != [] && Last(s).decision == Some(Replan) && ExecuteReplan(s, w).Ok?
    ensures var t := ExecuteReplan(s, w).state;
      ReplanPending(t) && Decide(cfg, Rechecked(t, next), next).step == StepReplan && MeasureOf(cfg, t) == MeasureOf(cfg, s)
  {
    ReplanIsDecided(cfg, ExecuteReplan(s, w).state, next);
    ReplanIsDecided(cfg, Rechecked(ExecuteReplan(s, w).state, next), next);
  }

  lemma EmptyReplanKeepsTask(s: Task, w: World)
    requires ReplanPending(s) && w.replanner == Replanned([])
    ensures ExecuteReplan(s, w) == Ok(s)
  {
    var a := Last(s);
    assert a.(phase := AtReplanning).(phase := AtPlanning).(phase := AtWorktree) == a;
    assert ExecuteReplan(s, w).state.history == s.history;
  }

  /**
   * The request to replan stays on the attempt.  A patch that changes nothing is asked for again in
   * the next pass, for ever, exactly when the task's budgets last and the recheck at the start of the
   * pass does not take an uncaptured-patch label off the attempt.
   */
  lemma ReplanRepeatsExactlyWhen(cfg: Config, s: Task, w: World)
    requires ReplanPending(s) && w.replanner == Replanned([])
    ensures AutoPass(cfg, s, w) == Continue(s) <==>
      !w.budgetExhausted && !(Last(s).failureType == Some(PatchNotCaptured) && w.capturedAtDispatch)
  {
    var s1 := Rechecked(s, w);
    ReplanIsDecided(cfg, s, w);
    ReplanIsDecided(cfg, s1, w);
    EmptyReplanKeepsTask(s1, w);
    if Last(s).failureType == Some(PatchNotCaptured) && w.capturedAtDispatch {
      assert Last(s1).failureType.None?;
    }
  }

  // ---------------------------------------------------------------- failures that the handler survives

  /** The handler lets the loop go on; nothing is spent. */
  predicate HandlerGoesOn(cfg: Config, a: Attempt, w: World) {
    ProviderReport(w.providerKind).recoverable && cfg.autoRecoverProvider && a.recoveryRetryCount < cfg.maxRecovery
  }

  /** What the handler leaves of an attempt whose phase failed. */
  function Handled(s: Task, phase: Phase, w: World): Task
    requires s.history != []
  {
    SetLast(s.(status := TaskStopped), Last(s).(phase := phase, failureType := Some(ProviderReport(w.providerKind).kind)))
  }

  lemma HandlerIs(cfg: Config, s: Task, phase: Phase, w: World)
    requires s.history != []
    ensures HandleFailure(cfg, s, phase, w) ==
      if HandlerGoesOn(cfg, Last(s), w) then Continue(Handled(s, phase, w)) else Exit(Handled(s, phase, w))
  {
  }

  /** A replan that failed, as the handler leaves it. */
  predicate ReplanFailed(s: Task) {
    s.status == TaskStopped && s.history != [] && s.graph.Some? && Last(s).decision == Some(Replan) && Last(s).phase == AtPlanning
  }

  /** The replanner fails, or what it proposes is rejected. */
  ghost predicate ReplanFails(s: Task, w: World) {
    s.graph.Some? && (w.replanner.ReplannerFails? || (w.replanner.Replanned? && !Accepted(s.graph.value, w.replanner.ops)))
  }

  lemma ReplanFailsAgain(s: Task, w: World)
    requires ReplanFailed(s) && ReplanFails(s, w)
    ensures ExecuteReplan(s, w) == Raised(s.(status := TaskReplanning), PlanningError)
  {
    var a := Last(s);
    assert a.(phase := AtReplanning).(phase := AtPlanning) == a;
    assert ExecuteReplan(s, w).state.history == s.history;
  }

  /** A replan that keeps failing repeats too, exactly while the handler survives it and labels it alike. */
  lemma FailingReplanRepeatsExactlyWhen(cfg: Config, s: Task, w: World)
    requires ReplanFailed(s) && ReplanFails(s, w) && Last(s).failureType != Some(PatchNotCaptured)
    ensures AutoPass(cfg, s, w) == Continue(s) <==>
      !w.budgetExhausted && HandlerGoesOn(cfg, Last(s), w) && Last(s).failureType == Some(ProviderReport(w.providerKind).kind)
  {
    assert Rechecked(s, w) == s && Decide(cfg, s, w).step == StepReplan;
    ReplanFailsAgain(s, w);
    HandlerIs(cfg, s.(status := TaskReplanning), AtPlanning, w);
    HandledIsSame(s, s.(status := TaskReplanning), AtPlanning, w);
  }

  /** The handler leaves the task as it was exactly when it labels it alike. */
  lemma HandledIsSame(s: Task, u: Task, phase: Phase, w: World)
    requires s.history != [] && s.status == TaskStopped && Last(s).phase == phase
    requires |u.history| == |s.history| && u.iteration == s.iteration && u.graph == s.graph
    requires forall k | 0 <= k < |s.history| - 1 :: u.history[k] == s.history[k]
    requires Last(u).(phase := phase, failureType := None) == Last(s).(failureType := None)
    ensures Handled(u, phase, w) == s <==> Last(s).failureType == Some(ProviderReport(w.providerKind).kind)
  {
    var t := Handled(u, phase, w);
    assert Last(t).failureType == Some(ProviderReport(w.providerKind).kind);
    assert Last(t) == Last(s).(failureType := Last(t).failureType);
    if Last(t) == Last(s) { assert t.history == s.history; }
  }

  /** An attempt that got no plan, as the handler leaves it. */
  predicate PlanningFailed(s: Task) {
    s.status == TaskStopped && s.history != [] &&
    var a := Last(s);
    a.phase == AtPlanning && a.nodeId == "" && !a.hasPlan && a.exitCode.None? && a.testStatus == NotTested
    && a.decision.None? && a.mergeError.None? && a.failureType != Some(PatchNotCaptured)
  }

  /** The planner gives no graph, or no node of the graph can run. */
  predicate NothingToPlan(cfg: Config, s: Task, w: World) {
    if s.graph.Some? then Scan(s.graph.value, cfg.maxRetries, 1, {}).picked == []
    else !w.worktreeAdded || w.planner.PlannerFails? || w.planner.nodes == []
  }

  function ScannedOnce(cfg: Config, s: Task): Task {
    if s.graph.Some? then s.(graph := Some(Scan(s.graph.value, cfg.maxRetries, 1, {}).nodes)) else s
  }

  /** What fails the planning of an attempt without a node: only its label and the status show. */
  lemma PlanningFails(cfg: Config, s: Task, w: World)
    requires s.history != [] && NothingToPlan(cfg, s, w)
    requires Last(s).phase == AtPlanning && Last(s).nodeId == ""
    ensures var r, u := FromPlanning(cfg, s, w), ScannedOnce(cfg, s);
      && r.Raised? && r.error == PlanningError && r.state.graph == u.graph && r.state.iteration == s.iteration
      && |r.state.history| == |s.history| && (forall k | 0 <= k < |s.history| - 1 :: r.state.history[k] == s.history[k])
      && Last(r.state).(phase := AtPlanning, failureType := None) == Last(s).(failureType := None)
  {
  }

  lemma FailedPlanningIsResumed(cfg: Config, s: Task, w: World)
    requires PlanningFailed(s)
    ensures Rechecked(s, w) == s && Decide(cfg, s, w).step == StepResume
    ensures ExecuteResume(cfg, s, w) == if w.staleRunner then Raised(s, ResumeError) else FromPlanning(cfg, s.(status := TaskRunning), w)
  {
    assert NeedsContinuation(Last(s));
  }

  lemma ResumedPass(cfg: Config, s: Task, w: World)
    requires !w.budgetExhausted && Rechecked(s, w) == s && Decide(cfg, s, w).step == StepResume
    ensures AutoPass(cfg, s, w) == AfterStep(cfg, ExecuteResume(cfg, s, w), w)
  {
  }

  /** The task with this label on its last attempt, after one more scan. */
  function Relabelled(cfg: Config, s: Task, w: World): Task
    requires s.history != []
  {
    SetLast(ScannedOnce(cfg, s), Last(s).(failureType := Some(ProviderReport(w.providerKind).kind)))
  }

  lemma HandledPlanning(s: Task, u: Task, t: Task, w: World)
    requires s.history != [] && s.status == TaskStopped && u == s.(graph := u.graph) && t.graph == u.graph && t.iteration == s.iteration
    requires |t.history| == |s.history| && forall k | 0 <= k < |s.history| - 1 :: t.history[k] == s.history[k]
    requires Last(t).(phase := AtPlanning, failureType := None) == Last(s).(failureType := None)
    ensures Handled(t, AtPlanning, w) == SetLast(u, Last(s).(failureType := Some(ProviderReport(w.providerKind).kind)))
    ensures Last(t).recoveryRetryCount == Last(s).recoveryRetryCount
  {
    var kind := Some(ProviderReport(w.providerKind).kind);
    assert Last(t).(phase := AtPlanning, failureType := kind) == Last(s).(failureType := kind);
    assert Handled(t, AtPlanning, w).history == SetLast(u, Last(s).(failureType := kind)).history;
  }

  lemma FailedPlanningIsHandled(cfg: Config, s: Task, w: World)
    requires PlanningFailed(s) && NothingToPlan(cfg, s, w)
    ensures var r := FromPlanning(cfg, s.(status := TaskRunning), w);
      AfterStep(cfg, r, w) ==
        if HandlerGoesOn(cfg, Last(s), w) then Continue(Relabelled(cfg, s, w)) else Exit(Relabelled(cfg, s, w))
  {
    PlanningFails(cfg, s.(status := TaskRunning), w);
    var t := FromPlanning(cfg, s.(status := TaskRunning), w).state;
    HandlerIs(cfg, t, AtPlanning, w);
    HandledPlanning(s, ScannedOnce(cfg, s), t, w);
  }

  /**
   * Resuming such an attempt fails again: the pass goes on exactly while the handler survives it,
   * and then only the label, and what one more scan blocks, can be new.
   */
  lemma FailedPlanningGoesOnExactlyWhen(cfg: Config, s: Task, w: World)
    requires PlanningFailed(s) && NothingToPlan(cfg, s, w)
    ensures var p := AutoPass(cfg, s, w);
      && (p.Continue? <==> !w.budgetExhausted && !w.staleRunner && HandlerGoesOn(cfg, Last(s), w))
      && (p.Continue? ==> p.state == Relabelled(cfg, s, w))
  {
    if !w.budgetExhausted {
      FailedPlanningIsResumed(cfg, s, w);
      ResumedPass(cfg, s, w);
      FailedPlanningIsHandled(cfg, s, w);
    }
  }

  lemma RelabelledStaysFailed(cfg: Config, s: Task, w: World)
    requires PlanningFailed(s) && NothingToPlan(cfg, s, w)
    ensures var t := Relabelled(cfg, s, w);
      && PlanningFailed(t) && NothingToPlan(cfg, t, w) && Last(t).recoveryRetryCount == Last(s).recoveryRetryCount
      && MeasureOf(cfg, t) == MeasureOf(cfg, s)
      && (t == s <==> ScannedOnce(cfg, s) == s && Last(s).failureType == Some(ProviderReport(w.providerKind).kind))
  {
    if s.graph.Some? { NothingRunnableStays(s.graph.value, cfg.maxRetries); }
    var t := Relabelled(cfg, s, w);
    assert Last(t) == Last(s).(failureType := Some(ProviderReport(w.providerKind).kind));
    if Last(t) == Last(s) { assert t.history == s.history; }
  }

  /**
   * A graph with nothing to run keeps it that way, so such an attempt never gets a node: each pass
   * that goes on leads to the next, with every counter as it was, and changes nothing at all once
   * scans have blocked what they can and the failure is read as the same kind.
   */
  lemma FailedPlanningRepeats(cfg: Config, s: Task, w: World)
    requires PlanningFailed(s) && NothingToPlan(cfg, s, w) && AutoPass(cfg, s, w).Continue?
    ensures var t := AutoPass(cfg, s, w).state;
      && PlanningFailed(t) && NothingToPlan(cfg, t, w) && Last(t).recoveryRetryCount == Last(s).recoveryRetryCount
      && MeasureOf(cfg, t) == MeasureOf(cfg, s)
      && (t == s <==> ScannedOnce(cfg, s) == s && Last(s).failureType == Some(ProviderReport(w.providerKind).kind))
  {
    FailedPlanningGoesOnExactlyWhen(cfg, s, w);
    RelabelledStaysFailed(cfg, s, w);
  }

  lemma MergedIsDecided(cfg: Config, s: Task, w: World)
    requires Inv(s) && s.status == TaskStopped && s.history != [] && Last(s).phase == AtMerged
    ensures Rechecked(s, w) == s && Decide(cfg, s, w).step == StepRun
  {
    assert AttemptOk(Last(s));
  }

  lemma RunPass(cfg: Config, s: Task, w: World)
    requires s.status == TaskStopped && s.history != [] && Last(s).phase == AtMerged
    requires Rechecked(s, w) == s && Decide(cfg, s, w).step == StepRun
    requires s.iteration < cfg.maxIterations && w.preflightOk && !w.budgetExhausted
    ensures AutoPass(cfg, s, w) == AfterStep(cfg, FromPlanning(cfg, Prepared(s), w), w)
  {
    assert !NeedsContinuation(Last(s));
    assert ExecuteRun(cfg, s, w) == FromPlanning(cfg, Prepared(s), w);
  }

  lemma HandledNewAttempt(cfg: Config, s: Task, t: Task, w: World)
    requires t.history != [] && t.graph == ScannedOnce(cfg, s).graph && s.graph.Some?
    requires Scan(s.graph.value, cfg.maxRetries, 1, {}).picked == []
    requires Last(t).(phase := AtPlanning, failureType := None) == NewAttempt(Last(t).iteration, 0, "").(failureType := None)
    ensures PlanningFailed(Handled(t, AtPlanning, w)) && forall next: World :: NothingToPlan(cfg, Handled(t, AtPlanning, w), next)
  {
    NothingRunnableStays(s.graph.value, cfg.maxRetries);
    assert Last(t).(phase := AtPlanning, failureType := None).nodeId == "";
  }

  /** A merge that leaves nothing to run leads there in one pass. */
  lemma PassReachesNothingToRun(cfg: Config, s: Task, w: World)
    requires Inv(s) && s.status == TaskStopped && s.history != [] && Last(s).phase == AtMerged
    requires s.graph.Some? && Scan(s.graph.value, cfg.maxRetries, 1, {}).picked == []
    requires s.iteration < cfg.maxIterations && w.preflightOk && !w.budgetExhausted
    ensures var p := AutoPass(cfg, s, w);
      && PlanningFailed(p.state) && (forall next: World :: NothingToPlan(cfg, p.state, next))
      && (p.Continue? <==> ProviderReport(w.providerKind).recoverable && cfg.autoRecoverProvider && 0 < cfg.maxRecovery)
  {
    MergedIsDecided(cfg, s, w);
    RunPass(cfg, s, w);
    PlanningFails(cfg, Prepared(s), w);
    var t := FromPlanning(cfg, Prepared(s), w).state;
    HandlerIs(cfg, t, AtPlanning, w);
    assert Last(t).recoveryRetryCount == Last(Prepared(s)).recoveryRetryCount == 0;
    HandledNewAttempt(cfg, s, t, w);
  }

  /** An attempt whose implementer failed or could not be had, as the loop's failure handler leaves it. */
  predicate ImplementerFailed(s: Task) {
    s.status == TaskStopped && s.history != [] && s.graph.Some? &&
    var a := Last(s);
    a.phase == AtExecuting && a.hasPlan && a.exitCode != Some(0) && a.testStatus == NotTested
    && a.decision.None? && a.mergeError.None? && a.failureType == Some(ProviderExitError)
    && a.nodeId != "" && MarkFailed(s.graph.value, a.nodeId) == Some(s.graph.value)
  }

  /** A recorded exit code is not asked for again; without one the implementer is, and is still not to be had. */
  predicate ImplementerFailsAgain(s: Task, w: World) {
    s.history != [] && (Last(s).exitCode.Some? || w.implementer.ImplementerUnavailable?)
  }

  lemma FailureIsResumed(cfg: Config, s: Task, w: World)
    requires ImplementerFailed(s)
    ensures Rechecked(s, w) == s && Decide(cfg, s, w) == Choice(StepResume, None)
  {
  }

  lemma ResumeFailsAgain(cfg: Config, s: Task, w: World)
    requires ImplementerFailed(s) && ImplementerFailsAgain(s, w)
    ensures ExecuteResume(cfg, s, w) ==
      if w.staleRunner then Raised(s, ResumeError) else FailAttempt(s.(status := TaskRunning), ImplementingError)
  {
    assert NeedsContinuation(Last(s));
  }

  lemma FailingAgainChangesNothing(cfg: Config, s: Task, w: World)
    requires ImplementerFailed(s) && ProviderReport(w.providerKind).kind == ProviderExitError
    ensures AfterStep(cfg, FailAttempt(s.(status := TaskRunning), ImplementingError), w) ==
      if cfg.autoRecoverProvider && Last(s).recoveryRetryCount < cfg.maxRecovery then Continue(s) else Exit(s)
  {
    var r := FailAttempt(s.(status := TaskRunning), ImplementingError);
    assert r == Raised(SetLast(s.(status := TaskFailed), Last(s).(phase := AtFailed)), ImplementingError);
    var u := AfterStep(cfg, r, w).state;
    assert Last(u) == Last(s) && u.history == s.history;
  }

  /** Read as another kind of failure, it leaves another label. */
  lemma FailingOtherwiseRelabels(cfg: Config, s: Task, w: World)
    requires ImplementerFailed(s) && ProviderReport(w.providerKind).kind != ProviderExitError
    ensures AfterStep(cfg, FailAttempt(s.(status := TaskRunning), ImplementingError), w).state != s
  {
    var t := AfterStep(cfg, FailAttempt(s.(status := TaskRunning), ImplementingError), w).state;
    assert t.history != [] && Last(t).failureType == Some(ProviderReport(w.providerKind).kind);
  }

  /**
   * Resuming such an attempt fails again at once.  The pass leaves the task as it was, and the loop
   * going on, exactly when the failure is read as the same kind again, providers may be retried and
   * the attempt has recovery budget, which the pass does not spend; the task's budgets and a stale
   * runner can end it from outside.
   */
  lemma FailedImplementerRepeatsExactlyWhen(cfg: Config, s: Task, w: World)
    requires ImplementerFailed(s) && ImplementerFailsAgain(s, w)
    ensures AutoPass(cfg, s, w) == Continue(s) <==>
      && !w.budgetExhausted && !w.staleRunner && ProviderReport(w.providerKind).kind == ProviderExitError
      && cfg.autoRecoverProvider && Last(s).recoveryRetryCount < cfg.maxRecovery
  {
    FailureIsResumed(cfg, s, w);
    ResumeFailsAgain(cfg, s, w);
    if ProviderReport(w.providerKind).kind == ProviderExitError {
      FailingAgainChangesNothing(cfg, s, w);
    } else {
      FailingOtherwiseRelabels(cfg, s, w);
    }
  }

  /** An approved attempt that may be merged comes to such a failure when its merge does. */
  lemma FinalizingReachesMergeFailed(cfg: Config, s: Task, w: World, kind: FailureType)
    requires s.history != [] && Last(s).phase == AtApproved && CanAutoMerge(cfg, s, Last(s), w.changedFiles)
    requires w.merger == MergeFails(kind)
    ensures var r := Finalizing(cfg, s, w); r.Ok? && MergeFailed(cfg, r.state, kind, w.changedFiles)
  {
    var t := Finalizing(cfg, s, w).state;
    assert NodeOf(t, Last(t)) == NodeOf(s, Last(s));
  }

  /** A review that failed, as the handler leaves it; its node is marked FAILED. */
  predicate ReviewFailed(s: Task) {
    s.status == TaskStopped && s.history != [] && s.graph.Some? &&
    var a := Last(s);
    a.phase == AtReviewing && a.exitCode == Some(0) && (a.testStatus == TestsPassed || a.testStatus == TestsSkipped)
    && a.decision.None? && a.mergeError.None? && a.failureType != Some(PatchNotCaptured)
    && a.nodeId != "" && MarkFailed(s.graph.value, a.nodeId) == Some(s.graph.value)
  }

  lemma FailedReviewIsResumed(cfg: Config, s: Task, w: World)
    requires ReviewFailed(s)
    ensures Rechecked(s, w) == s && Decide(cfg, s, w).step == StepResume
    ensures ExecuteResume(cfg, s, w) == if w.staleRunner then Raised(s, ResumeError) else FromReview(cfg, s.(status := TaskRunning), w)
  {
    assert NeedsContinuation(Last(s));
  }

  lemma ReviewFailsAgain(cfg: Config, s: Task, w: World)
    requires ReviewFailed(s) && exists k | 0 <= k < |w.reviewers| :: w.reviewers[k].ReviewerFails?
    ensures var r := FromReview(cfg, s.(status := TaskRunning), w);
      && r.Raised? && r.error == ReviewError && r.state.graph == s.graph && r.state.iteration == s.iteration
      && |r.state.history| == |s.history| && (forall k | 0 <= k < |s.history| - 1 :: r.state.history[k] == s.history[k])
      && Last(r.state).(phase := AtReviewing, failureType := None) == Last(s).(failureType := None)
  {
  }

  /**
   * A reviewer that keeps failing is asked again in every pass, exactly while the handler survives it and
   * labels it alike.
   */
  lemma FailingReviewRepeatsExactlyWhen(cfg: Config, s: Task, w: World)
    requires ReviewFailed(s) && exists k | 0 <= k < |w.reviewers| :: w.reviewers[k].ReviewerFails?
    ensures AutoPass(cfg, s, w) == Continue(s) <==>
      && !w.budgetExhausted && !w.staleRunner && HandlerGoesOn(cfg, Last(s), w)
      && Last(s).failureType == Some(ProviderReport(w.providerKind).kind)
  {
    FailedReviewIsResumed(cfg, s, w);
    if !w.budgetExhausted && !w.staleRunner {
      ReviewFailsAgain(cfg, s, w);
      var u := FromReview(cfg, s.(status := TaskRunning), w).state;
      HandlerIs(cfg, u, AtReviewing, w);
      HandledIsSame(s, u, AtReviewing, w);
      assert Last(u).recoveryRetryCount == Last(s).recoveryRetryCount;
    }
  }
}
