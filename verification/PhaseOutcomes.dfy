/**
 * What the phases and executors of run.py come to, over the fields they read: when each refuses or
 * fails, what is stored then, and which failures the loop survives.
 */
module PhaseOutcomes {
  import opened Option
  import opened TaskGraph
  import opened TaskState
  import opened GraphPatch
  import opened AutoLoop
  import opened MergeGate
  import opened ScanOutcome
  import opened Blocking

  // ---------------------------------------------------------------- refusals

  /** The attempt has phases to go. */
  predicate Unfinished(a: Attempt) {
    || a.phase == AtApproved
    || (a.phase != AtMerged && a.phase != AtFailed && a.phase != AtRejected
        && (if a.exitCode == Some(0) then a.testStatus == NotTested || a.decision.None?
            else || (a.hasPlan && a.exitCode.None?)
                 || (!a.hasPlan && (a.phase == AtPlanning || a.phase == AtWorktree || a.phase == AtPreflight))
                 || a.phase == AtExecuting || a.phase == AtTesting || a.phase == AtReviewing))
  }

  /** A run is refused exactly on these states and inputs; otherwise a new iteration with a new attempt begins. */
  lemma RunIsRefusedExactlyWhen(cfg: Config, s: Task, w: World)
    ensures ExecuteRun(cfg, s, w) == Raised(s, RunError) <==>
      || (s.status != TaskInitialized && s.status != TaskStopped)
      || (s.status == TaskStopped && s.history != [] && Unfinished(Last(s)))
      || s.iteration >= cfg.maxIterations || !w.preflightOk
  {
  }

  /** The outcome is no refusal to resume. */
  predicate NoResumeError(r: Outcome) {
    r.Raised? ==> r.error == PlanningError || r.error == ImplementingError || r.error == ReviewError || r.error == RunError || r.error == Crash
  }

  /** Nothing but `execute_resume` itself raises its error. */
  lemma FinalizingRaisesOthers(cfg: Config, s: Task, w: World)
    requires s.history != []
    ensures NoResumeError(Finalizing(cfg, s, w))
  {
  }

  lemma ReviewRaisesOthers(cfg: Config, s: Task, w: World)
    requires s.history != []
    ensures NoResumeError(FromReview(cfg, s, w))
  {
    var r := Reviewing(s, w);
    assert NoResumeError(r);
    if r.Ok? { FinalizingRaisesOthers(cfg, r.state, w); }
  }

  lemma TestsRaiseOthers(cfg: Config, s: Task, w: World)
    requires s.history != []
    ensures NoResumeError(FromTests(cfg, s, w))
  {
    ReviewRaisesOthers(cfg, Testing(cfg, s, w), w);
  }

  lemma ImplementersRaiseOthers(cfg: Config, s: Task, w: World)
    requires s.history != []
    ensures NoResumeError(FromImplementer(cfg, s, w))
  {
    var r := Implementing(s, w);
    assert NoResumeError(r);
    if r.Ok? { TestsRaiseOthers(cfg, r.state, w); }
  }

  lemma PlannersRaiseOthers(cfg: Config, s: Task, w: World)
    requires s.history != []
    ensures NoResumeError(FromPlanning(cfg, s, w))
  {
    var r := Planning(cfg, s, w);
    PlanningRaisesOthers(cfg, s, w);
    if r.Ok? { ImplementersRaiseOthers(cfg, r.state, w); }
  }

  lemma PlanningRaisesOthers(cfg: Config, s: Task, w: World)
    requires s.history != []
    ensures NoResumeError(Planning(cfg, s, w))
  {
  }

  lemma RestartingRaisesOthers(cfg: Config, s: Task, start: Phase, w: World)
    requires s.history != []
    ensures NoResumeError(RunFrom(cfg, s, start, w))
  {
    match start
    case AtPreflight => PlannersRaiseOthers(cfg, s, w);
    case AtPlanning => PlannersRaiseOthers(cfg, s, w);
    case AtWorktree => ImplementersRaiseOthers(cfg, s, w);
    case AtExecuting => ImplementersRaiseOthers(cfg, s, w);
    case AtTesting => TestsRaiseOthers(cfg, s, w);
    case AtReviewing => ReviewRaisesOthers(cfg, s, w);
    case AtApproved => FinalizingRaisesOthers(cfg, s, w);
    case _ =>
  }

  lemma ContinuingRaisesOthers(cfg: Config, s: Task, w: World)
    requires s.history != []
    ensures NoResumeError(ContinueAttempt(cfg, s, w))
  {
    TestsRaiseOthers(cfg, Reconciled(s).(status := TaskRunning), w);
    RestartingRaisesOthers(cfg, s.(status := TaskRunning), Last(s).phase, w);
  }

  /** A resume is refused exactly on these states and inputs. */
  lemma ResumeIsRefusedExactlyWhen(cfg: Config, s: Task, w: World)
    ensures ExecuteResume(cfg, s, w) == Raised(s, ResumeError) <==>
      || (s.status != TaskStopped && s.status != TaskInterrupted && s.status != TaskRunning)
      || s.history == []
      || (w.staleRunner && Last(s).phase in {AtExecuting, AtPlanning, AtReviewing, AtTesting})
      || (Last(s).phase == AtRejected && (Last(s).retry >= cfg.maxRetries || !w.preflightOk))
      || (Last(s).phase != AtRejected && !Unfinished(Last(s)))
  {
    if s.history != [] {
      if Last(s).phase == AtRejected {
        PlannersRaiseOthers(cfg, Retried(s), w);
      } else if Last(s).phase == AtApproved {
        FinalizingRaisesOthers(cfg, s, w);
      } else {
        ContinuingRaisesOthers(cfg, s, w);
      }
    }
  }

  // ---------------------------------------------------------------- new attempts

  /** Nothing is stored on the attempt yet. */
  predicate Blank(a: Attempt) {
    && a.phase == AtPlanning && !a.hasPlan && a.finalStep && a.exitCode.None? && a.testStatus == NotTested && a.reviews == []
    && a.decision.None? && a.mergeError.None? && a.failureType.None? && a.recoveryRetryCount == 0 && a.mergeRetryCount == 0
  }

  /**
   * A run starts a blank attempt of the next iteration without a node, a retry one of the same iteration
   * and node with the next number.
   */
  lemma NewAttemptsAreBlank(s: Task)
    ensures var a := Last(Prepared(s)); Blank(a) && a.iteration == s.iteration + 1 && a.retry == 0 && a.nodeId == ""
    ensures Prepared(s).history[..|s.history|] == s.history && |Prepared(s).history| == |s.history| + 1 && Prepared(s).graph == s.graph
    ensures s.history != [] ==>
      var a, b := Last(s), Last(Retried(s)); Blank(b) && b.iteration == a.iteration && b.retry == a.retry + 1 && b.nodeId == a.nodeId
    ensures s.history != [] ==>
      Retried(s).history[..|s.history|] == s.history && |Retried(s).history| == |s.history| + 1 && Retried(s).graph == s.graph
  {
  }

  // ---------------------------------------------------------------- provider failures

  /** The label of a provider's failure. */
  function ProviderLabel(kind: FailureType): FailureType {
    if kind == ProviderParseError || kind == ProviderInterrupted || kind == ProviderHung || kind == ProviderTimeout then kind
    else ProviderExitError
  }

  /** Where the loop puts an attempt whose phase has raised. */
  function PhaseOf(e: Error): Option<Phase> {
    if e == PlanningError then Some(AtPlanning) else if e == ImplementingError then Some(AtExecuting)
    else if e == ReviewError then Some(AtReviewing) else None
  }

  /**
   * The loop goes on after a step exactly where the step came through, or planner, implementer or
   * reviewer failed, not by an answer that could not be read, and provider recovery is on with budget
   * left.
   */
  lemma LoopSurvivesExactlyWhen(cfg: Config, r: Outcome, w: World)
    ensures AfterStep(cfg, r, w).Continue? <==>
      r.Ok? ||
      (PhaseOf(r.error).Some? && r.state.history != [] && w.providerKind != ProviderParseError
       && cfg.autoRecoverProvider && Last(r.state).recoveryRetryCount < cfg.maxRecovery)
  {
    if r.Raised? && PhaseOf(r.error).Some? { FailureIsHandled(cfg, r.state, PhaseOf(r.error).value, w); }
  }

  lemma FailureIsHandled(cfg: Config, s: Task, phase: Phase, w: World)
    ensures HandleFailure(cfg, s, phase, w).Continue? <==>
      s.history != [] && w.providerKind != ProviderParseError
      && cfg.autoRecoverProvider && Last(s).recoveryRetryCount < cfg.maxRecovery
  {
  }

  /**
   * Such a failure stops the task, names itself on the attempt and puts it back where it can be resumed;
   * any other outcome stands as it is.
   */
  lemma FailureIsLabelled(cfg: Config, r: Outcome, w: World)
    ensures var t := AfterStep(cfg, r, w).state;
      if r.Raised? && PhaseOf(r.error).Some? && r.state.history != [] then
        t == SetLast(r.state.(status := TaskStopped),
          Last(r.state).(phase := PhaseOf(r.error).value, failureType := Some(ProviderLabel(w.providerKind))))
      else t == r.state
  {
  }

  // ---------------------------------------------------------------- phases

  /** A phase that raises marks its attempt and the attempt's node as failed, and the task. */
  lemma FailingIsMarked(s: Task, e: Error, i: nat)
    requires s.history != [] && OwnNode(s, Last(s), i)
    ensures var r := FailAttempt(s, e);
      && r.Raised? && r.error == e && r.state.status == TaskFailed && Last(r.state) == Last(s).(phase := AtFailed)
      && r.state.graph == Some(s.graph.value[i := s.graph.value[i].(status := Failed)])
  {
    assert FirstIndex(s.graph.value, Last(s).nodeId) == Some(i);
  }

  /**
   * Where the attempt has no node only attempt and task are marked; a node that is not in the graph stops
   * it before anything is.
   */
  lemma FailingWithoutNode(s: Task, e: Error)
    requires s.history != [] && !HasNode(s, Last(s))
    ensures FailAttempt(s, e) ==
      if s.graph.Some? && Last(s).nodeId != "" then Raised(s, Crash)
      else Raised(SetLast(s.(status := TaskFailed), Last(s).(phase := AtFailed)), e)
  {
    NodeIsOwn(s, Last(s));
  }

  /** What the implementer's answer leaves on an attempt it has not run on. */
  lemma ImplementerOutcome(s: Task, w: World)
    requires s.history != [] && Last(s).exitCode.None? && Last(s).hasPlan && w.implementer.Implemented?
    ensures var i, r, a, b := w.implementer, Implementing(s, w), Last(s), Last(Implementing(s, w).state);
      && (r.Ok? <==> i.exitCode == 0 && !i.abnormal) && (r.Raised? ==> r.error == ImplementingError || r.error == Crash)
      && b.exitCode == Some(i.exitCode) && (r.Ok? ==> b.phase == AtExecuting)
      && b.failureType == (
           if i.exitCode != 0 || i.abnormal then Some(ProviderLabel(i.failure))
           else if i.uncaptured then Some(PatchNotCaptured)
           else if a.failureType == Some(PatchNotCaptured) then None else a.failureType)
  {
  }

  /** A good exit is not asked for again, a bad one fails again, and without a plan the implementer is not run. */
  lemma ImplementerRunsOnce(s: Task, w: World)
    requires s.history != []
    ensures Last(s).exitCode == Some(0) ==> Implementing(s, w) == Ok(s)
    ensures Last(s).exitCode != Some(0) && (Last(s).exitCode.Some? || !Last(s).hasPlan) ==>
      var r := Implementing(s, w); r.Raised? && (r.error == ImplementingError || r.error == Crash) && Last(r.state).exitCode == Last(s).exitCode
  {
  }

  /** The same where a repair has run it: there a failing implementer's label is left to the loop. */
  lemma RepairRunOutcome(s: Task, w: World)
    requires s.history != [] && w.implementer.Implemented?
    ensures var i, r, a, b := w.implementer, RepairRun(s, w), Last(s), Last(RepairRun(s, w).state);
      && (r.Ok? <==> i.exitCode == 0 && !i.abnormal) && (r.Raised? ==> r.error == ImplementingError || r.error == Crash)
      && b.exitCode == Some(i.exitCode) && b.testStatus == a.testStatus && b.decision == a.decision
      && b.failureType == (
           if i.exitCode == 0 && i.uncaptured then Some(PatchNotCaptured)
           else if a.failureType == Some(PatchNotCaptured) && !i.uncaptured then None else a.failureType)
  {
  }

  /** The first reviewer that fails ends the chain: what is stored is its label, and no decision. */
  lemma FailingReviewerOutcome(s: Task, w: World, k: nat)
    requires s.history != [] && Last(s).decision.None? && k < |w.reviewers| && w.reviewers[k].ReviewerFails?
    requires forall j | 0 <= j < k :: w.reviewers[j].Reviewed?
    ensures var r, a, b, stored := Reviewing(s, w), Last(s), Last(Reviewing(s, w).state), w.reviewers[k].stored;
      && r.Raised? && (r.error == ReviewError || r.error == Crash) && b.decision.None? && b.reviews == a.reviews
      && b.failureType == (if stored.Some? then Some(ProviderLabel(stored.value)) else a.failureType)
  {
    FirstFailureAt(w.reviewers, k);
  }

  lemma {:induction false} FirstFailureAt(rs: seq<Reviewer>, k: nat)
    requires k < |rs| && rs[k].ReviewerFails? && forall j | 0 <= j < k :: rs[j].Reviewed?
    ensures FirstFailure(rs) == rs[k].stored
  {
    if k > 0 { FirstFailureAt(rs[1..], k - 1); }
  }

  /**
   * A chain that is heard to the end decides by its gravest word: stop, replan, reject, approve; only
   * approval takes a label off.
   */
  lemma ReviewOutcome(s: Task, w: World)
    requires s.history != [] && Last(s).decision.None? && w.reviewers != []
    requires forall k | 0 <= k < |w.reviewers| :: w.reviewers[k].Reviewed?
    ensures var r, a, b, says := Reviewing(s, w), Last(s), Last(Reviewing(s, w).state), (d: Decision) => Reviewed(d) in w.reviewers;
      && r.Ok? && |b.reviews| == |w.reviewers| && (forall k | 0 <= k < |b.reviews| :: w.reviewers[k] == Reviewed(b.reviews[k]))
      && b.decision == Some(if says(Stop) then Stop else if says(Replan) then Replan else if says(Reject) then Reject else Approve)
      && b.phase == (if b.decision == Some(Approve) then AtApproved else AtRejected)
      && b.failureType == (if b.decision == Some(Approve) then None else a.failureType)
      && r.state.status == s.status && r.state.graph == s.graph
  {
    var ds := Decisions(w.reviewers);
    forall d: Decision ensures d in ds <==> Reviewed(d) in w.reviewers {
      if d in ds {
        var k :| 0 <= k < |ds| && ds[k] == d;
        assert w.reviewers[k] == Reviewed(d);
      }
      if Reviewed(d) in w.reviewers {
        var k :| 0 <= k < |w.reviewers| && w.reviewers[k] == Reviewed(d);
        assert ds[k] == d;
      }
    }
    GravestWord(ds);
  }

  lemma GravestWord(ds: seq<Decision>)
    requires ds != []
    ensures Aggregate(ds) == if Stop in ds then Stop else if Replan in ds then Replan else if Reject in ds then Reject else Approve
  {
    assert ds[|ds| - 1] in ds;
  }

  /** What finalizing makes of an attempt that it does not merge. */
  lemma UnmergedOutcome(cfg: Config, s: Task, w: World)
    requires s.history != [] && (Last(s).decision == Some(Approve) ==> !(MayMerge(cfg, s, Last(s), w.changedFiles) && w.merger.Merges?))
    requires Last(s).decision.Some? && (Last(s).decision == Some(Reject) && Last(s).nodeId != "" && s.graph.Some? ==> HasNode(s, Last(s)))
    ensures var r, a, b := Finalizing(cfg, s, w), Last(s), Last(Finalizing(cfg, s, w).state);
      && r.Ok? && r.state.status == TaskStopped
      && b == a.(mergeError := b.mergeError, failureType := b.failureType)
      && (a.decision != Some(Approve) ==> b == a)
      && (a.decision != Some(Reject) ==> r.state.graph == s.graph)
      && (a.decision == Some(Reject) ==> forall i: nat | OwnNode(s, a, i) ::
            var n := s.graph.value[i]; r.state.graph == Some(s.graph.value[i := n.(status := Rejected, retryCount := n.retryCount + 1)]))
      && (a.decision == Some(Approve) && MayMerge(cfg, s, a, w.changedFiles) ==>
            b.mergeError == Some(w.merger.kind) && b.failureType == Some(w.merger.kind))
      && (a.decision == Some(Approve) && !MayMerge(cfg, s, a, w.changedFiles) ==>
            b.mergeError == a.mergeError && b.failureType ==
              if a.testStatus == TestsFailed || a.testStatus == TestsTimedOut || (a.testStatus == TestsSkipped && !MayGoUntested(cfg, s, a))
              then Some(TestGateBlocked) else a.failureType)
  {
    CanAutoMergeExactlyWhen(cfg, s, Last(s), w.changedFiles);
    BlockedByTestsExactlyWhen(cfg, s, Last(s));
    NodeIsOwn(s, Last(s));
  }

  /**
   * ... and of one that it merges: its node has PASSED and lists the iteration once, and the task is DONE
   * exactly when every node is PASSED or SKIPPED.
   */
  lemma MergedOutcome(cfg: Config, s: Task, w: World, i: nat)
    requires s.history != [] && MayMerge(cfg, s, Last(s), w.changedFiles) && w.merger.Merges? && OwnNode(s, Last(s), i)
    ensures var r, a, b := Finalizing(cfg, s, w), Last(s), Last(Finalizing(cfg, s, w).state);
      && r.Ok? && b == a.(phase := AtMerged, mergeError := None, failureType := None)
      && r.state.graph.Some? && |r.state.graph.value| == |s.graph.value|
      && var n, m := s.graph.value[i], r.state.graph.value[i];
      && m == n.(status := Passed, attemptIterations :=
           if a.iteration in n.attemptIterations then n.attemptIterations else n.attemptIterations + [a.iteration])
      && (forall j | 0 <= j < |s.graph.value| && j != i :: r.state.graph.value[j] == s.graph.value[j])
      && (r.state.status == TaskDone <==> forall j | 0 <= j < |s.graph.value| && j != i ::
            s.graph.value[j].status == Passed || s.graph.value[j].status == Skipped)
      && (r.state.status != TaskDone ==> r.state.status == TaskStopped)
  {
    CanAutoMergeExactlyWhen(cfg, s, Last(s), w.changedFiles);
    assert FirstIndex(s.graph.value, Last(s).nodeId) == Some(i);
  }

  /** Without a graph the task is DONE with the final step of its plan, or without a plan. */
  lemma MergedOutcomeWithoutGraph(cfg: Config, s: Task, w: World)
    requires s.history != [] && MayMerge(cfg, s, Last(s), w.changedFiles) && w.merger.Merges? && s.graph.None?
    ensures var r, a := Finalizing(cfg, s, w), Last(s);
      && r.Ok? && Last(r.state) == a.(phase := AtMerged, mergeError := None, failureType := None) && r.state.graph.None?
      && (r.state.status == TaskDone <==> !a.hasPlan || a.finalStep) && (r.state.status != TaskDone ==> r.state.status == TaskStopped)
  {
    CanAutoMergeExactlyWhen(cfg, s, Last(s), w.changedFiles);
  }

  // ---------------------------------------------------------------- setting up

  /** An attempt without a node gets the first node that may start, and starts it. */
  lemma SetupTakesFirst(cfg: Config, s: Task, w: World, k: nat)
    requires s.history != [] && s.graph.Some? && Last(s).nodeId == "" && UniqueIds(s.graph.value)
    requires MayStart(s.graph.value, k, cfg.maxRetries) && s.graph.value[k].id != ""
    requires forall j: nat | j < k :: !MayStart(s.graph.value, j, cfg.maxRetries)
    ensures var r, n, b := SetupNode(cfg, s, w), s.graph.value[k], Last(SetupNode(cfg, s, w).state);
      && r.Ok? == w.worktreeAdded && (r.Raised? ==> r.error == PlanningError)
      && b == Last(s).(nodeId := n.id, hasPlan := true, finalStep := Last(s).hasPlan && Last(s).finalStep,
           phase := if w.worktreeAdded then AtWorktree else AtFailed)
      && r.state.graph.Some? && |r.state.graph.value| == |s.graph.value|
      && r.state.graph.value[k] == n.(status := if w.worktreeAdded then Running else Failed)
  {
    var ns := s.graph.value;
    var scan := Scan(ns, cfg.maxRetries, 1, {});
    ScanBlocksOnlyBlamed(ns, cfg.maxRetries, 1, {});
    FirstIsPicked(ns, cfg.maxRetries, k);
    PickedIsRunnable(ns, cfg.maxRetries, 1, {}, k);
    SameIds(ns, scan.nodes);
    StartTakes(s.(graph := Some(scan.nodes)), k, w);
  }

  lemma FirstIsPicked(ns: seq<Node>, maxRetries: int, k: nat)
    requires MayStart(ns, k, maxRetries) && forall j: nat | j < k :: !MayStart(ns, j, maxRetries)
    ensures Scan(ns, maxRetries, 1, {}).picked != [] && Scan(ns, maxRetries, 1, {}).picked[0] == k
  {
    ScanSelectsExactly(ns, maxRetries, 1, {});
    var picked := Scan(ns, maxRetries, 1, {}).picked;
    assert k in picked || forall j | j in picked :: j < k;
    if picked != [] { assert picked[0] in picked; }
  }

  lemma StartTakes(s: Task, k: nat, w: World)
    requires s.history != [] && s.graph.Some? && UniqueIds(s.graph.value) && k < |s.graph.value| && s.graph.value[k].id != ""
    ensures var r, n, b := StartNode(s, s.graph.value[k].id, w), s.graph.value[k], Last(StartNode(s, s.graph.value[k].id, w).state);
      && r.Ok? == w.worktreeAdded && (r.Raised? ==> r.error == PlanningError)
      && b == Last(s).(nodeId := n.id, hasPlan := true, finalStep := Last(s).hasPlan && Last(s).finalStep,
           phase := if w.worktreeAdded then AtWorktree else AtFailed)
      && r.state.graph.Some? && |r.state.graph.value| == |s.graph.value|
      && r.state.graph.value[k] == n.(status := if w.worktreeAdded then Running else Failed)
  {
    var g, id := s.graph.value, s.graph.value[k].id;
    assert FirstIndex(g, id) == Some(k);
    var h := g[k := g[k].(status := Running)];
    SameFirstIndex(h, g, id);
    assert MarkRunning(g, id) == Some(h);
  }

  /** Where no node may start, planning fails and the attempt has none. */
  lemma SetupFindsNone(cfg: Config, s: Task, w: World)
    requires s.history != [] && s.graph.Some? && Last(s).nodeId == ""
    requires forall k: nat :: !MayStart(s.graph.value, k, cfg.maxRetries)
    ensures var r := SetupNode(cfg, s, w);
      r.Raised? && r.error == PlanningError && Last(r.state) == Last(s).(phase := AtFailed) && r.state.status == TaskFailed
  {
    NoneIsPicked(s.graph.value, cfg.maxRetries);
  }

  lemma NoneIsPicked(ns: seq<Node>, maxRetries: int)
    requires forall k: nat :: !MayStart(ns, k, maxRetries)
    ensures Scan(ns, maxRetries, 1, {}).picked == []
  {
    ScanSelectsExactly(ns, maxRetries, 1, {});
    HasMembers(Scan(ns, maxRetries, 1, {}).picked);
  }

  lemma HasMembers(s: seq<nat>)
    ensures s == [] || s[0] in s
  {
  }

  // ---------------------------------------------------------------- a new plan

  /**
   * A planned node that waits: no trace of an earlier life, and PENDING unless a dependency is unknown or
   * it leads to such a node.
   */
  ghost predicate PlannedAs(plan: seq<Node>, k: nat, n: Node) {
    && k < |plan| && n == plan[k].(status := n.status, attemptIterations := [], retryCount := 0)
    && (n.status == Pending || n.status == Blocked)
    && (Dangles(plan, k) ==> n.status == Blocked)
    && ((forall i: nat | i < |plan| :: !Dangles(plan, i)) ==> n.status == Pending)
  }

  lemma PlannedNodesWait(plan: seq<Node>)
    ensures |PlannedGraph(plan)| == |plan| && forall k: nat | k < |plan| :: PlannedAs(plan, k, PlannedGraph(plan)[k])
  {
    var p := PlannedNodes(plan);
    var b := BlockInvalid(p);
    forall k: nat | k < |plan| ensures Dangles(plan, k) <==> HasUnknownDependency(p, p[k]) {
      DanglesIsUnknown(plan, k);
      SameUnknown(plan, p, p[k]);
    }
    ScanBlocksOnlyBlamed(b, 2, 1, {});
    if forall i: nat | i < |plan| :: !Dangles(plan, i) {
      assert b == p;
      forall k: nat | k < |p| ensures !Dangles(p, k) { DanglesIsUnknown(p, k); }
      NobodyToBlame(p);
    }
  }

  lemma NobodyToBlame(ns: seq<Node>)
    requires forall k: nat | k < |ns| :: ns[k].status == Pending && !Dangles(ns, k)
    ensures forall k: nat :: !Blamed(ns, k)
  {
    assert forall p :: !Blame(ns, p);
  }

  /** In the order of the list nodes use only earlier ones, and each waits for some dependency. */
  ghost predicate AllWait(ns: seq<Node>) {
    (forall i: nat, j: nat | Uses(ns, i, j) :: j < i) && forall k | 0 <= k < |ns| :: ns[k].dependencies != []
  }

  /** A plan in order in which every node waits for another is blocked as a whole. */
  lemma WaitingPlanIsBlocked(plan: seq<Node>)
    requires AllWait(plan)
    ensures |PlannedGraph(plan)| == |plan|
    ensures forall k | 0 <= k < |plan| ::
      PlannedGraph(plan)[k] == plan[k].(status := Blocked, attemptIterations := [], retryCount := 0)
  {
    var b := BlockInvalid(PlannedNodes(plan));
    SameUses(plan, b);
    NobodyStarts(b, 2);
    NoneIsPicked(b, 2);
    ScanBlocksExactlyBlamed(b, 2, 1);
    forall k: nat | k < |b| ensures b[k].status == Blocked || Blamed(b, k) { WaitingIsBlamed(plan, b, k); }
  }

  /** Planning with it fails. */
  lemma WaitingPlanFails(cfg: Config, s: Task, w: World)
    requires s.history != [] && Last(s).nodeId == "" && w.worktreeAdded && w.planner.Plan? && AllWait(w.planner.nodes)
    ensures PlanGraph(cfg, s, w).Raised? && PlanGraph(cfg, s, w).error == PlanningError
  {
    WaitingPlanHasNoStart(w.planner.nodes, cfg.maxRetries);
  }

  lemma WaitingPlanHasNoStart(plan: seq<Node>, maxRetries: int)
    requires AllWait(plan)
    ensures Scan(PlannedGraph(plan), maxRetries, 1, {}).picked == []
  {
    WaitingPlanIsBlocked(plan);
    NobodyStarts(PlannedGraph(plan), maxRetries);
    NoneIsPicked(PlannedGraph(plan), maxRetries);
  }

  /** Names and dependencies, and so who uses whom, are those of the plan. */
  lemma SameUses(plan: seq<Node>, b: seq<Node>)
    requires |b| == |plan| && forall k | 0 <= k < |b| :: b[k].id == plan[k].id && b[k].dependencies == plan[k].dependencies
    ensures forall i: nat, j: nat :: Uses(b, i, j) <==> Uses(plan, i, j)
    ensures forall i: nat :: Dangles(b, i) <==> Dangles(plan, i)
  {
    forall d, j: nat ensures Named(b, d, j) <==> Named(plan, d, j) {}
    forall d ensures Known(b, d) <==> Known(plan, d) {
      if Known(plan, d) { var m :| 0 <= m < |plan| && plan[m].id == d; assert b[m].id == d; }
      if Known(b, d) { var m :| 0 <= m < |b| && b[m].id == d; assert plan[m].id == d; }
    }
  }

  lemma NobodyStarts(ns: seq<Node>, maxRetries: int)
    requires forall k | 0 <= k < |ns| :: ns[k].dependencies != [] && ns[k].status != Passed
    ensures forall k: nat :: !MayStart(ns, k, maxRetries)
  {
    forall k: nat ensures !MayStart(ns, k, maxRetries) {
      if k < |ns| { assert ns[k].dependencies[0] in ns[k].dependencies; }
    }
  }

  /** In order, whoever waits leads to somebody who waits for nobody known. */
  lemma {:induction false} WaitingIsBlamed(plan: seq<Node>, b: seq<Node>, k: nat)
    requires b == BlockInvalid(PlannedNodes(plan)) && k < |b| && AllWait(b)
    ensures b[k].status == Blocked || Blamed(b, k)
    decreases k
  {
    var p := PlannedNodes(plan);
    SameUnknown(p, b, p[k]);
    DanglesIsUnknown(b, k);
    if !Dangles(b, k) {
      var d := b[k].dependencies[0];
      assert d in b[k].dependencies;
      NamedIsLast(b, d);
      var j := LastIndex(b, d).value;
      assert Uses(b, k, j);
      WaitingIsBlamed(plan, b, j);
      BlamedThrough(b, k, j);
    }
  }

  lemma BlamedThrough(ns: seq<Node>, i: nat, j: nat)
    requires i < |ns| && j < |ns| && ns[i].status == Pending && Uses(ns, i, j) && (ns[j].status == Blocked || Blamed(ns, j))
    ensures Blamed(ns, i)
  {
    UsesIsDependsOn(ns, i, j);
    BlamedIsDoomed(ns, i);
    BlamedIsDoomed(ns, j);
    DoomedByDependency(ns, i, j);
  }

  /** The first node of a plan that may start is started, and the attempt is given it. */
  lemma PlanTakesFirst(cfg: Config, s: Task, w: World, k: nat)
    requires s.history != [] && w.worktreeAdded && w.planner.Plan? && UniqueIds(w.planner.nodes) && k < |w.planner.nodes|
    requires MayStart(PlannedGraph(w.planner.nodes), k, cfg.maxRetries)
    requires forall j: nat | j < k :: !MayStart(PlannedGraph(w.planner.nodes), j, cfg.maxRetries)
    ensures var r, id, b := PlanGraph(cfg, s, w), w.planner.nodes[k].id, Last(PlanGraph(cfg, s, w).state);
      && r.Ok? && b == Last(s).(nodeId := id, hasPlan := true, finalStep := w.planner.finalStep, failureType := None, phase := AtWorktree)
      && r.state.graph.Some? && |r.state.graph.value| == |w.planner.nodes|
      && r.state.graph.value[k] == w.planner.nodes[k].(status := Running, attemptIterations := [], retryCount := 0)
  {
    var plan := w.planner.nodes;
    var g := PlannedGraph(plan);
    PlannedNodesWait(plan);
    assert PlannedAs(plan, k, g[k]);
    var scan := Scan(g, cfg.maxRetries, 1, {});
    ScanBlocksOnlyBlamed(g, cfg.maxRetries, 1, {});
    FirstIsPicked(g, cfg.maxRetries, k);
    PickedIsRunnable(g, cfg.maxRetries, 1, {}, k);
    SamePlanNames(plan, scan.nodes, k);
  }

  lemma SamePlanNames(plan: seq<Node>, ns: seq<Node>, k: nat)
    requires UniqueIds(plan) && |ns| == |plan| && k < |plan| && forall i: nat | i < |plan| :: ns[i].id == plan[i].id
    ensures FirstIndex(ns, plan[k].id) == Some(k)
  {
    SameFirstIndex(plan, ns, plan[k].id);
    assert FirstIndex(plan, plan[k].id) == Some(k);
  }

  /** Planning needs a worktree, unless the attempt has its plan and is past planning. */
  lemma PlanningNeedsAWorktree(cfg: Config, s: Task, w: World)
    requires s.history != [] && !w.worktreeAdded
    ensures Planning(cfg, s, w).Ok? <==>
      Last(s).hasPlan && Last(s).phase != AtPlanning && Last(s).phase != AtPreflight && Last(s).phase != AtWorktree
  {
  }

  // ---------------------------------------------------------------- repair, replan, recheck

  /**
   * A repair that is not refused and finds nothing captured runs the implementer anew: where it cannot
   * be run at all the attempt is left with the report's label and with nothing an earlier run, test,
   * review or merge had stored.
   */
  lemma RepairForgets(cfg: Config, s: Task, report: Report, w: World)
    requires s.history != [] && w.implementer.ImplementerUnavailable? && !w.capturedBeforeStep
    requires !(Last(s).phase == AtApproved && Last(s).decision == Some(Approve) && report.kind != MergeConflict)
    ensures var r, a, b := ExecuteRepair(cfg, s, report, w), Last(s), Last(ExecuteRepair(cfg, s, report, w).state);
      && r.Raised? && r.error == Crash && r.state.status == TaskRunning && r.state.graph == s.graph
      && b == a.(phase := AtExecuting, failureType := Some(report.kind), exitCode := None, testStatus := NotTested,
           decision := None, reviews := [], mergeError := None)
  {
  }

  /** Of an approved attempt nothing but a merge conflict is repaired. */
  lemma RepairIsRefused(cfg: Config, s: Task, report: Report, w: World)
    requires s.history != [] && Last(s).phase == AtApproved && Last(s).decision == Some(Approve) && report.kind != MergeConflict
    ensures ExecuteRepair(cfg, s, report, w) == Raised(s, RunError)
  {
  }

  /** A repair whose patch is again not captured stops there; any other goes on to its tests. */
  lemma UncapturedRepairStops(cfg: Config, s: Task, report: Report, w: World)
    requires s.history != [] && w.implementer.Implemented? && w.implementer.exitCode == 0 && !w.implementer.abnormal
    requires !(Last(s).phase == AtApproved && Last(s).decision == Some(Approve) && report.kind != MergeConflict) && !w.capturedBeforeStep
    ensures var r := ExecuteRepair(cfg, s, report, w);
      report.kind == PatchNotCaptured && w.implementer.uncaptured && !w.capturedAfterRepair <==>
        r.Ok? && Last(r.state).testStatus == NotTested
  {
    var t := SetLast(s.(status := TaskRunning), ResetForRepair(Last(s), report));
    var r := RepairRun(t, w);
    assert r.Ok? && Last(r.state).testStatus == NotTested;
    TestsLeaveAStatus(cfg, r.state, w);
    TestsLeaveAStatus(cfg, SetLast(r.state, Last(r.state).(failureType := None)), w);
  }

  /** Where the patch turns out captured after a repair, the label for it is gone: a rejected attempt keeps none. */
  lemma CapturedRepairIsUnlabelled(cfg: Config, s: Task, w: World)
    requires s.history != [] && w.capturedAfterRepair && !w.capturedBeforeStep && w.reviewers == [Reviewed(Reject)]
    requires !(Last(s).phase == AtApproved && Last(s).decision == Some(Approve))
    requires w.implementer.Implemented? && w.implementer.exitCode == 0 && !w.implementer.abnormal
    ensures var b := Last(ExecuteRepair(cfg, s, Report(PatchNotCaptured, true), w).state);
      b.decision == Some(Reject) && b.phase == AtRejected && b.failureType.None?
  {
    var t := SetLast(s.(status := TaskRunning), ResetForRepair(Last(s), Report(PatchNotCaptured, true)));
    var r := RepairRun(t, w);
    RepairRunOutcome(t, w);
    var u := Testing(cfg, SetLast(r.state, Last(r.state).(failureType := None)), w);
    ReviewOutcome(u, w);
    RejectedStays(cfg, Reviewing(u, w).state, w);
  }

  lemma RejectedStays(cfg: Config, s: Task, w: World)
    requires s.history != [] && Last(s).decision == Some(Reject)
    ensures Last(Finalizing(cfg, s, w).state) == Last(s)
  {
  }

  /**
   * Resuming an attempt whose patch was not captured goes on with its tests where it now is, and stops
   * again where it is not and the implementer had come through.
   */
  lemma ResumedCapture(cfg: Config, s: Task, w: World)
    requires s.history != [] && Last(s).failureType == Some(PatchNotCaptured)
    ensures w.capturedBeforeStep ==>
      var b := Last(ContinueAttempt(cfg, s, w).state); b.testStatus != NotTested && b.exitCode.Some?
    ensures !w.capturedBeforeStep && Last(s).phase == AtExecuting && Last(s).exitCode == Some(0) ==>
      ContinueAttempt(cfg, s, w) == Ok(s.(status := TaskStopped))
  {
    if w.capturedBeforeStep {
      TestsLeaveAStatus(cfg, Reconciled(s).(status := TaskRunning), w);
    } else if Last(s).phase == AtExecuting && Last(s).exitCode == Some(0) {
      ImplementerRunsOnce(s.(status := TaskRunning), w);
    }
  }

  predicate SameTests(a: Attempt, b: Attempt) {
    b.exitCode == a.exitCode && b.testStatus == a.testStatus
  }

  lemma FailLeavesTests(s: Task, e: Error)
    requires s.history != []
    ensures SameTests(Last(s), Last(FailAttempt(s, e).state))
  {
  }

  lemma FinalizingLeavesTests(cfg: Config, s: Task, w: World)
    requires s.history != []
    ensures SameTests(Last(s), Last(Finalizing(cfg, s, w).state))
  {
  }

  lemma ReviewingLeavesTests(s: Task, w: World)
    requires s.history != []
    ensures SameTests(Last(s), Last(Reviewing(s, w).state))
  {
    var s1 := SetLast(s, Last(s).(phase := AtReviewing));
    FailLeavesTests(SetLast(s1, Labelled(Last(s1), FirstFailure(w.reviewers))), ReviewError);
  }

  /** Whatever comes after the tests leaves their result, and the exit code before it, as they are. */
  lemma ReviewLeavesTests(cfg: Config, s: Task, w: World)
    requires s.history != []
    ensures SameTests(Last(s), Last(FromReview(cfg, s, w).state))
  {
    ReviewingLeavesTests(s, w);
    var r := Reviewing(s, w);
    if r.Ok? { FinalizingLeavesTests(cfg, r.state, w); }
  }

  lemma TestsLeaveAStatus(cfg: Config, s: Task, w: World)
    requires s.history != []
    ensures var b := Last(FromTests(cfg, s, w).state); b.testStatus != NotTested && b.exitCode == Last(s).exitCode
  {
    ReviewLeavesTests(cfg, Testing(cfg, s, w), w);
  }

  /**
   * A replan keeps every result of the attempt.  It comes through exactly with an answer whose patch is
   * accepted and can be applied; then the graph is the patched one and the attempt waits at its
   * worktree.  Otherwise the graph is as it was.
   */
  lemma ReplanOutcome(s: Task, w: World)
    requires s.history != []
    ensures var r, a, b := ExecuteReplan(s, w), Last(s), Last(ExecuteReplan(s, w).state);
      && b == a.(phase := b.phase)
      && (r.Ok? <==>
            s.graph.Some? && w.replanner.Replanned? && Accepted(s.graph.value, w.replanner.ops)
            && ApplyOps(s.graph.value, w.replanner.ops).Done?)
      && (r.Ok? ==> r.state.graph == Some(ApplyOps(s.graph.value, w.replanner.ops).nodes) && r.state.status == TaskStopped && b.phase == AtWorktree)
      && (r.Raised? ==> r.state.graph == s.graph && r.state.status == TaskReplanning && (r.error == PlanningError || r.error == Crash))
      && (r.Raised? ==> b.phase == if s.graph.None? then AtReplanning else AtPlanning)
  {
  }

  /**
   * A pass first looks again for an uncaptured patch: found, the label goes, and an exit code that was
   * never stored is 0.
   */
  lemma RecheckOutcome(s: Task, w: World)
    requires s.history != []
    ensures var found, a := Last(s).failureType == Some(PatchNotCaptured) && w.capturedAtDispatch, Last(s);
      Rechecked(s, w) == if found then SetLast(s, a.(failureType := None, exitCode := Some(if a.exitCode.Some? then a.exitCode.value else 0))) else s
  {
  }

  // ---------------------------------------------------------------- one pass

  /**
   * A pass ends the loop at once where a budget of the task is spent, or the decision says so, and labels
   * the last attempt with the reason.
   */
  lemma PassEndsAtOnce(cfg: Config, s: Task, w: World)
    requires s.history != []
    ensures var s1 := Rechecked(s, w);
      && (w.budgetExhausted ==> AutoPass(cfg, s, w) == Exit(SetLast(s, Last(s).(failureType := Some(BudgetExhausted)))))
      && (!w.budgetExhausted && Decide(cfg, s1, w).step == StepDone ==> AutoPass(cfg, s, w) == Exit(s1))
      && (!w.budgetExhausted && Decide(cfg, s1, w).step == StepTerminal && Decide(cfg, s1, w).report.Some? ==>
            AutoPass(cfg, s, w) == Exit(SetLast(s1, Last(s1).(failureType := Some(Decide(cfg, s1, w).report.value.kind)))))
  {
    assert |Rechecked(s, w).history| == |s.history|;
  }

  /**
   * A RUN step begins the next iteration, after a DONE that came too early as well, unless iterations or
   * preflight forbid it.
   */
  lemma RunStepBegins(cfg: Config, s: Task, w: World)
    requires Decide(cfg, s, w).step == StepRun && s.status != TaskWaitingReview && s.status != TaskRunning && s.status != TaskInterrupted
    requires s.history != [] ==> !Unfinished(Last(s))
    ensures var t := Execute(cfg, s, Decide(cfg, s, w), w).state;
      |t.history| == |s.history| + 1 && t.iteration == s.iteration + 1 <==> s.iteration < cfg.maxIterations && w.preflightOk
  {
    var s1 := if s.status == TaskDone then s.(status := TaskStopped) else s;
    RunIsRefusedExactlyWhen(cfg, s1, w);
  }
}
