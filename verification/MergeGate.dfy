/**
 * The merge gate of `_can_auto_merge` and `effective_node_policy`, written out over the fields of
 * the configuration, of the attempt and of the attempt's node.
 */
module MergeGate {
  import opened Option
  import opened TaskGraph
  import opened TaskState
  import opened AutoLoop

  /** Entry `i` of the graph is the attempt's node: the first of that id. */
  ghost predicate OwnNode(t: Task, a: Attempt, i: nat) {
    && a.nodeId != "" && t.graph.Some? && i < |t.graph.value| && t.graph.value[i].id == a.nodeId
    && forall j | 0 <= j < i :: t.graph.value[j].id != a.nodeId
  }

  ghost predicate HasNode(t: Task, a: Attempt) {
    exists i: nat :: OwnNode(t, a, i)
  }

  /** Skipped tests are enough where the task says so or may be weakened by the node, and the node does not object. */
  ghost predicate MayGoUntested(cfg: Config, t: Task, a: Attempt) {
    && (!HasNode(t, a) ==> cfg.allowNoTests)
    && forall i: nat | OwnNode(t, a, i) :: var n := t.graph.value[i];
         n.allowMergeWithoutTests != Some(false)
         && (cfg.allowNoTests || (cfg.allowWeakening && n.allowMergeWithoutTests == Some(true)))
  }

  ghost predicate HeldForReview(t: Task, a: Attempt) {
    exists i: nat :: OwnNode(t, a, i) && t.graph.value[i].requiresManualReview
  }

  /** The node's limit where it is positive, else the task's; a limit that is not positive is none. */
  ghost predicate WithinFileLimit(cfg: Config, t: Task, a: Attempt, changedFiles: nat) {
    && (forall i: nat | OwnNode(t, a, i) :: t.graph.value[i].maxChangedFiles > 0 ==> changedFiles <= t.graph.value[i].maxChangedFiles)
    && ((forall i: nat | OwnNode(t, a, i) :: t.graph.value[i].maxChangedFiles <= 0) ==>
          cfg.maxChangedFiles > 0 ==> changedFiles <= cfg.maxChangedFiles)
  }

  ghost predicate MayMerge(cfg: Config, t: Task, a: Attempt, changedFiles: nat) {
    && cfg.autoMerge && a.exitCode == Some(0) && a.decision == Some(Approve)
    && (a.testStatus == TestsPassed || a.testStatus == NotTested || (a.testStatus == TestsSkipped && MayGoUntested(cfg, t, a)))
    && !HeldForReview(t, a) && WithinFileLimit(cfg, t, a, changedFiles)
  }

  /** The lookup behind the gate finds that entry. */
  lemma NodeIsOwn(t: Task, a: Attempt)
    ensures NodeOf(t, a).None? <==> !HasNode(t, a)
    ensures forall i: nat | OwnNode(t, a, i) :: NodeOf(t, a) == Some(t.graph.value[i])
    ensures NodeOf(t, a).Some? ==> exists i: nat :: OwnNode(t, a, i) && NodeOf(t, a) == Some(t.graph.value[i])
  {
    if NodeOf(t, a).Some? {
      assert OwnNode(t, a, FirstIndex(t.graph.value, a.nodeId).value);
    }
    forall i: nat | OwnNode(t, a, i) ensures NodeOf(t, a) == Some(t.graph.value[i]) {
      assert FirstIndex(t.graph.value, a.nodeId) == Some(i);
    }
  }

  /** The gate opens exactly under these conditions on the fields it reads. */
  lemma CanAutoMergeExactlyWhen(cfg: Config, t: Task, a: Attempt, changedFiles: nat)
    ensures CanAutoMerge(cfg, t, a, changedFiles) <==> MayMerge(cfg, t, a, changedFiles)
  {
    NodeIsOwn(t, a);
    if !HasNode(t, a) {
      assert NoTestsAllowed(cfg, t, a) <==> MayGoUntested(cfg, t, a);
    } else {
      var i: nat :| OwnNode(t, a, i);
      OneOwnNode(t, a, i);
      SkippedTestsPassExactlyWhen(cfg, t.graph.value[i]);
    }
  }

  lemma OneOwnNode(t: Task, a: Attempt, i: nat)
    requires OwnNode(t, a, i)
    ensures forall j: nat | OwnNode(t, a, j) :: j == i
  {
  }

  /**
   * An approved attempt is reported as blocked by its tests exactly when they failed, ran out of time, or
   * were skipped where they must not be.
   */
  lemma BlockedByTestsExactlyWhen(cfg: Config, t: Task, a: Attempt)
    ensures BlockedByTestGate(cfg, t, a) <==>
      a.decision == Some(Approve) &&
      (a.testStatus == TestsFailed || a.testStatus == TestsTimedOut || (a.testStatus == TestsSkipped && !MayGoUntested(cfg, t, a)))
  {
    NodeIsOwn(t, a);
    if HasNode(t, a) {
      var i: nat :| OwnNode(t, a, i);
      OneOwnNode(t, a, i);
      SkippedTestsPassExactlyWhen(cfg, t.graph.value[i]);
    }
  }

  /** Finalizing merges an attempt exactly when those conditions hold and the merge goes through. */
  lemma FinalizingMergesExactlyWhen(cfg: Config, s: Task, w: World)
    requires s.history != [] && Last(s).phase != AtMerged
    ensures Last(Finalizing(cfg, s, w).state).phase == AtMerged <==> MayMerge(cfg, s, Last(s), w.changedFiles) && w.merger.Merges?
  {
    CanAutoMergeExactlyWhen(cfg, s, Last(s), w.changedFiles);
  }

  // ---------------------------------------------------------------- what was merged

  /**
   * The conditions under which an attempt may be merged in a step whose inputs are `w`, read off
   * the state that holds the merge.
   */
  ghost predicate GateHolds(cfg: Config, w: World, t: Task, a: Attempt) {
    && w.merger.Merges? && cfg.autoMerge && a.exitCode == Some(0)
    && a.reviews != [] && (forall k | 0 <= k < |a.reviews| :: a.reviews[k] == Approve)
    && (a.testStatus == TestsPassed || (a.testStatus == TestsSkipped && MayGoUntested(cfg, t, a)))
    && !HeldForReview(t, a) && WithinFileLimit(cfg, t, a, w.changedFiles)
  }

  /** The two tasks give the attempts' node the same policy. */
  ghost predicate SamePolicy(s: Task, t: Task, a: Attempt, c: Attempt) {
    forall i: nat :: (OwnNode(t, c, i) <==> OwnNode(s, a, i)) && (OwnNode(s, a, i) ==>
      var m, n := s.graph.value[i], t.graph.value[i];
      m.maxChangedFiles == n.maxChangedFiles && m.requiresManualReview == n.requiresManualReview
      && m.allowMergeWithoutTests == n.allowMergeWithoutTests)
  }

  /** Marking the attempt's node passed changes no policy. */
  lemma MarkedKeepsPolicy(s: Task, t: Task, a: Attempt, c: Attempt)
    requires c.nodeId == a.nodeId
    requires s.graph.Some? && a.nodeId != "" ==> t.graph.Some? && t.graph == MarkPassed(s.graph.value, a.nodeId, a.iteration)
    requires !(s.graph.Some? && a.nodeId != "") ==> t.graph == s.graph
    ensures SamePolicy(s, t, a, c)
  {
  }

  lemma SamePolicySameGate(cfg: Config, s: Task, t: Task, a: Attempt, c: Attempt, changedFiles: nat)
    requires SamePolicy(s, t, a, c)
    ensures MayGoUntested(cfg, s, a) ==> MayGoUntested(cfg, t, c)
    ensures HeldForReview(t, c) ==> HeldForReview(s, a)
    ensures WithinFileLimit(cfg, s, a, changedFiles) ==> WithinFileLimit(cfg, t, c, changedFiles)
  {
    if HasNode(s, a) {
      var i: nat :| OwnNode(s, a, i);
      OneOwnNode(s, a, i);
      assert OwnNode(t, c, i);
      OneOwnNode(t, c, i);
    } else {
      forall i: nat ensures !OwnNode(t, c, i) { assert !OwnNode(s, a, i); }
    }
  }

  lemma GateStandsAfterMerge(cfg: Config, w: World, s: Task, t: Task, a: Attempt, c: Attempt)
    requires w.merger.Merges? && CanAutoMerge(cfg, s, a, w.changedFiles) && SamePolicy(s, t, a, c)
    requires a.testStatus != NotTested && a.reviews != [] && a.decision == Some(Aggregate(a.reviews))
    requires c == a.(phase := AtMerged, mergeError := None, failureType := None)
    ensures GateHolds(cfg, w, t, c)
  {
    CanAutoMergeExactlyWhen(cfg, s, a, w.changedFiles);
    SamePolicySameGate(cfg, s, t, a, c, w.changedFiles);
    ApprovedMeansEveryReviewer(a.reviews);
  }
}
