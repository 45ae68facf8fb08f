/** What every state of the auto loop satisfies: the merge gate, and merged attempts against PASSED nodes. */
module AutoSafety {
  import opened Option
  import opened TaskGraph
  import opened TaskState
  import opened AutoLoop
  import opened Blocking
  import opened GraphPatch
  import opened PatchSafety
  import opened MergeGate
  import GraphRuns

  // ---------------------------------------------------------------- attempts

  /** The attempt shows a trace of some phase after planning. */
  predicate BeyondPlanning(a: Attempt) {
    || a.exitCode.Some? || a.testStatus != NotTested || a.mergeError.Some?
    || a.failureType == Some(PatchNotCaptured) || a.phase == AtTesting
  }

  /** A decision stands on tests that ran and on the chain of reviews it sums up, whatever repairs reset. */
  predicate AttemptOk(a: Attempt) {
    && (a.decision.Some? ==> a.testStatus != NotTested && a.reviews != [] && a.decision == Some(Aggregate(a.reviews)))
    && (a.phase == AtReviewing || a.phase == AtApproved ==> a.testStatus != NotTested)
    && (a.phase == AtApproved ==> a.decision == Some(Approve))
    && (BeyondPlanning(a) ==> a.hasPlan)
    && (a.hasPlan ==> a.nodeId != "")
    && (a.phase == AtMerged ==>
          a.exitCode == Some(0) && a.decision == Some(Approve) && a.mergeError.None? && a.failureType != Some(PatchNotCaptured)
          && (a.testStatus == TestsPassed || a.testStatus == TestsSkipped))
  }

  // ---------------------------------------------------------------- the graph beside the history

  predicate IsPassed(g: seq<Node>, id: string) {
    var k := FirstIndex(g, id);
    k.Some? && g[k.value].status == Passed
  }

  predicate PassedIn(g: seq<Node>, id: string, iteration: nat) {
    var k := FirstIndex(g, id);
    k.Some? && g[k.value].status == Passed && iteration in g[k.value].attemptIterations
  }

  ghost predicate WellNamed(g: seq<Node>) {
    UniqueIds(g) && "" !in Ids(g)
  }

  ghost predicate HasMerged(s: Task, id: string) {
    exists k :: 0 <= k < |s.history| && s.history[k].phase == AtMerged && s.history[k].nodeId == id
  }

  ghost predicate GraphOk(s: Task) {
    && (s.graph.Some? ==> WellNamed(s.graph.value))
    && (s.graph.Some? ==> forall id :: IsPassed(s.graph.value, id) ==> HasMerged(s, id))
    && (forall k | 0 <= k < |s.history| ::
          && (s.history[k].nodeId != "" ==> s.graph.Some? && s.history[k].nodeId in Ids(s.graph.value))
          && (s.history[k].phase == AtMerged ==>
                s.graph.Some? && PassedIn(s.graph.value, s.history[k].nodeId, s.history[k].iteration)))
    && (s.history != [] && Last(s).phase != AtMerged && s.graph.Some? ==> !IsPassed(s.graph.value, Last(s).nodeId))
  }

  ghost predicate AttemptsOk(s: Task) {
    forall k | 0 <= k < |s.history| :: AttemptOk(s.history[k])
  }

  ghost predicate StatusOk(s: Task) {
    && (s.status == TaskDone ==> s.graph.Some? && Complete(s.graph.value))
    && (s.history != [] && Last(s).phase == AtMerged ==> s.status == TaskDone || s.status == TaskStopped || s.status == TaskCancelled)
  }

  /** What has started has only passed dependencies, and so has the node of every attempt. */
  ghost predicate SoundTask(s: Task) {
    s.graph.Some? ==> GraphRuns.Sound(s.graph.value) && forall k | 0 <= k < |s.history| :: GraphRuns.Grounded(s.graph.value, s.history[k].nodeId)
  }

  ghost predicate Inv(s: Task) {
    GraphOk(s) && AttemptsOk(s) && StatusOk(s) && SoundTask(s)
  }

  /** A state in the middle of a step: the last attempt is still open. */
  ghost predicate Open(s: Task) {
    GraphOk(s) && AttemptsOk(s) && SoundTask(s) && s.history != [] && Last(s).phase != AtMerged && s.status != TaskDone
  }

  lemma OpenIsInv(s: Task)
    requires Open(s)
    ensures Inv(s)
  {
  }

  // ---------------------------------------------------------------- graphs that pass nobody

  /** The graph keeps its nodes and who passed; nodes may be added, none of them passed. */
  ghost predicate PassesNobody(g: seq<Node>, h: seq<Node>) {
    && |g| <= |h| && WellNamed(h) && GraphRuns.Carries(g, h)
    && (forall k | 0 <= k < |g| :: h[k].id == g[k].id && h[k].attemptIterations == g[k].attemptIterations
          && (h[k].status == Passed <==> g[k].status == Passed))
    && (forall k | |g| <= k < |h| :: h[k].status != Passed)
  }

  lemma PassesNobodyKeeps(g: seq<Node>, h: seq<Node>, id: string, iteration: nat)
    requires WellNamed(g) && PassesNobody(g, h)
    ensures IsPassed(h, id) == IsPassed(g, id)
    ensures PassedIn(g, id, iteration) ==> PassedIn(h, id, iteration)
    ensures id in Ids(g) ==> id in Ids(h)
  {
    KnownId(g, id);
    KnownId(h, id);
    if FirstIndex(g, id).Some? {
      assert h[FirstIndex(g, id).value].id == id;
      assert FirstIndex(h, id) == FirstIndex(g, id);
    }
  }

  lemma EditPassesNobody(g: seq<Node>, i: nat, n: Node)
    requires WellNamed(g) && i < |g| && n.id == g[i].id && n.attemptIterations == g[i].attemptIterations
    requires g[i].status != Passed && n.status != Passed && n.dependencies == g[i].dependencies
    requires GraphRuns.Sound(g) && DependenciesPassed(g, g[i])
    ensures PassesNobody(g, g[i := n])
  {
    SameIds(g, g[i := n]);
    GraphRuns.EditCarries(g, i, n);
  }

  lemma ScanPassesNobody(g: seq<Node>, maxRetries: int, limit: int)
    requires WellNamed(g) && GraphRuns.Sound(g)
    ensures PassesNobody(g, Scan(g, maxRetries, limit, {}).nodes)
  {
    GraphRuns.ScanCarries(g, maxRetries, limit, {});
    ScanBlocksOnlyDoomed(g, maxRetries, limit, {});
    SameIds(g, Scan(g, maxRetries, limit, {}).nodes);
  }

  lemma PatchPassesNobody(g: seq<Node>, ops: seq<PatchOp>)
    requires WellNamed(g) && GraphRuns.Sound(g) && Accepted(g, ops) && ApplyOps(g, ops).Done? && UniqueIds(Added(ops))
    ensures PassesNobody(g, ApplyOps(g, ops).nodes)
  {
    GraphRuns.PatchCarries(g, ops);
    AcceptedPatchKeepsGraph(g, ops);
    PatchKeepsUniqueIds(g, ops);
    var h := ApplyOps(g, ops).nodes;
    forall k | 0 <= k < |g| ensures NodeKept(g[k], h[k]) {}
    assert forall k | 0 <= k < |g| :: h[k].id in Ids(g);
  }

  /**
   * A step that passes no node and leaves the last attempt open keeps the invariant; the attempt
   * may meanwhile have been given a node, which must be known and not passed.
   */
  ghost predicate Quiet(s: Task, t: Task) {
    && SameAttempt(s, t) && Last(t).phase != AtMerged && t.status != TaskDone && AttemptOk(Last(t))
    && (s.graph.Some? ==> t.graph.Some? && PassesNobody(s.graph.value, t.graph.value))
    && (s.graph.None? && t.graph.Some? ==>
          WellNamed(t.graph.value) && GraphRuns.Sound(t.graph.value) && forall id :: !IsPassed(t.graph.value, id))
    && (Last(t).nodeId == Last(s).nodeId ||
          (t.graph.Some? && Last(t).nodeId in Ids(t.graph.value) && !IsPassed(t.graph.value, Last(t).nodeId)
           && GraphRuns.Grounded(t.graph.value, Last(t).nodeId)))
  }

  lemma QuietKeepsAttemptsMerged(s: Task, t: Task)
    requires SameAttempt(s, t) && Last(s).phase != AtMerged && Last(t).phase != AtMerged
    ensures forall k | 0 <= k < |s.history| :: t.history[k].phase == AtMerged <==> s.history[k].phase == AtMerged
    ensures forall k | 0 <= k < |s.history| && s.history[k].phase == AtMerged :: t.history[k] == s.history[k]
  {
  }

  lemma QuietKeepsMerged(s: Task, t: Task)
    requires Open(s) && Quiet(s, t)
    ensures forall k | 0 <= k < |s.history| :: t.history[k].phase == AtMerged <==> s.history[k].phase == AtMerged
    ensures forall k | 0 <= k < |s.history| && s.history[k].phase == AtMerged :: t.history[k] == s.history[k]
    ensures forall id :: HasMerged(s, id) <==> HasMerged(t, id)
  {
    QuietKeepsAttemptsMerged(s, t);
    forall id ensures HasMerged(s, id) <==> HasMerged(t, id) {
      SameAttemptsMerged(s, t, id);
    }
  }

  lemma SameAttemptsMerged(s: Task, t: Task, id: string)
    requires |t.history| == |s.history|
    requires forall k | 0 <= k < |s.history| :: t.history[k].phase == AtMerged <==> s.history[k].phase == AtMerged
    requires forall k | 0 <= k < |s.history| && s.history[k].phase == AtMerged :: t.history[k].nodeId == s.history[k].nodeId
    ensures HasMerged(s, id) <==> HasMerged(t, id)
  {
    if HasMerged(s, id) {
      var k :| 0 <= k < |s.history| && s.history[k].phase == AtMerged && s.history[k].nodeId == id;
      assert t.history[k].phase == AtMerged && t.history[k].nodeId == id;
    }
    if HasMerged(t, id) {
      var k :| 0 <= k < |t.history| && t.history[k].phase == AtMerged && t.history[k].nodeId == id;
      assert s.history[k].phase == AtMerged && s.history[k].nodeId == id;
    }
  }

  lemma QuietKeepsPassed(s: Task, t: Task, id: string)
    requires Open(s) && Quiet(s, t) && s.graph.Some?
    ensures IsPassed(t.graph.value, id) == IsPassed(s.graph.value, id) && (id in Ids(s.graph.value) ==> id in Ids(t.graph.value))
    ensures forall iteration :: PassedIn(s.graph.value, id, iteration) ==> PassedIn(t.graph.value, id, iteration)
  {
    forall iteration ensures PassedIn(s.graph.value, id, iteration) ==> PassedIn(t.graph.value, id, iteration) {
      PassesNobodyKeeps(s.graph.value, t.graph.value, id, iteration);
    }
    PassesNobodyKeeps(s.graph.value, t.graph.value, id, 0);
  }

  lemma QuietKeepsGraphOk(s: Task, t: Task)
    requires Open(s) && Quiet(s, t) && s.graph.Some?
    requires forall id :: HasMerged(s, id) <==> HasMerged(t, id)
    requires forall k | 0 <= k < |s.history| && s.history[k].phase == AtMerged :: t.history[k] == s.history[k]
    requires forall k | 0 <= k < |s.history| :: t.history[k].phase == AtMerged <==> s.history[k].phase == AtMerged
    ensures GraphOk(t)
  {
    forall id ensures IsPassed(t.graph.value, id) ==> HasMerged(t, id) {
      QuietKeepsPassed(s, t, id);
    }
    forall k | 0 <= k < |t.history| ensures
        && (t.history[k].nodeId != "" ==> t.history[k].nodeId in Ids(t.graph.value))
        && (t.history[k].phase == AtMerged ==> PassedIn(t.graph.value, t.history[k].nodeId, t.history[k].iteration)) {
      QuietKeepsPassed(s, t, s.history[k].nodeId);
    }
    QuietKeepsPassed(s, t, Last(t).nodeId);
  }

  lemma QuietKeepsAttempts(s: Task, t: Task)
    requires AttemptsOk(s) && SameAttempt(s, t) && AttemptOk(Last(t))
    ensures AttemptsOk(t)
  {
    assert forall k | 0 <= k < |s.history| - 1 :: t.history[k] == s.history[k];
  }

  /** Every attempt that has a node has one of the graph. */
  ghost predicate NodesKnown(s: Task) {
    s.graph.Some? && forall k | 0 <= k < |s.history| :: s.history[k].nodeId == "" || s.history[k].nodeId in Ids(s.graph.value)
  }

  /** There soundness is carried along. */
  lemma CarriedIsSoundTask(s: Task, t: Task)
    requires NodesKnown(s) && SoundTask(s) && t.graph.Some? && WellNamed(t.graph.value)
    requires GraphRuns.Carries(s.graph.value, t.graph.value)
    requires forall k | 0 <= k < |t.history| ::
      (k < |s.history| && t.history[k].nodeId == s.history[k].nodeId) || GraphRuns.Grounded(t.graph.value, t.history[k].nodeId)
    ensures SoundTask(t)
  {
    var g, h := s.graph.value, t.graph.value;
    GraphRuns.CarriedIsSound(g, h);
    forall k | 0 <= k < |t.history| ensures GraphRuns.Grounded(h, t.history[k].nodeId) {
      if k < |s.history| && t.history[k].nodeId == s.history[k].nodeId {
        GraphRuns.CarriedIsGrounded(g, h, s.history[k].nodeId);
      }
    }
  }

  lemma FreshIsSoundTask(s: Task, t: Task)
    requires GraphOk(s) && s.graph.None? && t.graph.Some? && WellNamed(t.graph.value) && GraphRuns.Sound(t.graph.value)
    requires SameAttempt(s, t) && (Last(t).nodeId == Last(s).nodeId || GraphRuns.Grounded(t.graph.value, Last(t).nodeId))
    ensures SoundTask(t)
  {
    var h := t.graph.value;
    KnownId(h, "");
    assert GraphRuns.Grounded(h, "");
    forall k | 0 <= k < |t.history| ensures GraphRuns.Grounded(h, t.history[k].nodeId) {
      assert s.history[k].nodeId == "";
      if k < |t.history| - 1 { assert t.history[k] == s.history[k]; }
    }
  }

  lemma SameAttemptNames(s: Task, t: Task)
    requires SameAttempt(s, t)
    ensures forall k | 0 <= k < |t.history| && (k < |t.history| - 1 || Last(t).nodeId == Last(s).nodeId) ::
      t.history[k].nodeId == s.history[k].nodeId
  {
    assert forall k | 0 <= k < |s.history| - 1 :: t.history[k] == s.history[k];
  }

  lemma QuietKeepsSound(s: Task, t: Task)
    requires GraphOk(s) && SoundTask(s) && Quiet(s, t)
    ensures SoundTask(t)
  {
    if s.graph.Some? {
      SameAttemptNames(s, t);
      CarriedIsSoundTask(s, t);
    } else if t.graph.Some? {
      FreshIsSoundTask(s, t);
    }
  }

  lemma QuietKeepsOpen(s: Task, t: Task)
    requires Open(s) && Quiet(s, t)
    ensures Open(t)
  {
    QuietKeepsSound(s, t);
    QuietKeepsMerged(s, t);
    QuietKeepsAttempts(s, t);
    if s.graph.Some? {
      QuietKeepsGraphOk(s, t);
    }
  }

  // ---------------------------------------------------------------- phases

  /** What the loop may assume of the world: planners name nodes apart, patches name new nodes apart. */
  ghost predicate WorldOk(w: World) {
    && (w.planner.Plan? ==> WellNamed(w.planner.nodes))
    && (w.replanner.Replanned? ==> UniqueIds(Added(w.replanner.ops)))
  }

  /** How a step may end before it is finalized. */
  ghost predicate Steady(r: Outcome) {
    Open(r.state) && (r.Raised? && r.error == ReviewError ==> Last(r.state).testStatus != NotTested)
  }

  lemma OpenNode(s: Task)
    requires Open(s) && Last(s).nodeId != ""
    ensures s.graph.Some? && FirstIndex(s.graph.value, Last(s).nodeId).Some?
    ensures !IsPassed(s.graph.value, Last(s).nodeId)
    ensures GraphRuns.Sound(s.graph.value) && GraphRuns.Grounded(s.graph.value, Last(s).nodeId)
  {
    assert s.history[|s.history| - 1] == Last(s);
    KnownId(s.graph.value, Last(s).nodeId);
  }

  lemma SameGraphIsQuiet(s: Task, t: Task)
    requires Open(s) && SameAttempt(s, t) && Last(t).phase != AtMerged && t.status != TaskDone && AttemptOk(Last(t))
    requires t.graph == s.graph && Last(t).nodeId == Last(s).nodeId
    ensures Open(t)
  {
    QuietKeepsOpen(s, t);
  }

  /** A provider's label is never the one for an uncaptured patch. */
  lemma LabelKeeps(s: Task, stored: Option<FailureType>)
    requires Open(s)
    ensures Open(SetLast(s, Labelled(Last(s), stored)))
  {
    assert AttemptOk(Last(s));
    SameGraphIsQuiet(s, SetLast(s, Labelled(Last(s), stored)));
  }

  lemma FailKeeps(s: Task, e: Error)
    requires Open(s) && (e == ReviewError ==> Last(s).testStatus != NotTested)
    ensures Steady(FailAttempt(s, e)) && FailAttempt(s, e).error == e
  {
    var r := FailAttempt(s, e);
    assert AttemptOk(Last(s));
    if s.graph.Some? && Last(s).nodeId != "" {
      OpenNode(s);
      var i := FirstIndex(s.graph.value, Last(s).nodeId).value;
      EditPassesNobody(s.graph.value, i, s.graph.value[i].(status := Failed));
    }
    QuietKeepsOpen(s, r.state);
  }

  /** Marking a node that has not passed as running, and giving it to the open attempt. */
  lemma StartKeeps(s: Task, id: string, w: World)
    requires Open(s) && s.graph.Some? && FirstIndex(s.graph.value, id).Some? && !IsPassed(s.graph.value, id)
    requires GraphRuns.Grounded(s.graph.value, id)
    ensures Steady(StartNode(s, id, w))
  {
    var g := s.graph.value;
    var i := FirstIndex(g, id).value;
    EditPassesNobody(g, i, g[i].(status := Running));
    var h := MarkRunning(g, id).value;
    PassesNobodyKeeps(g, h, id, 0);
    KnownId(g, id);
    GraphRuns.CarriedIsGrounded(g, h, id);
    var a := Last(s);
    var s1 := SetLast(s.(graph := Some(h)), a.(nodeId := id, hasPlan := true, finalStep := a.hasPlan && a.finalStep));
    assert AttemptOk(a);
    QuietKeepsOpen(s, s1);
    if w.worktreeAdded {
      SameGraphIsQuiet(s1, SetLast(s1, Last(s1).(phase := AtWorktree)));
    } else {
      FailKeeps(s1, PlanningError);
    }
  }

  lemma PickedIsOpen(g: seq<Node>, maxRetries: int)
    requires WellNamed(g) && GraphRuns.Sound(g) && Scan(g, maxRetries, 1, {}).picked != []
    ensures var scan := Scan(g, maxRetries, 1, {});
      scan.picked[0] < |scan.nodes| &&
      var id := scan.nodes[scan.picked[0]].id;
      FirstIndex(scan.nodes, id).Some? && !IsPassed(scan.nodes, id) && id != "" && GraphRuns.Grounded(scan.nodes, id)
  {
    var scan := Scan(g, maxRetries, 1, {});
    var i := scan.picked[0];
    PickedIsRunnable(g, maxRetries, 1, {}, i);
    ScanPassesNobody(g, maxRetries, 1);
    var id := scan.nodes[i].id;
    KnownId(scan.nodes, id);
    assert FirstIndex(scan.nodes, id) == Some(i);
    assert id in Ids(scan.nodes);
    GraphRuns.CarriedDependencies(g, scan.nodes, i);
  }

  /** Without a node of its own the attempt gets the first runnable one, if there is any. */
  lemma ScannedSetupKeeps(cfg: Config, s: Task, w: World)
    requires Open(s) && s.graph.Some? && Last(s).nodeId == ""
    ensures Steady(SetupNode(cfg, s, w))
  {
    var scan := Scan(s.graph.value, cfg.maxRetries, 1, {});
    var s1 := s.(graph := Some(scan.nodes));
    ScannedIsOpen(s, cfg.maxRetries);
    if scan.picked == [] {
      FailKeeps(s1, PlanningError);
    } else {
      PickedIsOpen(s.graph.value, cfg.maxRetries);
      StartKeeps(s1, scan.nodes[scan.picked[0]].id, w);
    }
  }

  lemma ScannedIsOpen(s: Task, maxRetries: int)
    requires Open(s) && s.graph.Some?
    ensures Open(s.(graph := Some(Scan(s.graph.value, maxRetries, 1, {}).nodes)))
  {
    ScanPassesNobody(s.graph.value, maxRetries, 1);
    assert AttemptOk(Last(s));
    QuietKeepsOpen(s, s.(graph := Some(Scan(s.graph.value, maxRetries, 1, {}).nodes)));
  }

  lemma SetupKeeps(cfg: Config, s: Task, w: World)
    requires Open(s) && s.graph.Some?
    ensures Steady(SetupNode(cfg, s, w))
  {
    if Last(s).nodeId != "" {
      OpenNode(s);
      StartKeeps(s, Last(s).nodeId, w);
    } else {
      ScannedSetupKeeps(cfg, s, w);
    }
  }

  lemma PlannedGraphIsFresh(ns: seq<Node>)
    requires WellNamed(ns)
    ensures WellNamed(PlannedGraph(ns)) && forall k | 0 <= k < |PlannedGraph(ns)| :: !GraphRuns.Started(PlannedGraph(ns)[k])
  {
    var p := PlannedNodes(ns);
    var b := BlockInvalid(p);
    SameIds(ns, p);
    SameIds(p, b);
    ScanPassesNobody(b, 2, 1);
    ScanBlocksOnlyDoomed(b, 2, 1, {});
  }

  /** The first node of a new plan starts: the attempt gets its node and its plan. */
  lemma PlannedStartKeeps(s: Task, id: string, finalStep: bool)
    requires Open(s) && s.graph.Some? && id in Ids(s.graph.value) && !IsPassed(s.graph.value, id)
    requires GraphRuns.Grounded(s.graph.value, id)
    ensures MarkRunning(s.graph.value, id).Some?
    ensures Open(SetLast(s.(graph := MarkRunning(s.graph.value, id)),
      Last(s).(nodeId := id, hasPlan := true, finalStep := finalStep, failureType := None, phase := AtWorktree)))
  {
    var g := s.graph.value;
    KnownId(g, id);
    var i := FirstIndex(g, id).value;
    EditPassesNobody(g, i, g[i].(status := Running));
    PassesNobodyKeeps(g, MarkRunning(g, id).value, id, 0);
    GraphRuns.CarriedIsGrounded(g, MarkRunning(g, id).value, id);
    assert AttemptOk(Last(s));
    QuietKeepsOpen(s, SetLast(s.(graph := MarkRunning(g, id)),
      Last(s).(nodeId := id, hasPlan := true, finalStep := finalStep, failureType := None, phase := AtWorktree)));
  }

  /** From a new graph to its first node. */
  lemma PlanFirstKeeps(s: Task, g: seq<Node>, maxRetries: int, finalStep: bool)
    requires Open(s) && s.graph.None? && WellNamed(g) && forall k | 0 <= k < |g| :: !GraphRuns.Started(g[k])
    ensures Steady(PlanFirst(s, Scan(g, maxRetries, 1, {}), finalStep))
  {
    assert AttemptOk(Last(s));
    var scan := Scan(g, maxRetries, 1, {});
    ScanPassesNobody(g, maxRetries, 1);
    var s1 := s.(graph := Some(scan.nodes));
    GraphRuns.CarriedIsSound(g, scan.nodes);
    assert Quiet(s, s1);
    QuietKeepsOpen(s, s1);
    if scan.picked == [] {
      FailKeeps(s1, PlanningError);
    } else {
      PickedIsOpen(g, maxRetries);
      var id := scan.nodes[scan.picked[0]].id;
      PlannedStartKeeps(s1, id, finalStep);
      assert s1.(graph := MarkRunning(scan.nodes, id)) == s.(graph := MarkRunning(scan.nodes, id));
    }
  }

  lemma PlanKeeps(cfg: Config, s: Task, w: World)
    requires Open(s) && s.graph.None? && WorldOk(w)
    ensures Steady(PlanGraph(cfg, s, w))
  {
    if !w.worktreeAdded {
      FailKeeps(s, PlanningError);
    } else if w.planner.PlannerFails? {
      LabelKeeps(s, w.planner.stored);
      FailKeeps(SetLast(s, Labelled(Last(s), w.planner.stored)), PlanningError);
    } else if w.planner.nodes == [] {
      FailKeeps(s, PlanningError);
    } else {
      PlannedGraphIsFresh(w.planner.nodes);
      PlanFirstKeeps(s, PlannedGraph(w.planner.nodes), cfg.maxRetries, w.planner.finalStep);
    }
  }

  lemma PlanningKeeps(cfg: Config, s: Task, w: World)
    requires Open(s) && WorldOk(w)
    ensures Steady(Planning(cfg, s, w))
  {
    if s.graph.Some? { SetupKeeps(cfg, s, w); } else { PlanKeeps(cfg, s, w); }
  }

  lemma ImplementingKeeps(s: Task, w: World)
    requires Open(s)
    ensures Steady(Implementing(s, w))
  {
    var a := Last(s);
    assert AttemptOk(a);
    if a.exitCode == Some(0) {
    } else if a.exitCode.Some? || !a.hasPlan {
      FailKeeps(s, ImplementingError);
    } else {
      var s1 := SetLast(s, a.(phase := AtExecuting));
      SameGraphIsQuiet(s, s1);
      match w.implementer {
        case ImplementerUnavailable => FailKeeps(s1, ImplementingError);
        case Implemented(code, abnormal, _, _) =>
          var s2 := SetLast(s1, Last(s1).(exitCode := Some(code), failureType := RunLabel(a, w.implementer)));
          SameGraphIsQuiet(s1, s2);
          if abnormal || code != 0 { FailKeeps(s2, ImplementingError); }
      }
    }
  }

  lemma TestingKeeps(cfg: Config, s: Task, w: World)
    requires Open(s) && (Last(s).hasPlan || Last(s).testStatus != NotTested)
    ensures Open(Testing(cfg, s, w)) && Last(Testing(cfg, s, w)).testStatus != NotTested
  {
    assert AttemptOk(Last(s));
    SameGraphIsQuiet(s, Testing(cfg, s, w));
  }

  lemma ReviewingKeeps(s: Task, w: World)
    requires Open(s) && Last(s).testStatus != NotTested
    ensures Steady(Reviewing(s, w))
  {
    var a := Last(s);
    assert AttemptOk(a);
    if a.decision.None? {
      var s1 := SetLast(s, a.(phase := AtReviewing));
      SameGraphIsQuiet(s, s1);
      if w.reviewers == [] {
      } else if exists k | 0 <= k < |w.reviewers| :: w.reviewers[k].ReviewerFails? {
        LabelKeeps(s1, FirstFailure(w.reviewers));
        FailKeeps(SetLast(s1, Labelled(Last(s1), FirstFailure(w.reviewers))), ReviewError);
      } else {
        SameGraphIsQuiet(s1, Reviewing(s, w).state);
      }
    }
  }

  // ---------------------------------------------------------------- finalizing

  ghost predicate MergedThroughGate(cfg: Config, w: World, t: Task) {
    t.history != [] && Last(t).phase == AtMerged ==> GateHolds(cfg, w, t, Last(t))
  }

  lemma MergeMarksNode(s: Task)
    requires Open(s) && Last(s).nodeId != ""
    ensures var a := Last(s); s.graph.Some? && MarkPassed(s.graph.value, a.nodeId, a.iteration).Some?
    ensures var a := Last(s); var g, h := s.graph.value, MarkPassed(s.graph.value, a.nodeId, a.iteration).value;
      && WellNamed(h) && Ids(h) == Ids(g) && PassedIn(h, a.nodeId, a.iteration)
      && GraphRuns.Carries(g, h)
      && (forall id :: IsPassed(h, id) <==> IsPassed(g, id) || id == a.nodeId)
      && (forall id, n: nat :: PassedIn(g, id, n) ==> PassedIn(h, id, n))
  {
    OpenNode(s);
    var a := Last(s);
    var g, h := s.graph.value, MarkPassed(s.graph.value, a.nodeId, a.iteration).value;
    SameIds(g, h);
    var i := FirstIndex(g, a.nodeId).value;
    GraphRuns.EditCarries(g, i, h[i]);
    assert h == g[i := h[i]];
    forall id ensures FirstIndex(h, id) == FirstIndex(g, id) { SameFirstIndex(h, g, id); }
  }

  lemma MergedIsSound(s: Task)
    requires Open(s) && Last(s).nodeId != ""
    ensures Merged(s).Ok? && SoundTask(Merged(s).state)
  {
    MergeMarksNode(s);
    CarriedIsSoundTask(s, Merged(s).state);
  }

  /** The graph with the last attempt's node passed, and nothing else. */
  ghost predicate PassesLast(s: Task, t: Task) {
    && s.history != [] && s.graph.Some? && t.graph.Some? && SameAttempt(s, t) && Last(t).nodeId == Last(s).nodeId && Last(t).phase == AtMerged
    && var a, g, h := Last(s), s.graph.value, t.graph.value;
    && WellNamed(h) && Ids(h) == Ids(g) && PassedIn(h, a.nodeId, a.iteration)
    && (forall id :: IsPassed(h, id) <==> IsPassed(g, id) || id == a.nodeId)
    && (forall id, n: nat :: PassedIn(g, id, n) ==> PassedIn(h, id, n))
  }

  lemma LastPassedIsMerged(s: Task, t: Task, id: string)
    requires GraphOk(s) && PassesLast(s, t) && IsPassed(t.graph.value, id)
    ensures HasMerged(t, id)
  {
    if id == Last(s).nodeId {
      assert t.history[|t.history| - 1] == Last(t);
    } else {
      var k :| 0 <= k < |s.history| && s.history[k].phase == AtMerged && s.history[k].nodeId == id;
      assert k < |s.history| - 1 ==> t.history[k] == s.history[k];
      assert s.history[|s.history| - 1] == Last(s);
    }
  }

  lemma LastPassedKeepsNames(s: Task, t: Task, k: nat)
    requires GraphOk(s) && PassesLast(s, t) && k < |t.history|
    ensures t.history[k].nodeId != "" ==> t.history[k].nodeId in Ids(t.graph.value)
    ensures t.history[k].phase == AtMerged ==> PassedIn(t.graph.value, t.history[k].nodeId, t.history[k].iteration)
  {
    if k < |s.history| - 1 { assert t.history[k] == s.history[k]; } else { assert s.history[k] == Last(s); }
  }

  lemma LastPassedKeepsGraphOk(s: Task, t: Task)
    requires GraphOk(s) && PassesLast(s, t)
    ensures GraphOk(t)
  {
    forall id | IsPassed(t.graph.value, id) ensures HasMerged(t, id) { LastPassedIsMerged(s, t, id); }
    forall k: nat | k < |t.history| ensures
        && (t.history[k].nodeId != "" ==> t.history[k].nodeId in Ids(t.graph.value))
        && (t.history[k].phase == AtMerged ==> PassedIn(t.graph.value, t.history[k].nodeId, t.history[k].iteration)) {
      LastPassedKeepsNames(s, t, k);
    }
  }

  lemma MergedGraphIsOk(s: Task)
    requires Open(s) && Last(s).nodeId != ""
    ensures Merged(s).Ok? && GraphOk(Merged(s).state)
  {
    MergeMarksNode(s);
    assert PassesLast(s, Merged(s).state);
    LastPassedKeepsGraphOk(s, Merged(s).state);
  }

  lemma MergedKeeps(cfg: Config, s: Task)
    requires Open(s) && Last(s).nodeId != "" && Last(s).exitCode == Some(0) && Last(s).decision == Some(Approve)
    requires Last(s).testStatus == TestsPassed || Last(s).testStatus == TestsSkipped
    ensures Merged(s).Ok? && Inv(Merged(s).state) && Last(Merged(s).state).phase == AtMerged
  {
    MergedGraphIsOk(s);
    MergedIsSound(s);
    assert AttemptOk(Last(s));
    QuietKeepsAttempts(s, Merged(s).state);
  }

  lemma RejectingKeeps(cfg: Config, s: Task, w: World)
    requires Open(s) && Last(s).decision == Some(Reject) && Last(s).hasPlan
    ensures var r := Finalizing(cfg, s, w); r.Ok? && Open(r.state)
  {
    assert AttemptOk(Last(s));
    OpenNode(s);
    var i := FirstIndex(s.graph.value, Last(s).nodeId).value;
    var n := s.graph.value[i];
    EditPassesNobody(s.graph.value, i, n.(status := Rejected, retryCount := n.retryCount + 1));
    QuietKeepsOpen(s, Finalizing(cfg, s, w).state);
  }

  lemma MergingKeeps(cfg: Config, s: Task, w: World)
    requires Open(s) && Last(s).hasPlan && Last(s).decision == Some(Approve)
    requires CanAutoMerge(cfg, s, Last(s), w.changedFiles) && w.merger.Merges?
    ensures var r := Finalizing(cfg, s, w); r.Ok? && Inv(r.state) && MergedThroughGate(cfg, w, r.state)
  {
    assert AttemptOk(Last(s));
    MergedKeeps(cfg, s);
    var a, t := Last(s), Merged(s).state;
    MarkedKeepsPolicy(s, t, a, Last(t));
    GateStandsAfterMerge(cfg, w, s, t, a, Last(t));
  }

  lemma FinalizingKeeps(cfg: Config, s: Task, w: World)
    requires Open(s) && (Last(s).decision.Some? ==> Last(s).hasPlan)
    ensures var r := Finalizing(cfg, s, w); r.Ok? && Inv(r.state) && MergedThroughGate(cfg, w, r.state)
  {
    var a := Last(s);
    assert AttemptOk(a);
    if a.decision == Some(Reject) {
      RejectingKeeps(cfg, s, w);
    } else if a.decision == Some(Approve) && CanAutoMerge(cfg, s, a, w.changedFiles) && w.merger.Merges? {
      MergingKeeps(cfg, s, w);
    } else {
      SameGraphIsQuiet(s, Finalizing(cfg, s, w).state);
    }
  }

  // ---------------------------------------------------------------- pipelines and executors

  /** How a whole step may end. */
  ghost predicate Ended(cfg: Config, w: World, r: Outcome) {
    && Inv(r.state) && MergedThroughGate(cfg, w, r.state) && (r.Raised? ==> r.state.history == [] || Steady(r))
  }

  lemma FromReviewKeeps(cfg: Config, s: Task, w: World)
    requires Open(s) && Last(s).testStatus != NotTested
    ensures Ended(cfg, w, FromReview(cfg, s, w))
  {
    ReviewingKeeps(s, w);
    var r := Reviewing(s, w);
    if r.Ok? {
      assert AttemptOk(Last(r.state));
      FinalizingKeeps(cfg, r.state, w);
    } else {
      OpenIsInv(r.state);
    }
  }

  lemma FromTestsKeeps(cfg: Config, s: Task, w: World)
    requires Open(s) && (Last(s).hasPlan || Last(s).testStatus != NotTested)
    ensures Ended(cfg, w, FromTests(cfg, s, w))
  {
    TestingKeeps(cfg, s, w);
    FromReviewKeeps(cfg, Testing(cfg, s, w), w);
  }

  lemma FromImplementerKeeps(cfg: Config, s: Task, w: World)
    requires Open(s)
    ensures Ended(cfg, w, FromImplementer(cfg, s, w))
  {
    ImplementingKeeps(s, w);
    var r := Implementing(s, w);
    OpenIsInv(r.state);
    if r.Ok? {
      assert AttemptOk(Last(r.state));
      if Last(r.state).failureType == Some(PatchNotCaptured) {
        SameGraphIsQuiet(r.state, r.state.(status := TaskStopped));
        OpenIsInv(r.state.(status := TaskStopped));
      } else {
        FromTestsKeeps(cfg, r.state, w);
      }
    }
  }

  lemma FromPlanningKeeps(cfg: Config, s: Task, w: World)
    requires Open(s) && WorldOk(w)
    ensures Ended(cfg, w, FromPlanning(cfg, s, w))
  {
    PlanningKeeps(cfg, s, w);
    var r := Planning(cfg, s, w);
    OpenIsInv(r.state);
    if r.Ok? { FromImplementerKeeps(cfg, r.state, w); }
  }

  lemma RunFromKeeps(cfg: Config, s: Task, start: Phase, w: World)
    requires Open(s) && WorldOk(w) && start == Last(s).phase
    ensures Ended(cfg, w, RunFrom(cfg, s, start, w))
  {
    assert AttemptOk(Last(s));
    OpenIsInv(s);
    match start
    case AtPreflight => FromPlanningKeeps(cfg, s, w);
    case AtPlanning => FromPlanningKeeps(cfg, s, w);
    case AtWorktree => FromImplementerKeeps(cfg, s, w);
    case AtExecuting => FromImplementerKeeps(cfg, s, w);
    case AtTesting => FromTestsKeeps(cfg, s, w);
    case AtReviewing => FromReviewKeeps(cfg, s, w);
    case AtApproved => FinalizingKeeps(cfg, s, w);
    case _ =>
  }
}
