/**
 * `execute_parallel_batch` from end to end (src/cc_loop/parallel_scheduler.py): what discovery
 * hands to the batch, and what the batch hands to the merge loop.
 */
module ParallelChain {
  import opened Option
  import opened TaskGraph
  import opened TaskState
  import opened AutoLoop
  import opened NodePipeline
  import opened ParallelBatch
  import opened BatchResults
  import opened WorkerIsolation
  import opened MergeQueue

  // ---------------------------------------------------------------- discovery to batch

  /** Whatever discovery finds on a sound graph without empty ids, a batch can start on it. */
  lemma DiscoveredIsStartable(cfg: Config, maxParallel: int, s: Shared)
    requires s.task.graph.Some? && GraphRuns.Sound(s.task.graph.value) && "" !in Ids(s.task.graph.value)
    requires Discovered(cfg, maxParallel, s).picked != []
    ensures Startable(Scanned(cfg, maxParallel, s), PickedIds(Discovered(cfg, maxParallel, s)))
  {
    var r, ns := Discovered(cfg, maxParallel, s), s.task.graph.value;
    BatchFitsAndIsIndependent(cfg, maxParallel, s);
    forall j: nat | j < |r.picked| ensures PickedIds(r)[j] == ns[r.picked[j]].id && ns[r.picked[j]].id in Ids(r.nodes) {
      assert r.nodes[r.picked[j]] == ns[r.picked[j]];
    }
    forall j: nat | j < |r.picked| ensures PickedIds(r)[j] != "" {
      assert ns[r.picked[j]].id in Ids(ns);
    }
  }

  /** Discovery changes statuses only, so what holds of names and attempts holds after it. */
  lemma ScannedIsSane(cfg: Config, maxParallel: int, s: Shared)
    requires Sane(s)
    ensures Sane(Scanned(cfg, maxParallel, s))
  {
    if s.task.graph.Some? && Room(maxParallel, s) > 0 {
      var g, h := s.task.graph.value, Scanned(cfg, maxParallel, s).task.graph.value;
      Blocking.ScanBlocksOnlyDoomed(g, cfg.maxRetries, Room(maxParallel, s), s.running.Keys);
      forall m: nat | m < |s.task.history| && s.task.history[m].nodeId != "" ensures FirstIndex(h, s.task.history[m].nodeId).Some? {
        SameFirstIndex(g, h, s.task.history[m].nodeId);
      }
    }
  }

  // ---------------------------------------------------------------- batch to merge loop

  /** The entries of `running_attempts` are places of history. */
  ghost predicate RunningOk(s: Shared) {
    forall id | id in s.running :: s.running[id] < |s.task.history|
  }

  /** The critical sections of a batch of node pipelines on `s`, from its preparation to its last collection. */
  ghost predicate RunsThrough(cfg: Config, s: Shared, ids: seq<string>, worlds: seq<World>, moves: seq<Move>, trace: seq<State>) {
    var b := PipelineBatch(ThePipeline(cfg), s, ids, worlds);
    |worlds| == |ids| && Runs(b, WithAttempts(s, ids), moves, trace) && Drained(b, moves)
  }

  ghost predicate EndsWith(cfg: Config, s: Shared, ids: seq<string>, worlds: seq<World>, moves: seq<Move>, trace: seq<State>) {
    Startable(s, ids) && RunsThrough(cfg, s, ids, worlds, moves, trace)
  }

  lemma EndFacts(cfg: Config, s: Shared, ids: seq<string>, worlds: seq<World>, moves: seq<Move>, trace: seq<State>)
    returns (b: Batch, p: Shared, r: Shared)
    requires EndsWith(cfg, s, ids, worlds, moves, trace)
    ensures b == PipelineBatch(ThePipeline(cfg), s, ids, worlds) && p == WithAttempts(s, ids) && r == trace[|moves|].shared
    ensures Ready(b, p) && Isolated(b, p) && Conserved(b, p, BlamedLater(b, moves), r) && r.running == s.running
    ensures b.ids == ids && b.base == |s.task.history| && |r.task.history| == b.base + |ids|
    ensures forall m | 0 <= m < b.base :: r.task.history[m] == s.task.history[m] == p.task.history[m]
    ensures s.task.graph.Some? && r.task.graph.Some? && SameNames(s.task.graph.value, r.task.graph.value)
  {
    b, p, r := PipelineBatch(ThePipeline(cfg), s, ids, worlds), WithAttempts(s, ids), trace[|moves|].shared;
    PipelineBehaves(cfg);
    WorkersAreIsolated(ThePipeline(cfg), s, ids, worlds);
    BatchOfPipelinesConserves(cfg, s, ids, worlds, moves, trace);
    PreparedHistory(s, ids);
  }

  lemma LeftNodeIds(b: Batch, p: Shared, blamed: bool, r: Shared, m: nat)
    requires Ready(b, p) && Isolated(b, p) && Conserved(b, p, blamed, r) && b.base <= m < |p.task.history|
    ensures r.task.history[m].nodeId == b.ids[m - b.base]
  {
    AloneIsOfNode(b, p, m - b.base);
  }

  /** The batch leaves a state the merge loop's theorems apply to. */
  lemma BatchEndsSane(cfg: Config, s: Shared, ids: seq<string>, worlds: seq<World>, moves: seq<Move>, trace: seq<State>)
    requires EndsWith(cfg, s, ids, worlds, moves, trace) && Sane(s) && RunningOk(s)
    ensures Sane(trace[|moves|].shared) && RunningOk(trace[|moves|].shared)
  {
    var b, p, r := EndFacts(cfg, s, ids, worlds, moves, trace);
    var g, h := s.task.graph.value, r.task.graph.value;
    forall m: nat | m < |r.task.history| && r.task.history[m].nodeId != "" ensures FirstIndex(h, r.task.history[m].nodeId).Some? {
      if m >= b.base {
        LeftNodeIds(b, p, BlamedLater(b, moves), r, m);
        KnownId(g, ids[m - b.base]);
      }
      SameFirstIndex(g, h, r.task.history[m].nodeId);
    }
  }

  /** The last worker approved, its attempt was blamed afterwards, and no older attempt can stand in for it. */
  ghost predicate Stranded(b: Batch, p: Shared, moves: seq<Move>) {
    b.ids != [] && b.base <= |p.task.history| && BlamedLater(b, moves) && Alone(b, p, |b.ids| - 1).verdict.Approves? && NeverMergeable(b, p)
  }

  lemma MergeableIsFound(s: Shared, m: nat, id: string)
    requires m < |s.task.history| && IsMergeable(s.task.history[m], id)
    ensures AttemptFor(s, id).Some?
  {
  }

  /** A node queued before the batch still has its attempt. */
  lemma OldEntryIsFound(s: Shared, r: Shared, id: string)
    requires AttemptFor(s, id).Some? && r.running == s.running && |s.task.history| <= |r.task.history|
    requires forall m | 0 <= m < |s.task.history| :: r.task.history[m] == s.task.history[m]
    ensures AttemptFor(r, id).Some?
  {
    if !(id in s.running && s.running[id] < |s.task.history|) {
      MergeableIsFound(r, AttemptFor(s, id).value, id);
    }
  }

  /** So has a node whose worker approved, unless it is the stranded one. */
  lemma ApprovedIsFound(b: Batch, p: Shared, blamed: bool, r: Shared, j: nat)
    requires Ready(b, p) && Isolated(b, p) && Conserved(b, p, blamed, r) && j < |b.ids| && Alone(b, p, j).verdict.Approves?
    requires j == |b.ids| - 1 && blamed ==> !NeverMergeable(b, p)
    ensures AttemptFor(r, b.ids[j]).Some?
  {
    AloneIsOfNode(b, p, j);
    if j == |b.ids| - 1 && blamed {
      var m :| 0 <= m < b.base && IsMergeable(p.task.history[m], b.ids[j]);
      MergeableIsFound(r, m, b.ids[j]);
    } else {
      MergeableIsFound(r, b.base + j, b.ids[j]);
    }
  }

  /** After a batch every queued node has an attempt exactly when the last one is not stranded. */
  lemma QueueHasAttemptsExactlyWhen(cfg: Config, s: Shared, ids: seq<string>, worlds: seq<World>, moves: seq<Move>, trace: seq<State>)
    requires EndsWith(cfg, s, ids, worlds, moves, trace) && Distinct(s.queue) && AllHaveAttempts(s, s.queue)
    ensures var b, p, r := PipelineBatch(ThePipeline(cfg), s, ids, worlds), WithAttempts(s, ids), trace[|moves|].shared;
      Distinct(r.queue) && (AllHaveAttempts(r, r.queue) <==> !Stranded(b, p, moves))
  {
    var b, p, r := EndFacts(cfg, s, ids, worlds, moves, trace);
    PreparedHistory(s, ids);
    QueueGainsExactlyTheApproved(b, p, moves, trace, ids[|ids| - 1]);
    if Stranded(b, p, moves) {
      StrandedIsLost(b, p, moves, trace);
    } else {
      forall i | 0 <= i < |r.queue| ensures AttemptFor(r, r.queue[i]).Some? {
        QueueEntryIsFound(b, p, s, moves, trace, r.queue[i]);
      }
    }
  }

  lemma StrandedIsLost(b: Batch, p: Shared, moves: seq<Move>, trace: seq<State>)
    requires Ready(b, p) && Isolated(b, p) && Runs(b, p, moves, trace) && Drained(b, moves) && Distinct(p.queue) && Stranded(b, p, moves)
    ensures var r := trace[|moves|].shared; !AllHaveAttempts(r, r.queue)
  {
    var r, lastId := trace[|moves|].shared, b.ids[|b.ids| - 1];
    QueueGainsExactlyTheApproved(b, p, moves, trace, lastId);
    LastNodeIsFoundExactlyWhen(b, p, moves, trace);
    assert exists i :: 0 <= i < |r.queue| && r.queue[i] == lastId;
  }

  lemma QueueEntryIsFound(b: Batch, p: Shared, s: Shared, moves: seq<Move>, trace: seq<State>, id: string)
    requires Ready(b, p) && Isolated(b, p) && Runs(b, p, moves, trace) && Drained(b, moves) && Distinct(p.queue)
    requires var r := trace[|moves|].shared;
      Conserved(b, p, BlamedLater(b, moves), r) && r.running == s.running && id in r.queue
      && |s.task.history| <= |r.task.history| && forall m | 0 <= m < |s.task.history| :: r.task.history[m] == s.task.history[m]
    requires p.queue == s.queue && AllHaveAttempts(s, s.queue) && !Stranded(b, p, moves)
    ensures AttemptFor(trace[|moves|].shared, id).Some?
  {
    var r := trace[|moves|].shared;
    QueueGainsExactlyTheApproved(b, p, moves, trace, id);
    if id in s.queue {
      OldEntryIsFound(s, r, id);
    } else {
      var j :| 0 <= j < |b.ids| && b.ids[j] == id && Alone(b, p, j).verdict.Approves?;
      ApprovedIsFound(b, p, BlamedLater(b, moves), r, j);
    }
  }

  /** The merge loop has ended and finalised the queue of `r`, once each, first in first out. */
  ghost predicate MergedAll(cfg: Config, r: Shared, answers: seq<World>)
    requires |answers| >= |r.queue|
  {
    var l := Turns(cfg, Begin(r), answers);
    && Over(l) && l.progress == Draining && l.memory == l.disk && l.disk.queue == []
    && AllHaveAttempts(r, r.queue) && l.finalised == AttemptsOf(r, r.queue)
    && l.disk.task == FinalizeAll(cfg, r.task, AttemptsOf(r, r.queue), answers)
  }

  lemma BatchThenMergesDrains(cfg: Config, s: Shared, ids: seq<string>, worlds: seq<World>, moves: seq<Move>, trace: seq<State>, answers: seq<World>)
    requires EndsWith(cfg, s, ids, worlds, moves, trace) && Sane(s) && RunningOk(s)
    requires Distinct(s.queue) && AllHaveAttempts(s, s.queue) && |answers| >= |trace[|moves|].shared.queue|
    requires !Stranded(PipelineBatch(ThePipeline(cfg), s, ids, worlds), WithAttempts(s, ids), moves)
    ensures MergedAll(cfg, trace[|moves|].shared, answers)
  {
    BatchEndsSane(cfg, s, ids, worlds, moves, trace);
    QueueHasAttemptsExactlyWhen(cfg, s, ids, worlds, moves, trace);
    MergeLoopDrains(cfg, Begin(trace[|moves|].shared), answers);
  }

  /**
   * From end to end: on a sound graph discovery finds nodes, their batch runs through in any
   * interleaving, and unless its last node is stranded a merge loop follows that ends, has finalised
   * every queued node once, first in first out, and leaves the queue empty.
   */
  lemma DiscoveredBatchDrains(cfg: Config, maxParallel: int, s: Shared, worlds: seq<World>, moves: seq<Move>, trace: seq<State>, answers: seq<World>)
    requires s.task.graph.Some? && GraphRuns.Sound(s.task.graph.value) && "" !in Ids(s.task.graph.value)
    requires Sane(s) && RunningOk(s) && Distinct(s.queue) && AllHaveAttempts(s, s.queue)
    requires Discovered(cfg, maxParallel, s).picked != []
    requires var d, ids := Scanned(cfg, maxParallel, s), PickedIds(Discovered(cfg, maxParallel, s));
      RunsThrough(cfg, d, ids, worlds, moves, trace)
      && !Stranded(PipelineBatch(ThePipeline(cfg), d, ids, worlds), WithAttempts(d, ids), moves)
    requires |answers| >= |trace[|moves|].shared.queue|
    ensures MergedAll(cfg, trace[|moves|].shared, answers)
  {
    var d, ids := Scanned(cfg, maxParallel, s), PickedIds(Discovered(cfg, maxParallel, s));
    DiscoveredIsStartable(cfg, maxParallel, s);
    ScannedIsSane(cfg, maxParallel, s);
    assert forall i | 0 <= i < |s.queue| :: AttemptFor(d, s.queue[i]) == AttemptFor(s, s.queue[i]);
    BatchThenMergesDrains(cfg, d, ids, worlds, moves, trace, answers);
  }

  // ---------------------------------------------------------------- a batch that strands a node

  predicate WorkerGoesWell(w: World) {
    w.worktreeAdded && w.implementer.Implemented? && w.implementer.exitCode == 0 && !w.implementer.abnormal
    && w.reviewers == [Reviewer.Reviewed(Approve)]
  }

  predicate WorkerStrays(w: World) {
    w.worktreeAdded && (w.implementer.ImplementerUnavailable? || w.implementer.abnormal)
  }

  lemma GoodImplement(s: Task, k: nat, w: World)
    requires k < |s.history| && s.history[k].hasPlan && s.history[k].exitCode.None? && WorkerGoesWell(w)
    ensures ImplementingAt(s, k, w).Ok? && ImplementingAt(s, k, w).state.history[k].decision == s.history[k].decision
  {
    ImplementIs(s, k, w);
  }

  lemma GoodReview(s: Task, k: nat, w: World)
    requires k < |s.history| && s.history[k].decision.None? && WorkerGoesWell(w)
    ensures var r := ReviewingAt(s, k, w); r.Ok? && r.state.history[k].decision == Some(Approve) && r.state.history[k].phase == AtApproved
  {
    ReviewIs(s, k, w);
    assert Decisions(w.reviewers) == [Approve];
    assert Aggregate([Approve]) == Approve;
  }

  /** A fresh attempt whose inputs all go well is approved. */
  lemma GoodPipelineApproves(cfg: Config, s: Task, k: nat, id: string, w: World)
    requires Fits(s, k, id) && s.history[k].exitCode.None? && s.history[k].decision.None? && WorkerGoesWell(w)
    ensures VerdictOn(ThePipeline(cfg)(s, k, id, w), k).Approves?
  {
    var s1 := Started(s, k, id);
    StartedTouches(s, k, id);
    SetupTouches(cfg, s1, k, w);
    var ready := SetupAt(cfg, s1, k, w).state;
    GoodImplement(ready, k, w);
    GoodReview(TestingAt(cfg, ImplementingAt(ready, k, w).state, k, w), k, w);
  }

  lemma GoodWorkerApproves(cfg: Config, s: Shared, ids: seq<string>, worlds: seq<World>, j: nat)
    requires Startable(s, ids) && |worlds| == |ids| && j < |ids| && WorkerGoesWell(worlds[j])
    ensures Alone(PipelineBatch(ThePipeline(cfg), s, ids, worlds), WithAttempts(s, ids), j).verdict.Approves?
  {
    var t, k, _ := AloneRunsPipe(ThePipeline(cfg), s, ids, worlds, j);
    GoodPipelineApproves(cfg, t, k, ids[j], worlds[j]);
  }

  function PlainNode(id: string): Node {
    Node(id, [], [], Pending, [], 0, 0, false, None)
  }

  /** Nodes `a` and `b`, independent and never tried. */
  function TwoNodes(): Shared {
    Shared(Task(TaskRunning, 0, [], Some([PlainNode("a"), PlainNode("b")])), map[], [])
  }

  lemma TwoNodesAreStartable()
    ensures Startable(TwoNodes(), ["a", "b"])
  {
    var g := [PlainNode("a"), PlainNode("b")];
    assert g[0].id == "a" && g[1].id == "b";
    assert g[0].id in Ids(g) && g[1].id in Ids(g);
    assert "a" != "b" by { assert "a"[0] != "b"[0]; }
  }

  /**
   * Two nodes, of which `b` is implemented, tested and approved, and `a` times out after that: `b`
   * is stranded.  Its attempt is FAILED, it is the only entry of the queue, and none is found for it.
   */
  lemma TwoWorkersCanStrand(cfg: Config, worlds: seq<World>) returns (moves: seq<Move>, trace: seq<State>)
    requires |worlds| == 2 && WorkerStrays(worlds[0]) && WorkerGoesWell(worlds[1])
    ensures moves == [Work(1), Work(0), Collect(0), Collect(1)]
    ensures EndsWith(cfg, TwoNodes(), ["a", "b"], worlds, moves, trace)
    ensures var r := trace[4].shared;
      r.queue == ["b"] && AttemptFor(r, "b").None? && |r.task.history| == 2 && r.task.history[1].phase == AtFailed
  {
    var s, ids := TwoNodes(), ["a", "b"];
    var b, p;
    b, p, moves, trace := StrandingRun(cfg, s, ids, worlds);
    StrandsTwo(b, p, moves, trace);
  }

  lemma StrandingRun(cfg: Config, s: Shared, ids: seq<string>, worlds: seq<World>)
    returns (b: Batch, p: Shared, moves: seq<Move>, trace: seq<State>)
    requires s == TwoNodes() && ids == ["a", "b"] && |worlds| == 2 && WorkerStrays(worlds[0]) && WorkerGoesWell(worlds[1])
    ensures moves == [Work(1), Work(0), Collect(0), Collect(1)] && EndsWith(cfg, s, ids, worlds, moves, trace)
    ensures b.ids == ids && b.base == 0 && p.queue == [] && Ready(b, p) && Isolated(b, p)
    ensures Runs(b, p, moves, trace) && Drained(b, moves) && BlamedLater(b, moves)
    ensures Alone(b, p, 0).verdict.Fails? && Alone(b, p, 1).verdict.Approves?
  {
    b, p := PipelineBatch(ThePipeline(cfg), s, ids, worlds), WithAttempts(s, ids);
    TwoNodesAreStartable();
    moves := LastFirst(2);
    assert moves == [Work(1), Work(0), Collect(0), Collect(1)];
    LastFirstIsOrdered(b);
    trace := OrderedMovesRun(b, p, moves);
    assert b.strays(0);
    SchedulesBlame(b);
    StrayFails(cfg, s, ids, worlds, 0);
    GoodWorkerApproves(cfg, s, ids, worlds, 1);
    PipelineBehaves(cfg);
    WorkersAreIsolated(ThePipeline(cfg), s, ids, worlds);
    PreparedHistory(s, ids);
  }

  lemma StrandsTwo(b: Batch, p: Shared, moves: seq<Move>, trace: seq<State>)
    requires Ready(b, p) && Isolated(b, p) && Runs(b, p, moves, trace) && Drained(b, moves)
    requires |b.ids| == 2 && b.base == 0 && p.queue == [] && BlamedLater(b, moves)
    requires Alone(b, p, 0).verdict.Fails? && Alone(b, p, 1).verdict.Approves?
    ensures var r := trace[|moves|].shared;
      r.queue == [b.ids[1]] && AttemptFor(r, b.ids[1]).None? && |r.task.history| == 2 && r.task.history[1].phase == AtFailed
  {
    SecondIsQueued(b, p, moves, trace);
    LastNodeIsFoundExactlyWhen(b, p, moves, trace);
    BatchConservesUpdates(b, p, moves, trace);
  }

  /** The queue gains the second node and no other: the first one's worker failed. */
  lemma SecondIsQueued(b: Batch, p: Shared, moves: seq<Move>, trace: seq<State>)
    requires Ready(b, p) && Isolated(b, p) && Runs(b, p, moves, trace) && Drained(b, moves) && p.queue == [] && |b.ids| == 2
    requires Alone(b, p, 0).verdict.Fails? && Alone(b, p, 1).verdict.Approves?
    ensures trace[|moves|].shared.queue == [b.ids[1]]
  {
    var q := trace[|moves|].shared.queue;
    QueueGainsExactlyTheApproved(b, p, moves, trace, b.ids[1]);
    forall id ensures id in q <==> id == b.ids[1] {
      QueueGainsExactlyTheApproved(b, p, moves, trace, id);
    }
    OnlyEntry(q, b.ids[1]);
  }

  lemma OnlyEntry(q: seq<string>, x: string)
    requires Distinct(q) && forall y :: y in q <==> y == x
    ensures q == [x]
  {
    assert x in q;
    forall i | 0 <= i < |q| ensures q[i] == x { assert q[i] in q; }
    assert q[0] == x && q[|q| - 1] == x;
  }

  lemma StrayFails(cfg: Config, s: Shared, ids: seq<string>, worlds: seq<World>, j: nat)
    requires Startable(s, ids) && |worlds| == |ids| && j < |ids| && WorkerStrays(worlds[j])
    ensures Alone(PipelineBatch(ThePipeline(cfg), s, ids, worlds), WithAttempts(s, ids), j).verdict.Fails?
  {
    var t, k, _ := AloneRunsPipe(ThePipeline(cfg), s, ids, worlds, j);
    StrayPipelineFails(cfg, t, k, ids[j], worlds[j]);
  }

  lemma StrayPipelineFails(cfg: Config, s: Task, k: nat, id: string, w: World)
    requires Fits(s, k, id) && s.history[k].exitCode.None? && WorkerStrays(w)
    ensures ThePipeline(cfg)(s, k, id, w).Raised?
  {
    var s1 := Started(s, k, id);
    StartedTouches(s, k, id);
    SetupTouches(cfg, s1, k, w);
    ImplementIs(SetupAt(cfg, s1, k, w).state, k, w);
  }
}
