/** The batches of parallel_scheduler.py: workers that run the node pipeline, under the task lock. */
module WorkerIsolation {
  import opened Option
  import opened TaskGraph
  import opened TaskState
  import opened AutoLoop
  import opened NodePipeline
  import opened BatchResults
  import opened ParallelBatch
  import StateLock

  /** A worker: the state it loads, its place in history, its node, its inputs. */
  type Pipe = (Task, nat, string, World) -> Outcome

  /** `run_single_node_pipeline` under one configuration. */
  function ThePipeline(cfg: Config): Pipe {
    (s: Task, k: nat, id: string, w: World) => Pipeline(cfg, s, k, id, w)
  }

  /** The batch that `execute_parallel_batch` starts on `s` for the nodes `ids`. */
  function PipelineBatch(pipe: Pipe, s: Shared, ids: seq<string>, worlds: seq<World>): Batch {
    var base := |s.task.history|;
    Batch(ids, base,
      (t: Task, j: nat) => if j < |ids| && j < |worlds| then pipe(t, base + j, ids[j], worlds[j]) else Raised(t, Crash),
      (j: nat) => j < |worlds| && Strays(NewAttempt(0, 0, ""), worlds[j]))
  }

  // ---------------------------------------------------------------- what the pipeline guarantees

  predicate Fits(s: Task, k: nat, id: string) {
    k < |s.history| && s.graph.Some? && id != "" && FirstIndex(s.graph.value, id).Some? && s.history[k].nodeId == id
  }

  /** The outcome `r` of a worker comes from writes to its own attempt and node, and the blame if it strays. */
  ghost predicate Contained(s: Task, k: nat, w: World, r: Outcome, mid: Task)
    requires k < |s.history|
  {
    Touches(s, mid, k) && r.state == if Strays(s.history[k], w) then FailAttempt(mid, ImplementingError).state else mid
  }

  ghost predicate Contains(pipe: Pipe, s: Task, k: nat, id: string, w: World)
    requires k < |s.history|
  {
    exists mid :: Contained(s, k, w, pipe(s, k, id, w), mid)
  }

  ghost predicate Agrees(pipe: Pipe, p: Task, s: Task, k: nat, id: string, w: World) {
    Twins(pipe(p, k, id, w), pipe(s, k, id, w), k)
  }

  /** What the batch needs to know of its workers. */
  ghost predicate Behaves(pipe: Pipe) {
    && (forall s: Task, k: nat, id: string, w: World | Fits(s, k, id) :: Contains(pipe, s, k, id, w))
    && (forall p: Task, s: Task, k: nat, id: string, w: World | Fits(p, k, id) && Alike(p, s, k, id) :: Agrees(pipe, p, s, k, id, w))
  }

  lemma PipelineBehaves(cfg: Config)
    ensures Behaves(ThePipeline(cfg))
  {
    forall s: Task, k: nat, id: string, w: World | Fits(s, k, id) ensures Contains(ThePipeline(cfg), s, k, id, w) {
      PipelineContains(cfg, s, k, id, w);
    }
    forall p: Task, s: Task, k: nat, id: string, w: World | Fits(p, k, id) && Alike(p, s, k, id)
      ensures Agrees(ThePipeline(cfg), p, s, k, id, w) {
      PipelineTwin(cfg, p, s, k, id, w);
    }
  }

  lemma PipelineContains(cfg: Config, s: Task, k: nat, id: string, w: World)
    requires Fits(s, k, id)
    ensures Contains(ThePipeline(cfg), s, k, id, w)
  {
    var mid, t := PipelineTouches(cfg, s, k, id, w);
    assert Contained(s, k, w, ThePipeline(cfg)(s, k, id, w), mid);
  }

  // ---------------------------------------------------------------- from the pipeline to the batch

  ghost predicate Startable(s: Shared, ids: seq<string>) {
    && |ids| > 0 && Distinct(ids) && s.task.graph.Some?
    && forall j | 0 <= j < |ids| :: ids[j] != "" && ids[j] in Ids(s.task.graph.value) && ids[j] !in s.running
  }

  lemma TouchesKeepsShape(b: Batch, p: Shared, s: Task, t: Task, j: nat)
    requires Ready(b, p) && InShape(b, p, s) && j < |b.ids| && Touches(s, t, b.base + j)
    ensures InShape(b, p, t) && OtherNodesKept(b, s, t)
    ensures forall h: nat | h < |b.ids| && h != j :: NodeNamed(t, b.ids[h]) == NodeNamed(s, b.ids[h])
  {
    assert s.history[b.base + j].nodeId == b.ids[j];
    forall h: nat | h < |b.ids| && h != j ensures NodeNamed(t, b.ids[h]) == NodeNamed(s, b.ids[h]) {
      TouchesOneName(s, t, b.base + j, b.ids[h]);
    }
  }

  /** The blame on `history[-1]`: one more attempt and one more node of the batch. */
  lemma BlameKeepsShape(b: Batch, p: Shared, s: Task)
    requires Ready(b, p) && InShape(b, p, s)
    ensures var t, last, n := FailAttempt(s, ImplementingError).state, |s.history| - 1, |b.ids| - 1;
      && InShape(b, p, t) && OtherNodesKept(b, s, t)
      && (forall m | 0 <= m < last :: t.history[m] == s.history[m])
      && t.history[last] == s.history[last].(phase := AtFailed)
      && (forall h: nat | h < n :: NodeNamed(t, b.ids[h]) == NodeNamed(s, b.ids[h]))
      && NodeNamed(t, b.ids[n]) == Failing(NodeNamed(s, b.ids[n]), true)
  {
    var n := |b.ids| - 1;
    assert NodeReady(b, p, n);
    SameFirstIndex(p.task.graph.value, s.graph.value, b.ids[n]);
    BlameLast(s, ImplementingError);
    TouchesKeepsShape(b, p, s, FailAttempt(s, ImplementingError).state, n);
  }

  /** From the worker's last own write to what it leaves: nothing, or the blame on `history[-1]`. */
  lemma WorkLeaves(b: Batch, p: Shared, s: Task, mid: Task, t: Task, j: nat)
    requires Ready(b, p) && InShape(b, p, s) && j < |b.ids| && Touches(s, mid, b.base + j)
    requires t == if b.strays(j) then FailAttempt(mid, ImplementingError).state else mid
    ensures InShape(b, p, t) && Leaves(b, s, t, j)
  {
    TouchesKeepsShape(b, p, s, mid, j);
    if b.strays(j) {
      StrayLeaves(b, p, s, mid, j);
    }
  }

  lemma StrayLeaves(b: Batch, p: Shared, s: Task, mid: Task, j: nat)
    requires Ready(b, p) && InShape(b, p, s) && InShape(b, p, mid) && j < |b.ids| && b.strays(j) && OtherNodesKept(b, s, mid)
    requires forall m | 0 <= m < |s.history| && m != b.base + j :: mid.history[m] == s.history[m]
    requires forall h: nat | h < |b.ids| && h != j :: NodeNamed(mid, b.ids[h]) == NodeNamed(s, b.ids[h])
    ensures var t := FailAttempt(mid, ImplementingError).state; InShape(b, p, t) && Leaves(b, s, t, j)
  {
    BlameKeepsShape(b, p, mid);
    OthersKeptTwice(b, s, mid, FailAttempt(mid, ImplementingError).state);
  }

  lemma ShapeFits(b: Batch, p: Shared, s: Task, j: nat)
    requires Ready(b, p) && InShape(b, p, s) && j < |b.ids| && Waiting(b, p, s, j)
    ensures Fits(s, b.base + j, b.ids[j]) && Fits(p.task, b.base + j, b.ids[j]) && Alike(p.task, s, b.base + j, b.ids[j])
  {
    assert NodeReady(b, p, j);
    SameFirstIndex(p.task.graph.value, s.graph.value, b.ids[j]);
  }

  /** The workers of a batch keep to themselves, but for the blame that some put on `history[-1]`. */
  lemma WorkersAreIsolated(pipe: Pipe, s: Shared, ids: seq<string>, worlds: seq<World>)
    requires Startable(s, ids) && |worlds| == |ids| && Behaves(pipe)
    ensures var b, p := PipelineBatch(pipe, s, ids, worlds), WithAttempts(s, ids);
      Ready(b, p) && Isolated(b, p)
  {
    var b, p := PipelineBatch(pipe, s, ids, worlds), WithAttempts(s, ids);
    PreparationIsReady(b, s);
    forall t: Task, j: nat | j < |b.ids| && InShape(b, p, t) && Waiting(b, p, t, j) ensures Confined(b, p, t, j) {
      WorkerIsConfined(pipe, s, ids, worlds, t, j);
    }
  }

  lemma WorkerIsConfined(pipe: Pipe, s: Shared, ids: seq<string>, worlds: seq<World>, t: Task, j: nat)
    requires |worlds| == |ids| && Behaves(pipe)
    requires var b, p := PipelineBatch(pipe, s, ids, worlds), WithAttempts(s, ids);
      Ready(b, p) && j < |b.ids| && InShape(b, p, t) && Waiting(b, p, t, j)
    ensures Confined(PipelineBatch(pipe, s, ids, worlds), WithAttempts(s, ids), t, j)
  {
    var b, p := PipelineBatch(pipe, s, ids, worlds), WithAttempts(s, ids);
    ShapeFits(b, p, t, j);
    PreparedBatch(s, ids, j);
    var mid := BatchOutcome(pipe, s, ids, worlds, b, p.task, t, j);
    OutcomeIsConfined(b, p, t, b.work(t, j), b.work(p.task, j), mid, j);
  }

  lemma BatchOutcome(pipe: Pipe, s: Shared, ids: seq<string>, worlds: seq<World>, b: Batch, p: Task, t: Task, j: nat) returns (mid: Task)
    requires j < |ids| == |worlds| && Behaves(pipe) && b == PipelineBatch(pipe, s, ids, worlds)
    requires Fits(t, b.base + j, ids[j]) && Fits(p, b.base + j, ids[j]) && Alike(p, t, b.base + j, ids[j])
    requires p.history[b.base + j].exitCode.None?
    ensures Touches(t, mid, b.base + j) && Twins(b.work(p, j), b.work(t, j), b.base + j)
    ensures b.work(t, j).state == if b.strays(j) then FailAttempt(mid, ImplementingError).state else mid
  {
    StraysAsPrepared(p.history[b.base + j], t.history[b.base + j], worlds[j]);
    mid := WorkerOutcome(pipe, p, t, b.base + j, ids[j], worlds[j]);
  }

  lemma StraysAsPrepared(a: Attempt, c: Attempt, w: World)
    requires a.(phase := AtPlanning) == c.(phase := AtPlanning) && a.exitCode.None?
    ensures Strays(c, w) == Strays(NewAttempt(0, 0, ""), w)
  {
  }

  lemma WorkerOutcome(pipe: Pipe, p: Task, s: Task, k: nat, id: string, w: World) returns (mid: Task)
    requires Behaves(pipe) && Fits(s, k, id) && Fits(p, k, id) && Alike(p, s, k, id)
    ensures Contained(s, k, w, pipe(s, k, id, w), mid)
    ensures Twins(pipe(p, k, id, w), pipe(s, k, id, w), k)
  {
    assert Contains(pipe, s, k, id, w);
    mid :| Contained(s, k, w, pipe(s, k, id, w), mid);
    assert Agrees(pipe, p, s, k, id, w);
  }

  lemma OutcomeIsConfined(b: Batch, p: Shared, s: Task, r: Outcome, u: Outcome, mid: Task, j: nat)
    requires Ready(b, p) && InShape(b, p, s) && j < |b.ids| && r == b.work(s, j) && u == b.work(p.task, j)
    requires Touches(s, mid, b.base + j) && Twins(u, r, b.base + j)
    requires r.state == if b.strays(j) then FailAttempt(mid, ImplementingError).state else mid
    ensures Confined(b, p, s, j)
  {
    WorkLeaves(b, p, s, mid, r.state, j);
    assert r.state.history[b.base + j].nodeId == b.ids[j];
  }

  // ---------------------------------------------------------------- the batch of the program

  /**
   * A parallel batch of node pipelines, from before its preparation to its last collection: the
   * table of running attempts is back to what it was, and no update of a node or an attempt is
   * lost, in every interleaving.
   */
  lemma BatchOfPipelinesConserves(cfg: Config, s: Shared, ids: seq<string>, worlds: seq<World>, moves: seq<Move>, trace: seq<State>)
    requires Startable(s, ids) && |worlds| == |ids|
    requires var b := PipelineBatch(ThePipeline(cfg), s, ids, worlds);
      Runs(b, WithAttempts(s, ids), moves, trace) && Drained(b, moves)
    ensures var b, r := PipelineBatch(ThePipeline(cfg), s, ids, worlds), trace[|moves|].shared;
      Conserved(b, WithAttempts(s, ids), BlamedLater(b, moves), r) && r.running == s.running
  {
    var b, p := PipelineBatch(ThePipeline(cfg), s, ids, worlds), WithAttempts(s, ids);
    PipelineBehaves(cfg);
    WorkersAreIsolated(ThePipeline(cfg), s, ids, worlds);
    BatchConservesUpdates(b, p, moves, trace);
    RunningRestored(s, ids);
  }

  /**
   * At the end every node of the batch is as it was but for its status: FAILED if its worker
   * failed, or if it is the last and was blamed after its worker was through; RUNNING otherwise.
   */
  lemma BatchLeavesNodes(cfg: Config, s: Shared, ids: seq<string>, worlds: seq<World>, moves: seq<Move>, trace: seq<State>, j: nat)
    requires Startable(s, ids) && |worlds| == |ids| && j < |ids|
    requires var b := PipelineBatch(ThePipeline(cfg), s, ids, worlds);
      Runs(b, WithAttempts(s, ids), moves, trace) && Drained(b, moves)
    ensures var b, p := PipelineBatch(ThePipeline(cfg), s, ids, worlds), WithAttempts(s, ids);
      var fails := Alone(b, p, j).verdict.Fails? || (j == |ids| - 1 && BlamedLater(b, moves));
      NodeNamed(s.task, ids[j]).Some?
      && NodeNamed(trace[|moves|].shared.task, ids[j]) == Some(NodeNamed(s.task, ids[j]).value.(status := if fails then Failed else Running))
  {
    var b, p := PipelineBatch(ThePipeline(cfg), s, ids, worlds), WithAttempts(s, ids);
    BatchOfPipelinesConserves(cfg, s, ids, worlds, moves, trace);
    NodeOfAlone(cfg, s, ids, worlds, j);
    LeftFromAlone(b, p, trace[|moves|].shared, j, BlamedLater(b, moves), NodeNamed(s.task, ids[j]));
  }

  lemma LeftFromAlone(b: Batch, p: Shared, r: Shared, j: nat, blamed: bool, prepared: Option<Node>)
    requires Conserved(b, p, blamed, r) && j < |b.ids| && AloneStands(Alone(b, p, j), prepared)
    ensures var fails := Alone(b, p, j).verdict.Fails? || (j == |b.ids| - 1 && blamed);
      NodeNamed(r.task, b.ids[j]) == Some(prepared.value.(status := if fails then Failed else Running))
  {
    assert NodeNamed(r.task, b.ids[j]) == LeftNode(b, p, j, blamed);
  }

  /** A node as its worker leaves it: only the status is new, and RUNNING unless the worker failed. */
  ghost predicate AloneStands(alone: Result, prepared: Option<Node>) {
    && prepared.Some? && alone.node.Some? && Unmarked(alone.node) == Unmarked(prepared)
    && (!alone.verdict.Fails? ==> alone.node.value.status == Running)
  }

  /** What a worker comes to by itself is one run of the pipeline, on a new attempt of its node. */
  lemma AloneRunsPipe(pipe: Pipe, s: Shared, ids: seq<string>, worlds: seq<World>, j: nat) returns (t: Task, k: nat, r: Outcome)
    requires Startable(s, ids) && j < |ids| == |worlds|
    ensures k == |s.task.history| + j && r == pipe(t, k, ids[j], worlds[j])
    ensures Fits(t, k, ids[j]) && t.graph == s.task.graph && t.history[k] == NewAttempt(s.task.iteration + j + 1, 0, ids[j])
    ensures var a := Alone(PipelineBatch(pipe, s, ids, worlds), WithAttempts(s, ids), j);
      && (k < |r.state.history| ==> a.attempt == r.state.history[k])
      && a.node == NodeNamed(r.state, ids[j]) && a.verdict == VerdictOn(r, k)
  {
    t, k := WithAttempts(s, ids).task, |s.task.history| + j;
    r := pipe(t, k, ids[j], worlds[j]);
    KnownId(s.task.graph.value, ids[j]);
    PreparedHistory(s, ids);
    assert PipelineBatch(pipe, s, ids, worlds).work(t, j) == r;
  }

  lemma NodeOfAlone(cfg: Config, s: Shared, ids: seq<string>, worlds: seq<World>, j: nat)
    requires Startable(s, ids) && |worlds| == |ids| && j < |ids|
    ensures AloneStands(Alone(PipelineBatch(ThePipeline(cfg), s, ids, worlds), WithAttempts(s, ids), j), NodeNamed(s.task, ids[j]))
  {
    var t, k, _ := AloneRunsPipe(ThePipeline(cfg), s, ids, worlds, j);
    AloneNode(cfg, t, k, ids[j], worlds[j]);
  }

  /** What a pipeline by itself makes of its node. */
  lemma AloneNode(cfg: Config, s: Task, k: nat, id: string, w: World)
    requires k < |s.history| && s.history[k].nodeId == id && id != "" && NodeNamed(s, id).Some?
    ensures var r := ThePipeline(cfg)(s, k, id, w);
      && NodeNamed(r.state, id).Some? && Unmarked(NodeNamed(r.state, id)) == Unmarked(NodeNamed(s, id))
      && (!VerdictOn(r, k).Fails? ==> NodeNamed(r.state, id).value.status == Running)
  {
    PipelineMarksOnly(cfg, s, k, id, w);
    if Pipeline(cfg, s, k, id, w).Ok? { PipelineRuns(cfg, s, k, id, w); }
  }

  lemma RunningRestored(s: Shared, ids: seq<string>)
    requires forall j | 0 <= j < |ids| :: ids[j] !in s.running
    ensures WithAttempts(s, ids).running - (set id | id in ids) == s.running
  {
    var r := WithAttempts(s, ids).running - (set id | id in ids);
    forall id ensures id in r <==> id in s.running {
      if id !in ids { PreparedKeeps(s, ids, id); }
    }
    forall id | id in r ensures r[id] == s.running[id] {
      PreparedKeeps(s, ids, id);
    }
  }

  // ---------------------------------------------------------------- under the lock

  /** What a move does to the persisted task; the coordinator collects the verdict the worker comes to. */
  ghost function Effect(b: Batch, p: Shared, m: Move, x: Shared): Shared
    requires m.j < |b.ids|
  {
    match m
    case Work(j) => x.(task := b.work(x.task, j).state)
    case Collect(j) => Collected(x, b.ids[j], Alone(b, p, j).verdict)
  }

  /** Where the `i`th section begins, its saves together do what the move does; it may save often, or never. */
  ghost predicate Performs(b: Batch, p: Shared, sections: seq<seq<StateLock.Commit<Shared>>>, moves: seq<Move>, i: nat)
    requires i < |sections| == |moves|
  {
    var x := StateLock.Fold(p, StateLock.Flatten(sections[..i]));
    moves[i].j < |b.ids| && StateLock.Fold(x, sections[i]) == Effect(b, p, moves[i], x)
  }

  ghost predicate AllPerform(b: Batch, p: Shared, sections: seq<seq<StateLock.Commit<Shared>>>, moves: seq<Move>) {
    |sections| == |moves| && forall i | 0 <= i < |moves| :: Performs(b, p, sections, moves, i)
  }

  lemma MoveHasEffect(b: Batch, p: Shared, moves: seq<Move>, st: State, m: Move)
    requires Inv(b, p, moves, st) && Enabled(b, st, m)
    ensures Moved(b, st, m).shared == Effect(b, p, m, st.shared)
  {
  }

  lemma FoldNext(init: Shared, sections: seq<seq<StateLock.Commit<Shared>>>, n: nat)
    requires n < |sections|
    ensures StateLock.Fold(init, StateLock.Flatten(sections[..n + 1]))
      == StateLock.Fold(StateLock.Fold(init, StateLock.Flatten(sections[..n])), sections[n])
  {
    assert sections[..n + 1][..n] == sections[..n];
    StateLock.FoldConcat(init, StateLock.Flatten(sections[..n]), sections[n]);
  }

  lemma {:induction false} SectionsAreBatchRun(b: Batch, p: Shared, sections: seq<seq<StateLock.Commit<Shared>>>,
      moves: seq<Move>, trace: seq<State>, n: nat)
    requires Ready(b, p) && Isolated(b, p) && Runs(b, p, moves, trace) && AllPerform(b, p, sections, moves) && n <= |moves|
    ensures StateLock.Fold(p, StateLock.Flatten(sections[..n])) == trace[n].shared
  {
    if n > 0 {
      var st, m := trace[n - 1], moves[n - 1];
      SectionsAreBatchRun(b, p, sections, moves, trace, n - 1);
      RunsKeepInv(b, p, moves, trace, n - 1);
      assert Steps(b, st, m, trace[n - 1 + 1]);
      MoveHasEffect(b, p, moves[..n - 1], st, m);
      FoldNext(p, sections, n - 1);
      assert Performs(b, p, sections, moves, n - 1);
    }
  }

  /**
   * Critical sections that perform the batch's moves under the task lock, however often each of
   * them saves, leave on disk what the batch comes to: the state of a run that takes the sections in
   * the order the lock was taken.
   */
  lemma DiskFollowsTheBatch(b: Batch, p: Shared, worlds: seq<StateLock.World<Shared>>,
      steps: seq<(StateLock.Tid, StateLock.Action<Shared>)>, n: nat, sections: seq<seq<StateLock.Commit<Shared>>>, moves: seq<Move>)
      returns (trace: seq<State>)
    requires Ready(b, p) && Isolated(b, p) && WellOrdered(b, moves)
    requires StateLock.Run(worlds, steps) && n <= |steps| && StateLock.Start(p, worlds[0])
    requires StateLock.Flatten(sections) == worlds[n].log && AllPerform(b, p, sections, moves)
    ensures Runs(b, p, moves, trace) && worlds[n].disk == trace[|moves|].shared
  {
    StateLock.DiskIsFoldOfSections(p, worlds, steps, n);
    trace := OrderedMovesRun(b, p, moves);
    SectionsAreBatchRun(b, p, sections, moves, trace, |moves|);
    assert sections[..|moves|] == sections;
  }
}
