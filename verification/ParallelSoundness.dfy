/**
 * A parallel batch and the merges after it leave a sound graph, so batches can follow one another, and
 * may follow any state of the sequential loop.
 */
module ParallelSoundness {
  import opened Option
  import opened TaskGraph
  import opened TaskState
  import opened AutoLoop
  import opened AutoSafety
  import opened NodePipeline
  import opened ParallelBatch
  import opened BatchResults
  import opened WorkerIsolation
  import opened MergeQueue
  import opened ParallelChain
  import opened ParallelSafety

  /** Only approval makes an attempt approved or merged. */
  ghost predicate ApprovalsStand(s: Task) {
    forall k | 0 <= k < |s.history| && (s.history[k].phase == AtApproved || s.history[k].phase == AtMerged) ::
      s.history[k].decision == Some(Approve)
  }

  ghost predicate SoundShared(s: Shared) {
    NodesKnown(s.task) && WellNamed(s.task.graph.value) && SoundTask(s.task) && ApprovalsStand(s.task)
  }

  /** Any state of the sequential loop is such a state. */
  lemma InvIsSound(s: Task)
    requires AutoSafety.Inv(s) && s.graph.Some?
    ensures SoundShared(Shared(s, map[], []))
  {
    forall k | 0 <= k < |s.history| ensures AttemptOk(s.history[k]) {}
  }

  lemma SoundIsSane(s: Shared)
    requires SoundShared(s) && s.running == map[]
    ensures Sane(s)
  {
    forall m | 0 <= m < |s.task.history| && s.task.history[m].nodeId != "" ensures FirstIndex(s.task.graph.value, s.task.history[m].nodeId).Some? {
      KnownId(s.task.graph.value, s.task.history[m].nodeId);
    }
  }

  // ---------------------------------------------------------------- discovery

  lemma DiscoveryKeepsSound(cfg: Config, maxParallel: int, s: Shared)
    requires SoundShared(s)
    ensures SoundShared(Scanned(cfg, maxParallel, s))
  {
    var g := s.task.graph.value;
    if Room(maxParallel, s) > 0 {
      var t := Scanned(cfg, maxParallel, s).task;
      GraphRuns.ScanCarries(g, cfg.maxRetries, Room(maxParallel, s), s.running.Keys);
      Blocking.ScanBlocksOnlyDoomed(g, cfg.maxRetries, Room(maxParallel, s), s.running.Keys);
      SameIds(g, t.graph.value);
      CarriedIsSoundTask(s.task, t);
    } else {
      assert Scanned(cfg, maxParallel, s) == s;
    }
  }

  /** What discovery picks may start: it has not passed, and all it depends on has. */
  ghost predicate MayStart(s: Shared, ids: seq<string>) {
    s.task.graph.Some? && forall j | 0 <= j < |ids| :: GraphRuns.Grounded(s.task.graph.value, ids[j]) && !IsPassed(s.task.graph.value, ids[j])
  }

  lemma DiscoveredMayStart(cfg: Config, maxParallel: int, s: Shared)
    requires SoundShared(s)
    ensures MayStart(Scanned(cfg, maxParallel, s), PickedIds(Discovered(cfg, maxParallel, s)))
  {
    var r, g := Discovered(cfg, maxParallel, s), s.task.graph.value;
    if Room(maxParallel, s) > 0 {
      GraphRuns.ScanCarries(g, cfg.maxRetries, Room(maxParallel, s), s.running.Keys);
      forall j | 0 <= j < |r.picked| ensures GraphRuns.Grounded(r.nodes, PickedIds(r)[j]) && !IsPassed(r.nodes, PickedIds(r)[j]) {
        PickedMayStart(g, cfg.maxRetries, Room(maxParallel, s), s.running.Keys, j);
      }
    }
  }

  lemma PickedMayStart(g: seq<Node>, maxRetries: int, limit: int, exclude: set<string>, j: nat)
    requires GraphRuns.Sound(g) && GraphRuns.Carries(g, Scan(g, maxRetries, limit, exclude).nodes)
    requires j < |Scan(g, maxRetries, limit, exclude).picked|
    ensures var r := Scan(g, maxRetries, limit, exclude);
      && r.picked[j] < |r.nodes|
      && GraphRuns.Grounded(r.nodes, r.nodes[r.picked[j]].id) && !IsPassed(r.nodes, r.nodes[r.picked[j]].id)
  {
    var r := Scan(g, maxRetries, limit, exclude);
    var k := r.picked[j];
    assert k in r.picked;
    Blocking.PickedIsRunnable(g, maxRetries, limit, exclude, k);
    assert FirstIndex(r.nodes, r.nodes[k].id) == Some(k);
    GraphRuns.CarriedDependencies(g, r.nodes, k);
  }

  // ---------------------------------------------------------------- the batch

  predicate SameDependencies(m: Option<Node>, n: Option<Node>) {
    m.Some? && n.Some? && n.value.dependencies == m.value.dependencies
  }

  /** Nodes that may start keep their dependencies, whatever becomes of them; the others stay. */
  lemma BatchCarries(b: Batch, s: Task, t: Task, ids: seq<string>)
    requires b.ids == ids && OtherNodesKept(b, s, t) && GraphRuns.Sound(s.graph.value)
    requires forall j | 0 <= j < |ids| :: GraphRuns.Grounded(s.graph.value, ids[j]) && !IsPassed(s.graph.value, ids[j])
    requires forall j | 0 <= j < |ids| :: SameDependencies(NodeNamed(s, ids[j]), NodeNamed(t, ids[j]))
    ensures GraphRuns.Carries(s.graph.value, t.graph.value)
  {
    var g, h := s.graph.value, t.graph.value;
    SameIds(g, h);
    forall k: nat | k < |g|
      ensures (g[k].status == Passed ==> h[k].status == Passed) && h[k].dependencies == g[k].dependencies
      ensures GraphRuns.Started(h[k]) ==> DependenciesPassed(g, g[k])
    {
      if IsBatchNode(b, g, k) {
        var j :| 0 <= j < |ids| && ids[j] == g[k].id;
        SameFirstIndex(g, h, ids[j]);
      }
    }
  }

  lemma BatchLeavesSound(cfg: Config, s: Shared, ids: seq<string>, worlds: seq<World>, moves: seq<Move>, trace: seq<State>)
    requires EndsWith(cfg, s, ids, worlds, moves, trace) && SoundShared(s) && MayStart(s, ids)
    ensures var t := trace[|moves|].shared.task;
      t.graph.Some? && GraphRuns.Carries(s.task.graph.value, t.graph.value) && SameNames(s.task.graph.value, t.graph.value)
  {
    var b, p, r := EndFacts(cfg, s, ids, worlds, moves, trace);
    PreparedHistory(s, ids);
    forall j: nat | j < |ids| ensures SameDependencies(NodeNamed(s.task, ids[j]), NodeNamed(r.task, ids[j])) {
      BatchLeavesNodes(cfg, s, ids, worlds, moves, trace, j);
    }
    BatchCarries(b, s.task, r.task, ids);
  }

  lemma LeftAttempt(b: Batch, p: Shared, blamed: bool, r: Shared, m: nat)
    requires Ready(b, p) && Isolated(b, p) && Conserved(b, p, blamed, r) && b.base <= m < |p.task.history| == b.base + |b.ids|
    requires AttemptOk(Alone(b, p, m - b.base).attempt)
    ensures r.task.history[m].nodeId == b.ids[m - b.base] && AttemptOk(r.task.history[m])
  {
    LeftNodeIds(b, p, blamed, r, m);
    ConservedAttempt(b, p, blamed, r, m);
  }

  lemma PipelineAttemptsOk(cfg: Config, s: Shared, ids: seq<string>, worlds: seq<World>, b: Batch, p: Shared)
    requires Startable(s, ids) && |worlds| == |ids|
    requires b == PipelineBatch(ThePipeline(cfg), s, ids, worlds) && p == WithAttempts(s, ids)
    ensures forall j: nat | j < |b.ids| :: AttemptOk(Alone(b, p, j).attempt)
  {
    forall j: nat | j < |b.ids| ensures AttemptOk(Alone(b, p, j).attempt) {
      AloneIsOk(cfg, s, ids, worlds, j);
    }
  }

  /** A finished batch, as far as its attempts matter. */
  ghost predicate LeavesAttempts(b: Batch, p: Shared, blamed: bool, r: Shared, s: Shared, ids: seq<string>) {
    && Ready(b, p) && Isolated(b, p) && Conserved(b, p, blamed, r) && b.ids == ids
    && b.base == |s.task.history| && |p.task.history| == |r.task.history| == b.base + |ids|
    && forall j: nat | j < |b.ids| :: AttemptOk(Alone(b, p, j).attempt)
  }

  lemma EndAttempts(cfg: Config, s: Shared, ids: seq<string>, worlds: seq<World>, moves: seq<Move>, trace: seq<State>)
    returns (b: Batch, p: Shared, blamed: bool, r: Shared)
    requires EndsWith(cfg, s, ids, worlds, moves, trace)
    ensures LeavesAttempts(b, p, blamed, r, s, ids) && r == trace[|moves|].shared
  {
    b, p, r := EndFacts(cfg, s, ids, worlds, moves, trace);
    blamed := BlamedLater(b, moves);
    PipelineAttemptsOk(cfg, s, ids, worlds, b, p);
  }

  /** What the attempts of a batch are at its end. */
  lemma BatchAttempt(cfg: Config, s: Shared, ids: seq<string>, worlds: seq<World>, moves: seq<Move>, trace: seq<State>, m: nat)
    requires EndsWith(cfg, s, ids, worlds, moves, trace) && |s.task.history| <= m < |trace[|moves|].shared.task.history|
    ensures var a := trace[|moves|].shared.task.history[m];
      m - |s.task.history| < |ids| && a.nodeId == ids[m - |s.task.history|] && AttemptOk(a)
  {
    var b, p, blamed, r := EndAttempts(cfg, s, ids, worlds, moves, trace);
    LeftAttempt(b, p, blamed, r, m);
  }

  ghost predicate KeptOrStarted(s: Task, t: Task, m: nat)
    requires s.graph.Some? && t.graph.Some? && m < |t.history|
  {
    || (m < |s.history| && t.history[m] == s.history[m])
    || (AttemptOk(t.history[m]) && t.history[m].nodeId in Ids(s.graph.value) && GraphRuns.Grounded(t.graph.value, t.history[m].nodeId))
  }

  /** Earlier attempts stay, and those of the batch are of nodes that could start. */
  lemma BatchAttemptsAreSound(cfg: Config, s: Shared, ids: seq<string>, worlds: seq<World>, moves: seq<Move>, trace: seq<State>, m: nat)
    requires EndsWith(cfg, s, ids, worlds, moves, trace) && SoundShared(s) && MayStart(s, ids)
    requires m < |trace[|moves|].shared.task.history|
    ensures var t := trace[|moves|].shared.task; t.graph.Some? && KeptOrStarted(s.task, t, m)
  {
    var b, p, r := EndFacts(cfg, s, ids, worlds, moves, trace);
    BatchLeavesSound(cfg, s, ids, worlds, moves, trace);
    SameIds(s.task.graph.value, r.task.graph.value);
    if m >= |s.task.history| {
      BatchAttempt(cfg, s, ids, worlds, moves, trace, m);
      GraphRuns.CarriedIsGrounded(s.task.graph.value, r.task.graph.value, ids[m - |s.task.history|]);
    }
  }

  lemma BatchKeepsSound(cfg: Config, s: Shared, ids: seq<string>, worlds: seq<World>, moves: seq<Move>, trace: seq<State>)
    requires EndsWith(cfg, s, ids, worlds, moves, trace) && SoundShared(s) && MayStart(s, ids)
    ensures SoundShared(trace[|moves|].shared) && trace[|moves|].shared.running == s.running
  {
    var b, p, r := EndFacts(cfg, s, ids, worlds, moves, trace);
    BatchLeavesSound(cfg, s, ids, worlds, moves, trace);
    forall m: nat | m < |r.task.history| ensures KeptOrStarted(s.task, r.task, m) {
      BatchAttemptsAreSound(cfg, s, ids, worlds, moves, trace, m);
    }
    KeptOrStartedIsSound(s.task, r.task);
  }

  lemma KeptOrStartedIsSound(s: Task, t: Task)
    requires NodesKnown(s) && WellNamed(s.graph.value) && SoundTask(s) && ApprovalsStand(s) && t.graph.Some?
    requires GraphRuns.Carries(s.graph.value, t.graph.value) && SameNames(s.graph.value, t.graph.value)
    requires forall m: nat | m < |t.history| :: KeptOrStarted(s, t, m)
    ensures NodesKnown(t) && WellNamed(t.graph.value) && SoundTask(t) && ApprovalsStand(t)
  {
    SameIds(s.graph.value, t.graph.value);
    forall m | 0 <= m < |t.history| ensures
        && (t.history[m].nodeId == "" || t.history[m].nodeId in Ids(s.graph.value))
        && ((m < |s.history| && t.history[m].nodeId == s.history[m].nodeId) || GraphRuns.Grounded(t.graph.value, t.history[m].nodeId))
        && (t.history[m].phase == AtApproved || t.history[m].phase == AtMerged ==> t.history[m].decision == Some(Approve)) {
      assert KeptOrStarted(s, t, m);
    }
    CarriedIsSoundTask(s, t);
  }

  // ---------------------------------------------------------------- the merge loop

  /** Finalising an approved attempt passes its node, or leaves the graph alone. */
  lemma FinalizingMarks(cfg: Config, s: Task, k: nat, w: World)
    requires k < |s.history| && s.history[k].decision == Some(Approve) && s.graph.Some?
    ensures var t, a := FinalizingAt(cfg, s, k, w).state, s.history[k];
      && (t.graph == s.graph || (a.nodeId != "" && t.graph == MarkPassed(s.graph.value, a.nodeId, a.iteration)))
      && |t.history| == |s.history| && t.history[k].decision == Some(Approve)
  {
  }

  lemma PassingCarries(g: seq<Node>, id: string, iteration: nat)
    requires WellNamed(g) && GraphRuns.Sound(g) && GraphRuns.Grounded(g, id) && id in Ids(g)
    ensures MarkPassed(g, id, iteration).Some? && GraphRuns.Carries(g, MarkPassed(g, id, iteration).value)
  {
    KnownId(g, id);
    var i := FirstIndex(g, id).value;
    var h := MarkPassed(g, id, iteration).value;
    assert h == g[i := h[i]];
    GraphRuns.EditCarries(g, i, h[i]);
  }

  lemma FinalizingCarries(cfg: Config, s: Task, k: nat, w: World)
    requires NodesKnown(s) && WellNamed(s.graph.value) && SoundTask(s) && k < |s.history| && s.history[k].decision == Some(Approve)
    ensures var r := FinalizingAt(cfg, s, k, w);
      && r.Ok? && r.state.graph.Some? && GraphRuns.Carries(s.graph.value, r.state.graph.value)
      && SameNames(s.graph.value, r.state.graph.value) && Settles(s, r.state, k) && r.state.history[k].decision == Some(Approve)
  {
    var g, id := s.graph.value, s.history[k].nodeId;
    KnownId(g, id);
    FinalizingSettles(cfg, s, k, w);
    FinalizingMarks(cfg, s, k, w);
    assert GraphRuns.Grounded(g, id);
    if id != "" { PassingCarries(g, id, s.history[k].iteration); }
    SameCarries(g);
  }

  lemma SameCarries(g: seq<Node>)
    requires GraphRuns.Sound(g)
    ensures GraphRuns.Carries(g, g)
  {
  }

  lemma TurnKeepsSound(cfg: Config, l: Loop, w: World)
    requires SoundShared(l.disk) && l.disk.running == map[]
    ensures SoundShared(Turn(cfg, l, w).disk) && Turn(cfg, l, w).disk.running == map[]
  {
    var s := l.disk;
    if s.queue != [] && AttemptFor(s, s.queue[0]).Some? {
      var k := AttemptFor(s, s.queue[0]).value;
      SoundIsSane(s);
      TurnFinalises(cfg, l, w);
      FinalizingCarries(cfg, s.task, k, w);
      SettledIsSound(s.task, FinalizingAt(cfg, s.task, k, w).state, k);
    }
  }

  lemma SettledIsSound(s: Task, t: Task, k: nat)
    requires NodesKnown(s) && WellNamed(s.graph.value) && SoundTask(s) && ApprovalsStand(s) && t.graph.Some?
    requires GraphRuns.Carries(s.graph.value, t.graph.value) && SameNames(s.graph.value, t.graph.value)
    requires Settles(s, t, k) && t.history[k].decision == Some(Approve)
    ensures NodesKnown(t) && WellNamed(t.graph.value) && SoundTask(t) && ApprovalsStand(t)
  {
    SameIds(s.graph.value, t.graph.value);
    CarriedIsSoundTask(s, t);
  }

  lemma {:induction false} TurnsKeepSound(cfg: Config, l: Loop, worlds: seq<World>)
    requires SoundShared(l.disk) && l.disk.running == map[]
    ensures SoundShared(Turns(cfg, l, worlds).disk) && Turns(cfg, l, worlds).disk.running == map[]
    decreases |worlds|
  {
    if !Over(l) && worlds != [] {
      TurnKeepsSound(cfg, l, worlds[0]);
      TurnsKeepSound(cfg, Turn(cfg, l, worlds[0]), worlds[1..]);
    }
  }

  // ---------------------------------------------------------------- one batch after another

  /**
   * Discovery, the batch it starts and the merge loop behind it, whatever workers and merges do,
   * leave a state like the one they began with: whatever is discovered there may start again.
   */
  lemma BatchesFollowOneAnother(cfg: Config, maxParallel: int, s: Shared, worlds: seq<World>, moves: seq<Move>, trace: seq<State>, answers: seq<World>)
    requires SoundShared(s) && s.running == map[] && Discovered(cfg, maxParallel, s).picked != []
    requires RunsThrough(cfg, Scanned(cfg, maxParallel, s), PickedIds(Discovered(cfg, maxParallel, s)), worlds, moves, trace)
    ensures var next := Turns(cfg, Begin(trace[|moves|].shared), answers).disk;
      && SoundShared(next) && next.running == map[] && Sane(next)
      && (Discovered(cfg, maxParallel, next).picked != [] ==>
            Startable(Scanned(cfg, maxParallel, next), PickedIds(Discovered(cfg, maxParallel, next))))
  {
    var d, ids := Scanned(cfg, maxParallel, s), PickedIds(Discovered(cfg, maxParallel, s));
    DiscoveredIsStartable(cfg, maxParallel, s);
    DiscoveryKeepsSound(cfg, maxParallel, s);
    DiscoveredMayStart(cfg, maxParallel, s);
    BatchKeepsSound(cfg, d, ids, worlds, moves, trace);
    TurnsKeepSound(cfg, Begin(trace[|moves|].shared), answers);
    var next := Turns(cfg, Begin(trace[|moves|].shared), answers).disk;
    SoundIsSane(next);
    if Discovered(cfg, maxParallel, next).picked != [] { DiscoveredIsStartable(cfg, maxParallel, next); }
  }
}
