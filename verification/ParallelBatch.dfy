/** A batch of parallel workers on one persisted task (src/cc_loop/parallel_scheduler.py). */
module ParallelBatch {
  import opened Option
  import opened Reachability
  import opened TaskGraph
  import opened TaskState
  import opened AutoLoop
  import opened NodePipeline
  import Blocking
  import GraphRuns
  import opened Induction = Runs

  /** What the workers and the coordinator share on disk. */
  datatype Shared = Shared(task: Task, running: map<string, nat>, queue: seq<string>)

  // ---------------------------------------------------------------- choosing the batch

  /** `_max_parallel`, less what already runs. */
  function Room(maxParallel: int, s: Shared): int {
    (if maxParallel < 1 then 1 else maxParallel) - |s.running|
  }

  /** `discover_parallel_runnable` */
  function Discovered(cfg: Config, maxParallel: int, s: Shared): ScanResult {
    if s.task.graph.None? then ScanResult([], [])
    else if Room(maxParallel, s) <= 0 then ScanResult(s.task.graph.value, [])
    else Scan(s.task.graph.value, cfg.maxRetries, Room(maxParallel, s), s.running.Keys)
  }

  /** The ids of the nodes a scan picked. */
  function PickedIds(r: ScanResult): (ids: seq<string>)
    ensures |ids| == |r.picked|
    ensures forall j | 0 <= j < |ids| && r.picked[j] < |r.nodes| :: ids[j] == r.nodes[r.picked[j]].id
  {
    seq(|r.picked|, j requires 0 <= j < |r.picked| => if r.picked[j] < |r.nodes| then r.nodes[r.picked[j]].id else "")
  }

  /** The task the batch starts on: discovery has scanned its graph. */
  function Scanned(cfg: Config, maxParallel: int, s: Shared): Shared {
    if s.task.graph.None? then s else s.(task := s.task.(graph := Some(Discovered(cfg, maxParallel, s).nodes)))
  }

  /**
   * A batch fits in what is left of max_parallel_nodes, holds no node that already runs, holds no
   * node twice, and no node in it reaches another along any chain of dependencies.
   */
  lemma BatchFitsAndIsIndependent(cfg: Config, maxParallel: int, s: Shared)
    requires s.task.graph.Some? && GraphRuns.Sound(s.task.graph.value)
    ensures var r, ns := Discovered(cfg, maxParallel, s), s.task.graph.value;
      && (r.picked != [] ==> |r.picked| + |s.running| <= if maxParallel < 1 then 1 else maxParallel)
      && |r.nodes| == |ns|
      && (forall j | 0 <= j < |r.picked| ::
            r.picked[j] < |ns| && ns[r.picked[j]].id !in s.running && r.nodes[r.picked[j]] == ns[r.picked[j]])
      && (forall i, j | 0 <= i < j < |r.picked| ::
            ns[r.picked[i]].id != ns[r.picked[j]].id
            && !Reaches(DependencyMap(ns), ns[r.picked[i]].id, ns[r.picked[j]].id)
            && !Reaches(DependencyMap(ns), ns[r.picked[j]].id, ns[r.picked[i]].id))
  {
    var ns := s.task.graph.value;
    var limit := Room(maxParallel, s);
    if limit > 0 {
      var picked := Scan(ns, cfg.maxRetries, limit, s.running.Keys).picked;
      Blocking.ScanPicksFirstRunnable(ns, cfg.maxRetries, limit, s.running.Keys);
      Blocking.ScanBlocksOnlyDoomed(ns, cfg.maxRetries, limit, s.running.Keys);
      var nodes := Scan(ns, cfg.maxRetries, limit, s.running.Keys).nodes;
      assert |nodes| == |ns|;
      forall j | 0 <= j < |picked| ensures picked[j] < |ns| && ns[picked[j]].id !in s.running && nodes[picked[j]] == ns[picked[j]] {
        assert picked[j] in picked;
        Blocking.PickedIsRunnable(ns, cfg.maxRetries, limit, s.running.Keys, picked[j]);
      }
      forall i, j | 0 <= i < j < |picked| ensures
          ns[picked[i]].id != ns[picked[j]].id
          && !Reaches(DependencyMap(ns), ns[picked[i]].id, ns[picked[j]].id)
          && !Reaches(DependencyMap(ns), ns[picked[j]].id, ns[picked[i]].id) {
        assert picked[i] in picked && picked[j] in picked;
        GraphRuns.SelectionIsIndependent(ns, cfg.maxRetries, limit, s.running.Keys, picked[i], picked[j]);
        GraphRuns.SelectionIsIndependent(ns, cfg.maxRetries, limit, s.running.Keys, picked[j], picked[i]);
      }
    }
  }

  // ---------------------------------------------------------------- preparing it

  /** `prepare_parallel_attempt` and the bookkeeping around it, for one node. */
  function WithAttempt(s: Shared, id: string): Shared {
    var t := s.task;
    s.(task := t.(iteration := t.iteration + 1, history := t.history + [NewAttempt(t.iteration + 1, 0, id)]),
       running := s.running[id := |t.history|])
  }

  function WithAttempts(s: Shared, ids: seq<string>): Shared {
    if ids == [] then s else WithAttempt(WithAttempts(s, ids[..|ids| - 1]), ids[|ids| - 1])
  }

  ghost predicate Distinct(ids: seq<string>) {
    forall i, j | 0 <= i < j < |ids| :: ids[i] != ids[j]
  }

  lemma {:induction false} PreparedHistory(s: Shared, ids: seq<string>)
    ensures var r, n := WithAttempts(s, ids).task, |s.task.history|;
      && |r.history| == n + |ids| && r.iteration == s.task.iteration + |ids|
      && r.graph == s.task.graph && WithAttempts(s, ids).queue == s.queue
      && (forall m | 0 <= m < n :: r.history[m] == s.task.history[m])
      && (forall m | n <= m < n + |ids| :: r.history[m] == NewAttempt(s.task.iteration + (m - n) + 1, 0, ids[m - n]))
  {
    if ids != [] {
      PreparedHistory(s, ids[..|ids| - 1]);
    }
  }

  lemma {:induction false} PreparedRunning(s: Shared, ids: seq<string>)
    requires Distinct(ids)
    ensures var r, n := WithAttempts(s, ids), |s.task.history|;
      && |r.task.history| == n + |ids|
      && (forall j | 0 <= j < |ids| :: ids[j] in r.running && r.running[ids[j]] == n + j)
  {
    if ids != [] {
      PreparedRunning(s, ids[..|ids| - 1]);
    }
  }

  /** The other entries of `running` stay, and nothing else comes in. */
  lemma {:induction false} PreparedKeeps(s: Shared, ids: seq<string>, id: string)
    requires id !in ids
    ensures var r := WithAttempts(s, ids).running;
      (id in r <==> id in s.running) && (id in r ==> r[id] == s.running[id])
  {
    if ids != [] {
      PreparedKeeps(s, ids[..|ids| - 1], id);
    }
  }

  /** Every node gets an attempt of its own, numbered apart from all others, and `running` finds it. */
  lemma PreparedBatch(s: Shared, ids: seq<string>, j: nat)
    requires Distinct(ids) && j < |ids|
    ensures var r, n := WithAttempts(s, ids), |s.task.history|;
      && |r.task.history| == n + |ids| && r.task.history[..n] == s.task.history
      && ids[j] in r.running && r.running[ids[j]] == n + j
      && r.task.history[n + j] == NewAttempt(s.task.iteration + j + 1, 0, ids[j])
      && s.task.iteration + j + 1 <= r.task.iteration
  {
    PreparedHistory(s, ids);
    PreparedRunning(s, ids);
  }

  // ---------------------------------------------------------------- workers and coordinator, interleaved

  /**
   * The nodes of a batch, where their attempts are, and what a worker does: `work(s, j)` is the
   * outcome of node `j`'s critical section on the task it loads, and `strays(j)` says that its
   * failure is blamed on `history[-1]`.
   */
  datatype Batch = Batch(ids: seq<string>, base: nat, work: (Task, nat) -> Outcome, strays: nat -> bool)

  datatype Verdict = Approves | Declines | Fails

  /** A worker's critical section, and the one in which the coordinator collects its result. */
  datatype Move = Work(j: nat) | Collect(j: nat)

  /** `verdicts` are the futures that are done; `collected` lists those the coordinator has seen. */
  datatype State = State(shared: Shared, verdicts: map<nat, Verdict>, collected: seq<nat>)

  /** What the coordinator reads off the attempt the worker returns. */
  function VerdictOn(r: Outcome, k: nat): Verdict {
    if r.Raised? || k >= |r.state.history| then Fails
    else if r.state.history[k].decision == Some(Approve) && r.state.history[k].phase == AtApproved then Approves
    else Declines
  }

  function EnqueueMerge(queue: seq<string>, id: string): seq<string> {
    if id in queue then queue else queue + [id]
  }

  /** One turn of the `as_completed` loop. */
  function Collected(s: Shared, id: string, v: Verdict): Shared {
    var task := if v.Fails? && s.task.graph.Some? && MarkFailed(s.task.graph.value, id).Some?
      then s.task.(graph := MarkFailed(s.task.graph.value, id)) else s.task;
    Shared(task, s.running - {id}, if v.Approves? then EnqueueMerge(s.queue, id) else s.queue)
  }

  ghost predicate Enabled(b: Batch, st: State, m: Move) {
    match m
    case Work(j) => j < |b.ids| && j !in st.verdicts
    case Collect(j) => j < |b.ids| && j in st.verdicts && j !in st.collected
  }

  ghost function Moved(b: Batch, st: State, m: Move): State
    requires Enabled(b, st, m)
  {
    match m
    case Work(j) =>
      var r := b.work(st.shared.task, j);
      State(st.shared.(task := r.state), st.verdicts[j := VerdictOn(r, b.base + j)], st.collected)
    case Collect(j) =>
      State(Collected(st.shared, b.ids[j], st.verdicts[j]), st.verdicts, st.collected + [j])
  }

  ghost predicate Steps(b: Batch, st: State, m: Move, next: State) {
    Enabled(b, st, m) && next == Moved(b, st, m)
  }

  /** The states of a batch that starts on `p` and takes the critical sections in the order `moves`. */
  ghost predicate Runs(b: Batch, p: Shared, moves: seq<Move>, trace: seq<State>) {
    && |trace| == |moves| + 1 && trace[0] == State(p, map[], [])
    && forall i | 0 <= i < |moves| :: Steps(b, trace[i], moves[i], trace[i + 1])
  }

  ghost predicate Sized(b: Batch, p: Shared) {
    |b.ids| > 0 && Distinct(b.ids) && b.base + |b.ids| == |p.task.history|
  }

  /** The node is known, and `running` finds its attempt. */
  predicate NodeReady(b: Batch, p: Shared, j: nat)
    requires j < |b.ids|
  {
    p.task.graph.Some? && b.ids[j] != "" && FirstIndex(p.task.graph.value, b.ids[j]).Some?
    && b.ids[j] in p.running && p.running[b.ids[j]] == b.base + j
  }

  /** What preparing the batch has established. */
  ghost predicate Ready(b: Batch, p: Shared) {
    && Sized(b, p) && p.task.graph.Some?
    && (forall j | 0 <= j < |b.ids| :: NodeReady(b, p, j))
    && (forall m | b.base <= m < |p.task.history| :: p.task.history[m].nodeId == b.ids[m - b.base])
  }

  lemma PreparedNode(b: Batch, s: Shared, j: nat)
    requires Distinct(b.ids) && b.base == |s.task.history| && s.task.graph.Some?
    requires j < |b.ids| && b.ids[j] != "" && b.ids[j] in Ids(s.task.graph.value)
    ensures NodeReady(b, WithAttempts(s, b.ids), j)
  {
    PreparedHistory(s, b.ids);
    PreparedRunning(s, b.ids);
    KnownId(s.task.graph.value, b.ids[j]);
  }

  lemma PreparationIsReady(b: Batch, s: Shared)
    requires |b.ids| > 0 && Distinct(b.ids) && b.base == |s.task.history| && s.task.graph.Some?
    requires forall j | 0 <= j < |b.ids| :: b.ids[j] != "" && b.ids[j] in Ids(s.task.graph.value)
    ensures Ready(b, WithAttempts(s, b.ids))
  {
    PreparedHistory(s, b.ids);
    forall j: nat | j < |b.ids| ensures NodeReady(b, WithAttempts(s, b.ids), j) {
      PreparedNode(b, s, j);
    }
  }

  // ---------------------------------------------------------------- what a worker may do

  /** The batch's attempts are where they were, for the nodes they were made for. */
  ghost predicate InShape(b: Batch, p: Shared, s: Task) {
    && b.base + |b.ids| == |p.task.history| == |s.history| && s.iteration == p.task.iteration
    && p.task.graph.Some? && s.graph.Some? && SameNames(p.task.graph.value, s.graph.value)
    && forall m | b.base <= m < |s.history| :: s.history[m].nodeId == b.ids[m - b.base]
  }

  function AfterStray(a: Attempt, strayed: bool): Attempt {
    if strayed then a.(phase := AtFailed) else a
  }

  /** The entry of the list that the name of a batch node finds. */
  predicate IsBatchNode(b: Batch, g: seq<Node>, i: nat)
    requires i < |g|
  {
    g[i].id in b.ids && FirstIndex(g, g[i].id) == Some(i)
  }

  ghost predicate OtherNodesKept(b: Batch, s: Task, t: Task) {
    s.graph.Some? && t.graph.Some? && SameNames(s.graph.value, t.graph.value) &&
    forall i: nat | i < |s.graph.value| && !IsBatchNode(b, s.graph.value, i) :: t.graph.value[i] == s.graph.value[i]
  }

  /** What worker `j` does to the rest of the task: nothing, or the blame it puts on the last attempt and its node. */
  ghost predicate Leaves(b: Batch, s: Task, t: Task, j: nat) {
    var k, last, n := b.base + j, |s.history| - 1, |b.ids| - 1;
    && j < |b.ids| && b.base + |b.ids| == |s.history| == |t.history|
    && OtherNodesKept(b, s, t)
    && (forall m | 0 <= m < |s.history| && m != k && m != last :: t.history[m] == s.history[m])
    && (k != last ==> t.history[last] == AfterStray(s.history[last], b.strays(j)))
    && (forall h: nat | h < |b.ids| && h != j && h != n :: NodeNamed(t, b.ids[h]) == NodeNamed(s, b.ids[h]))
    && (j != n ==> NodeNamed(t, b.ids[n]) == Failing(NodeNamed(s, b.ids[n]), b.strays(j)))
  }

  /** Attempt `j` and its node are as prepared, but for a phase and a status that an earlier stray may have written. */
  ghost predicate Waiting(b: Batch, p: Shared, s: Task, j: nat) {
    var k := b.base + j;
    && j < |b.ids| && k < |s.history| == |p.task.history|
    && s.history[k].(phase := AtPlanning) == p.task.history[k].(phase := AtPlanning)
    && Unmarked(NodeNamed(s, b.ids[j])) == Unmarked(NodeNamed(p.task, b.ids[j]))
  }

  /** What a worker comes to by itself: its attempt, its node, and what the coordinator reads. */
  datatype Result = Result(attempt: Attempt, node: Option<Node>, verdict: Verdict)

  function ResultOf(b: Batch, r: Outcome, j: nat): Result {
    var k := b.base + j;
    Result(if k < |r.state.history| then r.state.history[k] else NewAttempt(0, 0, ""),
           if j < |b.ids| then NodeNamed(r.state, b.ids[j]) else None, VerdictOn(r, k))
  }

  ghost function Alone(b: Batch, p: Shared, j: nat): Result {
    ResultOf(b, b.work(p.task, j), j)
  }

  /** Worker `j` keeps to itself on `s`, and comes to what it would have come to alone on `p`. */
  ghost predicate Confined(b: Batch, p: Shared, s: Task, j: nat) {
    var r := b.work(s, j);
    InShape(b, p, r.state) && Leaves(b, s, r.state, j) && ResultOf(b, r, j) == Alone(b, p, j)
  }

  ghost predicate Isolated(b: Batch, p: Shared) {
    forall s: Task, j: nat | j < |b.ids| && InShape(b, p, s) && Waiting(b, p, s, j) :: Confined(b, p, s, j)
  }

  // ---------------------------------------------------------------- every interleaving

  /** A move that blames the batch's last attempt for another worker's failure. */
  ghost predicate Blames(b: Batch, m: Move) {
    m.Work? && m.j < |b.ids| - 1 && b.strays(m.j)
  }

  /** Some other worker strayed after the last node's worker was through. */
  ghost predicate BlamedLater(b: Batch, moves: seq<Move>)
    requires b.ids != []
  {
    exists i, m | 0 <= i < m < |moves| :: moves[i] == Work(|b.ids| - 1) && Blames(b, moves[m])
  }

  lemma BlamedLaterStep(b: Batch, moves: seq<Move>, m: Move)
    requires b.ids != []
    ensures BlamedLater(b, moves + [m]) <==> BlamedLater(b, moves) || (Work(|b.ids| - 1) in moves && Blames(b, m))
  {
    var more := moves + [m];
    if BlamedLater(b, moves) {
      var i, h :| 0 <= i < h < |moves| && moves[i] == Work(|b.ids| - 1) && Blames(b, moves[h]);
      assert more[i] == Work(|b.ids| - 1) && Blames(b, more[h]);
    } else if Work(|b.ids| - 1) in moves && Blames(b, m) {
      var i :| 0 <= i < |moves| && moves[i] == Work(|b.ids| - 1);
      assert more[i] == Work(|b.ids| - 1) && Blames(b, more[|moves|]);
    }
  }

  /** The merge queue after the results were collected in this order. */
  ghost function Queued(b: Batch, p: Shared, collected: seq<nat>): seq<string> {
    if collected == [] then p.queue
    else
      var before, j := Queued(b, p, collected[..|collected| - 1]), collected[|collected| - 1];
      if j < |b.ids| && Alone(b, p, j).verdict.Approves? then EnqueueMerge(before, b.ids[j]) else before
  }

  /** `worked` holds the workers that are through; `blamed` says whether the last attempt was marked since. */
  ghost predicate AttemptsStand(b: Batch, p: Shared, worked: set<nat>, blamed: bool, s: Task)
    requires |s.history| == |p.task.history| && s.history != []
  {
    var last := |s.history| - 1;
    && (forall m | 0 <= m < b.base && m < last :: s.history[m] == p.task.history[m])
    && (forall m | b.base <= m < last ::
          s.history[m] == if m - b.base in worked then Alone(b, p, m - b.base).attempt else p.task.history[m])
    && (last - b.base in worked ==> s.history[last] == AfterStray(Alone(b, p, last - b.base).attempt, blamed))
    && (last - b.base !in worked ==> s.history[last].(phase := AtPlanning) == p.task.history[last].(phase := AtPlanning))
  }

  ghost predicate BookkeepingOk(b: Batch, p: Shared, moves: seq<Move>, st: State) {
    && (forall j :: j in st.verdicts.Keys <==> Work(j) in moves)
    && (forall j :: j in st.verdicts ==> j < |b.ids| && st.verdicts[j] == Alone(b, p, j).verdict)
    && (forall j :: j in st.collected <==> Collect(j) in moves)
    && (forall j :: j in st.collected ==> j in st.verdicts)
    && st.shared.running == p.running - IdsOf(b, st.collected)
    && st.shared.queue == Queued(b, p, st.collected)
  }

  /** The node of worker `h`: prepared, or what its worker makes of it, FAILED where it was marked since. */
  ghost predicate NodeStands(b: Batch, p: Shared, collected: seq<nat>, worked: set<nat>, blamed: bool, s: Task, h: nat)
    requires h < |b.ids|
  {
    var last, node := |b.ids| - 1, NodeNamed(s, b.ids[h]);
    if h in worked then node == Failing(Alone(b, p, h).node, (h in collected && Alone(b, p, h).verdict.Fails?) || (h == last && blamed))
    else h !in collected && Unmarked(node) == Unmarked(NodeNamed(p.task, b.ids[h]))
         && (h != last ==> node == NodeNamed(p.task, b.ids[h]))
  }

  /** Whatever is not a node of the batch is untouched. */
  ghost predicate NodesOk(b: Batch, p: Shared, collected: seq<nat>, worked: set<nat>, blamed: bool, s: Task) {
    OtherNodesKept(b, p.task, s) && forall h: nat | h < |b.ids| :: NodeStands(b, p, collected, worked, blamed, s, h)
  }

  /** The part of the invariant that is about the task. */
  ghost predicate TaskOk(b: Batch, p: Shared, collected: seq<nat>, worked: set<nat>, blamed: bool, s: Task) {
    InShape(b, p, s) && s.history != [] && NodesOk(b, p, collected, worked, blamed, s) && AttemptsStand(b, p, worked, blamed, s)
  }

  ghost predicate Inv(b: Batch, p: Shared, moves: seq<Move>, st: State) {
    && Ready(b, p)
    && TaskOk(b, p, st.collected, st.verdicts.Keys, BlamedLater(b, moves), st.shared.task)
    && BookkeepingOk(b, p, moves, st)
  }

  lemma WorkKeepsAttempts(b: Batch, p: Shared, worked: set<nat>, blamed: bool, s: Task, t: Task, j: nat)
    requires Sized(b, p) && j < |b.ids| && j !in worked && (|b.ids| - 1 !in worked ==> !blamed)
    requires |s.history| == |p.task.history| == |t.history| && AttemptsStand(b, p, worked, blamed, s)
    requires Leaves(b, s, t, j) && t.history[b.base + j] == Alone(b, p, j).attempt
    ensures AttemptsStand(b, p, worked + {j}, blamed || (|b.ids| - 1 in worked && Blames(b, Work(j))), t)
  {
    var k, last := b.base + j, |s.history| - 1;
    forall m | b.base <= m < last ensures
        t.history[m] == if m - b.base in worked + {j} then Alone(b, p, m - b.base).attempt else p.task.history[m] {
      assert m != k ==> t.history[m] == s.history[m];
    }
  }

  lemma OthersKeptTwice(b: Batch, s: Task, t: Task, u: Task)
    requires OtherNodesKept(b, s, t) && OtherNodesKept(b, t, u)
    ensures OtherNodesKept(b, s, u)
  {
    forall i: nat | i < |s.graph.value| && !IsBatchNode(b, s.graph.value, i) ensures u.graph.value[i] == s.graph.value[i] {
      SameFirstIndex(s.graph.value, t.graph.value, s.graph.value[i].id);
      assert !IsBatchNode(b, t.graph.value, i);
    }
  }

  lemma WorkKeepsNode(b: Batch, p: Shared, collected: seq<nat>, worked: set<nat>, blamed: bool, s: Task, t: Task, j: nat, h: nat)
    requires h < |b.ids| && Leaves(b, s, t, j) && j !in worked && j !in collected && (|b.ids| - 1 !in worked ==> !blamed)
    requires NodeNamed(t, b.ids[j]) == Alone(b, p, j).node && NodeStands(b, p, collected, worked, blamed, s, h)
    ensures NodeStands(b, p, collected, worked + {j}, blamed || (|b.ids| - 1 in worked && Blames(b, Work(j))), t, h)
  {
  }

  lemma WorkKeepsNodes(b: Batch, p: Shared, collected: seq<nat>, worked: set<nat>, blamed: bool, s: Task, t: Task, j: nat)
    requires Sized(b, p) && Leaves(b, s, t, j) && j !in worked && NodesOk(b, p, collected, worked, blamed, s)
    requires |b.ids| - 1 !in worked ==> !blamed
    requires NodeNamed(t, b.ids[j]) == Alone(b, p, j).node
    ensures NodesOk(b, p, collected, worked + {j}, blamed || (|b.ids| - 1 in worked && Blames(b, Work(j))), t)
  {
    OthersKeptTwice(b, p.task, s, t);
    var later := blamed || (|b.ids| - 1 in worked && Blames(b, Work(j)));
    forall h: nat | h < |b.ids| ensures NodeStands(b, p, collected, worked + {j}, later, t, h) {
      assert NodeStands(b, p, collected, worked, blamed, s, h) && NodeStands(b, p, collected, worked, blamed, s, j);
      WorkKeepsNode(b, p, collected, worked, blamed, s, t, j, h);
    }
  }

  lemma WaitingIsPrepared(b: Batch, p: Shared, collected: seq<nat>, worked: set<nat>, blamed: bool, s: Task, j: nat)
    requires Sized(b, p) && j < |b.ids| && j !in worked && NodesOk(b, p, collected, worked, blamed, s)
    requires |s.history| == |p.task.history| && AttemptsStand(b, p, worked, blamed, s)
    ensures Waiting(b, p, s, j)
  {
    var k := b.base + j;
    assert NodeStands(b, p, collected, worked, blamed, s, j);
    assert k < |s.history| - 1 ==> s.history[k] == p.task.history[k];
  }

  lemma WorkKeepsBooks(b: Batch, p: Shared, moves: seq<Move>, st: State, j: nat)
    requires BookkeepingOk(b, p, moves, st) && Enabled(b, st, Work(j))
    requires VerdictOn(b.work(st.shared.task, j), b.base + j) == Alone(b, p, j).verdict
    ensures BookkeepingOk(b, p, moves + [Work(j)], Moved(b, st, Work(j)))
    ensures Moved(b, st, Work(j)).verdicts.Keys == st.verdicts.Keys + {j}
  {
  }

  lemma WorkIsConfined(b: Batch, p: Shared, moves: seq<Move>, st: State, j: nat)
    requires Inv(b, p, moves, st) && Isolated(b, p) && Enabled(b, st, Work(j))
    ensures Confined(b, p, st.shared.task, j)
  {
    WaitingIsPrepared(b, p, st.collected, st.verdicts.Keys, BlamedLater(b, moves), st.shared.task, j);
  }

  /** What is left of the invariant, worker `j`'s outcome being `t`. */
  lemma WorkKeepsTask(b: Batch, p: Shared, collected: seq<nat>, worked: set<nat>, blamed: bool, s: Task, t: Task, j: nat)
    requires Ready(b, p) && TaskOk(b, p, collected, worked, blamed, s) && (|b.ids| - 1 !in worked ==> !blamed)
    requires j < |b.ids| && j !in worked && j !in collected
    requires InShape(b, p, t) && Leaves(b, s, t, j)
    requires t.history[b.base + j] == Alone(b, p, j).attempt && NodeNamed(t, b.ids[j]) == Alone(b, p, j).node
    ensures TaskOk(b, p, collected, worked + {j}, blamed || (|b.ids| - 1 in worked && Blames(b, Work(j))), t)
  {
    WorkKeepsNodes(b, p, collected, worked, blamed, s, t, j);
    WorkKeepsAttempts(b, p, worked, blamed, s, t, j);
  }

  lemma BlamedNeedsLast(b: Batch, p: Shared, moves: seq<Move>, st: State)
    requires b.ids != [] && BookkeepingOk(b, p, moves, st) && |b.ids| - 1 !in st.verdicts.Keys
    ensures !BlamedLater(b, moves)
  {
  }

  lemma WorkKeepsInv(b: Batch, p: Shared, moves: seq<Move>, st: State, j: nat)
    requires Inv(b, p, moves, st) && Isolated(b, p) && Enabled(b, st, Work(j))
    ensures Inv(b, p, moves + [Work(j)], Moved(b, st, Work(j)))
  {
    WorkIsConfined(b, p, moves, st, j);
    WorkKeepsBooks(b, p, moves, st, j);
    if |b.ids| - 1 !in st.verdicts.Keys { BlamedNeedsLast(b, p, moves, st); }
    BlamedLaterStep(b, moves, Work(j));
    WorkKeepsTask(b, p, st.collected, st.verdicts.Keys, BlamedLater(b, moves), st.shared.task, b.work(st.shared.task, j).state, j);
  }

  /** Collecting a failure marks the node, and nothing but the node. */
  lemma CollectMarks(b: Batch, s: Shared, j: nat, v: Verdict)
    requires j < |b.ids| && Distinct(b.ids) && NodeNamed(s.task, b.ids[j]).Some?
    ensures var t := Collected(s, b.ids[j], v).task;
      && t.history == s.task.history && t.iteration == s.task.iteration && OtherNodesKept(b, s.task, t)
      && forall h: nat | h < |b.ids| :: NodeNamed(t, b.ids[h]) == Failing(NodeNamed(s.task, b.ids[h]), h == j && v.Fails?)
  {
    var t := Collected(s, b.ids[j], v).task;
    assert SameNames(s.task.graph.value, t.graph.value);
    forall h: nat | h < |b.ids| ensures NodeNamed(t, b.ids[h]) == Failing(NodeNamed(s.task, b.ids[h]), h == j && v.Fails?) {
      SameFirstIndex(s.task.graph.value, t.graph.value, b.ids[h]);
    }
  }

  lemma CollectKeepsNodes(b: Batch, p: Shared, collected: seq<nat>, worked: set<nat>, blamed: bool, s: Shared, j: nat, v: Verdict)
    requires Ready(b, p) && InShape(b, p, s.task) && j < |b.ids| && v == Alone(b, p, j).verdict && j in worked
    requires NodesOk(b, p, collected, worked, blamed, s.task)
    ensures var t := Collected(s, b.ids[j], v).task;
      InShape(b, p, t) && NodesOk(b, p, collected + [j], worked, blamed, t) && t.history == s.task.history
  {
    var t := Collected(s, b.ids[j], v).task;
    assert NodeReady(b, p, j);
    SameFirstIndex(p.task.graph.value, s.task.graph.value, b.ids[j]);
    CollectMarks(b, s, j, v);
    OthersKeptTwice(b, p.task, s.task, t);
    forall h: nat | h < |b.ids| ensures NodeStands(b, p, collected + [j], worked, blamed, t, h) {
      assert NodeStands(b, p, collected, worked, blamed, s.task, h);
    }
  }

  lemma CollectKeepsTask(b: Batch, p: Shared, collected: seq<nat>, worked: set<nat>, blamed: bool, s: Shared, j: nat, v: Verdict)
    requires Ready(b, p) && TaskOk(b, p, collected, worked, blamed, s.task) && j < |b.ids| && v == Alone(b, p, j).verdict && j in worked
    ensures TaskOk(b, p, collected + [j], worked, blamed, Collected(s, b.ids[j], v).task)
  {
    CollectKeepsNodes(b, p, collected, worked, blamed, s, j, v);
    SameHistorySameAttempts(b, p, worked, blamed, s.task, Collected(s, b.ids[j], v).task);
  }

  lemma SameHistorySameAttempts(b: Batch, p: Shared, worked: set<nat>, blamed: bool, s: Task, t: Task)
    requires |s.history| == |p.task.history| && s.history != [] && t.history == s.history
    requires AttemptsStand(b, p, worked, blamed, s)
    ensures AttemptsStand(b, p, worked, blamed, t)
  {
  }

  lemma CollectKeepsBooks(b: Batch, p: Shared, moves: seq<Move>, st: State, j: nat)
    requires BookkeepingOk(b, p, moves, st) && Enabled(b, st, Collect(j))
    ensures BookkeepingOk(b, p, moves + [Collect(j)], Moved(b, st, Collect(j)))
  {
    CollectedIds(b, st.collected, j);
    QueuedSnoc(b, p, st.collected, j);
  }

  lemma QueuedSnoc(b: Batch, p: Shared, collected: seq<nat>, j: nat)
    requires j < |b.ids|
    ensures Queued(b, p, collected + [j]) ==
      if Alone(b, p, j).verdict.Approves? then EnqueueMerge(Queued(b, p, collected), b.ids[j]) else Queued(b, p, collected)
  {
    assert (collected + [j])[..|collected|] == collected;
  }

  function IdsOf(b: Batch, collected: seq<nat>): set<string> {
    set i | i in collected && i < |b.ids| :: b.ids[i]
  }

  lemma CollectedIds(b: Batch, collected: seq<nat>, j: nat)
    requires j < |b.ids|
    ensures IdsOf(b, collected + [j]) == IdsOf(b, collected) + {b.ids[j]}
  {
    assert forall i :: i in collected + [j] <==> i in collected || i == j;
  }

  lemma CollectKeepsInv(b: Batch, p: Shared, moves: seq<Move>, st: State, j: nat)
    requires Inv(b, p, moves, st) && Enabled(b, st, Collect(j))
    ensures Inv(b, p, moves + [Collect(j)], Moved(b, st, Collect(j)))
  {
    CollectKeepsTask(b, p, st.collected, st.verdicts.Keys, BlamedLater(b, moves), st.shared, j, st.verdicts[j]);
    CollectKeepsBooks(b, p, moves, st, j);
    BlamedLaterStep(b, moves, Collect(j));
  }

  lemma MoveKeepsInv(b: Batch, p: Shared, moves: seq<Move>, st: State, m: Move, next: State)
    requires Inv(b, p, moves, st) && Isolated(b, p) && Steps(b, st, m, next)
    ensures Inv(b, p, moves + [m], next)
  {
    if m.Work? { WorkKeepsInv(b, p, moves, st, m.j); } else { CollectKeepsInv(b, p, moves, st, m.j); }
  }

  lemma StartHasInv(b: Batch, p: Shared)
    requires Ready(b, p)
    ensures Inv(b, p, [], State(p, map[], []))
  {
  }

  lemma RunsKeepInv(b: Batch, p: Shared, moves: seq<Move>, trace: seq<State>, n: nat)
    requires Ready(b, p) && Isolated(b, p) && Runs(b, p, moves, trace) && n <= |moves|
    ensures Inv(b, p, moves[..n], trace[n])
  {
    StartHasInv(b, p);
    forall past, st, m, next | Inv(b, p, past, st) && Steps(b, st, m, next) ensures Inv(b, p, past + [m], next) {
      MoveKeepsInv(b, p, past, st, m, next);
    }
    PrefixInvariance((st: State, m: Move, next: State) => Steps(b, st, m, next),
      (past: seq<Move>, st: State) => Inv(b, p, past, st), trace, moves, n);
  }

  lemma PrefixSnoc(moves: seq<Move>, n: nat)
    requires n < |moves|
    ensures moves[..n + 1] == moves[..n] + [moves[n]]
  {
  }
}
