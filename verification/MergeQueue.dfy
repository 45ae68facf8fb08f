/** The serial merge queue (src/cc_loop/merge_queue.py) and the loop that drains it (parallel_scheduler.py). */
module MergeQueue {
  import opened Option
  import opened TaskGraph
  import opened TaskState
  import opened AutoLoop
  import opened NodePipeline
  import opened BatchResults
  import opened ParallelBatch

  predicate IsMergeable(a: Attempt, id: string) {
    a.nodeId == id && (a.phase == AtApproved || a.phase == AtMerged)
  }

  /** The last approved or merged attempt of a node among the first `n`. */
  function LatestMergeable(h: seq<Attempt>, n: nat, id: string): (r: Option<nat>)
    requires n <= |h|
    ensures r.Some? ==> r.value < n && IsMergeable(h[r.value], id) && forall m | r.value < m < n :: !IsMergeable(h[m], id)
    ensures r.None? ==> forall m | 0 <= m < n :: !IsMergeable(h[m], id)
  {
    if n == 0 then None else if IsMergeable(h[n - 1], id) then Some(n - 1) else LatestMergeable(h, n - 1, id)
  }

  /** `find_attempt_for_node` */
  function AttemptFor(s: Shared, id: string): (r: Option<nat>)
    ensures r.Some? ==> r.value < |s.task.history|
  {
    if id in s.running && s.running[id] < |s.task.history| then Some(s.running[id])
    else LatestMergeable(s.task.history, |s.task.history|, id)
  }

  /**
   * The attempt of a node is the one `running_attempts` names, where history has it, and otherwise the
   * last one of that node that is approved or merged.
   */
  lemma FoundExactlyWhen(s: Shared, id: string, k: nat)
    ensures id in s.running && s.running[id] < |s.task.history| ==> (AttemptFor(s, id) == Some(k) <==> k == s.running[id])
    ensures !(id in s.running && s.running[id] < |s.task.history|) ==>
      var h := s.task.history;
      AttemptFor(s, id) == Some(k) <==>
        && k < |h| && h[k].nodeId == id && (h[k].phase == AtApproved || h[k].phase == AtMerged)
        && forall m | k < m < |h| :: h[m].nodeId != id || (h[m].phase != AtApproved && h[m].phase != AtMerged)
  {
  }

  // ---------------------------------------------------------------- the merge loop

  datatype Progress = Draining | Emptied | Crashed

  /** The coordinator's copy, the persisted state, and the attempts finalised so far, in order. */
  datatype Loop = Loop(memory: Shared, disk: Shared, progress: Progress, finalised: seq<nat>)

  predicate Over(l: Loop) {
    l.progress != Draining || l.memory.queue == []
  }

  /**
   * One turn of the `while pending_merge_count(state) > 0`: it reloads the task, takes the head of
   * the queue, and saves only when it has found an attempt to finalise.
   */
  function Turn(cfg: Config, l: Loop, w: World): Loop {
    var s := l.disk;
    if s.queue == [] then Loop(s, s, Emptied, l.finalised)
    else
      var taken := s.(queue := s.queue[1..]);
      match AttemptFor(taken, s.queue[0])
      case None => l.(memory := taken)
      case Some(k) =>
        match FinalizingAt(cfg, taken.task, k, w)
        case Ok(t) => Loop(taken.(task := t), taken.(task := t), Draining, l.finalised + [k])
        case Raised(t, _) => Loop(taken.(task := t), s, Crashed, l.finalised)
  }

  function Turns(cfg: Config, l: Loop, worlds: seq<World>): Loop
    decreases |worlds|
  {
    if Over(l) || worlds == [] then l else Turns(cfg, Turn(cfg, l, worlds[0]), worlds[1..])
  }

  function Begin(s: Shared): Loop {
    Loop(s, s, Draining, [])
  }

  // ---------------------------------------------------------------- what finalising leaves alone

  /** Running entries point at their nodes' attempts, and every attempt's node is in the graph. */
  ghost predicate Sane(s: Shared) {
    && (forall id | id in s.running && s.running[id] < |s.task.history| :: s.task.history[s.running[id]].nodeId == id)
    && (s.task.graph.Some? ==> forall m | 0 <= m < |s.task.history| && s.task.history[m].nodeId != "" ::
          FirstIndex(s.task.graph.value, s.task.history[m].nodeId).Some?)
  }

  /** Attempt `k` keeps its node and, unless it becomes MERGED, its phase; the rest stays, and so do the node names. */
  ghost predicate Settles(s: Task, t: Task, k: nat) {
    && k < |s.history| == |t.history|
    && (forall m | 0 <= m < |s.history| && m != k :: t.history[m] == s.history[m])
    && t.history[k].nodeId == s.history[k].nodeId
    && (t.history[k].phase == s.history[k].phase || t.history[k].phase == AtMerged)
    && t.graph.Some? == s.graph.Some?
    && (s.graph.Some? ==> SameNames(s.graph.value, t.graph.value))
  }

  lemma MarkedKeepsNames(ns: seq<Node>, id: string, iteration: nat)
    ensures MarkPassed(ns, id, iteration).Some? == MarkRejected(ns, id).Some? == FirstIndex(ns, id).Some?
    ensures FirstIndex(ns, id).Some? ==> SameNames(ns, MarkPassed(ns, id, iteration).value) && SameNames(ns, MarkRejected(ns, id).value)
  {
  }

  lemma FinalizingSettles(cfg: Config, s: Task, k: nat, w: World)
    requires k < |s.history|
    requires s.graph.Some? && s.history[k].nodeId != "" ==> FirstIndex(s.graph.value, s.history[k].nodeId).Some?
    ensures var r := FinalizingAt(cfg, s, k, w); r.Ok? && Settles(s, r.state, k)
  {
    if s.graph.Some? {
      MarkedKeepsNames(s.graph.value, s.history[k].nodeId, s.history[k].iteration);
    }
  }

  lemma SettledKeepsSane(s: Shared, t: Shared, k: nat)
    requires Sane(s) && Settles(s.task, t.task, k) && t.running == s.running
    ensures Sane(t)
  {
    if s.task.graph.Some? {
      forall m | 0 <= m < |t.task.history| && t.task.history[m].nodeId != "" ensures FirstIndex(t.task.graph.value, t.task.history[m].nodeId).Some? {
        SameFirstIndex(s.task.graph.value, t.task.graph.value, s.task.history[m].nodeId);
      }
    }
  }

  lemma {:induction false} SameLatest(h: seq<Attempt>, g: seq<Attempt>, n: nat, id: string)
    requires n <= |h| == |g| && forall m | 0 <= m < n :: IsMergeable(g[m], id) == IsMergeable(h[m], id)
    ensures LatestMergeable(g, n, id) == LatestMergeable(h, n, id)
  {
    if n > 0 { SameLatest(h, g, n - 1, id); }
  }

  /** Finalising the attempt of one node changes no node's attempt. */
  lemma SettledKeepsAttempts(s: Shared, t: Shared, k: nat, head: string, id: string)
    requires Sane(s) && AttemptFor(s, head) == Some(k) && Settles(s.task, t.task, k) && t.running == s.running
    ensures AttemptFor(t, id) == AttemptFor(s, id)
  {
    if !(id in s.running && s.running[id] < |s.task.history|) {
      SameLatest(s.task.history, t.task.history, |s.task.history|, id);
    }
  }

  // ---------------------------------------------------------------- draining

  ghost predicate AllHaveAttempts(s: Shared, queue: seq<string>) {
    forall i | 0 <= i < |queue| :: AttemptFor(s, queue[i]).Some?
  }

  /** The attempts of the queued nodes, in queue order. */
  function AttemptsOf(s: Shared, queue: seq<string>): (ks: seq<nat>)
    requires forall i | 0 <= i < |queue| :: AttemptFor(s, queue[i]).Some?
    ensures |ks| == |queue| && forall i | 0 <= i < |ks| :: ks[i] == AttemptFor(s, queue[i]).value
  {
    seq(|queue|, i requires 0 <= i < |queue| => AttemptFor(s, queue[i]).value)
  }

  /** Finalising these attempts one after the other. */
  function FinalizeAll(cfg: Config, s: Task, ks: seq<nat>, worlds: seq<World>): Task
    requires |ks| <= |worlds|
    decreases |ks|
  {
    if ks == [] || ks[0] >= |s.history| then s else FinalizeAll(cfg, FinalizingAt(cfg, s, ks[0], worlds[0]).state, ks[1..], worlds[1..])
  }

  lemma TurnFinalises(cfg: Config, l: Loop, w: World)
    requires Sane(l.disk) && l.disk.queue != [] && AttemptFor(l.disk, l.disk.queue[0]).Some?
    ensures var k, next := AttemptFor(l.disk, l.disk.queue[0]).value, Turn(cfg, l, w);
      && next.memory == next.disk == l.disk.(task := FinalizingAt(cfg, l.disk.task, k, w).state, queue := l.disk.queue[1..])
      && next.progress == Draining && next.finalised == l.finalised + [k]
      && Sane(next.disk) && forall id :: AttemptFor(next.disk, id) == AttemptFor(l.disk, id)
  {
    var s := l.disk;
    var k := AttemptFor(s, s.queue[0]).value;
    var taken := s.(queue := s.queue[1..]);
    assert AttemptFor(taken, s.queue[0]) == Some(k);
    FinalizingSettles(cfg, taken.task, k, w);
    var t := taken.(task := FinalizingAt(cfg, taken.task, k, w).state);
    SettledKeepsSane(taken, t, k);
    forall id ensures AttemptFor(t, id) == AttemptFor(s, id) {
      SettledKeepsAttempts(taken, t, k, s.queue[0], id);
    }
  }

  lemma AttemptsOfTail(s: Shared, t: Shared, q: seq<string>)
    requires q != [] && AllHaveAttempts(s, q) && forall id :: AttemptFor(t, id) == AttemptFor(s, id)
    ensures AllHaveAttempts(t, q[1..]) && AttemptsOf(t, q[1..]) == AttemptsOf(s, q)[1..]
  {
  }

  /**
   * Given an attempt for every queued node, the loop ends, has finalised each queued node once,
   * first in first out, and leaves the queue empty, in memory and on disk.
   */
  lemma {:induction false} MergeLoopDrains(cfg: Config, l: Loop, worlds: seq<World>)
    requires Sane(l.disk) && l.memory == l.disk && l.progress == Draining && AllHaveAttempts(l.disk, l.disk.queue)
    requires |worlds| >= |l.disk.queue|
    ensures var r, ks := Turns(cfg, l, worlds), AttemptsOf(l.disk, l.disk.queue);
      && Over(r) && r.progress == Draining && r.memory == r.disk
      && r.finalised == l.finalised + ks
      && r.disk == l.disk.(task := FinalizeAll(cfg, l.disk.task, ks, worlds), queue := [])
    decreases |l.disk.queue|
  {
    var ks := AttemptsOf(l.disk, l.disk.queue);
    if l.disk.queue != [] {
      TurnFinalises(cfg, l, worlds[0]);
      var next := Turn(cfg, l, worlds[0]);
      AttemptsOfTail(l.disk, next.disk, l.disk.queue);
      MergeLoopDrains(cfg, next, worlds[1..]);
      assert l.finalised + [ks[0]] + ks[1..] == l.finalised + ks;
    }
  }

  /** The attempts of different nodes are different, so none is finalised twice. */
  lemma NoneIsFinalisedTwice(s: Shared, i: nat, j: nat)
    requires Sane(s) && Distinct(s.queue) && AllHaveAttempts(s, s.queue) && i < j < |s.queue|
    ensures AttemptsOf(s, s.queue)[i] != AttemptsOf(s, s.queue)[j]
  {
    AttemptIsOfNode(s, s.queue[i]);
    AttemptIsOfNode(s, s.queue[j]);
  }

  lemma AttemptIsOfNode(s: Shared, id: string)
    requires Sane(s) && AttemptFor(s, id).Some?
    ensures s.task.history[AttemptFor(s, id).value].nodeId == id
  {
  }

  // ---------------------------------------------------------------- when it does not end

  /** The head of the persisted queue has no attempt, and it is not alone there. */
  ghost predicate Stuck(l: Loop) {
    l.progress == Draining && l.memory.queue != [] && |l.disk.queue| >= 2 && AttemptFor(l.disk, l.disk.queue[0]).None?
  }

  /** A turn that finds no attempt saves nothing, so the next one reloads the same head: for ever. */
  lemma {:induction false} StuckForEver(cfg: Config, l: Loop, worlds: seq<World>)
    requires Stuck(l)
    ensures var r := Turns(cfg, l, worlds); Stuck(r) && r.disk == l.disk && r.finalised == l.finalised
    decreases |worlds|
  {
    if worlds != [] {
      assert AttemptFor(l.disk.(queue := l.disk.queue[1..]), l.disk.queue[0]).None?;
      StuckForEver(cfg, Turn(cfg, l, worlds[0]), worlds[1..]);
    }
  }

  /** With a turn for every queued node, the loop is over unless it never will be. */
  lemma {:induction false} TurnsEndOrStick(cfg: Config, l: Loop, worlds: seq<World>)
    requires Sane(l.disk) && l.memory == l.disk && l.progress == Draining && |worlds| >= |l.disk.queue|
    ensures var r, q := Turns(cfg, l, worlds), l.disk.queue;
      && (Over(r) <==> forall i | 0 <= i < |q| - 1 :: AttemptFor(l.disk, q[i]).Some?)
      && (!Over(r) ==> Stuck(r))
      && (r.disk.queue == [] <==> AllHaveAttempts(l.disk, q))
    decreases |l.disk.queue|
  {
    var q := l.disk.queue;
    if q != [] {
      var next := Turn(cfg, l, worlds[0]);
      if AttemptFor(l.disk, q[0]).Some? {
        TurnFinalises(cfg, l, worlds[0]);
        TurnsEndOrStick(cfg, next, worlds[1..]);
        TailHasAttempts(l.disk, next.disk, q);
      } else {
        assert next == l.(memory := l.disk.(queue := q[1..])) by {
          assert AttemptFor(l.disk.(queue := q[1..]), q[0]).None?;
        }
        if |q| >= 2 { StuckForEver(cfg, next, worlds[1..]); }
      }
    }
  }

  lemma TailHasAttempts(s: Shared, t: Shared, q: seq<string>)
    requires q != [] && AttemptFor(s, q[0]).Some? && forall id :: AttemptFor(t, id) == AttemptFor(s, id)
    ensures AllHaveAttempts(t, q[1..]) <==> AllHaveAttempts(s, q)
    ensures (forall i | 0 <= i < |q[1..]| - 1 :: AttemptFor(t, q[1..][i]).Some?) <==> (forall i | 0 <= i < |q| - 1 :: AttemptFor(s, q[i]).Some?)
  {
    if forall i | 0 <= i < |q[1..]| - 1 :: AttemptFor(t, q[1..][i]).Some? {
      forall i | 0 <= i < |q| - 1 ensures AttemptFor(s, q[i]).Some? {
        if i > 0 { assert q[1..][i - 1] == q[i]; }
      }
    }
    if AllHaveAttempts(t, q[1..]) {
      forall i | 0 <= i < |q| ensures AttemptFor(s, q[i]).Some? {
        if i > 0 { assert q[1..][i - 1] == q[i]; }
      }
    }
  }

  /**
   * The loop ends exactly when every queued node but the last has an attempt: a last one without
   * leaves it ended, its entry still in the persisted queue.  The persisted queue comes out empty
   * exactly when they all have one.
   */
  lemma MergeLoopEndsExactlyWhen(cfg: Config, s: Shared)
    requires Sane(s)
    ensures (forall worlds | |worlds| >= |s.queue| :: Over(Turns(cfg, Begin(s), worlds))) <==>
      (forall i | 0 <= i < |s.queue| - 1 :: AttemptFor(s, s.queue[i]).Some?)
    ensures (exists worlds :: |worlds| >= |s.queue| && Over(Turns(cfg, Begin(s), worlds))) ==>
      (forall i | 0 <= i < |s.queue| - 1 :: AttemptFor(s, s.queue[i]).Some?)
    ensures forall worlds | |worlds| >= |s.queue| ::
      Turns(cfg, Begin(s), worlds).disk.queue == [] <==> AllHaveAttempts(s, s.queue)
  {
    forall worlds | |worlds| >= |s.queue| ensures
        (Over(Turns(cfg, Begin(s), worlds)) <==> forall i | 0 <= i < |s.queue| - 1 :: AttemptFor(s, s.queue[i]).Some?)
        && (Turns(cfg, Begin(s), worlds).disk.queue == [] <==> AllHaveAttempts(s, s.queue)) {
      TurnsEndOrStick(cfg, Begin(s), worlds);
    }
    var some: World :| true;
    var worlds := seq(|s.queue|, i => some);
    assert |worlds| >= |s.queue|;
  }

  /**
   * A turn saves only what it has finalised: without an attempt, or with a finalising that raises, the
   * persisted state stays, and in the second case the loop is over.
   */
  lemma TurnSavesOnlyResults(cfg: Config, l: Loop, w: World)
    requires l.disk.queue != []
    ensures var r, k := Turn(cfg, l, w), AttemptFor(l.disk.(queue := l.disk.queue[1..]), l.disk.queue[0]);
      && (k.None? ==> r.disk == l.disk && r.progress == l.progress && r.finalised == l.finalised)
      && (k.Some? && FinalizingAt(cfg, l.disk.task, k.value, w).Raised? ==>
            r.disk == l.disk && r.progress == Crashed && Over(r) && r.finalised == l.finalised)
      && (k.Some? && FinalizingAt(cfg, l.disk.task, k.value, w).Ok? ==>
            r.disk == r.memory && r.disk.queue == l.disk.queue[1..] && r.disk.running == l.disk.running
            && r.disk.task == FinalizingAt(cfg, l.disk.task, k.value, w).state && r.finalised == l.finalised + [k.value])
  {
  }

  // ---------------------------------------------------------------- what the loop may merge, and what it may lose

  lemma FinalizingMergesThroughGate(cfg: Config, s: Task, k: nat, w: World)
    requires k < |s.history| && FinalizingAt(cfg, s, k, w).Ok?
    requires s.history[k].phase != AtMerged && FinalizingAt(cfg, s, k, w).state.history[k].phase == AtMerged
    ensures CanAutoMerge(cfg, s, s.history[k], w.changedFiles) && w.merger.Merges?
    ensures var id, g := s.history[k].nodeId, s.graph;
      g.Some? && id != "" ==> FinalizingAt(cfg, s, k, w).state.graph == MarkPassed(g.value, id, s.history[k].iteration)
  {
    GatesReadTheGraph(cfg, s, Focus(s, k), s.history[k], w.changedFiles);
  }

  lemma AloneIsOfNode(b: Batch, p: Shared, j: nat)
    requires Ready(b, p) && Isolated(b, p) && j < |b.ids|
    ensures Alone(b, p, j).attempt.nodeId == b.ids[j]
  {
    assert InShape(b, p, p.task) && Waiting(b, p, p.task, j);
    assert Confined(b, p, p.task, j);
  }

  /** What the batch leaves of its attempts, as the search for the last node's attempt sees them. */
  lemma LastNodeIsMergeable(b: Batch, p: Shared, blamed: bool, r: Shared, m: nat)
    requires Ready(b, p) && Isolated(b, p) && Conserved(b, p, blamed, r) && m < |p.task.history|
    requires m < b.base ==> !IsMergeable(p.task.history[m], b.ids[|b.ids| - 1])
    requires Alone(b, p, |b.ids| - 1).verdict.Approves?
    ensures IsMergeable(r.task.history[m], b.ids[|b.ids| - 1]) <==> m == |p.task.history| - 1 && !blamed
  {
    if b.base <= m { AloneIsOfNode(b, p, m - b.base); }
  }

  ghost predicate NeverMergeable(b: Batch, p: Shared)
    requires b.ids != [] && b.base <= |p.task.history|
  {
    forall m | 0 <= m < b.base :: !IsMergeable(p.task.history[m], b.ids[|b.ids| - 1])
  }

  /**
   * An approved node can be stranded.  When its worker approves, the batch ends with the last node
   * queued, and an attempt is found for it exactly when no other worker's failure was blamed on
   * that attempt after its worker was through.
   */
  lemma LastNodeIsFoundExactlyWhen(b: Batch, p: Shared, moves: seq<Move>, trace: seq<State>)
    requires Ready(b, p) && Isolated(b, p) && Runs(b, p, moves, trace) && Drained(b, moves) && Distinct(p.queue)
    requires Alone(b, p, |b.ids| - 1).verdict.Approves? && NeverMergeable(b, p)
    ensures var r, id := trace[|moves|].shared, b.ids[|b.ids| - 1];
      id in r.queue && (AttemptFor(r, id).Some? <==> !BlamedLater(b, moves))
  {
    var r, id := trace[|moves|].shared, b.ids[|b.ids| - 1];
    BatchConservesUpdates(b, p, moves, trace);
    QueueGainsExactlyTheApproved(b, p, moves, trace, id);
    forall m | 0 <= m < |p.task.history|
      ensures IsMergeable(r.task.history[m], id) <==> m == |p.task.history| - 1 && !BlamedLater(b, moves)
    {
      LastNodeIsMergeable(b, p, BlamedLater(b, moves), r, m);
    }
  }

  ghost predicate LastNodeIsFound(b: Batch, r: Shared) {
    b.ids != [] && AttemptFor(r, b.ids[|b.ids| - 1]).Some?
  }

  /** Before the batch starts: no schedule strands the last node exactly when no other worker strays. */
  lemma NoScheduleStrandsExactlyWhen(b: Batch, p: Shared)
    requires Ready(b, p) && Isolated(b, p) && Distinct(p.queue)
    requires Alone(b, p, |b.ids| - 1).verdict.Approves? && NeverMergeable(b, p)
    ensures (forall moves: seq<Move>, trace: seq<State> | Runs(b, p, moves, trace) && Drained(b, moves) ::
        LastNodeIsFound(b, trace[|moves|].shared))
      <==> (forall j | 0 <= j < |b.ids| - 1 :: !b.strays(j))
  {
    forall moves: seq<Move>, trace: seq<State> | Runs(b, p, moves, trace) && Drained(b, moves)
      ensures LastNodeIsFound(b, trace[|moves|].shared) <==> !BlamedLater(b, moves)
    {
      LastNodeIsFoundExactlyWhen(b, p, moves, trace);
    }
    forall moves: seq<Move> | BlamedLater(b, moves) ensures exists j :: 0 <= j < |b.ids| - 1 && b.strays(j) {
      BlameNeedsAStray(b, moves);
    }
    LastFirstIsOrdered(b);
    LastLastIsOrdered(b);
    SchedulesBlame(b);
    var trace := OrderedMovesRun(b, p, LastFirst(|b.ids|));
    assert Runs(b, p, LastFirst(|b.ids|), trace);
  }
}
