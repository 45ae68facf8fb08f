/** What a parallel batch comes to, in every order of its critical sections. */
module BatchResults {
  import opened Option
  import opened TaskGraph
  import opened TaskState
  import opened NodePipeline
  import opened ParallelBatch

  // ---------------------------------------------------------------- schedules

  /** Each critical section comes once, a worker's before the collection of its result. */
  ghost predicate WellOrdered(b: Batch, moves: seq<Move>) {
    && (forall i | 0 <= i < |moves| :: moves[i].j < |b.ids|)
    && (forall h, i | 0 <= h < i < |moves| :: moves[h] != moves[i])
    && (forall i | 0 <= i < |moves| && moves[i].Collect? :: Work(moves[i].j) in moves[..i])
  }

  /** The state knows which workers are through and which results were collected. */
  ghost predicate Knows(st: State, moves: seq<Move>) {
    && (forall j :: j in st.verdicts <==> Work(j) in moves)
    && (forall j :: j in st.collected <==> Collect(j) in moves)
  }

  lemma NextIsEnabled(b: Batch, moves: seq<Move>, n: nat, st: State)
    requires WellOrdered(b, moves) && n < |moves| && Knows(st, moves[..n])
    ensures Enabled(b, st, moves[n]) && Knows(Moved(b, st, moves[n]), moves[..n + 1])
  {
    assert moves[n] !in moves[..n];
    PrefixSnoc(moves, n);
  }

  lemma RunsExtend(b: Batch, p: Shared, moves: seq<Move>, n: nat, trace: seq<State>, next: State)
    requires n < |moves| && Runs(b, p, moves[..n], trace) && Steps(b, trace[n], moves[n], next)
    ensures Runs(b, p, moves[..n + 1], trace + [next])
  {
  }

  ghost predicate Played(b: Batch, p: Shared, moves: seq<Move>, n: nat, trace: seq<State>) {
    n <= |moves| && Runs(b, p, moves[..n], trace) && Knows(trace[n], moves[..n])
  }

  lemma ReachNext(b: Batch, p: Shared, moves: seq<Move>, n: nat, trace: seq<State>) returns (more: seq<State>)
    requires Played(b, p, moves, n, trace) && n < |moves| && WellOrdered(b, moves)
    ensures Played(b, p, moves, n + 1, more)
  {
    NextIsEnabled(b, moves, n, trace[n]);
    RunsExtend(b, p, moves, n, trace, Moved(b, trace[n], moves[n]));
    more := trace + [Moved(b, trace[n], moves[n])];
  }

  lemma PlayStarts(b: Batch, p: Shared, moves: seq<Move>)
    ensures Played(b, p, moves, 0, [State(p, map[], [])])
  {
  }

  lemma {:induction false} ReachesAll(b: Batch, p: Shared, moves: seq<Move>, n: nat) returns (trace: seq<State>)
    requires WellOrdered(b, moves) && n <= |moves|
    ensures Played(b, p, moves, n, trace)
  {
    if n == 0 {
      trace := [State(p, map[], [])];
      PlayStarts(b, p, moves);
    } else {
      trace := ReachesAll(b, p, moves, n - 1);
      trace := ReachNext(b, p, moves, n - 1, trace);
    }
  }

  /** Every such order of the critical sections can be taken. */
  lemma OrderedMovesRun(b: Batch, p: Shared, moves: seq<Move>) returns (trace: seq<State>)
    requires WellOrdered(b, moves)
    ensures Runs(b, p, moves, trace)
  {
    trace := ReachesAll(b, p, moves, |moves|);
    assert moves[..|moves|] == moves;
  }

  /** The last worker first, then the others, then the coordinator. */
  function LastFirst(n: nat): (moves: seq<Move>)
    ensures |moves| == 2 * n
  {
    seq(2 * n, i requires 0 <= i < 2 * n => if i == 0 then Work(n - 1) else if i < n then Work(i - 1) else Collect(i - n))
  }

  /** The workers in the order of the batch, the last one last, then the coordinator. */
  function LastLast(n: nat): (moves: seq<Move>)
    ensures |moves| == 2 * n
  {
    seq(2 * n, i requires 0 <= i < 2 * n => if i < n then Work(i) else Collect(i - n))
  }

  lemma LastFirstIsOrdered(b: Batch)
    requires b.ids != []
    ensures WellOrdered(b, LastFirst(|b.ids|)) && Drained(b, LastFirst(|b.ids|))
  {
    var n, moves := |b.ids|, LastFirst(|b.ids|);
    forall i | 0 <= i < 2 * n && moves[i].Collect? ensures Work(moves[i].j) in moves[..i] {
      var h := if i - n == n - 1 then 0 else i - n + 1;
      assert moves[..i][h] == Work(i - n);
    }
    forall j | 0 <= j < n ensures Collect(j) in moves {
      assert moves[n + j] == Collect(j);
    }
  }

  lemma LastLastIsOrdered(b: Batch)
    requires b.ids != []
    ensures WellOrdered(b, LastLast(|b.ids|)) && Drained(b, LastLast(|b.ids|))
  {
    var n, moves := |b.ids|, LastLast(|b.ids|);
    forall i | 0 <= i < 2 * n && moves[i].Collect? ensures Work(moves[i].j) in moves[..i] {
      assert moves[..i][i - n] == Work(i - n);
    }
    forall j | 0 <= j < n ensures Collect(j) in moves {
      assert moves[n + j] == Collect(j);
    }
  }

  /** In one of the two the last attempt is blamed by whoever strays, in the other by nobody. */
  lemma SchedulesBlame(b: Batch)
    requires b.ids != []
    ensures BlamedLater(b, LastFirst(|b.ids|)) <==> exists j :: 0 <= j < |b.ids| - 1 && b.strays(j)
    ensures !BlamedLater(b, LastLast(|b.ids|))
  {
    var n := |b.ids|;
    if j :| 0 <= j < n - 1 && b.strays(j) {
      assert LastFirst(n)[0] == Work(n - 1) && LastFirst(n)[j + 1] == Work(j);
    }
  }

  /** Without a worker that strays nobody is ever blamed. */
  lemma BlameNeedsAStray(b: Batch, moves: seq<Move>)
    requires b.ids != [] && BlamedLater(b, moves)
    ensures exists j :: 0 <= j < |b.ids| - 1 && b.strays(j)
  {
    var i, m :| 0 <= i < m < |moves| && moves[i] == Work(|b.ids| - 1) && Blames(b, moves[m]);
    assert b.strays(moves[m].j);
  }

  // ---------------------------------------------------------------- what a batch comes to

  ghost predicate Drained(b: Batch, moves: seq<Move>) {
    forall j | 0 <= j < |b.ids| :: Collect(j) in moves
  }

  /** Node `j` at the end: its worker's, FAILED where the worker failed or where the last was blamed. */
  ghost function LeftNode(b: Batch, p: Shared, j: nat, blamed: bool): Option<Node> {
    Failing(Alone(b, p, j).node, Alone(b, p, j).verdict.Fails? || (j == |b.ids| - 1 && blamed))
  }

  ghost predicate Conserved(b: Batch, p: Shared, blamed: bool, r: Shared) {
    var last := |p.task.history| - 1;
    && r.running == p.running - (set id | id in b.ids)
    && |r.task.history| == |p.task.history| && 0 <= b.base <= last && r.task.iteration == p.task.iteration
    && (forall m | 0 <= m < b.base :: r.task.history[m] == p.task.history[m])
    && (forall m | b.base <= m < last :: r.task.history[m] == Alone(b, p, m - b.base).attempt)
    && r.task.history[last] == AfterStray(Alone(b, p, last - b.base).attempt, blamed)
    && OtherNodesKept(b, p.task, r.task)
    && (forall j: nat | j < |b.ids| :: NodeNamed(r.task, b.ids[j]) == LeftNode(b, p, j, blamed))
  }

  /**
   * However the workers and the coordinator interleave, a batch that is through has taken every
   * one of its nodes out of `running_attempts` and nothing else, and no worker's update is lost:
   * each attempt but the last is what its worker would have made of it alone, and so is each node,
   * FAILED where its worker failed; whatever is not of the batch is as it was.  The last attempt
   * and its node are that too, unless another worker's failure was blamed on them later.
   */
  lemma BatchConservesUpdates(b: Batch, p: Shared, moves: seq<Move>, trace: seq<State>)
    requires Ready(b, p) && Isolated(b, p) && Runs(b, p, moves, trace) && Drained(b, moves)
    ensures Conserved(b, p, BlamedLater(b, moves), trace[|moves|].shared)
  {
    RunsKeepInv(b, p, moves, trace, |moves|);
    assert moves[..|moves|] == moves;
    EndConserves(b, p, moves, trace[|moves|]);
  }

  lemma EndConserves(b: Batch, p: Shared, moves: seq<Move>, st: State)
    requires Inv(b, p, moves, st) && Drained(b, moves)
    ensures Conserved(b, p, BlamedLater(b, moves), st.shared)
  {
    AllCollected(b, p, moves, st);
    EndOfTask(b, p, st.collected, st.verdicts.Keys, BlamedLater(b, moves), st.shared);
  }

  lemma EndOfTask(b: Batch, p: Shared, collected: seq<nat>, worked: set<nat>, blamed: bool, r: Shared)
    requires Ready(b, p) && TaskOk(b, p, collected, worked, blamed, r.task)
    requires forall j | 0 <= j < |b.ids| :: j in collected && j in worked
    requires r.running == p.running - set id | id in b.ids
    ensures Conserved(b, p, blamed, r)
  {
    AllWorked(b, p, worked, blamed, r.task);
    AllNodesStand(b, p, collected, worked, blamed, r.task);
  }

  lemma AllNodesStand(b: Batch, p: Shared, collected: seq<nat>, worked: set<nat>, blamed: bool, s: Task)
    requires NodesOk(b, p, collected, worked, blamed, s)
    requires forall j | 0 <= j < |b.ids| :: j in collected && j in worked
    ensures forall j: nat | j < |b.ids| :: NodeNamed(s, b.ids[j]) == LeftNode(b, p, j, blamed)
  {
    forall j: nat | j < |b.ids| ensures NodeNamed(s, b.ids[j]) == LeftNode(b, p, j, blamed) {
      assert NodeStands(b, p, collected, worked, blamed, s, j);
    }
  }

  lemma AllCollected(b: Batch, p: Shared, moves: seq<Move>, st: State)
    requires BookkeepingOk(b, p, moves, st) && Drained(b, moves)
    ensures forall j | 0 <= j < |b.ids| :: j in st.collected && j in st.verdicts.Keys
    ensures IdsOf(b, st.collected) == set id | id in b.ids
  {
    forall j | 0 <= j < |b.ids| ensures j in st.collected && j in st.verdicts.Keys {
      assert Collect(j) in moves;
    }
  }

  lemma AllWorked(b: Batch, p: Shared, worked: set<nat>, blamed: bool, s: Task)
    requires Sized(b, p) && |s.history| == |p.task.history| && AttemptsStand(b, p, worked, blamed, s)
    requires forall j | 0 <= j < |b.ids| :: j in worked
    ensures var last := |s.history| - 1;
      && (forall m | 0 <= m < b.base :: s.history[m] == p.task.history[m])
      && (forall m | b.base <= m < last :: s.history[m] == Alone(b, p, m - b.base).attempt)
      && s.history[last] == AfterStray(Alone(b, p, last - b.base).attempt, blamed)
  {
  }

  /**
   * The last attempt keeps its own worker's result exactly when no other worker strayed after it
   * was through, unless it had failed by itself.
   */
  lemma LastAttemptSurvivesExactlyWhen(b: Batch, p: Shared, moves: seq<Move>, trace: seq<State>)
    requires Ready(b, p) && Isolated(b, p) && Runs(b, p, moves, trace) && Drained(b, moves)
    ensures var last := |p.task.history| - 1;
      var own := Alone(b, p, last - b.base).attempt;
      |trace[|moves|].shared.task.history| > last
      && (trace[|moves|].shared.task.history[last] == own <==> !BlamedLater(b, moves) || own.phase == AtFailed)
  {
    BatchConservesUpdates(b, p, moves, trace);
    var own := Alone(b, p, |b.ids| - 1).attempt;
    assert own.(phase := AtFailed) == own <==> own.phase == AtFailed;
  }

  ghost predicate Survives(b: Batch, p: Shared, r: Shared) {
    b.ids != [] && |r.task.history| == b.base + |b.ids|
    && r.task.history[b.base + |b.ids| - 1] == Alone(b, p, |b.ids| - 1).attempt
  }

  /**
   * Before the batch starts: the last attempt is safe in every schedule exactly when no other
   * worker strays, unless it is going to fail by itself.
   */
  lemma LastAttemptIsSafeExactlyWhen(b: Batch, p: Shared)
    requires Ready(b, p) && Isolated(b, p)
    ensures (forall moves: seq<Move>, trace: seq<State> | Runs(b, p, moves, trace) && Drained(b, moves) :: Survives(b, p, trace[|moves|].shared))
      <==> (forall j | 0 <= j < |b.ids| - 1 :: !b.strays(j)) || Alone(b, p, |b.ids| - 1).attempt.phase == AtFailed
  {
    forall moves: seq<Move>, trace: seq<State> | Runs(b, p, moves, trace) && Drained(b, moves)
      ensures Survives(b, p, trace[|moves|].shared) <==> !BlamedLater(b, moves) || Alone(b, p, |b.ids| - 1).attempt.phase == AtFailed
    {
      BatchConservesUpdates(b, p, moves, trace);
      LastAttemptSurvivesExactlyWhen(b, p, moves, trace);
    }
    forall moves: seq<Move> | BlamedLater(b, moves) ensures exists j :: 0 <= j < |b.ids| - 1 && b.strays(j) {
      BlameNeedsAStray(b, moves);
    }
    LastFirstIsOrdered(b);
    LastLastIsOrdered(b);
    SchedulesBlame(b);
    var trace := OrderedMovesRun(b, p, LastFirst(|b.ids|));
    assert Runs(b, p, LastFirst(|b.ids|), trace);
  }

  lemma {:induction false} QueuedHolds(b: Batch, p: Shared, collected: seq<nat>, id: string)
    requires Distinct(p.queue)
    ensures var q := Queued(b, p, collected);
      && Distinct(q) && p.queue <= q
      && (id in q <==> id in p.queue || exists j | 0 <= j < |b.ids| :: j in collected && b.ids[j] == id && Alone(b, p, j).verdict.Approves?)
  {
    if collected != [] {
      QueuedHolds(b, p, collected[..|collected| - 1], id);
    }
  }

  /**
   * The merge queue keeps what it held, in order, and gains exactly the nodes whose workers
   * approve, each once, in whatever order the results came in.
   */
  lemma QueueGainsExactlyTheApproved(b: Batch, p: Shared, moves: seq<Move>, trace: seq<State>, id: string)
    requires Ready(b, p) && Isolated(b, p) && Runs(b, p, moves, trace) && Drained(b, moves) && Distinct(p.queue)
    ensures var q := trace[|moves|].shared.queue;
      && Distinct(q) && p.queue <= q
      && (id in q <==> id in p.queue || exists j | 0 <= j < |b.ids| :: b.ids[j] == id && Alone(b, p, j).verdict.Approves?)
  {
    var n := |moves|;
    RunsKeepInv(b, p, moves, trace, n);
    assert moves[..n] == moves;
    QueuedHolds(b, p, trace[n].collected, id);
    AllCollected(b, p, moves, trace[n]);
  }
}
