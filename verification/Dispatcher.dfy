/** Progress of the dispatcher, and runs that dispatch one node at a time. */
module Dispatcher {
  import opened Option
  import opened Reachability
  import opened TaskGraph
  import opened Blocking

  // ---------------------------------------------------------------- progress

  /** Still to do, and allowed to run as far as its own status goes. */
  predicate Unfinished(n: Node, maxRetries: int) {
    IsRunnableStatus(n, maxRetries)
  }

  lemma {:induction false} RunnableBelow(ns: seq<Node>, k: nat, maxRetries: int) returns (i: nat)
    requires Acyclic(DependencyMap(ns)) && UniqueIds(ns) && NoDangling(ns)
    requires forall j | 0 <= j < |ns| :: ns[j].status == Passed || Unfinished(ns[j], maxRetries)
    requires k < |ns| && ns[k].status != Passed
    ensures i < |ns| && Runnable(ns, i, maxRetries, {})
    decreases Height(DependencyMap(ns), ns[k].id)
  {
    if DependenciesPassed(ns, ns[k]) {
      i := k;
    } else {
      var d :| d in ns[k].dependencies && !(LastIndex(ns, d).Some? && ns[LastIndex(ns, d).value].status == Passed);
      assert d in Ids(ns);
      var j := LastIndex(ns, d).value;
      assert LastIndex(ns, ns[k].id) == Some(k);
      assert d in Next(DependencyMap(ns), ns[k].id);
      HeightDecreases(DependencyMap(ns), ns[k].id, d);
      i := RunnableBelow(ns, j, maxRetries);
    }
  }

  /**
   * `next_runnable_node` returns a node whenever the graph is not complete and every node that
   * has not passed is pending, or rejected with retries left.
   */
  lemma Progress(ns: seq<Node>, maxRetries: int)
    requires ns != [] && Acyclic(DependencyMap(ns)) && UniqueIds(ns) && NoDangling(ns)
    requires forall j | 0 <= j < |ns| :: ns[j].status == Passed || Unfinished(ns[j], maxRetries)
    requires !Complete(ns)
    ensures |Scan(ns, maxRetries, 1, {}).picked| == 1
  {
    var k :| 0 <= k < |ns| && ns[k].status != Passed;
    var i := RunnableBelow(ns, k, maxRetries);
    ScanPicksFirstRunnable(ns, maxRetries, 1, {});
    assert i in RunnableFrom(ns, 0, maxRetries, {});
  }

  // ---------------------------------------------------------------- one dispatch

  datatype Outcome = Passes(iteration: nat) | Rejects | Fails

  function Mark(ns: seq<Node>, id: string, o: Outcome): Option<seq<Node>> {
    match o
    case Passes(iteration) => MarkPassed(ns, id, iteration)
    case Rejects => MarkRejected(ns, id)
    case Fails => MarkFailed(ns, id)
  }

  /** Take the first runnable node, run it, and record how it ended; None when nothing is runnable. */
  function Dispatch(ns: seq<Node>, maxRetries: int, o: Outcome): Option<seq<Node>> {
    var scan := Scan(ns, maxRetries, 1, {});
    if scan.picked == [] || scan.picked[0] >= |scan.nodes| then None
    else
      var id := scan.nodes[scan.picked[0]].id;
      match MarkRunning(scan.nodes, id)
      case None => None
      case Some(running) => Mark(running, id, o)
  }

  function Ended(n: Node, o: Outcome): Node {
    match o
    case Passes(iteration) => n.(status := Passed, attemptIterations := WithIteration(n.attemptIterations, iteration))
    case Rejects => n.(status := Rejected, retryCount := n.retryCount + 1)
    case Fails => n.(status := Failed)
  }

  /** Node `i` ran and ended with `o`; elsewhere only doomed nodes moved, to BLOCKED. */
  ghost predicate Moves(ns: seq<Node>, r: seq<Node>, i: nat, o: Outcome) {
    && |r| == |ns| && i < |ns|
    && r[i] == Ended(ns[i], o)
    && forall k | 0 <= k < |ns| && k != i :: r[k] == ns[k] || (r[k] == ns[k].(status := Blocked) && Doomed(ns, k))
  }

  /** The node a dispatch runs, and the graph it runs in. */
  lemma FirstPick(ns: seq<Node>, maxRetries: int) returns (i: nat)
    requires Scan(ns, maxRetries, 1, {}).picked != []
    ensures var scan := Scan(ns, maxRetries, 1, {});
      && scan.picked == [i] && i < |ns| && Runnable(ns, i, maxRetries, {})
      && |scan.nodes| == |ns| && scan.nodes[i] == ns[i]
      && forall k | 0 <= k < |ns| :: scan.nodes[k] == ns[k] || (scan.nodes[k] == ns[k].(status := Blocked) && Doomed(ns, k))
  {
    ScanPicksFirstRunnable(ns, maxRetries, 1, {});
    ScanBlocksOnlyDoomed(ns, maxRetries, 1, {});
    i := Scan(ns, maxRetries, 1, {}).picked[0];
    PickedIsRunnable(ns, maxRetries, 1, {}, i);
  }

  lemma RunAndMark(ns: seq<Node>, i: nat, o: Outcome)
    requires UniqueIds(ns) && i < |ns|
    ensures MarkRunning(ns, ns[i].id) == Some(SetStatus(ns, i, Running))
    ensures Mark(SetStatus(ns, i, Running), ns[i].id, o) == Some(ns[i := Ended(ns[i], o)])
  {
    assert FirstIndex(ns, ns[i].id) == Some(i);
    var running := SetStatus(ns, i, Running);
    SameFirstIndex(running, ns, ns[i].id);
    assert running[i := Ended(running[i], o)] == ns[i := Ended(ns[i], o)];
  }

  /** What one dispatch does to the whole graph. */
  lemma DispatchEffect(ns: seq<Node>, maxRetries: int, o: Outcome) returns (i: nat)
    requires UniqueIds(ns) && Dispatch(ns, maxRetries, o).Some?
    ensures i < |ns| && Runnable(ns, i, maxRetries, {}) && Moves(ns, Dispatch(ns, maxRetries, o).value, i, o)
  {
    i := FirstPick(ns, maxRetries);
    var scan := Scan(ns, maxRetries, 1, {});
    SameIds(ns, scan.nodes);
    RunAndMark(scan.nodes, i, o);
  }

  lemma DispatchIsPossible(ns: seq<Node>, maxRetries: int, o: Outcome)
    requires UniqueIds(ns) && Scan(ns, maxRetries, 1, {}).picked != []
    ensures Dispatch(ns, maxRetries, o).Some?
  {
    var i := FirstPick(ns, maxRetries);
    var scan := Scan(ns, maxRetries, 1, {});
    SameIds(ns, scan.nodes);
    RunAndMark(scan.nodes, i, o);
  }

  // ---------------------------------------------------------------- whole runs

  ghost predicate Run(trace: seq<seq<Node>>, outcomes: seq<Outcome>, maxRetries: int) {
    |trace| == |outcomes| + 1 &&
    forall k | 0 <= k < |outcomes| :: Dispatch(trace[k], maxRetries, outcomes[k]) == Some(trace[k + 1])
  }

  /** Dispatches a node can still cause. */
  function NodeBudget(n: Node, maxRetries: int): nat {
    var left := maxRetries - n.retryCount;
    if n.status == Pending then (if left < 1 then 1 else left)
    else if n.status == Rejected then (if left < 0 then 0 else left)
    else 0
  }

  function Budget(ns: seq<Node>, maxRetries: int): nat {
    if ns == [] then 0 else NodeBudget(ns[0], maxRetries) + Budget(ns[1..], maxRetries)
  }

  lemma {:induction false} BudgetFalls(before: seq<Node>, after: seq<Node>, i: nat, maxRetries: int)
    requires |after| == |before|
    requires forall k | 0 <= k < |before| :: NodeBudget(after[k], maxRetries) <= NodeBudget(before[k], maxRetries)
    requires i < |before| ==> NodeBudget(after[i], maxRetries) < NodeBudget(before[i], maxRetries)
    ensures Budget(after, maxRetries) <= Budget(before, maxRetries)
    ensures i < |before| ==> Budget(after, maxRetries) < Budget(before, maxRetries)
  {
    if before != [] {
      BudgetFalls(before[1..], after[1..], if i == 0 then |before| else i - 1, maxRetries);
    }
  }

  ghost predicate Fresh(ns: seq<Node>) {
    forall k | 0 <= k < |ns| :: ns[k].status == Pending && ns[k].retryCount == 0
  }

  lemma {:induction false} FreshBudget(ns: seq<Node>, maxRetries: int)
    requires Fresh(ns)
    ensures Budget(ns, maxRetries) == |ns| * AtLeastOne(maxRetries)
  {
    if ns != [] { FreshBudget(ns[1..], maxRetries); }
  }

  ghost predicate SameShape(a: seq<Node>, b: seq<Node>) {
    |a| == |b| && forall k | 0 <= k < |a| :: a[k].id == b[k].id && a[k].dependencies == b[k].dependencies
  }

  /** No node is in flight or skipped, and whatever is blocked has a failure to blame. */
  ghost predicate AtRest(ns: seq<Node>) {
    && (forall k | 0 <= k < |ns| :: ns[k].status != Running && ns[k].status != Skipped)
    && ((exists k :: 0 <= k < |ns| && ns[k].status == Blocked) ==> exists k :: 0 <= k < |ns| && ns[k].status == Failed)
  }

  lemma {:induction false} DoomedMeansFailed(ns: seq<Node>, p: seq<nat>)
    requires NoDangling(ns) && AtRest(ns) && BlameChain(ns, p)
    ensures exists k :: 0 <= k < |ns| && ns[k].status == Failed
  {
    if |p| > 1 {
      ChainTail(ns, p);
      DoomedMeansFailed(ns, p[1..]);
    } else {
      NoUnknownDependency(ns, p[0]);
    }
  }

  lemma MoveKeepsRest(ns: seq<Node>, r: seq<Node>, i: nat, o: Outcome)
    requires NoDangling(ns) && AtRest(ns) && Moves(ns, r, i, o) && ns[i].status != Failed
    ensures AtRest(r)
  {
    if b :| 0 <= b < |r| && r[b].status == Blocked {
      if r[b] != ns[b] {
        var p :| BlameChain(ns, p) && p[0] == b;
        DoomedMeansFailed(ns, p);
      } else {
        assert ns[b].status == Blocked;
      }
      var f :| 0 <= f < |ns| && ns[f].status == Failed;
      assert r[f] == ns[f];
    }
  }

  lemma DispatchKeepsRest(ns: seq<Node>, maxRetries: int, o: Outcome)
    requires UniqueIds(ns) && NoDangling(ns) && AtRest(ns) && Dispatch(ns, maxRetries, o).Some?
    ensures AtRest(Dispatch(ns, maxRetries, o).value)
  {
    var i := DispatchEffect(ns, maxRetries, o);
    MoveKeepsRest(ns, Dispatch(ns, maxRetries, o).value, i, o);
  }

  lemma SameMap(a: seq<Node>, b: seq<Node>)
    requires SameShape(a, b)
    ensures DependencyMap(a) == DependencyMap(b)
  {
    SameIds(a, b);
    forall id | id in Ids(a) ensures DependencyMap(a)[id] == DependencyMap(b)[id] {
      SameLastIndex(a, b, id);
    }
  }

  lemma ShapeIsKept(a: seq<Node>, b: seq<Node>)
    requires SameShape(a, b)
    ensures UniqueIds(a) ==> UniqueIds(b)
    ensures NoDangling(a) ==> NoDangling(b)
    ensures DependencyMap(a) == DependencyMap(b)
  {
    SameIds(a, b);
    SameMap(a, b);
  }

  lemma RunTail(trace: seq<seq<Node>>, outcomes: seq<Outcome>, maxRetries: int)
    requires Run(trace, outcomes, maxRetries) && outcomes != []
    ensures Dispatch(trace[0], maxRetries, outcomes[0]) == Some(trace[1])
    ensures Run(trace[1..], outcomes[1..], maxRetries)
  {
    assert Dispatch(trace[0], maxRetries, outcomes[0]) == Some(trace[0 + 1]);
    var rest, after := trace[1..], outcomes[1..];
    forall k | 0 <= k < |after| ensures Dispatch(rest[k], maxRetries, after[k]) == Some(rest[k + 1]) {
      assert Dispatch(trace[k + 1], maxRetries, outcomes[k + 1]) == Some(trace[k + 1 + 1]);
    }
  }

  lemma DispatchSpendsBudget(ns: seq<Node>, maxRetries: int, o: Outcome)
    requires UniqueIds(ns) && Dispatch(ns, maxRetries, o).Some?
    ensures var r := Dispatch(ns, maxRetries, o).value; SameShape(ns, r) && Budget(r, maxRetries) < Budget(ns, maxRetries)
  {
    var r := Dispatch(ns, maxRetries, o).value;
    var i := DispatchEffect(ns, maxRetries, o);
    BudgetFalls(ns, r, i, maxRetries);
  }

  /** Every dispatch of a run spends budget, and none touches an id or a dependency. */
  lemma {:induction false} RunSpendsBudget(trace: seq<seq<Node>>, outcomes: seq<Outcome>, maxRetries: int)
    requires Run(trace, outcomes, maxRetries) && UniqueIds(trace[0])
    ensures var last := trace[|outcomes|];
      |outcomes| + Budget(last, maxRetries) <= Budget(trace[0], maxRetries) && SameShape(trace[0], last)
    decreases |outcomes|
  {
    if outcomes != [] {
      RunTail(trace, outcomes, maxRetries);
      DispatchSpendsBudget(trace[0], maxRetries, outcomes[0]);
      ShapeIsKept(trace[0], trace[1]);
      RunSpendsBudget(trace[1..], outcomes[1..], maxRetries);
    }
  }

  lemma {:induction false} RunKeepsRest(trace: seq<seq<Node>>, outcomes: seq<Outcome>, maxRetries: int)
    requires Run(trace, outcomes, maxRetries) && UniqueIds(trace[0]) && NoDangling(trace[0]) && AtRest(trace[0])
    ensures AtRest(trace[|outcomes|])
    decreases |outcomes|
  {
    if outcomes != [] {
      RunTail(trace, outcomes, maxRetries);
      DispatchSpendsBudget(trace[0], maxRetries, outcomes[0]);
      ShapeIsKept(trace[0], trace[1]);
      DispatchKeepsRest(trace[0], maxRetries, outcomes[0]);
      RunKeepsRest(trace[1..], outcomes[1..], maxRetries);
    }
  }

  /** Dispatcher-driven runs on N pending nodes make at most N * max(1, max_retries) dispatches. */
  lemma RunIsBounded(trace: seq<seq<Node>>, outcomes: seq<Outcome>, maxRetries: int)
    requires Run(trace, outcomes, maxRetries) && Fresh(trace[0]) && UniqueIds(trace[0])
    ensures |outcomes| <= |trace[0]| * AtLeastOne(maxRetries)
  {
    RunSpendsBudget(trace, outcomes, maxRetries);
    FreshBudget(trace[0], maxRetries);
  }

  ghost predicate LostNode(n: Node, maxRetries: int) {
    n.status == Failed || (n.status == Rejected && n.retryCount >= maxRetries)
  }

  /**
   * A run that has nothing left to dispatch has completed the graph exactly when no node failed
   * or used up its retries.
   */
  lemma FinishedRunIsComplete(trace: seq<seq<Node>>, outcomes: seq<Outcome>, maxRetries: int)
    requires Run(trace, outcomes, maxRetries) && Fresh(trace[0])
    requires trace[0] != [] && UniqueIds(trace[0]) && NoDangling(trace[0]) && Acyclic(DependencyMap(trace[0]))
    requires Scan(trace[|outcomes|], maxRetries, 1, {}).picked == []
    ensures var last := trace[|outcomes|];
      Complete(last) <==> forall k | 0 <= k < |last| :: !LostNode(last[k], maxRetries)
  {
    var last := trace[|outcomes|];
    RunSpendsBudget(trace, outcomes, maxRetries);
    RunKeepsRest(trace, outcomes, maxRetries);
    ShapeIsKept(trace[0], last);
    if !Complete(last) && forall k | 0 <= k < |last| :: !LostNode(last[k], maxRetries) {
      assert forall k | 0 <= k < |last| :: last[k].status != Blocked;
      Progress(last, maxRetries);
    }
  }

  /**
   * A run that is not complete and has lost no node can be extended, whatever the next outcome: the
   * bound on its length is reached only through failures and rejections.
   */
  lemma RunCanBeExtended(trace: seq<seq<Node>>, outcomes: seq<Outcome>, maxRetries: int, o: Outcome) returns (next: seq<Node>)
    requires Run(trace, outcomes, maxRetries) && Fresh(trace[0])
    requires trace[0] != [] && UniqueIds(trace[0]) && NoDangling(trace[0]) && Acyclic(DependencyMap(trace[0]))
    requires var last := trace[|outcomes|]; !Complete(last) && forall k | 0 <= k < |last| :: !LostNode(last[k], maxRetries)
    ensures Run(trace + [next], outcomes + [o], maxRetries)
  {
    var last := trace[|outcomes|];
    if Scan(last, maxRetries, 1, {}).picked == [] {
      FinishedRunIsComplete(trace, outcomes, maxRetries);
    }
    RunSpendsBudget(trace, outcomes, maxRetries);
    ShapeIsKept(trace[0], last);
    DispatchIsPossible(last, maxRetries, o);
    next := Dispatch(last, maxRetries, o).value;
  }
}
