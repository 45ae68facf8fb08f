/** Every run of scans, starts, restarts, passes, rejections, failures and accepted patches. */
module GraphRuns {
  import opened Option
  import opened Reachability
  import opened TaskGraph
  import opened Blocking
  import opened GraphPatch
  import opened PatchSafety

  datatype GraphStep =
    | ScanStep(maxRetries: int, limit: int, exclude: set<string>)
    | StartStep(id: string, maxRetries: int, limit: int, exclude: set<string>)
    | RestartStep(id: string)                  // a retry of the same attempt's node, without a new scan
    | PassStep(id: string, iteration: nat)
    | RejectStep(id: string)
    | FailStep(id: string)
    | PatchStep(ops: seq<PatchOp>)

  /** Dispatched at least once, and not passed. */
  predicate InFlight(ns: seq<Node>, id: string) {
    var k := FirstIndex(ns, id);
    k.Some? && (ns[k.value].status == Running || ns[k.value].status == Rejected || ns[k.value].status == Failed)
  }

  ghost predicate Enabled(ns: seq<Node>, s: GraphStep) {
    match s
    case ScanStep(_, _, _) => true
    case StartStep(id, maxRetries, limit, exclude) =>
      var scan := Scan(ns, maxRetries, limit, exclude);
      exists k :: k in scan.picked && k < |scan.nodes| && scan.nodes[k].id == id
    case PatchStep(ops) => Accepted(ns, ops) && ApplyOps(ns, ops).Done? && UniqueIds(Added(ops))
    case _ => InFlight(ns, s.id)
  }

  function After(ns: seq<Node>, s: GraphStep): seq<Node> {
    match s
    case ScanStep(maxRetries, limit, exclude) => Scan(ns, maxRetries, limit, exclude).nodes
    case StartStep(id, maxRetries, limit, exclude) => Or(MarkRunning(Scan(ns, maxRetries, limit, exclude).nodes, id), ns)
    case RestartStep(id) => Or(MarkRunning(ns, id), ns)
    case PassStep(id, iteration) => Or(MarkPassed(ns, id, iteration), ns)
    case RejectStep(id) => Or(MarkRejected(ns, id), ns)
    case FailStep(id) => Or(MarkFailed(ns, id), ns)
    case PatchStep(ops) => ApplyOps(ns, ops).nodes
  }

  function Or(r: Option<seq<Node>>, otherwise: seq<Node>): seq<Node> {
    match r case Some(ns) => ns case None => otherwise
  }

  // ---------------------------------------------------------------- the invariant

  predicate Started(n: Node) {
    n.status == Running || n.status == Passed || n.status == Rejected || n.status == Failed
  }

  /** Ids are unique, and a node that ever started has only known, PASSED dependencies. */
  ghost predicate Sound(ns: seq<Node>) {
    UniqueIds(ns) && forall k | 0 <= k < |ns| && Started(ns[k]) :: DependenciesPassed(ns, ns[k])
  }

  /** The node of this id, if there is one, has only known, PASSED dependencies. */
  ghost predicate Grounded(ns: seq<Node>, id: string) {
    var k := FirstIndex(ns, id);
    k.Some? ==> DependenciesPassed(ns, ns[k.value])
  }

  /**
   * What carries the invariant from `a` to `b`: nodes stay in place, passed ones stay passed, no
   * dependency is added, and what has started in `b` had only passed dependencies in `a`.
   */
  ghost predicate Carries(a: seq<Node>, b: seq<Node>) {
    && |a| <= |b| && UniqueIds(b)
    && (forall k | 0 <= k < |a| :: b[k].id == a[k].id && (a[k].status == Passed ==> b[k].status == Passed)
          && forall d | d in b[k].dependencies :: d in a[k].dependencies)
    && (forall k | 0 <= k < |b| && Started(b[k]) :: k < |a| && DependenciesPassed(a, a[k]))
  }

  /** Passed dependencies stay passed. */
  lemma CarriedDependencies(a: seq<Node>, b: seq<Node>, k: nat)
    requires Carries(a, b) && k < |a| && DependenciesPassed(a, a[k])
    ensures DependenciesPassed(b, b[k])
  {
    forall d | d in b[k].dependencies ensures LastIndex(b, d).Some? && b[LastIndex(b, d).value].status == Passed {
      assert d in a[k].dependencies;
      var j := LastIndex(a, d).value;
      assert b[j].id == d;
      assert LastIndex(b, d) == Some(j);
    }
  }

  lemma CarriedIsGrounded(a: seq<Node>, b: seq<Node>, id: string)
    requires UniqueIds(a) && Carries(a, b) && Grounded(a, id) && (id in Ids(a) || id !in Ids(b))
    ensures Grounded(b, id)
  {
    KnownId(a, id);
    KnownId(b, id);
    if id in Ids(a) {
      var k := FirstIndex(a, id).value;
      assert b[k].id == id;
      assert FirstIndex(b, id) == Some(k);
      CarriedDependencies(a, b, k);
    }
  }

  lemma CarriedIsSound(a: seq<Node>, b: seq<Node>)
    requires Carries(a, b)
    ensures Sound(b)
  {
    forall k | 0 <= k < |b| && Started(b[k]) ensures DependenciesPassed(b, b[k]) {
      CarriedDependencies(a, b, k);
    }
  }

  lemma ScanCarries(ns: seq<Node>, maxRetries: int, limit: int, exclude: set<string>)
    requires Sound(ns)
    ensures Carries(ns, Scan(ns, maxRetries, limit, exclude).nodes)
  {
    var r := Scan(ns, maxRetries, limit, exclude).nodes;
    ScanBlocksOnlyDoomed(ns, maxRetries, limit, exclude);
    SameIds(ns, r);
    forall k | 0 <= k < |r| && Started(r[k]) ensures DependenciesPassed(ns, ns[k]) {
      assert r[k] == ns[k];
    }
  }

  /** Replacing one node whose dependencies have passed by another version of it. */
  lemma EditCarries(ns: seq<Node>, i: nat, n: Node)
    requires Sound(ns) && i < |ns| && n.id == ns[i].id && n.dependencies == ns[i].dependencies
    requires (ns[i].status == Passed ==> n.status == Passed) && DependenciesPassed(ns, ns[i])
    ensures Carries(ns, ns[i := n])
  {
    SameIds(ns, ns[i := n]);
  }

  lemma PatchCarries(ns: seq<Node>, ops: seq<PatchOp>)
    requires Sound(ns) && Accepted(ns, ops) && ApplyOps(ns, ops).Done? && UniqueIds(Added(ops))
    ensures Carries(ns, ApplyOps(ns, ops).nodes)
  {
    AcceptedPatchKeepsGraph(ns, ops);
    PatchKeepsUniqueIds(ns, ops);
    var r := ApplyOps(ns, ops).nodes;
    forall k | 0 <= k < |ns| ensures NodeKept(ns[k], r[k]) {}
  }

  /** The node a start runs: in the scanned graph its dependencies are PASSED. */
  lemma StartedNode(ns: seq<Node>, s: GraphStep) returns (k: nat)
    requires Sound(ns) && s.StartStep? && Enabled(ns, s)
    ensures var r := Scan(ns, s.maxRetries, s.limit, s.exclude).nodes;
      k < |r| && r[k].status != Passed && DependenciesPassed(r, r[k]) && FirstIndex(r, s.id) == Some(k)
  {
    var scan := Scan(ns, s.maxRetries, s.limit, s.exclude);
    k :| k in scan.picked && k < |scan.nodes| && scan.nodes[k].id == s.id;
    PickedIsRunnable(ns, s.maxRetries, s.limit, s.exclude, k);
    ScanBlocksOnlyDoomed(ns, s.maxRetries, s.limit, s.exclude);
    ScanKeepsPassed(ns, scan.nodes, ns[k]);
  }

  lemma ScanKeepsPassed(ns: seq<Node>, r: seq<Node>, n: Node)
    requires |r| == |ns| && forall k | 0 <= k < |ns| :: r[k] == ns[k] || (ns[k].status != Passed && r[k] == ns[k].(status := Blocked))
    ensures DependenciesPassed(r, n) == DependenciesPassed(ns, n)
    ensures UniqueIds(ns) ==> UniqueIds(r)
  {
    SameIds(ns, r);
    forall d ensures LastIndex(r, d) == LastIndex(ns, d) { SameLastIndex(r, ns, d); }
  }

  lemma StepKeepsSound(ns: seq<Node>, s: GraphStep)
    requires Sound(ns) && Enabled(ns, s)
    ensures Sound(After(ns, s))
  {
    match s {
      case ScanStep(maxRetries, limit, exclude) =>
        ScanCarries(ns, maxRetries, limit, exclude);
        CarriedIsSound(ns, After(ns, s));
      case StartStep(id, maxRetries, limit, exclude) =>
        var r := Scan(ns, maxRetries, limit, exclude).nodes;
        ScanCarries(ns, maxRetries, limit, exclude);
        CarriedIsSound(ns, r);
        var k := StartedNode(ns, s);
        EditCarries(r, k, r[k].(status := Running));
        CarriedIsSound(r, After(ns, s));
      case PatchStep(ops) =>
        PatchCarries(ns, ops);
        CarriedIsSound(ns, After(ns, s));
      case _ =>
        var k := FirstIndex(ns, s.id).value;
        EditCarries(ns, k, After(ns, s)[k]);
        assert After(ns, s) == ns[k := After(ns, s)[k]];
        CarriedIsSound(ns, After(ns, s));
    }
  }

  ghost predicate Run(trace: seq<seq<Node>>, steps: seq<GraphStep>) {
    |trace| == |steps| + 1 &&
    forall k | 0 <= k < |steps| :: Enabled(trace[k], steps[k]) && trace[k + 1] == After(trace[k], steps[k])
  }

  /**
   * In every run that begins with nothing started, each node that is passed or in flight has only
   * known, PASSED dependencies.
   */
  lemma {:induction false} RunsAreSound(trace: seq<seq<Node>>, steps: seq<GraphStep>, n: nat)
    requires Run(trace, steps) && n <= |steps|
    requires UniqueIds(trace[0]) && forall k | 0 <= k < |trace[0]| :: !Started(trace[0][k])
    ensures Sound(trace[n])
  {
    if n > 0 {
      RunsAreSound(trace, steps, n - 1);
      StepKeepsSound(trace[n - 1], steps[n - 1]);
      assert trace[n - 1 + 1] == After(trace[n - 1], steps[n - 1]);
    }
  }

  // ---------------------------------------------------------------- independence of what a scan selects

  function PassedIds(ns: seq<Node>): set<string> {
    set k | 0 <= k < |ns| && ns[k].status == Passed :: ns[k].id
  }

  lemma PassedIsClosed(ns: seq<Node>)
    requires Sound(ns)
    ensures Closed(DependencyMap(ns), PassedIds(ns))
  {
    forall n | n in PassedIds(ns) ensures Next(DependencyMap(ns), n) <= PassedIds(ns) {
      var k :| 0 <= k < |ns| && ns[k].status == Passed && ns[k].id == n;
      assert LastIndex(ns, n) == Some(k);
      NextInMap(ns, n);
      assert DependenciesPassed(ns, ns[k]);
    }
  }

  /** No node a scan selects reaches another selected node along any chain of dependencies. */
  lemma SelectionIsIndependent(ns: seq<Node>, maxRetries: int, limit: int, exclude: set<string>, i: nat, j: nat)
    requires Sound(ns)
    requires i in Scan(ns, maxRetries, limit, exclude).picked && j in Scan(ns, maxRetries, limit, exclude).picked && i != j
    ensures i < |ns| && j < |ns| && !Reaches(DependencyMap(ns), ns[i].id, ns[j].id)
  {
    PickedIsRunnable(ns, maxRetries, limit, exclude, i);
    PickedIsRunnable(ns, maxRetries, limit, exclude, j);
    assert ns[j].id !in PassedIds(ns);
    RunnableReachesPassed(ns, i, maxRetries, exclude, ns[j].id);
  }

  /** Whatever lies below a runnable node has passed. */
  lemma RunnableReachesPassed(ns: seq<Node>, i: nat, maxRetries: int, exclude: set<string>, b: string)
    requires Sound(ns) && i < |ns| && Runnable(ns, i, maxRetries, exclude) && b != ns[i].id
    ensures Reaches(DependencyMap(ns), ns[i].id, b) ==> b in PassedIds(ns)
  {
    var deps, a := DependencyMap(ns), ns[i].id;
    if Reaches(deps, a, b) {
      ReachesUnfold(deps, a, b);
      var d :| d in Next(deps, a) && Reaches(deps, d, b);
      assert LastIndex(ns, a) == Some(i);
      NextInMap(ns, a);
      PassedIsClosed(ns);
      assert ns[LastIndex(ns, d).value].id == d;
      ClosedKeepsChains(deps, PassedIds(ns), d, b);
    }
  }
}
