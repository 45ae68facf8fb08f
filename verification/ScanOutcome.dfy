/**
 * What a scan of the graph does, said over the node list itself: which nodes it blocks and why,
 * which it selects, and what a parallel batch is given.
 */
module ScanOutcome {
  import opened Option
  import opened TaskGraph
  import opened TaskState
  import opened Blocking
  import ParallelBatch

  // ---------------------------------------------------------------- the list read through its ids

  ghost predicate Uses(ns: seq<Node>, i: nat, j: nat) {
    i < |ns| && exists d :: d in ns[i].dependencies && Named(ns, d, j)
  }

  ghost predicate Dangles(ns: seq<Node>, i: nat) {
    i < |ns| && exists d :: d in ns[i].dependencies && !Known(ns, d)
  }

  /** PENDING nodes, each using the next, up to one that is FAILED or BLOCKED, or is PENDING and names nobody. */
  ghost predicate Blame(ns: seq<Node>, p: seq<nat>) {
    && |p| > 0 && (forall k | 0 <= k < |p| :: p[k] < |ns|) && ns[p[0]].status == Pending
    && (forall k | 0 <= k < |p| - 1 :: ns[p[k]].status == Pending && Uses(ns, p[k], p[k + 1]))
    && var last := p[|p| - 1];
       ns[last].status == Failed || ns[last].status == Blocked || (ns[last].status == Pending && Dangles(ns, last))
  }

  ghost predicate Blamed(ns: seq<Node>, i: nat) {
    exists p :: Blame(ns, p) && p[0] == i
  }

  lemma UsesIsDependsOn(ns: seq<Node>, i: nat, j: nat)
    requires i < |ns| && j < |ns|
    ensures Uses(ns, i, j) <==> DependsOn(ns, i, j)
  {
    forall d ensures Named(ns, d, j) <==> LastIndex(ns, d) == Some(j) { NamedIsLast(ns, d); }
  }

  lemma DanglesIsUnknown(ns: seq<Node>, i: nat)
    requires i < |ns|
    ensures Dangles(ns, i) <==> HasUnknownDependency(ns, ns[i])
  {
    forall d ensures Known(ns, d) <==> LastIndex(ns, d).Some? { NamedIsLast(ns, d); }
  }

  lemma BlameIsBlameChain(ns: seq<Node>, p: seq<nat>)
    requires |p| > 0 && forall k | 0 <= k < |p| :: p[k] < |ns|
    ensures Blame(ns, p) <==> BlameChain(ns, p) && ns[p[0]].status == Pending
  {
    forall k | 0 <= k < |p| - 1 ensures Uses(ns, p[k], p[k + 1]) <==> DependsOn(ns, p[k], p[k + 1]) {
      UsesIsDependsOn(ns, p[k], p[k + 1]);
    }
    DanglesIsUnknown(ns, p[|p| - 1]);
  }

  lemma BlamedIsDoomed(ns: seq<Node>, i: nat)
    ensures Blamed(ns, i) <==> Doomed(ns, i)
  {
    if Blamed(ns, i) {
      var p :| Blame(ns, p) && p[0] == i;
      BlameIsBlameChain(ns, p);
    }
    if Doomed(ns, i) {
      var p :| BlameChain(ns, p) && p[0] == i;
      BlameIsBlameChain(ns, p);
    }
  }

  // ---------------------------------------------------------------- what a scan blocks

  /**
   * A scan blocks a node only where a chain of PENDING nodes leads from it to a FAILED or BLOCKED
   * node or to an id nobody has; it does nothing else to any node.
   */
  lemma ScanBlocksOnlyBlamed(ns: seq<Node>, maxRetries: int, limit: int, exclude: set<string>)
    ensures var r := Scan(ns, maxRetries, limit, exclude).nodes;
      |r| == |ns| && forall k | 0 <= k < |ns| ::
        r[k] == ns[k] || (r[k] == ns[k].(status := Blocked) && Blamed(ns, k) && ns[k].id !in exclude)
  {
    ScanBlocksOnlyDoomed(ns, maxRetries, limit, exclude);
    forall k: nat | k < |ns| ensures Blamed(ns, k) <==> Doomed(ns, k) { BlamedIsDoomed(ns, k); }
  }

  /**
   * Where nobody is FAILED or BLOCKED and every dependency is known, a scan changes nothing, whoever is
   * SKIPPED, PASSED, REJECTED or RUNNING.
   */
  lemma ScanWithoutFailuresChangesNothing(ns: seq<Node>, maxRetries: int, limit: int, exclude: set<string>)
    requires forall k | 0 <= k < |ns| :: ns[k].status != Failed && ns[k].status != Blocked
    requires forall k, d | 0 <= k < |ns| && d in ns[k].dependencies :: Known(ns, d)
    ensures Scan(ns, maxRetries, limit, exclude).nodes == ns
  {
    ScanBlocksOnlyBlamed(ns, maxRetries, limit, exclude);
    assert forall i: nat :: !Dangles(ns, i);
    assert forall p :: !Blame(ns, p);
  }

  ghost function AtLeastOneOf(limit: int): int {
    if limit >= 1 then limit else 1
  }

  /** In a list where dependencies stand first, a scan that its limit does not cut short blocks exactly those nodes. */
  lemma ScanBlocksExactlyBlamed(ns: seq<Node>, maxRetries: int, limit: int)
    requires forall i: nat, j: nat | Uses(ns, i, j) :: j < i
    requires |Scan(ns, maxRetries, limit, {}).picked| < AtLeastOneOf(limit)
    ensures var r := Scan(ns, maxRetries, limit, {}).nodes;
      |r| == |ns| && forall k | 0 <= k < |ns| :: r[k] == if Blamed(ns, k) then ns[k].(status := Blocked) else ns[k]
  {
    forall i: nat, j: nat | i < |ns| && j < |ns| && DependsOn(ns, i, j) ensures j < i { UsesIsDependsOn(ns, i, j); }
    ScanPicksFirstRunnable(ns, maxRetries, limit, {});
    ScanBlocksExactlyDoomed(ns, maxRetries, limit);
    forall k: nat | k < |ns| ensures Blamed(ns, k) <==> Doomed(ns, k) { BlamedIsDoomed(ns, k); }
  }

  // ---------------------------------------------------------------- what a scan selects

  /** PENDING, or REJECTED with a retry left, and every dependency PASSED. */
  ghost predicate MayStart(ns: seq<Node>, i: nat, maxRetries: int) {
    && i < |ns|
    && (ns[i].status == Pending || (ns[i].status == Rejected && ns[i].retryCount < maxRetries))
    && forall d | d in ns[i].dependencies :: exists j: nat :: Named(ns, d, j) && ns[j].status == Passed
  }

  lemma MayStartIsRunnable(ns: seq<Node>, i: nat, maxRetries: int, exclude: set<string>)
    requires i < |ns|
    ensures Runnable(ns, i, maxRetries, exclude) <==> ns[i].id !in exclude && MayStart(ns, i, maxRetries)
  {
    forall d | d in ns[i].dependencies ensures
      (exists j: nat :: Named(ns, d, j) && ns[j].status == Passed) <==> (LastIndex(ns, d).Some? && ns[LastIndex(ns, d).value].status == Passed) {
      NamedIsLast(ns, d);
    }
  }

  /**
   * `picked` are the first `limit` nodes of the list that may start and are not excluded, or all of them
   * where there are fewer.
   */
  ghost predicate FirstThatMayStart(ns: seq<Node>, picked: seq<nat>, maxRetries: int, limit: int, exclude: set<string>) {
    && |picked| <= limit
    && (forall a, b | 0 <= a < b < |picked| :: picked[a] < picked[b])
    && (forall k: nat | k in picked :: MayStart(ns, k, maxRetries) && ns[k].id !in exclude)
    && (forall k: nat | MayStart(ns, k, maxRetries) && ns[k].id !in exclude ::
          k in picked || (|picked| == limit && forall j | j in picked :: j < k))
  }

  lemma ScanSelectsExactly(ns: seq<Node>, maxRetries: int, limit: int, exclude: set<string>)
    ensures FirstThatMayStart(ns, Scan(ns, maxRetries, limit, exclude).picked, maxRetries, AtLeastOneOf(limit), exclude)
  {
    ScanPicksFirstRunnable(ns, maxRetries, limit, exclude);
    var all := RunnableFrom(ns, 0, maxRetries, exclude);
    forall k: nat ensures k in all <==> MayStart(ns, k, maxRetries) && ns[k].id !in exclude {
      if k < |ns| { MayStartIsRunnable(ns, k, maxRetries, exclude); }
    }
    TruncatedIsFirst(ns, all, maxRetries, AtLeastOneOf(limit), exclude);
  }

  lemma TruncatedIsFirst(ns: seq<Node>, all: seq<nat>, maxRetries: int, limit: int, exclude: set<string>)
    requires limit >= 1 && forall a, b | 0 <= a < b < |all| :: all[a] < all[b]
    requires forall k: nat :: k in all <==> MayStart(ns, k, maxRetries) && k < |ns| && ns[k].id !in exclude
    ensures FirstThatMayStart(ns, Truncate(all, limit), maxRetries, limit, exclude)
  {
    var picked := Truncate(all, limit);
    forall k: nat | k in all && k !in picked ensures |picked| == limit && forall j | j in picked :: j < k {
      var m :| 0 <= m < |all| && all[m] == k;
      assert limit < |all| && limit <= m;
    }
  }

  // ---------------------------------------------------------------- what a batch is given

  /**
   * Discovery leaves a full house or a task without a graph alone; otherwise it hands over the first
   * nodes that may start and are not running, as many as max_parallel_nodes (one at least) still
   * admits, and blocks nothing that is running or blameless.
   */
  lemma DiscoveryIsExact(cfg: Config, maxParallel: int, s: ParallelBatch.Shared)
    requires s.task.graph.Some?
    ensures var r, ns, room := ParallelBatch.Discovered(cfg, maxParallel, s), s.task.graph.value, AtLeastOneOf(maxParallel) - |s.running|;
      && |r.nodes| == |ns|
      && (if room <= 0 then r.picked == [] && r.nodes == ns
          else FirstThatMayStart(ns, r.picked, cfg.maxRetries, room, s.running.Keys))
      && forall k | 0 <= k < |ns| ::
           r.nodes[k] == ns[k] || (r.nodes[k] == ns[k].(status := Blocked) && Blamed(ns, k) && ns[k].id !in s.running)
  {
    var ns, room := s.task.graph.value, AtLeastOneOf(maxParallel) - |s.running|;
    if room > 0 {
      ScanSelectsExactly(ns, cfg.maxRetries, room, s.running.Keys);
      ScanBlocksOnlyBlamed(ns, cfg.maxRetries, room, s.running.Keys);
    }
  }
}
