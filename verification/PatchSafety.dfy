/** What an accepted patch preserves. */
module PatchSafety {
  import opened Option
  import opened Reachability
  import opened TaskGraph
  import opened GraphPatch

  // ---------------------------------------------------------------- validation

  lemma ForallTail<T>(s: seq<T>, p: T ~> bool)
    requires s != [] && forall x :: p.requires(x) && p.reads(x) == {}
    ensures (forall k | 0 <= k < |s| :: p(s[k])) <==> p(s[0]) && forall k | 0 <= k < |s[1..]| :: p(s[1..][k])
  {
    if forall k | 0 <= k < |s| :: p(s[k]) {
      forall k | 0 <= k < |s[1..]| ensures p(s[1..][k]) { assert p(s[k + 1]); }
    }
    if p(s[0]) && forall k | 0 <= k < |s[1..]| :: p(s[1..][k]) {
      forall k | 0 <= k < |s| ensures p(s[k]) { if k > 0 { assert p(s[1..][k - 1]); } }
    }
  }

  ghost predicate Valid(ns: seq<Node>, op: PatchOp) {
    OpErrors(ns, op) == []
  }

  lemma {:induction false} AcceptedOps(ns: seq<Node>, ops: seq<PatchOp>)
    ensures Accepted(ns, ops) <==> forall k | 0 <= k < |ops| :: Valid(ns, ops[k])
  {
    if ops != [] {
      AcceptedOps(ns, ops[1..]);
      ForallTail(ops, op => Valid(ns, op));
    }
  }

  /**
   * Because the cycle test is always true, an accepted patch has no `add_dependency` that could
   * add one: the only form that passes names the empty id, which a graph would have to contain.
   */
  lemma AcceptedAddsNoDependency(ns: seq<Node>, ops: seq<PatchOp>, k: nat)
    requires Accepted(ns, ops) && k < |ops| && ops[k].AddDependency?
    ensures ops[k].dependency == "" && "" in Ids(ns)
  {
    AcceptedOps(ns, ops);
    assert Valid(ns, ops[k]);
    CycleTestAlwaysTrue(DependencyMap(ns), ops[k].dependency, ops[k].nodeId);
  }

  // ---------------------------------------------------------------- application

  /** A node of the starting graph, `n0`, and what operations accepted for that graph made of it. */
  ghost predicate NodeKept(n0: Node, n: Node) {
    && n.id == n0.id && n.retryCount == n0.retryCount && n.attemptIterations == n0.attemptIterations
    && (forall d | d in n.dependencies :: d in n0.dependencies)
    && (n.status == n0.status || n.status == Skipped || n.status == Pending)
    && (n0.status == Passed ==>
          n.status == Passed && n.dependencies == n0.dependencies && n.acceptanceCriteria == n0.acceptanceCriteria)
  }

  ghost predicate GraphKept(ns0: seq<Node>, ns: seq<Node>) {
    && |ns0| <= |ns|
    && (forall k | 0 <= k < |ns0| :: NodeKept(ns0[k], ns[k]))
    && (forall k | |ns0| <= k < |ns| :: ns[k].id !in Ids(ns0) && ns[k].id != "" && ns[k].status == Pending)
  }

  /** Every key the operation carries converts to the type its field has. */
  predicate Converts(op: PatchOp) {
    match op
    case AddNode(_, _, _, _, _, _, fieldsParse) => fieldsParse
    case UpdateNode(_, u) =>
      u.kindKnown && u.acceptanceCriteria != Some(None) && u.filesScopeConverts && u.reviewersConvert
      && u.maxChangedFiles != Some(None) && u.reviewBytesConvert
    case _ => true
  }

  /** Lookups by `get_node` and through `_node_index` find the same node of the starting graph. */
  lemma LookupAgrees(ns0: seq<Node>, ns: seq<Node>, id: string)
    requires UniqueIds(ns0) && GraphKept(ns0, ns) && LastIndex(ns0, id).Some?
    ensures FirstIndex(ns, id) == LastIndex(ns0, id)
  {
    var k := LastIndex(ns0, id).value;
    assert ns[k].id == id;
  }

  lemma WithoutKeeps(n0: Node, n: Node, op: PatchOp)
    requires NodeKept(n0, n) && n0.status != Passed
    requires op.RemoveDependency? || op.SkipNode? || op.UnblockNode? || (op.AddDependency? && op.dependency == "")
    ensures NodeKept(n0, ApplyTo(n, op))
  {
  }

  lemma AddKeepsGraph(ns0: seq<Node>, ns: seq<Node>, op: PatchOp)
    requires GraphKept(ns0, ns) && Valid(ns0, op) && op.AddNode?
    ensures !ApplyOp(ns, op).LookupFailed? && GraphKept(ns0, ApplyOp(ns, op).nodes)
    ensures ApplyOp(ns, op).Done? <==> op.fieldsParse
    ensures ApplyOp(ns, op).Done? ==> ApplyOp(ns, op).nodes[|ns0|..] == ns[|ns0|..] + [FromAdd(op)]
  {
  }

  lemma UpdateKeepsGraph(ns0: seq<Node>, ns: seq<Node>, op: PatchOp)
    requires UniqueIds(ns0) && GraphKept(ns0, ns) && Valid(ns0, op) && op.UpdateNode?
    ensures !ApplyOp(ns, op).LookupFailed? && GraphKept(ns0, ApplyOp(ns, op).nodes)
    ensures ApplyOp(ns, op).Done? <==> Converts(op)
    ensures ApplyOp(ns, op).nodes[|ns0|..] == ns[|ns0|..]
  {
    LookupAgrees(ns0, ns, op.nodeId);
    var k := LastIndex(ns0, op.nodeId).value;
    assert NodeKept(ns0[k], ns[k]);
  }

  lemma OpKeepsGraph(ns0: seq<Node>, ns: seq<Node>, op: PatchOp)
    requires UniqueIds(ns0) && GraphKept(ns0, ns) && Valid(ns0, op)
    ensures !ApplyOp(ns, op).LookupFailed? && GraphKept(ns0, ApplyOp(ns, op).nodes)
    ensures ApplyOp(ns, op).Done? <==> Converts(op)
    ensures ApplyOp(ns, op).Done? ==>
      ApplyOp(ns, op).nodes[|ns0|..] == ns[|ns0|..] + (if op.AddNode? then [FromAdd(op)] else [])
  {
    match op {
      case UnknownOp(_) =>
      case AddNode(_, _, _, _, _, _, _) => AddKeepsGraph(ns0, ns, op);
      case UpdateNode(_, _) => UpdateKeepsGraph(ns0, ns, op);
      case AddDependency(id, dep) =>
        CycleTestAlwaysTrue(DependencyMap(ns0), dep, id);
        EditKeepsGraph(ns0, ns, op);
      case _ =>
        EditKeepsGraph(ns0, ns, op);
    }
  }

  lemma EditKeepsGraph(ns0: seq<Node>, ns: seq<Node>, op: PatchOp)
    requires UniqueIds(ns0) && GraphKept(ns0, ns) && Valid(ns0, op)
    requires op.RemoveDependency? || op.SkipNode? || op.UnblockNode? || (op.AddDependency? && op.dependency == "")
    ensures ApplyOp(ns, op).Done? && GraphKept(ns0, ApplyOp(ns, op).nodes)
    ensures ApplyOp(ns, op).nodes[|ns0|..] == ns[|ns0|..]
  {
    LookupAgrees(ns0, ns, op.nodeId);
    var k := LastIndex(ns0, op.nodeId).value;
    WithoutKeeps(ns0[k], ns[k], op);
  }

  /** The nodes a patch appends, in the order of its operations. */
  function Added(ops: seq<PatchOp>): seq<Node> {
    if ops == [] then []
    else (if ops[0].AddNode? then [FromAdd(ops[0])] else []) + Added(ops[1..])
  }

  lemma {:induction false} OpsKeepGraph(ns0: seq<Node>, ns: seq<Node>, ops: seq<PatchOp>)
    requires UniqueIds(ns0) && GraphKept(ns0, ns) && forall k | 0 <= k < |ops| :: Valid(ns0, ops[k])
    ensures !ApplyOps(ns, ops).LookupFailed? && GraphKept(ns0, ApplyOps(ns, ops).nodes)
    ensures ApplyOps(ns, ops).Done? <==> forall k | 0 <= k < |ops| :: Converts(ops[k])
    ensures ApplyOps(ns, ops).Done? ==> ApplyOps(ns, ops).nodes[|ns0|..] == ns[|ns0|..] + Added(ops)
    decreases |ops|
  {
    if ops != [] {
      OpKeepsGraph(ns0, ns, ops[0]);
      ForallTail(ops, op => Valid(ns0, op));
      ForallTail(ops, op => Converts(op));
      if Converts(ops[0]) {
        OpsKeepGraph(ns0, ApplyOp(ns, ops[0]).nodes, ops[1..]);
      }
    }
  }

  /**
   * An accepted patch on a graph with unique ids never fails a lookup, whatever the number and
   * order of its operations.  The old nodes stay a prefix of the list with their ids, retry
   * counts and iterations; their statuses change only to SKIPPED or PENDING; PASSED nodes keep
   * status, dependencies and acceptance criteria; the new nodes follow in operation order.
   */
  lemma AcceptedPatchKeepsGraph(ns: seq<Node>, ops: seq<PatchOp>)
    requires UniqueIds(ns) && Accepted(ns, ops)
    ensures !ApplyOps(ns, ops).LookupFailed? && GraphKept(ns, ApplyOps(ns, ops).nodes)
    ensures ApplyOps(ns, ops).Done? ==> ApplyOps(ns, ops).nodes[|ns|..] == Added(ops)
  {
    AcceptedOps(ns, ops);
    OpsKeepGraph(ns, ns, ops);
    assert ns[|ns|..] == [];
  }

  /** Validation looks at no value: an accepted patch goes through exactly when all its values convert. */
  lemma AcceptedPatchCompletesExactlyWhen(ns: seq<Node>, ops: seq<PatchOp>)
    requires UniqueIds(ns) && Accepted(ns, ops)
    ensures ApplyOps(ns, ops).Done? <==> forall k | 0 <= k < |ops| :: Converts(ops[k])
  {
    AcceptedOps(ns, ops);
    OpsKeepGraph(ns, ns, ops);
  }

  /** ... and one that stops has already changed the graph: here node `a` is skipped by then. */
  lemma AcceptedPatchCanStopHalfway()
    ensures var a := Node("a", [], [], Pending, [], 0, 0, false, None);
      var ops := [SkipNode("a"), AddNode("b", [], [], 0, false, None, false)];
      Accepted([a], ops) && ApplyOps([a], ops) == Crashed([a.(status := Skipped)])
  {
    var a := Node("a", [], [], Pending, [], 0, 0, false, None);
    var skip, add := SkipNode("a"), AddNode("b", [], [], 0, false, None, false);
    assert LastIndex([a], "a") == Some(0) && FirstIndex([a], "a") == Some(0);
    assert "b" !in Ids([a]) by { KnownId([a], "b"); assert [a][0].id == "a"; }
    assert Valid([a], skip) && Valid([a], add);
    assert [skip, add][1..] == [add] && [add][1..] == [];
    AcceptedOps([a], [skip, add]);
  }

  /** With two nodes of one id, validation reads the last and application writes the first: PASSED work is lost. */
  lemma DuplicateIdsLosePassedWork()
    ensures var done := Node("a", [], [], Passed, [1], 0, 0, false, None);
      var again := Node("a", [], [], Pending, [], 0, 0, false, None);
      Accepted([done, again], [SkipNode("a")]) &&
      ApplyOps([done, again], [SkipNode("a")]) == Done([done.(status := Skipped), again])
  {
    var done := Node("a", [], [], Passed, [1], 0, 0, false, None);
    var again := Node("a", [], [], Pending, [], 0, 0, false, None);
    var ns := [done, again];
    assert ns[1].id == "a" && ns[0].id == "a";
    assert LastIndex(ns, "a") == Some(1) && FirstIndex(ns, "a") == Some(0);
    assert [SkipNode("a")][1..] == [];
  }

  // ---------------------------------------------------------------- what a patch undoes, on any list

  /** The operation writes a status to the first node of its id, and that node had passed. */
  predicate Undoes(ns: seq<Node>, op: PatchOp) {
    (op.SkipNode? || op.UnblockNode?) &&
    FirstIndex(ns, op.nodeId).Some? && ns[FirstIndex(ns, op.nodeId).value].status == Passed
  }

  ghost predicate KeepsPassed(ns0: seq<Node>, ns: seq<Node>)
    requires |ns0| <= |ns|
  {
    forall k | 0 <= k < |ns0| && ns0[k].status == Passed :: ns[k].status == Passed
  }

  /** The nodes of `ns0` are still in their places, and none of them has newly passed. */
  ghost predicate InPlace(ns0: seq<Node>, ns: seq<Node>) {
    |ns0| <= |ns| && forall k | 0 <= k < |ns0| :: ns[k].id == ns0[k].id && (ns[k].status == Passed ==> ns0[k].status == Passed)
  }

  lemma SameFirst(ns0: seq<Node>, ns: seq<Node>, id: string)
    requires InPlace(ns0, ns)
    ensures FirstIndex(ns0, id).Some? ==> FirstIndex(ns, id) == FirstIndex(ns0, id)
    ensures FirstIndex(ns0, id).None? && FirstIndex(ns, id).Some? ==> FirstIndex(ns, id).value >= |ns0|
  {
    if FirstIndex(ns0, id).Some? {
      var k := FirstIndex(ns0, id).value;
      assert ns[k].id == id;
    }
  }

  lemma OpKeepsPassedExactly(ns0: seq<Node>, ns: seq<Node>, op: PatchOp)
    requires InPlace(ns0, ns) && ApplyOp(ns, op).Done?
    ensures var r := ApplyOp(ns, op).nodes;
      InPlace(ns0, r) && (KeepsPassed(ns0, r) <==> KeepsPassed(ns0, ns) && !Undoes(ns0, op))
  {
    var r := ApplyOp(ns, op).nodes;
    if op.UpdateNode? || op.AddDependency? || op.RemoveDependency? || op.SkipNode? || op.UnblockNode? {
      SameFirst(ns0, ns, op.nodeId);
      var k := FirstIndex(ns, op.nodeId).value;
      if KeepsPassed(ns0, r) {
        forall j | 0 <= j < |ns0| && ns0[j].status == Passed ensures ns[j].status == Passed {
          assert r[j].status == Passed;
        }
      }
    }
  }

  /**
   * On any list, with repeated ids or not, a patch that goes through keeps every PASSED status
   * exactly when none of its skips and unblocks names an id whose first node has passed.
   */
  lemma {:induction false} PatchKeepsPassedExactlyWhen(ns0: seq<Node>, ns: seq<Node>, ops: seq<PatchOp>)
    requires InPlace(ns0, ns) && ApplyOps(ns, ops).Done?
    ensures var r := ApplyOps(ns, ops).nodes;
      InPlace(ns0, r) && (KeepsPassed(ns0, r) <==> KeepsPassed(ns0, ns) && forall k | 0 <= k < |ops| :: !Undoes(ns0, ops[k]))
    decreases |ops|
  {
    if ops != [] {
      OpKeepsPassedExactly(ns0, ns, ops[0]);
      ForallTail(ops, op => !Undoes(ns0, op));
      PatchKeepsPassedExactlyWhen(ns0, ApplyOp(ns, ops[0]).nodes, ops[1..]);
    }
  }

  /** Of the graph a patch starts from: what validation would have had to check. */
  lemma PatchUndoesNothingExactlyWhen(ns: seq<Node>, ops: seq<PatchOp>)
    requires ApplyOps(ns, ops).Done?
    ensures |ns| <= |ApplyOps(ns, ops).nodes|
    ensures KeepsPassed(ns, ApplyOps(ns, ops).nodes) <==> forall k | 0 <= k < |ops| :: !Undoes(ns, ops[k])
  {
    PatchKeepsPassedExactlyWhen(ns, ns, ops);
  }

  /** Ids stay unique exactly when the ids the patch adds differ from one another. */
  lemma PatchKeepsUniqueIds(ns: seq<Node>, ops: seq<PatchOp>)
    requires UniqueIds(ns) && Accepted(ns, ops) && ApplyOps(ns, ops).Done?
    ensures UniqueIds(ApplyOps(ns, ops).nodes) <==> UniqueIds(Added(ops))
  {
    AcceptedPatchKeepsGraph(ns, ops);
    var r, added := ApplyOps(ns, ops).nodes, Added(ops);
    assert forall k | 0 <= k < |added| :: added[k] == r[|ns| + k];
    if UniqueIds(added) {
      forall i, j | 0 <= i < j < |r| ensures r[i].id != r[j].id {
        if i >= |ns| {
          assert added[i - |ns|].id != added[j - |ns|].id;
        } else if j < |ns| {
          assert NodeKept(ns[i], r[i]) && NodeKept(ns[j], r[j]);
        } else {
          assert NodeKept(ns[i], r[i]) && ns[i].id in Ids(ns);
        }
      }
    }
    if UniqueIds(r) {
      forall i, j | 0 <= i < j < |added| ensures added[i].id != added[j].id {
        assert r[|ns| + i].id != r[|ns| + j].id;
      }
    }
  }

  // ---------------------------------------------------------------- acyclicity

  lemma {:induction false} ChainInside(large: Deps, small: Deps, s: set<string>, p: seq<string>)
    requires Closed(large, s) && IsChain(large, p) && p[0] in s
    requires forall n | n in s :: Next(large, n) <= Next(small, n)
    ensures Reaches(small, p[0], p[|p| - 1]) && p[|p| - 1] in s
  {
    var k := 0;
    while k < |p| - 1
      invariant 0 <= k < |p|
      invariant forall i | 0 <= i <= k :: p[i] in s
    {
      assert p[k + 1] in Next(large, p[k]);
      k := k + 1;
    }
    assert IsChain(small, p);
  }

  /** A chain that ends outside a closed set never was inside. */
  lemma ChainOutside(large: Deps, small: Deps, s: set<string>, p: seq<string>)
    requires Closed(large, s) && IsChain(large, p) && p[|p| - 1] !in s
    requires forall n | n !in s :: Next(large, n) <= Next(small, n)
    ensures Reaches(small, p[0], p[|p| - 1])
  {
    var k := |p| - 1;
    while k > 0
      invariant 0 <= k < |p|
      invariant forall i | k <= i < |p| :: p[i] !in s
    {
      assert p[k - 1 + 1] in Next(large, p[k - 1]);
      k := k - 1;
    }
    assert IsChain(small, p);
  }

  lemma PatchedDependencies(ns: seq<Node>, ops: seq<PatchOp>)
    requires UniqueIds(ns) && NoDangling(ns) && Accepted(ns, ops) && ApplyOps(ns, ops).Done?
    requires UniqueIds(Added(ops))
    ensures var d, before, added := DependencyMap(ApplyOps(ns, ops).nodes), DependencyMap(ns), DependencyMap(Added(ops));
      && Closed(d, Ids(ns))
      && (forall n | n in Ids(ns) :: Next(d, n) <= Next(before, n) && Next(added, n) == {})
      && (forall n | n !in Ids(ns) :: Next(d, n) == Next(added, n))
  {
    AcceptedPatchKeepsGraph(ns, ops);
    PatchKeepsUniqueIds(ns, ops);
    var r := ApplyOps(ns, ops).nodes;
    forall n ensures n in Ids(ns) ==> Next(DependencyMap(r), n) <= Next(DependencyMap(ns), n) && Next(DependencyMap(Added(ops)), n) == {} {
      if n in Ids(ns) {
        OldNodeDependencies(ns, r, n);
        AddedIdsAreNew(ns, r, n);
      }
    }
    forall n | n !in Ids(ns) ensures Next(DependencyMap(r), n) == Next(DependencyMap(Added(ops)), n) {
      NewNodeDependencies(ns, r, Added(ops), n);
    }
    KnownStaysKnown(ns);
  }

  lemma KnownStaysKnown(ns: seq<Node>)
    requires NoDangling(ns)
    ensures forall n :: Next(DependencyMap(ns), n) <= Ids(ns)
  {
    forall n ensures Next(DependencyMap(ns), n) <= Ids(ns) {
      NextInMap(ns, n);
    }
  }

  lemma OldNodeDependencies(ns: seq<Node>, r: seq<Node>, n: string)
    requires UniqueIds(r) && GraphKept(ns, r) && n in Ids(ns)
    ensures Next(DependencyMap(r), n) <= Next(DependencyMap(ns), n)
  {
    KnownId(ns, n);
    var k := LastIndex(ns, n).value;
    assert NodeKept(ns[k], r[k]);
    assert LastIndex(r, n) == Some(k);
    NextInMap(r, n);
    NextInMap(ns, n);
  }

  lemma AddedIdsAreNew(ns: seq<Node>, r: seq<Node>, n: string)
    requires GraphKept(ns, r) && n in Ids(ns)
    ensures Next(DependencyMap(r[|ns|..]), n) == {}
  {
    NextInMap(r[|ns|..], n);
    assert LastIndex(r[|ns|..], n).None? by {
      assert forall k | |ns| <= k < |r| :: r[k].id != n;
    }
  }

  lemma LastIndexInSuffix(r: seq<Node>, m: nat, id: string)
    requires m <= |r| && forall k | 0 <= k < m :: r[k].id != id
    ensures LastIndex(r, id) == match LastIndex(r[m..], id) case None => None case Some(j) => Some(m + j)
  {
    var i, j := LastIndex(r, id), LastIndex(r[m..], id);
    if i.Some? {
      assert r[m..][i.value - m].id == id;
    }
    if j.Some? {
      assert r[m + j.value].id == id;
    }
  }

  lemma NewNodeDependencies(ns: seq<Node>, r: seq<Node>, added: seq<Node>, n: string)
    requires GraphKept(ns, r) && added == r[|ns|..] && n !in Ids(ns)
    ensures Next(DependencyMap(r), n) == Next(DependencyMap(added), n)
  {
    NextInMap(r, n);
    NextInMap(added, n);
    forall k | 0 <= k < |ns| ensures r[k].id != n {
      assert NodeKept(ns[k], r[k]) && ns[k].id in Ids(ns);
    }
    LastIndexInSuffix(r, |ns|, n);
  }

  /**
   * An accepted patch keeps an acyclic graph acyclic exactly when the nodes it adds form no cycle
   * among themselves: whatever else it does only removes dependencies.
   */
  lemma PatchStaysAcyclicExactlyWhen(ns: seq<Node>, ops: seq<PatchOp>)
    requires UniqueIds(ns) && NoDangling(ns) && Acyclic(DependencyMap(ns))
    requires Accepted(ns, ops) && ApplyOps(ns, ops).Done? && UniqueIds(Added(ops))
    ensures Acyclic(DependencyMap(ApplyOps(ns, ops).nodes)) <==> Acyclic(DependencyMap(Added(ops)))
  {
    PatchedDependencies(ns, ops);
    var d, before, added := DependencyMap(ApplyOps(ns, ops).nodes), DependencyMap(ns), DependencyMap(Added(ops));
    if Acyclic(d) {
      AcyclicMonotone(added, d);
    }
    if Acyclic(added) {
      forall n ensures !ReachesBeyond(d, n, n) {
        if ReachesBeyond(d, n, n) {
          var x :| x in Next(d, n) && Reaches(d, x, n);
          var p :| IsChain(d, p) && p[0] == x && p[|p| - 1] == n;
          assert !ReachesBeyond(before, n, n) && !ReachesBeyond(added, n, n);
          if n in Ids(ns) {
            ChainInside(d, before, Ids(ns), p);
          } else {
            ChainOutside(d, added, Ids(ns), p);
          }
        }
      }
    }
  }

  /** No node depends on itself or on a later one. */
  ghost predicate Forward(a: seq<Node>) {
    forall i, j | 0 <= i <= j < |a| :: a[j].id !in a[i].dependencies
  }

  lemma ForwardIsAcyclic(a: seq<Node>)
    requires Forward(a)
    ensures Acyclic(DependencyMap(a))
  {
    var deps := DependencyMap(a);
    var rank := map id | id in deps :: LastIndex(a, id).value;
    forall n, d | n in deps && d in deps[n] && d in deps ensures rank[d] < rank[n] {
      var i, j := LastIndex(a, n).value, LastIndex(a, d).value;
      assert a[j].id == d && d in a[i].dependencies;
    }
    RankedIsAcyclic(deps, rank);
  }

  /** In particular when every added node depends only on nodes that stand before it. */
  lemma ForwardPatchStaysAcyclic(ns: seq<Node>, ops: seq<PatchOp>)
    requires UniqueIds(ns) && NoDangling(ns) && Acyclic(DependencyMap(ns))
    requires Accepted(ns, ops) && ApplyOps(ns, ops).Done? && UniqueIds(Added(ops)) && Forward(Added(ops))
    ensures Acyclic(DependencyMap(ApplyOps(ns, ops).nodes))
  {
    ForwardIsAcyclic(Added(ops));
    PatchStaysAcyclicExactlyWhen(ns, ops);
  }
}
