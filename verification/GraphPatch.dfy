/** Graph patches: the cycle test, validation and application (src/cc_loop/graph_patch.py). */
module GraphPatch {
  import opened Option
  import opened Reachability
  import opened TaskGraph

  // ---------------------------------------------------------------- the cycle test

  /** The depth-first search of `has_path`; one `visited` set serves all its branches. */
  class PathSearch {
    const deps: Deps
    var visited: set<string>

    constructor (deps: Deps)
      ensures this.deps == deps && visited == {}
    {
      this.deps, visited := deps, {};
    }

    /** Every name added since `before` has all its dependencies visited. */
    ghost predicate Expanded(before: set<string>)
      reads this
    {
      before <= visited && forall n | n in visited - before :: Next(deps, n) <= visited
    }

    /**
     * A true answer is always right.  A false answer, given the names visited before, leaves a
     * visited set that holds `start`, misses `target`, and is closed apart from the names whose
     * search is still under way in a caller.
     */
    method HasPath(start: string, target: string) returns (found: bool)
      requires target !in visited
      modifies this`visited
      ensures found ==> Reaches(deps, start, target)
      ensures !found ==> start in visited && target !in visited && Expanded(old(visited))
      decreases Names(deps) + {start} - visited
    {
      if start == target {
        ReachesSelf(deps, start);
        return true;
      }
      if start in visited {
        return false;
      }
      visited := visited + {start};
      var remaining := Next(deps, start);
      while remaining != {}
        invariant remaining <= Next(deps, start) && Next(deps, start) - remaining <= visited
        invariant old(visited) + {start} <= visited && target !in visited
        invariant forall n | n in visited - old(visited) - {start} :: Next(deps, n) <= visited
        decreases remaining
      {
        var dep :| dep in remaining;
        label Before:
        var hit := HasPath(dep, target);
        if hit {
          ReachesByStep(deps, start, dep, target);
          return true;
        }
        remaining := remaining - {dep};
      }
      return false;
    }
  }

  /** Called with nothing visited, on any finite map, the search decides reachability. */
  method HasPath(deps: Deps, start: string, target: string) returns (found: bool)
    ensures found <==> Reaches(deps, start, target)
  {
    var search := new PathSearch(deps);
    found := search.HasPath(start, target);
    if !found && Reaches(deps, start, target) {
      ClosedKeepsChains(deps, search.visited, start, target);
    }
  }

  /** The map `_would_create_cycle` searches: `toId` has gained the dependency `fromId`. */
  function WithEdge(deps: Deps, fromId: string, toId: string): (r: Deps) {
    deps[toId := Next(deps, toId) + {fromId}]
  }

  method WouldCreateCycle(deps: Deps, fromId: string, toId: string) returns (cycle: bool)
    ensures cycle == Reaches(WithEdge(deps, fromId, toId), toId, fromId)
  {
    cycle := HasPath(WithEdge(deps, fromId, toId), toId, fromId);
  }

  /** The edge is inserted before the search, so the test answers true for every pair. */
  lemma CycleTestAlwaysTrue(deps: Deps, fromId: string, toId: string)
    ensures Reaches(WithEdge(deps, fromId, toId), toId, fromId)
  {
    var e := WithEdge(deps, fromId, toId);
    ReachesSelf(e, fromId);
    ReachesByStep(e, toId, fromId, fromId);
  }

  /** A chain in the extended map splits at the new edge. */
  lemma {:induction false} ChainSplits(deps: Deps, fromId: string, toId: string, p: seq<string>)
    requires IsChain(WithEdge(deps, fromId, toId), p)
    ensures Reaches(deps, p[0], p[|p| - 1]) || (Reaches(deps, p[0], toId) && Reaches(deps, fromId, p[|p| - 1]))
  {
    var e := WithEdge(deps, fromId, toId);
    if |p| == 1 {
      ReachesSelf(deps, p[0]);
    } else {
      var q := p[1..];
      assert p[0 + 1] in Next(e, p[0]);
      forall i | 0 <= i < |q| - 1 ensures q[i + 1] in Next(e, q[i]) {
        assert p[i + 1 + 1] in Next(e, p[i + 1]);
      }
      ChainSplits(deps, fromId, toId, q);
      if q[0] in Next(deps, p[0]) {
        if Reaches(deps, q[0], q[|q| - 1]) {
          ReachesByStep(deps, p[0], q[0], q[|q| - 1]);
        } else {
          ReachesByStep(deps, p[0], q[0], toId);
        }
      } else {
        ReachesSelf(deps, toId);
      }
    }
  }

  /** Adding the dependency keeps an acyclic map acyclic exactly when `fromId` did not reach `toId`. */
  lemma EdgeCreatesCycle(deps: Deps, fromId: string, toId: string)
    requires Acyclic(deps)
    ensures Acyclic(WithEdge(deps, fromId, toId)) <==> !Reaches(deps, fromId, toId)
  {
    var e := WithEdge(deps, fromId, toId);
    if Reaches(deps, fromId, toId) {
      ReachesMonotone(deps, e, fromId, toId);
      assert fromId in Next(e, toId);
      assert ReachesBeyond(e, toId, toId);
    } else {
      forall n ensures !ReachesBeyond(e, n, n) {
        if ReachesBeyond(e, n, n) {
          var d :| d in Next(e, n) && Reaches(e, d, n);
          var p :| IsChain(e, p) && p[0] == d && p[|p| - 1] == n;
          ChainSplits(deps, fromId, toId, p);
          CycleMeansReached(deps, fromId, toId, n, d);
        }
      }
    }
  }

  lemma CycleMeansReached(deps: Deps, fromId: string, toId: string, n: string, d: string)
    requires Acyclic(deps) && d in Next(WithEdge(deps, fromId, toId), n)
    requires Reaches(deps, d, n) || (Reaches(deps, d, toId) && Reaches(deps, fromId, n))
    ensures Reaches(deps, fromId, toId)
  {
    if d in Next(deps, n) {
      assert !ReachesBeyond(deps, n, n);
      ReachesByStep(deps, n, d, toId);
      ReachesTransitive(deps, fromId, n, toId);
    }
  }

  /**
   * The documented promise, "true if adding the edge creates a cycle", is met exactly on the
   * pairs where `fromId` already reaches `toId`; on every other pair the test is wrong.
   */
  lemma CycleTestIsRightExactlyWhen(deps: Deps, fromId: string, toId: string)
    requires Acyclic(deps)
    ensures (Reaches(WithEdge(deps, fromId, toId), toId, fromId) <==> !Acyclic(WithEdge(deps, fromId, toId)))
      <==> Reaches(deps, fromId, toId)
  {
    CycleTestAlwaysTrue(deps, fromId, toId);
    EdgeCreatesCycle(deps, fromId, toId);
  }

  // ---------------------------------------------------------------- operations

  /**
   * The keys an `update_node` carries.  `None` is an absent key, `Some(None)` one whose value does
   * not convert; `files_scope`, `reviewer_providers` and `max_review_patch_bytes` go to fields that
   * nothing here reads, so of them only whether they convert (or are absent) is kept.
   */
  datatype Update = Update(
    kindKnown: bool,
    acceptanceCriteria: Option<Option<seq<string>>>,
    filesScopeConverts: bool,
    reviewersConvert: bool,
    maxChangedFiles: Option<Option<int>>,
    reviewBytesConvert: bool,
    requiresManualReview: Option<bool>,
    allowMergeWithoutTests: Option<Option<bool>>)

  datatype PatchOp =
    | AddNode(newId: string, newDependencies: seq<string>, newCriteria: seq<string>,
              newMaxChangedFiles: int, newManualReview: bool, newAllow: Option<bool>, fieldsParse: bool)
    | UpdateNode(nodeId: string, changes: Update)
    | AddDependency(nodeId: string, dependency: string)
    | RemoveDependency(nodeId: string, dependency: string)
    | SkipNode(nodeId: string)
    | UnblockNode(nodeId: string)
    | UnknownOp(name: string)

  datatype PatchError =
    | NoSuchOp(name: string) | IdRequired | IdTaken(id: string) | NoSuchNode(id: string)
    | CriteriaFrozen(id: string) | DependenciesFrozen(id: string)
    | NoSuchDependency(id: string) | SelfDependency | CycleDetected(id: string, dependency: string)
    | CannotSkipPassed(id: string) | NotBlocked(id: string) | DependencyTerminal(id: string)

  function TerminalDependencies(ns: seq<Node>, deps: seq<string>): (r: seq<PatchError>) {
    if deps == [] then []
    else
      var k := LastIndex(ns, deps[0]);
      (if k.Some? && IsTerminalFailure(ns[k.value].status) then [DependencyTerminal(deps[0])] else [])
      + TerminalDependencies(ns, deps[1..])
  }

  ghost function EdgeErrors(ns: seq<Node>, id: string, dep: string): seq<PatchError> {
    if dep !in Ids(ns) then [NoSuchDependency(dep)]
    else if dep == id then [SelfDependency]
    else if dep != "" && Reaches(WithEdge(DependencyMap(ns), dep, id), id, dep) then [CycleDetected(id, dep)]
    else []
  }

  function TargetErrors(ns: seq<Node>, id: string): seq<PatchError> {
    var k := LastIndex(ns, id);
    if k.None? then [NoSuchNode(id)]
    else if ns[k.value].status == Passed then [DependenciesFrozen(id)]
    else []
  }

  ghost function OpErrors(ns: seq<Node>, op: PatchOp): seq<PatchError> {
    match op
    case UnknownOp(name) => [NoSuchOp(name)]
    case AddNode(id, _, _, _, _, _, _) =>
      if id == "" then [IdRequired] else if id in Ids(ns) then [IdTaken(id)] else []
    case UpdateNode(id, changes) =>
      var k := LastIndex(ns, id);
      if k.None? then [NoSuchNode(id)]
      else if ns[k.value].status == Passed && changes.acceptanceCriteria.Some? then [CriteriaFrozen(id)]
      else []
    case AddDependency(id, dep) => TargetErrors(ns, id) + EdgeErrors(ns, id, dep)
    case RemoveDependency(id, _) => TargetErrors(ns, id)
    case SkipNode(id) =>
      var k := LastIndex(ns, id);
      if k.None? then [NoSuchNode(id)]
      else if ns[k.value].status == Passed then [CannotSkipPassed(id)]
      else []
    case UnblockNode(id) =>
      var k := LastIndex(ns, id);
      if k.None? then [NoSuchNode(id)]
      else if ns[k.value].status != Blocked then [NotBlocked(id)]
      else TerminalDependencies(ns, ns[k.value].dependencies)
  }

  ghost function PatchErrors(ns: seq<Node>, ops: seq<PatchOp>): seq<PatchError> {
    if ops == [] then [] else OpErrors(ns, ops[0]) + PatchErrors(ns, ops[1..])
  }

  /** The whole patch is judged against the graph it will start from. */
  ghost predicate Accepted(ns: seq<Node>, ops: seq<PatchOp>) {
    PatchErrors(ns, ops) == []
  }

  /** How far applying operations got: `Crashed` is a value that would not convert. */
  datatype Applied = Done(nodes: seq<Node>) | LookupFailed(nodes: seq<Node>) | Crashed(nodes: seq<Node>)

  function FromAdd(op: PatchOp): Node
    requires op.AddNode?
  {
    Node(op.newId, op.newDependencies, op.newCriteria, Pending, [], 0,
         op.newMaxChangedFiles, op.newManualReview, op.newAllow)
  }

  function WithCriteria(n: Node, u: Update): Node {
    if u.acceptanceCriteria.Some? && u.acceptanceCriteria.value.Some? && n.status != Passed
    then n.(acceptanceCriteria := u.acceptanceCriteria.value.value) else n
  }

  function WithFileLimit(n: Node, u: Update): Node {
    if u.maxChangedFiles.Some? && u.maxChangedFiles.value.Some? then n.(maxChangedFiles := u.maxChangedFiles.value.value) else n
  }

  function WithPolicies(n: Node, u: Update): Node {
    n.(requiresManualReview := if u.requiresManualReview.Some? then u.requiresManualReview.value else n.requiresManualReview,
       allowMergeWithoutTests := if u.allowMergeWithoutTests.Some? then u.allowMergeWithoutTests.value else n.allowMergeWithoutTests)
  }

  datatype Updated = Updated(node: Node, complete: bool)

  /** The keys in the order they are set; the first that does not convert ends the update there. */
  function UpdatedNode(n: Node, u: Update): Updated {
    if !u.kindKnown || (u.acceptanceCriteria == Some(None) && n.status != Passed) then Updated(n, false)
    else
      var listed := WithCriteria(n, u);
      if !u.filesScopeConverts || !u.reviewersConvert || u.maxChangedFiles == Some(None) then Updated(listed, false)
      else if !u.reviewBytesConvert then Updated(WithFileLimit(listed, u), false)
      else Updated(WithPolicies(WithFileLimit(listed, u), u), true)
  }

  /** Python's `list.remove`: the first occurrence goes. */
  function Without(s: seq<string>, x: string): (r: seq<string>)
    ensures forall y | y in r :: y in s
    ensures x !in s ==> r == s
    ensures x in s ==> |r| == |s| - 1
  {
    if s == [] then [] else if s[0] == x then s[1..] else [s[0]] + Without(s[1..], x)
  }

  function ApplyTo(n: Node, op: PatchOp): Node {
    match op
    case AddDependency(_, dep) =>
      if dep != "" && dep !in n.dependencies then n.(dependencies := n.dependencies + [dep]) else n
    case RemoveDependency(_, dep) =>
      n.(dependencies := Without(n.dependencies, dep))
    case SkipNode(_) => n.(status := Skipped)
    case UnblockNode(_) => n.(status := Pending)
    case _ => n
  }

  function ApplyOp(ns: seq<Node>, op: PatchOp): Applied {
    match op
    case UnknownOp(_) => Crashed(ns)
    case AddNode(id, _, _, _, _, _, fieldsParse) =>
      if !fieldsParse || id == "" then Crashed(ns) else Done(ns + [FromAdd(op)])
    case UpdateNode(id, u) =>
      var k := FirstIndex(ns, id);
      if k.None? then LookupFailed(ns)
      else
        var updated := UpdatedNode(ns[k.value], u);
        if updated.complete then Done(ns[k.value := updated.node]) else Crashed(ns[k.value := updated.node])
    case _ =>
      var k := FirstIndex(ns, op.nodeId);
      if k.None? then LookupFailed(ns) else Done(ns[k.value := ApplyTo(ns[k.value], op)])
  }

  function ApplyOps(ns: seq<Node>, ops: seq<PatchOp>): Applied
    decreases |ops|
  {
    if ops == [] then Done(ns)
    else match ApplyOp(ns, ops[0])
      case Done(r) => ApplyOps(r, ops[1..])
      case stopped => stopped
  }

  // ---------------------------------------------------------------- the program's loops

  lemma TerminalStep(ns: seq<Node>, deps: seq<string>, i: nat)
    requires i < |deps|
    ensures var k := LastIndex(ns, deps[i]);
      TerminalDependencies(ns, deps[i..]) ==
        (if k.Some? && IsTerminalFailure(ns[k.value].status) then [DependencyTerminal(deps[i])] else [])
        + TerminalDependencies(ns, deps[i + 1..])
  {
    assert deps[i..][1..] == deps[i + 1..];
  }

  lemma ErrorsJoin(a: seq<PatchError>, b: seq<PatchError>, c: seq<PatchError>)
    ensures a + (b + c) == (a + b) + c
  {
  }

  method TerminalDependencyErrors(ns: seq<Node>, deps: seq<string>) returns (errors: seq<PatchError>)
    ensures errors == TerminalDependencies(ns, deps)
  {
    errors := [];
    for i := 0 to |deps|
      invariant TerminalDependencies(ns, deps) == errors + TerminalDependencies(ns, deps[i..])
    {
      var k := LastIndex(ns, deps[i]);
      TerminalStep(ns, deps, i);
      var more := if k.Some? && IsTerminalFailure(ns[k.value].status) then [DependencyTerminal(deps[i])] else [];
      ErrorsJoin(errors, more, TerminalDependencies(ns, deps[i + 1..]));
      errors := errors + more;
    }
  }

  method ValidateOp(ns: seq<Node>, op: PatchOp) returns (errors: seq<PatchError>)
    ensures errors == OpErrors(ns, op)
  {
    match op
    case UnknownOp(name) => errors := [NoSuchOp(name)];
    case AddNode(id, _, _, _, _, _, _) =>
      errors := if id == "" then [IdRequired] else if id in Ids(ns) then [IdTaken(id)] else [];
    case UpdateNode(id, changes) =>
      var k := LastIndex(ns, id);
      errors := if k.None? then [NoSuchNode(id)]
        else if ns[k.value].status == Passed && changes.acceptanceCriteria.Some? then [CriteriaFrozen(id)]
        else [];
    case AddDependency(id, dep) =>
      errors := TargetErrors(ns, id);
      if dep !in Ids(ns) {
        errors := errors + [NoSuchDependency(dep)];
      } else if dep == id {
        errors := errors + [SelfDependency];
      } else if dep != "" {
        var cycle := WouldCreateCycle(DependencyMap(ns), dep, id);
        if cycle { errors := errors + [CycleDetected(id, dep)]; }
      }
    case RemoveDependency(id, _) => errors := TargetErrors(ns, id);
    case SkipNode(id) =>
      var k := LastIndex(ns, id);
      errors := if k.None? then [NoSuchNode(id)]
        else if ns[k.value].status == Passed then [CannotSkipPassed(id)]
        else [];
    case UnblockNode(id) =>
      var k := LastIndex(ns, id);
      if k.None? {
        errors := [NoSuchNode(id)];
      } else if ns[k.value].status != Blocked {
        errors := [NotBlocked(id)];
      } else {
        errors := TerminalDependencyErrors(ns, ns[k.value].dependencies);
      }
  }

  method ValidatePatch(graph: TaskGraph, ops: seq<PatchOp>) returns (errors: seq<PatchError>)
    ensures errors == PatchErrors(graph.View(), ops)
  {
    errors := ValidateOps(graph.View(), ops);
  }

  /** The errors so far and those of the next operation. */
  method ValidateNext(ns: seq<Node>, ops: seq<PatchOp>, i: nat, errors: seq<PatchError>) returns (more: seq<PatchError>)
    requires i < |ops|
    ensures errors + PatchErrors(ns, ops[i..]) == more + PatchErrors(ns, ops[i + 1..])
  {
    var found := ValidateOp(ns, ops[i]);
    assert ops[i..][1..] == ops[i + 1..];
    ErrorsJoin(errors, found, PatchErrors(ns, ops[i + 1..]));
    return errors + found;
  }

  method ValidateOps(ns: seq<Node>, ops: seq<PatchOp>) returns (errors: seq<PatchError>)
    ensures errors == PatchErrors(ns, ops)
  {
    errors := [];
    for i := 0 to |ops|
      invariant PatchErrors(ns, ops) == errors + PatchErrors(ns, ops[i..])
    {
      errors := ValidateNext(ns, ops, i, errors);
    }
  }

  datatype PatchResult = PatchApplied | PatchRejected(errors: seq<PatchError>) | AssertionFailed | ValueFailed

  ghost predicate Matches(r: PatchResult, after: seq<Node>, spec: Applied) {
    match spec
    case Done(ns) => r == PatchApplied && after == ns
    case LookupFailed(ns) => r == AssertionFailed && after == ns
    case Crashed(ns) => r == ValueFailed && after == ns
  }

  method AddInPlace(graph: TaskGraph, op: PatchOp) returns (r: PatchResult)
    requires graph.Valid() && op.AddNode?
    modifies graph`nodes
    ensures graph.Valid() && Grown(graph)
    ensures Matches(r, graph.View(), ApplyOp(old(graph.View()), op))
  {
    if !op.fieldsParse || op.newId == "" { return ValueFailed; }
    var node := new GraphNode(FromAdd(op));
    graph.nodes := graph.nodes + [node];
    assert graph.View() == old(graph.View()) + [FromAdd(op)];
    return PatchApplied;
  }

  method UpdateFields(node: GraphNode, u: Update) returns (complete: bool)
    modifies node
    ensures Updated(node.View(), complete) == UpdatedNode(old(node.View()), u)
  {
    if !u.kindKnown { return false; }
    if u.acceptanceCriteria.Some? && node.status != Passed {
      if u.acceptanceCriteria.value.None? { return false; }
      node.acceptanceCriteria := u.acceptanceCriteria.value.value;
    }
    if !u.filesScopeConverts { return false; }
    if !u.reviewersConvert { return false; }
    if u.maxChangedFiles.Some? {
      if u.maxChangedFiles.value.None? { return false; }
      node.maxChangedFiles := u.maxChangedFiles.value.value;
    }
    if !u.reviewBytesConvert { return false; }
    if u.requiresManualReview.Some? { node.requiresManualReview := u.requiresManualReview.value; }
    if u.allowMergeWithoutTests.Some? { node.allowMergeWithoutTests := u.allowMergeWithoutTests.value; }
    return true;
  }

  method UpdateInPlace(graph: TaskGraph, op: PatchOp) returns (r: PatchResult)
    requires graph.Valid() && op.UpdateNode?
    modifies graph.nodes
    ensures Matches(r, graph.View(), ApplyOp(old(graph.View()), op))
  {
    var k := graph.GetNode(op.nodeId);
    if k.None? { return AssertionFailed; }
    var node := graph.nodes[k.value];
    ghost var before := graph.View();
    var ok := UpdateFields(node, op.changes);
    assert graph.View() == before[k.value := node.View()];
    return if ok then PatchApplied else ValueFailed;
  }

  /** What such an operation that goes through writes to its node. */
  ghost predicate Edited(before: Node, after: Node, op: PatchOp) {
    match op
    case SkipNode(_) => after == before.(status := Skipped)
    case UnblockNode(_) => after == before.(status := Pending)
    case RemoveDependency(_, d) =>
      && after == before.(dependencies := after.dependencies)
      && forall x :: multiset(after.dependencies)[x] ==
           if x == d && x in before.dependencies then multiset(before.dependencies)[x] - 1 else multiset(before.dependencies)[x]
    case AddDependency(_, d) =>
      after == if d == "" || d in before.dependencies then before else before.(dependencies := before.dependencies + [d])
    case _ => true
  }

  lemma EditedByOp(n: Node, op: PatchOp)
    ensures Edited(n, ApplyTo(n, op), op)
  {
    if op.RemoveDependency? { WithoutCounts(n.dependencies, op.dependency); }
  }

  /** The four operations that change the status or the dependencies of the node they name. */
  method EditNode(node: GraphNode, op: PatchOp)
    requires op.AddDependency? || op.RemoveDependency? || op.SkipNode? || op.UnblockNode?
    modifies node
    ensures node.View() == ApplyTo(old(node.View()), op) && Edited(old(node.View()), node.View(), op)
  {
    EditedByOp(node.View(), op);
    match op {
      case AddDependency(_, dep) =>
        if dep != "" && dep !in node.dependencies { node.dependencies := node.dependencies + [dep]; }
      case RemoveDependency(_, dep) =>
        if dep in node.dependencies { node.dependencies := Without(node.dependencies, dep); }
      case SkipNode(_) => node.status := Skipped;
      case UnblockNode(_) => node.status := Pending;
    }
  }

  method EditInPlace(graph: TaskGraph, op: PatchOp) returns (r: PatchResult)
    requires graph.Valid() && (op.AddDependency? || op.RemoveDependency? || op.SkipNode? || op.UnblockNode?)
    modifies graph.nodes
    ensures Matches(r, graph.View(), ApplyOp(old(graph.View()), op))
    ensures r == PatchApplied ==>
      var k := FirstIndex(old(graph.View()), op.nodeId); k.Some? && Edited(old(graph.View())[k.value], graph.View()[k.value], op)
  {
    var k := graph.GetNode(op.nodeId);
    if k.None? { return AssertionFailed; }
    EditNode(graph.nodes[k.value], op);
    assert graph.View() == old(graph.View())[k.value := ApplyTo(old(graph.View())[k.value], op)];
    return PatchApplied;
  }

  lemma {:induction false} WithoutCounts(s: seq<string>, x: string)
    ensures forall y :: multiset(Without(s, x))[y] == if y == x && y in s then multiset(s)[y] - 1 else multiset(s)[y]
  {
    if s != [] {
      assert s == [s[0]] + s[1..];
      if s[0] != x { WithoutCounts(s[1..], x); }
    }
  }

  /** One turn of `apply_patch`'s loop, on the nodes in memory. */
  method ApplyOpInPlace(graph: TaskGraph, op: PatchOp) returns (r: PatchResult)
    requires graph.Valid()
    modifies graph`nodes, graph.nodes
    ensures graph.Valid() && Grown(graph)
    ensures Matches(r, graph.View(), ApplyOp(old(graph.View()), op))
    ensures r == PatchApplied ==> !op.UnknownOp?
    ensures r == PatchApplied && !op.AddNode? && !op.UpdateNode? ==>
      var k := FirstIndex(old(graph.View()), op.nodeId); k.Some? && Edited(old(graph.View())[k.value], graph.View()[k.value], op)
  {
    match op {
      case UnknownOp(_) => r := ValueFailed;
      case AddNode(_, _, _, _, _, _, _) => r := AddInPlace(graph, op);
      case UpdateNode(_, _) => r := UpdateInPlace(graph, op);
      case _ => r := EditInPlace(graph, op);
    }
  }

  /** A current node that is no longer in the list makes `apply_patch` scan for a new one. */
  function Settle(ns: seq<Node>, current: string): seq<Node> {
    if current != "" && FirstIndex(ns, current).None? then Scan(ns, 2, 1, {}).nodes else ns
  }

  /** ... and the first runnable one becomes current, if there is one. */
  function SettledCurrent(ns: seq<Node>, current: string): string {
    if current == "" || FirstIndex(ns, current).Some? then current
    else
      var scan := Scan(ns, 2, 1, {});
      if scan.picked == [] || scan.picked[0] >= |scan.nodes| then "" else scan.nodes[scan.picked[0]].id
  }

  lemma ApplyOpsStep(ns: seq<Node>, ops: seq<PatchOp>, i: nat)
    requires i < |ops|
    ensures ApplyOps(ns, ops[i..]) ==
      match ApplyOp(ns, ops[i])
      case Done(r) => ApplyOps(r, ops[i + 1..])
      case stopped => stopped
  {
    assert ops[i..][1..] == ops[i + 1..];
  }

  /** The nodes in memory after some operations: the old ones, then new objects. */
  twostate predicate Grown(graph: TaskGraph)
    reads graph
  {
    && old(graph.nodes) <= graph.nodes
    && forall i | |old(graph.nodes)| <= i < |graph.nodes| :: fresh(graph.nodes[i])
  }

  method ApplyAll(graph: TaskGraph, ops: seq<PatchOp>) returns (r: PatchResult)
    requires graph.Valid()
    modifies graph`nodes, graph.nodes
    ensures graph.Valid() && Grown(graph)
    ensures Matches(r, graph.View(), ApplyOps(old(graph.View()), ops))
  {
    ghost var spec := ApplyOps(graph.View(), ops);
    for i := 0 to |ops|
      invariant graph.Valid() && Grown(graph)
      invariant spec == ApplyOps(graph.View(), ops[i..])
    {
      ApplyOpsStep(graph.View(), ops, i);
      assert graph.nodes == old(graph.nodes) + graph.nodes[|old(graph.nodes)|..];
      var step := ApplyOpInPlace(graph, ops[i]);
      if step != PatchApplied {
        return step;
      }
    }
    return PatchApplied;
  }

  method SettleCurrent(graph: TaskGraph)
    requires graph.Valid()
    modifies graph`currentNodeId, graph.nodes
    ensures graph.View() == Settle(old(graph.View()), old(graph.currentNodeId))
    ensures graph.currentNodeId == SettledCurrent(old(graph.View()), old(graph.currentNodeId))
  {
    if graph.currentNodeId != "" {
      var current := graph.GetNode(graph.currentNodeId);
      if current.None? {
        var next := graph.NextRunnableNodes(2, 1, {});
        graph.currentNodeId := if next == [] then "" else next[0].id;
      }
    }
  }

  method ApplyPatch(graph: TaskGraph, ops: seq<PatchOp>) returns (r: PatchResult)
    requires graph.Valid()
    modifies graph, graph.nodes
    ensures graph.Valid() && Grown(graph)
    ensures !Accepted(old(graph.View()), ops) ==>
      r == PatchRejected(PatchErrors(old(graph.View()), ops)) && graph.View() == old(graph.View())
      && graph.currentNodeId == old(graph.currentNodeId)
    ensures Accepted(old(graph.View()), ops) ==>
      match ApplyOps(old(graph.View()), ops)
      case Done(ns) =>
        r == PatchApplied && graph.View() == Settle(ns, old(graph.currentNodeId))
        && graph.currentNodeId == SettledCurrent(ns, old(graph.currentNodeId))
      case stopped => Matches(r, graph.View(), stopped) && graph.currentNodeId == old(graph.currentNodeId)
  {
    var errors := ValidatePatch(graph, ops);
    if errors != [] {
      return PatchRejected(errors);
    }
    r := ApplyAll(graph, ops);
    if r == PatchApplied {
      assert graph.nodes == old(graph.nodes) + graph.nodes[|old(graph.nodes)|..];
      SettleCurrent(graph);
    }
  }
}
