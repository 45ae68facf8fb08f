/**
 * The task graph and its dispatcher (src/cc_loop/task_graph.py).
 *
 * `Node` is the value a graph node holds at one moment.  The functions on `seq<Node>` say what
 * each operation computes; `GraphNode` and `TaskGraph` below update nodes in place, as the
 * program does, and are proved against those functions.
 */
module TaskGraph {
  import opened Option
  import opened Reachability

  datatype Status = Pending | Running | Passed | Failed | Rejected | Blocked | Skipped

  datatype Node = Node(
    id: string,
    dependencies: seq<string>,
    acceptanceCriteria: seq<string>,
    status: Status,
    attemptIterations: seq<nat>,
    retryCount: nat,
    maxChangedFiles: int,
    requiresManualReview: bool,
    allowMergeWithoutTests: Option<bool>)

  // ---------------------------------------------------------------- lookups

  function FirstFrom(ns: seq<Node>, i: nat, id: string): (r: Option<nat>)
    requires i <= |ns|
    ensures r.Some? ==> i <= r.value < |ns| && ns[r.value].id == id && forall j | i <= j < r.value :: ns[j].id != id
    ensures r.None? ==> forall j | i <= j < |ns| :: ns[j].id != id
    decreases |ns| - i
  {
    if i == |ns| then None else if ns[i].id == id then Some(i) else FirstFrom(ns, i + 1, id)
  }

  function LastBelow(ns: seq<Node>, n: nat, id: string): (r: Option<nat>)
    requires n <= |ns|
    ensures r.Some? ==> r.value < n && ns[r.value].id == id && forall j | r.value < j < n :: ns[j].id != id
    ensures r.None? ==> forall j | 0 <= j < n :: ns[j].id != id
  {
    if n == 0 then None else if ns[n - 1].id == id then Some(n - 1) else LastBelow(ns, n - 1, id)
  }

  /** `get_node`: the first node of that id. */
  function FirstIndex(ns: seq<Node>, id: string): (r: Option<nat>)
    ensures r.Some? ==> r.value < |ns| && ns[r.value].id == id && forall j | 0 <= j < r.value :: ns[j].id != id
    ensures r.None? ==> forall j | 0 <= j < |ns| :: ns[j].id != id
  {
    FirstFrom(ns, 0, id)
  }

  /** `_node_index`: a dictionary built left to right, so it keeps the last node of an id. */
  function LastIndex(ns: seq<Node>, id: string): (r: Option<nat>)
    ensures r.Some? ==> r.value < |ns| && ns[r.value].id == id && forall j | r.value < j < |ns| :: ns[j].id != id
    ensures r.None? ==> forall j | 0 <= j < |ns| :: ns[j].id != id
  {
    LastBelow(ns, |ns|, id)
  }

  /** Entry `j` is the last of id `d`, the one a dependency on `d` means. */
  ghost predicate Named(ns: seq<Node>, d: string, j: nat) {
    j < |ns| && ns[j].id == d && forall m | j < m < |ns| :: ns[m].id != d
  }

  ghost predicate Known(ns: seq<Node>, d: string) {
    exists m :: 0 <= m < |ns| && ns[m].id == d
  }

  lemma NamedIsLast(ns: seq<Node>, d: string)
    ensures forall j: nat :: Named(ns, d, j) <==> LastIndex(ns, d) == Some(j)
    ensures Known(ns, d) <==> LastIndex(ns, d).Some?
  {
    forall j: nat ensures Named(ns, d, j) <==> LastIndex(ns, d) == Some(j) {}
  }

  function Ids(ns: seq<Node>): set<string> {
    set k | 0 <= k < |ns| :: ns[k].id
  }

  ghost predicate UniqueIds(ns: seq<Node>) {
    forall i, j | 0 <= i < j < |ns| :: ns[i].id != ns[j].id
  }

  ghost predicate NoDangling(ns: seq<Node>) {
    forall k | 0 <= k < |ns| :: forall d | d in ns[k].dependencies :: d in Ids(ns)
  }

  predicate HasUnknownDependency(ns: seq<Node>, n: Node) {
    exists d | d in n.dependencies :: LastIndex(ns, d).None?
  }

  predicate IsTerminalFailure(s: Status) {
    s == Failed || s == Blocked
  }

  predicate HasTerminalDependencyFailure(ns: seq<Node>, n: Node) {
    exists d | d in n.dependencies :: var k := LastIndex(ns, d); k.Some? && IsTerminalFailure(ns[k.value].status)
  }

  predicate DependenciesPassed(ns: seq<Node>, n: Node) {
    forall d | d in n.dependencies :: var k := LastIndex(ns, d); k.Some? && ns[k.value].status == Passed
  }

  predicate IsRunnableStatus(n: Node, maxRetries: int) {
    n.status == Pending || (n.status == Rejected && n.retryCount < maxRetries)
  }

  predicate Complete(ns: seq<Node>) {
    ns != [] && forall k | 0 <= k < |ns| :: ns[k].status == Skipped || ns[k].status == Passed
  }

  /** The dependency map of the graph, keyed by node id (later nodes override earlier ones). */
  function DependencyMap(ns: seq<Node>): (deps: Deps)
    ensures deps.Keys == Ids(ns)
    ensures forall id | id in deps :: deps[id] == (set d | d in ns[LastIndex(ns, id).value].dependencies)
  {
    map id | id in Ids(ns) :: set d | d in ns[LastIndex(ns, id).value].dependencies
  }

  // ---------------------------------------------------------------- the scan of next_runnable_nodes

  datatype Judgement = Leave | Block | Pick

  /** What the scan does with node `i` when it comes to it. */
  function Judge(ns: seq<Node>, i: nat, maxRetries: int, exclude: set<string>): Judgement
    requires i < |ns|
  {
    if ns[i].id in exclude then Leave
    else if HasUnknownDependency(ns, ns[i]) || HasTerminalDependencyFailure(ns, ns[i]) then
      if ns[i].status == Pending then Block else Leave
    else if DependenciesPassed(ns, ns[i]) && IsRunnableStatus(ns[i], maxRetries) then Pick
    else Leave
  }

  /** The dependency on `d` cannot be met any more: nobody has that id, or whoever has it last is FAILED or BLOCKED. */
  ghost predicate CannotBeMet(ns: seq<Node>, d: string) {
    !Known(ns, d) || exists j: nat :: Named(ns, d, j) && (ns[j].status == Failed || ns[j].status == Blocked)
  }

  ghost predicate Met(ns: seq<Node>, d: string) {
    exists j: nat :: Named(ns, d, j) && ns[j].status == Passed
  }

  /** The scan blocks a node and picks a node exactly when its own fields and its dependencies' say so. */
  lemma JudgedExactlyWhen(ns: seq<Node>, i: nat, maxRetries: int, exclude: set<string>)
    requires i < |ns|
    ensures Judge(ns, i, maxRetries, exclude) == Block <==>
      ns[i].id !in exclude && ns[i].status == Pending && exists d :: d in ns[i].dependencies && CannotBeMet(ns, d)
    ensures Judge(ns, i, maxRetries, exclude) == Pick <==>
      ns[i].id !in exclude && (ns[i].status == Pending || (ns[i].status == Rejected && ns[i].retryCount < maxRetries))
      && forall d | d in ns[i].dependencies :: Met(ns, d)
  {
    forall d ensures CannotBeMet(ns, d) <==> LastIndex(ns, d).None? || IsTerminalFailure(ns[LastIndex(ns, d).value].status) { NamedIsLast(ns, d); }
    forall d ensures Met(ns, d) <==> LastIndex(ns, d).Some? && ns[LastIndex(ns, d).value].status == Passed { NamedIsLast(ns, d); }
  }

  function SetStatus(ns: seq<Node>, i: nat, s: Status): (r: seq<Node>)
    requires i < |ns|
  {
    ns[i := ns[i].(status := s)]
  }

  datatype ScanResult = ScanResult(nodes: seq<Node>, picked: seq<nat>)

  function ScanFrom(ns: seq<Node>, i: nat, picked: seq<nat>, maxRetries: int, limit: int, exclude: set<string>): ScanResult
    requires i <= |ns|
    decreases |ns| - i
  {
    if i == |ns| then ScanResult(ns, picked)
    else match Judge(ns, i, maxRetries, exclude)
      case Leave => ScanFrom(ns, i + 1, picked, maxRetries, limit, exclude)
      case Block => ScanFrom(SetStatus(ns, i, Blocked), i + 1, picked, maxRetries, limit, exclude)
      case Pick =>
        if |picked| + 1 >= limit then ScanResult(ns, picked + [i])
        else ScanFrom(ns, i + 1, picked + [i], maxRetries, limit, exclude)
  }

  function Scan(ns: seq<Node>, maxRetries: int, limit: int, exclude: set<string>): ScanResult {
    ScanFrom(ns, 0, [], maxRetries, limit, exclude)
  }

  // ---------------------------------------------------------------- mark_node_*

  function MarkRunning(ns: seq<Node>, id: string): (r: Option<seq<Node>>) {
    match FirstIndex(ns, id)
    case None => None
    case Some(k) => Some(SetStatus(ns, k, Running))
  }

  function WithIteration(iterations: seq<nat>, iteration: nat): (r: seq<nat>)
    ensures iteration in r && forall x | x in iterations :: x in r
  {
    if iteration in iterations then iterations else iterations + [iteration]
  }

  function MarkPassed(ns: seq<Node>, id: string, iteration: nat): (r: Option<seq<Node>>) {
    match FirstIndex(ns, id)
    case None => None
    case Some(k) =>
      Some(ns[k := ns[k].(status := Passed, attemptIterations := WithIteration(ns[k].attemptIterations, iteration))])
  }

  function MarkRejected(ns: seq<Node>, id: string): (r: Option<seq<Node>>) {
    match FirstIndex(ns, id)
    case None => None
    case Some(k) => Some(ns[k := ns[k].(status := Rejected, retryCount := ns[k].retryCount + 1)])
  }

  function MarkFailed(ns: seq<Node>, id: string): (r: Option<seq<Node>>) {
    match FirstIndex(ns, id)
    case None => None
    case Some(k) => Some(SetStatus(ns, k, Failed))
  }

  /** `_apply_invalid_dependency_blocking`, which every planner graph goes through. */
  function BlockInvalid(ns: seq<Node>): (r: seq<Node>)
    ensures |r| == |ns|
    ensures forall k | 0 <= k < |ns| ::
      r[k] == if HasUnknownDependency(ns, ns[k]) then ns[k].(status := Blocked) else ns[k]
  {
    seq(|ns|, k requires 0 <= k < |ns| =>
      if HasUnknownDependency(ns, ns[k]) then ns[k].(status := Blocked) else ns[k])
  }

  // ---------------------------------------------------------------- the graph in memory

  class GraphNode {
    const id: string
    var dependencies: seq<string>
    var acceptanceCriteria: seq<string>
    var status: Status
    var attemptIterations: seq<nat>
    var retryCount: nat
    var maxChangedFiles: int
    var requiresManualReview: bool
    var allowMergeWithoutTests: Option<bool>

    constructor (n: Node)
      ensures View() == n
    {
      id, dependencies, acceptanceCriteria, status := n.id, n.dependencies, n.acceptanceCriteria, n.status;
      attemptIterations, retryCount := n.attemptIterations, n.retryCount;
      maxChangedFiles, requiresManualReview := n.maxChangedFiles, n.requiresManualReview;
      allowMergeWithoutTests := n.allowMergeWithoutTests;
    }

    function View(): Node
      reads this
    {
      Node(id, dependencies, acceptanceCriteria, status, attemptIterations, retryCount,
           maxChangedFiles, requiresManualReview, allowMergeWithoutTests)
    }
  }

  class TaskGraph {
    var nodes: seq<GraphNode>
    var currentNodeId: string

    /** The list holds each node object once; nothing is assumed of the ids. */
    ghost predicate Valid()
      reads this
    {
      forall i, j | 0 <= i < j < |nodes| :: nodes[i] != nodes[j]
    }

    function View(): (ns: seq<Node>)
      reads this, nodes
      ensures |ns| == |nodes|
      ensures forall k | 0 <= k < |nodes| :: ns[k] == nodes[k].View()
    {
      seq(|nodes|, k requires 0 <= k < |nodes| reads this, nodes => nodes[k].View())
    }

    constructor ()
      ensures Valid() && nodes == [] && currentNodeId == ""
    {
      nodes, currentNodeId := [], "";
    }

    /** `get_node`: a loop over the list that stops at the first match. */
    method GetNode(id: string) returns (found: Option<nat>)
      ensures found == FirstIndex(View(), id)
    {
      var k := 0;
      while k < |nodes|
        invariant k <= |nodes|
        invariant forall j | 0 <= j < k :: nodes[j].id != id
      {
        if nodes[k].id == id {
          assert View()[k].id == id;
          return Some(k);
        }
        k := k + 1;
      }
      return None;
    }

    /** One turn of the scan's loop: the branches of `next_runnable_nodes` for node `i`. */
    method ScanNode(i: nat, maxRetries: int, exclude: set<string>) returns (verdict: Judgement)
      requires Valid() && i < |nodes|
      modifies nodes[i]
      ensures verdict == Judge(old(View()), i, maxRetries, exclude)
      ensures View() == if verdict == Block then SetStatus(old(View()), i, Blocked) else old(View())
    {
      var node := nodes[i];
      if node.id in exclude {
        return Leave;
      }
      if HasUnknownDependency(View(), node.View()) || HasTerminalDependencyFailure(View(), node.View()) {
        if node.status == Pending {
          node.status := Blocked;
          return Block;
        }
        return Leave;
      }
      if !DependenciesPassed(View(), node.View()) {
        return Leave;
      }
      return if IsRunnableStatus(node.View(), maxRetries) then Pick else Leave;
    }

    /** The node objects at these positions of the list. */
    ghost predicate AreAt(objects: seq<GraphNode>, positions: seq<nat>)
      reads this
    {
      |objects| == |positions| && forall j | 0 <= j < |objects| :: positions[j] < |nodes| && objects[j] == nodes[positions[j]]
    }

    method NextRunnableNodes(maxRetries: int, limit: int, exclude: set<string>) returns (result: seq<GraphNode>)
      requires Valid()
      modifies nodes
      ensures View() == Scan(old(View()), maxRetries, limit, exclude).nodes
      ensures AreAt(result, Scan(old(View()), maxRetries, limit, exclude).picked)
    {
      result := [];
      ghost var picked: seq<nat> := [];
      ghost var whole := Scan(View(), maxRetries, limit, exclude);
      for i := 0 to |nodes|
        invariant whole == ScanFrom(View(), i, picked, maxRetries, limit, exclude)
        invariant AreAt(result, picked)
      {
        var verdict := ScanNode(i, maxRetries, exclude);
        if verdict == Pick {
          result, picked := result + [nodes[i]], picked + [i];
          if |result| >= limit {
            return;
          }
        }
      }
    }

    method MarkNodeRunning(id: string) returns (ok: bool)
      requires Valid()
      modifies this`currentNodeId, nodes
      ensures ok == MarkRunning(old(View()), id).Some?
      ensures View() == if ok then MarkRunning(old(View()), id).value else old(View())
      ensures currentNodeId == if ok then id else old(currentNodeId)
    {
      var k := GetNode(id);
      if k.None? { return false; }
      nodes[k.value].status := Running;
      currentNodeId := id;
      assert View() == SetStatus(old(View()), k.value, Running);
      return true;
    }

    method MarkNodePassed(id: string, iteration: nat) returns (ok: bool)
      requires Valid()
      modifies this`currentNodeId, nodes
      ensures ok == MarkPassed(old(View()), id, iteration).Some?
      ensures View() == if ok then MarkPassed(old(View()), id, iteration).value else old(View())
      ensures currentNodeId == if ok then id else old(currentNodeId)
    {
      var k := GetNode(id);
      if k.None? { return false; }
      var node := nodes[k.value];
      node.status := Passed;
      if iteration !in node.attemptIterations {
        node.attemptIterations := node.attemptIterations + [iteration];
      }
      currentNodeId := id;
      assert View() == MarkPassed(old(View()), id, iteration).value;
      return true;
    }

    method MarkNodeRejected(id: string) returns (ok: bool)
      requires Valid()
      modifies this`currentNodeId, nodes
      ensures ok == MarkRejected(old(View()), id).Some?
      ensures View() == if ok then MarkRejected(old(View()), id).value else old(View())
      ensures currentNodeId == if ok then id else old(currentNodeId)
    {
      var k := GetNode(id);
      if k.None? { return false; }
      var node := nodes[k.value];
      node.status := Rejected;
      node.retryCount := node.retryCount + 1;
      currentNodeId := id;
      assert View() == MarkRejected(old(View()), id).value;
      return true;
    }

    method MarkNodeFailed(id: string) returns (ok: bool)
      requires Valid()
      modifies this`currentNodeId, nodes
      ensures ok == MarkFailed(old(View()), id).Some?
      ensures View() == if ok then MarkFailed(old(View()), id).value else old(View())
      ensures currentNodeId == if ok then id else old(currentNodeId)
    {
      var k := GetNode(id);
      if k.None? { return false; }
      nodes[k.value].status := Failed;
      currentNodeId := id;
      assert View() == SetStatus(old(View()), k.value, Failed);
      return true;
    }

    /** `_apply_invalid_dependency_blocking`: one pass over the planner's nodes. */
    method ApplyInvalidDependencyBlocking()
      requires Valid()
      modifies nodes
      ensures unchanged(this)
      ensures View() == BlockInvalid(old(View()))
    {
      var i := 0;
      while i < |nodes|
        invariant i <= |nodes|
        invariant |View()| == |old(View())|
        invariant forall k | 0 <= k < |nodes| :: View()[k] == if k < i then BlockInvalid(old(View()))[k] else old(View())[k]
      {
        SameUnknown(old(View()), View(), View()[i]);
        if HasUnknownDependency(View(), nodes[i].View()) {
          nodes[i].status := Blocked;
        }
        i := i + 1;
      }
      assert View() == BlockInvalid(old(View()));
    }
  }

  lemma KnownId(ns: seq<Node>, id: string)
    ensures id in Ids(ns) <==> LastIndex(ns, id).Some?
    ensures id in Ids(ns) <==> FirstIndex(ns, id).Some?
  {
  }

  function DependencySet(n: Node): set<string> {
    set d | d in n.dependencies
  }

  lemma NextInMap(ns: seq<Node>, id: string)
    ensures Next(DependencyMap(ns), id) ==
      match LastIndex(ns, id) case None => {} case Some(k) => DependencySet(ns[k])
  {
    KnownId(ns, id);
  }

  lemma SameIds(a: seq<Node>, b: seq<Node>)
    requires |a| == |b| && forall k | 0 <= k < |a| :: a[k].id == b[k].id
    ensures Ids(a) == Ids(b)
    ensures UniqueIds(a) ==> UniqueIds(b)
  {
    forall id ensures id in Ids(a) <==> id in Ids(b) {
      KnownId(a, id);
      KnownId(b, id);
      SameLastIndex(a, b, id);
    }
  }

  lemma NoUnknownDependency(ns: seq<Node>, k: nat)
    requires NoDangling(ns) && k < |ns|
    ensures !HasUnknownDependency(ns, ns[k])
  {
    forall d | d in ns[k].dependencies ensures LastIndex(ns, d).Some? {
      KnownId(ns, d);
    }
  }

  /** Whether a dependency is unknown depends on the ids alone. */
  lemma SameUnknown(a: seq<Node>, b: seq<Node>, n: Node)
    requires |a| == |b| && forall k | 0 <= k < |a| :: a[k].id == b[k].id
    ensures HasUnknownDependency(a, n) == HasUnknownDependency(b, n)
  {
    forall d ensures LastIndex(a, d) == LastIndex(b, d) {
      SameLastIndex(a, b, d);
    }
  }

  lemma SameLastIndex(a: seq<Node>, b: seq<Node>, id: string)
    requires |a| == |b| && forall k | 0 <= k < |a| :: a[k].id == b[k].id
    ensures LastIndex(a, id) == LastIndex(b, id)
  {
  }

  lemma SameFirstIndex(a: seq<Node>, b: seq<Node>, id: string)
    requires |a| == |b| && forall k | 0 <= k < |a| :: a[k].id == b[k].id
    ensures FirstIndex(a, id) == FirstIndex(b, id)
  {
  }
}
