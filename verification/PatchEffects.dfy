/**
 * What a patch does, said over its list of operations: which patches are accepted, and what every
 * field of every node is after one that went through.
 */
module PatchEffects {
  import opened Option
  import opened TaskGraph
  import opened GraphPatch
  import opened PatchSafety
  import opened ScanOutcome

  // ---------------------------------------------------------------- the last write wins

  /** `after` is what the last of the first `n` operations that write it has written, and `before` where none does. */
  ghost predicate LeftBy<V(!new)>(ops: seq<PatchOp>, n: nat, writes: PatchOp -> Option<V>, before: V, after: V)
    requires n <= |ops|
  {
    && (forall i | 0 <= i < n && writes(ops[i]).Some? && (forall j | i < j < n :: writes(ops[j]).None?) :: after == writes(ops[i]).value)
    && ((forall i | 0 <= i < n :: writes(ops[i]).None?) ==> after == before)
  }

  lemma LeftByOneMore<V(!new)>(ops: seq<PatchOp>, n: nat, writes: PatchOp -> Option<V>, before: V, between: V, after: V)
    requires n < |ops| && LeftBy(ops, n, writes, before, between)
    requires after == if writes(ops[n]).Some? then writes(ops[n]).value else between
    ensures LeftBy(ops, n + 1, writes, before, after)
  {
  }

  function StatusWrites(id: string): PatchOp -> Option<Status> {
    (op: PatchOp) => if op == SkipNode(id) then Some(Skipped) else if op == UnblockNode(id) then Some(Pending) else None
  }

  function CriteriaWrites(id: string): PatchOp -> Option<seq<string>> {
    (op: PatchOp) => if op.UpdateNode? && op.nodeId == id && op.changes.acceptanceCriteria.Some? then op.changes.acceptanceCriteria.value else None
  }

  function FileLimitWrites(id: string): PatchOp -> Option<int> {
    (op: PatchOp) => if op.UpdateNode? && op.nodeId == id && op.changes.maxChangedFiles.Some? then op.changes.maxChangedFiles.value else None
  }

  function ManualReviewWrites(id: string): PatchOp -> Option<bool> {
    (op: PatchOp) => if op.UpdateNode? && op.nodeId == id then op.changes.requiresManualReview else None
  }

  function UntestedWrites(id: string): PatchOp -> Option<Option<bool>> {
    (op: PatchOp) => if op.UpdateNode? && op.nodeId == id then op.changes.allowMergeWithoutTests else None
  }

  // ---------------------------------------------------------------- one operation after the other

  lemma {:induction false} ApplyOneMore(ns: seq<Node>, ops: seq<PatchOp>, n: nat)
    requires n < |ops|
    ensures ApplyOps(ns, ops[..n + 1]) ==
      match ApplyOps(ns, ops[..n])
      case Done(g) => ApplyOp(g, ops[n])
      case stopped => stopped
    decreases n
  {
    assert ops[..n + 1][1..] == ops[1..][..n];
    if n == 0 {
      assert ops[..1][1..] == [];
    } else {
      assert ops[..n][1..] == ops[1..][..n - 1];
      match ApplyOp(ns, ops[0]) {
        case Done(g) => ApplyOneMore(g, ops[1..], n - 1);
        case _ =>
      }
    }
  }

  lemma {:induction false} PrefixesGoThrough(ns: seq<Node>, ops: seq<PatchOp>, n: nat)
    requires ApplyOps(ns, ops).Done? && n <= |ops|
    ensures ApplyOps(ns, ops[..n]).Done?
    decreases |ops| - n
  {
    if n == |ops| {
      assert ops[..n] == ops;
    } else {
      PrefixesGoThrough(ns, ops, n + 1);
      ApplyOneMore(ns, ops, n);
    }
  }

  /** No node before entry `k` has its id. */
  ghost predicate IsFirst(ns: seq<Node>, k: nat) {
    k < |ns| && forall j | 0 <= j < k :: ns[j].id != ns[k].id
  }

  /** What an operation that goes through does to the first node of an id, apart from criteria and dependencies. */
  lemma OpWrites(ns: seq<Node>, op: PatchOp, k: nat)
    requires ApplyOp(ns, op).Done? && IsFirst(ns, k)
    ensures var r, id, n := ApplyOp(ns, op).nodes, ns[k].id, ns[k];
      && |ns| <= |r| && IsFirst(r, k) && r[k].id == id && r[k].attemptIterations == n.attemptIterations && r[k].retryCount == n.retryCount
      && r[k].status == (if StatusWrites(id)(op).Some? then StatusWrites(id)(op).value else n.status)
      && r[k].maxChangedFiles == (if FileLimitWrites(id)(op).Some? then FileLimitWrites(id)(op).value else n.maxChangedFiles)
      && r[k].requiresManualReview == (if ManualReviewWrites(id)(op).Some? then ManualReviewWrites(id)(op).value else n.requiresManualReview)
      && r[k].allowMergeWithoutTests == (if UntestedWrites(id)(op).Some? then UntestedWrites(id)(op).value else n.allowMergeWithoutTests)
  {
    if op.UpdateNode? || op.AddDependency? || op.RemoveDependency? || op.SkipNode? || op.UnblockNode? {
      assert op.nodeId == ns[k].id ==> FirstIndex(ns, op.nodeId) == Some(k);
    }
  }

  /** What the first `n` operations have left of the first node of an id. */
  ghost predicate WrittenBy(ns: seq<Node>, ops: seq<PatchOp>, n: nat, k: nat, r: seq<Node>)
    requires n <= |ops| && k < |ns| <= |r|
  {
    var id := ns[k].id;
    && IsFirst(r, k) && r[k].id == id && r[k].attemptIterations == ns[k].attemptIterations && r[k].retryCount == ns[k].retryCount
    && LeftBy(ops, n, StatusWrites(id), ns[k].status, r[k].status)
    && LeftBy(ops, n, FileLimitWrites(id), ns[k].maxChangedFiles, r[k].maxChangedFiles)
    && LeftBy(ops, n, ManualReviewWrites(id), ns[k].requiresManualReview, r[k].requiresManualReview)
    && LeftBy(ops, n, UntestedWrites(id), ns[k].allowMergeWithoutTests, r[k].allowMergeWithoutTests)
  }

  lemma WrittenByOneMore(ns: seq<Node>, ops: seq<PatchOp>, n: nat, k: nat, g: seq<Node>)
    requires n < |ops| && k < |ns| <= |g| && WrittenBy(ns, ops, n, k, g) && ApplyOp(g, ops[n]).Done?
    ensures |ns| <= |ApplyOp(g, ops[n]).nodes| && WrittenBy(ns, ops, n + 1, k, ApplyOp(g, ops[n]).nodes)
  {
    OpWrites(g, ops[n], k);
    var id, r := ns[k].id, ApplyOp(g, ops[n]).nodes;
    LeftByOneMore(ops, n, StatusWrites(id), ns[k].status, g[k].status, r[k].status);
    LeftByOneMore(ops, n, FileLimitWrites(id), ns[k].maxChangedFiles, g[k].maxChangedFiles, r[k].maxChangedFiles);
    LeftByOneMore(ops, n, ManualReviewWrites(id), ns[k].requiresManualReview, g[k].requiresManualReview, r[k].requiresManualReview);
    LeftByOneMore(ops, n, UntestedWrites(id), ns[k].allowMergeWithoutTests, g[k].allowMergeWithoutTests, r[k].allowMergeWithoutTests);
  }

  /** One operation further on a patch that goes through. */
  lemma PrefixStep(ns: seq<Node>, ops: seq<PatchOp>, n: nat)
    requires ApplyOps(ns, ops).Done? && n < |ops|
    ensures ApplyOps(ns, ops[..n]).Done?
    ensures ApplyOp(ApplyOps(ns, ops[..n]).nodes, ops[n]).Done?
    ensures ApplyOps(ns, ops[..n + 1]) == ApplyOp(ApplyOps(ns, ops[..n]).nodes, ops[n])
  {
    PrefixesGoThrough(ns, ops, n);
    PrefixesGoThrough(ns, ops, n + 1);
    ApplyOneMore(ns, ops, n);
  }

  ghost predicate WrittenTo(ns: seq<Node>, ops: seq<PatchOp>, n: nat, k: nat) {
    && n <= |ops| && ApplyOps(ns, ops[..n]).Done?
    && k < |ns| <= |ApplyOps(ns, ops[..n]).nodes| && WrittenBy(ns, ops, n, k, ApplyOps(ns, ops[..n]).nodes)
  }

  lemma NothingWritten(ns: seq<Node>, ops: seq<PatchOp>, k: nat)
    requires IsFirst(ns, k)
    ensures WrittenTo(ns, ops, 0, k)
  {
  }

  lemma WrittenFurther(ns: seq<Node>, ops: seq<PatchOp>, n: nat, k: nat)
    requires ApplyOps(ns, ops).Done? && n < |ops| && WrittenTo(ns, ops, n, k)
    ensures WrittenTo(ns, ops, n + 1, k)
  {
    PrefixStep(ns, ops, n);
    WrittenByOneMore(ns, ops, n, k, ApplyOps(ns, ops[..n]).nodes);
  }

  lemma {:induction false} WrittenByPrefix(ns: seq<Node>, ops: seq<PatchOp>, n: nat, k: nat)
    requires ApplyOps(ns, ops).Done? && n <= |ops| && IsFirst(ns, k)
    ensures WrittenTo(ns, ops, n, k)
  {
    if n == 0 {
      NothingWritten(ns, ops, k);
    } else {
      WrittenByPrefix(ns, ops, n - 1, k);
      WrittenFurther(ns, ops, n - 1, k);
    }
  }

  /**
   * After a patch that went through, on any list: the first node of an id is SKIPPED where the last
   * skip or unblock that names it is a skip, PENDING where that is an unblock, and has its old status
   * where neither names it; its file limit and merge policies are those of the last update that
   * carries them; its number of retries and its iterations are the old ones.
   */
  lemma PatchWrites(ns: seq<Node>, ops: seq<PatchOp>, k: nat)
    requires ApplyOps(ns, ops).Done? && IsFirst(ns, k)
    ensures var r := ApplyOps(ns, ops).nodes; |ns| <= |r| && WrittenBy(ns, ops, |ops|, k, r)
  {
    WrittenByPrefix(ns, ops, |ops|, k);
    assert ops[..|ops|] == ops;
  }

  /** A later node of the same id is not touched at all. */
  lemma {:induction false} LaterNodesStay(ns: seq<Node>, ops: seq<PatchOp>, k: nat)
    requires ApplyOps(ns, ops).Done? && k < |ns| && !IsFirst(ns, k)
    ensures k < |ApplyOps(ns, ops).nodes| && ApplyOps(ns, ops).nodes[k] == ns[k]
    decreases |ops|
  {
    if ops != [] {
      var g := ApplyOp(ns, ops[0]).nodes;
      assert |ns| <= |g| && g[k] == ns[k] && forall j | 0 <= j < |ns| :: g[j].id == ns[j].id;
      LaterNodesStay(g, ops[1..], k);
    }
  }

  // ---------------------------------------------------------------- criteria and dependencies, of an accepted patch

  /** An accepted operation writes criteria only where its node has not passed, and adds no dependency. */
  lemma AcceptedWrites(ns0: seq<Node>, ns: seq<Node>, op: PatchOp, k: nat)
    requires UniqueIds(ns0) && GraphKept(ns0, ns) && Valid(ns0, op) && ApplyOp(ns, op).Done? && k < |ns0|
    ensures var r, id := ApplyOp(ns, op).nodes, ns0[k].id;
      && |ns| <= |r|
      && r[k].acceptanceCriteria == (if CriteriaWrites(id)(op).Some? then CriteriaWrites(id)(op).value else ns[k].acceptanceCriteria)
      && r[k].dependencies == (if op.RemoveDependency? && op.nodeId == id then Without(ns[k].dependencies, op.dependency) else ns[k].dependencies)
  {
    if !op.AddNode? {
      assert NodeKept(ns0[k], ns[k]) && LastIndex(ns0, ns0[k].id) == Some(k);
      AcceptedFinds(ns0, ns, op);
    }
  }

  /** The node an accepted operation finds, and what validation has made sure of. */
  lemma AcceptedFinds(ns0: seq<Node>, ns: seq<Node>, op: PatchOp)
    requires UniqueIds(ns0) && GraphKept(ns0, ns) && Valid(ns0, op) && !op.AddNode?
    ensures !op.UnknownOp? && LastIndex(ns0, op.nodeId).Some? && FirstIndex(ns, op.nodeId) == LastIndex(ns0, op.nodeId)
    ensures op.UpdateNode? && op.changes.acceptanceCriteria.Some? ==> ns0[LastIndex(ns0, op.nodeId).value].status != Passed
    ensures op.AddDependency? ==> op.dependency == ""
  {
    if op.AddDependency? { CycleTestAlwaysTrue(DependencyMap(ns0), op.dependency, op.nodeId); }
    LookupAgrees(ns0, ns, op.nodeId);
  }

  /** How many of the first `n` operations remove the dependency `d` of node `id`. */
  function Removals(ops: seq<PatchOp>, n: nat, id: string, d: string): nat
    requires n <= |ops|
  {
    if n == 0 then 0 else Removals(ops, n - 1, id, d) + if ops[n - 1] == RemoveDependency(id, d) then 1 else 0
  }

  function Occurrences(deps: seq<string>, m: nat, d: string): nat
    requires m <= |deps|
  {
    if m == 0 then 0 else Occurrences(deps, m - 1, d) + if deps[m - 1] == d then 1 else 0
  }

  /** Of the first `m` entries those that stay when of each id the first `removed` entries go. */
  function Outliving(deps: seq<string>, m: nat, removed: string -> nat): seq<string>
    requires m <= |deps|
  {
    if m == 0 then []
    else Outliving(deps, m - 1, removed) + if removed(deps[m - 1]) <= Occurrences(deps, m - 1, deps[m - 1]) then [deps[m - 1]] else []
  }

  function RemovedBy(ops: seq<PatchOp>, n: nat, id: string): string -> nat
    requires n <= |ops|
  {
    (d: string) => Removals(ops, n, id, d)
  }

  lemma {:induction false} WithoutSnoc(s: seq<string>, y: string, x: string)
    ensures Without(s + [y], x) == if x in s then Without(s, x) + [y] else if y == x then s else s + [y]
  {
    if s != [] {
      assert (s + [y])[1..] == s[1..] + [y];
      if s[0] != x { WithoutSnoc(s[1..], y, x); }
    }
  }

  /** One entry `y` further: `s` holds an `x` where fewer of them, `r`, were removed than stood there, `c`. */
  lemma WithoutOneMore(s: seq<string>, t: seq<string>, y: string, x: string, r: nat, c: nat, stays: bool)
    requires Without(s, x) == t && (x in s <==> r < c) && (y == x ==> (stays <==> r <= c))
    ensures var more := s + if stays then [y] else [];
      && Without(more, x) == t + (if (if y == x then r + 1 <= c else stays) then [y] else [])
      && (x in more <==> r < c + if y == x then 1 else 0)
  {
    WithoutSnoc(s, y, x);
    assert s + [] == s && t + [] == t;
  }

  /** Taking the first of the remaining entries of `x` away is one removal more. */
  lemma {:induction false} OutlivingOneMore(deps: seq<string>, m: nat, removed: string -> nat, more: string -> nat, x: string)
    requires m <= |deps| && more(x) == removed(x) + 1 && forall y | y != x :: more(y) == removed(y)
    ensures Without(Outliving(deps, m, removed), x) == Outliving(deps, m, more)
    ensures x in Outliving(deps, m, removed) <==> removed(x) < Occurrences(deps, m, x)
  {
    if m > 0 {
      OutlivingOneMore(deps, m - 1, removed, more, x);
      var y, c := deps[m - 1], Occurrences(deps, m - 1, x);
      WithoutOneMore(Outliving(deps, m - 1, removed), Outliving(deps, m - 1, more), y, x, removed(x), c,
        removed(y) <= Occurrences(deps, m - 1, y));
    }
  }

  lemma {:induction false} NothingRemoved(deps: seq<string>, m: nat, removed: string -> nat)
    requires m <= |deps| && forall d :: removed(d) == 0
    ensures Outliving(deps, m, removed) == deps[..m]
  {
    if m > 0 { NothingRemoved(deps, m - 1, removed); }
  }

  /** What the first `n` operations of an accepted patch have left of the criteria and the dependencies of node `k`. */
  ghost predicate FreedBy(ns: seq<Node>, ops: seq<PatchOp>, n: nat, k: nat, r: seq<Node>)
    requires n <= |ops| && k < |ns| <= |r|
  {
    && LeftBy(ops, n, CriteriaWrites(ns[k].id), ns[k].acceptanceCriteria, r[k].acceptanceCriteria)
    && r[k].dependencies == Outliving(ns[k].dependencies, |ns[k].dependencies|, RemovedBy(ops, n, ns[k].id))
  }

  lemma FreedByOneMore(ns: seq<Node>, ops: seq<PatchOp>, n: nat, k: nat, g: seq<Node>)
    requires UniqueIds(ns) && GraphKept(ns, g) && n < |ops| && Valid(ns, ops[n]) && ApplyOp(g, ops[n]).Done?
    requires k < |ns| && FreedBy(ns, ops, n, k, g)
    ensures |ns| <= |ApplyOp(g, ops[n]).nodes| && FreedBy(ns, ops, n + 1, k, ApplyOp(g, ops[n]).nodes)
  {
    var id, r, deps, op := ns[k].id, ApplyOp(g, ops[n]).nodes, ns[k].dependencies, ops[n];
    AcceptedWrites(ns, g, op, k);
    LeftByOneMore(ops, n, CriteriaWrites(id), ns[k].acceptanceCriteria, g[k].acceptanceCriteria, r[k].acceptanceCriteria);
    if op.RemoveDependency? && op.nodeId == id {
      OutlivingOneMore(deps, |deps|, RemovedBy(ops, n, id), RemovedBy(ops, n + 1, id), op.dependency);
    } else {
      SameOutliving(deps, |deps|, RemovedBy(ops, n, id), RemovedBy(ops, n + 1, id));
    }
  }

  lemma {:induction false} SameOutliving(deps: seq<string>, m: nat, removed: string -> nat, same: string -> nat)
    requires m <= |deps| && forall d :: same(d) == removed(d)
    ensures Outliving(deps, m, same) == Outliving(deps, m, removed)
  {
    if m > 0 { SameOutliving(deps, m - 1, removed, same); }
  }

  lemma {:induction false} FreedByPrefix(ns: seq<Node>, ops: seq<PatchOp>, n: nat, k: nat)
    requires UniqueIds(ns) && Accepted(ns, ops) && ApplyOps(ns, ops).Done? && n <= |ops| && k < |ns|
    ensures ApplyOps(ns, ops[..n]).Done? && GraphKept(ns, ApplyOps(ns, ops[..n]).nodes)
    ensures FreedBy(ns, ops, n, k, ApplyOps(ns, ops[..n]).nodes)
  {
    PrefixesGoThrough(ns, ops, n);
    AcceptedPrefix(ns, ops, n);
    if n == 0 {
      NothingRemoved(ns[k].dependencies, |ns[k].dependencies|, RemovedBy(ops, 0, ns[k].id));
    } else {
      FreedByPrefix(ns, ops, n - 1, k);
      PrefixStep(ns, ops, n - 1);
      AcceptedOps(ns, ops);
      FreedByOneMore(ns, ops, n - 1, k, ApplyOps(ns, ops[..n - 1]).nodes);
    }
  }

  /**
   * After an accepted patch on unique ids a node's criteria are those of the last update that carries
   * any; of each of its dependencies as many entries have gone, the first ones, as operations remove
   * it, and the others stand in their order: nothing adds one.
   */
  lemma PatchFrees(ns: seq<Node>, ops: seq<PatchOp>, k: nat)
    requires UniqueIds(ns) && Accepted(ns, ops) && ApplyOps(ns, ops).Done? && k < |ns|
    ensures |ns| <= |ApplyOps(ns, ops).nodes| && FreedBy(ns, ops, |ops|, k, ApplyOps(ns, ops).nodes)
  {
    FreedByPrefix(ns, ops, |ops|, k);
    assert ops[..|ops|] == ops;
  }

  // ---------------------------------------------------------------- new nodes

  function Additions(ops: seq<PatchOp>, n: nat): nat
    requires n <= |ops|
  {
    if n == 0 then 0 else Additions(ops, n - 1) + if ops[n - 1].AddNode? then 1 else 0
  }

  lemma {:induction false} AddedSnoc(ops: seq<PatchOp>, op: PatchOp)
    ensures Added(ops + [op]) == Added(ops) + Added([op])
  {
    if ops == [] {
      assert ops + [op] == [op];
    } else {
      assert (ops + [op])[1..] == ops[1..] + [op];
      AddedSnoc(ops[1..], op);
    }
  }

  ghost predicate IsAdded(op: PatchOp, n: Node) {
    && op.AddNode? && n.id == op.newId && n.dependencies == op.newDependencies && n.acceptanceCriteria == op.newCriteria
    && n.status == Pending && n.attemptIterations == [] && n.retryCount == 0
    && n.maxChangedFiles == op.newMaxChangedFiles && n.requiresManualReview == op.newManualReview
    && n.allowMergeWithoutTests == op.newAllow
  }

  lemma {:induction false} AddedInOrder(ops: seq<PatchOp>, n: nat)
    requires n <= |ops|
    ensures |Added(ops[..n])| == Additions(ops, n)
    ensures forall i | 0 <= i < n && ops[i].AddNode? ::
      Additions(ops, i) < Additions(ops, n) && IsAdded(ops[i], Added(ops[..n])[Additions(ops, i)])
  {
    if n > 0 {
      AddedInOrder(ops, n - 1);
      assert ops[..n] == ops[..n - 1] + [ops[n - 1]];
      AddedSnoc(ops[..n - 1], ops[n - 1]);
      assert [ops[n - 1]][1..] == [];
    }
  }

  /**
   * An accepted patch that goes through appends one PENDING, untried node for each `add_node`, in their
   * order, with the fields it gives, and no other node.
   */
  lemma PatchAppends(ns: seq<Node>, ops: seq<PatchOp>)
    requires UniqueIds(ns) && Accepted(ns, ops) && ApplyOps(ns, ops).Done?
    ensures var r := ApplyOps(ns, ops).nodes;
      && |r| == |ns| + Additions(ops, |ops|)
      && forall i | 0 <= i < |ops| && ops[i].AddNode? ::
           |ns| + Additions(ops, i) < |r| && IsAdded(ops[i], r[|ns| + Additions(ops, i)])
  {
    AcceptedPatchKeepsGraph(ns, ops);
    AddedInOrder(ops, |ops|);
    assert ops[..|ops|] == ops;
    var r := ApplyOps(ns, ops).nodes;
    assert forall j | 0 <= j < |Added(ops)| :: r[|ns| + j] == Added(ops)[j];
  }

  // ---------------------------------------------------------------- which patches are accepted

  /** The node that `id` means has this status. */
  ghost predicate Stands(ns: seq<Node>, id: string, status: Status) {
    exists j: nat :: Named(ns, id, j) && ns[j].status == status
  }

  /** Some dependency of the node that `id` means is `d`, and that has failed or is blocked. */
  ghost predicate StillFailing(ns: seq<Node>, id: string, d: string) {
    (exists j: nat :: Named(ns, id, j) && d in ns[j].dependencies) && (Stands(ns, d, Failed) || Stands(ns, d, Blocked))
  }

  /** When validation reports this error for the operation. */
  ghost predicate Reported(ns: seq<Node>, op: PatchOp, e: PatchError) {
    match e
    case NoSuchOp(name) => op == UnknownOp(name)
    case IdRequired => op.AddNode? && op.newId == ""
    case IdTaken(id) => op.AddNode? && op.newId == id && id != "" && Known(ns, id)
    case NoSuchNode(id) => !op.AddNode? && !op.UnknownOp? && op.nodeId == id && !Known(ns, id)
    case CriteriaFrozen(id) => op.UpdateNode? && op.nodeId == id && op.changes.acceptanceCriteria.Some? && Stands(ns, id, Passed)
    case DependenciesFrozen(id) => (op.AddDependency? || op.RemoveDependency?) && op.nodeId == id && Stands(ns, id, Passed)
    case NoSuchDependency(d) => op.AddDependency? && op.dependency == d && !Known(ns, d)
    case SelfDependency => op.AddDependency? && op.dependency == op.nodeId && Known(ns, op.dependency)
    case CycleDetected(id, d) => op == AddDependency(id, d) && Known(ns, d) && d != id && d != ""
    case CannotSkipPassed(id) => op == SkipNode(id) && Stands(ns, id, Passed)
    case NotBlocked(id) => op == UnblockNode(id) && Known(ns, id) && !Stands(ns, id, Blocked)
    case DependencyTerminal(d) => op.UnblockNode? && Stands(ns, op.nodeId, Blocked) && StillFailing(ns, op.nodeId, d)
  }

  lemma StandsIsLast(ns: seq<Node>, id: string, status: Status)
    ensures Stands(ns, id, status) <==> LastIndex(ns, id).Some? && ns[LastIndex(ns, id).value].status == status
    ensures Known(ns, id) <==> LastIndex(ns, id).Some?
    ensures Known(ns, id) <==> id in Ids(ns)
  {
    NamedIsLast(ns, id);
    KnownId(ns, id);
  }

  lemma {:induction false} TerminalErrors(ns: seq<Node>, deps: seq<string>, e: PatchError)
    ensures e in TerminalDependencies(ns, deps) <==>
      e.DependencyTerminal? && e.id in deps && (Stands(ns, e.id, Failed) || Stands(ns, e.id, Blocked))
  {
    if deps != [] {
      TerminalErrors(ns, deps[1..], e);
      StandsIsLast(ns, deps[0], Failed);
      StandsIsLast(ns, deps[0], Blocked);
      assert forall d :: d in deps <==> d == deps[0] || d in deps[1..];
    }
  }

  /** Validation reports exactly these errors. */
  lemma ReportedExactlyWhen(ns: seq<Node>, op: PatchOp, e: PatchError)
    ensures e in OpErrors(ns, op) <==> Reported(ns, op, e)
  {
    match op {
      case UnknownOp(_) =>
      case AddNode(id, _, _, _, _, _, _) => StandsIsLast(ns, id, Passed);
      case UnblockNode(id) => UnblockErrors(ns, id, e);
      case AddDependency(id, dep) => AddDependencyErrors(ns, id, dep, e);
      case _ => StandsIsLast(ns, op.nodeId, Passed);
    }
  }

  lemma AddDependencyErrors(ns: seq<Node>, id: string, d: string, e: PatchError)
    ensures e in OpErrors(ns, AddDependency(id, d)) <==> Reported(ns, AddDependency(id, d), e)
  {
    StandsIsLast(ns, id, Passed);
    StandsIsLast(ns, d, Passed);
    CycleTestAlwaysTrue(DependencyMap(ns), d, id);
    assert e in OpErrors(ns, AddDependency(id, d)) <==> e in TargetErrors(ns, id) || e in EdgeErrors(ns, id, d);
  }

  lemma UnblockErrors(ns: seq<Node>, id: string, e: PatchError)
    ensures e in OpErrors(ns, UnblockNode(id)) <==> Reported(ns, UnblockNode(id), e)
  {
    StandsIsLast(ns, id, Blocked);
    NamedIsLast(ns, id);
    if LastIndex(ns, id).Some? { TerminalErrors(ns, ns[LastIndex(ns, id).value].dependencies, e); }
  }

  /**
   * The errors of an operation come before those of the next one; what is wrong with a node comes before
   * what is wrong with its new dependency.
   */
  lemma ErrorsInOrder(ns: seq<Node>, op: PatchOp, next: PatchOp)
    ensures PatchErrors(ns, [op, next]) == OpErrors(ns, op) + OpErrors(ns, next)
    ensures |OpErrors(ns, op)| > 1 && op.AddDependency? ==> OpErrors(ns, op)[0].NoSuchNode? || OpErrors(ns, op)[0].DependenciesFrozen?
  {
    assert [op, next][1..] == [next] && [next][1..] == [];
    assert PatchErrors(ns, [next]) == OpErrors(ns, next) + PatchErrors(ns, []);
  }

  /** What an operation must be to pass validation. */
  ghost predicate Admissible(ns: seq<Node>, op: PatchOp) {
    match op
    case UnknownOp(_) => false
    case AddNode(id, _, _, _, _, _, _) => id != "" && !Known(ns, id)
    case UpdateNode(id, changes) => Known(ns, id) && (Stands(ns, id, Passed) ==> changes.acceptanceCriteria.None?)
    case AddDependency(id, d) => Known(ns, id) && !Stands(ns, id, Passed) && Known(ns, d) && d == "" && id != ""
    case RemoveDependency(id, _) => Known(ns, id) && !Stands(ns, id, Passed)
    case SkipNode(id) => Known(ns, id) && !Stands(ns, id, Passed)
    case UnblockNode(id) => Stands(ns, id, Blocked) && forall d :: !StillFailing(ns, id, d)
  }

  lemma AdmissibleIsValid(ns: seq<Node>, op: PatchOp)
    ensures Valid(ns, op) <==> Admissible(ns, op)
  {
    forall e ensures e in OpErrors(ns, op) <==> Reported(ns, op, e) { ReportedExactlyWhen(ns, op, e); }
    assert Valid(ns, op) <==> forall e :: e !in OpErrors(ns, op) by {
      if OpErrors(ns, op) != [] { assert OpErrors(ns, op)[0] in OpErrors(ns, op); }
    }
    if !op.UnknownOp? && !op.AddNode? {
      StandsIsLast(ns, op.nodeId, Passed);
      StandsIsLast(ns, op.nodeId, Blocked);
    }
    NobodyReports(ns, op);
  }

  lemma NobodyReports(ns: seq<Node>, op: PatchOp)
    ensures (forall e :: !Reported(ns, op, e)) <==> Admissible(ns, op)
  {
    match op {
      case UnknownOp(name) => assert Reported(ns, op, NoSuchOp(name));
      case AddNode(id, _, _, _, _, _, _) =>
        if !Admissible(ns, op) { assert Reported(ns, op, IdRequired) || Reported(ns, op, IdTaken(id)); }
      case UpdateNode(id, _) =>
        if !Admissible(ns, op) { assert Reported(ns, op, NoSuchNode(id)) || Reported(ns, op, CriteriaFrozen(id)); }
      case AddDependency(id, d) => NobodyReportsEdge(ns, id, d);
      case RemoveDependency(id, _) =>
        if !Admissible(ns, op) { assert Reported(ns, op, NoSuchNode(id)) || Reported(ns, op, DependenciesFrozen(id)); }
      case SkipNode(id) =>
        if !Admissible(ns, op) { assert Reported(ns, op, NoSuchNode(id)) || Reported(ns, op, CannotSkipPassed(id)); }
      case UnblockNode(id) =>
        if !Stands(ns, id, Blocked) {
          assert Reported(ns, op, NoSuchNode(id)) || Reported(ns, op, NotBlocked(id));
        } else if d :| StillFailing(ns, id, d) {
          assert Reported(ns, op, DependencyTerminal(d));
        }
    }
  }

  lemma NobodyReportsEdge(ns: seq<Node>, id: string, d: string)
    ensures (forall e :: !Reported(ns, AddDependency(id, d), e)) <==> Admissible(ns, AddDependency(id, d))
  {
    var op := AddDependency(id, d);
    if !Admissible(ns, op) {
      assert Reported(ns, op, NoSuchNode(id)) || Reported(ns, op, DependenciesFrozen(id)) || Reported(ns, op, NoSuchDependency(d))
        || Reported(ns, op, SelfDependency) || Reported(ns, op, CycleDetected(id, d));
    }
  }

  /** A patch is accepted exactly when each of its operations is admissible on the graph it starts from. */
  lemma AcceptedExactlyWhen(ns: seq<Node>, ops: seq<PatchOp>)
    ensures Accepted(ns, ops) <==> forall i | 0 <= i < |ops| :: Admissible(ns, ops[i])
  {
    AcceptedOps(ns, ops);
    forall i | 0 <= i < |ops| ensures Valid(ns, ops[i]) <==> Admissible(ns, ops[i]) { AdmissibleIsValid(ns, ops[i]); }
  }

  // ---------------------------------------------------------------- where a patch stops, and what comes after it

  /**
   * An update that meets a value it cannot convert: criteria and limit may be written by then, the merge
   * policies are not.
   */
  ghost predicate Halfway(n: Node, u: Update, r: Node) {
    var criteria := u.kindKnown && u.acceptanceCriteria.Some? && u.acceptanceCriteria.value.Some? && n.status != Passed;
    var beyond := u.kindKnown && !(u.acceptanceCriteria == Some(None) && n.status != Passed) && u.filesScopeConverts && u.reviewersConvert;
    && r == n.(acceptanceCriteria := r.acceptanceCriteria, maxChangedFiles := r.maxChangedFiles)
    && r.acceptanceCriteria == (if criteria then u.acceptanceCriteria.value.value else n.acceptanceCriteria)
    && r.maxChangedFiles == if beyond && u.maxChangedFiles.Some? && u.maxChangedFiles.value.Some? then u.maxChangedFiles.value.value else n.maxChangedFiles
  }

  lemma UpdateStopsHalfway(n: Node, u: Update)
    requires !UpdatedNode(n, u).complete
    ensures Halfway(n, u, UpdatedNode(n, u).node)
  {
  }

  /** How the operation that stops a patch leaves the nodes it began with. */
  ghost predicate StopsAt(g: seq<Node>, op: PatchOp, r: Applied) {
    && r.Crashed? && |r.nodes| == |g|
    && forall k: nat | k < |g| ::
         if op.UpdateNode? && g[k].id == op.nodeId && IsFirst(g, k) then Halfway(g[k], op.changes, r.nodes[k]) else r.nodes[k] == g[k]
  }

  lemma OpStops(ns: seq<Node>, g: seq<Node>, op: PatchOp)
    requires UniqueIds(ns) && GraphKept(ns, g) && Valid(ns, op) && !ApplyOp(g, op).Done?
    ensures !Converts(op) && StopsAt(g, op, ApplyOp(g, op))
  {
    OpKeepsGraph(ns, g, op);
    if op.UpdateNode? { UpdateStopsHalfway(g[FirstIndex(g, op.nodeId).value], op.changes); }
  }

  /**
   * An accepted patch stops at an operation with a value that does not convert; all before it is done, and
   * an update is left halfway.
   */
  lemma {:induction false} AcceptedPatchStopsAt(ns: seq<Node>, ops: seq<PatchOp>, n: nat) returns (i: nat)
    requires UniqueIds(ns) && Accepted(ns, ops) && n <= |ops|
    requires ApplyOps(ns, ops[..n]).Done? && !ApplyOps(ns, ops).Done?
    ensures n <= i < |ops| && ApplyOps(ns, ops[..i]).Done? && !Converts(ops[i])
    ensures StopsAt(ApplyOps(ns, ops[..i]).nodes, ops[i], ApplyOps(ns, ops))
    decreases |ops| - n
  {
    assert ops[..|ops|] == ops;
    var g := ApplyOps(ns, ops[..n]).nodes;
    ApplyOneMore(ns, ops, n);
    if ApplyOp(g, ops[n]).Done? {
      i := AcceptedPatchStopsAt(ns, ops, n + 1);
    } else {
      i := n;
      AcceptedPrefix(ns, ops, n);
      OpStops(ns, g, ops[n]);
      StoppedStays(ns, ops, n + 1);
    }
  }

  lemma AcceptedPrefix(ns: seq<Node>, ops: seq<PatchOp>, n: nat)
    requires UniqueIds(ns) && Accepted(ns, ops) && n <= |ops|
    ensures n < |ops| ==> Valid(ns, ops[n])
    ensures GraphKept(ns, ApplyOps(ns, ops[..n]).nodes)
  {
    AcceptedOps(ns, ops);
    AcceptedOps(ns, ops[..n]);
    AcceptedPatchKeepsGraph(ns, ops[..n]);
  }

  lemma {:induction false} StoppedStays(ns: seq<Node>, ops: seq<PatchOp>, n: nat)
    requires n <= |ops| && !ApplyOps(ns, ops[..n]).Done?
    ensures ApplyOps(ns, ops) == ApplyOps(ns, ops[..n])
    decreases |ops| - n
  {
    if n == |ops| {
      assert ops[..n] == ops;
    } else {
      ApplyOneMore(ns, ops, n);
      StoppedStays(ns, ops, n + 1);
    }
  }

  /** After the patch a current node that is known, or none, stays current, and no node is touched. */
  lemma KnownCurrentStays(ns: seq<Node>, current: string)
    requires current == "" || Known(ns, current)
    ensures SettledCurrent(ns, current) == current && Settle(ns, current) == ns
  {
    KnownId(ns, current);
  }

  /**
   * An unknown one gives way to the first node that may start, with two retries allowed, or to none;
   * the scan for it blocks only nodes that a failure or an unknown id keeps from running.
   */
  lemma UnknownCurrentIsReplaced(ns: seq<Node>, current: string)
    requires current != "" && !Known(ns, current)
    ensures forall k: nat | MayStart(ns, k, 2) && (forall j: nat | j < k :: !MayStart(ns, j, 2)) :: SettledCurrent(ns, current) == ns[k].id
    ensures (forall k: nat :: !MayStart(ns, k, 2)) ==> SettledCurrent(ns, current) == ""
    ensures |Settle(ns, current)| == |ns|
    ensures forall k: nat | k < |ns| ::
      Settle(ns, current)[k] == ns[k] || (Settle(ns, current)[k] == ns[k].(status := Blocked) && Blamed(ns, k))
  {
    ScanBlocksOnlyBlamed(ns, 2, 1, {});
    var scan := Scan(ns, 2, 1, {});
    assert FirstIndex(ns, current).None?;
    if scan.picked == [] {
      ScanSelectsExactly(ns, 2, 1, {});
    } else {
      OnePick(ns, scan.picked);
    }
  }

  lemma OnePick(ns: seq<Node>, picked: seq<nat>)
    requires picked != [] && picked == Scan(ns, 2, 1, {}).picked
    ensures MayStart(ns, picked[0], 2) && forall j: nat | j < picked[0] :: !MayStart(ns, j, 2)
  {
    ScanSelectsExactly(ns, 2, 1, {});
    assert picked[0] in picked;
    forall j: nat | j < picked[0] ensures !MayStart(ns, j, 2) {
      assert forall i | 0 <= i < |picked| :: picked[0] <= picked[i];
    }
  }
}
