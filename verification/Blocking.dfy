/** What one scan of `next_runnable_nodes` selects and what it blocks. */
module Blocking {
  import opened Option
  import opened TaskGraph

  // ---------------------------------------------------------------- selection

  ghost predicate Runnable(ns: seq<Node>, i: nat, maxRetries: int, exclude: set<string>)
    requires i < |ns|
  {
    ns[i].id !in exclude && DependenciesPassed(ns, ns[i]) && IsRunnableStatus(ns[i], maxRetries)
  }

  /** The runnable nodes from position `i` on, in list order, judged on the graph as the scan found it. */
  ghost function RunnableFrom(ns: seq<Node>, i: nat, maxRetries: int, exclude: set<string>): (r: seq<nat>)
    requires i <= |ns|
    ensures forall k :: k in r <==> i <= k < |ns| && Runnable(ns, k, maxRetries, exclude)
    ensures forall a, b | 0 <= a < b < |r| :: r[a] < r[b]
    decreases |ns| - i
  {
    if i == |ns| then []
    else
      var rest := RunnableFrom(ns, i + 1, maxRetries, exclude);
      assert forall b | 0 <= b < |rest| :: rest[b] in rest;
      if Runnable(ns, i, maxRetries, exclude) then [i] + rest else rest
  }

  function Truncate(s: seq<nat>, n: int): seq<nat> {
    if n < 0 then [] else if n < |s| then s[..n] else s
  }

  function AtLeastOne(n: int): int {
    if n < 1 then 1 else n
  }

  /** The nodes a scan has turned so far: PENDING ones became BLOCKED, nothing else moved. */
  ghost predicate OnlyBlocked(ns0: seq<Node>, ns: seq<Node>) {
    |ns| == |ns0| &&
    forall k | 0 <= k < |ns| :: ns[k] == ns0[k] || (ns0[k].status == Pending && ns[k] == ns0[k].(status := Blocked))
  }

  lemma PassedIsStable(ns0: seq<Node>, ns: seq<Node>, n: Node)
    requires OnlyBlocked(ns0, ns)
    ensures DependenciesPassed(ns, n) == DependenciesPassed(ns0, n)
    ensures HasUnknownDependency(ns, n) == HasUnknownDependency(ns0, n)
  {
    forall d ensures LastIndex(ns, d) == LastIndex(ns0, d) {
      SameLastIndex(ns, ns0, d);
    }
  }

  lemma JudgeIsPick(ns0: seq<Node>, ns: seq<Node>, i: nat, maxRetries: int, exclude: set<string>)
    requires OnlyBlocked(ns0, ns) && i < |ns| && ns[i] == ns0[i]
    ensures Judge(ns, i, maxRetries, exclude) == Pick <==> Runnable(ns0, i, maxRetries, exclude)
  {
    PassedIsStable(ns0, ns, ns[i]);
  }

  lemma OneMoreBlocked(ns0: seq<Node>, ns: seq<Node>, i: nat, maxRetries: int, exclude: set<string>)
    requires OnlyBlocked(ns0, ns) && i < |ns| && ns[i] == ns0[i] && Judge(ns, i, maxRetries, exclude) == Block
    ensures OnlyBlocked(ns0, SetStatus(ns, i, Blocked))
    ensures forall k | 0 <= k < |ns| && k != i :: SetStatus(ns, i, Blocked)[k] == ns[k]
  {
  }

  /** The first `room` of them (one at least), counted off as the scan goes. */
  ghost function PicksFrom(ns: seq<Node>, i: nat, room: int, maxRetries: int, exclude: set<string>): seq<nat>
    requires i <= |ns|
    decreases |ns| - i
  {
    if i == |ns| then []
    else if !Runnable(ns, i, maxRetries, exclude) then PicksFrom(ns, i + 1, room, maxRetries, exclude)
    else if room <= 1 then [i]
    else [i] + PicksFrom(ns, i + 1, room - 1, maxRetries, exclude)
  }

  lemma {:induction false} PicksAreFirst(ns: seq<Node>, i: nat, room: int, maxRetries: int, exclude: set<string>)
    requires i <= |ns| && room >= 1
    ensures PicksFrom(ns, i, room, maxRetries, exclude) == Truncate(RunnableFrom(ns, i, maxRetries, exclude), room)
    decreases |ns| - i
  {
    if i < |ns| {
      if !Runnable(ns, i, maxRetries, exclude) {
        PicksAreFirst(ns, i + 1, room, maxRetries, exclude);
      } else if room > 1 {
        PicksAreFirst(ns, i + 1, room - 1, maxRetries, exclude);
      }
    }
  }

  lemma {:induction false} ScanFromPicks(ns0: seq<Node>, ns: seq<Node>, i: nat, picked: seq<nat>, maxRetries: int, limit: int, exclude: set<string>)
    requires OnlyBlocked(ns0, ns) && i <= |ns| && forall k | i <= k < |ns| :: ns[k] == ns0[k]
    requires |picked| < AtLeastOne(limit)
    ensures ScanFrom(ns, i, picked, maxRetries, limit, exclude).picked
      == picked + PicksFrom(ns0, i, AtLeastOne(limit) - |picked|, maxRetries, exclude)
    decreases |ns| - i
  {
    if i == |ns| { return; }
    JudgeIsPick(ns0, ns, i, maxRetries, exclude);
    match Judge(ns, i, maxRetries, exclude)
    case Leave => ScanFromPicks(ns0, ns, i + 1, picked, maxRetries, limit, exclude);
    case Block =>
      OneMoreBlocked(ns0, ns, i, maxRetries, exclude);
      ScanFromPicks(ns0, SetStatus(ns, i, Blocked), i + 1, picked, maxRetries, limit, exclude);
    case Pick =>
      if |picked| + 1 < limit {
        ScanFromPicks(ns0, ns, i + 1, picked + [i], maxRetries, limit, exclude);
      }
  }

  /**
   * The scan selects exactly the first `limit` nodes that were runnable when it began, in list
   * order, whatever it blocks on the way; a limit below one still selects one node.
   */
  lemma ScanPicksFirstRunnable(ns: seq<Node>, maxRetries: int, limit: int, exclude: set<string>)
    ensures Scan(ns, maxRetries, limit, exclude).picked
      == Truncate(RunnableFrom(ns, 0, maxRetries, exclude), AtLeastOne(limit))
  {
    ScanFromPicks(ns, ns, 0, [], maxRetries, limit, exclude);
    PicksAreFirst(ns, 0, AtLeastOne(limit), maxRetries, exclude);
  }

  // ---------------------------------------------------------------- blocking: only along a chain of blame

  /**
   * Nodes joined by dependencies, all PENDING up to the last one; the last one is FAILED or
   * BLOCKED, or is itself PENDING with a dependency nobody declares.
   */
  ghost predicate BlameChain(ns: seq<Node>, p: seq<nat>) {
    && |p| > 0
    && (forall k | 0 <= k < |p| :: p[k] < |ns|)
    && (forall k | 0 <= k < |p| - 1 :: ns[p[k]].status == Pending && DependsOn(ns, p[k], p[k + 1]))
    && var last := ns[p[|p| - 1]];
       if last.status == Pending then HasUnknownDependency(ns, last) else IsTerminalFailure(last.status)
  }

  ghost predicate DependsOn(ns: seq<Node>, i: nat, j: nat)
    requires i < |ns| && j < |ns|
  {
    exists d | d in ns[i].dependencies :: LastIndex(ns, d) == Some(j)
  }

  /** A PENDING node that a failure or an unknown dependency will keep from ever running. */
  ghost predicate Doomed(ns: seq<Node>, i: nat) {
    i < |ns| && ns[i].status == Pending && exists p :: BlameChain(ns, p) && p[0] == i
  }

  lemma ChainTail(ns: seq<Node>, p: seq<nat>)
    requires BlameChain(ns, p) && |p| > 1
    ensures BlameChain(ns, p[1..]) && DependsOn(ns, p[0], p[1])
  {
    var q := p[1..];
    assert forall k | 0 <= k < |q| :: q[k] == p[k + 1];
    forall k | 0 <= k < |q| - 1 ensures ns[q[k]].status == Pending && DependsOn(ns, q[k], q[k + 1]) {
      assert DependsOn(ns, p[k + 1], p[k + 1 + 1]);
    }
    assert DependsOn(ns, p[0], p[0 + 1]);
  }

  lemma ChainCons(ns: seq<Node>, i: nat, q: seq<nat>)
    requires i < |ns| && ns[i].status == Pending && BlameChain(ns, q) && DependsOn(ns, i, q[0])
    ensures BlameChain(ns, [i] + q)
  {
    var p := [i] + q;
    assert forall k | 1 <= k < |p| :: p[k] == q[k - 1];
    assert p[|p| - 1] == q[|q| - 1];
    forall k | 0 <= k < |p| - 1 ensures ns[p[k]].status == Pending && DependsOn(ns, p[k], p[k + 1]) {
      if k > 0 { assert DependsOn(ns, q[k - 1], q[k - 1 + 1]); }
    }
  }

  ghost predicate Cursed(ns: seq<Node>, j: nat) {
    j < |ns| && (IsTerminalFailure(ns[j].status) || Doomed(ns, j))
  }

  /** A doomed node has an unknown dependency or depends on a node as badly off. */
  lemma DoomedCause(ns: seq<Node>, i: nat) returns (j: nat)
    requires Doomed(ns, i)
    ensures HasUnknownDependency(ns, ns[i]) || (Cursed(ns, j) && DependsOn(ns, i, j))
  {
    var p :| BlameChain(ns, p) && p[0] == i;
    j := 0;
    if |p| > 1 {
      ChainTail(ns, p);
      j := p[1];
      var q := p[1..];
      assert q[0] == j && BlameChain(ns, q);
      assert |q| == 1 || ns[q[0]].status == Pending;
    }
  }

  lemma DoomedByUnknown(ns: seq<Node>, i: nat)
    requires i < |ns| && ns[i].status == Pending && HasUnknownDependency(ns, ns[i])
    ensures Doomed(ns, i)
  {
    assert BlameChain(ns, [i]);
  }

  lemma DoomedByDependency(ns: seq<Node>, i: nat, j: nat)
    requires i < |ns| && ns[i].status == Pending && Cursed(ns, j) && DependsOn(ns, i, j)
    ensures Doomed(ns, i)
  {
    var q: seq<nat>;
    if IsTerminalFailure(ns[j].status) {
      q := [j];
    } else {
      q :| BlameChain(ns, q) && q[0] == j;
    }
    ChainCons(ns, i, q);
    assert ([i] + q)[0] == i;
  }

  /** Everything turned so far was doomed at entry. */
  ghost predicate BlockedWereDoomed(ns0: seq<Node>, ns: seq<Node>)
    requires |ns| == |ns0|
  {
    forall k | 0 <= k < |ns| && ns[k] != ns0[k] :: Doomed(ns0, k)
  }

  lemma BlockIsDeserved(ns0: seq<Node>, ns: seq<Node>, i: nat, maxRetries: int, exclude: set<string>)
    requires OnlyBlocked(ns0, ns) && BlockedWereDoomed(ns0, ns)
    requires i < |ns| && ns[i] == ns0[i] && Judge(ns, i, maxRetries, exclude) == Block
    ensures Doomed(ns0, i)
  {
    PassedIsStable(ns0, ns, ns[i]);
    if HasUnknownDependency(ns0, ns0[i]) {
      DoomedByUnknown(ns0, i);
    } else {
      var d :| d in ns[i].dependencies && LastIndex(ns, d).Some? && IsTerminalFailure(ns[LastIndex(ns, d).value].status);
      SameLastIndex(ns, ns0, d);
      DoomedByDependency(ns0, i, LastIndex(ns0, d).value);
    }
  }

  /** Only doomed nodes were blocked, and none that is excluded. */
  ghost predicate BlockedFairly(ns0: seq<Node>, ns: seq<Node>, exclude: set<string>) {
    OnlyBlocked(ns0, ns) && BlockedWereDoomed(ns0, ns) && forall k | 0 <= k < |ns| && ns0[k].id in exclude :: ns[k] == ns0[k]
  }

  lemma OneMoreIsFair(ns0: seq<Node>, ns: seq<Node>, i: nat, maxRetries: int, exclude: set<string>)
    requires BlockedFairly(ns0, ns, exclude) && i < |ns| && ns[i] == ns0[i] && Judge(ns, i, maxRetries, exclude) == Block
    ensures BlockedFairly(ns0, SetStatus(ns, i, Blocked), exclude)
  {
    BlockIsDeserved(ns0, ns, i, maxRetries, exclude);
    OneMoreBlocked(ns0, ns, i, maxRetries, exclude);
  }

  lemma {:induction false} ScanFromBlocks(ns0: seq<Node>, ns: seq<Node>, i: nat, picked: seq<nat>, maxRetries: int, limit: int, exclude: set<string>)
    requires BlockedFairly(ns0, ns, exclude) && i <= |ns| && forall k | i <= k < |ns| :: ns[k] == ns0[k]
    ensures BlockedFairly(ns0, ScanFrom(ns, i, picked, maxRetries, limit, exclude).nodes, exclude)
    decreases |ns| - i
  {
    if i < |ns| {
      match Judge(ns, i, maxRetries, exclude)
      case Leave => ScanFromBlocks(ns0, ns, i + 1, picked, maxRetries, limit, exclude);
      case Block =>
        OneMoreIsFair(ns0, ns, i, maxRetries, exclude);
        ScanFromBlocks(ns0, SetStatus(ns, i, Blocked), i + 1, picked, maxRetries, limit, exclude);
      case Pick =>
        if |picked| + 1 < limit {
          ScanFromBlocks(ns0, ns, i + 1, picked + [i], maxRetries, limit, exclude);
        }
    }
  }

  /**
   * A scan of any list, with any limit and exclusions, changes nothing but PENDING to BLOCKED,
   * and that only on nodes outside the exclusions that a chain of PENDING nodes ties to a node
   * failed or blocked at entry, or to an unknown dependency.
   */
  lemma ScanBlocksOnlyDoomed(ns: seq<Node>, maxRetries: int, limit: int, exclude: set<string>)
    ensures var r := Scan(ns, maxRetries, limit, exclude).nodes;
      |r| == |ns| && forall k | 0 <= k < |ns| ::
        r[k] == ns[k] || (r[k] == ns[k].(status := Blocked) && Doomed(ns, k) && ns[k].id !in exclude)
  {
    ScanFromBlocks(ns, ns, 0, [], maxRetries, limit, exclude);
  }

  lemma NoneRunnable(ns: seq<Node>, maxRetries: int)
    ensures RunnableFrom(ns, 0, maxRetries, {}) == [] <==> forall k | 0 <= k < |ns| :: !Runnable(ns, k, maxRetries, {})
  {
    var r := RunnableFrom(ns, 0, maxRetries, {});
    if r != [] { assert r[0] in r; }
  }

  /** Where nothing can run, a scan does not make anything runnable. */
  lemma NothingRunnableStays(ns: seq<Node>, maxRetries: int)
    requires Scan(ns, maxRetries, 1, {}).picked == []
    ensures Scan(Scan(ns, maxRetries, 1, {}).nodes, maxRetries, 1, {}).picked == []
  {
    var r := Scan(ns, maxRetries, 1, {}).nodes;
    ScanFromBlocks(ns, ns, 0, [], maxRetries, 1, {});
    ScanPicksFirstRunnable(ns, maxRetries, 1, {});
    ScanPicksFirstRunnable(r, maxRetries, 1, {});
    NoneRunnable(ns, maxRetries);
    NoneRunnable(r, maxRetries);
    forall k | 0 <= k < |r| ensures !Runnable(r, k, maxRetries, {}) {
      assert !Runnable(ns, k, maxRetries, {});
      PassedIsStable(ns, r, r[k]);
    }
  }

  lemma RunnableIsNotDoomed(ns: seq<Node>, i: nat, maxRetries: int, exclude: set<string>)
    requires i < |ns| && Runnable(ns, i, maxRetries, exclude)
    ensures !Doomed(ns, i)
  {
    if Doomed(ns, i) { var j := DoomedCause(ns, i); }
  }

  /** What a scan selects was runnable at entry, and the scan leaves it as it was. */
  lemma PickedIsRunnable(ns: seq<Node>, maxRetries: int, limit: int, exclude: set<string>, k: nat)
    requires k in Scan(ns, maxRetries, limit, exclude).picked
    ensures k < |ns| && Runnable(ns, k, maxRetries, exclude)
    ensures var r := Scan(ns, maxRetries, limit, exclude).nodes; |r| == |ns| && r[k] == ns[k]
  {
    ScanPicksFirstRunnable(ns, maxRetries, limit, exclude);
    ScanBlocksOnlyDoomed(ns, maxRetries, limit, exclude);
    assert k in RunnableFrom(ns, 0, maxRetries, exclude);
    RunnableIsNotDoomed(ns, k, maxRetries, exclude);
  }

  // ---------------------------------------------------------------- blocking: complete in topological order

  /** Every known dependency stands earlier in the list. */
  ghost predicate TopologicallyOrdered(ns: seq<Node>) {
    forall i: nat, j: nat | i < |ns| && j < |ns| && DependsOn(ns, i, j) :: j < i
  }

  /** The first `n` nodes are settled: whatever was doomed among them is BLOCKED by now. */
  ghost predicate SettledTo(ns0: seq<Node>, ns: seq<Node>, n: nat)
    requires |ns| == |ns0|
  {
    forall k | 0 <= k < |ns| && k < n :: Doomed(ns0, k) ==> ns[k].status == Blocked
  }

  lemma DoomedIsJudgedBlock(ns0: seq<Node>, ns: seq<Node>, i: nat, maxRetries: int)
    requires TopologicallyOrdered(ns0) && OnlyBlocked(ns0, ns) && SettledTo(ns0, ns, i)
    requires i < |ns| && ns[i] == ns0[i] && Doomed(ns0, i)
    ensures Judge(ns, i, maxRetries, {}) == Block
  {
    PassedIsStable(ns0, ns, ns[i]);
    var j := DoomedCause(ns0, i);
    if !HasUnknownDependency(ns0, ns0[i]) {
      var d :| d in ns0[i].dependencies && LastIndex(ns0, d) == Some(j);
      SameLastIndex(ns, ns0, d);
      assert IsTerminalFailure(ns[j].status);
    }
  }

  lemma {:induction false} ScanFromSettles(ns0: seq<Node>, ns: seq<Node>, i: nat, picked: seq<nat>, maxRetries: int, limit: int)
    requires TopologicallyOrdered(ns0) && OnlyBlocked(ns0, ns)
    requires i <= |ns| && SettledTo(ns0, ns, i) && forall k | i <= k < |ns| :: ns[k] == ns0[k]
    requires |picked| + |RunnableFrom(ns0, i, maxRetries, {})| < AtLeastOne(limit)
    ensures var r := ScanFrom(ns, i, picked, maxRetries, limit, {}).nodes;
      |r| == |ns0| && SettledTo(ns0, r, |ns0|)
    decreases |ns| - i
  {
    if i == |ns| { return; }
    JudgeIsPick(ns0, ns, i, maxRetries, {});
    if Doomed(ns0, i) {
      DoomedIsJudgedBlock(ns0, ns, i, maxRetries);
    }
    var verdict := Judge(ns, i, maxRetries, {});
    if verdict == Block {
      ScanFromSettles(ns0, SetStatus(ns, i, Blocked), i + 1, picked, maxRetries, limit);
    } else {
      ScanFromSettles(ns0, ns, i + 1, if verdict == Pick then picked + [i] else picked, maxRetries, limit);
    }
  }

  /** No limit cuts the scan short: fewer nodes are runnable than it may select. */
  ghost predicate Unbroken(ns: seq<Node>, maxRetries: int, limit: int) {
    |RunnableFrom(ns, 0, maxRetries, {})| < AtLeastOne(limit)
  }

  /**
   * In a topologically ordered list, one unbroken scan with nothing excluded blocks exactly the
   * doomed nodes.
   */
  lemma ScanBlocksExactlyDoomed(ns: seq<Node>, maxRetries: int, limit: int)
    requires TopologicallyOrdered(ns) && Unbroken(ns, maxRetries, limit)
    ensures var r := Scan(ns, maxRetries, limit, {}).nodes;
      |r| == |ns| && forall k | 0 <= k < |ns| ::
        r[k] == if Doomed(ns, k) then ns[k].(status := Blocked) else ns[k]
  {
    ScanFromBlocks(ns, ns, 0, [], maxRetries, limit, {});
    ScanFromSettles(ns, ns, 0, [], maxRetries, limit);
  }

  lemma {:induction false} NothingToBlock(ns: seq<Node>, i: nat, picked: seq<nat>, maxRetries: int, limit: int)
    requires i <= |ns| && forall k | 0 <= k < |ns| :: !Doomed(ns, k)
    ensures ScanFrom(ns, i, picked, maxRetries, limit, {}).nodes == ns
    decreases |ns| - i
  {
    if i < |ns| {
      if Judge(ns, i, maxRetries, {}) == Block { BlockIsDeserved(ns, ns, i, maxRetries, {}); }
      match Judge(ns, i, maxRetries, {})
      case Leave => NothingToBlock(ns, i + 1, picked, maxRetries, limit);
      case Block =>
      case Pick =>
        if |picked| + 1 < limit { NothingToBlock(ns, i + 1, picked + [i], maxRetries, limit); }
    }
  }

  /** After such a scan nobody is doomed any more. */
  lemma ScanLeavesNobodyDoomed(ns: seq<Node>, maxRetries: int, limit: int)
    requires TopologicallyOrdered(ns) && Unbroken(ns, maxRetries, limit)
    ensures forall k: nat :: !Doomed(Scan(ns, maxRetries, limit, {}).nodes, k)
  {
    var r := Scan(ns, maxRetries, limit, {}).nodes;
    ScanBlocksExactlyDoomed(ns, maxRetries, limit);
    forall k: nat ensures !Doomed(r, k) {
      if Doomed(r, k) {
        DoomedEarlier(ns, r, k);
      }
    }
  }

  /** Blocking doomed nodes dooms nobody new. */
  lemma {:induction false} ChainEarlier(ns: seq<Node>, r: seq<Node>, p: seq<nat>)
    requires OnlyBlocked(ns, r) && BlockedWereDoomed(ns, r) && BlameChain(r, p)
    ensures Cursed(ns, p[0])
  {
    forall n ensures HasUnknownDependency(r, n) == HasUnknownDependency(ns, n) { PassedIsStable(ns, r, n); }
    if |p| == 1 {
      if r[p[0]].status == Pending { DoomedByUnknown(ns, p[0]); }
    } else {
      ChainTail(r, p);
      ChainEarlier(ns, r, p[1..]);
      var d :| d in r[p[0]].dependencies && LastIndex(r, d) == Some(p[1]);
      SameLastIndex(ns, r, d);
      DoomedByDependency(ns, p[0], p[1]);
    }
  }

  lemma DoomedEarlier(ns: seq<Node>, r: seq<Node>, k: nat)
    requires OnlyBlocked(ns, r) && BlockedWereDoomed(ns, r) && Doomed(r, k)
    ensures Doomed(ns, k)
  {
    var p :| BlameChain(r, p) && p[0] == k;
    ChainEarlier(ns, r, p);
  }

  /** The scan is a fixpoint: a second one, whatever its limit, changes no node. */
  lemma SecondScanChangesNothing(ns: seq<Node>, maxRetries: int, limit: int, secondLimit: int)
    requires TopologicallyOrdered(ns) && Unbroken(ns, maxRetries, limit)
    ensures var r := Scan(ns, maxRetries, limit, {}).nodes;
      Scan(r, maxRetries, secondLimit, {}).nodes == r
  {
    ScanLeavesNobodyDoomed(ns, maxRetries, limit);
    NothingToBlock(Scan(ns, maxRetries, limit, {}).nodes, 0, [], maxRetries, secondLimit);
  }
}
