/**
 * Budgeted selection of patches for the reviewer (src/cc_loop/diff.py).
 *
 * `File` carries what git and the name tests say about one changed file; `size` is the length of
 * its patch in bytes, 0 when there is no patch text.  The list is in priority order.
 */
module PatchSelection {

  datatype File = File(path: string, isTest: bool, isSource: bool, isLockfile: bool, isGenerated: bool, size: nat)

  /** `_priority`: a generated lockfile or source file still ranks by the first test it meets. */
  function Priority(f: File): nat {
    if f.isTest then 0 else if f.isSource then 1 else if f.isLockfile then 4 else if f.isGenerated then 5 else 3
  }

  predicate Eligible(f: File) {
    !f.isLockfile && !f.isGenerated && f.size > 0
  }

  datatype Omission = LockfileOmitted(path: string) | GeneratedOmitted(path: string) | BudgetOmitted(path: string)

  /** One pass of the loop over the sorted files, from position `i` with `used` bytes spent. */
  function Greedy(files: seq<File>, i: nat, used: int, maxBytes: int): (chosen: seq<bool>)
    requires i <= |files|
    ensures |chosen| == |files| - i
    decreases |files| - i
  {
    if i == |files| then []
    else
      var take := Eligible(files[i]) && used + files[i].size <= maxBytes;
      [take] + Greedy(files, i + 1, if take then used + files[i].size else used, maxBytes)
  }

  function Bytes(files: seq<File>, i: nat, chosen: seq<bool>): (n: nat)
    requires i + |chosen| == |files|
    decreases |chosen|
  {
    if chosen == [] then 0
    else (if chosen[0] then files[i].size else 0) + Bytes(files, i + 1, chosen[1..])
  }

  function Paths(files: seq<File>, i: nat, chosen: seq<bool>): seq<string>
    requires i + |chosen| == |files|
    decreases |chosen|
  {
    if chosen == [] then [] else (if chosen[0] then [files[i].path] else []) + Paths(files, i + 1, chosen[1..])
  }

  function OmissionOf(f: File): seq<Omission> {
    if f.isLockfile then [LockfileOmitted(f.path)]
    else if f.isGenerated then [GeneratedOmitted(f.path)]
    else if f.size == 0 then []
    else [BudgetOmitted(f.path)]
  }

  function Omissions(files: seq<File>, i: nat, chosen: seq<bool>): seq<Omission>
    requires i + |chosen| == |files|
    decreases |chosen|
  {
    if chosen == [] then [] else (if chosen[0] then [] else OmissionOf(files[i])) + Omissions(files, i + 1, chosen[1..])
  }

  /** What one file contributes to the four results. */
  lemma GreedyStep(files: seq<File>, i: nat, used: int, maxBytes: int)
    requires i < |files|
    ensures var g := Greedy(files, i, used, maxBytes);
      var take := Eligible(files[i]) && used + files[i].size <= maxBytes;
      var rest := Greedy(files, i + 1, if take then used + files[i].size else used, maxBytes);
      && g == [take] + rest
      && Bytes(files, i, g) == (if take then files[i].size else 0) + Bytes(files, i + 1, rest)
      && Paths(files, i, g) == (if take then [files[i].path] else []) + Paths(files, i + 1, rest)
      && Omissions(files, i, g) == (if take then [] else OmissionOf(files[i])) + Omissions(files, i + 1, rest)
  {
    var take := Eligible(files[i]) && used + files[i].size <= maxBytes;
    var rest := Greedy(files, i + 1, if take then used + files[i].size else used, maxBytes);
    assert Greedy(files, i, used, maxBytes)[1..] == rest;
  }

  datatype Collected = Collected(selected: seq<string>, omitted: seq<Omission>, used: int)

  /** The loop's variables at the end, from those before file `i`. */
  ghost function Finish(files: seq<File>, i: nat, sofar: Collected, maxBytes: int): Collected
    requires i <= |files|
  {
    var g := Greedy(files, i, sofar.used, maxBytes);
    Collected(sofar.selected + Paths(files, i, g), sofar.omitted + Omissions(files, i, g), sofar.used + Bytes(files, i, g))
  }

  lemma FinishStep(files: seq<File>, i: nat, sofar: Collected, maxBytes: int)
    requires i < |files|
    ensures var f := files[i];
      Finish(files, i, sofar, maxBytes) == Finish(files, i + 1,
        if Eligible(f) && sofar.used + f.size <= maxBytes then sofar.(selected := sofar.selected + [f.path], used := sofar.used + f.size)
        else sofar.(omitted := sofar.omitted + OmissionOf(f)), maxBytes)
  {
    GreedyStep(files, i, sofar.used, maxBytes);
  }

  /** The program's loop: selected paths, omissions with their reason, and the bytes used. */
  method Collect(files: seq<File>, maxBytes: int) returns (selected: seq<string>, omitted: seq<Omission>, used: int)
    ensures var chosen := Greedy(files, 0, 0, maxBytes);
      used == Bytes(files, 0, chosen) && selected == Paths(files, 0, chosen) && omitted == Omissions(files, 0, chosen)
  {
    selected, omitted, used := [], [], 0;
    for i := 0 to |files|
      invariant Finish(files, i, Collected(selected, omitted, used), maxBytes) == Finish(files, 0, Collected([], [], 0), maxBytes)
    {
      FinishStep(files, i, Collected(selected, omitted, used), maxBytes);
      var f := files[i];
      if f.isLockfile {
        omitted := omitted + [LockfileOmitted(f.path)];
      } else if f.isGenerated {
        omitted := omitted + [GeneratedOmitted(f.path)];
      } else if f.size == 0 {
        assert omitted + [] == omitted;
      } else if used + f.size > maxBytes {
        omitted := omitted + [BudgetOmitted(f.path)];
      } else {
        selected, used := selected + [f.path], used + f.size;
      }
    }
    assert forall s: seq<string> :: [] + s == s;
    assert forall s: seq<Omission> :: [] + s == s;
  }

  // ---------------------------------------------------------------- optimality

  /** A selection a reviewer could be given: eligible files whose sizes fit the budget. */
  ghost predicate Feasible(files: seq<File>, i: nat, used: int, maxBytes: int, b: seq<bool>)
    requires i + |b| == |files|
  {
    (forall k | 0 <= k < |b| && b[k] :: Eligible(files[i + k])) &&
    (used + Bytes(files, i, b) <= maxBytes || forall k | 0 <= k < |b| :: !b[k])
  }

  /** Lexicographic order of selections: the first file they differ on is in `b`. */
  ghost predicate LexBelow(a: seq<bool>, b: seq<bool>)
    requires |a| == |b|
  {
    a == b || exists k :: 0 <= k < |a| && a[..k] == b[..k] && !a[k] && b[k]
  }

  lemma {:induction false} NothingChosen(files: seq<File>, i: nat, b: seq<bool>)
    requires i + |b| == |files| && forall k | 0 <= k < |b| :: !b[k]
    ensures Bytes(files, i, b) == 0
    decreases |b|
  {
    if b != [] { NothingChosen(files, i + 1, b[1..]); }
  }

  lemma FeasibleTail(files: seq<File>, i: nat, used: int, maxBytes: int, b: seq<bool>)
    requires i + |b| == |files| && b != [] && Feasible(files, i, used, maxBytes, b)
    ensures Feasible(files, i + 1, if b[0] then used + files[i].size else used, maxBytes, b[1..])
    ensures b[0] ==> Eligible(files[i]) && used + files[i].size <= maxBytes
  {
    var c := b[1..];
    forall k | 0 <= k < |c| && c[k] ensures Eligible(files[i + 1 + k]) { assert b[k + 1]; }
    if forall k | 0 <= k < |b| :: !b[k] { assert forall k | 0 <= k < |c| :: !c[k]; }
  }

  lemma LexCons(x: bool, a: seq<bool>, b: seq<bool>)
    requires |a| == |b| && LexBelow(a, b)
    ensures LexBelow([x] + a, [x] + b)
  {
    if a != b {
      var k :| 0 <= k < |a| && a[..k] == b[..k] && !a[k] && b[k];
      assert ([x] + a)[..k + 1] == [x] + a[..k] && ([x] + b)[..k + 1] == [x] + b[..k];
    }
  }

  /** The greedy selection is feasible and lexicographically the greatest of all feasible ones. */
  lemma {:induction false} GreedyIsGreatest(files: seq<File>, i: nat, used: int, maxBytes: int, b: seq<bool>)
    requires i + |b| == |files| && Feasible(files, i, used, maxBytes, b)
    ensures LexBelow(b, Greedy(files, i, used, maxBytes))
    decreases |b|
  {
    if b != [] {
      var g := Greedy(files, i, used, maxBytes);
      FeasibleTail(files, i, used, maxBytes, b);
      if b[0] == g[0] {
        GreedyIsGreatest(files, i + 1, if b[0] then used + files[i].size else used, maxBytes, b[1..]);
        LexCons(b[0], b[1..], g[1..]);
        assert b == [b[0]] + b[1..] && g == [b[0]] + g[1..];
      } else {
        assert b[..0] == g[..0];
      }
    }
  }

  lemma {:induction false} GreedyFits(files: seq<File>, i: nat, used: int, maxBytes: int)
    requires i <= |files|
    ensures var g := Greedy(files, i, used, maxBytes);
      && (forall k | 0 <= k < |g| && g[k] :: Eligible(files[i + k]))
      && ((exists k :: 0 <= k < |g| && g[k]) ==> used + Bytes(files, i, g) <= maxBytes)
      && (used <= maxBytes ==> used + Bytes(files, i, g) <= maxBytes)
    decreases |files| - i
  {
    if i < |files| {
      var take := Eligible(files[i]) && used + files[i].size <= maxBytes;
      GreedyFits(files, i + 1, if take then used + files[i].size else used, maxBytes);
      var g, tail := Greedy(files, i, used, maxBytes), Greedy(files, i + 1, if take then used + files[i].size else used, maxBytes);
      assert g == [take] + tail;
      assert forall k | 1 <= k < |g| :: g[k] == tail[k - 1];
    }
  }

  /**
   * The bytes used are the sizes selected, and at most the budget unless the budget is negative: then
   * nothing is selected.
   */
  lemma GreedyIsFeasible(files: seq<File>, maxBytes: int)
    ensures Feasible(files, 0, 0, maxBytes, Greedy(files, 0, 0, maxBytes))
    ensures Bytes(files, 0, Greedy(files, 0, 0, maxBytes)) <= if maxBytes < 0 then 0 else maxBytes
  {
    var g := Greedy(files, 0, 0, maxBytes);
    GreedyFits(files, 0, 0, maxBytes);
    if forall k | 0 <= k < |g| :: !g[k] { NothingChosen(files, 0, g); }
  }

  /** No file left out for its size would still fit when the loop is done. */
  lemma {:induction false} NothingLeftWouldFit(files: seq<File>, i: nat, used: int, maxBytes: int, k: nat)
    requires i <= k < |files| && Eligible(files[k]) && !Greedy(files, i, used, maxBytes)[k - i]
    ensures used + Bytes(files, i, Greedy(files, i, used, maxBytes)) + files[k].size > maxBytes
    decreases |files| - i
  {
    if k > i {
      var take := Eligible(files[i]) && used + files[i].size <= maxBytes;
      NothingLeftWouldFit(files, i + 1, if take then used + files[i].size else used, maxBytes, k);
    }
  }

  /** `has_mergeable_patches` */
  predicate HasMergeablePatches(files: seq<File>) {
    exists k | 0 <= k < |files| :: Eligible(files[k])
  }

  ghost predicate SelectsSome(chosen: seq<bool>) {
    exists k :: 0 <= k < |chosen| && chosen[k]
  }

  ghost predicate FitsAlone(files: seq<File>, i: nat, maxBytes: int) {
    exists k :: i <= k < |files| && Eligible(files[k]) && files[k].size <= maxBytes
  }

  method FindMergeable(files: seq<File>) returns (found: bool)
    ensures found == HasMergeablePatches(files)
  {
    for i := 0 to |files|
      invariant forall k | 0 <= k < i :: !Eligible(files[k])
    {
      if !files[i].isLockfile && !files[i].isGenerated && files[i].size > 0 {
        return true;
      }
    }
    return false;
  }

  /** Something is selected exactly when one eligible file fits the whole budget by itself. */
  lemma {:induction false} SelectionNonemptyExactlyWhen(files: seq<File>, i: nat, maxBytes: int)
    requires i <= |files|
    ensures SelectsSome(Greedy(files, i, 0, maxBytes)) <==> FitsAlone(files, i, maxBytes)
    decreases |files| - i
  {
    if i < |files| {
      GreedyStep(files, i, 0, maxBytes);
      var g := Greedy(files, i, 0, maxBytes);
      if Eligible(files[i]) && files[i].size <= maxBytes {
        assert g[0];
      } else {
        SelectionNonemptyExactlyWhen(files, i + 1, maxBytes);
        var tail := Greedy(files, i + 1, 0, maxBytes);
        assert g == [false] + tail;
        if k :| 0 <= k < |tail| && tail[k] { assert g[k + 1]; }
        if k :| 0 <= k < |g| && g[k] { assert tail[k - 1]; }
      }
    }
  }

  /** With a budget no file exceeds, the reviewer gets a patch exactly when there is one to merge. */
  lemma AmpleBudgetSelectsExactlyWhenMergeable(files: seq<File>, maxBytes: int)
    requires forall k | 0 <= k < |files| :: files[k].size <= maxBytes
    ensures SelectsSome(Greedy(files, 0, 0, maxBytes)) <==> HasMergeablePatches(files)
  {
    SelectionNonemptyExactlyWhen(files, 0, maxBytes);
  }

  // ---------------------------------------------------------------- the order of the list

  /** `sorted(files, key=_priority)`, as far as the first component of the key goes. */
  ghost predicate InPriorityOrder(files: seq<File>) {
    forall i, j | 0 <= i < j < |files| :: Priority(files[i]) <= Priority(files[j])
  }

  /** The bytes selected before place `k`. */
  function BytesBefore(files: seq<File>, i: nat, chosen: seq<bool>, k: nat): (n: nat)
    requires i + |chosen| == |files| && i <= k <= |files|
    decreases |chosen|
  {
    if i == k then 0 else (if chosen[0] then files[i].size else 0) + BytesBefore(files, i + 1, chosen[1..], k)
  }

  /** An eligible file is selected exactly when it fits beside what was selected before it. */
  lemma {:induction false} SelectedExactlyWhenItFits(files: seq<File>, i: nat, used: int, maxBytes: int, k: nat)
    requires i <= k < |files| && Eligible(files[k])
    ensures var g := Greedy(files, i, used, maxBytes);
      g[k - i] <==> used + BytesBefore(files, i, g, k) + files[k].size <= maxBytes
    decreases k - i
  {
    var g, take := Greedy(files, i, used, maxBytes), Eligible(files[i]) && used + files[i].size <= maxBytes;
    if i < k {
      var spent := if take then used + files[i].size else used;
      var tail := Greedy(files, i + 1, spent, maxBytes);
      SelectedExactlyWhenItFits(files, i + 1, spent, maxBytes, k);
      TailOf(g, take, tail, k - i);
      assert BytesBefore(files, i, g, k) == (if take then files[i].size else 0) + BytesBefore(files, i + 1, tail, k);
    }
  }

  lemma TailOf(g: seq<bool>, first: bool, tail: seq<bool>, n: nat)
    requires g == [first] + tail && 0 < n < |g|
    ensures g[0] == first && g[1..] == tail && g[n] == tail[n - 1]
  {
  }

  /** The bytes selected before place `k` in files of a priority at least as good as `rank`. */
  function BytesUpTo(files: seq<File>, i: nat, chosen: seq<bool>, k: nat, rank: nat): (n: nat)
    requires i + |chosen| == |files| && i <= k <= |files|
    decreases |chosen|
  {
    if i == k then 0
    else (if chosen[0] && Priority(files[i]) <= rank then files[i].size else 0) + BytesUpTo(files, i + 1, chosen[1..], k, rank)
  }

  lemma {:induction false} EarlierRanksNoLower(files: seq<File>, i: nat, chosen: seq<bool>, k: nat)
    requires InPriorityOrder(files) && i + |chosen| == |files| && i <= k < |files|
    ensures BytesUpTo(files, i, chosen, k, Priority(files[k])) == BytesBefore(files, i, chosen, k)
    decreases |chosen|
  {
    if i < k { EarlierRanksNoLower(files, i + 1, chosen[1..], k); }
  }

  /**
   * On the sorted list a file gives way only to better or equal ones: it is selected exactly when
   * it fits beside the files selected before it that rank at least as high as it does.
   */
  lemma SelectionRespectsPriority(files: seq<File>, maxBytes: int, k: nat)
    requires InPriorityOrder(files) && k < |files| && Eligible(files[k])
    ensures var g := Greedy(files, 0, 0, maxBytes);
      g[k] <==> BytesUpTo(files, 0, g, k, Priority(files[k])) + files[k].size <= maxBytes
  {
    SelectedExactlyWhenItFits(files, 0, 0, maxBytes, k);
    EarlierRanksNoLower(files, 0, Greedy(files, 0, 0, maxBytes), k);
  }

  // ---------------------------------------------------------------- what becomes of each file

  /**
   * Why a file that is not selected is left out: a lockfile first, then a generated file, then one that
   * does not fit; one without a patch is not mentioned.
   */
  predicate LeftOutAs(f: File, o: Omission) {
    match o
    case LockfileOmitted(path) => f.isLockfile && path == f.path
    case GeneratedOmitted(path) => !f.isLockfile && f.isGenerated && path == f.path
    case BudgetOmitted(path) => !f.isLockfile && !f.isGenerated && f.size > 0 && path == f.path
  }

  ghost predicate LeavesOut(files: seq<File>, i: nat, chosen: seq<bool>, k: nat, o: Omission) {
    k < |chosen| && i + |chosen| == |files| && !chosen[k] && LeftOutAs(files[i + k], o)
  }

  lemma LeftOutFirst(f: File, o: Omission)
    ensures o in OmissionOf(f) <==> LeftOutAs(f, o)
  {
  }

  lemma {:induction false} OmittedExactlyWhen(files: seq<File>, i: nat, chosen: seq<bool>, o: Omission)
    requires i + |chosen| == |files|
    ensures o in Omissions(files, i, chosen) <==> exists k: nat :: LeavesOut(files, i, chosen, k, o)
    decreases |chosen|
  {
    if chosen != [] {
      var next, rest := i + 1, chosen[1..];
      OmittedExactlyWhen(files, next, rest, o);
      LeftOutFirst(files[i], o);
      if o in OmissionOf(files[i]) && !chosen[0] {
        assert LeavesOut(files, i, chosen, 0, o);
      } else if k: nat :| LeavesOut(files, next, rest, k, o) {
        assert LeavesOut(files, i, chosen, k + 1, o);
      }
      if k: nat :| LeavesOut(files, i, chosen, k, o) && k > 0 {
        assert LeavesOut(files, next, rest, k - 1, o);
      }
    }
  }

  ghost predicate Selects(files: seq<File>, i: nat, chosen: seq<bool>, k: nat, path: string) {
    k < |chosen| && i + |chosen| == |files| && chosen[k] && files[i + k].path == path
  }

  lemma {:induction false} PathsAreChosen(files: seq<File>, i: nat, chosen: seq<bool>, path: string)
    requires i + |chosen| == |files|
    ensures path in Paths(files, i, chosen) <==> exists k: nat :: Selects(files, i, chosen, k, path)
    decreases |chosen|
  {
    if chosen != [] {
      var next, rest := i + 1, chosen[1..];
      PathsAreChosen(files, next, rest, path);
      if chosen[0] && path == files[i].path {
        assert Selects(files, i, chosen, 0, path);
      } else if k: nat :| Selects(files, next, rest, k, path) {
        assert Selects(files, i, chosen, k + 1, path);
      }
      if k: nat :| Selects(files, i, chosen, k, path) && k > 0 {
        assert Selects(files, next, rest, k - 1, path);
      }
    }
  }

  /**
   * Every file is accounted for.  A selected one is neither a lockfile nor generated, has a patch, and
   * fits beside those selected before it, and whichever is all that and fits is selected; each other
   * one is reported with the first reason that applies, and nothing else is reported.
   */
  lemma EveryFileIsAccountedFor(files: seq<File>, maxBytes: int)
    ensures var g := Greedy(files, 0, 0, maxBytes);
      && (forall k | 0 <= k < |files| ::
            g[k] <==>
              !files[k].isLockfile && !files[k].isGenerated && files[k].size > 0
              && BytesBefore(files, 0, g, k) + files[k].size <= maxBytes)
      && (forall path :: path in Paths(files, 0, g) <==> exists k: nat :: k < |files| && g[k] && files[k].path == path)
      && (forall o :: o in Omissions(files, 0, g) <==> exists k: nat :: k < |files| && !g[k] && LeftOutAs(files[k], o))
  {
    var g := Greedy(files, 0, 0, maxBytes);
    GreedyFits(files, 0, 0, maxBytes);
    forall k: nat | k < |files| && Eligible(files[k]) ensures g[k] <==> BytesBefore(files, 0, g, k) + files[k].size <= maxBytes {
      SelectedExactlyWhenItFits(files, 0, 0, maxBytes, k);
    }
    forall path ensures path in Paths(files, 0, g) <==> exists k: nat :: k < |files| && g[k] && files[k].path == path {
      PathsAreChosen(files, 0, g, path);
      assert forall k: nat :: Selects(files, 0, g, k, path) <==> k < |files| && g[k] && files[k].path == path;
    }
    forall o ensures o in Omissions(files, 0, g) <==> exists k: nat :: k < |files| && !g[k] && LeftOutAs(files[k], o) {
      OmittedExactlyWhen(files, 0, g, o);
      assert forall k: nat :: LeavesOut(files, 0, g, k, o) <==> k < |files| && !g[k] && LeftOutAs(files[k], o);
    }
  }

  /**
   * Tests go before sources, sources before what is neither, that before lockfiles, and lockfiles before
   * what is only generated.
   */
  lemma RanksFollowTheKind(f: File, g: File)
    ensures Priority(f) < Priority(g) <==>
      || (f.isTest && !g.isTest)
      || (!f.isTest && !g.isTest && f.isSource && !g.isSource)
      || (!f.isTest && !g.isTest && !f.isSource && !g.isSource && !f.isLockfile && !f.isGenerated && (g.isLockfile || g.isGenerated))
      || (!f.isTest && !g.isTest && !f.isSource && !g.isSource && f.isLockfile && !g.isLockfile && g.isGenerated)
  {
  }
}
