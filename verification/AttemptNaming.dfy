/** Names of an attempt's artifacts, worktree and branch (src/cc_loop/state.py, run.py). */
module AttemptNaming {

  // ---------------------------------------------------------------- decimal numbers

  function DigitChar(d: nat): char
    requires d < 10
  {
    ('0' as int + d) as char
  }

  predicate IsDigit(c: char) {
    '0' <= c <= '9'
  }

  predicate AllDigits(s: string) {
    forall k | 0 <= k < |s| :: IsDigit(s[k])
  }

  function Decimal(n: nat): (r: string)
    ensures r != [] && AllDigits(r)
  {
    if n < 10 then [DigitChar(n)] else Decimal(n / 10) + [DigitChar(n % 10)]
  }

  function Zeros(n: int): (r: string)
    ensures |r| == (if n < 0 then 0 else n) && forall k | 0 <= k < |r| :: r[k] == '0'
  {
    if n <= 0 then [] else ['0'] + Zeros(n - 1)
  }

  /** `format(n, "0<width>d")` */
  function Padded(n: nat, width: nat): (r: string)
    ensures r != [] && AllDigits(r)
  {
    Zeros(width - |Decimal(n)|) + Decimal(n)
  }

  function Value(s: string): int {
    if s == [] then 0 else 10 * Value(s[..|s| - 1]) + (s[|s| - 1] as int - '0' as int)
  }

  lemma {:induction false} DecimalValue(n: nat)
    ensures Value(Decimal(n)) == n
  {
    if n < 10 {
      assert Decimal(n)[..0] == [];
    } else {
      DecimalValue(n / 10);
      assert Decimal(n)[..|Decimal(n)| - 1] == Decimal(n / 10);
    }
  }

  lemma {:induction false} LeadingZero(s: string)
    ensures Value(['0'] + s) == Value(s)
  {
    if s == [] {
      assert (['0'] + s)[..0] == [];
    } else {
      LeadingZero(s[..|s| - 1]);
      assert (['0'] + s)[..|s|] == ['0'] + s[..|s| - 1];
    }
  }

  lemma {:induction false} ZerosKeepValue(n: int, s: string)
    ensures Value(Zeros(n) + s) == Value(s)
    decreases if n < 0 then 0 else n
  {
    if n <= 0 {
      assert Zeros(n) + s == s;
    } else {
      ZerosKeepValue(n - 1, s);
      LeadingZero(Zeros(n - 1) + s);
      assert Zeros(n) + s == ['0'] + (Zeros(n - 1) + s);
    }
  }

  /** Padding can be read back, whatever the width. */
  lemma PaddedValue(n: nat, width: nat)
    ensures Value(Padded(n, width)) == n
  {
    ZerosKeepValue(width - |Decimal(n)|, Decimal(n));
    DecimalValue(n);
  }

  // ---------------------------------------------------------------- names

  function IterationSuffix(iteration: nat, retry: nat): string {
    if retry == 0 then "iter-" + Padded(iteration, 3)
    else "iter-" + Padded(iteration, 3) + "-retry-" + Padded(retry, 2)
  }

  function ArtifactsDir(root: string, task: string, iteration: nat, retry: nat): string {
    root + "/tasks/" + task + "/artifacts/" + IterationSuffix(iteration, retry)
  }

  function WorktreePath(root: string, repo: string, task: string, iteration: nat, retry: nat): string {
    root + "/" + repo + "/" + task + "/" + IterationSuffix(iteration, retry)
  }

  /** `_merge_worktree_path`: the ephemeral worktree a merge uses. */
  function MergeWorktreePath(root: string, repo: string, task: string, iteration: nat, retry: nat): string {
    root + "/" + repo + "/" + task + "/" + "merge-iter-" + Padded(iteration, 3) + "-retry-" + Padded(retry, 2)
  }

  function BranchName(task: string, iteration: nat, retry: nat): string {
    "cc-loop/" + task + "/" + IterationSuffix(iteration, retry)
  }

  /** A run of digits ends where the first other character stands. */
  lemma DigitsEnd(a: string, x: string, b: string, y: string)
    requires AllDigits(a) && AllDigits(b)
    requires (x == [] || !IsDigit(x[0])) && (y == [] || !IsDigit(y[0]))
    requires a + x == b + y
    ensures a == b && x == y
  {
    NoShorter(a, x, b, y);
    NoShorter(b, y, a, x);
    assert a == (a + x)[..|a|] && b == (b + y)[..|b|];
    assert x == (a + x)[|a|..] && y == (b + y)[|b|..];
  }

  lemma NoShorter(a: string, x: string, b: string, y: string)
    requires AllDigits(b) && (x == [] || !IsDigit(x[0])) && a + x == b + y
    ensures |a| >= |b|
  {
    assert forall k | 0 <= k < |b| :: (b + y)[k] == b[k];
    assert x != [] ==> (a + x)[|a|] == x[0];
  }

  function RetryPart(retry: nat): string {
    if retry == 0 then "" else "-retry-" + Padded(retry, 2)
  }

  lemma SamePrefix(p: string, a: string, b: string)
    requires p + a == p + b
    ensures a == b
  {
    assert a == (p + a)[|p|..] && b == (p + b)[|p|..];
  }

  /** The suffix names one pair of numbers only, of however many digits. */
  lemma SuffixIsInjective(i: nat, r: nat, j: nat, q: nat)
    requires IterationSuffix(i, r) == IterationSuffix(j, q)
    ensures i == j && r == q
  {
    SuffixParts(i, r);
    SuffixParts(j, q);
    SamePrefix("iter-", Padded(i, 3) + RetryPart(r), Padded(j, 3) + RetryPart(q));
    DigitsEnd(Padded(i, 3), RetryPart(r), Padded(j, 3), RetryPart(q));
    PaddedValue(i, 3);
    PaddedValue(j, 3);
    RetryPartIsInjective(r, q);
  }

  lemma SuffixParts(i: nat, r: nat)
    ensures IterationSuffix(i, r) == "iter-" + (Padded(i, 3) + RetryPart(r))
  {
    if r == 0 {
      assert Padded(i, 3) + "" == Padded(i, 3);
    } else {
      assert "iter-" + Padded(i, 3) + "-retry-" + Padded(r, 2) == "iter-" + (Padded(i, 3) + ("-retry-" + Padded(r, 2)));
    }
  }

  lemma RetryPartIsInjective(r: nat, q: nat)
    requires RetryPart(r) == RetryPart(q)
    ensures r == q
  {
    if r != 0 && q != 0 {
      SamePrefix("-retry-", Padded(r, 2), Padded(q, 2));
      PaddedValue(r, 2);
      PaddedValue(q, 2);
    }
  }

  /** Two attempts of a task share an artifact directory, a worktree or a branch only if they are one attempt. */
  lemma NamesAreInjective(root: string, repo: string, task: string, i: nat, r: nat, j: nat, q: nat)
    requires || ArtifactsDir(root, task, i, r) == ArtifactsDir(root, task, j, q)
             || WorktreePath(root, repo, task, i, r) == WorktreePath(root, repo, task, j, q)
             || BranchName(task, i, r) == BranchName(task, j, q)
    ensures i == j && r == q
  {
    if ArtifactsDir(root, task, i, r) == ArtifactsDir(root, task, j, q) {
      SamePrefix(root + "/tasks/" + task + "/artifacts/", IterationSuffix(i, r), IterationSuffix(j, q));
    } else if WorktreePath(root, repo, task, i, r) == WorktreePath(root, repo, task, j, q) {
      SamePrefix(root + "/" + repo + "/" + task + "/", IterationSuffix(i, r), IterationSuffix(j, q));
    } else {
      SamePrefix("cc-loop/" + task + "/", IterationSuffix(i, r), IterationSuffix(j, q));
    }
    SuffixIsInjective(i, r, j, q);
  }

  /** The worktree of a merge is never the worktree of an attempt. */
  lemma MergeWorktreeIsApart(root: string, repo: string, task: string, i: nat, r: nat, j: nat, q: nat)
    ensures MergeWorktreePath(root, repo, task, i, r) != WorktreePath(root, repo, task, j, q)
  {
    var p := root + "/" + repo + "/" + task + "/";
    var rest := "merge-iter-" + Padded(i, 3) + "-retry-" + Padded(r, 2);
    assert MergeWorktreePath(root, repo, task, i, r) == p + rest;
    assert WorktreePath(root, repo, task, j, q) == p + IterationSuffix(j, q);
    assert (p + rest)[|p|] == 'm' && (p + IterationSuffix(j, q))[|p|] == 'i';
  }
}
