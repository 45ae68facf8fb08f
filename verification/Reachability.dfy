/** Chains of dependencies in a finite dependency map, as `_would_create_cycle` builds it. */
module Reachability {

  type Deps = map<string, set<string>>

  function Next(deps: Deps, n: string): set<string> {
    if n in deps then deps[n] else {}
  }

  ghost predicate IsChain(deps: Deps, p: seq<string>) {
    |p| > 0 && forall i | 0 <= i < |p| - 1 :: p[i + 1] in Next(deps, p[i])
  }

  /** `b` is `a`, or lies at the end of some chain of dependencies that starts at `a`. */
  ghost predicate Reaches(deps: Deps, a: string, b: string) {
    exists p :: IsChain(deps, p) && p[0] == a && p[|p| - 1] == b
  }

  /** Like `Reaches`, along at least one dependency. */
  ghost predicate ReachesBeyond(deps: Deps, a: string, b: string) {
    exists d :: d in Next(deps, a) && Reaches(deps, d, b)
  }

  ghost predicate Acyclic(deps: Deps) {
    forall n :: !ReachesBeyond(deps, n, n)
  }

  ghost predicate Closed(deps: Deps, s: set<string>) {
    forall n | n in s :: Next(deps, n) <= s
  }

  lemma ReachesSelf(deps: Deps, a: string)
    ensures Reaches(deps, a, a)
  {
    assert IsChain(deps, [a]);
  }

  lemma ReachesByStep(deps: Deps, a: string, d: string, b: string)
    requires d in Next(deps, a) && Reaches(deps, d, b)
    ensures Reaches(deps, a, b)
  {
    var p :| IsChain(deps, p) && p[0] == d && p[|p| - 1] == b;
    var q := [a] + p;
    assert forall i | 0 <= i < |q| - 1 :: q[i + 1] in Next(deps, q[i]) by {
      forall i | 0 <= i < |q| - 1 ensures q[i + 1] in Next(deps, q[i]) {
        if i > 0 { assert q[i] == p[i - 1] && q[i + 1] == p[i - 1 + 1]; }
      }
    }
    assert IsChain(deps, q);
  }

  lemma ReachesUnfold(deps: Deps, a: string, b: string)
    requires Reaches(deps, a, b)
    ensures a == b || ReachesBeyond(deps, a, b)
  {
    var p :| IsChain(deps, p) && p[0] == a && p[|p| - 1] == b;
    if |p| > 1 {
      var q := p[1..];
      assert IsChain(deps, q) by {
        forall i | 0 <= i < |q| - 1 ensures q[i + 1] in Next(deps, q[i]) {
          assert q[i] == p[i + 1] && q[i + 1] == p[i + 1 + 1];
        }
      }
      assert q[0] in Next(deps, a) && Reaches(deps, q[0], b) by {
        assert p[0 + 1] in Next(deps, p[0]);
        assert q[0] == p[1] && q[|q| - 1] == b;
      }
    }
  }

  /** A set closed under dependencies keeps every chain that starts in it. */
  lemma ClosedKeepsChains(deps: Deps, s: set<string>, a: string, b: string)
    requires Closed(deps, s) && a in s && Reaches(deps, a, b)
    ensures b in s
  {
    var p :| IsChain(deps, p) && p[0] == a && p[|p| - 1] == b;
    var k := 0;
    while k < |p| - 1
      invariant 0 <= k < |p|
      invariant p[k] in s
    {
      assert p[k + 1] in Next(deps, p[k]);
      k := k + 1;
    }
  }

  lemma {:induction false} ReachesTransitive(deps: Deps, a: string, b: string, c: string)
    requires Reaches(deps, a, b) && Reaches(deps, b, c)
    ensures Reaches(deps, a, c)
  {
    var p :| IsChain(deps, p) && p[0] == a && p[|p| - 1] == b;
    var k := |p| - 1;
    while k > 0
      invariant 0 <= k < |p|
      invariant Reaches(deps, p[k], c)
    {
      k := k - 1;
      assert p[k + 1] in Next(deps, p[k]);
      ReachesByStep(deps, p[k], p[k + 1], c);
    }
  }

  /** Fewer dependencies reach less. */
  lemma ReachesMonotone(small: Deps, large: Deps, a: string, b: string)
    requires forall n :: Next(small, n) <= Next(large, n)
    requires Reaches(small, a, b)
    ensures Reaches(large, a, b)
  {
    var p :| IsChain(small, p) && p[0] == a && p[|p| - 1] == b;
    assert IsChain(large, p) by {
      forall i | 0 <= i < |p| - 1 ensures p[i + 1] in Next(large, p[i]) {
        assert p[i + 1] in Next(small, p[i]);
      }
    }
  }

  lemma AcyclicMonotone(small: Deps, large: Deps)
    requires forall n :: Next(small, n) <= Next(large, n)
    requires Acyclic(large)
    ensures Acyclic(small)
  {
    forall n ensures !ReachesBeyond(small, n, n) {
      if ReachesBeyond(small, n, n) {
        var d :| d in Next(small, n) && Reaches(small, d, n);
        ReachesMonotone(small, large, d, n);
        assert ReachesBeyond(large, n, n);
      }
    }
  }

  /** Every name the map mentions. */
  function Names(deps: Deps): set<string> {
    deps.Keys + set k, d | k in deps && d in deps[k] :: d
  }

  ghost function Below(deps: Deps, n: string): set<string> {
    set x | x in Names(deps) && Reaches(deps, n, x)
  }

  /** How many names a node reaches: in an acyclic map every dependency reaches fewer. */
  ghost function Height(deps: Deps, n: string): nat {
    |Below(deps, n)|
  }

  lemma StrictSubsetSize<T>(a: set<T>, b: set<T>)
    requires a < b
    ensures |a| < |b|
  {
    var x :| x in b && x !in a;
    assert a <= b - {x};
    SubsetSize(a, b - {x});
  }

  lemma {:induction false} SubsetSize<T>(a: set<T>, b: set<T>)
    requires a <= b
    ensures |a| <= |b|
  {
    if a != {} {
      var x :| x in a;
      SubsetSize(a - {x}, b - {x});
    }
  }

  /** The well-founded order an acyclic dependency map provides. */
  lemma HeightDecreases(deps: Deps, n: string, d: string)
    requires Acyclic(deps) && d in Next(deps, n)
    ensures Height(deps, d) < Height(deps, n)
  {
    forall x | x in Below(deps, d) ensures x in Below(deps, n) {
      ReachesByStep(deps, n, d, x);
    }
    ReachesSelf(deps, n);
    assert n in Below(deps, n);
    assert !ReachesBeyond(deps, n, n);
    StrictSubsetSize(Below(deps, d), Below(deps, n));
  }

  /** An order of the names in which every dependency comes first leaves no room for a cycle. */
  lemma RankedIsAcyclic(deps: Deps, rank: map<string, nat>)
    requires forall n | n in deps :: n in rank
    requires forall n, d | n in deps && d in deps[n] && d in deps :: rank[d] < rank[n]
    ensures Acyclic(deps)
  {
    forall n ensures !ReachesBeyond(deps, n, n) {
      if ReachesBeyond(deps, n, n) {
        var d :| d in Next(deps, n) && Reaches(deps, d, n);
        assert n in deps;
        RankFalls(deps, rank, d, n);
      }
    }
  }

  lemma RankFalls(deps: Deps, rank: map<string, nat>, a: string, b: string)
    requires forall n | n in deps :: n in rank
    requires forall n, d | n in deps && d in deps[n] && d in deps :: rank[d] < rank[n]
    requires Reaches(deps, a, b) && b in deps
    ensures a in deps && rank[b] <= rank[a]
  {
    var p :| IsChain(deps, p) && p[0] == a && p[|p| - 1] == b;
    var k := |p| - 1;
    while k > 0
      invariant 0 <= k < |p|
      invariant p[k] in deps && rank[b] <= rank[p[k]]
    {
      k := k - 1;
      assert p[k + 1] in Next(deps, p[k]);
    }
  }
}
