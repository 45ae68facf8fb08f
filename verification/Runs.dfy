/** Induction over runs: each state of a trace comes from the one before by a step. */
module Runs {
  ghost predicate IsRun<S(!new), I(!new)>(step: (S, I, S) -> bool, trace: seq<S>, inputs: seq<I>) {
    |trace| == |inputs| + 1 && forall k | 0 <= k < |inputs| :: step(trace[k], inputs[k], trace[k + 1])
  }

  /** What every step keeps holds in every state. */
  lemma {:induction false} Invariance<S(!new), I(!new)>(step: (S, I, S) -> bool, inv: S -> bool, trace: seq<S>, inputs: seq<I>, n: nat)
    requires IsRun(step, trace, inputs) && n <= |inputs| && inv(trace[0])
    requires forall s, i, t :: inv(s) && step(s, i, t) ==> inv(t)
    ensures inv(trace[n])
  {
    if n > 0 {
      Invariance(step, inv, trace, inputs, n - 1);
      assert step(trace[n - 1], inputs[n - 1], trace[n - 1 + 1]);
    }
  }

  /** The same where what holds depends on the inputs so far. */
  lemma {:induction false} PrefixInvariance<S(!new), I(!new)>(step: (S, I, S) -> bool, inv: (seq<I>, S) -> bool, trace: seq<S>, inputs: seq<I>, n: nat)
    requires IsRun(step, trace, inputs) && n <= |inputs| && inv([], trace[0])
    requires forall past, s, i, t :: inv(past, s) && step(s, i, t) ==> inv(past + [i], t)
    ensures inv(inputs[..n], trace[n])
  {
    if n > 0 {
      PrefixInvariance(step, inv, trace, inputs, n - 1);
      assert step(trace[n - 1], inputs[n - 1], trace[n - 1 + 1]);
      assert inputs[..n] == inputs[..n - 1] + [inputs[n - 1]];
    }
  }

  /** How many of the first `n` steps are of kind `p`. */
  ghost function Count<S(!new), I(!new)>(p: (S, I, S) -> bool, trace: seq<S>, inputs: seq<I>, n: nat): nat
    requires n <= |inputs| < |trace|
  {
    if n == 0 then 0
    else Count(p, trace, inputs, n - 1) + if p(trace[n - 1], inputs[n - 1], trace[n]) then 1 else 0
  }

  /** Where no step raises a rank and those of kind `p` lower it, these are no more than the rank at the start. */
  lemma {:induction false} Descent<S(!new), I(!new)>(step: (S, I, S) -> bool, p: (S, I, S) -> bool, rank: S -> nat,
      trace: seq<S>, inputs: seq<I>, n: nat)
    requires IsRun(step, trace, inputs) && n <= |inputs|
    requires forall s, i, t :: step(s, i, t) ==> rank(t) <= rank(s) && (p(s, i, t) ==> rank(t) < rank(s))
    ensures Count(p, trace, inputs, n) + rank(trace[n]) <= rank(trace[0])
  {
    if n > 0 {
      Descent(step, p, rank, trace, inputs, n - 1);
      assert step(trace[n - 1], inputs[n - 1], trace[n - 1 + 1]);
    }
  }
}
