/** The attempts of a run: their order, their number, their names. */
module AutoHistory {
  import opened TaskState
  import opened AutoLoop
  import opened Runs
  import opened AutoTermination
  import opened AutoSafety
  import opened AutoRuns
  import opened AttemptNaming
  import opened Evidence
  import ParallelBatch

  predicate Before(a: Attempt, b: Attempt) {
    a.iteration < b.iteration || (a.iteration == b.iteration && a.retry < b.retry)
  }

  predicate Numbered(cfg: Config, s: Task, a: Attempt) {
    1 <= a.iteration <= s.iteration && a.retry <= Natural(cfg.maxRetries)
    && a.recoveryRetryCount <= RecoveryLimit(cfg) && a.mergeRetryCount == 0
  }

  ghost predicate HistoryOk(cfg: Config, s: Task) {
    && s.iteration <= Natural(cfg.maxIterations)
    && (s.history == [] ==> s.iteration == 0)
    && (s.history != [] ==> Last(s).iteration == s.iteration)
    && (forall k | 0 <= k < |s.history| :: Numbered(cfg, s, s.history[k]))
    && (forall j, k | 0 <= j < k < |s.history| :: Before(s.history[j], s.history[k]))
  }

  /** The old attempts' numbers survive a move. */
  lemma NumbersKept(s: Task, t: Task, m: Move, k: int)
    requires Moved(s, t, m) && 0 <= k < |s.history|
    ensures k < |t.history| && t.history[k].iteration == s.history[k].iteration && t.history[k].retry == s.history[k].retry
  {
  }

  lemma MoveKeepsHistory(cfg: Config, s: Task, t: Task, m: Move)
    requires HistoryOk(cfg, s) && Moved(s, t, m) && Allowed(cfg, s, m)
    ensures HistoryOk(cfg, t)
  {
    forall k | 0 <= k < |s.history| ensures t.history[k].iteration == s.history[k].iteration && t.history[k].retry == s.history[k].retry {
      NumbersKept(s, t, m, k);
    }
    forall k | 0 <= k < |t.history| ensures Numbered(cfg, t, t.history[k]) {
      if k < |s.history| { assert Numbered(cfg, s, s.history[k]); }
      if s.history != [] { assert Numbered(cfg, s, s.history[|s.history| - 1]); }
    }
    forall j, k | 0 <= j < k < |t.history| ensures Before(t.history[j], t.history[k]) {
      if k < |s.history| {
        assert Before(s.history[j], s.history[k]);
      } else {
        assert Numbered(cfg, s, s.history[j]);
        if j < |s.history| - 1 { assert Before(s.history[j], s.history[|s.history| - 1]); }
      }
    }
  }

  lemma PassesKeepHistory(cfg: Config)
    ensures forall s, w, t | HistoryOk(cfg, s) && PassRelation(cfg)(s, w, t) :: HistoryOk(cfg, t)
  {
    forall s, w, t | HistoryOk(cfg, s) && PassRelation(cfg)(s, w, t) ensures HistoryOk(cfg, t) {
      var m := PassMoves(cfg, s, w);
      MoveKeepsHistory(cfg, s, t, m);
    }
  }

  lemma RunsKeepHistory(cfg: Config, trace: seq<Task>, worlds: seq<World>, n: nat)
    requires AutoRun(cfg, trace, worlds) && n <= |worlds|
    ensures HistoryOk(cfg, trace[n])
  {
    PassesKeepHistory(cfg);
    Invariance(PassRelation(cfg), (s: Task) => HistoryOk(cfg, s), trace, worlds, n);
  }

  /** No two attempts of a run share an artifact directory, a worktree or a branch. */
  lemma AttemptsHaveTheirOwnNames(cfg: Config, trace: seq<Task>, worlds: seq<World>, n: nat, j: int, k: int, root: string, repo: string, task: string)
    requires AutoRun(cfg, trace, worlds) && n <= |worlds| && 0 <= j < k < |trace[n].history|
    ensures var a, b := trace[n].history[j], trace[n].history[k];
      && ArtifactsDir(root, task, a.iteration, a.retry) != ArtifactsDir(root, task, b.iteration, b.retry)
      && WorktreePath(root, repo, task, a.iteration, a.retry) != WorktreePath(root, repo, task, b.iteration, b.retry)
      && BranchName(task, a.iteration, a.retry) != BranchName(task, b.iteration, b.retry)
  {
    RunsKeepHistory(cfg, trace, worlds, n);
    assert forall i | 0 <= i < |trace[n].history| :: Numbered(cfg, trace[n], trace[n].history[i]);
    OrderedAttemptsHaveTheirOwnNames(trace[n], j, k, root, repo, task);
  }

  /** The place of an attempt among all the program could make. */
  function Slot(cfg: Config, a: Attempt): int {
    (a.iteration - 1) * (Natural(cfg.maxRetries) + 1) + a.retry
  }

  lemma SlotGrows(cfg: Config, s: Task, a: Attempt, b: Attempt)
    requires Numbered(cfg, s, a) && Numbered(cfg, s, b) && Before(a, b)
    ensures Slot(cfg, a) < Slot(cfg, b)
  {
    DigitLess(a.retry, b.retry, a.iteration - 1, b.iteration - 1, Natural(cfg.maxRetries) + 1);
  }

  lemma {:induction false} SlotsFill(cfg: Config, s: Task, k: nat)
    requires HistoryOk(cfg, s) && k < |s.history|
    ensures Slot(cfg, s.history[k]) >= k
  {
    if k > 0 {
      SlotsFill(cfg, s, k - 1);
      SlotGrows(cfg, s, s.history[k - 1], s.history[k]);
    }
  }

  /** A run never holds more than max_iterations * (max_retries_per_step + 1) attempts. */
  lemma HistoryIsBounded(cfg: Config, trace: seq<Task>, worlds: seq<World>, n: nat)
    requires AutoRun(cfg, trace, worlds) && n <= |worlds|
    ensures |trace[n].history| <= Natural(cfg.maxIterations) * (Natural(cfg.maxRetries) + 1)
  {
    RunsKeepHistory(cfg, trace, worlds, n);
    var s := trace[n];
    if s.history != [] {
      var last := |s.history| - 1;
      var base := Natural(cfg.maxRetries) + 1;
      SlotsFill(cfg, s, last);
      assert Numbered(cfg, s, s.history[last]);
      DigitLess(s.history[last].retry, 0, s.history[last].iteration - 1, Natural(cfg.maxIterations), base);
    }
  }

  /**
   * Every repair of an attempt is counted on it, so there are never more of them than the larger
   * of the two recovery limits; and no attempt ever records a merge retry.
   */
  lemma RepairsAreCounted(cfg: Config, trace: seq<Task>, worlds: seq<World>, n: nat)
    requires AutoRun(cfg, trace, worlds) && n < |worlds| && trace[n].history != []
    requires !worlds[n].budgetExhausted && Decide(cfg, Rechecked(trace[n], worlds[n]), worlds[n]).step == StepRepair
    ensures |trace[n + 1].history| == |trace[n].history|
    ensures Last(trace[n]).recoveryRetryCount < Last(trace[n + 1]).recoveryRetryCount <= RecoveryLimit(cfg)
    ensures Last(trace[n + 1]).mergeRetryCount == 0
  {
    RunsKeepHistory(cfg, trace, worlds, n + 1);
    PassesOfRun(cfg, trace, worlds, n);
    var m := PassMoves(cfg, trace[n], worlds[n]);
    assert Numbered(cfg, trace[n + 1], trace[n + 1].history[|trace[n + 1].history| - 1]);
  }

  // ---------------------------------------------------------------- what an invocation of the loop delivers

  /** One of these passes merged the attempt through the gate, on its own inputs, and it is since unchanged. */
  ghost predicate GatedAt(cfg: Config, trace: seq<Task>, worlds: seq<World>, n: nat, k: nat)
    requires n < |trace| && n <= |worlds| && k < |trace[n].history|
  {
    exists m: nat :: m < n && MergesNow(cfg, trace[m], worlds[m], trace[m + 1], k) && Alike(trace[m + 1].history[k], trace[n].history[k])
  }

  /**
   * The task is the last state of a run in which every merge was gated and rests on what implementer,
   * tests and reviewers answered.
   */
  ghost predicate CameByGatedMerges(cfg: Config, s: Task, trace: seq<Task>, worlds: seq<World>) {
    AutoRun(cfg, trace, worlds) && trace[|worlds|] == s &&
    forall k: nat | k < |s.history| && s.history[k].phase == AtMerged ::
      GatedAt(cfg, trace, worlds, |worlds|, k) && MergedOnAnswers(cfg, trace, worlds, |worlds|, k)
  }

  /** The invocation on `start` with these inputs came to `s` by passes of its own, on the first of the inputs. */
  ghost predicate CameFrom(cfg: Config, start: Task, worlds: seq<World>, s: Task, trace: seq<Task>, n: nat) {
    n <= |worlds| && trace != [] && trace[0] == start && CameByGatedMerges(cfg, s, trace, worlds[..n])
  }

  ghost predicate Delivered(cfg: Config, start: Task, worlds: seq<World>, s: Task) {
    && PassedIffMerged(s)
    && |s.history| <= Natural(cfg.maxIterations) * (Natural(cfg.maxRetries) + 1)
    && exists trace, n :: CameFrom(cfg, start, worlds, s, trace, n)
  }

  lemma RunDelivers(cfg: Config, trace: seq<Task>, worlds: seq<World>)
    requires AutoRun(cfg, trace, worlds)
    ensures PassedIffMerged(trace[|worlds|]) && CameByGatedMerges(cfg, trace[|worlds|], trace, worlds)
    ensures |trace[|worlds|].history| <= Natural(cfg.maxIterations) * (Natural(cfg.maxRetries) + 1)
  {
    var n := |worlds|;
    PassedExactlyWhenMerged(cfg, trace, worlds, n);
    HistoryIsBounded(cfg, trace, worlds, n);
    forall k: nat | k < |trace[n].history| && trace[n].history[k].phase == AtMerged
      ensures GatedAt(cfg, trace, worlds, n, k) && MergedOnAnswers(cfg, trace, worlds, n, k) {
      var m := EveryMergeWasGated(cfg, trace, worlds, n, k);
      MergedRestsOnAnswers(cfg, trace, worlds, n, k);
    }
  }

  /** Whatever the world answers, an invocation on an initial task ends where all of this holds. */
  lemma TurnsDeliver(cfg: Config, s: Task, worlds: seq<World>)
    requires Initial(s) && forall k | 0 <= k < |worlds| :: WorldOk(worlds[k])
    ensures Delivered(cfg, s, worlds, AutoTurns(cfg, s, worlds).state)
  {
    var trace, n := TurnsAreRun(cfg, s, worlds);
    RunDelivers(cfg, trace, worlds[..n]);
    assert CameFrom(cfg, s, worlds, AutoTurns(cfg, s, worlds).state, trace, n);
  }

  // ---------------------------------------------------------------- the attempts of a parallel batch

  /** Attempts in order, none numbered beyond the task's iteration. */
  ghost predicate Ordered(s: Task) {
    && (forall k | 0 <= k < |s.history| :: s.history[k].iteration <= s.iteration)
    && (forall j, k | 0 <= j < k < |s.history| :: Before(s.history[j], s.history[k]))
  }

  /** Preparing a batch keeps the numbers of all attempts in strictly increasing order, so their names stay apart. */
  lemma {:induction false} PreparationKeepsOrder(s: ParallelBatch.Shared, ids: seq<string>)
    requires Ordered(s.task)
    ensures Ordered(ParallelBatch.WithAttempts(s, ids).task)
  {
    ParallelBatch.PreparedHistory(s, ids);
    var r, n := ParallelBatch.WithAttempts(s, ids).task, |s.task.history|;
    forall j, k | 0 <= j < k < |r.history| ensures Before(r.history[j], r.history[k]) {
      assert j < n && k < n ==> Before(s.task.history[j], s.task.history[k]);
    }
  }

  lemma OrderedAttemptsHaveTheirOwnNames(s: Task, j: int, k: int, root: string, repo: string, task: string)
    requires Ordered(s) && 0 <= j < k < |s.history|
    ensures var a, b := s.history[j], s.history[k];
      && ArtifactsDir(root, task, a.iteration, a.retry) != ArtifactsDir(root, task, b.iteration, b.retry)
      && WorktreePath(root, repo, task, a.iteration, a.retry) != WorktreePath(root, repo, task, b.iteration, b.retry)
      && BranchName(task, a.iteration, a.retry) != BranchName(task, b.iteration, b.retry)
  {
    var a, b := s.history[j], s.history[k];
    assert Before(a, b);
    if || ArtifactsDir(root, task, a.iteration, a.retry) == ArtifactsDir(root, task, b.iteration, b.retry)
       || WorktreePath(root, repo, task, a.iteration, a.retry) == WorktreePath(root, repo, task, b.iteration, b.retry)
       || BranchName(task, a.iteration, a.retry) == BranchName(task, b.iteration, b.retry) {
      NamesAreInjective(root, repo, task, a.iteration, a.retry, b.iteration, b.retry);
    }
  }
}
