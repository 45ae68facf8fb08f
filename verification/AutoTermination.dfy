/** How often the auto loop can retry: what its counters bound, and what they do not. */
module AutoTermination {
  import opened TaskState
  import opened AutoLoop
  import opened Runs

  function Natural(x: int): nat {
    if x < 0 then 0 else x
  }

  function RecoveryLimit(cfg: Config): nat {
    Natural(if cfg.maxRecovery < cfg.maxMergeRecovery then cfg.maxMergeRecovery else cfg.maxRecovery)
  }

  // ---------------------------------------------------------------- the measure

  datatype Measure = Measure(iterations: nat, retries: nat, repairs: nat, merges: nat)

  function MeasureOf(cfg: Config, s: Task): Measure {
    if s.history == [] then
      Measure(Natural(cfg.maxIterations - s.iteration), Natural(cfg.maxRetries), RecoveryLimit(cfg), Natural(cfg.maxMergeRetries))
    else
      var a := Last(s);
      Measure(Natural(cfg.maxIterations - s.iteration), Natural(cfg.maxRetries - a.retry),
              Natural(RecoveryLimit(cfg) - a.recoveryRetryCount), Natural(cfg.maxMergeRetries - a.mergeRetryCount))
  }

  predicate LexLess(m: Measure, n: Measure) {
    || m.iterations < n.iterations
    || (m.iterations == n.iterations && m.retries < n.retries)
    || (m.iterations == n.iterations && m.retries == n.retries && m.repairs < n.repairs)
    || (m.iterations == n.iterations && m.retries == n.retries && m.repairs == n.repairs && m.merges < n.merges)
  }

  /** RUN, a RESUME that starts a retry, REPAIR, and a MERGE_RETRY for a busy worktree. */
  ghost predicate Counts(s: Task, c: Choice) {
    || c.step == StepRun
    || (c.step == StepResume && s.history != [] && Last(s).phase == AtRejected)
    || c.step == StepRepair
    || (c.step == StepMergeRetry && c.report.Some? && c.report.value.kind == MergeWorktreeBusy)
  }

  /** What `Decide` must have seen before it repairs: a recoverable report with budget left. */
  lemma RepairHasBudget(cfg: Config, s: Task, w: World)
    requires Decide(cfg, s, w).step == StepRepair
    ensures var c := Decide(cfg, s, w);
      s.history != [] && c.report.Some? && c.report.value.recoverable
      && c.report.value.kind != MergeWorktreeBusy && Last(s).recoveryRetryCount < RecoveryLimit(cfg)
  {
  }

  /** The stored messages are never read back as a busy worktree, so its retry budget is never used. */
  lemma NoBusyReport(cfg: Config, s: Task, w: World)
    ensures Decide(cfg, s, w).report.Some? ==> Decide(cfg, s, w).report.value.kind != MergeWorktreeBusy
  {
  }

  /** Only a repair spends recovery budget, and nothing spends merge retries. */
  lemma MergeRetryCountsNothing(cfg: Config, s: Task, w: World)
    requires Decide(cfg, s, w).step == StepMergeRetry && s.history != []
    ensures var c := Decide(cfg, s, w); c.report.Some? ==> Counted(Last(s), c.report.value) == Last(s)
  {
  }

  /** How one pass moves the last attempt: it continues it, retries it, or starts the next iteration. */
  datatype Move = Same(repairs: nat) | Retry | Next

  ghost predicate Moved(s: Task, t: Task, m: Move) {
    match m
    case Same(repairs) =>
      && |t.history| == |s.history| && t.iteration == s.iteration
      && (forall k | 0 <= k < |s.history| - 1 :: t.history[k] == s.history[k])
      && (s.history != [] ==>
            Last(t).iteration == Last(s).iteration && Last(t).retry == Last(s).retry
            && Last(t).recoveryRetryCount == Last(s).recoveryRetryCount + repairs
            && Last(t).mergeRetryCount == Last(s).mergeRetryCount)
    case Retry =>
      && s.history != [] && |t.history| == |s.history| + 1 && t.iteration == s.iteration
      && (forall k | 0 <= k < |s.history| - 1 :: t.history[k] == s.history[k])
      && SameNumbers(t.history[|s.history| - 1], Last(s))
      && Last(t).iteration == Last(s).iteration && Last(t).retry == Last(s).retry + 1
      && Last(t).recoveryRetryCount == 0 && Last(t).mergeRetryCount == 0
    case Next =>
      && |t.history| == |s.history| + 1 && t.iteration == s.iteration + 1
      && (forall k | 0 <= k < |s.history| - 1 :: t.history[k] == s.history[k])
      && (s.history != [] ==> SameNumbers(t.history[|s.history| - 1], Last(s)))
      && Last(t).iteration == t.iteration && Last(t).retry == 0
      && Last(t).recoveryRetryCount == 0 && Last(t).mergeRetryCount == 0
  }

  predicate SameNumbers(a: Attempt, b: Attempt) {
    a.iteration == b.iteration && a.retry == b.retry && a.phase == b.phase && a.nodeId == b.nodeId &&
    a.recoveryRetryCount == b.recoveryRetryCount && a.mergeRetryCount == b.mergeRetryCount
  }

  /** What the guards said when the pass moved. */
  ghost predicate Allowed(cfg: Config, s: Task, m: Move) {
    match m
    case Same(repairs) => repairs == 0 || (repairs == 1 && s.history != [] && Last(s).recoveryRetryCount < RecoveryLimit(cfg))
    case Retry => s.history != [] && Last(s).retry < cfg.maxRetries
    case Next => s.iteration < cfg.maxIterations
  }

  lemma SameMoves(s: Task, t: Task)
    requires SameAttempt(s, t)
    ensures Moved(s, t, Same(0))
  {
  }

  lemma RetryMoves(s: Task, t: Task)
    requires s.history != [] && SameAttempt(Retried(s), t)
    ensures Moved(s, t, Retry)
  {
    assert Retried(s).history[|s.history| - 1] == Last(s);
  }

  lemma NextMoves(s: Task, t: Task)
    requires SameAttempt(Prepared(s), t)
    ensures Moved(s, t, Next)
  {
    assert s.history != [] ==> Prepared(s).history[|s.history| - 1] == Last(s);
  }

  lemma RunMoves(cfg: Config, s: Task, w: World) returns (m: Move)
    ensures Moved(s, ExecuteRun(cfg, s, w).state, m) && Allowed(cfg, s, m)
    ensures if ExecuteRun(cfg, s, w) == Raised(s, RunError) then m == Same(0) else m == Next
  {
    var r := ExecuteRun(cfg, s, w);
    if r == Raised(s, RunError) {
      m := Same(0);
    } else {
      NextMoves(s, r.state);
      m := Next;
    }
  }

  lemma ResumeMoves(cfg: Config, s: Task, w: World) returns (m: Move)
    ensures Moved(s, ExecuteResume(cfg, s, w).state, m) && Allowed(cfg, s, m)
    ensures if ExecuteResume(cfg, s, w) == Raised(s, ResumeError) || s.history == [] || Last(s).phase != AtRejected
      then m == Same(0) else m == Retry
  {
    var r := ExecuteResume(cfg, s, w);
    if r == Raised(s, ResumeError) {
      m := Same(0);
    } else if Last(s).phase == AtRejected {
      RetryMoves(s, r.state);
      m := Retry;
    } else {
      SameMoves(s, r.state);
      m := Same(0);
    }
  }

  lemma RepairMoves(cfg: Config, s: Task, report: Report, w: World)
    requires s.history != [] && report.recoverable && report.kind != MergeWorktreeBusy
    ensures Moved(s, ExecuteRepair(cfg, SetLast(s, Counted(Last(s), report)), report, w).state, Same(1))
  {
    var counted := SetLast(s, Counted(Last(s), report));
    var r := ExecuteRepair(cfg, counted, report, w);
    assert SameAttempt(counted, r.state);
  }

  /** An executor gave up before it did anything: the loop ends there. */
  predicate Refused(r: Outcome) {
    r.Raised? && (r.error == RunError || r.error == ResumeError)
  }

  lemma MergeRetryChangesNothing(cfg: Config, s: Task, w: World)
    requires Decide(cfg, s, w).step == StepMergeRetry
    ensures Execute(cfg, s, Decide(cfg, s, w), w) == ExecuteResume(cfg, s, w)
    ensures !Counts(s, Decide(cfg, s, w))
  {
    NoBusyReport(cfg, s, w);
    if s.history != [] {
      MergeRetryCountsNothing(cfg, s, w);
      assert SetLast(s, Last(s)) == s;
    }
  }

  lemma ReplanMoves(cfg: Config, s: Task, c: Choice, w: World)
    requires c.step == StepReplan
    ensures Moved(s, Execute(cfg, s, c, w).state, Same(0))
  {
    if s.history != [] { SameMoves(s, ExecuteReplan(s, w).state); }
  }

  lemma RepairStepMoves(cfg: Config, s: Task, c: Choice, w: World)
    requires c == Decide(cfg, s, w) && c.step == StepRepair
    ensures Moved(s, Execute(cfg, s, c, w).state, Same(1)) && Allowed(cfg, s, Same(1))
  {
    RepairHasBudget(cfg, s, w);
    RepairMoves(cfg, s, c.report.value, w);
  }

  /** The step takes the task by move `m`, which the guards allow. */
  ghost predicate StepMoved(cfg: Config, s: Task, c: Choice, w: World, m: Move) {
    && Moved(s, Execute(cfg, s, c, w).state, m) && Allowed(cfg, s, m)
    && (m != Same(0) ==> Counts(s, c)) && (Counts(s, c) && !Refused(Execute(cfg, s, c, w)) ==> m != Same(0))
    && (m == Same(1) <==> c.step == StepRepair)
  }

  lemma RunStepMoves(cfg: Config, s: Task, c: Choice, w: World) returns (m: Move)
    requires c.step == StepRun
    ensures StepMoved(cfg, s, c, w, m)
  {
    m := RunMoves(cfg, if s.status == TaskDone then s.(status := TaskStopped) else s, w);
  }

  lemma MergeRetryIsApproved(cfg: Config, s: Task, w: World)
    requires Decide(cfg, s, w).step == StepMergeRetry
    ensures s.history != [] && Last(s).phase == AtApproved
  {
    NoBusyReport(cfg, s, w);
  }

  lemma ResumeStepMoves(cfg: Config, s: Task, c: Choice, w: World) returns (m: Move)
    requires c == Decide(cfg, s, w) && (c.step == StepMergeRetry || c.step == StepResume)
    ensures StepMoved(cfg, s, c, w, m)
  {
    if c.step == StepMergeRetry {
      MergeRetryChangesNothing(cfg, s, w);
      MergeRetryIsApproved(cfg, s, w);
    }
    m := ResumeMoves(cfg, s, w);
  }

  lemma ExecuteMoves(cfg: Config, s: Task, c: Choice, w: World) returns (m: Move)
    requires c == Decide(cfg, s, w) && c.step != StepTerminal && c.step != StepDone
    ensures StepMoved(cfg, s, c, w, m)
  {
    match c.step {
      case StepRun =>
        m := RunStepMoves(cfg, s, c, w);
      case StepReplan =>
        ReplanMoves(cfg, s, c, w);
        m := Same(0);
      case StepRepair =>
        RepairStepMoves(cfg, s, c, w);
        m := Same(1);
      case _ =>
        m := ResumeStepMoves(cfg, s, c, w);
    }
  }

  /** What the loop's failure handling may change: the status, and how the last attempt is labelled. */
  ghost predicate Relabelled(s: Task, t: Task) {
    && t.iteration == s.iteration && t.graph == s.graph && |t.history| == |s.history|
    && (forall k | 0 <= k < |s.history| - 1 :: t.history[k] == s.history[k])
    && (s.history != [] ==> Last(t) == Last(s).(phase := Last(t).phase, failureType := Last(t).failureType))
  }

  lemma HandlingRelabels(cfg: Config, r: Outcome, w: World)
    ensures Relabelled(r.state, AfterStep(cfg, r, w).state)
    ensures Refused(r) ==> AfterStep(cfg, r, w).Exit?
    ensures r.Ok? ==> AfterStep(cfg, r, w).state == r.state
  {
  }

  lemma RelabellingKeepsMove(s: Task, t: Task, u: Task, m: Move)
    requires Moved(s, t, m) && Relabelled(t, u)
    ensures Moved(s, u, m)
  {
  }

  lemma RecheckKeepsMove(s: Task, w: World, t: Task, m: Move)
    requires Moved(Rechecked(s, w), t, m)
    ensures Moved(s, t, m)
  {
  }

  /** A pass that takes a step. */
  lemma StepPassMoves(cfg: Config, s: Task, w: World) returns (m: Move)
    requires !w.budgetExhausted || s.history == []
    requires var step := Decide(cfg, Rechecked(s, w), w).step; step != StepTerminal && step != StepDone
    ensures Moved(s, AutoPass(cfg, s, w).state, m) && Allowed(cfg, s, m)
    ensures m != Same(0) ==> Counts(Rechecked(s, w), Decide(cfg, Rechecked(s, w), w))
    ensures AutoPass(cfg, s, w).Continue? && Counts(Rechecked(s, w), Decide(cfg, Rechecked(s, w), w)) ==> m != Same(0)
    ensures m == Same(1) <==> Decide(cfg, Rechecked(s, w), w).step == StepRepair
  {
    var s1 := Rechecked(s, w);
    var c := Decide(cfg, s1, w);
    m := ExecuteMoves(cfg, s1, c, w);
    var r := Execute(cfg, s1, c, w);
    HandlingRelabels(cfg, r, w);
    RelabellingKeepsMove(s1, r.state, AfterStep(cfg, r, w).state, m);
    RecheckKeepsMove(s, w, AfterStep(cfg, r, w).state, m);
  }

  /** Every pass of the loop is one of the three moves, and only the guards' own way. */
  lemma PassMoves(cfg: Config, s: Task, w: World) returns (m: Move)
    ensures Moved(s, AutoPass(cfg, s, w).state, m) && Allowed(cfg, s, m)
    ensures m != Same(0) ==> Counts(Rechecked(s, w), Decide(cfg, Rechecked(s, w), w))
    ensures AutoPass(cfg, s, w).Continue? && Counts(Rechecked(s, w), Decide(cfg, Rechecked(s, w), w)) ==> m != Same(0)
    ensures !w.budgetExhausted || s.history == [] ==>
      (m == Same(1) <==> Decide(cfg, Rechecked(s, w), w).step == StepRepair)
  {
    var step := Decide(cfg, Rechecked(s, w), w).step;
    if (s.history != [] && w.budgetExhausted) || step == StepDone || step == StepTerminal {
      m := Same(0);
    } else {
      m := StepPassMoves(cfg, s, w);
    }
  }

  lemma MoveFalls(cfg: Config, s: Task, t: Task, m: Move)
    requires Moved(s, t, m) && Allowed(cfg, s, m) && m != Same(0)
    ensures LexLess(MeasureOf(cfg, t), MeasureOf(cfg, s))
  {
  }

  lemma StayingKeepsMeasure(cfg: Config, s: Task, t: Task)
    requires Moved(s, t, Same(0))
    ensures MeasureOf(cfg, t) == MeasureOf(cfg, s)
  {
  }

  /**
   * A pass that lets the loop go on lowers (max_iterations - iteration, max_retries - retry, recovery
   * budget - recovery_retry_count, max_merge_retries - merge_retry_count) lexicographically exactly
   * when its step is counted, whatever providers, tests and git answer.  Otherwise (a replan, a merge
   * retry, the resume of an attempt that was not rejected) the four are as they were.
   */
  lemma PassProgressesExactlyWhen(cfg: Config, s: Task, w: World)
    requires AutoPass(cfg, s, w).Continue?
    ensures var t, counts := AutoPass(cfg, s, w).state, Counts(Rechecked(s, w), Decide(cfg, Rechecked(s, w), w));
      && (LexLess(MeasureOf(cfg, t), MeasureOf(cfg, s)) <==> counts)
      && (!counts ==> MeasureOf(cfg, t) == MeasureOf(cfg, s))
  {
    var m := PassMoves(cfg, s, w);
    var t := AutoPass(cfg, s, w).state;
    if m == Same(0) { StayingKeepsMeasure(cfg, s, t); } else { MoveFalls(cfg, s, t, m); }
  }

  /** No pass gives back what an earlier one has used up, whether the loop goes on or not. */
  lemma PassNeverRises(cfg: Config, s: Task, w: World)
    ensures var t := AutoPass(cfg, s, w).state;
      MeasureOf(cfg, t) == MeasureOf(cfg, s) || LexLess(MeasureOf(cfg, t), MeasureOf(cfg, s))
  {
    var m := PassMoves(cfg, s, w);
    var t := AutoPass(cfg, s, w).state;
    if m == Same(0) { StayingKeepsMeasure(cfg, s, t); } else { MoveFalls(cfg, s, t, m); }
  }

  // ---------------------------------------------------------------- a bound on the counted passes of a run

  function Rank(cfg: Config, m: Measure): nat {
    var r, b, g := Natural(cfg.maxRetries) + 1, RecoveryLimit(cfg) + 1, Natural(cfg.maxMergeRetries) + 1;
    ((m.iterations * r + m.retries) * b + m.repairs) * g + m.merges
  }

  lemma DigitLess(x: nat, y: nat, a: nat, b: nat, base: nat)
    requires x < base && (a < b || (a == b && x < y))
    ensures a * base + x < b * base + y
  {
    if a < b {
      assert (a + 1) * base <= b * base;
    }
  }

  lemma RankFalls(cfg: Config, m: Measure, n: Measure)
    requires LexLess(m, n)
    requires m.retries <= Natural(cfg.maxRetries) && m.repairs <= RecoveryLimit(cfg) && m.merges <= Natural(cfg.maxMergeRetries)
    ensures Rank(cfg, m) < Rank(cfg, n)
  {
    var r, b, g := Natural(cfg.maxRetries) + 1, RecoveryLimit(cfg) + 1, Natural(cfg.maxMergeRetries) + 1;
    var m1, n1 := m.iterations * r + m.retries, n.iterations * r + n.retries;
    if m.iterations < n.iterations || m.retries < n.retries { DigitLess(m.retries, n.retries, m.iterations, n.iterations, r); }
    var m2, n2 := m1 * b + m.repairs, n1 * b + n.repairs;
    if m1 < n1 || m.repairs < n.repairs { DigitLess(m.repairs, n.repairs, m1, n1, b); }
    DigitLess(m.merges, n.merges, m2, n2, g);
  }

  ghost predicate IsPassTo(cfg: Config, s: Task, w: World, t: Task) {
    t == AutoPass(cfg, s, w).state
  }

  /** A pass that lets the loop go on, by a counted step. */
  ghost predicate CountedPass(cfg: Config, s: Task, w: World, t: Task) {
    AutoPass(cfg, s, w) == Continue(t) && Counts(Rechecked(s, w), Decide(cfg, Rechecked(s, w), w))
  }

  lemma PassRank(cfg: Config, s: Task, w: World, t: Task)
    requires IsPassTo(cfg, s, w, t)
    ensures Rank(cfg, MeasureOf(cfg, t)) <= Rank(cfg, MeasureOf(cfg, s))
    ensures CountedPass(cfg, s, w, t) ==> Rank(cfg, MeasureOf(cfg, t)) < Rank(cfg, MeasureOf(cfg, s))
  {
    PassNeverRises(cfg, s, w);
    if LexLess(MeasureOf(cfg, t), MeasureOf(cfg, s)) { RankFalls(cfg, MeasureOf(cfg, t), MeasureOf(cfg, s)); }
    if CountedPass(cfg, s, w, t) { PassProgressesExactlyWhen(cfg, s, w); }
  }

  /** Any run of passes, of one invocation or of several, whatever the world answers. */
  ghost predicate LoopRun(cfg: Config, trace: seq<Task>, worlds: seq<World>) {
    IsRun((s: Task, w: World, t: Task) => IsPassTo(cfg, s, w, t), trace, worlds)
  }

  ghost function CountedPasses(cfg: Config, trace: seq<Task>, worlds: seq<World>, n: nat): nat
    requires n <= |worlds| < |trace|
  {
    Count((s: Task, w: World, t: Task) => CountedPass(cfg, s, w, t), trace, worlds, n)
  }

  /**
   * The counted passes of any run, whatever uncounted ones stand between them, are no more than a
   * number the configuration and the start fix.
   */
  lemma CountedPassesAreBounded(cfg: Config, trace: seq<Task>, worlds: seq<World>, n: nat)
    requires LoopRun(cfg, trace, worlds) && n <= |worlds|
    ensures CountedPasses(cfg, trace, worlds, n) + Rank(cfg, MeasureOf(cfg, trace[n])) <= Rank(cfg, MeasureOf(cfg, trace[0]))
  {
    forall s, w, t | IsPassTo(cfg, s, w, t)
      ensures Rank(cfg, MeasureOf(cfg, t)) <= Rank(cfg, MeasureOf(cfg, s))
        && (CountedPass(cfg, s, w, t) ==> Rank(cfg, MeasureOf(cfg, t)) < Rank(cfg, MeasureOf(cfg, s))) {
      PassRank(cfg, s, w, t);
    }
    Descent((s: Task, w: World, t: Task) => IsPassTo(cfg, s, w, t), (s: Task, w: World, t: Task) => CountedPass(cfg, s, w, t),
      (s: Task) => Rank(cfg, MeasureOf(cfg, s)), trace, worlds, n);
  }
}
