/** Where the results of a parallel batch's attempts come from, up to their merges. */
module BatchEvidence {
  import opened Option
  import opened TaskState
  import opened AutoLoop
  import opened MergeGate
  import opened Evidence
  import opened NodePipeline
  import opened ParallelBatch
  import opened BatchResults
  import opened WorkerIsolation
  import opened MergeQueue
  import opened ParallelChain
  import opened ParallelSafety
  import AutoSafety

  /** Whatever is stored on the attempt is an answer of `w`, and it was not merged. */
  predicate Answered(cfg: Config, w: World, a: Attempt) {
    && a.phase != AtMerged
    && (a.exitCode.Some? ==> w.implementer.Implemented? && a.exitCode == Some(w.implementer.exitCode))
    && TestedBy(cfg, w, a.testStatus)
    && (a.reviews != [] ==> ReviewedBy(w, a.reviews))
  }

  predicate Untried(a: Attempt) {
    a.exitCode.None? && a.testStatus == NotTested && a.decision.None? && a.reviews == [] && a.phase != AtMerged
  }

  // ---------------------------------------------------------------- one worker

  lemma FailIsAnswered(cfg: Config, s: Task, k: nat, e: Error, w: World)
    requires k < |s.history| && Answered(cfg, w, s.history[k])
    ensures k < |FailAt(s, k, e).state.history| && Answered(cfg, w, FailAt(s, k, e).state.history[k])
  {
    FailingMarks(Focus(s, k), e);
    assert FailAt(s, k, e).state.history[k] == Last(FailAttempt(Focus(s, k), e).state);
  }

  lemma BlameIsAnswered(cfg: Config, s: Task, k: nat, e: Error, w: World)
    requires k < |s.history| && s.graph.Some? && Answered(cfg, w, s.history[k])
    ensures k < |FailAttempt(s, e).state.history| && Answered(cfg, w, FailAttempt(s, e).state.history[k])
  {
    BlameAttempt(s, k, e);
  }

  lemma ImplementIsAnswered(cfg: Config, s: Task, k: nat, w: World)
    requires k < |s.history| && s.graph.Some? && s.history[k].hasPlan && w.worktreeAdded && Untried(s.history[k])
    ensures var r := ImplementingAt(s, k, w);
      && k < |r.state.history| && Answered(cfg, w, r.state.history[k])
      && (r.Ok? ==> r.state.history[k].testStatus == NotTested && r.state.history[k].decision.None?)
  {
    var t := ImplementerWrote(s, k, w);
    ImplementIs(s, k, w);
    FailIsAnswered(cfg, t, k, ImplementingError, w);
    BlameIsAnswered(cfg, t, k, ImplementingError, w);
  }

  lemma TestIsAnswered(cfg: Config, s: Task, k: nat, w: World)
    requires k < |s.history| && Answered(cfg, w, s.history[k]) && s.history[k].decision.None?
    ensures var a := TestingAt(cfg, s, k, w).history[k]; Answered(cfg, w, a) && a.decision.None?
  {
  }

  lemma ReviewIsAnswered(cfg: Config, s: Task, k: nat, w: World)
    requires k < |s.history| && Answered(cfg, w, s.history[k]) && s.history[k].decision.None?
    ensures var r := ReviewingAt(s, k, w); k < |r.state.history| && Answered(cfg, w, r.state.history[k])
  {
    ReviewIs(s, k, w);
    if w.reviewers != [] && ReviewerFailed(w.reviewers) {
      FailIsAnswered(cfg, PutAttempt(s, k, Labelled(s.history[k].(phase := AtReviewing), FirstFailure(w.reviewers))), k, ReviewError, w);
    }
  }

  lemma AfterSetupIsAnswered(cfg: Config, s: Task, k: nat, w: World)
    requires k < |s.history| && s.graph.Some? && s.history[k].hasPlan && w.worktreeAdded && Untried(s.history[k])
    ensures var done := ImplementingAt(s, k, w);
      var r := if done.Ok? then ReviewingAt(TestingAt(cfg, done.state, k, w), k, w) else done;
      k < |r.state.history| && Answered(cfg, w, r.state.history[k])
  {
    ImplementIsAnswered(cfg, s, k, w);
    var done := ImplementingAt(s, k, w);
    if done.Ok? {
      TestIsAnswered(cfg, done.state, k, w);
      ReviewIsAnswered(cfg, TestingAt(cfg, done.state, k, w), k, w);
    }
  }

  /** However a worker ends, what it stores on its attempt is what its own inputs answered. */
  lemma PipelineIsAnswered(cfg: Config, s: Task, k: nat, id: string, w: World)
    requires Fits(s, k, id) && Untried(s.history[k])
    ensures var t := ThePipeline(cfg)(s, k, id, w).state; k < |t.history| && Answered(cfg, w, t.history[k])
  {
    var s1 := Started(s, k, id);
    StartedTouches(s, k, id);
    SetupTouches(cfg, s1, k, w);
    var ready := SetupAt(cfg, s1, k, w);
    if ready.Ok? { AfterSetupIsAnswered(cfg, ready.state, k, w); }
  }

  // ---------------------------------------------------------------- the batch

  lemma AloneIsAnswered(cfg: Config, s: Shared, ids: seq<string>, worlds: seq<World>, j: nat)
    requires Startable(s, ids) && |worlds| == |ids| && j < |ids|
    ensures Answered(cfg, worlds[j], Alone(PipelineBatch(ThePipeline(cfg), s, ids, worlds), WithAttempts(s, ids), j).attempt)
  {
    var t, k, _ := AloneRunsPipe(ThePipeline(cfg), s, ids, worlds, j);
    PipelineIsAnswered(cfg, t, k, ids[j], worlds[j]);
  }

  /** Each attempt from `base` on holds answers of its own worker's inputs. */
  ghost predicate AllAnswered(cfg: Config, t: Task, base: nat, worlds: seq<World>) {
    base + |worlds| <= |t.history| && forall m: nat | base <= m < base + |worlds| :: Answered(cfg, worlds[m - base], t.history[m])
  }

  lemma LeftIsAnswered(cfg: Config, b: Batch, p: Shared, blamed: bool, r: Shared, j: nat, w: World)
    requires Conserved(b, p, blamed, r) && j < |b.ids| && |p.task.history| == b.base + |b.ids| && Answered(cfg, w, Alone(b, p, j).attempt)
    ensures b.base + j < |r.task.history| && Answered(cfg, w, r.task.history[b.base + j])
  {
  }

  lemma ConservedIsAnswered(cfg: Config, b: Batch, p: Shared, blamed: bool, r: Shared, worlds: seq<World>)
    requires Conserved(b, p, blamed, r) && |p.task.history| == b.base + |b.ids| && |worlds| == |b.ids|
    requires forall j: nat | j < |b.ids| :: Answered(cfg, worlds[j], Alone(b, p, j).attempt)
    ensures AllAnswered(cfg, r.task, b.base, worlds)
  {
    forall m: nat | b.base <= m < b.base + |worlds| ensures Answered(cfg, worlds[m - b.base], r.task.history[m]) {
      LeftIsAnswered(cfg, b, p, blamed, r, m - b.base, worlds[m - b.base]);
    }
  }

  /** After a batch, in every interleaving, each of its attempts holds what its own worker's inputs answered. */
  lemma BatchIsAnswered(cfg: Config, s: Shared, ids: seq<string>, worlds: seq<World>, moves: seq<Move>, trace: seq<State>)
    requires Startable(s, ids) && |worlds| == |ids|
    requires Runs(PipelineBatch(ThePipeline(cfg), s, ids, worlds), WithAttempts(s, ids), moves, trace)
    requires Drained(PipelineBatch(ThePipeline(cfg), s, ids, worlds), moves)
    ensures AllAnswered(cfg, trace[|moves|].shared.task, |s.task.history|, worlds)
  {
    var b, p := PipelineBatch(ThePipeline(cfg), s, ids, worlds), WithAttempts(s, ids);
    BatchOfPipelinesConserves(cfg, s, ids, worlds, moves, trace);
    PreparedHistory(s, ids);
    forall j: nat | j < |b.ids| ensures Answered(cfg, worlds[j], Alone(b, p, j).attempt) {
      AloneIsAnswered(cfg, s, ids, worlds, j);
    }
    ConservedIsAnswered(cfg, b, p, BlamedLater(b, moves), trace[|moves|].shared, worlds);
  }

  // ---------------------------------------------------------------- the merge loop

  /** Finalising leaves exit code, tests and reviews as they are. */
  predicate SameResults(a: Attempt, c: Attempt) {
    c.exitCode == a.exitCode && c.testStatus == a.testStatus && c.decision == a.decision && c.reviews == a.reviews
  }

  lemma TurnKeepsResults(cfg: Config, l: Loop, w: World, m: nat)
    requires Sane(l.disk) && m < |l.disk.task.history|
    ensures m < |Turn(cfg, l, w).disk.task.history| && SameResults(l.disk.task.history[m], Turn(cfg, l, w).disk.task.history[m])
  {
    var s := l.disk;
    if s.queue != [] && AttemptFor(s, s.queue[0]).Some? {
      var k := AttemptFor(s, s.queue[0]).value;
      TurnFinalises(cfg, l, w);
      FinalizingSettles(cfg, s.task, k, w);
      FinalizingKeepsResults(cfg, s.task, k, w);
    } else if s.queue != [] {
      assert AttemptFor(s.(queue := s.queue[1..]), s.queue[0]).None?;
    }
  }

  lemma FinalizingKeepsResults(cfg: Config, s: Task, k: nat, w: World)
    requires k < |s.history|
    ensures k < |FinalizingAt(cfg, s, k, w).state.history| && SameResults(s.history[k], FinalizingAt(cfg, s, k, w).state.history[k])
  {
  }

  lemma {:induction false} TurnsKeepResults(cfg: Config, l: Loop, worlds: seq<World>, m: nat)
    requires Sane(l.disk) && m < |l.disk.task.history|
    ensures m < |Turns(cfg, l, worlds).disk.task.history| && SameResults(l.disk.task.history[m], Turns(cfg, l, worlds).disk.task.history[m])
    ensures Sane(Turns(cfg, l, worlds).disk)
    decreases |worlds|
  {
    if !Over(l) && worlds != [] {
      TurnKeepsResults(cfg, l, worlds[0], m);
      TurnIsSane(cfg, l, worlds[0]);
      TurnsKeepResults(cfg, Turn(cfg, l, worlds[0]), worlds[1..], m);
    }
  }

  // ---------------------------------------------------------------- a merged attempt of a batch

  /**
   * What stands behind the merge of an attempt whose worker had the inputs `w`, in a turn of the loop on
   * the inputs `answer`.
   */
  ghost predicate RestsOnWorker(cfg: Config, l: Loop, answer: World, m: nat, w: World) {
    && TurnMerges(cfg, l, answer, m) && answer.merger.Merges?
    && w.implementer.Implemented? && w.implementer.exitCode == 0
    && (cfg.hasTestCommand ==> w.tests == TestsReturn(0))
    && (!cfg.hasTestCommand ==> MayGoUntested(cfg, Turn(cfg, l, answer).disk.task, Turn(cfg, l, answer).disk.task.history[m]))
    && w.reviewers != [] && forall i | 0 <= i < |w.reviewers| :: w.reviewers[i] == Reviewer.Reviewed(Approve)
  }

  lemma MergedIsAnswered(cfg: Config, l: Loop, answer: World, m: nat, w: World)
    requires TurnMerges(cfg, l, answer, m) && Answered(cfg, w, l.disk.task.history[m]) && Sane(l.disk)
    ensures RestsOnWorker(cfg, l, answer, m, w)
  {
    TurnKeepsResults(cfg, l, answer, m);
    assert ReviewedBy(w, Turn(cfg, l, answer).disk.task.history[m].reviews);
  }

  lemma LoopMergesOnAnswers(cfg: Config, r: Shared, answers: seq<World>, m: nat, w: World) returns (n: nat)
    requires Sane(r) && m < |r.task.history| == |Turns(cfg, Begin(r), answers).disk.task.history|
    requires AutoSafety.AttemptOk(r.task.history[m]) && Answered(cfg, w, r.task.history[m])
    requires Turns(cfg, Begin(r), answers).disk.task.history[m].phase == AtMerged
    ensures n < |answers| && RestsOnWorker(cfg, Turns(cfg, Begin(r), answers[..n]), answers[n], m, w)
  {
    n := LoopMergesThroughGate(cfg, Begin(r), answers, m);
    TurnsKeepResults(cfg, Begin(r), answers[..n], m);
    MergedIsAnswered(cfg, Turns(cfg, Begin(r), answers[..n]), answers[n], m, w);
  }

  /**
   * Every attempt of a batch that the merge loop after it has merged, in whatever interleaving the batch
   * ran, had a worker whose own implementer returned 0, whose tests returned 0, or had no command where
   * the task or the policy of its node allows that, and whose reviewers all approved; some turn of the
   * loop merged it through the gate.
   */
  lemma BatchMergesRestOnAnswers(cfg: Config, s: Shared, ids: seq<string>, worlds: seq<World>, moves: seq<Move>, trace: seq<State>,
      answers: seq<World>, m: nat) returns (n: nat)
    requires EndsWith(cfg, s, ids, worlds, moves, trace) && Sane(s) && RunningOk(s) && AutoSafety.AttemptsOk(s.task)
    requires |s.task.history| <= m < |s.task.history| + |ids|
    requires var h := Turns(cfg, Begin(trace[|moves|].shared), answers).disk.task.history; m < |h| && h[m].phase == AtMerged
    ensures n < |answers|
    ensures RestsOnWorker(cfg, Turns(cfg, Begin(trace[|moves|].shared), answers[..n]), answers[n], m, worlds[m - |s.task.history|])
  {
    var r := trace[|moves|].shared;
    BatchIsAnswered(cfg, s, ids, worlds, moves, trace);
    BatchKeepsAttemptsOk(cfg, s, ids, worlds, moves, trace);
    BatchEndsSane(cfg, s, ids, worlds, moves, trace);
    TurnsKeepLength(cfg, Begin(r), answers);
    n := LoopMergesOnAnswers(cfg, r, answers, m, worlds[m - |s.task.history|]);
  }

  lemma {:induction false} TurnsKeepLength(cfg: Config, l: Loop, worlds: seq<World>)
    requires Sane(l.disk)
    ensures |Turns(cfg, l, worlds).disk.task.history| == |l.disk.task.history|
    decreases |worlds|
  {
    if !Over(l) && worlds != [] {
      TurnIsSane(cfg, l, worlds[0]);
      TurnsKeepLength(cfg, Turn(cfg, l, worlds[0]), worlds[1..]);
    }
  }
}
