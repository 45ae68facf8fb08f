/** The merge gate on the parallel path: from a worker's attempt through the batch to the merge loop. */
module ParallelSafety {
  import opened Option
  import opened TaskGraph
  import opened TaskState
  import opened AutoLoop
  import opened AutoSafety
  import opened MergeGate
  import opened NodePipeline
  import opened ParallelBatch
  import opened BatchResults
  import opened WorkerIsolation
  import opened MergeQueue

  // ---------------------------------------------------------------- one worker

  lemma FailingMarks(s: Task, e: Error)
    requires s.history != []
    ensures var a := Last(FailAttempt(s, e).state); a == Last(s) || a == Last(s).(phase := AtFailed)
  {
  }

  lemma FailKeepsOk(s: Task, k: nat, e: Error)
    requires k < |s.history| && AttemptOk(s.history[k])
    ensures AttemptOk(FailAt(s, k, e).state.history[k])
  {
    FailingMarks(Focus(s, k), e);
    assert FailAt(s, k, e).state.history[k] == Last(FailAttempt(Focus(s, k), e).state);
  }

  lemma BlameKeepsOk(s: Task, k: nat, e: Error)
    requires k < |s.history| && s.graph.Some? && AttemptOk(s.history[k])
    ensures k < |FailAttempt(s, e).state.history| && AttemptOk(FailAttempt(s, e).state.history[k])
  {
    BlameAttempt(s, k, e);
  }

  lemma ImplementKeepsOk(s: Task, k: nat, w: World)
    requires k < |s.history| && s.graph.Some? && s.history[k].hasPlan && w.worktreeAdded
    requires AttemptOk(s.history[k]) && s.history[k].phase != AtMerged
    ensures var r := ImplementingAt(s, k, w);
      AttemptOk(r.state.history[k]) && (r.Ok? ==> r.state.history[k].hasPlan && r.state.graph.Some? && r.state.history[k].phase != AtMerged)
  {
    var t := ImplementerWrote(s, k, w);
    ImplementIs(s, k, w);
    assert AttemptOk(t.history[k]);
    FailKeepsOk(t, k, ImplementingError);
    BlameKeepsOk(t, k, ImplementingError);
  }

  lemma TestKeepsOk(cfg: Config, s: Task, k: nat, w: World)
    requires k < |s.history| && s.history[k].hasPlan && AttemptOk(s.history[k]) && s.history[k].phase != AtMerged
    ensures var a := TestingAt(cfg, s, k, w).history[k]; AttemptOk(a) && a.testStatus != NotTested && a.phase != AtMerged
  {
  }

  lemma ReviewedIsOk(a: Attempt, rs: seq<Reviewer>)
    requires AttemptOk(a) && a.testStatus != NotTested && rs != [] && forall k | 0 <= k < |rs| :: rs[k].Reviewed?
    ensures AttemptOk(ReviewedAttempt(a, rs))
  {
  }

  lemma ReviewKeepsOk(s: Task, k: nat, w: World)
    requires k < |s.history| && AttemptOk(s.history[k]) && s.history[k].testStatus != NotTested && s.history[k].phase != AtMerged
    ensures AttemptOk(ReviewingAt(s, k, w).state.history[k])
  {
    var a := s.history[k];
    var b := Labelled(a.(phase := AtReviewing), FirstFailure(w.reviewers));
    ReviewIs(s, k, w);
    if a.decision.None? {
      if w.reviewers != [] && ReviewerFailed(w.reviewers) {
        FailKeepsOk(PutAttempt(s, k, b), k, ReviewError);
      } else if w.reviewers != [] {
        ReviewedIsOk(a, w.reviewers);
      }
    }
  }

  lemma AfterSetupKeepsOk(cfg: Config, s: Task, k: nat, w: World)
    requires k < |s.history| && s.graph.Some? && s.history[k].hasPlan && w.worktreeAdded
    requires AttemptOk(s.history[k]) && s.history[k].phase != AtMerged
    ensures var done := ImplementingAt(s, k, w);
      var r := if done.Ok? then ReviewingAt(TestingAt(cfg, done.state, k, w), k, w) else done;
      AttemptOk(r.state.history[k])
  {
    ImplementKeepsOk(s, k, w);
    var done := ImplementingAt(s, k, w);
    if done.Ok? {
      TestKeepsOk(cfg, done.state, k, w);
      ReviewKeepsOk(TestingAt(cfg, done.state, k, w), k, w);
    }
  }

  /** A worker's attempt rests on tests that ran and on the whole chain of reviews, however the worker ends. */
  lemma PipelineKeepsOk(cfg: Config, s: Task, k: nat, id: string, w: World)
    requires Fits(s, k, id) && AttemptOk(s.history[k])
    ensures var t := ThePipeline(cfg)(s, k, id, w).state; k < |t.history| && AttemptOk(t.history[k])
  {
    var s1 := Started(s, k, id);
    StartedTouches(s, k, id);
    SetupTouches(cfg, s1, k, w);
    var ready := SetupAt(cfg, s1, k, w);
    if ready.Ok? {
      AfterSetupKeepsOk(cfg, ready.state, k, w);
    }
  }

  // ---------------------------------------------------------------- the batch

  lemma AloneIsOk(cfg: Config, s: Shared, ids: seq<string>, worlds: seq<World>, j: nat)
    requires Startable(s, ids) && |worlds| == |ids| && j < |ids|
    ensures AttemptOk(Alone(PipelineBatch(ThePipeline(cfg), s, ids, worlds), WithAttempts(s, ids), j).attempt)
  {
    var t, k, _ := AloneRunsPipe(ThePipeline(cfg), s, ids, worlds, j);
    PipelineKeepsOk(cfg, t, k, ids[j], worlds[j]);
  }

  lemma ConservedAttempt(b: Batch, p: Shared, blamed: bool, r: Shared, m: nat)
    requires Conserved(b, p, blamed, r) && m < |p.task.history| == b.base + |b.ids|
    requires m < b.base ==> AttemptOk(p.task.history[m])
    requires m >= b.base ==> AttemptOk(Alone(b, p, m - b.base).attempt)
    ensures AttemptOk(r.task.history[m])
  {
  }

  lemma ConservedKeepsOk(b: Batch, p: Shared, blamed: bool, r: Shared)
    requires Conserved(b, p, blamed, r) && |p.task.history| == b.base + |b.ids|
    requires forall m: nat | m < b.base :: AttemptOk(p.task.history[m])
    requires forall j: nat | j < |b.ids| :: AttemptOk(Alone(b, p, j).attempt)
    ensures AttemptsOk(r.task)
  {
    forall m: nat | m < |r.task.history| ensures AttemptOk(r.task.history[m]) {
      if m >= b.base { assert AttemptOk(Alone(b, p, m - b.base).attempt); }
      ConservedAttempt(b, p, blamed, r, m);
    }
  }

  /** So after a batch every attempt of the task is still what the gates take it for. */
  lemma BatchKeepsAttemptsOk(cfg: Config, s: Shared, ids: seq<string>, worlds: seq<World>, moves: seq<Move>, trace: seq<State>)
    requires Startable(s, ids) && |worlds| == |ids| && AttemptsOk(s.task)
    requires Runs(PipelineBatch(ThePipeline(cfg), s, ids, worlds), WithAttempts(s, ids), moves, trace)
    requires Drained(PipelineBatch(ThePipeline(cfg), s, ids, worlds), moves)
    ensures AttemptsOk(trace[|moves|].shared.task)
  {
    var b, p := PipelineBatch(ThePipeline(cfg), s, ids, worlds), WithAttempts(s, ids);
    BatchOfPipelinesConserves(cfg, s, ids, worlds, moves, trace);
    PreparedHistory(s, ids);
    forall j: nat | j < |b.ids| ensures AttemptOk(Alone(b, p, j).attempt) {
      AloneIsOk(cfg, s, ids, worlds, j);
    }
    ConservedKeepsOk(b, p, BlamedLater(b, moves), trace[|moves|].shared);
  }

  // ---------------------------------------------------------------- the merge loop

  lemma FinalizingKeepsOk(cfg: Config, s: Task, k: nat, w: World)
    requires k < |s.history| && AttemptOk(s.history[k]) && s.history[k].phase != AtMerged && FinalizingAt(cfg, s, k, w).Ok?
    ensures AttemptOk(FinalizingAt(cfg, s, k, w).state.history[k])
  {
    GatesReadTheGraph(cfg, s, Focus(s, k), s.history[k], w.changedFiles);
  }

  lemma TurnKeepsAttemptOk(cfg: Config, l: Loop, w: World, m: nat)
    requires Sane(l.disk) && m < |l.disk.task.history| == |Turn(cfg, l, w).disk.task.history|
    requires AttemptOk(l.disk.task.history[m]) && l.disk.task.history[m].phase != AtMerged
    ensures AttemptOk(Turn(cfg, l, w).disk.task.history[m])
  {
    var s := l.disk;
    if s.queue != [] && AttemptFor(s, s.queue[0]).Some? {
      var k := AttemptFor(s, s.queue[0]).value;
      TurnFinalises(cfg, l, w);
      FinalizingSettles(cfg, s.task, k, w);
      if m == k { FinalizingKeepsOk(cfg, s.task, k, w); }
    }
  }

  lemma FinalizingMerges(cfg: Config, s: Task, k: nat, w: World)
    requires k < |s.history| && AttemptOk(s.history[k]) && FinalizingAt(cfg, s, k, w).Ok?
    requires s.history[k].phase != AtMerged && FinalizingAt(cfg, s, k, w).state.history[k].phase == AtMerged
    ensures var t := FinalizingAt(cfg, s, k, w).state; GateHolds(cfg, w, t, t.history[k])
  {
    var t, a := FinalizingAt(cfg, s, k, w).state, s.history[k];
    FinalizingMergesThroughGate(cfg, s, k, w);
    assert t.history[k] == a.(phase := AtMerged, mergeError := None, failureType := None);
    assert !(s.graph.Some? && a.nodeId != "") ==> t.graph == s.graph;
    MarkedKeepsPolicy(s, t, a, t.history[k]);
    GateStandsAfterMerge(cfg, w, s, t, a, t.history[k]);
  }

  /**
   * A turn of the merge loop merges nothing but the attempt of the queue's head, and that only
   * where the merge goes through, with implementer exit 0, every reviewer of its chain approving,
   * tests passed, or skipped where the policy of its node allows it, and no more changed files than
   * its node or the task allows; its node has then passed.
   */
  lemma TurnMergesThroughGate(cfg: Config, l: Loop, w: World, m: nat)
    requires Sane(l.disk) && !Over(l) && m < |l.disk.task.history| == |Turn(cfg, l, w).disk.task.history| && AttemptOk(l.disk.task.history[m])
    requires l.disk.task.history[m].phase != AtMerged && Turn(cfg, l, w).disk.task.history[m].phase == AtMerged
    ensures l.disk.queue != [] && AttemptFor(l.disk, l.disk.queue[0]) == Some(m)
    ensures GateHolds(cfg, w, Turn(cfg, l, w).disk.task, Turn(cfg, l, w).disk.task.history[m])
    ensures var a, g := l.disk.task.history[m], l.disk.task.graph;
      g.Some? && a.nodeId != "" ==> Turn(cfg, l, w).disk.task.graph == MarkPassed(g.value, a.nodeId, a.iteration)
  {
    var s := l.disk;
    if s.queue != [] && AttemptFor(s, s.queue[0]).Some? {
      var k := AttemptFor(s, s.queue[0]).value;
      TurnFinalises(cfg, l, w);
      FinalizingSettles(cfg, s.task, k, w);
      assert m == k;
      FinalizingMergesThroughGate(cfg, s.task, k, w);
      FinalizingMerges(cfg, s.task, k, w);
    }
  }

  /**
   * The attempt of the queue's head is merged exactly when the fields of its node, of the task and of the
   * attempt allow it and the merge goes through.
   */
  lemma TurnMergesExactlyWhen(cfg: Config, l: Loop, w: World, k: nat)
    requires Sane(l.disk) && l.disk.queue != [] && AttemptFor(l.disk, l.disk.queue[0]) == Some(k)
    requires k < |l.disk.task.history| && l.disk.task.history[k].phase != AtMerged
    ensures k < |Turn(cfg, l, w).disk.task.history|
    ensures Turn(cfg, l, w).disk.task.history[k].phase == AtMerged <==>
      MayMerge(cfg, l.disk.task, l.disk.task.history[k], w.changedFiles) && w.merger.Merges?
  {
    var s := l.disk.task;
    TurnFinalises(cfg, l, w);
    FinalizingMergesExactlyWhen(cfg, Focus(s, k), w);
    GatesReadTheGraph(cfg, s, Focus(s, k), s.history[k], w.changedFiles);
    CanAutoMergeExactlyWhen(cfg, s, s.history[k], w.changedFiles);
    CanAutoMergeExactlyWhen(cfg, Focus(s, k), s.history[k], w.changedFiles);
  }

  /** The turn from `l` on the inputs `w` merged attempt `m` through the gate. */
  ghost predicate TurnMerges(cfg: Config, l: Loop, w: World, m: nat) {
    var s, t := l.disk.task, Turn(cfg, l, w).disk.task;
    m < |s.history| == |t.history| && s.history[m].phase != AtMerged && t.history[m].phase == AtMerged && GateHolds(cfg, w, t, t.history[m])
  }

  /** Through the whole loop: whatever it merged, one of its turns merged through the gate, on that turn's inputs. */
  lemma {:induction false} LoopMergesThroughGate(cfg: Config, l: Loop, worlds: seq<World>, m: nat) returns (n: nat)
    requires Sane(l.disk) && m < |l.disk.task.history| == |Turns(cfg, l, worlds).disk.task.history| && AttemptOk(l.disk.task.history[m])
    requires l.disk.task.history[m].phase != AtMerged && Turns(cfg, l, worlds).disk.task.history[m].phase == AtMerged
    ensures n < |worlds| && TurnMerges(cfg, Turns(cfg, l, worlds[..n]), worlds[n], m)
    decreases |worlds|
  {
    var next := Turn(cfg, l, worlds[0]);
    TurnIsSane(cfg, l, worlds[0]);
    TurnKeepsAttemptOk(cfg, l, worlds[0], m);
    if next.disk.task.history[m].phase == AtMerged {
      FirstTurnMerges(cfg, l, worlds[0], m);
      n := 0;
      assert Turns(cfg, l, worlds[..0]) == l;
    } else {
      var rest := LoopMergesThroughGate(cfg, next, worlds[1..], m);
      n := rest + 1;
      TurnsGoOn(cfg, l, worlds, n);
    }
  }

  lemma TurnsGoOn(cfg: Config, l: Loop, worlds: seq<World>, n: nat)
    requires !Over(l) && 0 < n <= |worlds|
    ensures Turns(cfg, l, worlds[..n]) == Turns(cfg, Turn(cfg, l, worlds[0]), worlds[1..][..n - 1])
  {
    assert worlds[..n][1..] == worlds[1..][..n - 1];
  }

  lemma FirstTurnMerges(cfg: Config, l: Loop, w: World, m: nat)
    requires Sane(l.disk) && !Over(l) && m < |l.disk.task.history| && AttemptOk(l.disk.task.history[m])
    requires l.disk.task.history[m].phase != AtMerged
    requires m < |Turn(cfg, l, w).disk.task.history| && Turn(cfg, l, w).disk.task.history[m].phase == AtMerged
    ensures TurnMerges(cfg, l, w, m)
  {
    TurnIsSane(cfg, l, w);
    TurnMergesThroughGate(cfg, l, w, m);
  }

  lemma TurnIsSane(cfg: Config, l: Loop, w: World)
    requires Sane(l.disk)
    ensures Sane(Turn(cfg, l, w).disk) && |Turn(cfg, l, w).disk.task.history| == |l.disk.task.history|
  {
    var s := l.disk;
    if s.queue != [] && AttemptFor(s, s.queue[0]).Some? {
      TurnFinalises(cfg, l, w);
      FinalizingSettles(cfg, s.task, AttemptFor(s, s.queue[0]).value, w);
    } else if s.queue != [] {
      assert AttemptFor(s.(queue := s.queue[1..]), s.queue[0]).None?;
    }
  }
}
