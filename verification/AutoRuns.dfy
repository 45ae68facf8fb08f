/** The invariants of AutoSafety over every pass of the loop, and over every run. */
module AutoRuns {
  import opened Option
  import opened TaskGraph
  import opened TaskState
  import opened AutoLoop
  import opened Runs
  import opened AutoSafety
  import opened MergeGate
  import opened AutoTermination

  // ---------------------------------------------------------------- edits outside the pipelines

  lemma EditLastKeepsInv(s: Task, a: Attempt)
    requires Inv(s) && s.history != [] && AttemptOk(a)
    requires a.phase == Last(s).phase && a.nodeId == Last(s).nodeId && a.iteration == Last(s).iteration
    ensures Inv(SetLast(s, a))
  {
    var t := SetLast(s, a);
    assert s.history[|s.history| - 1] == Last(s);
    forall id ensures HasMerged(s, id) <==> HasMerged(t, id) {
      SameAttemptsMerged(s, t, id);
    }
  }

  lemma RecheckKeeps(s: Task, w: World)
    requires Inv(s)
    ensures Inv(Rechecked(s, w))
  {
    if s.history != [] && Last(s).failureType == Some(PatchNotCaptured) && w.capturedAtDispatch {
      assert AttemptOk(Last(s));
      EditLastKeepsInv(s, Last(Reconciled(s)));
    }
  }

  lemma FailureKeeps(s: Task, kind: FailureType)
    requires Inv(s) && kind != PatchNotCaptured
    ensures Inv(WithFailure(s, kind))
  {
    if s.history != [] {
      assert AttemptOk(Last(s));
      EditLastKeepsInv(s, Last(s).(failureType := Some(kind)));
    }
  }

  lemma AppendedIsOpen(s: Task, t: Task, a: Attempt)
    requires Inv(s) && t.history == s.history + [a] && t.graph == s.graph && t.status == TaskRunning
    requires AttemptOk(a) && a.phase != AtMerged
    requires a.nodeId == "" || (s.history != [] && Last(s).phase != AtMerged && a.nodeId == Last(s).nodeId)
    ensures Open(t)
  {
    forall id ensures HasMerged(s, id) ==> HasMerged(t, id) {
      if HasMerged(s, id) {
        var k :| 0 <= k < |s.history| && s.history[k].phase == AtMerged && s.history[k].nodeId == id;
        assert t.history[k] == s.history[k];
      }
    }
    if s.graph.Some? { KnownId(s.graph.value, ""); }
    if a.nodeId != "" { assert s.history[|s.history| - 1] == Last(s); }
    assert forall k | 0 <= k < |s.history| :: t.history[k] == s.history[k];
  }

  // ---------------------------------------------------------------- executors

  lemma RunKeeps(cfg: Config, s: Task, w: World)
    requires Inv(s) && WorldOk(w)
    ensures ExecuteRun(cfg, s, w) == Raised(s, RunError) || Ended(cfg, w, ExecuteRun(cfg, s, w))
  {
    if ExecuteRun(cfg, s, w) != Raised(s, RunError) {
      AppendedIsOpen(s, Prepared(s), Last(Prepared(s)));
      FromPlanningKeeps(cfg, Prepared(s), w);
    }
  }

  lemma InvIsOpen(s: Task)
    requires Inv(s) && s.history != [] && Last(s).phase != AtMerged && s.status != TaskDone
    ensures Open(s)
  {
  }

  lemma ReconciledKeeps(cfg: Config, s: Task, w: World)
    requires Open(s) && Last(s).failureType == Some(PatchNotCaptured)
    ensures Ended(cfg, w, TestReconciled(cfg, s, w))
  {
    assert AttemptOk(Last(s));
    SameGraphIsQuiet(s, Reconciled(s).(status := TaskRunning));
    FromTestsKeeps(cfg, Reconciled(s).(status := TaskRunning), w);
  }

  lemma ContinueKeeps(cfg: Config, s: Task, w: World)
    requires Open(s) && WorldOk(w)
    ensures Ended(cfg, w, ContinueAttempt(cfg, s, w))
  {
    if Last(s).failureType == Some(PatchNotCaptured) && w.capturedBeforeStep {
      ReconciledKeeps(cfg, s, w);
    } else {
      RestartedKeeps(cfg, s, w);
    }
  }

  lemma RestartedKeeps(cfg: Config, s: Task, w: World)
    requires Open(s) && WorldOk(w)
    ensures Ended(cfg, w, RunFrom(cfg, s.(status := TaskRunning), Last(s).phase, w))
  {
    assert AttemptOk(Last(s));
    SameGraphIsQuiet(s, s.(status := TaskRunning));
    RunFromKeeps(cfg, s.(status := TaskRunning), Last(s).phase, w);
  }

  lemma ResumeKeeps(cfg: Config, s: Task, w: World)
    requires Inv(s) && WorldOk(w)
    ensures ExecuteResume(cfg, s, w) == Raised(s, ResumeError) || Ended(cfg, w, ExecuteResume(cfg, s, w))
  {
    if ExecuteResume(cfg, s, w) == Raised(s, ResumeError) { return; }
    var a := Last(s);
    assert AttemptOk(a);
    InvIsOpen(s);
    if a.phase == AtRejected {
      AppendedIsOpen(s, Retried(s), Last(Retried(s)));
      FromPlanningKeeps(cfg, Retried(s), w);
    } else if a.phase == AtApproved {
      FinalizingKeeps(cfg, s, w);
    } else {
      ContinueKeeps(cfg, s, w);
    }
  }

  lemma RepairRunKeeps(s: Task, w: World)
    requires Open(s) && Last(s).hasPlan
    requires Last(s).testStatus == NotTested && Last(s).decision.None?
    ensures Steady(RepairRun(s, w)) && Last(RepairRun(s, w).state).hasPlan
  {
    var s1 := SetLast(s, Last(s).(phase := AtExecuting));
    assert AttemptOk(Last(s));
    SameGraphIsQuiet(s, s1);
    match w.implementer {
      case ImplementerUnavailable =>
      case Implemented(code, abnormal, uncaptured, _) =>
        var s2 := SetLast(s1, Last(s1).(exitCode := Some(code), failureType := CaptureState(Last(s1), code, uncaptured)));
        SameGraphIsQuiet(s1, s2);
        if abnormal || code != 0 { FailKeeps(s2, ImplementingError); }
    }
  }

  lemma RepairKeeps(cfg: Config, s: Task, report: Report, w: World)
    requires Open(s) && Last(s).hasPlan
    ensures ExecuteRepair(cfg, s, report, w) == Raised(s, RunError) || Ended(cfg, w, ExecuteRepair(cfg, s, report, w))
  {
    var a := Last(s);
    assert AttemptOk(a);
    if a.phase == AtApproved && a.decision == Some(Approve) && report.kind != MergeConflict {
    } else if report.kind == PatchNotCaptured && a.failureType == Some(PatchNotCaptured) && w.capturedBeforeStep {
      ReconciledKeeps(cfg, s, w);
    } else {
      RepairedKeeps(cfg, s, report, w);
    }
  }

  lemma SameRepairRun(s: Task, w: World)
    requires s.history != []
    ensures RepairRun(s, w) == RepairRun(SetLast(s, Last(s).(phase := AtExecuting)), w)
  {
    var t := SetLast(s, Last(s).(phase := AtExecuting));
    assert SetLast(t, Last(t).(phase := AtExecuting)) == t;
  }

  /** The phase changes before anything else can see the attempt that was reset. */
  lemma RepairedKeeps(cfg: Config, s: Task, report: Report, w: World)
    requires Open(s) && Last(s).hasPlan
    ensures Ended(cfg, w, Repaired(cfg, SetLast(s.(status := TaskRunning), ResetForRepair(Last(s), report)), report, w))
  {
    var seen := SetLast(s.(status := TaskRunning), ResetForRepair(Last(s), report));
    var reset := SetLast(seen, Last(seen).(phase := AtExecuting));
    assert AttemptOk(Last(s));
    SameGraphIsQuiet(s, reset);
    RepairRunKeeps(reset, w);
    SameRepairRun(seen, w);
    AfterRepairKeeps(cfg, RepairRun(reset, w), report, w);
  }

  /** The end of `execute_repair_recovery`, from the repaired state on. */
  lemma AfterRepairKeeps(cfg: Config, r: Outcome, report: Report, w: World)
    requires Steady(r) && Last(r.state).hasPlan
    ensures r.Raised? ==> Ended(cfg, w, r)
    ensures Ended(cfg, w, FromTests(cfg, r.state, w))
    ensures Ended(cfg, w, FromTests(cfg, SetLast(r.state, Last(r.state).(failureType := None)), w))
    ensures Ended(cfg, w, Ok(r.state.(status := TaskStopped)))
  {
    OpenIsInv(r.state);
    FromTestsKeeps(cfg, r.state, w);
    ClearedKeeps(cfg, r.state, w);
    StoppedKeeps(cfg, r.state, w);
  }

  lemma ClearedKeeps(cfg: Config, s: Task, w: World)
    requires Open(s) && Last(s).hasPlan
    ensures Ended(cfg, w, FromTests(cfg, SetLast(s, Last(s).(failureType := None)), w))
  {
    assert AttemptOk(Last(s));
    var cleared := SetLast(s, Last(s).(failureType := None));
    SameGraphIsQuiet(s, cleared);
    FromTestsKeeps(cfg, cleared, w);
  }

  lemma StoppedKeeps(cfg: Config, s: Task, w: World)
    requires Open(s)
    ensures Ended(cfg, w, Ok(s.(status := TaskStopped)))
  {
    assert AttemptOk(Last(s));
    SameGraphIsQuiet(s, s.(status := TaskStopped));
    OpenIsInv(s.(status := TaskStopped));
  }

  lemma ReplanKeeps(cfg: Config, s: Task, w: World)
    requires Open(s) && WorldOk(w)
    ensures Ended(cfg, w, ExecuteReplan(s, w))
  {
    var r := ExecuteReplan(s, w);
    assert AttemptOk(Last(s));
    if r.Ok? {
      PatchPassesNobody(s.graph.value, w.replanner.ops);
      PassesNobodyKeeps(s.graph.value, r.state.graph.value, Last(s).nodeId, 0);
      QuietKeepsOpen(s, r.state);
    } else {
      SameGraphIsQuiet(s, r.state);
    }
    OpenIsInv(r.state);
  }

  /** The loop repairs and replans open attempts only, and repairs only what was planned. */
  lemma ChosenAttemptIsOpen(cfg: Config, s: Task, w: World)
    requires Inv(s) && s.history != []
    ensures var c := Decide(cfg, s, w);
      && (c.step == StepRepair ==> Open(s) && Last(s).hasPlan)
      && (c.step == StepReplan ==> Open(s))
      && (c.step == StepTerminal && c.report.Some? ==> c.report.value.kind != PatchNotCaptured)
  {
    assert AttemptOk(Last(s));
  }

  lemma CountingKeeps(s: Task, report: Report)
    requires Inv(s) && s.history != []
    ensures Inv(SetLast(s, Counted(Last(s), report)))
  {
    assert AttemptOk(Last(s));
    EditLastKeepsInv(s, Counted(Last(s), report));
  }

  /** The executor refused: the last attempt, if any, is in the phase it was in. */
  ghost predicate Unmoved(s: Task, r: Outcome) {
    Refused(r) && Inv(r.state) && |r.state.history| == |s.history| && (s.history != [] ==> Last(r.state).phase == Last(s).phase)
  }

  lemma RepairStepKeeps(cfg: Config, s: Task, c: Choice, w: World)
    requires Inv(s) && c == Decide(cfg, s, w) && c.step == StepRepair
    ensures var r := Execute(cfg, s, c, w); Unmoved(s, r) || Ended(cfg, w, r)
  {
    RepairHasBudget(cfg, s, w);
    ChosenAttemptIsOpen(cfg, s, w);
    CountingKeeps(s, c.report.value);
    InvIsOpen(SetLast(s, Counted(Last(s), c.report.value)));
    RepairKeeps(cfg, SetLast(s, Counted(Last(s), c.report.value)), c.report.value, w);
  }

  lemma ExecuteKeeps(cfg: Config, s: Task, c: Choice, w: World)
    requires Inv(s) && WorldOk(w) && c == Decide(cfg, s, w) && c.step != StepTerminal && c.step != StepDone
    ensures var r := Execute(cfg, s, c, w); Unmoved(s, r) || Ended(cfg, w, r)
  {
    if s.history != [] { ChosenAttemptIsOpen(cfg, s, w); }
    match c.step {
      case StepRun =>
        RunKeeps(cfg, if s.status == TaskDone then s.(status := TaskStopped) else s, w);
      case StepReplan =>
        if s.history != [] { ReplanKeeps(cfg, s, w); }
      case StepRepair =>
        RepairStepKeeps(cfg, s, c, w);
      case StepMergeRetry =>
        MergeRetryChangesNothing(cfg, s, w);
        ResumeKeeps(cfg, s, w);
      case _ =>
        ResumeKeeps(cfg, s, w);
    }
  }

  /** A failed attempt that is labelled afresh and stopped is still open. */
  lemma RelabelledIsOpen(s: Task, phase: Phase, kind: FailureType)
    requires Open(s) && (phase == AtPlanning || phase == AtExecuting || phase == AtReviewing)
    requires phase == AtReviewing ==> Last(s).testStatus != NotTested
    requires kind != PatchNotCaptured
    ensures Open(SetLast(s.(status := TaskStopped), Last(s).(phase := phase, failureType := Some(kind))))
  {
    assert AttemptOk(Last(s));
    SameGraphIsQuiet(s, SetLast(s.(status := TaskStopped), Last(s).(phase := phase, failureType := Some(kind))));
  }

  lemma HandlingKeeps(cfg: Config, r: Outcome, w: World)
    requires (Refused(r) && Inv(r.state)) || Ended(cfg, w, r)
    ensures Inv(AfterStep(cfg, r, w).state)
  {
    if r.Raised? && !Refused(r) && r.error != Crash && r.state.history != [] {
      var phase := if r.error == PlanningError then AtPlanning else if r.error == ImplementingError then AtExecuting else AtReviewing;
      RelabelledIsOpen(r.state, phase, ProviderReport(w.providerKind).kind);
      OpenIsInv(AfterStep(cfg, r, w).state);
    }
  }

  // ---------------------------------------------------------------- one pass

  /** One pass, whether or not the loop goes on after it. */
  ghost predicate PassTo(cfg: Config, s: Task, w: World, t: Task) {
    WorldOk(w) && t == AutoPass(cfg, s, w).state
  }

  lemma PassKeepsInv(cfg: Config, s: Task, w: World)
    requires Inv(s) && WorldOk(w)
    ensures Inv(AutoPass(cfg, s, w).state)
  {
    if s.history != [] && w.budgetExhausted {
      FailureKeeps(s, BudgetExhausted);
    } else {
      var s1 := Rechecked(s, w);
      RecheckKeeps(s, w);
      var c := Decide(cfg, s1, w);
      if c.step == StepTerminal {
        if s1.history != [] { ChosenAttemptIsOpen(cfg, s1, w); }
        if c.report.Some? && s1.history != [] { FailureKeeps(s1, c.report.value.kind); }
      } else if c.step != StepDone {
        ExecuteKeeps(cfg, s1, c, w);
        HandlingKeeps(cfg, Execute(cfg, s1, c, w), w);
      }
    }
  }

  lemma HandlingMerges(cfg: Config, s: Task, r: Outcome, w: World)
    requires Unmoved(s, r) || Ended(cfg, w, r)
    ensures var t := AfterStep(cfg, r, w).state;
      MergedThroughGate(cfg, w, t) || (|t.history| == |s.history| && s.history != [] && Last(t).phase == Last(s).phase)
  {
  }

  /** The last attempt after a pass is merged only through the gate, or was merged before. */
  lemma LastMergedThroughGate(cfg: Config, s: Task, w: World)
    requires Inv(s) && WorldOk(w)
    ensures var t := AutoPass(cfg, s, w).state;
      MergedThroughGate(cfg, w, t) || (|t.history| == |s.history| && s.history != [] && Last(t).phase == Last(s).phase)
  {
    var s1 := Rechecked(s, w);
    var c := Decide(cfg, s1, w);
    if (s.history != [] && w.budgetExhausted) || c.step == StepTerminal || c.step == StepDone {
    } else {
      RecheckKeeps(s, w);
      ExecuteKeeps(cfg, s1, c, w);
      HandlingMerges(cfg, s1, Execute(cfg, s1, c, w), w);
    }
  }

  /** The attempt is merged in `t` and was not in `s`. */
  ghost predicate NewlyMerged(s: Task, t: Task, k: int) {
    0 <= k < |t.history| && t.history[k].phase == AtMerged && !(k < |s.history| && s.history[k].phase == AtMerged)
  }

  lemma NewMergeIsLast(s: Task, t: Task, m: Move, k: int)
    requires Moved(s, t, m) && NewlyMerged(s, t, k)
    ensures k == |t.history| - 1 && !(|t.history| == |s.history| && s.history != [] && Last(t).phase == Last(s).phase)
  {
  }

  lemma NewMergeIsGated(cfg: Config, s: Task, w: World, t: Task, m: Move, k: int)
    requires Moved(s, t, m) && NewlyMerged(s, t, k)
    requires MergedThroughGate(cfg, w, t) || (|t.history| == |s.history| && s.history != [] && Last(t).phase == Last(s).phase)
    ensures k == |t.history| - 1 && GateHolds(cfg, w, t, t.history[k])
  {
    NewMergeIsLast(s, t, m, k);
  }

  /**
   * An attempt becomes MERGED only in a pass whose merge goes through, with implementer exit 0,
   * every reviewer of its chain approving, tests passed, or skipped where the policy of its node
   * allows that, and no more changed files than its node or the task allows.
   */
  lemma PassMergesThroughGate(cfg: Config, s: Task, w: World, t: Task, k: int)
    requires Inv(s) && PassTo(cfg, s, w, t) && NewlyMerged(s, t, k)
    ensures k == |t.history| - 1 && GateHolds(cfg, w, t, t.history[k])
  {
    var m := PassMoves(cfg, s, w);
    LastMergedThroughGate(cfg, s, w);
    NewMergeIsGated(cfg, s, w, t, m, k);
  }

  /** A merged attempt that is last is left alone: the loop runs on, or ends. */
  lemma MergedIsNotTouched(cfg: Config, s: Task, w: World)
    requires Inv(s) && s.history != [] && Last(s).phase == AtMerged
    ensures Rechecked(s, w) == s
    ensures var c := Decide(cfg, s, w); c.step == StepRun || c.step == StepDone || c.step == StepTerminal
  {
    assert AttemptOk(Last(s));
  }

  /** The attempts of `s` are still there, alike but perhaps for the failure type of the last. */
  ghost predicate Preserved(s: Task, t: Task) {
    |s.history| <= |t.history| &&
    forall k | 0 <= k < |s.history| :: t.history[k] == s.history[k].(failureType := t.history[k].failureType)
  }

  lemma RunPreserves(cfg: Config, s: Task, w: World)
    ensures Preserved(s, ExecuteRun(cfg, s, w).state)
    ensures ExecuteRun(cfg, s, w) == Raised(s, RunError) || |ExecuteRun(cfg, s, w).state.history| == |s.history| + 1
  {
    var r := ExecuteRun(cfg, s, w);
    if r != Raised(s, RunError) {
      assert forall k | 0 <= k < |s.history| :: Prepared(s).history[k] == s.history[k];
    }
  }

  lemma HandlingPreserves(cfg: Config, s: Task, r: Outcome, w: World)
    requires Preserved(s, r.state) && (r == Raised(s, RunError) || |r.state.history| > |s.history|)
    ensures Preserved(s, AfterStep(cfg, r, w).state)
  {
  }

  lemma LastMergedStays(cfg: Config, s: Task, w: World)
    requires Inv(s) && s.history != [] && Last(s).phase == AtMerged
    ensures Preserved(s, AutoPass(cfg, s, w).state)
  {
    MergedIsNotTouched(cfg, s, w);
    var c := Decide(cfg, s, w);
    FailurePreserves(s, BudgetExhausted);
    if c.report.Some? { FailurePreserves(s, c.report.value.kind); }
    if c.step == StepRun { RunStepPreserves(cfg, s, c, w); }
  }

  lemma FailurePreserves(s: Task, kind: FailureType)
    ensures Preserved(s, s) && Preserved(s, WithFailure(s, kind))
  {
  }

  lemma RunStepPreserves(cfg: Config, s: Task, c: Choice, w: World)
    requires c.step == StepRun
    ensures Preserved(s, AfterStep(cfg, Execute(cfg, s, c, w), w).state)
  {
    var s1 := if s.status == TaskDone then s.(status := TaskStopped) else s;
    RunPreserves(cfg, s1, w);
    HandlingPreserves(cfg, s1, ExecuteRun(cfg, s1, w), w);
  }

  /** What is merged stays merged, with everything but its failure type as it was. */
  lemma MergedStays(cfg: Config, s: Task, w: World, k: int)
    requires Inv(s) && 0 <= k < |s.history| && s.history[k].phase == AtMerged
    ensures var t := AutoPass(cfg, s, w).state;
      k < |t.history| && t.history[k] == s.history[k].(failureType := t.history[k].failureType)
  {
    if k == |s.history| - 1 {
      LastMergedStays(cfg, s, w);
    } else {
      var m := PassMoves(cfg, s, w);
      EarlierStays(s, AutoPass(cfg, s, w).state, m, k);
    }
  }

  lemma EarlierStays(s: Task, t: Task, m: Move, k: int)
    requires Moved(s, t, m) && 0 <= k < |s.history| - 1
    ensures k < |t.history| && t.history[k] == s.history[k]
  {
  }

  // ---------------------------------------------------------------- whole runs

  ghost predicate Initial(s: Task) {
    s.history == [] && s.graph.None? && s.status == TaskInitialized && s.iteration == 0
  }

  ghost function PassRelation(cfg: Config): (Task, World, Task) -> bool {
    (s: Task, w: World, t: Task) => PassTo(cfg, s, w, t)
  }

  /** Passes of one or more invocations of the loop, whatever the world answers. */
  ghost predicate AutoRun(cfg: Config, trace: seq<Task>, worlds: seq<World>) {
    IsRun(PassRelation(cfg), trace, worlds) && Initial(trace[0])
  }

  lemma PassesOfRun(cfg: Config, trace: seq<Task>, worlds: seq<World>, n: nat)
    requires AutoRun(cfg, trace, worlds) && n < |worlds|
    ensures PassTo(cfg, trace[n], worlds[n], trace[n + 1])
  {
    assert PassRelation(cfg)(trace[n], worlds[n], trace[n + 1]);
  }

  lemma PassesKeepInv(cfg: Config)
    ensures forall s, w, t | Inv(s) && PassRelation(cfg)(s, w, t) :: Inv(t)
  {
    forall s, w, t | Inv(s) && PassRelation(cfg)(s, w, t) ensures Inv(t) {
      PassKeepsInv(cfg, s, w);
    }
  }

  lemma RunsKeepInv(cfg: Config, trace: seq<Task>, worlds: seq<World>, n: nat)
    requires AutoRun(cfg, trace, worlds) && n <= |worlds|
    ensures Inv(trace[n])
  {
    PassesKeepInv(cfg);
    Invariance(PassRelation(cfg), (s: Task) => Inv(s), trace, worlds, n);
  }

  /** In every state of every run what has started, and the node of every attempt, has only passed dependencies. */
  lemma GraphsStaySound(cfg: Config, trace: seq<Task>, worlds: seq<World>, n: nat)
    requires AutoRun(cfg, trace, worlds) && n <= |worlds|
    ensures SoundTask(trace[n])
  {
    RunsKeepInv(cfg, trace, worlds, n);
  }

  /** Either the pass merged attempt `k` through the gate, or it was merged already. */
  lemma MergedByPassOrBefore(cfg: Config, s: Task, w: World, t: Task, k: int)
    requires Inv(s) && PassTo(cfg, s, w, t)
    requires 0 <= k < |t.history| && t.history[k].phase == AtMerged
    ensures MergesNow(cfg, s, w, t, k) ||
      (k < |s.history| && s.history[k].phase == AtMerged && Alike(t.history[k], s.history[k]))
  {
    if NewlyMerged(s, t, k) {
      PassMergesThroughGate(cfg, s, w, t, k);
    } else {
      MergedStays(cfg, s, w, k);
    }
  }

  predicate Alike(a: Attempt, b: Attempt) {
    a.(failureType := None) == b.(failureType := None)
  }

  /** The pass from `s` to `t`, on the inputs `w`, merged attempt `k`, the last one, through the gate. */
  ghost predicate MergesNow(cfg: Config, s: Task, w: World, t: Task, k: int) {
    NewlyMerged(s, t, k) && k == |t.history| - 1 && GateHolds(cfg, w, t, t.history[k])
  }

  ghost predicate StepGated(cfg: Config, s: Task, w: World, t: Task) {
    forall k | 0 <= k < |t.history| && t.history[k].phase == AtMerged ::
      MergesNow(cfg, s, w, t, k) || (k < |s.history| && s.history[k].phase == AtMerged && Alike(t.history[k], s.history[k]))
  }

  lemma PassIsGated(cfg: Config, s: Task, w: World, t: Task)
    requires Inv(s) && PassTo(cfg, s, w, t)
    ensures StepGated(cfg, s, w, t)
  {
    forall k | 0 <= k < |t.history| && t.history[k].phase == AtMerged
      ensures MergesNow(cfg, s, w, t, k) || (k < |s.history| && s.history[k].phase == AtMerged && Alike(t.history[k], s.history[k]))
    {
      MergedByPassOrBefore(cfg, s, w, t, k);
    }
  }

  lemma RunStepGated(cfg: Config, trace: seq<Task>, worlds: seq<World>, n: nat)
    requires AutoRun(cfg, trace, worlds) && n < |worlds|
    ensures StepGated(cfg, trace[n], worlds[n], trace[n + 1])
  {
    RunsKeepInv(cfg, trace, worlds, n);
    PassesOfRun(cfg, trace, worlds, n);
    PassIsGated(cfg, trace[n], worlds[n], trace[n + 1]);
  }

  lemma {:induction false} GatedSomewhere(cfg: Config, trace: seq<Task>, worlds: seq<World>, n: nat, k: int) returns (m: nat)
    requires n < |trace| && n <= |worlds| && trace[0].history == []
    requires forall j | 0 <= j < n :: StepGated(cfg, trace[j], worlds[j], trace[j + 1])
    requires 0 <= k < |trace[n].history| && trace[n].history[k].phase == AtMerged
    ensures m < n && MergesNow(cfg, trace[m], worlds[m], trace[m + 1], k)
    ensures Alike(trace[m + 1].history[k], trace[n].history[k])
  {
    m := n - 1;
    assert StepGated(cfg, trace[m], worlds[m], trace[m + 1]);
    if !MergesNow(cfg, trace[m], worlds[m], trace[m + 1], k) {
      m := GatedSomewhere(cfg, trace, worlds, n - 1, k);
    }
  }

  /**
   * Every merged attempt of a run was merged through the gate by some pass, on that pass's inputs, and is
   * since unchanged.
   */
  lemma EveryMergeWasGated(cfg: Config, trace: seq<Task>, worlds: seq<World>, n: nat, k: int) returns (m: nat)
    requires AutoRun(cfg, trace, worlds) && n <= |worlds|
    requires 0 <= k < |trace[n].history| && trace[n].history[k].phase == AtMerged
    ensures m < n && MergesNow(cfg, trace[m], worlds[m], trace[m + 1], k)
    ensures Alike(trace[m + 1].history[k], trace[n].history[k])
  {
    forall j | 0 <= j < n ensures StepGated(cfg, trace[j], worlds[j], trace[j + 1]) {
      RunStepGated(cfg, trace, worlds, j);
    }
    m := GatedSomewhere(cfg, trace, worlds, n, k);
  }

  /** PASSED nodes and MERGED attempts answer to one another, and DONE means that all is done. */
  ghost predicate PassedIffMerged(s: Task) {
    && (s.graph.Some? ==> forall i | 0 <= i < |s.graph.value| ::
          s.graph.value[i].status == Passed <==> HasMerged(s, s.graph.value[i].id))
    && (s.graph.Some? ==> forall i, k | 0 <= i < |s.graph.value| && 0 <= k < |s.history| ::
          s.history[k].phase == AtMerged && s.history[k].nodeId == s.graph.value[i].id ==>
            s.history[k].iteration in s.graph.value[i].attemptIterations)
    && (s.status == TaskDone ==> s.graph.Some? && Complete(s.graph.value))
  }

  /**
   * In every state of every run a node is PASSED exactly when a MERGED attempt carries its id,
   * that attempt's iteration is recorded on the node, and DONE means the graph is complete.
   */
  lemma PassedExactlyWhenMerged(cfg: Config, trace: seq<Task>, worlds: seq<World>, n: nat)
    requires AutoRun(cfg, trace, worlds) && n <= |worlds|
    ensures PassedIffMerged(trace[n])
  {
    RunsKeepInv(cfg, trace, worlds, n);
    var s := trace[n];
    if s.graph.Some? {
      var g := s.graph.value;
      forall i | 0 <= i < |g| ensures FirstIndex(g, g[i].id) == Some(i) {}
      forall i | 0 <= i < |g| ensures g[i].status == Passed <==> HasMerged(s, g[i].id) {
        if HasMerged(s, g[i].id) {
          var k :| 0 <= k < |s.history| && s.history[k].phase == AtMerged && s.history[k].nodeId == g[i].id;
          assert PassedIn(g, s.history[k].nodeId, s.history[k].iteration);
        }
      }
    }
  }

  // ---------------------------------------------------------------- one invocation of the loop

  ghost function TurnsOf(pass: (Task, World) -> Pass, s: Task, worlds: seq<World>): Pass
    decreases |worlds|
  {
    if worlds == [] then Continue(s)
    else match pass(s, worlds[0])
      case Exit(t) => Exit(t)
      case Continue(t) => TurnsOf(pass, t, worlds[1..])
  }

  ghost function ThePass(cfg: Config): (Task, World) -> Pass {
    (s: Task, w: World) => AutoPass(cfg, s, w)
  }

  ghost predicate IsPass(cfg: Config, pass: (Task, World) -> Pass) {
    forall s: Task, w: World {:trigger AutoPass(cfg, s, w)} :: pass(s, w) == AutoPass(cfg, s, w)
  }

  ghost function AutoTurns(cfg: Config, s: Task, worlds: seq<World>): Pass {
    TurnsOf(ThePass(cfg), s, worlds)
  }

  lemma RunGrows(step: (Task, World, Task) -> bool, s: Task, w: World, trace: seq<Task>, worlds: seq<World>)
    requires IsRun(step, trace, worlds) && step(s, w, trace[0])
    ensures IsRun(step, [s] + trace, [w] + worlds)
  {
    forall k | 0 <= k < |worlds| + 1 ensures step(([s] + trace)[k], ([w] + worlds)[k], ([s] + trace)[k + 1]) {
      if k > 0 { assert step(trace[k - 1], worlds[k - 1], trace[k - 1 + 1]); }
    }
  }

  lemma {:induction false} TurnsRun(pass: (Task, World) -> Pass, step: (Task, World, Task) -> bool, s: Task, worlds: seq<World>)
      returns (trace: seq<Task>, n: nat)
    requires forall t, k | 0 <= k < |worlds| :: step(t, worlds[k], pass(t, worlds[k]).state)
    ensures n <= |worlds| && IsRun(step, trace, worlds[..n])
    ensures trace[0] == s && trace[n] == TurnsOf(pass, s, worlds).state
    decreases |worlds|
  {
    if worlds == [] {
      trace, n := [s], 0;
    } else {
      var p := pass(s, worlds[0]);
      if p.Exit? {
        trace, n := [s, p.state], 1;
      } else {
        trace, n := TurnsRun(pass, step, p.state, worlds[1..]);
        RunGrows(step, s, worlds[0], trace, worlds[1..][..n]);
        assert worlds[..n + 1] == [worlds[0]] + worlds[1..][..n];
        trace, n := [s] + trace, n + 1;
      }
    }
  }

  /** The states one invocation goes through are a run, from any state. */
  lemma TurnsAreRun(cfg: Config, s: Task, worlds: seq<World>) returns (trace: seq<Task>, n: nat)
    requires forall k | 0 <= k < |worlds| :: WorldOk(worlds[k])
    ensures n <= |worlds| && IsRun(PassRelation(cfg), trace, worlds[..n])
    ensures trace[0] == s && trace[n] == AutoTurns(cfg, s, worlds).state
  {
    forall t, k | 0 <= k < |worlds| ensures PassRelation(cfg)(t, worlds[k], ThePass(cfg)(t, worlds[k]).state) {}
    trace, n := TurnsRun(ThePass(cfg), PassRelation(cfg), s, worlds);
  }
}
