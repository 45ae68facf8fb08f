/**
 * The phases on one attempt among several (the `attempt` argument of run.py's phases), and the
 * pipeline a parallel worker runs with them (run_single_node_pipeline in parallel_scheduler.py).
 */
module NodePipeline {
  import opened Option
  import opened TaskGraph
  import opened TaskState
  import opened AutoLoop

  /** The task as a phase sees it that is given attempt `k`. */
  function Focus(s: Task, k: nat): (r: Task)
    requires k < |s.history|
    ensures |r.history| == 1 && r.history[0] == s.history[k]
  {
    s.(history := [s.history[k]])
  }

  function Place(s: Task, k: nat, t: Task): (r: Task)
    requires k < |s.history| && |t.history| == 1
    ensures |r.history| == |s.history| && r.history[k] == t.history[0]
    ensures forall m | 0 <= m < |s.history| && m != k :: r.history[m] == s.history[m]
    ensures r.iteration == t.iteration && r.graph == t.graph && r.status == t.status
  {
    t.(history := s.history[k := t.history[0]])
  }

  function Put(s: Task, k: nat, r: Outcome): Outcome
    requires k < |s.history| && |r.state.history| == 1
  {
    match r case Ok(t) => Ok(Place(s, k, t)) case Raised(t, e) => Raised(Place(s, k, t), e)
  }

  function FailAt(s: Task, k: nat, e: Error): Outcome
    requires k < |s.history|
  {
    Put(s, k, FailAttempt(Focus(s, k), e))
  }

  function SetupAt(cfg: Config, s: Task, k: nat, w: World): Outcome
    requires k < |s.history| && s.graph.Some?
  {
    Put(s, k, SetupNode(cfg, Focus(s, k), w))
  }

  /**
   * `run_implementer_phase`: only a plain non-zero exit marks attempt `k`; every other failure
   * marks `history[-1]`, whichever attempt was given.
   */
  function ImplementingAt(s: Task, k: nat, w: World): Outcome
    requires k < |s.history|
  {
    var a := s.history[k];
    if a.exitCode == Some(0) then Ok(s)
    else if a.exitCode.Some? || !a.hasPlan then FailAttempt(s, ImplementingError)
    else
      var s1 := s.(history := s.history[k := a.(phase := AtExecuting)]);
      match w.implementer
      case ImplementerUnavailable => FailAttempt(s1, ImplementingError)
      case Implemented(code, abnormal, _, _) =>
        var b := s1.history[k].(exitCode := Some(code), failureType := RunLabel(a, w.implementer));
        var s2 := s1.(history := s1.history[k := b]);
        if abnormal then FailAttempt(s2, ImplementingError)
        else if code != 0 then FailAt(s2, k, ImplementingError)
        else Ok(s2)
  }

  function TestingAt(cfg: Config, s: Task, k: nat, w: World): Task
    requires k < |s.history|
  {
    Place(s, k, Testing(cfg, Focus(s, k), w))
  }

  function ReviewingAt(s: Task, k: nat, w: World): Outcome
    requires k < |s.history|
  {
    Put(s, k, Reviewing(Focus(s, k), w))
  }

  function FinalizingAt(cfg: Config, s: Task, k: nat, w: World): Outcome
    requires k < |s.history|
  {
    Put(s, k, Finalizing(cfg, Focus(s, k), w))
  }

  /** Given the last attempt, the phases are the ones of the sequential loop. */
  lemma LastIsSequential(cfg: Config, s: Task, w: World)
    requires s.history != []
    ensures var k := |s.history| - 1;
      && ImplementingAt(s, k, w) == Implementing(s, w)
      && TestingAt(cfg, s, k, w) == Testing(cfg, s, w)
      && ReviewingAt(s, k, w) == Reviewing(s, w)
      && FinalizingAt(cfg, s, k, w) == Finalizing(cfg, s, w)
      && (s.graph.Some? ==> SetupAt(cfg, s, k, w) == SetupNode(cfg, s, w))
  {
    if s.graph.Some? { SetupLast(cfg, s, w); }
    ImplementLast(s, w);
    TestLast(cfg, s, w);
    ReviewLast(s, w);
    FinalizeLast(cfg, s, w);
  }

  /** Focusing on the last attempt loses nothing a phase reads or writes. */
  lemma PlaceLast(s: Task, t: Task, u: Task)
    requires s.history != [] && |t.history| == 1 && |u.history| == |s.history|
    requires forall m | 0 <= m < |s.history| - 1 :: u.history[m] == s.history[m]
    requires u.status == t.status && u.iteration == t.iteration && u.graph == t.graph && Last(u) == t.history[0]
    ensures Place(s, |s.history| - 1, t) == u
  {
    assert Place(s, |s.history| - 1, t).history == u.history;
  }

  lemma FailLast(s: Task, e: Error)
    requires s.history != []
    ensures FailAt(s, |s.history| - 1, e) == FailAttempt(s, e)
  {
    PlaceLast(s, FailAttempt(Focus(s, |s.history| - 1), e).state, FailAttempt(s, e).state);
  }

  lemma StartLast(s: Task, id: string, w: World)
    requires s.history != [] && s.graph.Some?
    ensures Put(s, |s.history| - 1, StartNode(Focus(s, |s.history| - 1), id, w)) == StartNode(s, id, w)
  {
    PlaceLast(s, StartNode(Focus(s, |s.history| - 1), id, w).state, StartNode(s, id, w).state);
  }

  lemma ScanLast(s: Task, nodes: seq<Node>, id: Option<string>, w: World)
    requires s.history != [] && s.graph.Some?
    ensures var k, s1, f1 := |s.history| - 1, s.(graph := Some(nodes)), Focus(s, |s.history| - 1).(graph := Some(nodes));
      && Put(s, k, FailAttempt(f1, PlanningError)) == FailAttempt(s1, PlanningError)
      && (id.Some? ==> Put(s, k, StartNode(f1, id.value, w)) == StartNode(s1, id.value, w))
  {
    var k, s1 := |s.history| - 1, s.(graph := Some(nodes));
    assert Focus(s1, k) == Focus(s, k).(graph := Some(nodes));
    FailLast(s1, PlanningError);
    if id.Some? { StartLast(s1, id.value, w); }
  }

  lemma SetupLast(cfg: Config, s: Task, w: World)
    requires s.history != [] && s.graph.Some?
    ensures SetupAt(cfg, s, |s.history| - 1, w) == SetupNode(cfg, s, w)
  {
    if Last(s).nodeId != "" {
      FailLast(s, PlanningError);
      StartLast(s, Last(s).nodeId, w);
    } else {
      var scan := Scan(s.graph.value, cfg.maxRetries, 1, {});
      var found := scan.picked != [] && scan.picked[0] < |scan.nodes|;
      ScanLast(s, scan.nodes, if found then Some(scan.nodes[scan.picked[0]].id) else None, w);
    }
  }

  lemma ImplementLast(s: Task, w: World)
    requires s.history != []
    ensures ImplementingAt(s, |s.history| - 1, w) == Implementing(s, w)
  {
    if Last(s).exitCode.None? && Last(s).hasPlan {
      var a := Last(s);
      var s1 := SetLast(s, a.(phase := AtExecuting));
      if w.implementer.Implemented? {
        var s2 := SetLast(s1, Last(s1).(exitCode := Some(w.implementer.exitCode),
          failureType := RunLabel(a, w.implementer)));
        FailLast(s2, ImplementingError);
      }
    }
  }

  lemma TestLast(cfg: Config, s: Task, w: World)
    requires s.history != []
    ensures TestingAt(cfg, s, |s.history| - 1, w) == Testing(cfg, s, w)
  {
    PlaceLast(s, Testing(cfg, Focus(s, |s.history| - 1), w), Testing(cfg, s, w));
  }

  /** The review phase, its writes to the attempt put together. */
  lemma ReviewingIs(s: Task, w: World)
    requires s.history != []
    ensures var a := Last(s);
      Reviewing(s, w) ==
        if a.decision.Some? then Ok(s)
        else if w.reviewers == [] then Raised(SetLast(s, a.(phase := AtReviewing)), Crash)
        else if ReviewerFailed(w.reviewers)
          then FailAttempt(SetLast(s, Labelled(a.(phase := AtReviewing), FirstFailure(w.reviewers))), ReviewError)
        else Ok(SetLast(s, ReviewedAttempt(a, w.reviewers)))
  {
    var s1, k := SetLast(s, Last(s).(phase := AtReviewing)), |s.history| - 1;
    forall b: Attempt ensures SetLast(s1, b) == SetLast(s, b) {
      PutTwice(s, k, Last(s1), b);
    }
  }

  lemma ReviewLast(s: Task, w: World)
    requires s.history != []
    ensures ReviewingAt(s, |s.history| - 1, w) == Reviewing(s, w)
  {
    ReviewingIs(s, w);
    ReviewIs(s, |s.history| - 1, w);
    FailLast(SetLast(s, Labelled(Last(s).(phase := AtReviewing), FirstFailure(w.reviewers))), ReviewError);
  }

  /** The merge gates look at the graph and the attempt, not at the rest of the task. */
  lemma GatesReadTheGraph(cfg: Config, s: Task, t: Task, a: Attempt, changedFiles: nat)
    requires s.graph == t.graph
    ensures CanAutoMerge(cfg, s, a, changedFiles) == CanAutoMerge(cfg, t, a, changedFiles)
    ensures BlockedByTestGate(cfg, s, a) == BlockedByTestGate(cfg, t, a)
  {
    assert NodeOf(s, a) == NodeOf(t, a);
  }

  lemma MergedLast(s: Task)
    requires s.history != []
    ensures Put(s, |s.history| - 1, Merged(Focus(s, |s.history| - 1))) == Merged(s)
  {
    PlaceLast(s, Merged(Focus(s, |s.history| - 1)).state, Merged(s).state);
  }

  lemma StopLast(cfg: Config, s: Task, w: World)
    requires s.history != [] && (Last(s).decision.Some? && Last(s).decision != Some(Approve))
    ensures FinalizingAt(cfg, s, |s.history| - 1, w) == Finalizing(cfg, s, w)
  {
    var f := Focus(s, |s.history| - 1);
    PlaceLast(s, Finalizing(cfg, f, w).state, Finalizing(cfg, s, w).state);
  }

  lemma FinalizeLast(cfg: Config, s: Task, w: World)
    requires s.history != []
    ensures FinalizingAt(cfg, s, |s.history| - 1, w) == Finalizing(cfg, s, w)
  {
    if Last(s).decision.Some? && Last(s).decision != Some(Approve) {
      StopLast(cfg, s, w);
    } else {
      var f := Focus(s, |s.history| - 1);
      GatesReadTheGraph(cfg, s, f, Last(s), w.changedFiles);
      if CanAutoMerge(cfg, s, Last(s), w.changedFiles) && w.merger.Merges? {
        MergedLast(s);
      } else {
        PlaceLast(s, Finalizing(cfg, f, w).state, Finalizing(cfg, s, w).state);
      }
    }
  }

  // ---------------------------------------------------------------- one worker

  /** What the worker does after it has marked its node and its attempt. */
  function FromSetup(cfg: Config, s: Task, k: nat, w: World): Outcome
    requires k < |s.history| && s.graph.Some?
  {
    var ready :- SetupAt(cfg, s, k, w);
    var done :- ImplementingAt(ready, k, w);
    ReviewingAt(TestingAt(cfg, done, k, w), k, w)
  }

  /** `run_single_node_pipeline`, from the state it loads to the state it leaves. */
  function Pipeline(cfg: Config, s: Task, k: nat, id: string, w: World): Outcome {
    if s.graph.None? || k >= |s.history| then Raised(s, Crash)
    else match MarkRunning(s.graph.value, id)
      case None => Raised(s, Crash)
      case Some(g) =>
        FromSetup(cfg, s.(graph := Some(g), status := TaskRunning, history := s.history[k := s.history[k].(nodeId := id)]), k, w)
  }

  /** The worker's implementer goes wrong in a way that is blamed on `history[-1]`. */
  predicate Strays(a: Attempt, w: World) {
    && w.worktreeAdded
    && a.exitCode != Some(0)
    && (a.exitCode.Some? || w.implementer.ImplementerUnavailable? || w.implementer.abnormal)
  }

  ghost predicate SameNames(g: seq<Node>, h: seq<Node>) {
    |g| == |h| && forall i | 0 <= i < |g| :: g[i].id == h[i].id
  }

  /** From `s` to `t`, attempt `k` and its node are all that changed. */
  ghost predicate Touches(s: Task, t: Task, k: nat) {
    && k < |s.history| == |t.history| && t.iteration == s.iteration
    && s.graph.Some? && t.graph.Some? && SameNames(s.graph.value, t.graph.value)
    && (forall m | 0 <= m < |s.history| && m != k :: t.history[m] == s.history[m])
    && t.history[k].nodeId == s.history[k].nodeId
    && (forall i | 0 <= i < |s.graph.value| && FirstIndex(s.graph.value, s.history[k].nodeId) != Some(i) ::
          t.graph.value[i] == s.graph.value[i])
  }

  /** The other names find the nodes they found before. */
  lemma TouchesOneName(s: Task, t: Task, k: nat, id: string)
    requires Touches(s, t, k) && id != s.history[k].nodeId
    ensures NodeNamed(t, id) == NodeNamed(s, id)
  {
    SameFirstIndex(s.graph.value, t.graph.value, id);
  }

  /** The node but for its status. */
  function Unmarked(n: Option<Node>): Option<Node> {
    if n.Some? then Some(n.value.(status := Pending)) else None
  }

  function Failing(n: Option<Node>, fails: bool): Option<Node> {
    if fails && n.Some? then Some(n.value.(status := Failed)) else n
  }

  lemma FailTouches(s: Task, k: nat, e: Error)
    requires k < |s.history| && s.graph.Some?
    ensures Touches(s, FailAt(s, k, e).state, k)
    ensures var id := s.history[k].nodeId; NodeNamed(FailAt(s, k, e).state, id) == Failing(NodeNamed(s, id), id != "")
  {
    var id := s.history[k].nodeId;
    if id != "" && FirstIndex(s.graph.value, id).Some? {
      SameFirstIndex(s.graph.value, MarkFailed(s.graph.value, id).value, id);
    }
  }

  lemma SetupTouches(cfg: Config, s: Task, k: nat, w: World)
    requires k < |s.history| && s.graph.Some? && s.history[k].nodeId != "" && FirstIndex(s.graph.value, s.history[k].nodeId).Some?
    ensures var r, a := SetupAt(cfg, s, k, w), s.history[k];
      && Touches(s, r.state, k) && r.Ok? == w.worktreeAdded
      && r.state.history[k] == a.(hasPlan := true, finalStep := a.hasPlan && a.finalStep,
           phase := if w.worktreeAdded then AtWorktree else AtFailed)
      && NodeNamed(r.state, a.nodeId) ==
        Some(NodeNamed(s, a.nodeId).value.(status := if w.worktreeAdded then Running else Failed))
  {
    var id := s.history[k].nodeId;
    var g := MarkRunning(s.graph.value, id).value;
    SameFirstIndex(s.graph.value, g, id);
    if !w.worktreeAdded { SameFirstIndex(g, MarkFailed(g, id).value, id); }
  }

  lemma TestTouches(cfg: Config, s: Task, k: nat, w: World)
    requires k < |s.history| && s.graph.Some?
    ensures Touches(s, TestingAt(cfg, s, k, w), k)
  {
  }

  function PutAttempt(s: Task, k: nat, a: Attempt): (t: Task)
    requires k < |s.history|
  {
    s.(history := s.history[k := a])
  }

  lemma PutTwice(s: Task, k: nat, a: Attempt, b: Attempt)
    requires k < |s.history|
    ensures PutAttempt(PutAttempt(s, k, a), k, b) == PutAttempt(s, k, b)
  {
    assert s.history[k := a][k := b] == s.history[k := b];
  }

  /** The attempt as the whole chain leaves it. */
  function ReviewedAttempt(a: Attempt, rs: seq<Reviewer>): Attempt
    requires forall k | 0 <= k < |rs| :: rs[k].Reviewed?
  {
    var d := Aggregate(Decisions(rs));
    a.(reviews := Decisions(rs), decision := Some(d), phase := if d == Approve then AtApproved else AtRejected,
       failureType := if d == Approve then None else a.failureType)
  }

  predicate ReviewerFailed(rs: seq<Reviewer>) {
    exists k | 0 <= k < |rs| :: rs[k].ReviewerFails?
  }

  lemma ReviewIs(s: Task, k: nat, w: World)
    requires k < |s.history|
    ensures var a := s.history[k];
      ReviewingAt(s, k, w) ==
        if a.decision.Some? then Ok(s)
        else if w.reviewers == [] then Raised(PutAttempt(s, k, a.(phase := AtReviewing)), Crash)
        else if ReviewerFailed(w.reviewers)
          then FailAt(PutAttempt(s, k, Labelled(a.(phase := AtReviewing), FirstFailure(w.reviewers))), k, ReviewError)
        else Ok(PutAttempt(s, k, ReviewedAttempt(a, w.reviewers)))
  {
    var a, f := s.history[k], Focus(s, k);
    assert s.history[k := a] == s.history;
    var b := Labelled(a.(phase := AtReviewing), FirstFailure(w.reviewers));
    assert Focus(PutAttempt(s, k, b), k) == SetLast(SetLast(f, a.(phase := AtReviewing)), b);
    assert forall c: Task | |c.history| == 1 :: Place(PutAttempt(s, k, b), k, c) == Place(s, k, c) by {
      forall c: Task | |c.history| == 1 ensures Place(PutAttempt(s, k, b), k, c) == Place(s, k, c) {
        assert s.history[k := b][k := c.history[0]] == s.history[k := c.history[0]];
      }
    }
  }

  lemma ReviewTouches(s: Task, k: nat, w: World)
    requires k < |s.history| && s.graph.Some?
    ensures Touches(s, ReviewingAt(s, k, w).state, k)
  {
    var a := s.history[k];
    var t := PutAttempt(s, k, Labelled(a.(phase := AtReviewing), FirstFailure(w.reviewers)));
    ReviewIs(s, k, w);
    FailTouches(t, k, ReviewError);
    TouchesTwice(s, t, FailAt(t, k, ReviewError).state, k);
  }

  lemma TouchesTwice(s: Task, t: Task, u: Task, k: nat)
    requires Touches(s, t, k) && Touches(t, u, k)
    ensures Touches(s, u, k)
  {
    SameFirstIndex(s.graph.value, t.graph.value, s.history[k].nodeId);
  }

  /** The implementer's own writes; what follows a stray failure is the marking of `history[-1]`. */
  function ImplementerWrote(s: Task, k: nat, w: World): (t: Task)
    requires k < |s.history|
    ensures |t.history| == |s.history| && t.graph == s.graph && t.iteration == s.iteration
    ensures forall m | 0 <= m < |s.history| && m != k :: t.history[m] == s.history[m]
    ensures t.history[k].nodeId == s.history[k].nodeId
  {
    var a := s.history[k];
    if a.exitCode.Some? then s
    else match w.implementer
      case ImplementerUnavailable => s.(history := s.history[k := a.(phase := AtExecuting)])
      case Implemented(code, _, _, _) =>
        s.(history := s.history[k := a.(phase := AtExecuting, exitCode := Some(code), failureType := RunLabel(a, w.implementer))])
  }

  lemma ImplementIs(s: Task, k: nat, w: World)
    requires k < |s.history| && s.history[k].hasPlan && w.worktreeAdded
    ensures ImplementingAt(s, k, w) ==
      if s.history[k].exitCode == Some(0) then Ok(s)
      else if Strays(s.history[k], w) then FailAttempt(ImplementerWrote(s, k, w), ImplementingError)
      else if w.implementer.exitCode != 0 then FailAt(ImplementerWrote(s, k, w), k, ImplementingError)
      else Ok(ImplementerWrote(s, k, w))
  {
    var a := s.history[k];
    var s1 := s.(history := s.history[k := a.(phase := AtExecuting)]);
    var b := ImplementerWrote(s, k, w).history[k];
    assert s1.history[k := b] == s.history[k := b];
  }

  lemma ImplementTouches(s: Task, k: nat, w: World)
    requires k < |s.history| && s.graph.Some? && s.history[k].hasPlan && w.worktreeAdded
    ensures var r := ImplementingAt(s, k, w);
      if Strays(s.history[k], w) then r == FailAttempt(ImplementerWrote(s, k, w), ImplementingError)
      else Touches(s, r.state, k) && r.Ok? == (r == Ok(ImplementerWrote(s, k, w)))
  {
    var t := ImplementerWrote(s, k, w);
    ImplementIs(s, k, w);
    FailTouches(t, k, ImplementingError);
    TouchesTwice(s, t, FailAt(t, k, ImplementingError).state, k);
  }

  /** The task once the worker has marked its node and its attempt. */
  function Started(s: Task, k: nat, id: string): Task
    requires k < |s.history| && s.graph.Some? && FirstIndex(s.graph.value, id).Some?
  {
    s.(graph := MarkRunning(s.graph.value, id), status := TaskRunning, history := s.history[k := s.history[k].(nodeId := id)])
  }

  lemma StartedTouches(s: Task, k: nat, id: string)
    requires k < |s.history| && s.history[k].nodeId == id && s.graph.Some? && FirstIndex(s.graph.value, id).Some?
    ensures Touches(s, Started(s, k, id), k) && FirstIndex(Started(s, k, id).graph.value, id) == FirstIndex(s.graph.value, id)
    ensures NodeNamed(Started(s, k, id), id) == Some(NodeNamed(s, id).value.(status := Running))
  {
    SameFirstIndex(s.graph.value, MarkRunning(s.graph.value, id).value, id);
  }

  /** A worker writes its own attempt and its own node, and then, if it strays, `history[-1]`. */
  lemma PipelineTouches(cfg: Config, s: Task, k: nat, id: string, w: World) returns (mid: Task, t: Task)
    requires k < |s.history| && s.graph.Some? && id != "" && FirstIndex(s.graph.value, id).Some? && s.history[k].nodeId == id
    ensures t == Pipeline(cfg, s, k, id, w).state && Touches(s, mid, k)
    ensures t == if Strays(s.history[k], w) then FailAttempt(mid, ImplementingError).state else mid
  {
    var s1 := Started(s, k, id);
    StartedTouches(s, k, id);
    mid, t := FromSetupTouches(cfg, s1, k, w);
    TouchesTwice(s, s1, mid, k);
  }

  lemma FromSetupTouches(cfg: Config, s: Task, k: nat, w: World) returns (mid: Task, t: Task)
    requires k < |s.history| && s.graph.Some? && s.history[k].nodeId != "" && FirstIndex(s.graph.value, s.history[k].nodeId).Some?
    ensures t == FromSetup(cfg, s, k, w).state && Touches(s, mid, k)
    ensures t == if Strays(s.history[k], w) then FailAttempt(mid, ImplementingError).state else mid
  {
    t := FromSetup(cfg, s, k, w).state;
    SetupTouches(cfg, s, k, w);
    var r := SetupAt(cfg, s, k, w);
    mid := r.state;
    if r.Ok? {
      ImplementTouches(mid, k, w);
      var done := ImplementingAt(mid, k, w);
      if Strays(s.history[k], w) {
        TouchesTwice(s, mid, ImplementerWrote(mid, k, w), k);
        mid := ImplementerWrote(mid, k, w);
      } else {
        TouchesTwice(s, mid, done.state, k);
        mid := done.state;
        if done.Ok? {
          TestTouches(cfg, mid, k, w);
          TouchesTwice(s, mid, TestingAt(cfg, mid, k, w), k);
          mid := TestingAt(cfg, mid, k, w);
          ReviewTouches(mid, k, w);
          TouchesTwice(s, mid, ReviewingAt(mid, k, w).state, k);
          mid := ReviewingAt(mid, k, w).state;
        }
      }
    }
  }

  // ---------------------------------------------------------------- what a worker depends on

  /** The two tasks look the same to a phase that is given attempt `k`. */
  ghost predicate Twin(s: Task, t: Task, k: nat) {
    && k < |s.history| == |t.history|
    && s.graph.Some? && t.graph.Some? && SameNames(s.graph.value, t.graph.value)
    && s.history[k] == t.history[k] && NodeNamed(s, s.history[k].nodeId) == NodeNamed(t, s.history[k].nodeId)
    && Last(s).nodeId == Last(t).nodeId
  }

  /** ... and to a worker that is about to set it up: phase and status do not matter. */
  ghost predicate Alike(s: Task, t: Task, k: nat, id: string) {
    && k < |s.history| == |t.history|
    && s.graph.Some? && t.graph.Some? && SameNames(s.graph.value, t.graph.value)
    && s.history[k].(phase := AtPlanning) == t.history[k].(phase := AtPlanning)
    && Last(s).nodeId == Last(t).nodeId
    && NodeNamed(s, id).Some? && NodeNamed(t, id).Some?
    && NodeNamed(s, id).value.(status := Pending) == NodeNamed(t, id).value.(status := Pending)
  }

  ghost predicate Twins(r: Outcome, u: Outcome, k: nat) {
    r.Ok? == u.Ok? && Twin(r.state, u.state, k)
  }

  lemma FailTwin(s: Task, t: Task, k: nat, e: Error)
    requires Twin(s, t, k)
    ensures Twins(FailAt(s, k, e), FailAt(t, k, e), k)
  {
    SameFirstIndex(s.graph.value, t.graph.value, s.history[k].nodeId);
    FailTouches(s, k, e);
    FailTouches(t, k, e);
  }

  /** `history[-1]` is marked, and its node, unless the node is unknown: then nothing is. */
  lemma BlameLast(s: Task, e: Error)
    requires s.history != [] && s.graph.Some?
    ensures var r, last := FailAttempt(s, e).state, |s.history| - 1;
      && Touches(s, r, last)
      && NodeNamed(r, s.history[last].nodeId) == Failing(NodeNamed(s, s.history[last].nodeId), s.history[last].nodeId != "")
      && r.history[last] == if s.history[last].nodeId != "" && FirstIndex(s.graph.value, s.history[last].nodeId).None?
        then s.history[last] else s.history[last].(phase := AtFailed)
  {
    FailTouches(s, |s.history| - 1, e);
    FailLast(s, e);
  }

  /** What a name finds after the blame. */
  lemma BlameNode(s: Task, e: Error, id: string)
    requires s.history != [] && s.graph.Some?
    ensures NodeNamed(FailAttempt(s, e).state, id) == Failing(NodeNamed(s, id), id != "" && id == Last(s).nodeId)
  {
    BlameLast(s, e);
    if id != Last(s).nodeId {
      TouchesOneName(s, FailAttempt(s, e).state, |s.history| - 1, id);
    }
  }

  /** What attempt `k` is after the blame. */
  lemma BlameAttempt(s: Task, k: nat, e: Error)
    requires k < |s.history| && s.graph.Some?
    ensures var r := FailAttempt(s, e).state;
      && |r.history| == |s.history| && r.graph.Some? && SameNames(s.graph.value, r.graph.value)
      && Last(r).nodeId == Last(s).nodeId
      && r.history[k] == if k == |s.history| - 1 && (s.history[k].nodeId == "" || FirstIndex(s.graph.value, s.history[k].nodeId).Some?)
        then s.history[k].(phase := AtFailed) else s.history[k]
  {
    BlameLast(s, e);
  }

  /** Blaming `history[-1]` is the same for both, as far as attempt `k` is concerned. */
  lemma BlameTwin(s: Task, t: Task, k: nat, e: Error)
    requires Twin(s, t, k)
    ensures Twins(FailAttempt(s, e), FailAttempt(t, e), k)
  {
    BlameAttempt(s, k, e);
    BlameAttempt(t, k, e);
    BlameNode(s, e, s.history[k].nodeId);
    BlameNode(t, e, s.history[k].nodeId);
    SameFirstIndex(s.graph.value, t.graph.value, s.history[k].nodeId);
  }

  /** Setting up an attempt forgets the phase it was in. */
  lemma SetupTwin(cfg: Config, s: Task, t: Task, k: nat, w: World)
    requires k < |s.history| && s.history[k].nodeId != "" && Alike(s, t, k, s.history[k].nodeId)
    ensures Twins(SetupAt(cfg, s, k, w), SetupAt(cfg, t, k, w), k)
  {
    SameFirstIndex(s.graph.value, t.graph.value, s.history[k].nodeId);
    SetupTouches(cfg, s, k, w);
    SetupTouches(cfg, t, k, w);
  }

  lemma ImplementTwin(s: Task, t: Task, k: nat, w: World)
    requires Twin(s, t, k) && s.history[k].hasPlan && w.worktreeAdded
    ensures Twins(ImplementingAt(s, k, w), ImplementingAt(t, k, w), k)
  {
    var s1, t1 := ImplementerWrote(s, k, w), ImplementerWrote(t, k, w);
    assert Twin(s1, t1, k);
    BlameTwin(s1, t1, k, ImplementingError);
    FailTwin(s1, t1, k, ImplementingError);
    ImplementIs(s, k, w);
    ImplementIs(t, k, w);
  }

  lemma ReviewTwin(s: Task, t: Task, k: nat, w: World)
    requires Twin(s, t, k)
    ensures Twins(ReviewingAt(s, k, w), ReviewingAt(t, k, w), k)
  {
    var b := s.history[k].(phase := AtReviewing);
    var c := Labelled(b, FirstFailure(w.reviewers));
    ReviewIs(s, k, w);
    ReviewIs(t, k, w);
    if s.history[k].decision.None? {
      if ReviewerFailed(w.reviewers) {
        WrittenTwin(s, t, k, c);
        FailTwin(PutAttempt(s, k, c), PutAttempt(t, k, c), k, ReviewError);
      } else {
        WrittenTwin(s, t, k, if w.reviewers == [] then b else ReviewedAttempt(s.history[k], w.reviewers));
      }
    }
  }

  lemma WrittenTwin(s: Task, t: Task, k: nat, a: Attempt)
    requires Twin(s, t, k) && a.nodeId == s.history[k].nodeId
    ensures Twin(PutAttempt(s, k, a), PutAttempt(t, k, a), k)
  {
  }

  lemma TestTwin(cfg: Config, s: Task, t: Task, k: nat, w: World)
    requires Twin(s, t, k)
    ensures Twin(TestingAt(cfg, s, k, w), TestingAt(cfg, t, k, w), k)
  {
    var u, v := TestingAt(cfg, s, k, w), TestingAt(cfg, t, k, w);
    assert u.graph == s.graph && v.graph == t.graph && u.history[k].nodeId == s.history[k].nodeId;
    assert Last(u).nodeId == Last(s).nodeId && Last(v).nodeId == Last(t).nodeId;
  }

  lemma AfterSetupTwin(cfg: Config, s: Task, t: Task, k: nat, w: World)
    requires Twin(s, t, k) && s.history[k].hasPlan && w.worktreeAdded
    ensures var u, v := ImplementingAt(s, k, w), ImplementingAt(t, k, w);
      Twins(u, v, k) && (u.Ok? ==> Twins(ReviewingAt(TestingAt(cfg, u.state, k, w), k, w), ReviewingAt(TestingAt(cfg, v.state, k, w), k, w), k))
  {
    ImplementTwin(s, t, k, w);
    var u, v := ImplementingAt(s, k, w), ImplementingAt(t, k, w);
    if u.Ok? {
      TestTwin(cfg, u.state, v.state, k, w);
      ReviewTwin(TestingAt(cfg, u.state, k, w), TestingAt(cfg, v.state, k, w), k, w);
    }
  }

  lemma FromSetupTwin(cfg: Config, s: Task, t: Task, k: nat, w: World)
    requires k < |s.history| && s.history[k].nodeId != "" && Alike(s, t, k, s.history[k].nodeId)
    ensures Twins(FromSetup(cfg, s, k, w), FromSetup(cfg, t, k, w), k)
  {
    SetupTwin(cfg, s, t, k, w);
    SetupTouches(cfg, s, k, w);
    var s2, t2 := SetupAt(cfg, s, k, w), SetupAt(cfg, t, k, w);
    if s2.Ok? {
      AfterSetupTwin(cfg, s2.state, t2.state, k, w);
    }
  }

  /** A worker's attempt and verdict depend on its attempt, the node names and its own inputs only. */
  lemma PipelineTwin(cfg: Config, s: Task, t: Task, k: nat, id: string, w: World)
    requires id != "" && Alike(s, t, k, id) && s.history[k].nodeId == id
    ensures Twins(Pipeline(cfg, s, k, id, w), Pipeline(cfg, t, k, id, w), k)
  {
    SameFirstIndex(s.graph.value, t.graph.value, id);
    var s1, t1 := Started(s, k, id), Started(t, k, id);
    StartedTouches(s, k, id);
    StartedTouches(t, k, id);
    FromSetupTwin(cfg, s1, t1, k, w);
  }

  /** A worker that succeeds leaves its node RUNNING. */
  lemma PipelineRuns(cfg: Config, s: Task, k: nat, id: string, w: World)
    requires k < |s.history| && s.history[k].nodeId == id && id != "" && NodeNamed(s, id).Some?
    requires Pipeline(cfg, s, k, id, w).Ok?
    ensures NodeNamed(Pipeline(cfg, s, k, id, w).state, id) == Some(NodeNamed(s, id).value.(status := Running))
  {
    var s1 := Started(s, k, id);
    StartedTouches(s, k, id);
    SetupTouches(cfg, s1, k, w);
    GoodImplementKeepsGraph(SetupAt(cfg, s1, k, w).state, k, w);
    ReviewKeepsGraph(TestingAt(cfg, ImplementingAt(SetupAt(cfg, s1, k, w).state, k, w).state, k, w), k, w);
  }

  lemma GoodImplementKeepsGraph(s: Task, k: nat, w: World)
    requires k < |s.history| && s.history[k].hasPlan && w.worktreeAdded && ImplementingAt(s, k, w).Ok?
    ensures ImplementingAt(s, k, w).state.graph == s.graph
  {
    ImplementIs(s, k, w);
  }

  lemma ReviewKeepsGraph(s: Task, k: nat, w: World)
    requires k < |s.history| && ReviewingAt(s, k, w).Ok?
    ensures ReviewingAt(s, k, w).state.graph == s.graph
  {
    ReviewIs(s, k, w);
  }

  /** Whatever happens, a worker changes nothing of its node but the status. */
  lemma PipelineMarksOnly(cfg: Config, s: Task, k: nat, id: string, w: World)
    requires k < |s.history| && s.history[k].nodeId == id && id != "" && NodeNamed(s, id).Some?
    ensures Unmarked(NodeNamed(Pipeline(cfg, s, k, id, w).state, id)) == Unmarked(NodeNamed(s, id))
  {
    StartedTouches(s, k, id);
    FromSetupMarksOnly(cfg, Started(s, k, id), k, w);
  }

  lemma FromSetupMarksOnly(cfg: Config, s: Task, k: nat, w: World)
    requires k < |s.history| && s.history[k].nodeId != "" && NodeNamed(s, s.history[k].nodeId).Some?
    ensures var id := s.history[k].nodeId;
      Unmarked(NodeNamed(FromSetup(cfg, s, k, w).state, id)) == Unmarked(NodeNamed(s, id))
  {
    SetupTouches(cfg, s, k, w);
    var ready := SetupAt(cfg, s, k, w);
    if ready.Ok? {
      ImplementMarksOnly(ready.state, k, w);
      var done := ImplementingAt(ready.state, k, w);
      if done.Ok? {
        ReviewMarksOnly(TestingAt(cfg, done.state, k, w), k, w);
      }
    }
  }

  lemma ImplementMarksOnly(s: Task, k: nat, w: World)
    requires k < |s.history| && s.graph.Some? && s.history[k].hasPlan && w.worktreeAdded
    ensures var r, id := ImplementingAt(s, k, w), s.history[k].nodeId;
      Unmarked(NodeNamed(r.state, id)) == Unmarked(NodeNamed(s, id)) && (r.Ok? ==> r.state.graph == s.graph && r.state.history[k].nodeId == id)
  {
    var t := ImplementerWrote(s, k, w);
    ImplementIs(s, k, w);
    FailTouches(t, k, ImplementingError);
    BlameNode(t, ImplementingError, s.history[k].nodeId);
  }

  lemma ReviewMarksOnly(s: Task, k: nat, w: World)
    requires k < |s.history| && s.graph.Some?
    ensures var r, id := ReviewingAt(s, k, w), s.history[k].nodeId; Unmarked(NodeNamed(r.state, id)) == Unmarked(NodeNamed(s, id))
  {
    ReviewIs(s, k, w);
    FailTouches(PutAttempt(s, k, Labelled(s.history[k].(phase := AtReviewing), FirstFailure(w.reviewers))), k, ReviewError);
  }
}
