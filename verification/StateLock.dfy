/**
 * The task lock (src/cc_loop/state_lock.py) under every interleaving of threads.
 *
 * Each `with task_state_lock(...)` is a frame on its thread's stack.  The outermost frame takes
 * the file lock; a nested one, seeing its thread's depth above zero, takes nothing.
 */
module StateLock {
  import opened Option

  type Tid = nat

  /** A thread: its open frames (true: the frame owns the file lock), and the depth the code keeps. */
  datatype Thread<!S> = Thread(
    frames: seq<bool>,
    depth: nat,
    copy: Option<S>,        // the TaskState it works on, when loaded inside the present section
    pending: S -> S)        // what it has done to that copy since the last load or save

  datatype Commit<!S> = Commit(thread: Tid, section: nat, update: S -> S)

  datatype World<!S> = World(
    disk: S,
    holder: Option<Tid>,
    sections: nat,          // outermost acquisitions so far
    threads: seq<Thread<S>>,
    log: seq<Commit<S>>)

  /** `Put` saves a state that was not loaded in the section: the batch's preparation does that. */
  datatype Action<!S> = Enter | Leave | Load | Edit(f: S -> S) | Save | Put(state: S)

  function Identity<S>(): S -> S {
    x => x
  }

  function Always<S>(state: S): S -> S {
    _ => state
  }

  function Then<S>(f: S -> S, g: S -> S): S -> S {
    x => g(f(x))
  }

  // ---------------------------------------------------------------- enter and leave

  function Entered<S>(th: Thread<S>): Thread<S> {
    if th.depth > 0 then th.(frames := th.frames + [false])
    else th.(frames := th.frames + [true], depth := th.depth + 1)
  }

  function Left<S>(th: Thread<S>): Thread<S>
    requires th.frames != []
  {
    var n := |th.frames| - 1;
    if th.frames[n] then th.(frames := th.frames[..n], depth := if th.depth == 0 then 0 else th.depth - 1, copy := None)
    else th.(frames := th.frames[..n])
  }

  // ---------------------------------------------------------------- interleaving

  /** Files are read and written inside a frame only; `Save` writes what the section has loaded. */
  ghost predicate Enabled<S>(w: World<S>, t: Tid, a: Action<S>) {
    t < |w.threads| &&
    var th := w.threads[t];
    match a
    case Enter => th.depth > 0 || w.holder.None?
    case Leave => th.frames != []
    case Load => th.frames != []
    case Edit(_) => th.copy.Some?
    case Save => th.frames != [] && th.copy.Some?
    case Put(_) => th.frames != []
  }

  ghost function Step<S>(w: World<S>, t: Tid, a: Action<S>): World<S>
    requires Enabled(w, t, a)
  {
    var th := w.threads[t];
    match a
    case Enter =>
      var outermost := th.depth == 0;
      w.(threads := w.threads[t := Entered(th)],
         holder := if outermost then Some(t) else w.holder,
         sections := if outermost then w.sections + 1 else w.sections)
    case Leave =>
      w.(threads := w.threads[t := Left(th)],
         holder := if th.frames[|th.frames| - 1] then None else w.holder)
    case Load =>
      w.(threads := w.threads[t := th.(copy := Some(w.disk), pending := Identity())])
    case Edit(f) =>
      w.(threads := w.threads[t := th.(copy := Some(f(th.copy.value)), pending := Then(th.pending, f))])
    case Save =>
      w.(disk := th.copy.value,
         threads := w.threads[t := th.(pending := Identity())],
         log := w.log + [Commit(t, w.sections, th.pending)])
    case Put(state) =>
      w.(disk := state,
         threads := w.threads[t := th.(copy := Some(state), pending := Identity())],
         log := w.log + [Commit(t, w.sections, Always(state))])
  }

  // ---------------------------------------------------------------- the lock in memory

  /** The lock as `task_state_lock` uses it: per-thread depths, and one file lock. */
  class TaskLock {
    var holder: Option<Tid>
    var depths: map<Tid, nat>

    constructor ()
      ensures holder == None && depths == map[]
    {
      holder, depths := None, map[];
    }

    function Depth(t: Tid): nat
      reads this
    {
      if t in depths then depths[t] else 0
    }

    /** What the code keeps is what the interleaved model says of every thread. */
    ghost predicate Represents<S>(w: World<S>)
      reads this
    {
      holder == w.holder && forall t | 0 <= t < |w.threads| :: Depth(t) == w.threads[t].depth
    }

    /** `_set_lock_depth` */
    method SetDepth(t: Tid, value: int)
      modifies this`depths
      ensures depths == if value <= 0 then old(depths) - {t} else old(depths)[t := value]
    {
      depths := if value <= 0 then depths - {t} else depths[t := value];
    }

    /** One `flock(LOCK_EX | LOCK_NB)`. */
    method TryLock(t: Tid) returns (locked: bool)
      modifies this`holder
      ensures locked <==> old(holder) == None
      ensures holder == if locked then Some(t) else old(holder)
    {
      locked := holder.None?;
      if locked {
        holder := Some(t);
      }
    }

    /** `_acquire_with_stale_detection`: a lock file that looks stale is tried again, never taken away. */
    method Acquire(t: Tid, stale: bool) returns (locked: bool)
      modifies this`holder
      ensures locked <==> old(holder) == None
      ensures holder == if locked then Some(t) else old(holder)
    {
      locked := TryLock(t);
      if !locked && stale {
        locked := TryLock(t);
      }
    }

    /** Entering a frame is the step `Enter`; a thread for which that is not enabled waits. */
    method EnterFrame<S>(t: Tid, stale: bool, ghost w: World<S>) returns (entered: bool, owns: bool)
      requires Represents(w) && t < |w.threads|
      modifies this
      ensures entered <==> Enabled(w, t, Enter)
      ensures Represents(if entered then Step(w, t, Enter) else w)
      ensures entered ==> Step(w, t, Enter).threads[t].frames == w.threads[t].frames + [owns]
    {
      if Depth(t) > 0 {
        return true, false;
      }
      var locked := Acquire(t, stale);
      if !locked {
        return false, false;
      }
      SetDepth(t, Depth(t) + 1);
      return true, true;
    }

    /** Leaving a frame is the step `Leave`; the file lock goes with the frame that owns it. */
    method LeaveFrame<S>(t: Tid, owns: bool, ghost w: World<S>)
      requires Represents(w) && Enabled(w, t, Leave) && owns == w.threads[t].frames[|w.threads[t].frames| - 1]
      modifies this
      ensures Represents(Step(w, t, Leave))
    {
      if owns {
        SetDepth(t, Depth(t) - 1);
        holder := None;
      }
    }
  }

  ghost function Fold<S>(init: S, log: seq<Commit<S>>): S {
    if log == [] then init else log[|log| - 1].update(Fold(init, log[..|log| - 1]))
  }

  /** The frames of a thread: one that owns the lock, then nested ones; none without the lock. */
  ghost predicate FramesOk<S>(w: World<S>, t: Tid)
    requires t < |w.threads|
  {
    var th := w.threads[t];
    && th.depth == (if th.frames == [] then 0 else 1)
    && (th.frames != [] <==> w.holder == Some(t))
    && (forall k | 0 <= k < |th.frames| :: th.frames[k] <==> k == 0)
    && (th.copy.Some? ==> th.frames != [] && th.copy.value == th.pending(w.disk))
  }

  /** The log is in the order the lock was taken, each section belonging to one thread. */
  ghost predicate InOrder<S>(log: seq<Commit<S>>) {
    && (forall j, k | 0 <= j < k < |log| :: log[j].section <= log[k].section)
    && (forall j, k | 0 <= j < k < |log| && log[j].section == log[k].section :: log[j].thread == log[k].thread)
  }

  ghost predicate LogOk<S>(w: World<S>) {
    && InOrder(w.log)
    && (forall k | 0 <= k < |w.log| :: w.log[k].section <= w.sections)
    && (w.holder.Some? ==> forall k | 0 <= k < |w.log| && w.log[k].section == w.sections :: w.log[k].thread == w.holder.value)
  }

  ghost predicate Inv<S>(init: S, w: World<S>) {
    && (forall t | 0 <= t < |w.threads| :: FramesOk(w, t))
    && LogOk(w)
    && w.disk == Fold(init, w.log)
    && (w.holder.Some? ==> w.holder.value < |w.threads|)
  }

  ghost predicate Start<S>(init: S, w: World<S>) {
    w.disk == init && w.holder.None? && w.log == [] &&
    forall t | 0 <= t < |w.threads| :: w.threads[t].frames == [] && w.threads[t].depth == 0 && w.threads[t].copy.None?
  }

  lemma FoldSnoc<S>(init: S, log: seq<Commit<S>>, c: Commit<S>)
    ensures Fold(init, log + [c]) == c.update(Fold(init, log))
  {
    assert (log + [c])[..|log|] == log;
  }

  lemma StepKeepsFrames<S>(w: World<S>, t: Tid, a: Action<S>)
    requires Enabled(w, t, a) && forall u | 0 <= u < |w.threads| :: FramesOk(w, u)
    ensures var v := Step(w, t, a); |v.threads| == |w.threads| && forall u | 0 <= u < |v.threads| :: FramesOk(v, u)
  {
    var v := Step(w, t, a);
    forall u | 0 <= u < |v.threads| ensures FramesOk(v, u) {
      assert FramesOk(w, u) && FramesOk(w, t);
    }
  }

  lemma CommitKeepsLog<S>(w: World<S>, v: World<S>, c: Commit<S>)
    requires LogOk(w) && v.log == w.log + [c] && v.holder == w.holder == Some(c.thread) && v.sections == w.sections == c.section
    ensures LogOk(v)
  {
  }

  lemma StepKeepsLog<S>(w: World<S>, t: Tid, a: Action<S>)
    requires Enabled(w, t, a) && LogOk(w) && FramesOk(w, t)
    ensures LogOk(Step(w, t, a))
  {
    if a.Save? {
      CommitKeepsLog(w, Step(w, t, a), Commit(t, w.sections, w.threads[t].pending));
    } else if a.Put? {
      CommitKeepsLog(w, Step(w, t, a), Commit(t, w.sections, Always(a.state)));
    }
  }

  lemma StepKeepsInv<S>(init: S, w: World<S>, t: Tid, a: Action<S>)
    requires Inv(init, w) && Enabled(w, t, a)
    ensures Inv(init, Step(w, t, a))
  {
    assert FramesOk(w, t);
    StepKeepsFrames(w, t, a);
    StepKeepsLog(w, t, a);
    if a.Save? {
      FoldSnoc(init, w.log, Commit(t, w.sections, w.threads[t].pending));
    }
    if a.Put? {
      FoldSnoc(init, w.log, Commit(t, w.sections, Always(a.state)));
    }
  }

  ghost predicate Run<S>(trace: seq<World<S>>, moves: seq<(Tid, Action<S>)>) {
    |trace| == |moves| + 1 &&
    forall k | 0 <= k < |moves| ::
      Enabled(trace[k], moves[k].0, moves[k].1) && trace[k + 1] == Step(trace[k], moves[k].0, moves[k].1)
  }

  lemma {:induction false} RunsKeepInv<S>(init: S, trace: seq<World<S>>, moves: seq<(Tid, Action<S>)>, n: nat)
    requires Run(trace, moves) && n <= |moves| && Start(init, trace[0])
    ensures Inv(init, trace[n])
  {
    if n > 0 {
      RunsKeepInv(init, trace, moves, n - 1);
      assert trace[n - 1 + 1] == Step(trace[n - 1], moves[n - 1].0, moves[n - 1].1);
      StepKeepsInv(init, trace[n - 1], moves[n - 1].0, moves[n - 1].1);
    }
  }

  /** At most one thread is inside a frame, in every state of every interleaving. */
  lemma MutualExclusion<S>(init: S, trace: seq<World<S>>, moves: seq<(Tid, Action<S>)>, n: nat, t: Tid, u: Tid)
    requires Run(trace, moves) && n <= |moves| && Start(init, trace[0])
    requires t < |trace[n].threads| && u < |trace[n].threads| && trace[n].threads[t].frames != [] && trace[n].threads[u].frames != []
    ensures t == u
  {
    RunsKeepInv(init, trace, moves, n);
    assert FramesOk(trace[n], t) && FramesOk(trace[n], u);
  }

  /** The file lock is given up by leaving the outermost frame, and by no other step. */
  lemma NestedLeaveKeepsLock<S>(init: S, trace: seq<World<S>>, moves: seq<(Tid, Action<S>)>, n: nat)
    requires Run(trace, moves) && n < |moves| && Start(init, trace[0]) && trace[n].holder.Some?
    ensures var t := trace[n].holder.value;
      t < |trace[n].threads| &&
      (trace[n + 1].holder != trace[n].holder <==> moves[n] == (t, Leave) && |trace[n].threads[t].frames| == 1)
  {
    RunsKeepInv(init, trace, moves, n);
    var t := trace[n].holder.value;
    assert FramesOk(trace[n], t) && FramesOk(trace[n], moves[n].0);
  }

  /**
   * The persisted state is the saves folded in the order the lock was taken, and the saves of one
   * critical section stand together.  A put stands in the fold as a constant.
   */
  lemma DiskIsFoldOfSections<S>(init: S, trace: seq<World<S>>, moves: seq<(Tid, Action<S>)>, n: nat)
    requires Run(trace, moves) && n <= |moves| && Start(init, trace[0])
    ensures trace[n].disk == Fold(init, trace[n].log) && LogOk(trace[n])
  {
    RunsKeepInv(init, trace, moves, n);
  }

  /** A save builds on the state that is on disk: it writes that state, edited. */
  lemma SaveBuildsOnDisk<S>(init: S, trace: seq<World<S>>, moves: seq<(Tid, Action<S>)>, n: nat)
    requires Run(trace, moves) && n < |moves| && Start(init, trace[0]) && moves[n].1 == Save
    ensures trace[n + 1].disk == trace[n].threads[moves[n].0].pending(trace[n].disk)
  {
    RunsKeepInv(init, trace, moves, n);
    assert FramesOk(trace[n], moves[n].0);
  }

  /**
   * A state loaded at `i`, edited outside the lock and put back at `n`.  Where the edit tells the two
   * states apart, the put edits the persisted state exactly when the state it was made from is still
   * the one on disk; otherwise what was saved between is gone.
   */
  lemma PutIsAnEditExactlyWhen<S>(init: S, trace: seq<World<S>>, moves: seq<(Tid, Action<S>)>, i: nat, n: nat, t: Tid, f: S -> S)
    requires Run(trace, moves) && i <= n < |moves| && Start(init, trace[0]) && moves[n] == (t, Put(f(trace[i].disk)))
    requires f(trace[i].disk) == f(trace[n].disk) ==> trace[i].disk == trace[n].disk
    ensures trace[n + 1].disk == f(trace[n].disk) <==> trace[n].disk == trace[i].disk
    ensures trace[n].log == trace[i].log ==> trace[n].disk == trace[i].disk
  {
    RunsKeepInv(init, trace, moves, i);
    RunsKeepInv(init, trace, moves, n);
  }

  lemma RunExtends<S>(trace: seq<World<S>>, moves: seq<(Tid, Action<S>)>, t: Tid, a: Action<S>)
      returns (more: seq<World<S>>, steps: seq<(Tid, Action<S>)>)
    requires Run(trace, moves) && Enabled(trace[|moves|], t, a)
    ensures Run(more, steps) && more == trace + [Step(trace[|moves|], t, a)] && steps == moves + [(t, a)]
  {
    more, steps := trace + [Step(trace[|moves|], t, a)], moves + [(t, a)];
    forall k | 0 <= k < |steps| ensures
        Enabled(more[k], steps[k].0, steps[k].1) && more[k + 1] == Step(more[k], steps[k].0, steps[k].1) {
      if k < |moves| { assert more[k] == trace[k] && more[k + 1] == trace[k + 1] && steps[k] == moves[k]; }
    }
  }

  const IDLE := Thread([], 0, None, Identity<seq<nat>>())

  function Noting(x: nat): seq<nat> -> seq<nat> {
    s => s + [x]
  }

  /** The second thread inside its section, with this copy of the notes. */
  ghost function Working(copy: Option<seq<nat>>, pending: seq<nat> -> seq<nat>): World<seq<nat>> {
    World([], Some(1), 1, [IDLE, Thread([true], 1, copy, pending)], [])
  }

  lemma OpeningSteps(w: World<seq<nat>>)
    requires w == World([], None, 0, [IDLE, IDLE], [])
    ensures Enabled(w, 1, Enter) && Step(w, 1, Enter) == Working(None, Identity())
    ensures Enabled(Working(None, Identity()), 1, Load)
    ensures Step(Working(None, Identity()), 1, Load) == Working(Some([]), Identity())
  {
    assert Entered(IDLE) == Thread([true], 1, None, Identity()) by { assert [] + [true] == [true]; }
    assert [IDLE, IDLE][1 := Entered(IDLE)] == [IDLE, Entered(IDLE)];
    var th := Thread([true], 1, None, Identity());
    assert [IDLE, th][1 := th.(copy := Some([]))] == [IDLE, th.(copy := Some([]))];
  }

  lemma ClosingSteps(pending: seq<nat> -> seq<nat>, saved: World<seq<nat>>)
    requires saved == World([1], Some(1), 1, [IDLE, Thread([true], 1, Some([1]), Identity())], [Commit(1, 1, pending)])
    ensures Enabled(Working(Some([1]), pending), 1, Save) && Step(Working(Some([1]), pending), 1, Save) == saved
    ensures Enabled(saved, 1, Leave)
    ensures Step(saved, 1, Leave) == World([1], None, 1, [IDLE, IDLE], [Commit(1, 1, pending)])
  {
    var edited, stored := Thread([true], 1, Some([1]), pending), Thread([true], 1, Some([1]), Identity());
    assert [IDLE, edited][1 := stored] == [IDLE, stored];
    assert Working(Some([1]), pending).log + [Commit(1, 1, pending)] == [Commit(1, 1, pending)];
    assert Left(stored) == IDLE by { assert [true][..0] == []; }
    assert [IDLE, stored][1 := IDLE] == [IDLE, IDLE];
  }

  lemma EditStep()
    ensures var w := Working(Some([]), Identity());
      Enabled(w, 1, Edit(Noting(1))) && Step(w, 1, Edit(Noting(1))) == Working(Some([1]), Then(Identity(), Noting(1)))
  {
    assert Noting(1)([]) == [1];
    var th, noted := Thread([true], 1, Some([]), Identity()), Thread([true], 1, Some([1]), Then(Identity(), Noting(1)));
    assert [IDLE, th][1 := noted] == [IDLE, noted];
  }

  /** Two idle threads, of which the second notes 1 and saves, all in one section. */
  lemma AnotherSaves() returns (trace: seq<World<seq<nat>>>, moves: seq<(Tid, Action<seq<nat>>)>)
    ensures Run(trace, moves) && |moves| == 5 && Start([], trace[0])
    ensures trace[5].disk == [1] && trace[5].holder.None? && |trace[5].threads| == 2 && trace[5].threads[0] == IDLE
  {
    var pending := Then(Identity(), Noting(1));
    var saved := World([1], Some(1), 1, [IDLE, Thread([true], 1, Some([1]), Identity())], [Commit(1, 1, pending)]);
    trace, moves := [World([], None, 0, [IDLE, IDLE], [])], [];
    OpeningSteps(trace[0]);
    EditStep();
    ClosingSteps(pending, saved);
    trace, moves := RunExtends(trace, moves, 1, Enter);
    trace, moves := RunExtends(trace, moves, 1, Load);
    trace, moves := RunExtends(trace, moves, 1, Edit(Noting(1)));
    trace, moves := RunExtends(trace, moves, 1, Save);
    trace, moves := RunExtends(trace, moves, 1, Leave);
  }

  /** It saves between the load and the put of the first thread, and what it noted is gone. */
  lemma PutCanLoseASave() returns (trace: seq<World<seq<nat>>>, moves: seq<(Tid, Action<seq<nat>>)>)
    ensures Run(trace, moves) && |moves| == 7 && Start([], trace[0]) && moves[6] == (0, Put(Noting(0)(trace[0].disk)))
    ensures trace[6].disk == [1] && trace[7].disk == [0]
  {
    trace, moves := AnotherSaves();
    trace, moves := RunExtends(trace, moves, 0, Enter);
    trace, moves := RunExtends(trace, moves, 0, Put(Noting(0)(trace[0].disk)));
    assert trace[0].disk == [] && Noting(0)([]) == [0];
  }

  // ---------------------------------------------------------------- section by section

  lemma {:induction false} FoldConcat<S>(init: S, a: seq<Commit<S>>, b: seq<Commit<S>>)
    ensures Fold(init, a + b) == Fold(Fold(init, a), b)
  {
    if b == [] {
      assert a + b == a;
    } else {
      var n := |b| - 1;
      assert (a + b)[..|a + b| - 1] == a + b[..n];
      FoldConcat(init, a, b[..n]);
    }
  }

  lemma FoldSplits<S>(init: S, log: seq<Commit<S>>, i: nat, j: nat)
    requires i <= j <= |log|
    ensures Fold(init, log) == Fold(Fold(Fold(init, log[..i]), log[i..j]), log[j..])
  {
    FoldConcat(init, log[..i], log[i..j]);
    FoldConcat(init, log[..j], log[j..]);
    assert log[..i] + log[i..j] == log[..j];
    assert log[..j] + log[j..] == log;
  }

  /** The places `i` to `j` hold exactly the saves of one section. */
  ghost predicate IsSection<S>(log: seq<Commit<S>>, i: nat, j: nat)
    requires i <= j < |log|
  {
    && (forall k | 0 <= k < |log| :: log[k].section == log[i].section <==> i <= k <= j)
    && (forall k | i <= k <= j :: log[k].thread == log[i].thread)
    && (forall k | 0 <= k < i :: log[k].section < log[i].section)
    && (forall k | j < k < |log| :: log[k].section > log[i].section)
  }

  lemma SectionsStandTogether<S>(w: World<S>, i: nat, j: nat)
    requires LogOk(w) && i <= j < |w.log| && w.log[i].section == w.log[j].section
    requires i > 0 ==> w.log[i - 1].section != w.log[i].section
    requires j + 1 < |w.log| ==> w.log[j + 1].section != w.log[j].section
    ensures IsSection(w.log, i, j)
  {
    var log := w.log;
    forall k | i <= k <= j ensures log[k].section == log[i].section && log[k].thread == log[i].thread {
      assert i < k ==> log[i].section <= log[k].section;
      assert k < j ==> log[k].section <= log[j].section;
    }
    forall k | 0 <= k < i ensures log[k].section < log[i].section {
      assert k < i - 1 ==> log[k].section <= log[i - 1].section;
    }
    forall k | j < k < |log| ensures log[k].section > log[i].section {
      assert j + 1 < k ==> log[j + 1].section <= log[k].section;
    }
  }

  /**
   * A critical section acts at once: its saves stand together in the log, all by one thread, and
   * take the state every earlier section left to the state every later one starts from.
   */
  lemma SectionActsAtOnce<S>(init: S, trace: seq<World<S>>, moves: seq<(Tid, Action<S>)>, n: nat, i: nat, j: nat)
    requires Run(trace, moves) && n <= |moves| && Start(init, trace[0]) && i <= j < |trace[n].log|
    requires trace[n].log[i].section == trace[n].log[j].section
    requires i > 0 ==> trace[n].log[i - 1].section != trace[n].log[i].section
    requires j + 1 < |trace[n].log| ==> trace[n].log[j + 1].section != trace[n].log[j].section
    ensures var log := trace[n].log;
      IsSection(log, i, j) && trace[n].disk == Fold(Fold(Fold(init, log[..i]), log[i..j + 1]), log[j + 1..])
  {
    RunsKeepInv(init, trace, moves, n);
    SectionOfWorld(init, trace[n], i, j);
  }

  lemma SectionOfWorld<S>(init: S, w: World<S>, i: nat, j: nat)
    requires Inv(init, w) && i <= j < |w.log| && w.log[i].section == w.log[j].section
    requires i > 0 ==> w.log[i - 1].section != w.log[i].section
    requires j + 1 < |w.log| ==> w.log[j + 1].section != w.log[j].section
    ensures IsSection(w.log, i, j) && w.disk == Fold(Fold(Fold(init, w.log[..i]), w.log[i..j + 1]), w.log[j + 1..])
  {
    SectionsStandTogether(w, i, j);
    FoldSplits(init, w.log, i, j + 1);
  }

  function Flatten<T>(parts: seq<seq<T>>): seq<T> {
    if parts == [] then [] else Flatten(parts[..|parts| - 1]) + parts[|parts| - 1]
  }

  /** Each part holds saves of one section, made by one thread, and the sections come in order. */
  ghost predicate BySection<S>(parts: seq<seq<Commit<S>>>) {
    && (forall i | 0 <= i < |parts| :: OneSection(parts[i]))
    && (forall i, j | 0 <= i < j < |parts| :: parts[i][0].section < parts[j][0].section)
  }

  ghost predicate OneSection<S>(part: seq<Commit<S>>) {
    part != [] && forall k | 0 <= k < |part| :: part[k].section == part[0].section && part[k].thread == part[0].thread
  }

  lemma PrefixInOrder<S>(log: seq<Commit<S>>, n: nat)
    requires InOrder(log) && n < |log|
    ensures InOrder(log[..n]) && (n > 0 ==> log[n - 1].section <= log[n].section)
  {
  }

  /** The log of every run falls into the saves of its sections, one after the other. */
  lemma {:induction false} LogFallsIntoSections<S>(log: seq<Commit<S>>) returns (parts: seq<seq<Commit<S>>>)
    requires InOrder(log)
    ensures Flatten(parts) == log && BySection(parts)
    ensures (parts == [] <==> log == []) && (log != [] ==> parts[|parts| - 1][0].section == log[|log| - 1].section)
  {
    if log == [] {
      parts := [];
    } else {
      var n, c := |log| - 1, log[|log| - 1];
      assert log == log[..n] + [c];
      PrefixInOrder(log, n);
      var front: seq<seq<Commit<S>>> := LogFallsIntoSections(log[..n]);
      if front != [] && front[|front| - 1][0].section == c.section {
        SameSectionThread(log, front);
        parts := LastPartGrows(front, c);
      } else {
        parts := NewPart(front, c);
      }
    }
  }

  lemma SameSectionThread<S>(log: seq<Commit<S>>, front: seq<seq<Commit<S>>>)
    requires InOrder(log) && |log| > 1 && BySection(front) && front != [] && Flatten(front) == log[..|log| - 1]
    requires front[|front| - 1][0].section == log[|log| - 1].section
    ensures front[|front| - 1][0].thread == log[|log| - 1].thread
  {
    var last := front[|front| - 1];
    var n := |Flatten(front[..|front| - 1])|;
    assert log[n] == Flatten(front)[n] == last[0];
  }

  lemma NewPart<S>(front: seq<seq<Commit<S>>>, c: Commit<S>) returns (parts: seq<seq<Commit<S>>>)
    requires BySection(front) && (front != [] ==> front[|front| - 1][0].section < c.section)
    ensures parts != [] && BySection(parts) && Flatten(parts) == Flatten(front) + [c] && parts[|parts| - 1][0].section == c.section
  {
    parts := front + [[c]];
    assert parts[..|parts| - 1] == front;
    forall i | 0 <= i < |front| ensures parts[i][0].section < c.section {
      assert i < |front| - 1 ==> front[i][0].section < front[|front| - 1][0].section;
    }
  }

  lemma LastPartGrows<S>(front: seq<seq<Commit<S>>>, c: Commit<S>) returns (parts: seq<seq<Commit<S>>>)
    requires front != [] && BySection(front)
    requires front[|front| - 1][0].section == c.section && front[|front| - 1][0].thread == c.thread
    ensures parts != [] && BySection(parts) && Flatten(parts) == Flatten(front) + [c] && parts[|parts| - 1][0].section == c.section
  {
    var m := |front| - 1;
    parts := front[..m] + [front[m] + [c]];
    assert parts[..m] == front[..m];
  }
}
