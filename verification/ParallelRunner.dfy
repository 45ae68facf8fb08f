/**
 * The coordinator's side of a parallel batch, updating the task in place: preparation, collection
 * (src/cc_loop/parallel_scheduler.py) and the merge queue (src/cc_loop/merge_queue.py).
 */
module ParallelRunner {
  import opened Option
  import opened TaskGraph
  import opened TaskState
  import opened AutoLoop
  import opened ParallelBatch
  import opened MergeQueue
  import opened TaskRunner

  /** The persisted task. */
  class StateFile {
    var saved: Shared

    constructor (s: Shared)
      ensures saved == s
    {
      saved := s;
    }
  }

  /** The coordinator's copy of the task. */
  class SharedRecord {
    const task: TaskRecord
    var running: map<string, nat>
    var queue: seq<string>

    /** `load_state` */
    constructor (s: Shared)
      ensures View() == s && fresh(task)
    {
      task := new TaskRecord(s.task);
      running, queue := s.running, s.queue;
    }

    function View(): Shared
      reads this, task
    {
      Shared(task.View(), running, queue)
    }

    /** The preparation loop: one attempt for each node of the batch. */
    method PrepareBatch(ids: seq<string>)
      modifies this, task
      ensures View() == WithAttempts(old(View()), ids)
    {
      for i := 0 to |ids|
        invariant View() == WithAttempts(old(View()), ids[..i])
      {
        assert ids[..i + 1][..i] == ids[..i];
        task.iteration := task.iteration + 1;
        task.history := task.history + [NewAttempt(task.iteration, 0, ids[i])];
        running := running[ids[i] := |task.history| - 1];
      }
      assert ids[..|ids|] == ids;
    }

    /** `enqueue_merge` */
    method Enqueue(id: string)
      modifies this`queue
      ensures queue == EnqueueMerge(old(queue), id)
    {
      if id !in queue {
        queue := queue + [id];
      }
    }

    /** `dequeue_merge`: first in, first out. */
    method Dequeue() returns (id: Option<string>)
      modifies this`queue
      ensures old(queue) == [] ==> id == None && queue == []
      ensures old(queue) != [] ==> id.Some? && old(queue) == [id.value] + queue
    {
      if queue == [] { return None; }
      id := Some(queue[0]);
      queue := queue[1..];
    }

    /** `find_attempt_for_node`: the running attempt, or else a search of history from its end. */
    method FindAttempt(id: string) returns (found: Option<nat>)
      ensures found == AttemptFor(View(), id)
    {
      if id in running && running[id] < |task.history| { return Some(running[id]); }
      var n := |task.history|;
      while n > 0
        invariant 0 <= n <= |task.history|
        invariant LatestMergeable(task.history, |task.history|, id) == LatestMergeable(task.history, n, id)
      {
        n := n - 1;
        if IsMergeable(task.history[n], id) { return Some(n); }
      }
      return None;
    }

    /**
     * One turn of the `as_completed` loop.  Marking a node that the graph no longer has raises out
     * of the handler, before anything is changed.
     */
    method CollectResult(id: string, v: Verdict) returns (ok: bool)
      modifies this, task
      ensures ok <==> !v.Fails? || old(task.graph).None? || exists n <- old(task.graph).value :: n.id == id
      ensures View() == if ok then Collected(old(View()), id, v) else old(View())
    {
      if v.Fails? {
        if task.graph.Some? {
          NamedIsMarked(task.graph.value, id);
          var failed := MarkFailed(task.graph.value, id);
          if failed.None? { return false; }
          task.graph := failed;
        }
      } else if v.Approves? {
        Enqueue(id);
      }
      running := running - {id};
      return true;
    }
  }

  lemma NamedIsMarked(ns: seq<Node>, id: string)
    ensures MarkFailed(ns, id).Some? <==> exists n <- ns :: n.id == id
  {
  }

  /** The `while pending_merge_count(state) > 0` of `execute_parallel_batch`, one input a turn. */
  method MergeLoop(cfg: Config, file: StateFile, memory: Shared, worlds: seq<World>) returns (r: Loop)
    modifies file
    ensures r == Turns(cfg, Loop(memory, old(file.saved), Draining, []), worlds) && file.saved == r.disk
  {
    r := Loop(memory, file.saved, Draining, []);
    var i := 0;
    while !Over(r) && i < |worlds|
      invariant i <= |worlds| && file.saved == r.disk
      invariant Turns(cfg, Loop(memory, old(file.saved), Draining, []), worlds) == Turns(cfg, r, worlds[i..])
    {
      assert worlds[i..][1..] == worlds[i + 1..];
      r := MergeTurn(cfg, file, r, worlds[i]);
      i := i + 1;
    }
  }

  method MergeTurn(cfg: Config, file: StateFile, l: Loop, w: World) returns (r: Loop)
    requires l.disk == file.saved && !Over(l)
    modifies file
    ensures r == Turn(cfg, l, w) && file.saved == r.disk
  {
    var state := new SharedRecord(file.saved);
    var id := state.Dequeue();
    if id.None? {
      return Loop(state.View(), file.saved, Emptied, l.finalised);
    }
    var k := state.FindAttempt(id.value);
    if k.None? {
      return l.(memory := state.View());   // `continue`: nothing is saved
    }
    var error := state.task.FinalizePhase(cfg, k.value, w);
    if error.Some? {
      return Loop(state.View(), file.saved, Crashed, l.finalised);
    }
    file.saved := state.View();
    return Loop(state.View(), state.View(), Draining, l.finalised + [k.value]);
  }
}
