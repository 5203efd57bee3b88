/**
 * The task queue of the legacy task_manager.cpp: tasks are queued as they
 * arrive, and the worker takes them from the front, runs the operation name
 * as it is, and answers each task that did not throw with one callback whose
 * text names what was done.
 */
module LegacyTaskManager {
  import opened Text
  import TaskManager

  type AsyncTask = TaskManager.AsyncTask

  /** `send_callback(taskId, defectId, state)` */
  datatype Callback = Callback(taskId: int, defectId: int, state: string)

  /** `"已" + operation`, followed by `"（平台" + target + "）"` when there is a target. */
  function StatePhrase(operation: string, target: string): string
  {
    "已" + operation + (if target != [] then "（平台" + target + "）" else "")
  }

  /** The phrase starts with the operation, and the platform part appears exactly when there is a target. */
  lemma StatePhraseParts(operation: string, target: string)
    ensures var p := StatePhrase(operation, target);
      |p| >= 1 + |operation| && p[..1 + |operation|] == "已" + operation
      && (target == [] <==> |p| == 1 + |operation|)
      && (target != [] ==> p[1 + |operation|..] == "（平台" + target + "）")
  {
    var p := StatePhrase(operation, target);
    assert p == ("已" + operation) + (if target != [] then "（平台" + target + "）" else "");
  }

  /** For one operation, the phrase tells the targets apart. */
  lemma StatePhraseNamesTarget(operation: string, t1: string, t2: string)
    requires StatePhrase(operation, t1) == StatePhrase(operation, t2)
    ensures t1 == t2
  {
    StatePhraseParts(operation, t1);
    StatePhraseParts(operation, t2);
    if t1 != [] && t2 != [] {
      var k := 1 + |operation|;
      var s1 := "（平台" + t1 + "）";
      var s2 := "（平台" + t2 + "）";
      assert s1 == s2;
      assert s1[3..|s1| - 1] == t1;
      assert s2[3..|s2| - 1] == t2;
    }
  }

  /** The callback a task that did not throw is answered with. */
  function PhraseCallback(t: AsyncTask): Callback
  {
    Callback(t.taskId, t.defectId, StatePhrase(t.operation, t.target))
  }

  /** The callbacks for `tasks` whose runs threw as `threw` says: one per task that did not throw, in order. */
  function Callbacks(tasks: seq<AsyncTask>, threw: seq<bool>): (r: seq<Callback>)
    requires |threw| == |tasks|
    ensures |r| <= |tasks|
  {
    if tasks == [] then []
    else
      var n := |tasks| - 1;
      Callbacks(tasks[..n], threw[..n]) + (if threw[n] then [] else [PhraseCallback(tasks[n])])
  }

  /** How many of the runs did not throw. */
  function Returned(threw: seq<bool>): nat
  {
    if threw == [] then 0 else Returned(threw[..|threw| - 1]) + (if threw[|threw| - 1] then 0 else 1)
  }

  /** Exactly one callback per task that did not throw, and none for a task that did. */
  lemma {:induction false} OneCallbackPerReturnedTask(tasks: seq<AsyncTask>, threw: seq<bool>)
    requires |threw| == |tasks|
    ensures |Callbacks(tasks, threw)| == Returned(threw)
  {
    if tasks != [] {
      OneCallbackPerReturnedTask(tasks[..|tasks| - 1], threw[..|threw| - 1]);
    }
  }

  /** When nothing throws, the callbacks follow the tasks one for one, in submission order. */
  lemma {:induction false} CallbacksFollowTasks(tasks: seq<AsyncTask>, threw: seq<bool>)
    requires |threw| == |tasks| && forall i :: 0 <= i < |threw| ==> !threw[i]
    ensures |Callbacks(tasks, threw)| == |tasks|
    ensures forall i :: 0 <= i < |tasks| ==>
      Callbacks(tasks, threw)[i] == Callback(tasks[i].taskId, tasks[i].defectId, StatePhrase(tasks[i].operation, tasks[i].target))
  {
    if tasks != [] {
      CallbacksFollowTasks(tasks[..|tasks| - 1], threw[..|threw| - 1]);
    }
  }

  /** The operation names of `tasks`, in order. */
  function Operations(tasks: seq<AsyncTask>): (r: seq<string>)
    ensures |r| == |tasks| && forall i :: 0 <= i < |tasks| ==> r[i] == tasks[i].operation
  {
    if tasks == [] then [] else Operations(tasks[..|tasks| - 1]) + [tasks[|tasks| - 1].operation]
  }

  class LegacyTaskManager {
    /** `m_tasks`, front first. */
    var tasks: seq<AsyncTask>
    /** `m_running` */
    var running: bool
    /** The operation names handed to `execute_operation`, in order. */
    var executed: seq<string>
    /** The callbacks sent, in order. */
    var sent: seq<Callback>

    constructor ()
      ensures tasks == [] && running && executed == [] && sent == []
    {
      tasks := [];
      running := true;
      executed := [];
      sent := [];
    }

    /** `create_task`: the task joins the back of the queue. */
    method CreateTask(taskId: int, defectId: int, operation: string, target: string)
      modifies this`tasks
      ensures tasks == old(tasks) + [TaskManager.AsyncTask(taskId, defectId, operation, target)]
    {
      tasks := tasks + [TaskManager.AsyncTask(taskId, defectId, operation, target)];
    }

    /** The destructor's part: the worker is told to stop. */
    method Shutdown()
      modifies this`running
      ensures !running
    {
      running := false;
    }

    /**
     * One pass of `worker_thread` once it is woken: a waiting task is taken
     * whether or not the manager is still running, its operation executed,
     * and, unless that threw, its callback sent.
     */
    method WorkerStep(threw: bool) returns (ran: bool)
      modifies this`tasks, this`executed, this`sent
      ensures ran <==> old(tasks) != []
      ensures ran ==> (tasks == old(tasks)[1..] && executed == old(executed) + [old(tasks)[0].operation]
        && sent == old(sent) + (if threw then [] else [PhraseCallback(old(tasks)[0])]))
      ensures !ran ==> tasks == old(tasks) && executed == old(executed) && sent == old(sent)
    {
      if tasks == [] {
        return false;
      }
      var task := tasks[0];
      tasks := tasks[1..];
      executed := executed + [task.operation];
      if !threw {
        sent := sent + [PhraseCallback(task)];
      }
      return true;
    }

    /**
     * `worker_thread`'s loop while running and there is work: one pass per
     * entry of `threw` until the queue or the entries run out.
     */
    method WorkerLoop(threw: seq<bool>) returns (n: nat)
      modifies this`tasks, this`executed, this`sent
      ensures n == if running then (if |threw| < |old(tasks)| then |threw| else |old(tasks)|) else 0
      ensures tasks == old(tasks)[n..]
      ensures executed == old(executed) + Operations(old(tasks)[..n])
      ensures sent == old(sent) + Callbacks(old(tasks)[..n], threw[..n])
    {
      n := 0;
      while running && n < |threw| && tasks != []
        invariant n <= |threw| && n <= |old(tasks)|
        invariant tasks == old(tasks)[n..]
        invariant executed == old(executed) + Operations(old(tasks)[..n])
        invariant sent == old(sent) + Callbacks(old(tasks)[..n], threw[..n])
        invariant !running ==> n == 0
      {
        assert old(tasks)[..n + 1][..n] == old(tasks)[..n];
        assert threw[..n + 1][..n] == threw[..n];
        assert old(tasks)[n] == tasks[0];
        var _ := WorkerStep(threw[n]);
        n := n + 1;
      }
    }
  }
}
