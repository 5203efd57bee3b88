/**
 * The task pipeline of src/task_manager.cpp: control requests are queued as
 * tasks, and a worker takes them from the front one at a time, turns the
 * request vocabulary into the controller's operation name, runs it, and
 * reports the outcome through one of three callbacks chosen by the kind of
 * request. What `execute_operation` does is the environment: each step is
 * told whether it returned or threw, and with what message.
 */
module TaskManager {
  import opened Text

  /** `AsyncTask` */
  datatype AsyncTask = AsyncTask(taskId: int, defectId: int, operation: string, target: string)

  /** The request words the worker knows, in the order its chain tests them. */
  const KNOWN_OPERATIONS := ["rigid", "flexible", "up", "down", "level", "level_reset",
    "power_on", "power_off", "motor_start", "motor_stop", "auto", "manual"]

  /** The operation→command chain of `worker_thread`; an unknown request word is passed on as it is. */
  function PlcCommand(operation: string, target: string): string
  {
    if operation == "rigid" then "刚性支撑"
    else if operation == "flexible" then "柔性复位"
    else if operation == "up" then "平台" + target + "上升"
    else if operation == "down" then "平台" + target + "下降"
    else if operation == "level" then "调平启动"
    else if operation == "level_reset" then "调平停止"
    else if operation == "power_on" then "电源开"
    else if operation == "power_off" then "电源关"
    else if operation == "motor_start" then "启动电机"
    else if operation == "motor_stop" then "停止电机"
    else if operation == "auto" then "自动模式"
    else if operation == "manual" then "手动模式"
    else operation
  }

  /** A request word outside the chain reaches the controller unchanged. */
  lemma UnknownOperationPassesThrough(operation: string, target: string)
    requires operation !in KNOWN_OPERATIONS
    ensures PlcCommand(operation, target) == operation
  {
  }

  /** Every known request word is translated: none reaches the controller as it was written. */
  lemma KnownOperationsAreTranslated(operation: string, target: string)
    requires operation in KNOWN_OPERATIONS
    ensures PlcCommand(operation, target) != operation
  {
    var c := PlcCommand(operation, target);
    assert c[0] != operation[0];
  }

  /** The platform a height command names can be read back from it: different targets give different commands. */
  lemma PlatformCommandNamesTarget(operation: string, t1: string, t2: string)
    requires operation == "up" || operation == "down"
    requires PlcCommand(operation, t1) == PlcCommand(operation, t2)
    ensures t1 == t2
  {
    var c1 := PlcCommand(operation, t1);
    var c2 := PlcCommand(operation, t2);
    assert |t1| == |t2|;
    assert c1[2..2 + |t1|] == t1;
    assert c2[2..2 + |t2|] == t2;
  }

  // ---------------------------------------------------------------------------
  // Callbacks
  // ---------------------------------------------------------------------------

  /** Which callback a request word is answered with. */
  datatype Category = Support | Height | Horizontal | NoCallback

  function CategoryOf(operation: string): (c: Category)
    ensures c == Support <==> operation == "rigid" || operation == "flexible"
    ensures c == Height <==> operation == "up" || operation == "down"
    ensures c == Horizontal <==> operation == "level" || operation == "level_reset"
  {
    if operation == "rigid" || operation == "flexible" then Support
    else if operation == "up" || operation == "down" then Height
    else if operation == "level" || operation == "level_reset" then Horizontal
    else NoCallback
  }

  /** `send_support_callback`, `send_platform_height_callback` and `send_platform_horizontal_callback`. */
  datatype Callback =
    | SupportCallback(taskId: int, defectId: int, state: string)
    | HeightCallback(taskId: int, defectId: int, platformNum: int, state: string)
    | HorizontalCallback(taskId: int, defectId: int, platformNum: int, state: string)

  /** `!target.empty() ? std::stoi(target) : 1` */
  function PlatformNumber(target: string): StoiResult
  {
    if target == [] then Parsed(1) else Stoi(target)
  }

  /**
   * The callback a task's category sends with `state`. A platform callback
   * needs the platform number; when `stoi` throws, no callback is sent.
   */
  function CallbackOf(task: AsyncTask, state: string): Option<Callback>
  {
    match CategoryOf(task.operation)
    case Support => Some(SupportCallback(task.taskId, task.defectId, state))
    case Height =>
      if PlatformNumber(task.target).Parsed?
      then Some(HeightCallback(task.taskId, task.defectId, PlatformNumber(task.target).value, state))
      else None
    case Horizontal =>
      if PlatformNumber(task.target).Parsed?
      then Some(HorizontalCallback(task.taskId, task.defectId, PlatformNumber(task.target).value, state))
      else None
    case NoCallback => None
  }

  /** What `execute_operation` did: returned (its result is not looked at) or threw with a message. */
  datatype Outcome = Returned(result: bool) | Threw(message: string)

  /** The state text a task's callback carries. */
  function StateText(outcome: Outcome): string
  {
    if outcome.Threw? then "error: " + outcome.message else "success"
  }

  /**
   * The callback one task produces. A `stoi` that throws in the success
   * path jumps to the error path, where the same `stoi` throws again and the
   * error callback is swallowed, so both paths send nothing for such a task.
   */
  function TaskCallback(task: AsyncTask, outcome: Outcome): Option<Callback>
  {
    CallbackOf(task, StateText(outcome))
  }

  /**
   * The worker reports "success" whatever `execute_operation` returned, an
   * error text when it threw, and uses the same callback kind either way.
   */
  lemma ResultIsIgnored(task: AsyncTask, message: string)
    ensures TaskCallback(task, Returned(true)) == TaskCallback(task, Returned(false))
    ensures TaskCallback(task, Threw(message)).Some? <==> TaskCallback(task, Returned(true)).Some?
    ensures CategoryOf(task.operation) == NoCallback ==> TaskCallback(task, Threw(message)).None?
    ensures CategoryOf(task.operation) == Support ==>
      TaskCallback(task, Threw(message)) == Some(SupportCallback(task.taskId, task.defectId, "error: " + message))
  {
  }

  /** A platform task with an empty target reports platform 1; one with a decimal target reports that number. */
  lemma PlatformNumberOfTarget(n: nat)
    requires n <= INT_MAX
    ensures PlatformNumber([]) == Parsed(1)
    ensures PlatformNumber(NatToString(n)) == Parsed(n)
  {
    StoiOfNatToString(n);
  }

  // ---------------------------------------------------------------------------
  // A run of the worker
  // ---------------------------------------------------------------------------

  /** The commands the worker hands to the controller for `tasks`, in order. */
  function Commands(tasks: seq<AsyncTask>): (r: seq<string>)
    ensures |r| == |tasks|
  {
    if tasks == [] then []
    else Commands(tasks[..|tasks| - 1]) + [PlcCommand(tasks[|tasks| - 1].operation, tasks[|tasks| - 1].target)]
  }

  /** The worker runs the tasks in the order they were submitted. */
  lemma {:induction false} CommandsInOrder(tasks: seq<AsyncTask>, i: nat)
    requires i < |tasks|
    ensures Commands(tasks)[i] == PlcCommand(tasks[i].operation, tasks[i].target)
  {
    if i < |tasks| - 1 {
      assert tasks[..|tasks| - 1][i] == tasks[i];
      CommandsInOrder(tasks[..|tasks| - 1], i);
    }
  }

  /** The callbacks sent for `tasks` given the outcomes of their runs, in order. */
  function Callbacks(tasks: seq<AsyncTask>, outcomes: seq<Outcome>): (r: seq<Callback>)
    requires |outcomes| == |tasks|
    ensures |r| <= |tasks|
  {
    if tasks == [] then []
    else
      var n := |tasks| - 1;
      var earlier := Callbacks(tasks[..n], outcomes[..n]);
      match TaskCallback(tasks[n], outcomes[n])
      case Some(c) => earlier + [c]
      case None => earlier
  }

  /** Support tasks always get their callback, so a run of them gets one callback each, in order. */
  lemma {:induction false} SupportTasksAllAnswered(tasks: seq<AsyncTask>, outcomes: seq<Outcome>)
    requires |outcomes| == |tasks|
    requires forall i :: 0 <= i < |tasks| ==> CategoryOf(tasks[i].operation) == Support
    ensures |Callbacks(tasks, outcomes)| == |tasks|
    ensures forall i :: 0 <= i < |tasks| ==>
      Callbacks(tasks, outcomes)[i] == SupportCallback(tasks[i].taskId, tasks[i].defectId, StateText(outcomes[i]))
  {
    if tasks != [] {
      var n := |tasks| - 1;
      SupportTasksAllAnswered(tasks[..n], outcomes[..n]);
    }
  }

  class TaskManager {
    /** `m_tasks`, front first. */
    var tasks: seq<AsyncTask>
    /** `m_running` */
    var running: bool
    /** The operation names handed to `execute_operation`, in order. */
    var executed: seq<string>
    /** The callbacks sent, in order. */
    var sent: seq<Callback>

    constructor ()
      ensures tasks == [] && running && executed == [] && sent == []
    {
      tasks := [];
      running := true;
      executed := [];
      sent := [];
    }

    /** `create_task`: the task joins the back of the queue. */
    method CreateTask(taskId: int, defectId: int, operation: string, target: string)
      modifies this`tasks
      ensures tasks == old(tasks) + [AsyncTask(taskId, defectId, operation, target)]
    {
      tasks := tasks + [AsyncTask(taskId, defectId, operation, target)];
    }

    /** The destructor's part: the worker is told to stop. */
    method Shutdown()
      modifies this`running
      ensures !running
    {
      running := false;
    }

    /**
     * One pass of `worker_thread` once it is woken: with a task waiting and
     * the manager running, the front task is taken, its command executed
     * and its callback (if any) sent; otherwise nothing happens.
     */
    method WorkerStep(outcome: Outcome) returns (ran: bool)
      modifies this`tasks, this`executed, this`sent
      ensures ran <==> old(tasks) != [] && running
      ensures ran ==> (tasks == old(tasks)[1..]
        && executed == old(executed) + [PlcCommand(old(tasks)[0].operation, old(tasks)[0].target)]
        && sent == old(sent) + (match TaskCallback(old(tasks)[0], outcome) case Some(c) => [c] case None => []))
      ensures !ran ==> tasks == old(tasks) && executed == old(executed) && sent == old(sent)
    {
      if tasks == [] || !running {
        return false;
      }
      var task := tasks[0];
      tasks := tasks[1..];
      var command := PlcCommand(task.operation, task.target);
      executed := executed + [command];
      var callback := TaskCallback(task, outcome);
      if callback.Some? {
        sent := sent + [callback.value];
      }
      return true;
    }

    /**
     * `worker_thread`'s loop while it has work: one pass per outcome until
     * the queue or the outcomes run out. The first `n` tasks are run in
     * submission order and the rest stay queued.
     */
    method WorkerLoop(outcomes: seq<Outcome>) returns (n: nat)
      modifies this`tasks, this`executed, this`sent
      ensures n == if running then (if |outcomes| < |old(tasks)| then |outcomes| else |old(tasks)|) else 0
      ensures tasks == old(tasks)[n..]
      ensures executed == old(executed) + Commands(old(tasks)[..n])
      ensures sent == old(sent) + Callbacks(old(tasks)[..n], outcomes[..n])
    {
      n := 0;
      while running && n < |outcomes| && tasks != []
        invariant n <= |outcomes| && n <= |old(tasks)|
        invariant tasks == old(tasks)[n..]
        invariant executed == old(executed) + Commands(old(tasks)[..n])
        invariant sent == old(sent) + Callbacks(old(tasks)[..n], outcomes[..n])
        invariant !running ==> n == 0
      {
        assert old(tasks)[..n + 1][..n] == old(tasks)[..n];
        assert outcomes[..n + 1][..n] == outcomes[..n];
        assert old(tasks)[n] == tasks[0];
        var _ := WorkerStep(outcomes[n]);
        n := n + 1;
      }
    }
  }
}
