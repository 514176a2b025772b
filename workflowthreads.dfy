/** The task harness (`WorkflowThread`): a keyed table of tasks, each in an abstract lifecycle
    state, with one shared cancellation source. Scheduling is abstracted away: the runners
    drive each task's progress with `Begin`, `Complete` and `Fault`. */
module WorkflowThreads {
  import opened Wrappers
  import opened Strings
  import opened Results

  /** The lifecycle states of a task. */
  datatype TaskState =
    | Created
    | WaitingForActivation
    | WaitingToRun
    | Running
    | WaitingForChildrenToComplete
    | RanToCompletion(result: JobResult)
    | Canceled
    | Faulted

  /** A table entry: the task's state, and whether it was created with the shared token. */
  datatype TaskEntry = TaskEntry(state: TaskState, bound: bool)

  /** The states the harness counts as still running. */
  predicate IsActive(s: TaskState) {
    s == TaskState.Running || s == WaitingForActivation || s == WaitingForChildrenToComplete || s == WaitingToRun
  }

  /** The states in which a task has not begun to run yet, so cancellation still applies. */
  predicate IsPending(s: TaskState) {
    s == Created || s == WaitingForActivation || s == WaitingToRun
  }

  /** `GetStatus(TaskStatus)`: the job status of a task state, ignoring any result. */
  function StateStatus(s: TaskState): (r: JobStatus)
    ensures r == Stoped <==> s == Canceled
    ensures r == CompletedWithError <==> s == Faulted
    ensures r == JobStatus.Running <==> IsActive(s)
    ensures r == NotStarted <==> s == Created || s.RanToCompletion?
  {
    match s
    case Canceled => Stoped
    case Faulted => CompletedWithError
    case Running => JobStatus.Running
    case WaitingForActivation => JobStatus.Running
    case WaitingForChildrenToComplete => JobStatus.Running
    case WaitingToRun => JobStatus.Running
    case _ => NotStarted
  }

  /** The status `GetStatus(id)` reports for a task: a finished task's own result status,
      otherwise the state's status. */
  function TaskStatus(s: TaskState): (r: JobStatus)
    ensures s.RanToCompletion? ==> r == s.result.status
    ensures !s.RanToCompletion? ==> r == StateStatus(s)
  {
    if s.RanToCompletion? then s.result.status else StateStatus(s)
  }

  /** `GetStatus()`: the aggregate over the whole table, in the harness's priority order. */
  function Aggregate(tasks: map<string, TaskEntry>): JobStatus {
    if exists id :: id in tasks && IsActive(tasks[id].state) then JobStatus.Running
    else if exists id :: id in tasks && (tasks[id].state == Canceled || tasks[id].state == Faulted) then Stoped
    else if exists id :: id in tasks && tasks[id].state.RanToCompletion? && tasks[id].state.result.status == CompletedWithError
    then CompletedWithError
    else if forall id :: id in tasks ==> tasks[id].state.RanToCompletion? && tasks[id].state.result.status == Completed
    then Completed
    else NotStarted
  }

  /** No task in the table is left unstarted: `AddAndStart` starts what it adds. */
  ghost predicate AllStarted(tasks: map<string, TaskEntry>) {
    forall id :: id in tasks ==> tasks[id].state != Created
  }

  /** No task is in a running state: what `WaitForAll` waits for. */
  predicate Settled(tasks: map<string, TaskEntry>) {
    forall id :: id in tasks ==> !IsActive(tasks[id].state)
  }

  /** The aggregate reads Running exactly while the table is not settled, so once every task
      has been waited for it never reads Running. */
  lemma SettledNotRunning(tasks: map<string, TaskEntry>)
    ensures Aggregate(tasks) == JobStatus.Running <==> !Settled(tasks)
  {
  }

  /** The empty table aggregates to Completed. */
  lemma EmptyAggregateCompleted()
    ensures Aggregate(map[]) == Completed
  {
  }

  /** The aggregate is Completed exactly when every task ran to completion with Completed. */
  lemma AggregateCompletedIff(tasks: map<string, TaskEntry>)
    ensures Aggregate(tasks) == Completed <==>
      forall id :: id in tasks ==> tasks[id].state.RanToCompletion? && tasks[id].state.result.status == Completed
  {
    if forall id :: id in tasks ==> tasks[id].state.RanToCompletion? && tasks[id].state.result.status == Completed {
      assert !exists id :: id in tasks && IsActive(tasks[id].state);
    }
  }

  /** Each aggregate verdict is backed by the per-task status of some task: Running by a
      Running task, Stoped by a Stoped or (faulted) CompletedWithError task, CompletedWithError
      by a CompletedWithError task. On a table where every task started, NotStarted means some
      task finished with a status other than Completed and CompletedWithError. */
  lemma {:induction false} AggregateWitness(tasks: map<string, TaskEntry>)
    ensures Aggregate(tasks) == JobStatus.Running ==> exists id :: id in tasks && TaskStatus(tasks[id].state) == JobStatus.Running
    ensures Aggregate(tasks) == Stoped ==>
      exists id :: id in tasks && TaskStatus(tasks[id].state) in {Stoped, CompletedWithError}
    ensures Aggregate(tasks) == CompletedWithError ==>
      exists id :: id in tasks && TaskStatus(tasks[id].state) == CompletedWithError
    ensures AllStarted(tasks) && Aggregate(tasks) == NotStarted ==>
      exists id :: id in tasks && tasks[id].state.RanToCompletion?
        && tasks[id].state.result.status !in {Completed, CompletedWithError}
  {
    if Aggregate(tasks) == JobStatus.Running {
      var id :| id in tasks && IsActive(tasks[id].state);
      assert TaskStatus(tasks[id].state) == JobStatus.Running;
    } else if Aggregate(tasks) == Stoped {
      var id :| id in tasks && (tasks[id].state == Canceled || tasks[id].state == Faulted);
      assert TaskStatus(tasks[id].state) in {Stoped, CompletedWithError};
    } else if Aggregate(tasks) == CompletedWithError {
      var id :| id in tasks && tasks[id].state.RanToCompletion? && tasks[id].state.result.status == CompletedWithError;
      assert TaskStatus(tasks[id].state) == CompletedWithError;
    } else if AllStarted(tasks) && Aggregate(tasks) == NotStarted {
      var id :| id in tasks && !(tasks[id].state.RanToCompletion? && tasks[id].state.result.status == Completed);
      assert tasks[id].state != Created;
    }
  }

  /** A faulted task reads as CompletedWithError on its own, but the table reads Stoped
      unless some other task is still running. */
  lemma FaultedReadsDifferently(tasks: map<string, TaskEntry>, id: string)
    requires id in tasks && tasks[id].state == Faulted
    requires forall other :: other in tasks ==> !IsActive(tasks[other].state)
    ensures TaskStatus(tasks[id].state) == CompletedWithError
    ensures Aggregate(tasks) == Stoped
  {
  }

  class WorkflowThread {
    var tasks: map<string, TaskEntry>
    var cancelRequested: bool   // whether the shared cancellation source has been cancelled

    ghost predicate Valid()
      reads this
    {
      AllStarted(tasks)
    }

    constructor ()
      ensures Valid() && tasks == map[] && !cancelRequested
    {
      tasks := map[];
      cancelRequested := false;
    }

    /** `AddAndStart(task, id, ref token, addCancelToken)`. `hasTask` says whether the unit is
        non-null; the token handed back is `cancelRequested`. A bound task created after
        `StopAll` is cancelled on creation, so starting it fails after it was stored. */
    method AddAndStart(hasTask: bool, id: Option<string>, bound: bool) returns (r: Result<(), Failure>)
      requires Valid()
      modifies this`tasks
      ensures Valid()
      ensures !hasTask || IsNullOrWhiteSpace(id) ==> r == Err(ArgumentNull("task or id")) && tasks == old(tasks)
      ensures hasTask && !IsNullOrWhiteSpace(id) && id.value in old(tasks) ==>
        r == Err(DuplicateArgument) && tasks == old(tasks)
      ensures hasTask && !IsNullOrWhiteSpace(id) && id.value !in old(tasks) ==>
        && (bound && cancelRequested ==> r == Err(InvalidOperation) && tasks == old(tasks)[id.value := TaskEntry(Canceled, bound)])
        && (!(bound && cancelRequested) ==> r == Ok(()) && tasks == old(tasks)[id.value := TaskEntry(WaitingToRun, bound)])
    {
      if !hasTask || IsNullOrWhiteSpace(id) {
        return Err(ArgumentNull("task or id"));
      }
      if id.value in tasks {
        return Err(DuplicateArgument);
      }
      if bound && cancelRequested {
        tasks := tasks[id.value := TaskEntry(Canceled, bound)];
        return Err(InvalidOperation);
      }
      tasks := tasks[id.value := TaskEntry(WaitingToRun, bound)];
      r := Ok(());
    }

    /** `GetResult(id)`: the task's result once it ran to completion, null (None) before. */
    function GetResult(id: string): (r: Result<Option<JobResult>, Failure>)
      reads this
      ensures id !in tasks <==> r == Err(KeyNotFound)
      ensures id in tasks ==> r.Ok? && (r.value.Some? <==> tasks[id].state.RanToCompletion?)
      ensures r.Ok? && r.value.Some? ==> tasks[id].state == RanToCompletion(r.value.value)
    {
      if id !in tasks then Err(KeyNotFound)
      else if tasks[id].state.RanToCompletion? then Ok(Some(tasks[id].state.result))
      else Ok(None)
    }

    /** `GetStatus(id)`: the per-task status of a known task. */
    function GetStatus(id: string): (r: Result<JobStatus, Failure>)
      reads this
      ensures id !in tasks <==> r == Err(KeyNotFound)
      ensures id in tasks ==> r == Ok(TaskStatus(tasks[id].state))
    {
      if id !in tasks then Err(KeyNotFound) else Ok(TaskStatus(tasks[id].state))
    }

    /** `GetStatus()`: the aggregate status of the whole table. */
    function GetAggregateStatus(): JobStatus
      reads this
    {
      Aggregate(tasks)
    }

    /** `StopAll`: cancel the shared source. Bound tasks that have not begun never run;
        unbound and already running tasks carry on. */
    method StopAll()
      requires Valid()
      modifies this
      ensures Valid() && cancelRequested
      ensures tasks.Keys == old(tasks).Keys
      ensures forall id :: id in tasks ==>
        tasks[id] == (if old(tasks)[id].bound && IsPending(old(tasks)[id].state)
                      then TaskEntry(Canceled, true) else old(tasks)[id])
    {
      cancelRequested := true;
      tasks := map id | id in tasks :: if tasks[id].bound && IsPending(tasks[id].state) then TaskEntry(Canceled, true) else tasks[id];
    }

    /** `WaitForAll`: always true, and it never blocks. Blocking until the running tasks
        finish is replaced by the runners driving their tasks to an end; a caller that asks
        while the table is not `Settled` sees the tasks as they stand. */
    method WaitForAll() returns (r: bool)
      ensures r
    {
      r := true;
    }

    /** The scheduler picks up a waiting task. */
    method Begin(id: string)
      requires Valid() && id in tasks && tasks[id].state == WaitingToRun
      modifies this`tasks
      ensures Valid() && tasks == old(tasks)[id := TaskEntry(TaskState.Running, old(tasks)[id].bound)]
    {
      tasks := tasks[id := TaskEntry(TaskState.Running, tasks[id].bound)];
    }

    /** A running task's delegate returns `result`. */
    method Complete(id: string, result: JobResult)
      requires Valid() && id in tasks && tasks[id].state == TaskState.Running
      modifies this`tasks
      ensures Valid() && tasks == old(tasks)[id := TaskEntry(RanToCompletion(result), old(tasks)[id].bound)]
    {
      tasks := tasks[id := TaskEntry(RanToCompletion(result), tasks[id].bound)];
    }

    /** A running task's delegate throws. */
    method Fault(id: string)
      requires Valid() && id in tasks && tasks[id].state == TaskState.Running
      modifies this`tasks
      ensures Valid() && tasks == old(tasks)[id := TaskEntry(Faulted, old(tasks)[id].bound)]
    {
      tasks := tasks[id := TaskEntry(Faulted, tasks[id].bound)];
    }
  }

  /** Tasks registered without the token are never cancelled by `StopAll`. */
  lemma UnboundSurvivesStop(before: map<string, TaskEntry>, after: map<string, TaskEntry>, id: string)
    requires after.Keys == before.Keys
    requires forall k :: k in after ==>
      after[k] == (if before[k].bound && IsPending(before[k].state) then TaskEntry(Canceled, true) else before[k])
    requires id in before && !before[id].bound
    ensures after[id] == before[id]
    ensures TaskStatus(after[id].state) == TaskStatus(before[id].state)
  {
  }
}
