/** The parallel runner (`TaskRunner`): the shared context is resolved once and handed to every
    child, every child is registered as its own cancellable harness task, and each task records
    its child's (wrapped) result under the child's key when it runs. */
module Parallel {
  import opened Wrappers
  import opened JobIds
  import opened Results
  import opened Contexts
  import opened ErrorHandling
  import opened WorkflowThreads
  import opened WorkflowDefs

  const ChildErrorMessage: string := "Error occurred in Workflow job."

  /** `Run(job)`: the child's own result, or a CompletedWithError tagged with the child's id
      when its `Doable` threw. */
  function ChildResult(cid: JobId, o: Outcome<JobResult>): (r: JobResult)
    ensures o.Returned? ==> r == o.value
    ensures o.Threw? ==> && r.status == CompletedWithError && r.error.Some?
                         && r.error.value.jobDetail == cid && r.error.value.inner.None?
                         && r.error.value.message == ChildErrorMessage
  {
    var h := Expect(o);
    if h.errorHandled then
      assert ChildErrorMessage[0] == 'E';
      JobResult(CompletedWithError, Some(RaiseError(cid, None, ChildErrorMessage)))
    else h.value.value
  }

  // ---------------------------------------------------------------------------------------
  // Dispatch

  /** What the dispatch loop leaves behind: the harness table, how many children it reached
      (each of them was handed the shared context), and whether dispatch got through (an
      exception otherwise). */
  datatype Dispatched = Dispatched(tasks: map<string, TaskEntry>, reached: nat, r: Result<(), Failure>)

  /** Registering the children from position i on, in list order, each under its own key and
      bound to the token; the first refused registration ends the loop. */
  function Dispatch(tasks: map<string, TaskEntry>, children: seq<Child>, cancelled: bool, i: nat): Dispatched
    requires i <= |children|
    decreases |children| - i
  {
    if i == |children| then Dispatched(tasks, i, Ok(()))
    else
      var key := Key(children[i].id);
      if key in tasks then Dispatched(tasks, i + 1, Err(DuplicateArgument))
      else if cancelled then Dispatched(tasks[key := TaskEntry(Canceled, true)], i + 1, Err(InvalidOperation))
      else Dispatch(tasks[key := TaskEntry(WaitingToRun, true)], children, cancelled, i + 1)
  }

  /** The children from position i on have keys that are new to the table and pairwise
      different. */
  predicate FreshKeys(tasks: map<string, TaskEntry>, children: seq<Child>, i: nat) {
    && (forall j :: i <= j < |children| ==> Key(children[j].id) !in tasks)
    && (forall a, b :: i <= a < b < |children| ==> Key(children[a].id) != Key(children[b].id))
  }

  /** The contexts the children hold once the first n of them have been given `ctx`. */
  function Assigned(initial: seq<JobContext>, ctx: JobContext, n: nat): (r: seq<JobContext>)
    ensures |r| == |initial|
    ensures forall j :: 0 <= j < |initial| ==> r[j] == if j < n then ctx else initial[j]
  {
    seq(|initial|, j requires 0 <= j < |initial| => if j < n then ctx else initial[j])
  }

  /** Dispatch never overwrites an entry already in the table, adds only the keys of the
      children it reached, and leaves no task unstarted; it succeeds only after reaching every
      child. */
  lemma {:induction false} DispatchShape(tasks: map<string, TaskEntry>, children: seq<Child>, cancelled: bool, i: nat)
    requires i <= |children|
    ensures var d := Dispatch(tasks, children, cancelled, i);
      && i <= d.reached <= |children|
      && (d.r.Ok? ==> d.reached == |children|)
      && (forall k :: k in tasks ==> k in d.tasks && d.tasks[k] == tasks[k])
      && (forall k :: k in d.tasks ==> k in tasks || exists j :: i <= j < d.reached && Key(children[j].id) == k)
      && (AllStarted(tasks) ==> AllStarted(d.tasks))
    decreases |children| - i
  {
    if i < |children| {
      var key := Key(children[i].id);
      if key !in tasks && !cancelled {
        var next := tasks[key := TaskEntry(WaitingToRun, true)];
        DispatchShape(next, children, cancelled, i + 1);
        var d := Dispatch(next, children, cancelled, i + 1);
        forall k | k in d.tasks
          ensures k in tasks || exists j :: i <= j < d.reached && Key(children[j].id) == k
        {
          if k !in tasks && k !in next {
            var j :| i + 1 <= j < d.reached && Key(children[j].id) == k;
          }
        }
      }
    }
  }

  /** Registering one child whose key is new keeps the rest of the list fresh exactly when the
      list from that child on was fresh. */
  lemma FreshStep(tasks: map<string, TaskEntry>, children: seq<Child>, i: nat, e: TaskEntry)
    requires i < |children| && Key(children[i].id) !in tasks
    ensures FreshKeys(tasks, children, i) <==> FreshKeys(tasks[Key(children[i].id) := e], children, i + 1)
  {
    var next := tasks[Key(children[i].id) := e];
    if FreshKeys(next, children, i + 1) {
      forall a, b | i <= a < b < |children|
        ensures Key(children[a].id) != Key(children[b].id)
      {
        if a == i {
          assert Key(children[b].id) !in next;
        }
      }
    }
  }

  /** Dispatch gets through exactly when there is nothing to register, or the token was not
      cancelled and every remaining key is new and unshared; then every remaining child has a
      task waiting to run. */
  lemma {:induction false} DispatchOkIff(tasks: map<string, TaskEntry>, children: seq<Child>, cancelled: bool, i: nat)
    requires i <= |children|
    ensures var d := Dispatch(tasks, children, cancelled, i);
      d.r.Ok? <==> (i == |children| || !cancelled) && FreshKeys(tasks, children, i)
    ensures var d := Dispatch(tasks, children, cancelled, i);
      d.r.Ok? ==> forall j :: i <= j < |children| ==>
        Key(children[j].id) in d.tasks && d.tasks[Key(children[j].id)] == TaskEntry(WaitingToRun, true)
    decreases |children| - i
  {
    if i < |children| {
      var key := Key(children[i].id);
      if key in tasks {
        assert !FreshKeys(tasks, children, i);
      } else if !cancelled {
        var next := tasks[key := TaskEntry(WaitingToRun, true)];
        DispatchOkIff(next, children, cancelled, i + 1);
        DispatchShape(next, children, cancelled, i + 1);
        FreshStep(tasks, children, i, TaskEntry(WaitingToRun, true));
      }
    }
  }

  /** After a stop request, dispatching a non-empty list fails at its first child, whatever the
      children are: nothing of this run gets to wait for the scheduler. */
  lemma CancelledDispatchFails(tasks: map<string, TaskEntry>, children: seq<Child>, i: nat)
    requires i < |children|
    ensures var d := Dispatch(tasks, children, true, i);
      && d.r.Err? && d.reached == i + 1
      && d.tasks.Keys == tasks.Keys + {Key(children[i].id)}
      && forall k :: k in d.tasks && k !in tasks ==> d.tasks[k].state == Canceled
  {
  }

  // ---------------------------------------------------------------------------------------
  // The runner

  class TaskRunner {
    const harness: WorkflowThread
    var current: Option<WorkflowDef>           // `Current`
    var snapshot: seq<Child>                   // `_workflow`
    var jobStatus: map<string, JobResult>      // `_jobStatus`
    var result: Option<JobResult>              // `_result`
    var held: seq<JobContext>                  // the `Context` each snapshot child holds

    ghost predicate Valid()
      reads this, harness
    {
      harness.Valid() && Shaped() && Recorded()
    }

    /** One held context per snapshot child, and the snapshot is the current workflow's list. */
    ghost predicate Shaped()
      reads this
    {
      && |held| == |snapshot|
      && (current.Some? ==> snapshot == current.value.children)
    }

    /** Once children were dispatched, every recorded result is the result of a task that ran
        to completion under the same key. */
    ghost predicate Recorded()
      reads this, harness
    {
      |snapshot| > 0 ==>
        forall k :: k in jobStatus ==> k in harness.tasks && harness.tasks[k].state == RanToCompletion(jobStatus[k])
    }

    constructor (harness: WorkflowThread)
      requires harness.Valid()
      ensures Valid() && this.harness == harness
      ensures current.None? && snapshot == [] && jobStatus == map[] && result.None? && held == []
    {
      this.harness := harness;
      current := None;
      snapshot := [];
      jobStatus := map[];
      result := None;
      held := [];
    }

    /** `Start(workflow)`, `Init` and `StartWorkflow`: take the workflow, clear the result,
        snapshot the children, reset the status table; an empty workflow records its failure
        under its own key, otherwise every child is handed the one resolved context and
        registered as a bound task. */
    method Start(workflow: Option<WorkflowDef>) returns (r: Result<(), Failure>)
      requires Valid()
      modifies this, harness`tasks
      ensures Valid()
      ensures workflow.None? ==> (r == Err(ArgumentNull("workflow")) && current == old(current)
        && snapshot == old(snapshot) && jobStatus == old(jobStatus) && result == old(result)
        && held == old(held) && harness.tasks == old(harness.tasks))
      ensures workflow.Some? ==> current == workflow && snapshot == workflow.value.children
      ensures workflow.Some? && |workflow.value.children| == 0 ==> (r == Ok(())
        && result == Some(NoWorkflowResult(workflow.value.id))
        && jobStatus == map[Key(workflow.value.id) := NoWorkflowResult(workflow.value.id)]
        && held == [] && harness.tasks == old(harness.tasks))
      ensures workflow.Some? && |workflow.value.children| > 0 ==>
        var w := workflow.value;
        var d := Dispatch(old(harness.tasks), w.children, harness.cancelRequested, 0);
        && r == d.r && harness.tasks == d.tasks && result.None? && jobStatus == map[]
        && held == Assigned(ChildContexts(w.children), StartContext(w, ChildContexts(w.children)), d.reached)
    {
      if workflow.None? {
        return Err(ArgumentNull("workflow"));
      }
      current := workflow;
      result := None;
      snapshot := workflow.value.children;
      jobStatus := map[];
      held := ChildContexts(snapshot);
      if |snapshot| == 0 {
        var failed := NoWorkflowResult(workflow.value.id);
        result := Some(failed);
        jobStatus := jobStatus[Key(workflow.value.id) := failed];
        return Ok(());
      }
      var context := StartContext(workflow.value, held);
      r := DispatchAll(context);
    }

    /** The `ForEach` of `StartWorkflow`: give each child the context, then register its task;
        a refused registration leaves the loop with that error. */
    method DispatchAll(context: JobContext) returns (r: Result<(), Failure>)
      requires harness.Valid() && Shaped() && current.Some? && |snapshot| > 0 && jobStatus == map[]
      modifies this`held, harness`tasks
      ensures Valid()
      ensures var d := Dispatch(old(harness.tasks), snapshot, harness.cancelRequested, 0);
        && r == d.r && harness.tasks == d.tasks
        && held == Assigned(old(held), context, d.reached)
    {
      ghost var initial := held;
      ghost var cancelled := harness.cancelRequested;
      ghost var whole := Dispatch(harness.tasks, snapshot, cancelled, 0);
      var i := 0;
      r := Ok(());
      while r.Ok? && i < |snapshot|
        invariant harness.Valid() && Shaped() && 0 <= i <= |snapshot|
        invariant held == Assigned(initial, context, i)
        invariant harness.cancelRequested == cancelled
        invariant r.Ok? ==> whole == Dispatch(harness.tasks, snapshot, cancelled, i)
        invariant r.Err? ==> whole == Dispatched(harness.tasks, i, r)
        decreases |snapshot| - i
      {
        ghost var before := harness.tasks;
        var key := Key(snapshot[i].id);
        held := held[i := context];
        KeyNeverBlank(snapshot[i].id);
        r := harness.AddAndStart(true, Some(key), true);
        assert key in before ==> r == Err(DuplicateArgument) && harness.tasks == before;
        assert key !in before && harness.cancelRequested ==>
          r == Err(InvalidOperation) && harness.tasks == before[key := TaskEntry(Canceled, true)];
        assert key !in before && !harness.cancelRequested ==>
          r == Ok(()) && harness.tasks == before[key := TaskEntry(WaitingToRun, true)];
        assert r.Ok? ==> Dispatch(before, snapshot, cancelled, i) == Dispatch(harness.tasks, snapshot, cancelled, i + 1);
        assert r.Err? ==> Dispatch(before, snapshot, cancelled, i) == Dispatched(harness.tasks, i + 1, r);
        i := i + 1;
        assert held == Assigned(initial, context, i);
      }
      if r.Ok? {
        assert whole == Dispatched(harness.tasks, i, Ok(()));
        r := Ok(());
      }
    }

    /** The harness running child i's task (`Run(job)`): the child's `Doable` returns or
        throws, its wrapped result is recorded under its key and becomes the task's result.
        Child i must be the one that registered the task under its key. */
    method RunChild(i: nat, outcome: Outcome<JobResult>) returns (res: JobResult)
      requires Valid() && current.Some? && i < |snapshot|
      requires forall a :: 0 <= a < i ==> Key(snapshot[a].id) != Key(snapshot[i].id)
      requires Key(snapshot[i].id) in harness.tasks && harness.tasks[Key(snapshot[i].id)].state == WaitingToRun
      modifies this`jobStatus, harness`tasks
      ensures Valid()
      ensures res == ChildResult(snapshot[i].id, outcome)
      ensures jobStatus == old(jobStatus)[Key(snapshot[i].id) := res]
      ensures var key := Key(snapshot[i].id);
        harness.tasks == old(harness.tasks)[key := TaskEntry(RanToCompletion(res), old(harness.tasks)[key].bound)]
    {
      var key := Key(snapshot[i].id);
      harness.Begin(key);
      res := ChildResult(snapshot[i].id, outcome);
      jobStatus := jobStatus[key := res];
      harness.Complete(key, res);
    }

    /** `GetStatus(id)`: the workflow's own id reads the harness aggregate; a child reads its
        recorded status, NotStarted while it has none, and an unknown id is not found. */
    function GetStatus(id: Option<JobId>): (r: Result<JobStatus, Failure>)
      reads this, harness
      ensures id.None? || current.None? ==> r == Err(NullReference)
      ensures id.Some? && current.Some? && id.value == current.value.id ==> r == Ok(Aggregate(harness.tasks))
      ensures id.Some? && current.Some? && id.value != current.value.id ==>
        (r.Err? <==> Key(id.value) !in jobStatus && !HasChild(snapshot, id.value))
      ensures r.Err? ==> r == Err(NullReference) || r == Err(KeyNotFound)
    {
      if id.None? || current.None? then Err(NullReference)
      else if id.value == current.value.id then Ok(harness.GetAggregateStatus())
      else if Key(id.value) in jobStatus then Ok(jobStatus[Key(id.value)].status)
      else if !HasChild(snapshot, id.value) then Err(KeyNotFound)
      else Ok(NotStarted)
    }

    /** `GetResult(id)`: for the workflow's own id, wait and keep a fresh result carrying the
        aggregate status; a child gives its recorded result; any other id gives null. */
    method GetResult(id: Option<JobId>) returns (r: Result<Option<JobResult>, Failure>)
      requires Valid()
      modifies this`result
      ensures Valid()
      ensures id.None? || current.None? ==> r == Err(NullReference) && result == old(result)
      ensures id.Some? && current.Some? && id.value == current.value.id ==>
        result == Some(JobResult(Aggregate(harness.tasks), None)) && r == Ok(result)
      ensures id.Some? && current.Some? && id.value == current.value.id && Settled(harness.tasks) ==>
        r.value.Some? && r.value.value.status != JobStatus.Running
      ensures id.Some? && current.Some? && id.value != current.value.id ==>
        result == old(result) && r == Ok(if Key(id.value) in jobStatus then Some(jobStatus[Key(id.value)]) else None)
    {
      if id.None? || current.None? {
        return Err(NullReference);
      }
      if id.value == current.value.id {
        var done := harness.WaitForAll();
        if done {
          result := Some(JobResult(harness.GetAggregateStatus(), None));
        }
        return Ok(result);
      }
      if Key(id.value) in jobStatus {
        return Ok(Some(jobStatus[Key(id.value)]));
      }
      r := Ok(None);
    }

    /** `SoftStop`: the harness's `StopAll`; tasks already run keep their recorded results. */
    method SoftStop()
      requires Valid()
      modifies harness
      ensures Valid() && harness.cancelRequested
      ensures harness.tasks.Keys == old(harness.tasks).Keys
      ensures forall id :: id in harness.tasks ==>
        harness.tasks[id] == (if old(harness.tasks)[id].bound && IsPending(old(harness.tasks)[id].state)
                              then TaskEntry(Canceled, true) else old(harness.tasks)[id])
    {
      harness.StopAll();
    }

    /** `WaitForAll`: the harness's `WaitForAll`, which in the model never blocks: the runner
        has already driven every task it started to an end. */
    method WaitForAll() returns (r: bool)
      ensures r
    {
      r := harness.WaitForAll();
    }
  }

  // ---------------------------------------------------------------------------------------
  // Properties of the runner

  /** A recorded child reads the same status from the runner as its task does from the
      harness. */
  lemma RecordedChildAgrees(t: TaskRunner, id: JobId)
    requires t.Valid() && t.current.Some? && |t.snapshot| > 0 && id != t.current.value.id
    requires Key(id) in t.jobStatus
    ensures t.GetStatus(Some(id)) == t.harness.GetStatus(Key(id))
  {
  }

  /** A dispatched child whose task is still waiting reads NotStarted from the runner while the
      harness reports its task Running. */
  lemma WaitingChildReadsNotStarted(t: TaskRunner, i: nat)
    requires t.Valid() && t.current.Some? && i < |t.snapshot| && t.snapshot[i].id != t.current.value.id
    requires Key(t.snapshot[i].id) in t.harness.tasks && t.harness.tasks[Key(t.snapshot[i].id)].state == WaitingToRun
    ensures t.GetStatus(Some(t.snapshot[i].id)) == Ok(NotStarted)
    ensures t.harness.GetStatus(Key(t.snapshot[i].id)) == Ok(JobStatus.Running)
  {
    assert HasChild(t.snapshot, t.snapshot[i].id);
  }

  /** An empty workflow on a runner whose harness holds no tasks records CompletedWithError
      under its own key, yet its own id reads Completed, because the harness aggregate of an
      empty table is answered first. */
  lemma EmptyWorkflowReadsCompleted(t: TaskRunner)
    requires t.current.Some? && t.current.value.children == [] && t.harness.tasks == map[]
    requires t.jobStatus == map[Key(t.current.value.id) := NoWorkflowResult(t.current.value.id)]
    ensures t.jobStatus[Key(t.current.value.id)].status == CompletedWithError
    ensures t.GetStatus(Some(t.current.value.id)) == Ok(Completed)
  {
    EmptyAggregateCompleted();
  }

  /** Once every dispatched task has run, the workflow reads CompletedWithError as soon as one
      child's recorded result is CompletedWithError, whatever the failure policy. */
  lemma FailedChildFailsWorkflow(t: TaskRunner, i: nat)
    requires t.Valid() && t.current.Some? && i < |t.snapshot|
    requires forall k :: k in t.harness.tasks ==> t.harness.tasks[k].state.RanToCompletion?
    requires Key(t.snapshot[i].id) in t.jobStatus && t.jobStatus[Key(t.snapshot[i].id)].status == CompletedWithError
    ensures t.GetStatus(Some(t.current.value.id)) == Ok(CompletedWithError)
  {
    var k := Key(t.snapshot[i].id);
    assert k in t.harness.tasks && t.harness.tasks[k].state.RanToCompletion?;
  }
}
