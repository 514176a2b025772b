/** The sequential runner (`SequentialRunner`): one harness task drains the workflow's child
    list in order, recording each child's status, pushing start/error/completion
    notifications, handing contexts on, and stopping on failure or on a stop request. */
module Sequential {
  import opened Wrappers
  import opened JobIds
  import opened Results
  import opened Messages
  import opened Contexts
  import opened WorkflowThreads
  import opened WorkflowDefs

  const AbortedMessage: string := "Job aborted, OnFailure set to  WhenFailure.StopOrExitJob."
  const CancelMessage: string := "Job processing has been stopped, On Stop command."

  /** A notification a child's context is asked to push: sender, type, and the context. */
  datatype PushEvent = PushEvent(sender: JobId, msgType: MessageType, via: JobContext)

  /** Everything one run depends on: the workflow, the contexts its children hold when the run
      begins, what each child does (by position), whether the shared token was already
      cancelled, and whether a stop request has arrived by the check after each position. */
  datatype RunSetup = RunSetup(
    w: WorkflowDef,
    initial: seq<JobContext>,
    runs: seq<ChildRun>,
    cancelled: bool,
    stop: seq<bool>)

  /** One initial context, one behaviour and one stop flag per child. */
  ghost predicate Sized(s: RunSetup) {
    |s.initial| == |s.runs| == |s.stop| == |s.w.children|
  }

  ghost predicate Runnable(s: RunSetup) {
    Sized(s) && |s.w.children| > 0
  }

  /** A child failed: it threw, or returned a status other than Completed. */
  predicate Failed(o: Outcome<JobResult>) {
    o.Threw? || o.value.status != Completed
  }

  /** The status recorded for a child. */
  function StepStatus(o: Outcome<JobResult>): (r: JobStatus)
    ensures o.Threw? ==> r == CompletedWithError
    ensures o.Returned? ==> r == o.value.status
  {
    if o.Threw? then CompletedWithError else o.value.status
  }

  /** The child's result as the runner holds it: null (None) when it threw. */
  function InnerOf(o: Outcome<JobResult>): (r: Option<JobResult>)
    ensures r.None? <==> o.Threw?
  {
    if o.Threw? then None else Some(o.value)
  }

  /** The result of a run aborted under StopOrExitJob. */
  function AbortedResult(wid: JobId, inner: Option<JobResult>): (r: JobResult)
    ensures r.status == CompletedWithError && r.error.Some? && r.error.value.jobDetail == wid
    ensures r.error.value.inner == (if inner.Some? then inner.value.error else None)
  {
    JobResult(CompletedWithError, Some(RaiseError(wid, if inner.Some? then inner.value.error else None, AbortedMessage)))
  }

  /** The result of a run stopped on request. */
  function StoppedResult(wid: JobId): (r: JobResult)
    ensures r.status == Stoped && r.error.Some? && r.error.value.jobDetail == wid
  {
    JobResult(Stoped, Some(RaiseError(wid, None, CancelMessage)))
  }

  /** The result of a run that left its loop normally: a copy of the last result, or
      Completed when there is none. */
  function FinalResult(inner: Option<JobResult>): (r: JobResult)
    ensures inner.None? ==> r == JobResult(Completed, None)
    ensures inner.Some? ==> r == inner.value
  {
    if inner.None? then JobResult(Completed, None) else JobResult(inner.value.status, inner.value.error)
  }

  /** Whether the stop check after position j sees a stop request. */
  predicate Cancelled(s: RunSetup, j: nat)
    requires j < |s.stop|
  {
    s.cancelled || s.stop[j]
  }

  /** Whether the run ends right after position j. */
  predicate Ends(s: RunSetup, j: nat)
    requires Sized(s) && j < |s.w.children|
  {
    || (s.w.onFailure == StopOrExitJob && Failed(s.runs[j].outcome))
    || j + 1 == |s.w.children|
    || Cancelled(s, j)
  }

  /** The position of the last child the run executes, searching from j. */
  function StopIndex(s: RunSetup, j: nat): (k: nat)
    requires Sized(s) && j < |s.w.children|
    ensures j <= k < |s.w.children|
    ensures Ends(s, k)
    ensures forall m :: j <= m < k ==> !Ends(s, m)
    decreases |s.w.children| - j
  {
    if Ends(s, j) then j else StopIndex(s, j + 1)
  }

  /** How many children the run executes. */
  function Executed(s: RunSetup): (e: nat)
    requires Runnable(s)
    ensures 1 <= e <= |s.w.children|
  {
    StopIndex(s, 0) + 1
  }

  /** The context handed to the child at position j. */
  function Given(s: RunSetup, j: nat): JobContext
    requires Runnable(s) && j < |s.w.children|
    decreases j, 0
  {
    if j == 0 then StartContext(s.w, s.initial)
    else if s.w.option == Previous then HeldAfter(s, j - 1)
    else Given(s, j - 1)
  }

  /** The context the child at position j holds after it ran. */
  function HeldAfter(s: RunSetup, j: nat): JobContext
    requires Runnable(s) && j < |s.w.children|
    decreases j, 1
  {
    s.runs[j].heldAfter.GetOr(Given(s, j))
  }

  /** The status table after the first k children, starting from `base`; a later child with
      the same key overwrites an earlier one. */
  function StatusesUpTo(s: RunSetup, base: map<string, JobStatus>, k: nat): map<string, JobStatus>
    requires Sized(s) && k <= |s.w.children|
  {
    if k == 0 then base
    else StatusesUpTo(s, base, k - 1)[Key(s.w.children[k - 1].id) := StepStatus(s.runs[k - 1].outcome)]
  }

  /** The pushes one child causes: Info before it runs, Error if it threw, Info after. */
  function ChildPushes(id: JobId, before: JobContext, after: JobContext, o: Outcome<JobResult>): (r: seq<PushEvent>)
    ensures |r| == if o.Threw? then 3 else 2
    ensures r[0] == PushEvent(id, Info, before) && r[|r| - 1] == PushEvent(id, Info, after)
    ensures o.Threw? ==> r[1] == PushEvent(id, Error, after)
  {
    [PushEvent(id, Info, before)] + (if o.Threw? then [PushEvent(id, Error, after)] else []) + [PushEvent(id, Info, after)]
  }

  /** The pushes of the first k children, in order. */
  function PushesUpTo(s: RunSetup, k: nat): seq<PushEvent>
    requires Runnable(s) && k <= |s.w.children|
  {
    if k == 0 then []
    else PushesUpTo(s, k - 1) + ChildPushes(s.w.children[k - 1].id, Given(s, k - 1), HeldAfter(s, k - 1), s.runs[k - 1].outcome)
  }

  /** The contexts the children hold once the first k have run. */
  function HeldUpTo(s: RunSetup, k: nat): (r: seq<JobContext>)
    requires Runnable(s) && k <= |s.w.children|
    ensures |r| == |s.w.children|
  {
    seq(|s.w.children|, j requires 0 <= j < |s.w.children| => if j < k then HeldAfter(s, j) else s.initial[j])
  }

  /** The result of the run. */
  function RunResult(s: RunSetup): JobResult
    requires Runnable(s)
  {
    var k := StopIndex(s, 0);
    var o := s.runs[k].outcome;
    if s.w.onFailure == StopOrExitJob && Failed(o) then AbortedResult(s.w.id, InnerOf(o))
    else if k + 1 == |s.w.children| then FinalResult(InnerOf(o))
    else StoppedResult(s.w.id)
  }

  // ---------------------------------------------------------------------------------------
  // Properties of a run

  /** Exactly the keys of the executed children are recorded (beyond the base table). */
  lemma {:induction false} StatusesKeys(s: RunSetup, base: map<string, JobStatus>, k: nat)
    requires Sized(s) && k <= |s.w.children|
    ensures StatusesUpTo(s, base, k).Keys == base.Keys + set j | 0 <= j < k :: Key(s.w.children[j].id)
  {
    if k > 0 {
      StatusesKeys(s, base, k - 1);
      var prev := set j | 0 <= j < k - 1 :: Key(s.w.children[j].id);
      var now := set j | 0 <= j < k :: Key(s.w.children[j].id);
      assert now == prev + {Key(s.w.children[k - 1].id)};
    }
  }

  /** A child's recorded status is its own step status, unless a later executed child shares
      its key. */
  lemma {:induction false} RecordedStatus(s: RunSetup, base: map<string, JobStatus>, k: nat, j: nat)
    requires Sized(s) && j < k <= |s.w.children|
    requires forall m :: j < m < k ==> Key(s.w.children[m].id) != Key(s.w.children[j].id)
    ensures Key(s.w.children[j].id) in StatusesUpTo(s, base, k)
    ensures StatusesUpTo(s, base, k)[Key(s.w.children[j].id)] == StepStatus(s.runs[j].outcome)
  {
    if j < k - 1 {
      RecordedStatus(s, base, k - 1, j);
    }
  }

  /** The run ends at the first position that ends it. */
  lemma StopIndexAt(s: RunSetup, j: nat)
    requires Runnable(s) && j < |s.w.children| && Ends(s, j)
    requires forall m :: 0 <= m < j ==> !Ends(s, m)
    ensures StopIndex(s, 0) == j
  {
    var k := StopIndex(s, 0);
    assert Ends(s, k);
    assert k <= j;
  }

  /** A position reached by the run that ends it is the last position the run executes;
      one that does not end it is followed by another. */
  lemma ExitAt(s: RunSetup, i: nat)
    requires Runnable(s) && i <= StopIndex(s, 0)
    ensures Ends(s, i) ==> Executed(s) == i + 1
    ensures !Ends(s, i) ==> i + 1 <= StopIndex(s, 0)
  {
  }

  /** When the run ends at position i, the result is decided by why it ends there. */
  lemma RunEndsAt(s: RunSetup, i: nat)
    requires Runnable(s) && i <= StopIndex(s, 0) && Ends(s, i)
    ensures Executed(s) == i + 1
    ensures var o := s.runs[i].outcome;
      RunResult(s) ==
        if s.w.onFailure == StopOrExitJob && Failed(o) then AbortedResult(s.w.id, InnerOf(o))
        else if i + 1 == |s.w.children| then FinalResult(InnerOf(o))
        else StoppedResult(s.w.id)
  {
  }

  /** The context handed to the next child: under previous the one the child now holds,
      otherwise the same one again. */
  lemma GivenStep(s: RunSetup, i: nat)
    requires Runnable(s) && i + 1 < |s.w.children|
    ensures Given(s, i + 1) == if s.w.option == Previous then HeldUpTo(s, i + 1)[i] else Given(s, i)
  {
  }

  /** One more executed child adds its pushes to the trace. */
  lemma PushStep(s: RunSetup, i: nat, before: seq<PushEvent>)
    requires Runnable(s) && i < |s.w.children|
    ensures before + PushesUpTo(s, i + 1)
      == (before + PushesUpTo(s, i)) + ChildPushes(s.w.children[i].id, Given(s, i), HeldAfter(s, i), s.runs[i].outcome)
  {
  }

  /** Running child i fills in its held context and leaves the others alone. */
  lemma HeldStep(s: RunSetup, i: nat)
    requires Runnable(s) && i < |s.w.children|
    ensures HeldUpTo(s, i + 1) == HeldUpTo(s, i)[i := HeldAfter(s, i)]
  {
  }

  /** Under StopOrExitJob, the run ends at the first failing child (if no stop request came
      before it), with an aborted CompletedWithError result carrying that child's error. */
  lemma StopsAtFirstFailure(s: RunSetup, j: nat)
    requires Runnable(s) && s.w.onFailure == StopOrExitJob
    requires j < |s.w.children| && Failed(s.runs[j].outcome)
    requires forall m :: 0 <= m < j ==> !Failed(s.runs[m].outcome) && !Cancelled(s, m)
    ensures Executed(s) == j + 1
    ensures RunResult(s) == AbortedResult(s.w.id, InnerOf(s.runs[j].outcome))
    ensures RunResult(s).status == CompletedWithError
  {
    StopIndexAt(s, j);
  }

  /** Under StopOrExitJob, the run reports Completed exactly when every child ran and none
      failed. */
  lemma StopOrExitCompletedIff(s: RunSetup)
    requires Runnable(s) && s.w.onFailure == StopOrExitJob
    ensures RunResult(s).status == Completed <==>
      Executed(s) == |s.w.children| && forall j :: 0 <= j < |s.w.children| ==> !Failed(s.runs[j].outcome)
  {
    var k := StopIndex(s, 0);
    if RunResult(s).status == Completed {
      forall j | 0 <= j < |s.w.children|
        ensures !Failed(s.runs[j].outcome)
      {
        if j < k {
          assert !Ends(s, j);
        }
      }
    }
  }

  /** Under ContinueOn with no stop request, every child runs and the run reports the last
      child's result, or Completed when the last child threw. */
  lemma ContinueOnRunsAll(s: RunSetup)
    requires Runnable(s) && s.w.onFailure == ContinueOn
    requires forall m :: 0 <= m < |s.w.children| - 1 ==> !Cancelled(s, m)
    ensures Executed(s) == |s.w.children|
    ensures var last := s.runs[|s.w.children| - 1].outcome;
      RunResult(s) == (if last.Threw? then JobResult(Completed, None) else last.value)
  {
    var k := StopIndex(s, 0);
    assert !Ends(s, k) || k == |s.w.children| - 1;
  }

  /** The stop check comes only after a child has run: even a token cancelled before the run
      lets the first child run, and the run then ends after it. */
  lemma FirstChildAlwaysRuns(s: RunSetup)
    requires Runnable(s) && s.cancelled
    ensures Executed(s) == 1
    ensures |s.w.children| > 1 && !(s.w.onFailure == StopOrExitJob && Failed(s.runs[0].outcome)) ==>
      RunResult(s) == StoppedResult(s.w.id)
  {
  }

  /** A stop request seen after child j, before any abort, stops the run with Stoped when more
      children remain. */
  lemma StopRequestStops(s: RunSetup, j: nat)
    requires Runnable(s) && j + 1 < |s.w.children| && Cancelled(s, j)
    requires !(s.w.onFailure == StopOrExitJob && Failed(s.runs[j].outcome))
    requires forall m :: 0 <= m < j ==> !Ends(s, m)
    ensures Executed(s) == j + 1
    ensures RunResult(s) == StoppedResult(s.w.id) && RunResult(s).status == Stoped
  {
    StopIndexAt(s, j);
  }

  /** Parent: every child gets the workflow's context. */
  lemma {:induction false} ParentContextForAll(s: RunSetup, j: nat)
    requires Runnable(s) && s.w.option == Parent && j < |s.w.children|
    ensures Given(s, j) == s.w.context
  {
    if j > 0 {
      ParentContextForAll(s, j - 1);
    }
  }

  /** First: every child gets the context the first child held when the run began. */
  lemma {:induction false} FirstContextForAll(s: RunSetup, j: nat)
    requires Runnable(s) && s.w.option == First && j < |s.w.children|
    ensures Given(s, j) == s.initial[0]
  {
    if j > 0 {
      FirstContextForAll(s, j - 1);
    }
  }

  /** previous: the first child gets its own context, and each later child the context its
      predecessor held after running. */
  lemma PreviousHandsOn(s: RunSetup, j: nat)
    requires Runnable(s) && s.w.option == Previous && j < |s.w.children|
    ensures j == 0 ==> Given(s, j) == s.initial[0]
    ensures j > 0 ==> Given(s, j) == s.runs[j - 1].heldAfter.GetOr(Given(s, j - 1))
  {
  }

  /** The number of pushes: two per executed child, plus one per child that threw. */
  function ThrowCount(s: RunSetup, k: nat): nat
    requires Sized(s) && k <= |s.w.children|
  {
    if k == 0 then 0 else ThrowCount(s, k - 1) + (if s.runs[k - 1].outcome.Threw? then 1 else 0)
  }

  lemma {:induction false} PushCount(s: RunSetup, k: nat)
    requires Runnable(s) && k <= |s.w.children|
    ensures |PushesUpTo(s, k)| == 2 * k + ThrowCount(s, k)
  {
    if k > 0 {
      PushCount(s, k - 1);
    }
  }

  /** Every Error push comes from an executed child that threw. */
  lemma {:induction false} ErrorPushesFromThrows(s: RunSetup, k: nat)
    requires Runnable(s) && k <= |s.w.children|
    ensures forall e :: e in PushesUpTo(s, k) && e.msgType == Error ==>
      exists j :: 0 <= j < k && e.sender == s.w.children[j].id && s.runs[j].outcome.Threw?
  {
    if k > 0 {
      ErrorPushesFromThrows(s, k - 1);
      var c := s.w.children[k - 1];
      var last := ChildPushes(c.id, Given(s, k - 1), HeldAfter(s, k - 1), s.runs[k - 1].outcome);
      forall e | e in PushesUpTo(s, k) && e.msgType == Error
        ensures exists j :: 0 <= j < k && e.sender == s.w.children[j].id && s.runs[j].outcome.Threw?
      {
        if e in PushesUpTo(s, k - 1) {
          var j :| 0 <= j < k - 1 && e.sender == s.w.children[j].id && s.runs[j].outcome.Threw?;
          assert 0 <= j < k;
        } else {
          assert e in last;
          assert e.sender == c.id && s.runs[k - 1].outcome.Threw?;
        }
      }
    }
  }

  // ---------------------------------------------------------------------------------------
  // Status lookup

  /** `GetStatus(id)` of a runner whose current workflow is w. */
  function StatusLookup(w: WorkflowDef, harnessStatus: Result<JobStatus, Failure>, currentJobId: Option<JobId>,
                        statuses: map<string, JobStatus>, snapshot: seq<Child>, id: JobId): Result<JobStatus, Failure>
  {
    if id == w.id then harnessStatus
    else if currentJobId == Some(id) then Ok(JobStatus.Running)
    else if Key(id) in statuses then Ok(statuses[Key(id)])
    else if !HasChild(snapshot, id) then Err(KeyNotFound)
    else Ok(NotStarted)
  }

  /** After a run from an empty table, a child whose key no other child shares reads its own
      step status if it ran and NotStarted if it did not; an id outside the workflow is not
      found. */
  lemma StatusAfterRun(s: RunSetup, hs: Result<JobStatus, Failure>, id: JobId)
    requires Runnable(s) && id != s.w.id
    requires forall a, b :: 0 <= a < b < |s.w.children| ==> Key(s.w.children[a].id) != Key(s.w.children[b].id)
    requires forall j :: 0 <= j < |s.w.children| && Key(s.w.children[j].id) == Key(id) ==> s.w.children[j].id == id
    ensures var r := StatusLookup(s.w, hs, None, StatusesUpTo(s, map[], Executed(s)), s.w.children, id);
      && (forall j :: 0 <= j < |s.w.children| && s.w.children[j].id == id ==>
            r == Ok(if j < Executed(s) then StepStatus(s.runs[j].outcome) else NotStarted))
      && (!HasChild(s.w.children, id) ==> r == Err(KeyNotFound))
  {
    var e := Executed(s);
    StatusesKeys(s, map[], e);
    forall j | 0 <= j < |s.w.children| && s.w.children[j].id == id
      ensures StatusLookup(s.w, hs, None, StatusesUpTo(s, map[], e), s.w.children, id)
        == Ok(if j < e then StepStatus(s.runs[j].outcome) else NotStarted)
    {
      if j < e {
        RecordedStatus(s, map[], e, j);
      } else {
        assert Key(id) !in StatusesUpTo(s, map[], e);
      }
    }
  }

  // ---------------------------------------------------------------------------------------
  // The runner

  class SequentialRunner {
    const harness: WorkflowThread
    var current: Option<WorkflowDef>      // `Current`
    var snapshot: seq<Child>              // `_workflow`
    var jobStatus: map<string, JobStatus> // `_jobStatus`
    var currentJobId: Option<JobId>       // `_currentJobId`
    var held: seq<JobContext>             // the `Context` each snapshot child holds
    var pushes: seq<PushEvent>            // every notification pushed so far

    ghost predicate Valid()
      reads this, harness
    {
      harness.Valid() && Shaped()
    }

    /** One held context per snapshot child, and the snapshot is the current workflow's list. */
    ghost predicate Shaped()
      reads this
    {
      && |held| == |snapshot|
      && (current.Some? ==> snapshot == current.value.children)
    }

    constructor (harness: WorkflowThread)
      requires harness.Valid()
      ensures Valid() && this.harness == harness
      ensures current.None? && snapshot == [] && jobStatus == map[] && currentJobId.None? && held == [] && pushes == []
    {
      this.harness := harness;
      current := None;
      snapshot := [];
      jobStatus := map[];
      currentJobId := None;
      held := [];
      pushes := [];
    }

    /** `Start(workflow)` and `Init`: take the workflow, snapshot its children, reset the
        status table and marker, then register the run as one unbound harness task keyed by
        the workflow's id. */
    method Start(workflow: Option<WorkflowDef>) returns (r: Result<(), Failure>)
      requires Valid()
      modifies this, harness
      ensures Valid()
      ensures workflow.None? ==> (r == Err(ArgumentNull("workflow")) && current == old(current)
        && snapshot == old(snapshot) && harness.tasks == old(harness.tasks)
        && jobStatus == old(jobStatus) && currentJobId == old(currentJobId) && held == old(held))
      ensures workflow.Some? ==> (current == workflow && snapshot == workflow.value.children
        && jobStatus == map[] && currentJobId.None? && held == ChildContexts(workflow.value.children))
      ensures workflow.Some? && Key(workflow.value.id) in old(harness.tasks) ==>
        r == Err(DuplicateArgument) && harness.tasks == old(harness.tasks)
      ensures workflow.Some? && Key(workflow.value.id) !in old(harness.tasks) ==>
        r == Ok(()) && harness.tasks == old(harness.tasks)[Key(workflow.value.id) := TaskEntry(WaitingToRun, false)]
      ensures pushes == old(pushes) && harness.cancelRequested == old(harness.cancelRequested)
    {
      if workflow.None? {
        return Err(ArgumentNull("workflow"));
      }
      current := workflow;
      snapshot := workflow.value.children;
      jobStatus := map[];
      currentJobId := None;
      held := ChildContexts(snapshot);
      KeyNeverBlank(workflow.value.id);
      r := harness.AddAndStart(true, Some(Key(workflow.value.id)), false);
    }

    /** The harness task of a started run executing to its end: `StartWorkflow` under the
        token the harness handed out, with `stop` saying when a `SoftStop` has arrived. */
    method RunTask(runs: seq<ChildRun>, stop: seq<bool>) returns (result: JobResult)
      requires Valid() && current.Some? && |runs| == |stop| == |snapshot|
      requires Key(current.value.id) in harness.tasks && harness.tasks[Key(current.value.id)].state == WaitingToRun
      modifies this, harness
      ensures Valid() && current == old(current) && snapshot == old(snapshot)
      ensures var key := Key(current.value.id);
        harness.tasks == old(harness.tasks)[key := TaskEntry(RanToCompletion(result), old(harness.tasks)[key].bound)]
      ensures |snapshot| == 0 ==> (result == NoWorkflowResult(current.value.id)
        && jobStatus == old(jobStatus) && pushes == old(pushes) && held == old(held)
        && currentJobId == old(currentJobId))
      ensures |snapshot| > 0 ==>
        var s := RunSetup(current.value, old(held), runs, old(harness.cancelRequested), stop);
        && result == RunResult(s)
        && jobStatus == StatusesUpTo(s, old(jobStatus), Executed(s))
        && pushes == old(pushes) + PushesUpTo(s, Executed(s))
        && held == HeldUpTo(s, Executed(s))
        && currentJobId.None?
    {
      var key := Key(current.value.id);
      harness.Begin(key);
      result := StartWorkflow(runs, stop);
      harness.Complete(key, result);
    }

    /** `StartWorkflow`: a workflow without children fails; otherwise the queue is processed
        from the context `GetJobContext` picks. */
    method StartWorkflow(runs: seq<ChildRun>, stop: seq<bool>) returns (result: JobResult)
      requires Valid() && current.Some? && |runs| == |stop| == |snapshot|
      modifies this`jobStatus, this`currentJobId, this`held, this`pushes
      ensures Valid()
      ensures |snapshot| == 0 ==> (result == NoWorkflowResult(current.value.id)
        && jobStatus == old(jobStatus) && pushes == old(pushes) && held == old(held)
        && currentJobId == old(currentJobId))
      ensures |snapshot| > 0 ==>
        var s := RunSetup(current.value, old(held), runs, harness.cancelRequested, stop);
        && result == RunResult(s)
        && jobStatus == StatusesUpTo(s, old(jobStatus), Executed(s))
        && pushes == old(pushes) + PushesUpTo(s, Executed(s))
        && held == HeldUpTo(s, Executed(s))
        && currentJobId.None?
    {
      if |snapshot| == 0 {
        return NoWorkflowResult(current.value.id);
      }
      var context := StartContext(current.value, held);
      result := ProcessJobs(RunSetup(current.value, held, runs, harness.cancelRequested, stop), jobStatus, pushes, context, runs, stop);
    }

    /** `ProcessJobs`: run the children in order until one ends the run. */
    method ProcessJobs(ghost s: RunSetup, ghost base: map<string, JobStatus>, ghost before: seq<PushEvent>,
                       context: JobContext, runs: seq<ChildRun>, stop: seq<bool>)
      returns (result: JobResult)
      requires Valid() && current.Some? && |snapshot| > 0 && |runs| == |stop| == |snapshot|
      requires s == RunSetup(current.value, held, runs, harness.cancelRequested, stop)
      requires base == jobStatus && before == pushes
      requires context == StartContext(current.value, held)
      modifies this`jobStatus, this`currentJobId, this`held, this`pushes
      ensures Valid()
      ensures result == RunResult(s)
      ensures jobStatus == StatusesUpTo(s, base, Executed(s))
      ensures pushes == before + PushesUpTo(s, Executed(s))
      ensures held == HeldUpTo(s, Executed(s))
      ensures currentJobId.None?
    {
      var w := current.value;
      var ctx := context;
      var i := 0;
      currentJobId := None;
      while true
        invariant Shaped() && current == Some(w) && s.w == w
        invariant 0 <= i <= StopIndex(s, 0)
        invariant ctx == Given(s, i)
        invariant jobStatus == StatusesUpTo(s, base, i)
        invariant pushes == before + PushesUpTo(s, i)
        invariant held == HeldUpTo(s, i)
        invariant currentJobId.None?
        decreases |snapshot| - i
      {
        var inner, anyError := RunAndRecord(s, base, before, i, ctx, runs[i]);
        var finished;
        finished, result, ctx := AfterChild(s, i, inner, ctx, stop);
        if finished {
          break;
        }
        i := i + 1;
      }
    }

    /** The second half of one `ProcessJobs` iteration, after child i has run: abort under
        StopOrExitJob on a failure, pick the next context, leave after the last child or on a
        stop request. Either the run ends here with its result, or child i + 1 runs next with
        the context it is given. */
    method AfterChild(ghost s: RunSetup, i: nat, inner: Option<JobResult>, ctx: JobContext, stop: seq<bool>)
      returns (finished: bool, result: JobResult, next: JobContext)
      requires Shaped() && current.Some? && s.w == current.value && Runnable(s) && i <= StopIndex(s, 0)
      requires s.cancelled == harness.cancelRequested && s.stop == stop
      requires inner == InnerOf(s.runs[i].outcome) && ctx == Given(s, i) && held == HeldUpTo(s, i + 1)
      ensures finished ==> Executed(s) == i + 1 && result == RunResult(s)
      ensures !finished ==> i + 1 <= StopIndex(s, 0) && next == Given(s, i + 1)
    {
      var w := current.value;
      next := ctx;
      finished := true;
      ExitAt(s, i);
      if w.onFailure == StopOrExitJob && (inner.None? || inner.value.status != Completed) {
        result := AbortedResult(w.id, inner);
      } else {
        if w.option == Previous {
          next := held[i];
        }
        if i + 1 == |snapshot| {
          result := FinalResult(inner);
        } else if harness.cancelRequested || stop[i] {
          result := StoppedResult(w.id);
        } else {
          GivenStep(s, i);
          finished, result := false, FinalResult(inner);
          return;
        }
      }
      RunEndsAt(s, i);
    }

    /** The first half of one `ProcessJobs` iteration: mark the child current, run it with
        its hooks, record its status, clear the mark. */
    method RunAndRecord(ghost s: RunSetup, ghost base: map<string, JobStatus>, ghost before: seq<PushEvent>,
                        i: nat, ctx: JobContext, run: ChildRun)
      returns (inner: Option<JobResult>, anyError: bool)
      requires Shaped() && current.Some? && s.w == current.value && Runnable(s) && i < |snapshot|
      requires run == s.runs[i] && ctx == Given(s, i)
      requires jobStatus == StatusesUpTo(s, base, i) && pushes == before + PushesUpTo(s, i) && held == HeldUpTo(s, i)
      modifies this`jobStatus, this`currentJobId, this`held, this`pushes
      ensures Shaped()
      ensures jobStatus == StatusesUpTo(s, base, i + 1) && pushes == before + PushesUpTo(s, i + 1)
      ensures held == HeldUpTo(s, i + 1) && currentJobId.None?
      ensures inner == InnerOf(run.outcome) && anyError == run.outcome.Threw?
    {
      var child := snapshot[i];
      currentJobId := Some(child.id);
      inner, anyError := ProcessWithHooks(i, ctx, run);
      jobStatus := jobStatus[Key(child.id) := if anyError then CompletedWithError else inner.value.status];
      currentJobId := None;
      HeldStep(s, i);
      PushStep(s, i, before);
    }

    /** `ProcessWithHooks` (through `ProcessJob`): hand the child the context, push Info, run
        it, push Error if it threw, push Info. */
    method ProcessWithHooks(i: nat, context: JobContext, run: ChildRun) returns (inner: Option<JobResult>, anyError: bool)
      requires Shaped() && i < |snapshot|
      modifies this`held, this`pushes
      ensures Shaped()
      ensures held == old(held)[i := run.heldAfter.GetOr(context)]
      ensures pushes == old(pushes) + ChildPushes(snapshot[i].id, context, run.heldAfter.GetOr(context), run.outcome)
      ensures inner == InnerOf(run.outcome) && anyError == run.outcome.Threw?
    {
      var child := snapshot[i];
      held := held[i := context];
      pushes := pushes + [PushEvent(child.id, Info, context)];
      if run.heldAfter.Some? {
        held := held[i := run.heldAfter.value];
      }
      inner, anyError := None, false;
      if run.outcome.Threw? {
        anyError := true;
        pushes := pushes + [PushEvent(child.id, Error, held[i])];
      } else {
        inner := Some(run.outcome.value);
      }
      pushes := pushes + [PushEvent(child.id, Info, held[i])];
    }

    /** `GetStatus(id)`: through null the call fails; the workflow's own id asks the harness. */
    function GetStatus(id: Option<JobId>): (r: Result<JobStatus, Failure>)
      reads this, harness
      ensures id.None? || current.None? ==> r == Err(NullReference)
      ensures id.Some? && current.Some? ==>
        r == StatusLookup(current.value, harness.GetStatus(Key(id.value)), currentJobId, jobStatus, snapshot, id.value)
    {
      if id.None? || current.None? then Err(NullReference)
      else StatusLookup(current.value, harness.GetStatus(Key(id.value)), currentJobId, jobStatus, snapshot, id.value)
    }

    /** `GetResult(id)`: only the workflow's own id is answered, from the harness task. */
    function GetResult(id: Option<JobId>): (r: Result<Option<JobResult>, Failure>)
      reads this, harness
      ensures id.None? || current.None? ==> r == Err(NullReference)
      ensures id.Some? && current.Some? && id.value != current.value.id ==> r == Err(KeyNotFound)
      ensures id.Some? && current.Some? && id.value == current.value.id ==> r == harness.GetResult(Key(id.value))
    {
      if id.None? || current.None? then Err(NullReference)
      else if id.value == current.value.id then harness.GetResult(Key(id.value))
      else Err(KeyNotFound)
    }

    /** `SoftStop`: the harness's `StopAll`. */
    method SoftStop()
      requires Valid()
      modifies harness
      ensures Valid() && harness.cancelRequested
      ensures harness.tasks.Keys == old(harness.tasks).Keys
      ensures forall id :: id in harness.tasks ==>
        harness.tasks[id] == (if old(harness.tasks)[id].bound && IsPending(old(harness.tasks)[id].state)
                              then TaskEntry(Canceled, true) else old(harness.tasks)[id])
    {
      harness.StopAll();
    }

    /** `WaitForAll`: the harness's `WaitForAll`, which in the model never blocks: the runner
        has already driven every task it started to an end. */
    method WaitForAll() returns (r: bool)
      ensures r
    {
      r := harness.WaitForAll();
    }
  }
}
