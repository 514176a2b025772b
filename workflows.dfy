/** The workflow job (`WorkflowJob`) and the fluent builders that assemble one (`Builder`,
    `JobBuilder`, `JobBuilder.Creator`). A workflow job owns an ordered list of child jobs
    and, when it is run, hands itself to its host, a sequential runner with a harness of its
    own, then reads its result back from that runner. */
module Workflows {
  import opened Wrappers
  import opened JobIds
  import opened Results
  import opened Contexts
  import opened WorkflowThreads
  import opened WorkflowDefs
  import opened Sequential

  // ---------------------------------------------------------------------------------------
  // The child list

  /** No element of an argument array is null. */
  predicate NoNulls(jobs: seq<Option<Child>>) {
    forall j :: 0 <= j < |jobs| ==> jobs[j].Some?
  }

  /** The jobs of an argument array without nulls, in array order. */
  function Present(jobs: seq<Option<Child>>): (r: seq<Child>)
    requires NoNulls(jobs)
    ensures |r| == |jobs|
    ensures forall j :: 0 <= j < |jobs| ==> r[j] == jobs[j].value
  {
    if |jobs| == 0 then [] else Present(jobs[..|jobs| - 1]) + [jobs[|jobs| - 1].value]
  }

  /** The position of the first child with the given id (`Where(...).FirstOrDefault()`), or
      the length of the list when there is none. */
  function IndexOfId(children: seq<Child>, id: JobId): (k: nat)
    ensures k <= |children|
    ensures k < |children| ==> children[k].id == id
    ensures forall j :: 0 <= j < k ==> children[j].id != id
    ensures k < |children| <==> HasChild(children, id)
  {
    if |children| == 0 then 0
    else if children[0].id == id then 0
    else 1 + IndexOfId(children[1..], id)
  }

  /** The list without its element at position k, the rest in their order (`List.Remove`). */
  function RemoveAt(children: seq<Child>, k: nat): seq<Child>
    requires k < |children|
  {
    children[..k] + children[k + 1..]
  }

  /** How many children carry the given id. */
  function CountId(children: seq<Child>, id: JobId): nat {
    if |children| == 0 then 0
    else (if children[0].id == id then 1 else 0) + CountId(children[1..], id)
  }

  /** Removing by id takes out exactly one child with that id and no child with any other
      id. */
  lemma {:induction false} RemoveByIdCounts(children: seq<Child>, id: JobId, other: JobId)
    requires HasChild(children, id)
    ensures var r := RemoveAt(children, IndexOfId(children, id));
      CountId(r, other) == CountId(children, other) - (if other == id then 1 else 0)
  {
    var k := IndexOfId(children, id);
    if k == 0 {
      assert RemoveAt(children, k) == children[1..];
    } else {
      var tail := children[1..];
      assert children[0].id != id;
      assert tail[IndexOfId(children, id) - 1].id == id;
      RemoveByIdCounts(tail, id, other);
      assert RemoveAt(children, k) == [children[0]] + RemoveAt(tail, k - 1);
      assert ([children[0]] + RemoveAt(tail, k - 1))[1..] == RemoveAt(tail, k - 1);
    }
  }

  /** The children after a run: the same jobs, each holding the context it ended up with. */
  function WithHeld(children: seq<Child>, held: seq<JobContext>): (r: seq<Child>)
    requires |held| == |children|
    ensures |r| == |children|
    ensures forall j :: 0 <= j < |r| ==> r[j].id == children[j].id && r[j].context == held[j]
  {
    seq(|children|, j requires 0 <= j < |children| => Child(children[j].id, held[j]))
  }

  // ---------------------------------------------------------------------------------------
  // The workflow job

  class WorkflowJob {
    const id: JobId                      // `Id`
    var context: JobContext              // `Context`
    const onFailure: WhenFailure         // `OnFailure`
    const option: ShareContext           // `Option`
    var children: seq<Child>             // `_workflow`
    const host: SequentialRunner         // `_host`
    var runner: Option<SequentialRunner> // `_runner`

    /** The host is ready, and a runner, once there is one, is the host itself (the host's
        `Start` returns the host). */
    ghost predicate Valid()
      reads this, host, host.harness
    {
      host.Valid() && (runner.Some? ==> runner.value == host)
    }

    /** What the runner is handed: the job as an `IWorkflowJob`. */
    function Snapshot(): WorkflowDef
      reads this
    {
      WorkflowDef(id, context, onFailure, option, children)
    }

    /** The constructor past its null check: the default host is a new sequential runner with
        a new harness. */
    constructor (id: JobId, context: JobContext, onFailure: WhenFailure, share: ShareContext)
      ensures Valid() && fresh(host) && fresh(host.harness)
      ensures this.id == id && this.context == context && this.onFailure == onFailure && option == share
      ensures children == [] && runner.None?
      ensures host.current.None? && host.harness.tasks == map[] && !host.harness.cancelRequested
    {
      this.id := id;
      this.context := context;
      this.onFailure := onFailure;
      option := share;
      var thread := new WorkflowThread();
      host := new SequentialRunner(thread);
      runner := None;
      children := [];
    }

    /** The `Context` setter. */
    method SetContext(c: JobContext)
      modifies this`context
      ensures context == c
    {
      context := c;
    }

    /** `AddJob(job)`: a null job is rejected; otherwise it is appended and the new count
        returned. */
    method AddJob(job: Option<Child>) returns (r: Result<nat, Failure>)
      modifies this`children
      ensures job.None? ==> r == Err(ArgumentNull("job")) && children == old(children)
      ensures job.Some? ==> children == old(children) + [job.value] && r == Ok(|children|)
    {
      if job.None? {
        return Err(ArgumentNull("job"));
      }
      children := children + [job.value];
      r := Ok(|children|);
    }

    /** `AddJobs(jobs)`: a null array or one holding a null is rejected before anything is
        added; otherwise every job is appended in array order and the new count returned. */
    method AddJobs(jobs: Option<seq<Option<Child>>>) returns (r: Result<nat, Failure>)
      modifies this`children
      ensures (jobs.None? || !NoNulls(jobs.value)) ==> r == Err(ArgumentNull("jobs")) && children == old(children)
      ensures jobs.Some? && NoNulls(jobs.value) ==>
        children == old(children) + Present(jobs.value) && r == Ok(|children|)
    {
      if jobs.None? || exists j :: 0 <= j < |jobs.value| && jobs.value[j].None? {
        return Err(ArgumentNull("jobs"));
      }
      var js := jobs.value;
      for i := 0 to |js|
        invariant children == old(children) + Present(js[..i])
      {
        assert js[..i + 1][..i] == js[..i];
        children := children + [js[i].value];
      }
      assert js[..|js|] == js;
      r := Ok(|children|);
    }

    /** `RemoveJob(id)`: the first child with that id is removed; without one the call fails
        with KeyNotFound, and a null id fails on its way (comparing with it, or formatting
        the message). */
    method RemoveJob(jid: Option<JobId>) returns (r: Result<(), Failure>)
      modifies this`children
      ensures jid.None? ==> r == Err(NullReference) && children == old(children)
      ensures jid.Some? && !HasChild(old(children), jid.value) ==> r == Err(KeyNotFound) && children == old(children)
      ensures jid.Some? && HasChild(old(children), jid.value) ==>
        r.Ok? && children == RemoveAt(old(children), IndexOfId(old(children), jid.value))
    {
      if jid.None? {
        return Err(NullReference);
      }
      var k := IndexOfId(children, jid.value);
      if k == |children| {
        return Err(KeyNotFound);
      }
      children := RemoveAt(children, k);
      r := Ok(());
    }

    /** `GetJobStatus(id)`: an id no child has is not found (a null id fails on its way);
        before the first run every child is NotStarted; afterwards the runner answers. */
    function GetJobStatus(jid: Option<JobId>): (r: Result<JobStatus, Failure>)
      reads this, if runner.Some? then {runner.value, runner.value.harness} else {}
      ensures jid.None? ==> r == Err(NullReference)
      ensures jid.Some? && !HasChild(children, jid.value) ==> r == Err(KeyNotFound)
      ensures jid.Some? && HasChild(children, jid.value) && runner.None? ==> r == Ok(NotStarted)
    {
      if jid.None? then Err(NullReference)
      else if !HasChild(children, jid.value) then Err(KeyNotFound)
      else if runner.None? then Ok(NotStarted)
      else runner.value.GetStatus(jid)
    }

    /** `Doable()`: the host starts a run of this workflow, the harness executes it (each
        child behaving as `runs` says, a stop request arriving as `stop` says), and the
        result is read back under the workflow's id. A second run on the same host is refused
        because the workflow's key is already registered in the host's harness. The children
        are the runner's own objects, so the contexts they end with stay with them. */
    method Doable(runs: seq<ChildRun>, stop: seq<bool>) returns (r: Result<Option<JobResult>, Failure>)
      requires Valid() && |runs| == |stop| == |children|
      modifies this, host, host.harness
      ensures Valid() && context == old(context)
      ensures Key(id) in old(host.harness.tasks) ==>
        && r == Err(DuplicateArgument) && runner == old(runner) && children == old(children)
        && host.current == Some(old(Snapshot())) && host.snapshot == old(children)
        && host.jobStatus == map[] && host.currentJobId.None?
        && host.harness.tasks == old(host.harness.tasks)
      ensures Key(id) !in old(host.harness.tasks) ==>
        && runner == Some(host) && Key(id) in host.harness.tasks
        && r.Ok? && r.value.Some? && host.harness.tasks[Key(id)].state == RanToCompletion(r.value.value)
      ensures Key(id) !in old(host.harness.tasks) && |old(children)| == 0 ==>
        r == Ok(Some(NoWorkflowResult(id))) && children == old(children)
      ensures Key(id) !in old(host.harness.tasks) && |old(children)| > 0 ==>
        var s := RunSetup(old(Snapshot()), ChildContexts(old(children)), runs, old(host.harness.cancelRequested), stop);
        && r == Ok(Some(RunResult(s)))
        && children == WithHeld(old(children), HeldUpTo(s, Executed(s)))
        && host.current == Some(s.w) && host.snapshot == s.w.children && host.currentJobId.None?
        && host.jobStatus == StatusesUpTo(s, map[], Executed(s))
    {
      var started := host.Start(Some(Snapshot()));
      if started.Err? {
        return Err(started.error);
      }
      runner := Some(host);
      r := RunStarted(RunSetup(Snapshot(), host.held, runs, host.harness.cancelRequested, stop), runs, stop);
    }

    /** The part of `Doable` after the host has registered the run: the harness executes it,
        the children keep the contexts they end with, and the result is read back. */
    method RunStarted(ghost s: RunSetup, runs: seq<ChildRun>, stop: seq<bool>) returns (r: Result<Option<JobResult>, Failure>)
      requires Valid() && runner == Some(host) && |runs| == |stop| == |children|
      requires host.current == Some(Snapshot()) && host.snapshot == children && host.held == ChildContexts(children)
      requires host.jobStatus == map[] && host.currentJobId.None?
      requires Key(id) in host.harness.tasks && host.harness.tasks[Key(id)].state == WaitingToRun
      requires s == RunSetup(Snapshot(), host.held, runs, host.harness.cancelRequested, stop)
      modifies this`children, host, host.harness
      ensures Valid() && runner == old(runner) && Key(id) in host.harness.tasks
      ensures r.Ok? && r.value.Some? && host.harness.tasks[Key(id)].state == RanToCompletion(r.value.value)
      ensures |s.w.children| == 0 ==> r == Ok(Some(NoWorkflowResult(id))) && children == s.w.children
      ensures |s.w.children| > 0 ==>
        && r == Ok(Some(RunResult(s)))
        && children == WithHeld(s.w.children, HeldUpTo(s, Executed(s)))
        && host.current == Some(s.w) && host.snapshot == s.w.children && host.currentJobId.None?
        && host.jobStatus == StatusesUpTo(s, map[], Executed(s))
    {
      Execute(s, runs, stop);
      children := WithHeld(children, host.held);
      r := host.GetResult(Some(id));
    }

    /** The harness task of the run executing to its end, then `WaitForAll` on the host. */
    method Execute(ghost s: RunSetup, runs: seq<ChildRun>, stop: seq<bool>)
      requires Valid() && |runs| == |stop| == |children|
      requires host.current == Some(Snapshot()) && host.snapshot == children && host.jobStatus == map[]
      requires Key(id) in host.harness.tasks && host.harness.tasks[Key(id)].state == WaitingToRun
      requires s == RunSetup(Snapshot(), host.held, runs, host.harness.cancelRequested, stop)
      modifies host, host.harness
      ensures Valid() && host.current == Some(s.w) && host.snapshot == s.w.children && Key(id) in host.harness.tasks
      ensures |s.w.children| == 0 ==> host.harness.tasks[Key(id)].state == RanToCompletion(NoWorkflowResult(id))
      ensures |s.w.children| > 0 ==>
        && host.harness.tasks[Key(id)].state == RanToCompletion(RunResult(s))
        && host.held == HeldUpTo(s, Executed(s)) && host.currentJobId.None?
        && host.jobStatus == StatusesUpTo(s, map[], Executed(s))
    {
      var result := host.RunTask(runs, stop);
      // The harness's WaitForAll always reports completion, so the null return is not reached.
      var done := host.WaitForAll();
    }
  }

  /** `new WorkflowJob(id, context, onFailure, share)`: a null id or context is rejected. */
  method NewWorkflowJob(id: Option<JobId>, context: Option<JobContext>, onFailure: WhenFailure, share: ShareContext)
    returns (r: Result<WorkflowJob, Failure>)
    ensures (id.None? || context.None?) <==> r.Err?
    ensures r.Err? ==> r.error == ArgumentNull("id, context")
    ensures r.Ok? ==>
      && fresh(r.value) && r.value.Valid() && r.value.id == id.value
      && r.value.context == context.value && r.value.onFailure == onFailure && r.value.option == share
      && r.value.children == [] && r.value.runner.None?
  {
    if id.None? || context.None? {
      return Err(ArgumentNull("id, context"));
    }
    var w := new WorkflowJob(id.value, context.value, onFailure, share);
    r := Ok(w);
  }

  /** After a run from a fresh host, a child whose key no other child shares reads the
      status its run recorded, or NotStarted when the run ended before it; an id that no
      child has is not found. */
  lemma StatusAfterDoable(w: WorkflowJob, s: RunSetup, jid: JobId)
    requires Runnable(s) && jid != s.w.id
    requires forall a, b :: 0 <= a < b < |s.w.children| ==> Key(s.w.children[a].id) != Key(s.w.children[b].id)
    requires forall j :: 0 <= j < |s.w.children| && Key(s.w.children[j].id) == Key(jid) ==> s.w.children[j].id == jid
    requires w.runner == Some(w.host) && w.host.current == Some(s.w) && w.host.snapshot == s.w.children
    requires w.host.currentJobId.None? && w.host.jobStatus == StatusesUpTo(s, map[], Executed(s))
    requires |w.children| == |s.w.children| && forall j :: 0 <= j < |w.children| ==> w.children[j].id == s.w.children[j].id
    ensures forall j :: 0 <= j < |w.children| && w.children[j].id == jid ==>
      w.GetJobStatus(Some(jid)) == Ok(if j < Executed(s) then StepStatus(s.runs[j].outcome) else NotStarted)
    ensures !HasChild(w.children, jid) ==> w.GetJobStatus(Some(jid)) == Err(KeyNotFound)
  {
    StatusAfterRun(s, w.host.harness.GetStatus(Key(jid)), jid);
    assert HasChild(w.children, jid) <==> HasChild(s.w.children, jid) by {
      if HasChild(w.children, jid) {
        var j :| 0 <= j < |w.children| && w.children[j].id == jid;
        assert s.w.children[j].id == jid;
      }
      if HasChild(s.w.children, jid) {
        var j :| 0 <= j < |s.w.children| && s.w.children[j].id == jid;
        assert w.children[j].id == jid;
      }
    }
  }

  // ---------------------------------------------------------------------------------------
  // The builders

  class Builder {
    const id: JobId                      // `_id`
    var failure: WhenFailure             // `_failure`
    var share: ShareContext              // `_share`
    var context: JobContext              // `_context`
    var workflow: Option<WorkflowJob>    // `_workflow`

    /** The private constructor: a missing context becomes a new one whose parent is the id;
        the policies start as StopOrExitJob and Parent. */
    constructor (id: JobId, context: Option<JobContext>)
      ensures this.id == id && failure == StopOrExitJob && share == Parent && workflow.None?
      ensures context.Some? ==> this.context == context.value
      ensures context.None? ==>
        && fresh(this.context) && this.context.Valid() && this.context.parentJobId == id
        && this.context.processed == multiset{} && this.context.values == map[] && this.context.types == map[]
    {
      this.id := id;
      failure := StopOrExitJob;
      share := Parent;
      workflow := None;
      if context.Some? {
        this.context := context.value;
      } else {
        this.context := new JobContext(id);
      }
    }

    /** `WithOption(onFailure, share)`: sets both policies and returns the same builder. */
    method WithOption(onFailure: WhenFailure, share: ShareContext) returns (b: Builder)
      modifies this`failure, this`share
      ensures b == this && failure == onFailure && this.share == share
    {
      failure := onFailure;
      this.share := share;
      b := this;
    }

    /** `WithContext(context)`: a null context is rejected; otherwise it replaces the one
        held and the same builder is returned. */
    method WithContext(c: Option<JobContext>) returns (r: Result<Builder, Failure>)
      modifies this`context
      ensures c.None? ==> r == Err(ArgumentNull("context")) && context == old(context)
      ensures c.Some? ==> r == Ok(this) && context == c.value
    {
      if c.None? {
        return Err(ArgumentNull("context"));
      }
      context := c.value;
      r := Ok(this);
    }

    /** `AddJob(job)`: a null job is rejected; otherwise a new workflow job is made from the
        settings held so far, the job becomes its only child, and a job builder over it is
        returned. */
    method AddJob(job: Option<Child>) returns (r: Result<JobBuilder, Failure>)
      modifies this`workflow
      ensures job.None? ==> r == Err(ArgumentNull("job")) && workflow == old(workflow)
      ensures job.Some? ==>
        && r.Ok? && fresh(r.value) && fresh(r.value.workflow)
        && workflow == Some(r.value.workflow) && r.value.workflow.Valid()
        && r.value.workflow.id == id && r.value.workflow.context == context
        && r.value.workflow.onFailure == failure && r.value.workflow.option == share
        && r.value.workflow.children == [job.value] && r.value.workflow.runner.None?
    {
      if job.None? {
        return Err(ArgumentNull("job"));
      }
      var w := new WorkflowJob(id, context, failure, share);
      var count := w.AddJob(job);
      workflow := Some(w);
      var b := new JobBuilder(w);
      r := Ok(b);
    }
  }

  /** `Builder.BuildWorkflow(id, context)`: a null id is rejected. */
  method BuildWorkflow(id: Option<JobId>, context: Option<JobContext>) returns (r: Result<Builder, Failure>)
    ensures id.None? <==> r.Err?
    ensures r.Err? ==> r.error == ArgumentNull("id")
    ensures r.Ok? ==>
      && fresh(r.value) && r.value.id == id.value && r.value.workflow.None?
      && r.value.failure == StopOrExitJob && r.value.share == Parent
      && (context.Some? ==> r.value.context == context.value)
      && (context.None? ==> fresh(r.value.context) && r.value.context.parentJobId == id.value)
  {
    if id.None? {
      return Err(ArgumentNull("id"));
    }
    var b := new Builder(id.value, context);
    r := Ok(b);
  }

  class JobBuilder {
    const workflow: WorkflowJob          // `_workflow`

    constructor (workflow: WorkflowJob)
      ensures this.workflow == workflow
    {
      this.workflow := workflow;
    }

    /** `ThenAdd(job)`: a null job is rejected; otherwise it is appended to the workflow and
        the same builder is returned. */
    method ThenAdd(job: Option<Child>) returns (r: Result<JobBuilder, Failure>)
      modifies workflow`children
      ensures job.None? ==> r == Err(ArgumentNull("job")) && workflow.children == old(workflow.children)
      ensures job.Some? ==> r == Ok(this) && workflow.children == old(workflow.children) + [job.value]
    {
      if job.None? {
        return Err(ArgumentNull("job"));
      }
      var count := workflow.AddJob(job);
      r := Ok(this);
    }

    /** `ThenAdd(jobs)`: a null sequence or one holding a null is rejected before anything is
        added; otherwise all are appended in order and the same builder is returned. */
    method ThenAddAll(jobs: Option<seq<Option<Child>>>) returns (r: Result<JobBuilder, Failure>)
      modifies workflow`children
      ensures (jobs.None? || !NoNulls(jobs.value)) ==>
        r == Err(ArgumentNull("job")) && workflow.children == old(workflow.children)
      ensures jobs.Some? && NoNulls(jobs.value) ==>
        r == Ok(this) && workflow.children == old(workflow.children) + Present(jobs.value)
    {
      if jobs.None? || exists j :: 0 <= j < |jobs.value| && jobs.value[j].None? {
        return Err(ArgumentNull("job"));
      }
      var count := workflow.AddJobs(jobs);
      r := Ok(this);
    }

    /** `NothingElse()`: a creator over the same workflow. */
    method NothingElse() returns (c: Creator)
      ensures fresh(c) && c.workflow == workflow
    {
      c := new Creator(workflow);
    }
  }

  /** `new JobBuilder(workflow)`: a null workflow is rejected. */
  method NewJobBuilder(workflow: Option<WorkflowJob>) returns (r: Result<JobBuilder, Failure>)
    ensures workflow.None? ==> r == Err(ArgumentNull("workflow"))
    ensures workflow.Some? ==> r.Ok? && fresh(r.value) && r.value.workflow == workflow.value
  {
    if workflow.None? {
      return Err(ArgumentNull("workflow"));
    }
    var b := new JobBuilder(workflow.value);
    r := Ok(b);
  }

  /** `JobBuilder.Creator`: hands out the workflow it was made over. */
  class Creator {
    const workflow: WorkflowJob          // `_workflow`

    constructor (workflow: WorkflowJob)
      ensures this.workflow == workflow
    {
      this.workflow := workflow;
    }

    /** `Create()`: the workflow, unchecked. */
    function Create(): WorkflowJob {
      workflow
    }
  }

  /** `new Creator(workflow)`: a null workflow is rejected. */
  method NewCreator(workflow: Option<WorkflowJob>) returns (r: Result<Creator, Failure>)
    ensures workflow.None? ==> r == Err(ArgumentNull("workflow"))
    ensures workflow.Some? ==> r.Ok? && fresh(r.value) && r.value.workflow == workflow.value
  {
    if workflow.None? {
      return Err(ArgumentNull("workflow"));
    }
    var c := new Creator(workflow.value);
    r := Ok(c);
  }
}
