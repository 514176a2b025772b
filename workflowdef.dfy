/** What a runner sees of a workflow (`IWorkflowJob`): its identity, context, policies and
    the ordered list of child jobs, plus how each child behaves when it is run. */
module WorkflowDefs {
  import opened Wrappers
  import opened JobIds
  import opened Results
  import opened Contexts

  /** A child job as the runners see it: its id and the context it holds when the run begins. */
  datatype Child = Child(id: JobId, context: JobContext)

  /** A snapshot of a workflow job. */
  datatype WorkflowDef = WorkflowDef(
    id: JobId,
    context: JobContext,
    onFailure: WhenFailure,
    option: ShareContext,
    children: seq<Child>)

  /** What running a child does: its `Doable` returns or throws, and afterwards the child holds
      either the context it was given (None) or one it switched to itself. */
  datatype ChildRun = ChildRun(outcome: Outcome<JobResult>, heldAfter: Option<JobContext>)

  /** The contexts the children hold, in list order. */
  function ChildContexts(children: seq<Child>): (r: seq<JobContext>)
    ensures |r| == |children|
    ensures forall j :: 0 <= j < |children| ==> r[j] == children[j].context
  {
    seq(|children|, j requires 0 <= j < |children| => children[j].context)
  }

  /** `GetJobContext`: the context a run starts with, given what the children hold now. */
  function StartContext(w: WorkflowDef, held: seq<JobContext>): (r: JobContext)
    requires |held| > 0
    ensures w.option == Parent ==> r == w.context
    ensures w.option != Parent ==> r == held[0]
  {
    if w.option == Parent then w.context else held[0]
  }

  /** Whether some child has the given id (`List.Exists` over the ids). */
  predicate HasChild(children: seq<Child>, id: JobId) {
    exists j :: 0 <= j < |children| && children[j].id == id
  }

  const NoWorkflowMessage: string := "no workflow job are configured."

  /** The result a run of a workflow without children reports. */
  function NoWorkflowResult(wid: JobId): (r: JobResult)
    ensures r.status == CompletedWithError && r.error.Some? && r.error.value.jobDetail == wid
    ensures r.error.value.message == NoWorkflowMessage
  {
    assert NoWorkflowMessage[0] == 'n';
    JobResult(CompletedWithError, Some(RaiseError(wid, None, NoWorkflowMessage)))
  }
}
