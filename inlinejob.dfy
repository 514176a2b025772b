/** The atomic job: a function (or an action) wrapped as a job. */
module InlineJobs {
  import opened Wrappers
  import opened Strings
  import opened JobIds
  import opened Results
  import opened Contexts

  /** What one call of a delegate does: the calls it makes on the context it is given, in
      order, and then how it ends. A delegate that catches a rejected call is a delegate that
      does not make it. */
  datatype DelegateRun<T> = DelegateRun(writes: seq<ContextWrite>, outcome: Outcome<T>)

  /** The wrapped delegate. A function sees the job's current context and returns a result
      (or throws); an action (possibly null) sees the context and returns nothing (or throws).
      Either may write to the context it is given. */
  datatype Body =
    | FromFunc(f: ContextView -> DelegateRun<JobResult>)
    | FromAction(a: Option<ContextView -> DelegateRun<()>>)

  const CompletedResult: JobResult := JobResult(Completed, None)

  /** The delegate `Doable` calls, as the constructors build it: a function as given; an action
      wrapped so that it makes the action's calls and then completes (a null action makes none). */
  function BodyRun(body: Body, view: ContextView): (r: DelegateRun<JobResult>)
    ensures body.FromFunc? ==> r == body.f(view)
    ensures body.FromAction? ==> r.outcome == Returned(CompletedResult) || r.outcome == Threw
    ensures body.FromAction? && body.a.None? ==> r == DelegateRun([], Returned(CompletedResult))
    ensures body.FromAction? && body.a.Some? ==>
      r.writes == body.a.value(view).writes && (r.outcome.Threw? <==> body.a.value(view).outcome.Threw?)
  {
    match body
    case FromFunc(f) => f(view)
    case FromAction(None) => DelegateRun([], Returned(CompletedResult))
    case FromAction(Some(a)) =>
      var d := a(view);
      DelegateRun(d.writes, if d.outcome.Threw? then Threw else Returned(CompletedResult))
  }

  /** What `Doable` produces for a body run on a context: a rejected call on the context
      throws out of the delegate; otherwise the delegate ends as it chooses. */
  function RunBody(body: Body, view: ContextView): (r: Outcome<JobResult>)
    ensures var d := BodyRun(body, view);
      r.Returned? <==> !ApplyWrites(view.values, view.processed, d.writes).failed && d.outcome.Returned?
    ensures r.Returned? ==> r == BodyRun(body, view).outcome
    ensures body.FromAction? ==> r == Returned(CompletedResult) || r == Threw
  {
    var d := BodyRun(body, view);
    if ApplyWrites(view.values, view.processed, d.writes).failed then Threw else d.outcome
  }

  /** The body a null function is replaced with: it completes without touching the context. */
  function DefaultFunc(): ContextView -> DelegateRun<JobResult> {
    view => DelegateRun([], Returned(CompletedResult))
  }

  class InlineJob {
    const id: JobId
    var context: JobContext
    const body: Body

    constructor (id: JobId, context: JobContext, body: Body)
      ensures this.id == id && this.context == context && this.body == body
    {
      this.id := id;
      this.context := context;
      this.body := body;
    }

    /** `Doable`: the body applied to the current `Context`, exactly once. Its calls on the
        context land on the live context, shared with every job that holds it. */
    method Doable() returns (r: Outcome<JobResult>)
      requires context.Valid()
      modifies context
      ensures context.Valid()
      ensures var e := ApplyWrites(old(context.values), old(context.processed), BodyRun(body, old(context.View())).writes);
        context.values == e.values && context.processed == e.processed
      ensures r == RunBody(body, old(context.View()))
    {
      var d: DelegateRun<JobResult>;
      match body {
        case FromFunc(f) =>
          d := f(context.View());
        case FromAction(a) =>
          if a.None? {
            d := DelegateRun([], Returned(CompletedResult));
          } else {
            var ad := a.value(context.View());
            d := DelegateRun(ad.writes, if ad.outcome.Threw? then Threw else Returned(CompletedResult));
          }
      }
      assert d == BodyRun(body, old(context.View()));
      var ws := d.writes;
      var i := 0;
      var failed := false;
      while i < |ws| && !failed
        invariant 0 <= i <= |ws|
        invariant context.Valid()
        invariant failed ==> ApplyWrites(old(context.values), old(context.processed), ws)
                             == Effect(context.values, context.processed, true)
        invariant !failed ==> ApplyWrites(context.values, context.processed, ws[i..])
                              == ApplyWrites(old(context.values), old(context.processed), ws)
        decreases |ws| - i
      {
        assert ws[i..][0] == ws[i] && ws[i..][1..] == ws[i + 1..];
        match ws[i] {
          case Store(v, key) =>
            var res := context.SetValue(v, key);
            failed := res.Err?;
          case MarkProcessed(pid) =>
            var res := context.AddToProcessed(pid);
            failed := res.Err?;
        }
        i := i + 1;
      }
      r := if failed then Threw else d.outcome;
    }

    /** The `Context` setter. */
    method SetContext(c: JobContext)
      modifies this
      ensures context == c
    {
      context := c;
    }
  }

  /** `new InlineJob(id, Func inline, context)`: a null id is rejected, a null function
      completes, and a missing context is a fresh one whose parent is the job's own id. */
  method NewFuncJob(id: Option<JobId>, inline: Option<ContextView -> DelegateRun<JobResult>>, context: Option<JobContext>)
    returns (r: Result<InlineJob, Failure>)
    ensures r.Err? <==> id.None?
    ensures r.Err? ==> r.error == ArgumentNull("id")
    ensures r.Ok? ==> fresh(r.value) && r.value.id == id.value
    ensures r.Ok? ==> r.value.body == FromFunc(if inline.Some? then inline.value else DefaultFunc())
    ensures r.Ok? && context.Some? ==> r.value.context == context.value
    ensures r.Ok? && context.None? ==> fresh(r.value.context) && r.value.context.parentJobId == id.value
    ensures r.Ok? && context.None? ==>
      && r.value.context.Valid() && r.value.context.values == map[]
      && r.value.context.types == map[] && r.value.context.processed == multiset{}
  {
    if id.None? {
      return Err(ArgumentNull("id"));
    }
    var ctx: JobContext;
    if context.Some? {
      ctx := context.value;
    } else {
      ctx := new JobContext(id.value);
    }
    var job := new InlineJob(id.value, ctx, FromFunc(if inline.Some? then inline.value else DefaultFunc()));
    r := Ok(job);
  }

  /** `new InlineJob(id, Action inline, context)`: as above, for the action overload. */
  method NewActionJob(id: Option<JobId>, inline: Option<ContextView -> DelegateRun<()>>, context: Option<JobContext>)
    returns (r: Result<InlineJob, Failure>)
    ensures r.Err? <==> id.None?
    ensures r.Err? ==> r.error == ArgumentNull("id")
    ensures r.Ok? ==> fresh(r.value) && r.value.id == id.value && r.value.body == FromAction(inline)
    ensures r.Ok? && context.Some? ==> r.value.context == context.value
    ensures r.Ok? && context.None? ==> fresh(r.value.context) && r.value.context.parentJobId == id.value
    ensures r.Ok? && context.None? ==>
      && r.value.context.Valid() && r.value.context.values == map[]
      && r.value.context.types == map[] && r.value.context.processed == multiset{}
  {
    if id.None? {
      return Err(ArgumentNull("id"));
    }
    var ctx: JobContext;
    if context.Some? {
      ctx := context.value;
    } else {
      ctx := new JobContext(id.value);
    }
    var job := new InlineJob(id.value, ctx, FromAction(inline));
    r := Ok(job);
  }

  const DefaultJobName: string := "Job-Name-Default"

  /** `GetJobId(id, name)`: a null id is replaced by the text of a new Guid from its 13th
      character on, a null name by "Job-Name-Default". The Guid text is an input. */
  function GetJobId(id: Option<string>, name: Option<string>, guidText: string): (r: Result<JobId, Failure>)
    requires |guidText| >= 12
    ensures r.Ok? && name.None? ==> r.value.name == DefaultJobName
    ensures r.Ok? && name.Some? ==> r.value.name == name.value
    ensures r.Ok? && id.None? ==> r.value.id == guidText[12..]
    ensures r.Ok? && id.Some? ==> r.value.id == id.value
    ensures name.None? && id.Some? && !IsNullOrWhiteSpace(id) ==> r.Ok?
    ensures r.Err? ==> r.error == ArgumentNull("id, name")
  {
    NonBlankWitness(DefaultJobName, 0);
    NewJobId(Some(if id.Some? then id.value else guidText[12..]), Some(if name.Some? then name.value else DefaultJobName))
  }
}
