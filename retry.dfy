/** The retry decorator: re-invokes a wrapped job under interval and validation control. */
module Retries {
  import opened Wrappers
  import opened Strings
  import opened JobIds
  import opened Results
  import opened Contexts
  import opened ErrorHandling

  const MinRetry: int := 2

  /** What the wrapped job does on each attempt (attempt n, counted from 1 over the decorator's
      lifetime, is entry n - 1), what the validator reports after each attempt (None: no
      validator), how many attempts are allowed, and the interval between attempts in whole
      milliseconds (the value `Thread.Sleep` is given). */
  datatype RetryConfig = RetryConfig(
    times: int,
    interval: int,
    attempts: seq<Outcome<JobResult>>,
    validator: Option<seq<Outcome<ValidationResult>>>)

  /** The scripts cover every attempt the decorator may make. */
  predicate Scripted(cfg: RetryConfig) {
    |cfg.attempts| >= cfg.times && (cfg.validator.Some? ==> |cfg.validator.value| >= cfg.times)
  }

  /** "Warning < current retry count: {n}, total: {times}>." */
  function RetryWarning(n: nat, times: int): string {
    "Warning < current retry count: " + NatText(n) + ", total: "
      + (if times >= 0 then NatText(times) else "-" + NatText(-times)) + ">."
  }

  /** "Validation Failed on retry attempt: {n}" */
  function ValidationMessage(n: nat): string {
    "Validation Failed on retry attempt: " + NatText(n)
  }

  /** The result recorded for attempt n: the job's own result, or a CompletedWithError tagged
      with the wrapped job's id when it threw. */
  function AttemptResult(cfg: RetryConfig, jobId: JobId, n: nat): (r: JobResult)
    requires 0 < n <= |cfg.attempts|
    ensures cfg.attempts[n - 1].Returned? ==> r == cfg.attempts[n - 1].value
    ensures cfg.attempts[n - 1].Threw? ==> r.status == CompletedWithError && r.error.Some? && r.error.value.jobDetail == jobId
  {
    var h := Expect(cfg.attempts[n - 1]);
    if h.errorHandled then JobResult(CompletedWithError, Some(RaiseError(jobId, None, RetryWarning(n, cfg.times))))
    else h.value.value
  }

  /** Whether the loop leaves right after attempt n: only with a non-zero interval, on Completed. */
  predicate StopsAfter(cfg: RetryConfig, jobId: JobId, n: nat)
    requires 0 < n <= |cfg.attempts|
  {
    cfg.interval != 0 && AttemptResult(cfg, jobId, n).status == Completed
  }

  /** How `Invoke` leaves: normally, by the sleep throwing, or never (the sleep blocks). */
  datatype Ending = Normal | SleepThrew | SleepBlocked

  /** `Thread.Sleep(ms)`: a negative duration other than -1 is out of range and throws; -1 is
      the infinite timeout and never returns; any other duration returns. */
  function SleepEnding(ms: int): (r: Ending)
    ensures r == Normal <==> ms >= 0
    ensures r == SleepThrew <==> ms < -1
    ensures r == SleepBlocked <==> ms == -1
  {
    if ms < -1 then SleepThrew else if ms == -1 then SleepBlocked else Normal
  }

  /** `Validate()` after attempt n: no validator passes; NotValid or a throw fails. */
  predicate Validates(cfg: RetryConfig, n: nat)
    requires cfg.validator.Some? ==> 0 < n <= |cfg.validator.value|
  {
    if cfg.validator.None? then true
    else
      var h := Expect(cfg.validator.value[n - 1]);
      !(h.value == Some(NotValid) || h.errorHandled)
  }

  /** The entry appended when validation after attempt n fails. */
  function ValidationFailure(jobId: JobId, n: nat): (r: JobResult)
    ensures r.status == CompletedWithError && r.error.Some? && r.error.value.jobDetail == jobId
  {
    JobResult(CompletedWithError, Some(RaiseError(jobId, None, ValidationMessage(n))))
  }

  /** Appending in two steps is appending the concatenation. */
  lemma AppendAssociates<T>(a: seq<T>, b: seq<T>, c: seq<T>)
    ensures a + b + c == a + (b + c)
  {
  }

  /** One call of `Invoke` from retry counter k: the entries it appends, the counter it leaves,
      the value it returns (None is null, and nothing is returned unless `ended` is Normal), and
      how it leaves. */
  datatype RetryRun = RetryRun(appended: seq<JobResult>, finalRetry: nat, returned: Option<JobResult>, ended: Ending)

  function InvokeSpec(cfg: RetryConfig, jobId: JobId, k: nat): RetryRun
    requires Scripted(cfg)
    decreases cfg.times - k
  {
    if k >= cfg.times then RetryRun([], k, None, Normal)
    else
      var n := k + 1;
      var res := AttemptResult(cfg, jobId, n);
      if StopsAfter(cfg, jobId, n) then RetryRun([res], n, Some(res), Normal)
      else if SleepEnding(cfg.interval) != Normal then RetryRun([res], n, None, SleepEnding(cfg.interval))
      else if Validates(cfg, n) then
        var rest := InvokeSpec(cfg, jobId, n);
        RetryRun([res] + rest.appended, rest.finalRetry, rest.returned, rest.ended)
      else RetryRun([res, ValidationFailure(jobId, n)], n, Some(ValidationFailure(jobId, n)), Normal)
  }

  /** One step of the run from counter k < times, in terms of attempt k + 1: a stop, the sleep
      throwing (interval below -1) or blocking (interval -1), a passing validation that goes on,
      or a failing one. */
  lemma InvokeStep(cfg: RetryConfig, jobId: JobId, k: nat)
    requires Scripted(cfg)
    requires k < cfg.times
    ensures var n := k + 1;
      var res := AttemptResult(cfg, jobId, n);
      var run := InvokeSpec(cfg, jobId, k);
      var rest := InvokeSpec(cfg, jobId, n);
      && (StopsAfter(cfg, jobId, n) ==> run == RetryRun([res], n, Some(res), Normal))
      && (!StopsAfter(cfg, jobId, n) && cfg.interval < -1 ==> run == RetryRun([res], n, None, SleepThrew))
      && (!StopsAfter(cfg, jobId, n) && cfg.interval == -1 ==> run == RetryRun([res], n, None, SleepBlocked))
      && (!StopsAfter(cfg, jobId, n) && cfg.interval >= 0 && Validates(cfg, n) ==>
            run == RetryRun([res] + rest.appended, rest.finalRetry, rest.returned, rest.ended))
      && (!StopsAfter(cfg, jobId, n) && cfg.interval >= 0 && !Validates(cfg, n) ==>
            run == RetryRun([res, ValidationFailure(jobId, n)], n, Some(ValidationFailure(jobId, n)), Normal))
  {
  }

  /** A step after which the loop goes on: the attempt's entry, then the rest of the run. */
  lemma ContinueStep(cfg: RetryConfig, jobId: JobId, k: nat)
    requires Scripted(cfg) && k < cfg.times && cfg.interval >= 0
    requires !StopsAfter(cfg, jobId, k + 1) && Validates(cfg, k + 1)
    ensures var rest := InvokeSpec(cfg, jobId, k + 1);
      InvokeSpec(cfg, jobId, k) == RetryRun([AttemptResult(cfg, jobId, k + 1)] + rest.appended, rest.finalRetry, rest.returned, rest.ended)
  {
  }

  /** Prepending attempt k + 1's entry to the entries of attempts k + 2, ... gives the entries
      of attempts k + 1, .... */
  lemma AttemptsShift(cfg: RetryConfig, jobId: JobId, k: nat, a: seq<JobResult>, b: seq<JobResult>)
    requires k + 1 + |b| <= |cfg.attempts|
    requires a == [AttemptResult(cfg, jobId, k + 1)] + b
    requires forall i :: 0 <= i < |b| ==> b[i] == AttemptResult(cfg, jobId, k + 2 + i)
    ensures forall i :: 0 <= i < |a| ==> a[i] == AttemptResult(cfg, jobId, k + 1 + i)
  {
    forall i | 0 <= i < |a|
      ensures a[i] == AttemptResult(cfg, jobId, k + 1 + i)
    {
      if i > 0 {
        assert a[i] == b[i - 1];
      }
    }
  }

  /** The shape of every run: the counter only grows and never passes `times`; each attempt
      appends one entry, plus at most one validation entry; a returned value is the last entry
      and comes only from a normal ending; a null return means one entry per attempt, and with
      a normal ending that the attempts are exhausted; the run ends abnormally only after at
      least one attempt, through the sleep of a negative interval. */
  lemma {:induction false} InvokeShape(cfg: RetryConfig, jobId: JobId, k: nat)
    requires Scripted(cfg)
    requires k <= cfg.times
    ensures var run := InvokeSpec(cfg, jobId, k);
      && k <= run.finalRetry <= cfg.times
      && run.finalRetry - k <= |run.appended| <= run.finalRetry - k + 1
      && (run.returned.Some? ==>
            && run.ended == Normal && |run.appended| > 0
            && run.returned.value == run.appended[|run.appended| - 1])
      && (run.returned.None? ==> |run.appended| == run.finalRetry - k)
      && (run.returned.None? && run.ended == Normal ==> run.finalRetry == cfg.times)
      && (run.ended != Normal ==> run.finalRetry > k && run.ended == SleepEnding(cfg.interval))
      && (cfg.interval >= 0 ==> run.ended == Normal)
    decreases cfg.times - k
  {
    if k < cfg.times {
      var n := k + 1;
      if !StopsAfter(cfg, jobId, n) && SleepEnding(cfg.interval) == Normal && Validates(cfg, n) {
        InvokeShape(cfg, jobId, n);
      }
    }
  }

  /** When no attempt after k stops the loop and every validation passes, the job runs for every
      remaining attempt, the entries are the attempts' results in order, and null is returned. */
  lemma {:induction false} RunsToExhaustion(cfg: RetryConfig, jobId: JobId, k: nat)
    requires Scripted(cfg)
    requires k <= cfg.times && cfg.interval >= 0
    requires forall n :: k < n <= cfg.times ==> !StopsAfter(cfg, jobId, n) && Validates(cfg, n)
    ensures var run := InvokeSpec(cfg, jobId, k);
      && run.finalRetry == cfg.times && run.returned.None? && run.ended == Normal
      && |run.appended| == cfg.times - k
      && forall i :: 0 <= i < |run.appended| ==> run.appended[i] == AttemptResult(cfg, jobId, k + 1 + i)
    decreases cfg.times - k
  {
    if k < cfg.times {
      assert !StopsAfter(cfg, jobId, k + 1) && Validates(cfg, k + 1);
      RunsToExhaustion(cfg, jobId, k + 1);
      ContinueStep(cfg, jobId, k);
      AttemptsShift(cfg, jobId, k, InvokeSpec(cfg, jobId, k).appended, InvokeSpec(cfg, jobId, k + 1).appended);
    }
  }

  /** With a non-zero interval, a first attempt that completes is the only attempt. */
  lemma FirstSuccessStops(cfg: RetryConfig, jobId: JobId)
    requires Scripted(cfg)
    requires cfg.times >= MinRetry && cfg.interval != 0
    requires AttemptResult(cfg, jobId, 1).status == Completed
    ensures InvokeSpec(cfg, jobId, 0) == RetryRun([AttemptResult(cfg, jobId, 1)], 1, Some(AttemptResult(cfg, jobId, 1)), Normal)
  {
  }

  /** A failed validation right after attempt k+1 ends the run with one extra
      CompletedWithError entry, which is what is returned. */
  lemma ValidationFailureStops(cfg: RetryConfig, jobId: JobId, k: nat)
    requires Scripted(cfg)
    requires k < cfg.times && cfg.interval >= 0
    requires !StopsAfter(cfg, jobId, k + 1) && !Validates(cfg, k + 1)
    ensures var run := InvokeSpec(cfg, jobId, k);
      && run.appended == [AttemptResult(cfg, jobId, k + 1), ValidationFailure(jobId, k + 1)]
      && run.finalRetry == k + 1
      && run.returned == Some(ValidationFailure(jobId, k + 1))
      && run.returned.value.status == CompletedWithError
  {
  }

  /** Once the counter has reached `times`, a call neither invokes the job nor appends anything. */
  lemma ExhaustedIsInert(cfg: RetryConfig, jobId: JobId, k: nat)
    requires Scripted(cfg)
    requires k >= cfg.times
    ensures InvokeSpec(cfg, jobId, k) == RetryRun([], k, None, Normal)
  {
  }

  /** With a negative interval, an attempt that does not complete is the last one: the sleep
      after it throws (below -1) or never returns (-1), so validation never runs and nothing
      more is recorded. `Doable` then never returns, or reports that attempt's status. */
  lemma NegativeIntervalStopsAfterFailure(cfg: RetryConfig, jobId: JobId, k: nat, prior: seq<JobResult>)
    requires Scripted(cfg)
    requires k < cfg.times && cfg.interval < 0
    requires AttemptResult(cfg, jobId, k + 1).status != Completed
    ensures var run := InvokeSpec(cfg, jobId, k);
      && run.appended == [AttemptResult(cfg, jobId, k + 1)]
      && run.finalRetry == k + 1 && run.returned.None?
      && run.ended == (if cfg.interval == -1 then SleepBlocked else SleepThrew)
      && DoableResult(run, prior + run.appended)
         == (if cfg.interval == -1 then None else Some(JobResult(AttemptResult(cfg, jobId, k + 1).status, None)))
  {
  }

  /** What `Doable` returns after a run, None when it never returns: the returned value, or
      else (a null return or a thrown sleep) a fresh result carrying the status of the last
      recorded entry. */
  function DoableResult(run: RetryRun, results: seq<JobResult>): Option<JobResult>
    requires run.returned.Some? || |results| > 0
  {
    if run.ended == SleepBlocked then None
    else if run.returned.Some? then Some(run.returned.value)
    else Some(JobResult(results[|results| - 1].status, None))
  }

  class Retry {
    const jobId: JobId          // the wrapped job's id, which `Id` delegates to
    var jobContext: JobContext  // the wrapped job's Context, which `Context` reads and writes
    const config: RetryConfig
    var currentRetry: nat
    var results: seq<JobResult>

    ghost predicate Valid()
      reads this
    {
      config.times >= MinRetry && Scripted(config) && currentRetry <= config.times && currentRetry <= |results|
    }

    constructor (jobId: JobId, jobContext: JobContext, config: RetryConfig)
      requires config.times >= MinRetry && Scripted(config)
      ensures Valid()
      ensures this.jobId == jobId && this.jobContext == jobContext && this.config == config
      ensures currentRetry == 0 && results == []
    {
      this.jobId := jobId;
      this.jobContext := jobContext;
      this.config := config;
      currentRetry := 0;
      results := [];
    }

    /** `RetryResults`: every recorded entry, in the order recorded. */
    function RetryResults(): seq<JobResult>
      reads this
    {
      results
    }

    /** The `Context` setter: it writes through to the wrapped job. */
    method SetContext(c: JobContext)
      modifies this
      ensures jobContext == c && currentRetry == old(currentRetry) && results == old(results)
    {
      jobContext := c;
    }

    /** `DoRetry`: below `times`, count one more attempt and run it; otherwise report exhaustion. */
    method DoRetry() returns (stop: bool, result: Option<JobResult>)
      requires Valid()
      modifies this`currentRetry
      ensures old(currentRetry) < config.times ==>
        && currentRetry == old(currentRetry) + 1
        && result == Some(AttemptResult(config, jobId, currentRetry))
        && stop == StopsAfter(config, jobId, currentRetry)
      ensures old(currentRetry) >= config.times ==> currentRetry == old(currentRetry) && stop && result.None?
    {
      result := None;
      if currentRetry < config.times {
        currentRetry := currentRetry + 1;
        var h := Expect(config.attempts[currentRetry - 1]);
        if h.errorHandled {
          result := Some(JobResult(CompletedWithError, Some(RaiseError(jobId, None, RetryWarning(currentRetry, config.times)))));
        } else {
          result := h.value;
        }
      } else {
        return true, None;
      }
      if config.interval == 0 {
        return false, result;
      }
      stop := result.value.status == Completed;
    }

    /** Where a call of `Invoke` stands after recording `done`: either finished, with the run
        being exactly `done` and the value returned, or still to perform the run from the
        current counter. */
    ghost predicate Pending(run: RetryRun, done: seq<JobResult>, finished: bool, rtn: Option<JobResult>, ended: Ending)
      reads this
      requires Scripted(config)
    {
      if finished then run == RetryRun(done, currentRetry, rtn, ended)
      else
        var rest := InvokeSpec(config, jobId, currentRetry);
        run == RetryRun(done + rest.appended, rest.finalRetry, rest.returned, rest.ended)
    }

    /** One pass of `Invoke`'s loop body: an attempt, its entry, the sleep and the validation
        after it; the call then either is finished or goes on from a larger counter. */
    method Attempt(ghost run: RetryRun, ghost done: seq<JobResult>)
      returns (finished: bool, rtn: Option<JobResult>, ended: Ending, added: seq<JobResult>)
      requires Valid() && Pending(run, done, false, None, Normal)
      modifies this`currentRetry, this`results
      ensures Valid() && old(currentRetry) <= currentRetry
      ensures results == old(results) + added
      ensures !finished ==> old(currentRetry) < currentRetry
      ensures Pending(run, done + added, finished, rtn, ended)
    {
      ghost var before := currentRetry;
      var stop, res := DoRetry();
      if before < config.times {
        InvokeStep(config, jobId, before);
      } else {
        ExhaustedIsInert(config, jobId, before);
      }
      added := [];
      rtn := res;
      finished := true;
      ended := Normal;
      if stop {
        if res.Some? {
          added := [res.value];
        }
      } else if SleepEnding(config.interval) != Normal {
        added := [res.value];
        rtn := None;
        ended := SleepEnding(config.interval);
      } else if Validates(config, currentRetry) {
        added := [res.value];
        finished := false;
        ghost var rest := InvokeSpec(config, jobId, currentRetry);
        assert done + ([res.value] + rest.appended) == done + added + rest.appended;
      } else {
        rtn := Some(ValidationFailure(jobId, currentRetry));
        added := [res.value, rtn.value];
      }
      results := results + added;
    }

    /** `Invoke`: the retry loop. How long the sleep between attempts lasts is not modelled,
        only whether it returns, throws or blocks (`ended`). */
    method Invoke() returns (rtn: Option<JobResult>, ended: Ending)
      requires Valid()
      modifies this`currentRetry, this`results
      ensures Valid()
      ensures var run := InvokeSpec(config, jobId, old(currentRetry));
        && results == old(results) + run.appended && currentRetry == run.finalRetry
        && rtn == run.returned && ended == run.ended
    {
      ghost var run := InvokeSpec(config, jobId, currentRetry);
      ghost var done: seq<JobResult> := [];
      var finished := false;
      rtn, ended := None, Normal;
      assert done + run.appended == run.appended;
      while !finished
        invariant Valid() && old(currentRetry) <= currentRetry
        invariant results == old(results) + done
        invariant Pending(run, done, finished, rtn, ended)
        decreases !finished, config.times - currentRetry
      {
        var added;
        finished, rtn, ended, added := Attempt(run, done);
        AppendAssociates(old(results), done, added);
        done := done + added;
      }
    }

    /** `Doable`: run the loop; a null return, or a sleep that throws, falls back to the last
        recorded entry's status. None stands for a call that never returns. */
    method Doable() returns (r: Option<JobResult>)
      requires Valid()
      modifies this`currentRetry, this`results
      ensures Valid()
      ensures var run := InvokeSpec(config, jobId, old(currentRetry));
        && results == old(results) + run.appended
        && currentRetry == run.finalRetry
        && r == DoableResult(run, results)
    {
      var rtn, ended := Invoke();
      if ended == SleepBlocked {
        r := None;
      } else if rtn.Some? {
        r := rtn;
      } else {
        r := Some(JobResult(results[|results| - 1].status, None));
      }
    }
  }

  /** The wrapped job handed to the constructor (None is null). */
  datatype WrappedJob = WrappedJob(id: JobId, context: JobContext, attempts: seq<Outcome<JobResult>>)

  /** `new Retry(job, times, interval, doBeforeRetry)`: a null job is rejected first, then a
      count below two. The interval is given in whole milliseconds. */
  method NewRetry(job: Option<WrappedJob>, times: int, interval: int, validator: Option<seq<Outcome<ValidationResult>>>)
    returns (r: Result<Retry, Failure>)
    requires job.Some? ==> |job.value.attempts| >= times && (validator.Some? ==> |validator.value| >= times)
    ensures job.None? ==> r == Err(ArgumentNull("job"))
    ensures job.Some? && times < MinRetry ==> r == Err(ArgumentOutOfRange)
    ensures r.Ok? <==> job.Some? && times >= MinRetry
    ensures r.Ok? ==> fresh(r.value) && r.value.Valid()
    ensures r.Ok? ==> r.value.jobId == job.value.id && r.value.jobContext == job.value.context
    ensures r.Ok? ==> r.value.config == RetryConfig(times, interval, job.value.attempts, validator)
    ensures r.Ok? ==> r.value.currentRetry == 0 && r.value.results == []
  {
    if job.None? {
      return Err(ArgumentNull("job"));
    }
    if times < MinRetry {
      return Err(ArgumentOutOfRange);
    }
    var retry := new Retry(job.value.id, job.value.context, RetryConfig(times, interval, job.value.attempts, validator));
    r := Ok(retry);
  }

  /** `Ext.ConvertToRetry(job, times, interval, doBeforeRetry)`: exactly the constructor. */
  method ConvertToRetry(job: Option<WrappedJob>, times: int, interval: int, validator: Option<seq<Outcome<ValidationResult>>>)
    returns (r: Result<Retry, Failure>)
    requires job.Some? ==> |job.value.attempts| >= times && (validator.Some? ==> |validator.value| >= times)
    ensures job.None? ==> r == Err(ArgumentNull("job"))
    ensures r.Ok? <==> job.Some? && times >= MinRetry
    ensures job.Some? && times < MinRetry ==> r == Err(ArgumentOutOfRange)
    ensures r.Ok? ==> fresh(r.value) && r.value.Valid() && r.value.currentRetry == 0 && r.value.results == []
    ensures r.Ok? ==> r.value.jobId == job.value.id && r.value.jobContext == job.value.context
    ensures r.Ok? ==> r.value.config == RetryConfig(times, interval, job.value.attempts, validator)
  {
    r := NewRetry(job, times, interval, validator);
  }

  /** `Ext.Repeat(job, times, doBeforeRepeat)`: a retry with a zero interval. */
  method Repeat(job: Option<WrappedJob>, times: int, validator: Option<seq<Outcome<ValidationResult>>>)
    returns (r: Result<Retry, Failure>)
    requires job.Some? ==> |job.value.attempts| >= times && (validator.Some? ==> |validator.value| >= times)
    ensures job.None? ==> r == Err(ArgumentNull("job"))
    ensures r.Ok? <==> job.Some? && times >= MinRetry
    ensures job.Some? && times < MinRetry ==> r == Err(ArgumentOutOfRange)
    ensures r.Ok? ==> fresh(r.value) && r.value.Valid() && r.value.currentRetry == 0 && r.value.results == []
    ensures r.Ok? ==> r.value.jobId == job.value.id && r.value.jobContext == job.value.context
    ensures r.Ok? ==> r.value.config == RetryConfig(times, 0, job.value.attempts, validator)
  {
    r := NewRetry(job, times, 0, validator);
  }

  /** A repeat (zero interval) with passing validation runs the job `times` times even when every
      attempt completes, and reports the last attempt's status. */
  lemma RepeatRunsEveryTime(cfg: RetryConfig, jobId: JobId)
    requires Scripted(cfg)
    requires cfg.times >= MinRetry && cfg.interval == 0
    requires forall n :: 0 < n <= cfg.times ==> Validates(cfg, n)
    ensures var run := InvokeSpec(cfg, jobId, 0);
      && run.finalRetry == cfg.times && |run.appended| == cfg.times
      && DoableResult(run, run.appended) == Some(JobResult(AttemptResult(cfg, jobId, cfg.times).status, None))
  {
    RunsToExhaustion(cfg, jobId, 0);
  }

  /** With a non-zero interval, a job that never completes and a validator that always passes:
      exactly `times` invocations and entries, and the final status is the last failure's. */
  lemma AlwaysFailingRunsEveryTime(cfg: RetryConfig, jobId: JobId)
    requires Scripted(cfg)
    requires cfg.times >= MinRetry && cfg.interval > 0
    requires forall n :: 0 < n <= cfg.times ==> AttemptResult(cfg, jobId, n).status == CompletedWithError
    requires forall n :: 0 < n <= cfg.times ==> Validates(cfg, n)
    ensures var run := InvokeSpec(cfg, jobId, 0);
      && run.finalRetry == cfg.times && |run.appended| == cfg.times
      && (forall i :: 0 <= i < cfg.times ==> run.appended[i].status == CompletedWithError)
      && DoableResult(run, run.appended) == Some(JobResult(CompletedWithError, None))
  {
    RunsToExhaustion(cfg, jobId, 0);
  }
}
