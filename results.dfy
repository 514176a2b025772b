/** Job statuses, job results and the structured error a result may carry. */
module Results {
  import opened Wrappers
  import opened Strings
  import opened JobIds

  /** The status of a job or a workflow run (the library spells the last one `Stoped`). */
  datatype JobStatus = NotStarted | Running | Completed | CompletedWithError | Stoped

  /** The failure policy of a workflow. */
  datatype WhenFailure = StopOrExitJob | ContinueOn

  /** Which context the children of a workflow receive (the library spells the last one `previous`). */
  datatype ShareContext = Parent | First | Previous

  /** What a retry validator reports. */
  datatype ValidationResult = Valid | NotValid

  /** `AutoJobException`: the offending job, an inner cause and a message. */
  datatype AutoJobError = AutoJobError(jobDetail: JobId, inner: Option<AutoJobError>, message: string)

  /** `JobResult`: a status and an optional error. */
  datatype JobResult = JobResult(status: JobStatus, error: Option<AutoJobError>)

  const DefaultMessage: string := "Error occurred during AutoJob execution."

  /** `new AutoJobException(jobDetail, innerException, message)`. */
  function NewAutoJobError(jobDetail: Option<JobId>, inner: Option<AutoJobError>, message: Option<string>)
    : (r: Result<AutoJobError, Failure>)
    ensures r.Err? <==> jobDetail.None?
    ensures r.Err? ==> r.error == ArgumentNull("jobDetail")
    ensures r.Ok? ==> r.value.jobDetail == jobDetail.value && r.value.inner == inner
    ensures r.Ok? && IsNullOrWhiteSpace(message) ==> r.value.message == DefaultMessage
    ensures r.Ok? && !IsNullOrWhiteSpace(message) ==> r.value.message == message.value
  {
    if jobDetail.None? then Err(ArgumentNull("jobDetail"))
    else Ok(AutoJobError(jobDetail.value, inner, if IsNullOrWhiteSpace(message) then DefaultMessage else message.value))
  }

  /** The error the runners raise themselves: always with a job and a non-blank message. */
  function RaiseError(jobDetail: JobId, inner: Option<AutoJobError>, message: string): AutoJobError
  {
    AutoJobError(jobDetail, inner, if IsNullOrWhiteSpace(Some(message)) then DefaultMessage else message)
  }

  /** `AutoJobException.ToString`. */
  function ErrorText(e: AutoJobError): string {
    "Message: " + e.message + ", JobDetail : [ Id : " + e.jobDetail.id + ", Name : " + e.jobDetail.name + "]."
  }

  /** The rendered text starts with the message and ends with the job's Id and Name, in that order. */
  lemma ErrorTextLayout(e: AutoJobError)
    ensures var t := ErrorText(e);
      && t[..9] == "Message: "
      && t[9..9 + |e.message|] == e.message
      && t[|t| - |e.jobDetail.name| - 2..] == e.jobDetail.name + "]."
      && |t| == 41 + |e.message| + |e.jobDetail.id| + |e.jobDetail.name|
  {
    var t := ErrorText(e);
    assert t == "Message: " + e.message + (", JobDetail : [ Id : " + e.jobDetail.id + ", Name : ") + (e.jobDetail.name + "].");
  }

  /** A message that holds a non-whitespace character is kept verbatim. */
  lemma NonBlankMessageKept(j: JobId, inner: Option<AutoJobError>, m: string, k: nat)
    requires k < |m| && !IsWhiteSpaceChar(m[k])
    ensures NewAutoJobError(Some(j), inner, Some(m)) == Ok(AutoJobError(j, inner, m))
    ensures RaiseError(j, inner, m) == AutoJobError(j, inner, m)
  {
    NonBlankWitness(m, k);
  }
}
