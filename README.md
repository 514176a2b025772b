# BatchProcess.AutoJob in Dafny

A model of the core of BatchProcess.AutoJob, a .NET library that composes *jobs* into
*workflows* and runs them. The model covers:

- **Job ids.** A job is named by a `JobId`, an (Id, Name) pair. Runners key their tables
  by its text `Id[-]Name`.
- **Results and errors.** A job run yields a `JobResult`: a status, plus optionally an
  `AutoJobException` naming the job that failed.
- **Message hooks.** Jobs push `MessageHook` notifications to subscribers registered in a
  `NotificationManager`.
- **Job context.** A `JobContext` is a key/value store shared between jobs, plus a bag of
  processed job ids.
- **Inline jobs.** The atomic job is an `InlineJob`, which wraps a function or an action.
- **Retry decorator.** A `Retry` re-invokes a wrapped job:
  - up to `times` attempts;
  - with a non-zero interval, it stops at the first attempt that completes;
  - it runs an optional validator after each attempt.
- **Workflow jobs and builders.** A `WorkflowJob` is an ordered list of children under a
  failure policy (`StopOrExitJob` or `ContinueOn`). A context policy (`Parent`, `First` or
  `previous`) says which context each child gets. `Builder`, `JobBuilder` and `Creator`
  assemble workflows fluently.
- **Runners.** A workflow runs on a runner:
  - the `SequentialRunner` runs the children one after another inside a single harness task;
  - the `TaskRunner` starts one harness task per child.

  Both runners rest on `WorkflowThread`, a keyed table of tasks with a shared cancellation
  token. The model gives each task an abstract lifecycle.

## How the model is built

- **Errors.** C# `null` is `Option`. Every exception the source throws becomes the error
  side of a `Result`, tagged with its kind (`ArgumentNull(parameter)`, `KeyNotFound`,
  `DuplicateArgument`, ...).
- **Calls to other code.** Calls into code the model cannot see are parameters:
  - a child's run (returns or throws, plus the context it holds afterwards);
  - a handler's or validator's outcome;
  - the clock stamp;
  - the Guid text;
  - the string hash.
- **Classes.** Objects whose fields the source updates are classes (`JobContext`, `Retry`,
  `WorkflowThread`, `NotificationManager`, `SequentialRunner`, `TaskRunner`, `WorkflowJob`
  and the builders). Their methods are proved against specification functions:
  - `InvokeSpec` for the retry loop;
  - `RunResult`, `Executed`, `StatusesUpTo`, `HeldUpTo` and `PushesUpTo` for a sequential run;
  - `Dispatch` for the parallel start.

  Lemmas state what the library promises about those functions.

Under `ContinueOn`, a sequential run reports the last executed child's result (or Completed
if that child threw). It does not report CompletedWithError whenever some child failed.
`Sequential.ContinueOnRunsAll` states this.

## Model

| member | source | states |
|---|---|---|
| Strings.NatText | src/BatchProcess.AutoJob/Retry.cs:115-119 | The decimal rendering of an attempt number is non-empty and all digits. |
| JobIds.NewJobId | src/BatchProcess.AutoJob/JobId.cs:17-24 | An id is built exactly when both Id and Name are present and not blank. It then keeps both verbatim. Otherwise it fails with ArgumentNull("id, name"). |
| JobIds.KeyNeverBlank | src/BatchProcess.AutoJob/JobId.cs:45-48 | The key text of any id is never null or whitespace, so the harness always accepts it. |
| JobIds.EqualsIsValueEquality | src/BatchProcess.AutoJob/JobId.cs:40-43 | Ordinal equality on both fields is value equality: reflexive, symmetric, and true exactly for equal ids. |
| JobIds.EqualsObjectCases | src/BatchProcess.AutoJob/JobId.cs:26-33 | `Equals(object)` is true exactly for a JobId argument with the same fields. It is false for null and for other types. |
| JobIds.EqualIdsAgree | src/BatchProcess.AutoJob/JobId.cs:35-38 | Equal ids have equal hash codes, whatever the string hash is. They also share a runner key. |
| JobIds.KeyCollision | src/BatchProcess.AutoJob/JobId.cs:45-48 | Two different valid ids, ("a[-]b","c") and ("a","b[-]c"), have the same key text. |
| JobIds.KeyInjectiveWithoutBracket | src/BatchProcess.AutoJob/JobId.cs:45-48 | If neither Id contains '[', equal keys mean equal ids. |
| Results.NewAutoJobError | src/BatchProcess.AutoJob/AutoJobException.cs:11-19 | A null job fails with ArgumentNull("jobDetail"). Otherwise the job and inner cause are kept. A blank message becomes the default message; any other message is kept verbatim. |
| Results.ErrorTextLayout | src/BatchProcess.AutoJob/AutoJobException.cs:21-24 | The error text starts with the message and ends with the job's Id and Name. |
| Results.NonBlankMessageKept | src/BatchProcess.AutoJob/AutoJobException.cs:18-19 | A message with a non-whitespace character survives construction unchanged. |
| Messages.NewMessageHook | src/BatchProcess.AutoJob/Hooks/MessageHook.cs:21-27 | The text is checked first, then the purpose; a blank one fails with its own parameter name. Success happens exactly when both are non-blank, and it keeps text, purpose, type and stamp. |
| Messages.TypeNameInjective | src/BatchProcess.AutoJob/Hooks/MessageHook.cs:29-32 | Different message types render differently. |
| Messages.HookTextLayout | src/BatchProcess.AutoJob/Hooks/MessageHook.cs:17 | The rendered hook starts with the stamp and ends with the text, inside the `#[ ... ]#` frame. |
| Contexts.Lookup | src/BatchProcess.AutoJob/JobContext.cs:27-42 | A blank key fails with ArgumentNull("key"); an absent key or a stored null gives the default. A stored object is returned exactly when the runtime's cast rule converts its type to the requested one; otherwise the read fails with InvalidCast. |
| Contexts.SetThenGet | src/BatchProcess.AutoJob/JobContext.cs:50-58 | A value written under a key reads back when asked for with any type it converts to. |
| Contexts.SetLeavesOthers | src/BatchProcess.AutoJob/JobContext.cs:55-56 | Writing one key leaves the read of every other key unchanged. |
| Contexts.SetNullThenGet | src/BatchProcess.AutoJob/JobContext.cs:36-37 | A stored null reads back as the default, whatever type is requested. |
| Contexts.WritesFailIff | src/BatchProcess.AutoJob/JobContext.cs:50-70 | A run of `SetValue`/`AddToProcessed` calls throws exactly when one of its calls has a blank key or a null id. |
| Contexts.ApplyWritesAppend | src/BatchProcess.AutoJob/JobContext.cs:50-70 | Running two lists of calls in turn is running their concatenation; after a rejected call nothing more runs. |
| Contexts.UnwrittenKeyKept | src/BatchProcess.AutoJob/JobContext.cs:55-56 | A key that no call writes keeps its stored value, or stays absent. |
| Contexts.LastStoreWins | src/BatchProcess.AutoJob/JobContext.cs:55-56 | When no call is rejected, a key holds the last value written under it. |
| Contexts.ProcessedGrowsByMarks | src/BatchProcess.AutoJob/JobContext.cs:64-70 | Calls never remove a processed id. When none is rejected, the bag grows by exactly the ids added. |
| Contexts.JobContext.constructor | src/BatchProcess.AutoJob/JobContext.cs:73-80 | A new context has the parent id and empty value, type and processed stores. |
| Contexts.JobContext.GetValue | src/BatchProcess.AutoJob/JobContext.cs:27-42 | Reading agrees with `Lookup` and never yields a value whose type does not convert to the requested one. |
| Contexts.JobContext.SetValue | src/BatchProcess.AutoJob/JobContext.cs:50-58 | A blank key fails and changes nothing. Otherwise exactly that key's value and recorded type are overwritten; the processed bag is untouched. |
| Contexts.JobContext.AddToProcessed | src/BatchProcess.AutoJob/JobContext.cs:64-70 | A null id fails with ArgumentNull("id"). Otherwise the bag grows by exactly that id and the values are untouched. |
| Contexts.NewJobContext | src/BatchProcess.AutoJob/JobContext.cs:73-80 | A null parent id fails with ArgumentNull("parentId"). Otherwise the result is a fresh, empty context. |
| ErrorHandling.Expect | src/BatchProcess.AutoJob/Shared/ErrorHandle.cs:23-26 | The error flag is set exactly when the call threw. A value is returned exactly when the call returned, and it is the call's value. |
| ErrorHandling.ExpectAction | src/BatchProcess.AutoJob/Shared/ErrorHandle.cs:28-31 | For an action, the flag is set exactly when it threw. |
| ErrorHandling.ExpectAndThrow | src/BatchProcess.AutoJob/Shared/ErrorHandle.cs:33-36 | The exception escapes exactly when the call threw; otherwise the value passes through. |
| ErrorHandling.ExpectAgreesWithRethrow | src/BatchProcess.AutoJob/Shared/ErrorHandle.cs:23-36 | On a call that does not throw, the swallowing and rethrowing forms return the same value. |
| ErrorHandling.LoggerSlot.GetLogger | src/BatchProcess.AutoJob/Shared/ErrorHandle.cs:15-19 | The getter never yields null: an unset slot is filled with the console logger, and a set one is returned unchanged. |
| ErrorHandling.LoggerSlot.SetLogger | src/BatchProcess.AutoJob/Shared/ErrorHandle.cs:20 | Null is rejected and leaves the slot as it was; anything else is stored. |
| InlineJobs.BodyRun | src/BatchProcess.AutoJob/Extensions/InlineJob.cs:26-49 | A function body is the function itself. An action body makes the action's context calls and then either completes or throws, throwing exactly when the action throws. A null action makes no calls and completes. |
| InlineJobs.RunBody | src/BatchProcess.AutoJob/Extensions/InlineJob.cs:20-23 | A body returns exactly when none of its context calls is rejected and the delegate itself returns, and then it yields the delegate's result. An action body either completes or throws. |
| InlineJobs.InlineJob.Doable | src/BatchProcess.AutoJob/Extensions/InlineJob.cs:20-23 | Running the job applies its body once to its current context. The body's calls land on that live context, which then holds exactly what those calls leave; the outcome is `RunBody` on the context as it was. |
| InlineJobs.InlineJob.SetContext | src/BatchProcess.AutoJob/Extensions/InlineJob.cs:15 | The setter replaces the context. |
| InlineJobs.NewFuncJob | src/BatchProcess.AutoJob/Extensions/InlineJob.cs:26-36 | A null id fails with ArgumentNull("id") and a null function becomes a completing default. The given context is kept; a null one is replaced by a fresh, consistent context with empty value, type and processed stores, whose parent is the job. |
| InlineJobs.NewActionJob | src/BatchProcess.AutoJob/Extensions/InlineJob.cs:38-49 | The same as `NewFuncJob`, for the action overload. |
| InlineJobs.GetJobId | src/BatchProcess.AutoJob/Extensions/InlineJob.cs:61-64 | A null name becomes the default name, and a null id becomes the Guid text from its 13th character. A present, non-blank id with no name always succeeds. |
| Retries.AttemptResult | src/BatchProcess.AutoJob/Retry.cs:157-162 | An attempt that returns records its own result. One that throws records CompletedWithError naming the wrapped job. |
| Retries.ValidationFailure | src/BatchProcess.AutoJob/Retry.cs:115-119 | A failed validation records CompletedWithError naming the wrapped job. |
| Retries.InvokeStep | src/BatchProcess.AutoJob/Retry.cs:106-121 | One loop step from counter k: with a non-zero interval, a completed attempt k+1 ends the run with its result. Otherwise the sleep comes next: an interval below -1 throws and -1 never returns, each ending the run after that one entry. With a sleep that returns, a failed validation appends its failure and ends; a passing one continues from k+1. |
| Retries.InvokeShape | src/BatchProcess.AutoJob/Retry.cs:102-127 | In every run the counter only grows and never passes `times`. Each attempt appends one entry, plus at most one validation entry. A returned value is the last entry. A null return means one entry per attempt, and the attempts are exhausted unless the sleep threw or blocked. Only a negative interval ends a run that way. |
| Retries.RunsToExhaustion | src/BatchProcess.AutoJob/Retry.cs:102-127 | With a non-negative interval, if nothing stops the loop early, the job runs for every remaining attempt, records each result in order, and returns nothing. |
| Retries.FirstSuccessStops | src/BatchProcess.AutoJob/Retry.cs:167-170 | With a non-zero interval, a first attempt that completes is the only attempt, and its result is returned. |
| Retries.ValidationFailureStops | src/BatchProcess.AutoJob/Retry.cs:112-120 | With a non-negative interval, a failed validation after attempt k+1 ends the run with that attempt's entry followed by the validation failure, which is returned. |
| Retries.ExhaustedIsInert | src/BatchProcess.AutoJob/Retry.cs:148-150 | Once the counter has reached `times`, a call neither runs the job nor records anything. |
| Retries.SleepEnding | src/BatchProcess.AutoJob/Retry.cs:110 | The sleep returns exactly for a non-negative interval, throws exactly below -1, and never returns exactly at -1. |
| Retries.NegativeIntervalStopsAfterFailure | src/BatchProcess.AutoJob/Retry.cs:106-112 | With a negative interval, an attempt that does not complete is the last: one entry, no validation, and `Doable` never returns (-1) or reports that attempt's status (below -1). |
| Retries.RepeatRunsEveryTime | src/BatchProcess.AutoJob/Extensions/Extensions.cs:29-32 | A repeat (zero interval) with passing validation runs the job `times` times, even when every attempt completes, and `Doable` reports the last attempt's status. |
| Retries.AlwaysFailingRunsEveryTime | src/BatchProcess.AutoJob/Retry.cs:144-171 | With a positive interval, a job that never completes runs `times` times if validation always passes, and `Doable` reports CompletedWithError. |
| Retries.Retry.constructor | src/BatchProcess.AutoJob/Retry.cs:38-48 | A new retry starts with a zero counter and no recorded entries. |
| Retries.Retry.SetContext | src/BatchProcess.AutoJob/Retry.cs:58-72 | The context setter writes through to the wrapped job and leaves the counter and entries alone. |
| Retries.Retry.DoRetry | src/BatchProcess.AutoJob/Retry.cs:144-171 | Below `times`, it counts one more attempt and runs it, and stops exactly when the loop stops after it. At `times` or beyond it stops without running anything. |
| Retries.Retry.Invoke | src/BatchProcess.AutoJob/Retry.cs:102-127 | The loop records exactly the entries of `InvokeSpec` from the old counter, leaves its counter, and returns its value and how it ended. |
| Retries.Retry.Doable | src/BatchProcess.AutoJob/Retry.cs:78-100 | As `Invoke`, changing only the counter and the entries. The result is the returned value, or else (a null return or a sleep that threw) a fresh result with the last recorded entry's status; a blocked sleep never returns. |
| Retries.NewRetry | src/BatchProcess.AutoJob/Retry.cs:38-48 | A null job fails first with ArgumentNull("job"). Then `times` below the minimum fails with ArgumentOutOfRange. Otherwise the result is a fresh retry over the job's id and context, with the count, interval and validator. |
| Retries.ConvertToRetry | src/BatchProcess.AutoJob/Extensions/Extensions.cs:17-20 | It behaves exactly as the constructor: the same failures, and on success a fresh retry over the job's id and context with the given interval. |
| Retries.Repeat | src/BatchProcess.AutoJob/Extensions/Extensions.cs:29-32 | It behaves as the constructor with a zero interval: the same failures, and on success a fresh retry over the job's id and context. |
| WorkflowThreads.StateStatus | src/BatchProcess.AutoJob/Runtime/WorkflowThread.cs:84-102 | Canceled maps to Stoped and Faulted to CompletedWithError. The active states map to Running; Created and finished tasks map to NotStarted. Each mapping holds in both directions. |
| WorkflowThreads.TaskStatus | src/BatchProcess.AutoJob/Runtime/WorkflowThread.cs:73-82 | A finished task reads as its result's status; any other task reads as its state's status. |
| WorkflowThreads.EmptyAggregateCompleted | src/BatchProcess.AutoJob/Runtime/WorkflowThread.cs:54-71 | An empty table aggregates to Completed. |
| WorkflowThreads.AggregateCompletedIff | src/BatchProcess.AutoJob/Runtime/WorkflowThread.cs:54-71 | The aggregate is Completed exactly when every task finished with a Completed result. |
| WorkflowThreads.AggregateWitness | src/BatchProcess.AutoJob/Runtime/WorkflowThread.cs:54-71 | Each aggregate verdict (Running, Stoped, CompletedWithError, NotStarted) is backed by some task in the matching state. |
| WorkflowThreads.SettledNotRunning | src/BatchProcess.AutoJob/Runtime/WorkflowThread.cs:54-57 | The aggregate reads Running exactly while some task is still in a running state, the state `WaitForAll` waits out. |
| WorkflowThreads.FaultedReadsDifferently | src/BatchProcess.AutoJob/Runtime/WorkflowThread.cs:54-102 | A faulted task reads CompletedWithError on its own. If nothing is active, the table containing it aggregates to Stoped. |
| WorkflowThreads.WorkflowThread.constructor | src/BatchProcess.AutoJob/Runtime/WorkflowThread.cs:19-28 | A new harness has no tasks and an uncancelled token. |
| WorkflowThreads.WorkflowThread.AddAndStart | src/BatchProcess.AutoJob/Runtime/WorkflowThread.cs:30-41 | A missing task or a blank id fails and changes nothing, and a taken key fails with DuplicateArgument. A new key gets a waiting task. A task bound to a cancelled token instead gets a cancelled entry and an InvalidOperation error. |
| WorkflowThreads.WorkflowThread.GetResult | src/BatchProcess.AutoJob/Runtime/WorkflowThread.cs:43-52 | An unknown key fails with KeyNotFound. A known task gives its result exactly when it has finished, and null before. |
| WorkflowThreads.WorkflowThread.GetStatus | src/BatchProcess.AutoJob/Runtime/WorkflowThread.cs:73-82 | An unknown key fails with KeyNotFound; a known task reads as its `TaskStatus`. |
| WorkflowThreads.WorkflowThread.StopAll | src/BatchProcess.AutoJob/Runtime/WorkflowThread.cs:104-107 | It sets the token and keeps the keys. Bound tasks that have not begun become cancelled; all other entries stay as they were. |
| WorkflowThreads.WorkflowThread.WaitForAll | src/BatchProcess.AutoJob/Runtime/WorkflowThread.cs:109-118 | It always reports true, and in the model it never blocks. |
| WorkflowThreads.UnboundSurvivesStop | src/BatchProcess.AutoJob/Runtime/WorkflowThread.cs:104-107 | A task registered without the token keeps its entry and its status across a stop. |
| Notifications.Selected | src/BatchProcess.AutoJob/Hooks/NoficationManager.cs:70 | A push selects exactly the subscriptions of its sender for its type or for All. |
| Notifications.FreshGuidExists | src/BatchProcess.AutoJob/Hooks/NoficationManager.cs:54-57 | A finite registry always leaves a non-default Guid free. |
| Notifications.Push | src/BatchProcess.AutoJob/Hooks/NoficationManager.cs:92-108 | A handler's exception is swallowed and flagged exactly when it throws. |
| Notifications.PushAll | src/BatchProcess.AutoJob/Hooks/NoficationManager.cs:65-78 | Every delivery of a push runs, and each delivery's flag is its own handler's outcome. |
| Notifications.ThrowingHandlerIsolated | src/BatchProcess.AutoJob/Hooks/NoficationManager.cs:92-108 | One handler's throw does not change the outcome of any other delivery. |
| Notifications.NewSubscriptionReceives | src/BatchProcess.AutoJob/Hooks/NoficationManager.cs:45-78 | A new subscription receives every message of its type (or of any type, for All) sent by its receiver key. |
| Notifications.RemovedReceivesNothing | src/BatchProcess.AutoJob/Hooks/NoficationManager.cs:84-90 | A removed subscription is never selected, and the selection of the others is unchanged. |
| Notifications.OneDeliveryPerSubscription | src/BatchProcess.AutoJob/Hooks/NoficationManager.cs:65-78 | A push delivers at most once to each subscription. |
| Notifications.NotificationManager.constructor | src/BatchProcess.AutoJob/Hooks/NoficationManager.cs:21-24 | A new registry is empty. |
| Notifications.NotificationManager.IsRegistered | src/BatchProcess.AutoJob/Hooks/NoficationManager.cs:31-36 | The default Guid fails with ArgumentNull("id"); any other Guid reads as map membership. |
| Notifications.NotificationManager.RegisterHook | src/BatchProcess.AutoJob/Hooks/NoficationManager.cs:45-58 | A null receiver or handler fails and changes nothing. An identical subscription keeps its Guid and the registry. A new one is added under a fresh non-default Guid. |
| Notifications.NotificationManager.RemoveHook | src/BatchProcess.AutoJob/Hooks/NoficationManager.cs:84-90 | The default Guid fails. Any other Guid is removed if present, and afterwards it reads as not registered. |
| Notifications.NotificationManager.PushAsync | src/BatchProcess.AutoJob/Hooks/NoficationManager.cs:65-78 | A null sender or message fails. Otherwise there is exactly one delivery per selected subscription, carrying the message. |
| WorkflowDefs.ChildContexts | src/BatchProcess.AutoJob/Runtime/SequentialRunner.cs:116-123 | It lists, position by position, the context each child holds. |
| WorkflowDefs.StartContext | src/BatchProcess.AutoJob/Runtime/SequentialRunnerWorkflow.cs:35-44 | The Parent policy starts from the workflow's context; the others start from the first child's context. |
| WorkflowDefs.NoWorkflowResult | src/BatchProcess.AutoJob/Runtime/SequentialRunnerWorkflow.cs:15-18 | A workflow without children fails with CompletedWithError, naming the workflow, with the no-workflow message. |
| Sequential.StepStatus | src/BatchProcess.AutoJob/Runtime/SequentialRunnerWorkflow.cs:123-125 | A child that threw records CompletedWithError; otherwise its own result's status is recorded. |
| Sequential.AbortedResult | src/BatchProcess.AutoJob/Runtime/SequentialRunnerWorkflow.cs:132-135 | An aborted run reports CompletedWithError, naming the workflow and carrying the failing child's error. |
| Sequential.StoppedResult | src/BatchProcess.AutoJob/Runtime/SequentialRunnerWorkflow.cs:155-163 | A stopped run reports Stoped, naming the workflow, with the cancel message. |
| Sequential.FinalResult | src/BatchProcess.AutoJob/Runtime/SequentialRunnerWorkflow.cs:148-150 | A normal end copies the last result, or reports Completed when that child threw. |
| Sequential.Executed | src/BatchProcess.AutoJob/Runtime/SequentialRunnerWorkflow.cs:109-153 | A run executes at least one child and at most all of them. |
| Sequential.StatusesKeys | src/BatchProcess.AutoJob/Runtime/SequentialRunnerWorkflow.cs:123-125 | After k children, the status table holds exactly the base keys plus the keys of those k children. |
| Sequential.RecordedStatus | src/BatchProcess.AutoJob/Runtime/SequentialRunnerWorkflow.cs:123-125 | An executed child's recorded status is its own step status, unless a later executed child shares its key. |
| Sequential.StopsAtFirstFailure | src/BatchProcess.AutoJob/Runtime/SequentialRunnerWorkflow.cs:129-135 | Under StopOrExitJob, a run ends at the first failing child (unless stopped earlier), with the aborted CompletedWithError result. |
| Sequential.StopOrExitCompletedIff | src/BatchProcess.AutoJob/Runtime/SequentialRunnerWorkflow.cs:129-150 | Under StopOrExitJob, a run reports Completed exactly when every child ran and none failed. |
| Sequential.ContinueOnRunsAll | src/BatchProcess.AutoJob/Runtime/SequentialRunnerWorkflow.cs:139-150 | Under ContinueOn with no stop request, every child runs. The run reports the last child's result, or Completed if the last child threw. |
| Sequential.FirstChildAlwaysRuns | src/BatchProcess.AutoJob/Runtime/SequentialRunnerWorkflow.cs:139-143 | With the token already cancelled, exactly one child runs; when more remain and it did not abort, the run reports Stoped. |
| Sequential.StopRequestStops | src/BatchProcess.AutoJob/Runtime/SequentialRunnerWorkflow.cs:142-143 | A stop request seen after child j, with more children left and no abort, ends the run there with Stoped. |
| Sequential.ParentContextForAll | src/BatchProcess.AutoJob/Runtime/SequentialRunnerWorkflow.cs:35-44 | Under Parent, every child is given the workflow's context. |
| Sequential.FirstContextForAll | src/BatchProcess.AutoJob/Runtime/SequentialRunnerWorkflow.cs:35-44 | Under First, every child is given the context the first child held when the run began. |
| Sequential.PreviousHandsOn | src/BatchProcess.AutoJob/Runtime/SequentialRunnerWorkflow.cs:137 | Under previous, each later child is given the context its predecessor holds after running. |
| Sequential.ChildPushes | src/BatchProcess.AutoJob/Runtime/SequentialRunnerWorkflow.cs:65-101 | A child causes Info before it runs, Error exactly when it threw, and Info after it runs. |
| Sequential.PushCount | src/BatchProcess.AutoJob/Runtime/SequentialRunnerWorkflow.cs:65-101 | A run pushes two notifications per executed child plus one per child that threw. |
| Sequential.ErrorPushesFromThrows | src/BatchProcess.AutoJob/Runtime/SequentialRunnerWorkflow.cs:65-101 | Every Error push comes from an executed child that threw. |
| Sequential.HeldUpTo | src/BatchProcess.AutoJob/Runtime/SequentialRunnerWorkflow.cs:46-63 | After the first k children have run there is one held context per child: the executed children hold what they held after running, and the rest keep their initial contexts. |
| Sequential.StatusAfterRun | src/BatchProcess.AutoJob/Runtime/SequentialRunner.cs:46-62 | After a run, a child whose key is unshared reads its step status if it ran, and NotStarted otherwise. An id outside the workflow fails with KeyNotFound. |
| Sequential.SequentialRunner.constructor | src/BatchProcess.AutoJob/Runtime/SequentialRunner.cs:33-38 | A new runner has no workflow, its given harness, and an empty table. |
| Sequential.SequentialRunner.Start | src/BatchProcess.AutoJob/Runtime/SequentialRunner.cs:91-101 | A null workflow fails and changes nothing. Otherwise the run is snapshotted and reset, and one unbound task keyed by the workflow's id is registered; a taken key fails with DuplicateArgument. |
| Sequential.SequentialRunner.RunTask | src/BatchProcess.AutoJob/Runtime/SequentialRunner.cs:96-98 | The run's task finishes. Without children it reports the no-workflow result and changes nothing else. Otherwise it finishes with `RunResult` and leaves the status table, pushes and held contexts that the specification functions give. |
| Sequential.SequentialRunner.StartWorkflow | src/BatchProcess.AutoJob/Runtime/SequentialRunnerWorkflow.cs:13-33 | A workflow without children reports the no-workflow result and changes nothing. Otherwise the children run from the start context, as the specification functions say. |
| Sequential.SequentialRunner.ProcessJobs | src/BatchProcess.AutoJob/Runtime/SequentialRunnerWorkflow.cs:109-153 | The loop returns `RunResult` and leaves exactly `StatusesUpTo`, `PushesUpTo` and `HeldUpTo` of the executed count. |
| Sequential.SequentialRunner.ProcessWithHooks | src/BatchProcess.AutoJob/Runtime/SequentialRunnerWorkflow.cs:65-101 | One child: it is handed the context, its pushes are appended, and its error flag is whether it threw. |
| Sequential.SequentialRunner.GetStatus | src/BatchProcess.AutoJob/Runtime/SequentialRunner.cs:46-62 | Null fails with NullReference. The workflow's id reads from the harness, the current child reads Running, and a recorded child reads its status. A child not yet run reads NotStarted; any other id fails with KeyNotFound. |
| Sequential.SequentialRunner.GetResult | src/BatchProcess.AutoJob/Runtime/SequentialRunner.cs:69-75 | Only the workflow's own id is answered, from its harness task; any other id fails with KeyNotFound. |
| Sequential.SequentialRunner.SoftStop | src/BatchProcess.AutoJob/Runtime/SequentialRunner.cs:106-109 | It cancels the harness token. Bound tasks that had not begun are Canceled; every other task, and the set of keys, is unchanged. |
| Sequential.SequentialRunner.WaitForAll | src/BatchProcess.AutoJob/Runtime/SequentialRunner.cs:81-84 | It always reports true. |
| Parallel.ChildResult | src/BatchProcess.AutoJob/Runtime/TaskRunnerWorkflow.cs:43-57 | A child that throws becomes CompletedWithError naming the child; otherwise its own result is kept. |
| Parallel.DispatchShape | src/BatchProcess.AutoJob/Runtime/TaskRunnerWorkflow.cs:30-34 | Dispatch never overwrites an entry already in the table and adds only the keys of the children it reached. It leaves no task unstarted, and succeeds only after reaching every child. |
| Parallel.DispatchOkIff | src/BatchProcess.AutoJob/Runtime/TaskRunnerWorkflow.cs:30-34 | Dispatch succeeds exactly when nothing remains, or the token is not cancelled and all remaining keys are new and distinct. Then every child has a waiting task. |
| Parallel.CancelledDispatchFails | src/BatchProcess.AutoJob/Runtime/TaskRunnerWorkflow.cs:30-34 | After a stop request, dispatch fails at its first child, adding only a cancelled task. |
| Parallel.TaskRunner.constructor | src/BatchProcess.AutoJob/Runtime/TaskRunner.cs:28-32 | A new runner has no workflow and empty tables. |
| Parallel.TaskRunner.Start | src/BatchProcess.AutoJob/Runtime/TaskRunner.cs:88-96 | A null workflow fails. An empty workflow records the no-workflow failure under its own key. Otherwise every child is handed the start context and dispatched as `Dispatch` says. |
| Parallel.TaskRunner.DispatchAll | src/BatchProcess.AutoJob/Runtime/TaskRunnerWorkflow.cs:20-40 | The loop leaves the harness table and the error that `Dispatch` gives, and assigns the context to the children it reached. |
| Parallel.TaskRunner.RunChild | src/BatchProcess.AutoJob/Runtime/TaskRunnerWorkflow.cs:43-57 | A child's task records its wrapped result under its key and finishes with it. |
| Parallel.TaskRunner.GetStatus | src/BatchProcess.AutoJob/Runtime/TaskRunner.cs:49-61 | Null fails with NullReference, and the workflow's id reads the harness aggregate. Another id fails exactly when it is neither recorded nor a child, and then only with KeyNotFound. |
| Parallel.TaskRunner.GetResult | src/BatchProcess.AutoJob/Runtime/TaskRunner.cs:68-81 | The workflow's id yields a fresh result carrying the aggregate status, which is not Running once no task is in a running state. A child yields its recorded result, and anything else yields null. |
| Parallel.TaskRunner.SoftStop | src/BatchProcess.AutoJob/Runtime/TaskRunner.cs:101-104 | It cancels the harness token. Bound tasks that had not begun are Canceled; every other task, and the set of keys, is unchanged. |
| Parallel.TaskRunner.WaitForAll | src/BatchProcess.AutoJob/Runtime/TaskRunner.cs:38-41 | It always reports true. |
| Parallel.RecordedChildAgrees | src/BatchProcess.AutoJob/Runtime/TaskRunner.cs:54-55 | A recorded child reads the same status from the runner as its task reads from the harness. |
| Parallel.WaitingChildReadsNotStarted | src/BatchProcess.AutoJob/Runtime/TaskRunner.cs:49-61 | A dispatched child whose task is still waiting reads NotStarted from the runner, while the harness reports its task Running. |
| Parallel.EmptyWorkflowReadsCompleted | src/BatchProcess.AutoJob/Runtime/TaskRunnerWorkflow.cs:12-19 | A started empty workflow records a failure, yet its own status reads Completed, because its harness table is empty. |
| Parallel.FailedChildFailsWorkflow | src/BatchProcess.AutoJob/Runtime/TaskRunner.cs:49-61 | Once every task has finished, one child recorded with CompletedWithError makes the workflow read CompletedWithError, whatever the failure policy. |
| Workflows.Present | src/BatchProcess.AutoJob/WorkflowJob.cs:93-108 | A list without nulls keeps its length, and each position holds the child that was there. |
| Workflows.IndexOfId | src/BatchProcess.AutoJob/WorkflowJob.cs:127-141 | The first position with the id, or the length if there is none; it is in range exactly when some child has the id. |
| Workflows.RemoveByIdCounts | src/BatchProcess.AutoJob/WorkflowJob.cs:127-141 | Removing by id drops exactly one child with that id; the count of every other id is unchanged. |
| Workflows.WithHeld | src/BatchProcess.AutoJob/WorkflowJob.cs:114-121 | After a run, the children keep their ids and hold the contexts the run left them. |
| Workflows.WorkflowJob.constructor | src/BatchProcess.AutoJob/WorkflowJob.cs:36-49 | A new workflow has its id, context and policies, no children and no runner. |
| Workflows.NewWorkflowJob | src/BatchProcess.AutoJob/WorkflowJob.cs:39-40 | A null id or context fails with ArgumentNull("id, context"). |
| Workflows.WorkflowJob.SetContext | src/BatchProcess.AutoJob/WorkflowJob.cs:54-67 | The setter replaces the workflow's context. |
| Workflows.WorkflowJob.AddJob | src/BatchProcess.AutoJob/WorkflowJob.cs:74-86 | A null job fails with ArgumentNull("job"). Otherwise the job is appended and the new count is returned. |
| Workflows.WorkflowJob.AddJobs | src/BatchProcess.AutoJob/WorkflowJob.cs:93-108 | A null list, or one with a null in it, fails and changes nothing. Otherwise every job is appended in order and the new count is returned. |
| Workflows.WorkflowJob.RemoveJob | src/BatchProcess.AutoJob/WorkflowJob.cs:127-141 | A null id fails with NullReference and an unknown id with KeyNotFound. Otherwise the first child with that id is removed. |
| Workflows.WorkflowJob.GetJobStatus | src/BatchProcess.AutoJob/WorkflowJob.cs:148-158 | A null id fails with NullReference, and an id that is not a child fails with KeyNotFound. Before any run a child reads NotStarted; afterwards it reads from the runner. |
| Workflows.WorkflowJob.Doable | src/BatchProcess.AutoJob/WorkflowJob.cs:114-121 | A workflow whose key is already registered in its host's harness (by any earlier run, finished or not) fails with DuplicateArgument, so a workflow runs at most once on its host; the refused start has still reset the host to this workflow, with an empty status table. Otherwise the run completes: an empty workflow reports the no-workflow failure, and a non-empty one reports `RunResult`. The children then hold what the run left them. The workflow's context is never replaced. |
| Workflows.StatusAfterDoable | src/BatchProcess.AutoJob/WorkflowJob.cs:148-158 | After a run, a child with an unshared key reads its step status if it ran, and NotStarted otherwise. An id that is not a child fails with KeyNotFound. |
| Workflows.Builder.constructor | src/BatchProcess.AutoJob/Builder.cs:41-45 | A new builder has StopOrExitJob and Parent as defaults. A null context is replaced by a fresh one whose parent is the id. |
| Workflows.BuildWorkflow | src/BatchProcess.AutoJob/Builder.cs:47-53 | A null id fails with ArgumentNull("id"). |
| Workflows.Builder.WithOption | src/BatchProcess.AutoJob/Builder.cs:27-32 | It sets both policies and returns the same builder. |
| Workflows.Builder.WithContext | src/BatchProcess.AutoJob/Builder.cs:34-39 | A null context fails with ArgumentNull("context"); anything else is stored. |
| Workflows.Builder.AddJob | src/BatchProcess.AutoJob/Builder.cs:17-26 | A null job fails with ArgumentNull("job"). Otherwise a fresh workflow with the builder's settings and that one child is wrapped in a fresh job builder. |
| Workflows.JobBuilder.constructor | src/BatchProcess.AutoJob/JobBuilder.cs:39-42 | The job builder keeps the workflow it is given. |
| Workflows.NewJobBuilder | src/BatchProcess.AutoJob/JobBuilder.cs:41 | A null workflow fails with ArgumentNull("workflow"). |
| Workflows.JobBuilder.ThenAdd | src/BatchProcess.AutoJob/JobBuilder.cs:14-22 | A null job fails with ArgumentNull("job"). Otherwise it is appended to the workflow and the same builder is returned. |
| Workflows.JobBuilder.ThenAddAll | src/BatchProcess.AutoJob/JobBuilder.cs:24-35 | A null list, or one holding a null, fails with ArgumentNull("job"). Otherwise all jobs are appended in order. |
| Workflows.JobBuilder.NothingElse | src/BatchProcess.AutoJob/JobBuilder.cs:37 | It returns a fresh creator over the same workflow. |
| Workflows.Creator.constructor | src/BatchProcess.AutoJob/JobBuilder.cs:54-57 | The creator keeps the workflow it is given. |
| Workflows.NewCreator | src/BatchProcess.AutoJob/JobBuilder.cs:56 | A null workflow fails with ArgumentNull("workflow"). |

## Left out

- Threads, locks and mutexes are not modelled. Where a mutex cannot be taken, the source returns 0 (`AddJob`, `AddJobs`), null (`StartWorkflow`) or an aborted result (`ProcessJob`); those branches are not modelled. A harness task's lifecycle is driven explicitly (`Begin`, `Complete`, `Fault`) by the runners' methods.
- `WaitForAll` does not block; it reports true, as the source does once every task has finished. So the WorkflowJob's branch for a null result after waiting cannot be reached.
- Parallel.TaskRunner.GetResult: for the workflow's own id it does not wait for running tasks; asked while a task is still in a running state it reports Running, where the source would first wait. Once no task is running, the result is the one the source gives.
- Retries.NewRetry: the interval is whole milliseconds, the value the sleep receives. A non-zero interval shorter than a millisecond (which the loop treats as non-zero but sleeps for 0) and intervals outside the 32-bit range are not modelled; how long a sleep lasts is not modelled.
- Logging is not modelled. The logger slot keeps only its identity; messages are not written anywhere.
- The clock reading a MessageHook is stamped with, the Guid text and the string hash are inputs, not computed. New Guids are fresh naturals.
- Message and error texts are modelled as strings only where a contract uses them. The interpolated warning texts of the retry loop are not shown to a reader.
- Generic casts are modelled by type name: a stored value carries its runtime type's name, and a read asks for a type name. The runtime's conversion rule (base classes, interfaces, `object`, nullable and boxing conversions) is a parameter of `Lookup` and `GetValue`, not computed.
- InlineJobs.BodyRun: a delegate is described by the calls it makes on its context and how it ends, decided from the context it is given; calls it makes on other objects are not modelled.
- The service locator and `WorkflowHost` are not modelled. A WorkflowJob always runs on a new SequentialRunner with its own harness; the optional host argument of the constructor, and a workflow configured to run on the TaskRunner, are not modelled.
- Notification pushes of a child's context are modelled as a trace of push events on the runner; delivery to handlers is modelled separately by `Notifications.PushAsync`.
- The stop script of a sequential run stands for a `SoftStop` arriving mid-run, but it does not set the harness's cancellation token; in the source the token stays cancelled for every later task on that harness.
- A child whose `Doable` returns null is not modelled; a child either returns a result or throws.
- A child object listed twice in one workflow is two independent positions: each position holds its own context.
- Parallel.TaskRunner.RunChild: requires that the harness task under the child's key is the one this child registered; the case of two children sharing a key is left to `DispatchOkIff`, which shows that dispatch fails then.
- Retries.NewRetry: requires the wrapped job's script (and the validator's) to cover `times` attempts; the source has no such precondition, the scripts are how the model describes the job's behaviour.
- Retries.ConvertToRetry: the same script-length precondition as `NewRetry`.
- Retries.Repeat: the same script-length precondition as `NewRetry`.
- `Creator` is a top-level class; in the source it is nested inside `JobBuilder`.
- `Creator.Create` returns the workflow and has no contract beyond that; its source has a validation left to do.
