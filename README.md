# n8n insights recording and summary, and the task runner module, in Dafny

This project models two sequential parts of n8n's command-line server package:

- **Insights** (`InsightsService`). When a workflow execution finishes, the
  service may record it. Two fixed tables decide whether the execution is
  recorded at all: one keyed by execution status, one by execute mode. A
  recorded execution upserts one metadata row per workflow, keyed by the
  workflow id. It then inserts raw events under that row's `metaId`: one
  outcome event (`success` or `failure`, value 1), a `runtime_ms` event when
  the run has a stop time, and a `time_saved_min` event for successful runs
  of workflows that save time. A workflow without an owner makes the handler
  fail before anything is written. The summary folds aggregate rows of the
  current and the previous period into per-type values. A later row for the
  same period and type overwrites an earlier one. From these values it derives
  totals, failures, time saved, a failure rate and an average runtime. Each
  metric carries a deviation, which is the current value minus the previous one.
- **Task runner module** (`TaskRunnerModule`). `start` refuses to run when
  task runners are disabled. Otherwise it loads the task manager, then the HTTP
  and WS servers, and starts the HTTP server. `stop` stops the runner process
  and then the HTTP server, each only if it is loaded, and clears both slots.
  The `runner:started` and `runner:stopped` lifecycle events attach and detach
  the WS server's disconnect analyzer.

Files:

- `wrappers.dfy`: `Option` and `Outcome`.
- `insights_shared.dfy`: the event types (`TypeUnit`) and the type code table.
- `insights_recording.dfy`: the skip tables and the event emission. It also
  holds the `InsightsService` class, whose fields are the tables the handler
  writes. `HandlerScenarios` is a client method whose assertions about the
  service tests' scenarios are proved from the contracts alone.
- `insights_summary.dfy`: the row fold, the metric formulas and the summary
  method.
- `task_runner_module.dfy`: the `TaskRunnerModule` class, its collaborators
  as opaque handles, and a ghost log of the calls it makes on them.
  `Lifecycle` is a client method whose assertions about start, stop, a
  second stop and the two events are proved from the contracts alone.

`start` has no guard against a second call: a second call loads the same
instances again and starts the HTTP server again. `stop` leaves the WS server
and the task manager loaded.

## Model

| member | source | states |
|---|---|---|
| InsightsRecording.ShouldSkipStatus | packages/cli/src/modules/insights/insights.service.ts:16-26 | an execution is recorded by status only if it ended in success, crashed or error; canceled, new, running, unknown and waiting are skipped |
| InsightsRecording.ShouldSkipMode | packages/cli/src/modules/insights/insights.service.ts:28-39 | exactly the internal and manual modes are skipped; all other modes are recorded |
| InsightsRecording.OutcomeType | packages/cli/src/modules/insights/insights.service.ts:53 | the outcome event type is always success or failure, and it is success iff the status is success |
| InsightsRecording.RecordedEvents | packages/cli/src/modules/insights/insights.service.ts:89-115 | all events carry the metadata row's metaId; exactly one outcome event with value 1 comes first; a runtime event exists iff the run has a stop time, and its value is stop minus start; a time-saved event exists iff the run succeeded and the setting is non-zero, and its value is the setting; so a success with both gives 3 events and a failure gives 2 |
| InsightsRecording.InsightsService.constructor | packages/cli/src/modules/insights/insights.service.ts:43-46 | the service starts with the given owner rows and with empty metadata and raw event tables |
| InsightsRecording.InsightsService.FindOwner | packages/cli/src/modules/insights/insights.service.ts:56-59 | an owner is found iff the workflow has an owner row, and the row found is that owner |
| InsightsRecording.InsightsService.FindMetadata | packages/cli/src/modules/insights/insights.service.ts:77-79 | a metadata row is found iff one exists for the workflow id, and it is the row stored for that id |
| InsightsRecording.InsightsService.Upsert | packages/cli/src/modules/insights/insights.service.ts:67-76 | an existing row keeps its metaId and gets the new names; a new row gets a metaId no other row has; no other row changes, and the store invariant (one row per workflow, distinct metaIds, raw events refer to rows) is kept |
| InsightsRecording.InsightsService.Insert | packages/cli/src/modules/insights/insights.service.ts:95 | the event is appended to the raw table, which must refer to an existing metadata row; nothing else changes |
| InsightsRecording.InsightsService.InsertEvents | packages/cli/src/modules/insights/insights.service.ts:89-115 | the three guarded inserts append exactly the recorded events of the run, in order |
| InsightsRecording.InsightsService.WorkflowExecuteAfterHandler | packages/cli/src/modules/insights/insights.service.ts:48-117 | a skipped execution changes nothing; a workflow without an owner fails with the not-found error and changes nothing; otherwise the workflow's metadata row is upserted (keeping an existing metaId, or taking a new one) and exactly the recorded events are appended under its metaId; the store invariant holds throughout |
| InsightsSummary.PeriodOf | packages/cli/src/modules/insights/insights.service.ts:133 | a row counts for the current period iff its period name is "current", and for the previous period iff it is "previous"; other rows are ignored |
| InsightsSummary.LastWriteWins | packages/cli/src/modules/insights/insights.service.ts:131-136 | after the fold, a type written for a period holds the value of the last row that writes it (a null or zero sum reads as 0); later rows overwrite earlier ones |
| InsightsSummary.UnwrittenIsAbsent | packages/cli/src/modules/insights/insights.service.ts:131-140 | a type that no row writes for a period is absent from that period's map, so getValueByType reads it as 0 |
| InsightsSummary.GuardedRatio | packages/cli/src/modules/insights/insights.service.ts:151-162 | the ratio is 0 when the total is not positive, so there is no division by zero; otherwise ratio times total equals the part; a part between 0 and the total gives a ratio between 0 and 1 |
| InsightsSummary.SummaryOf | packages/cli/src/modules/insights/insights.service.ts:139-194 | total is successes plus failures; failed and time saved are the current values; each deviation is current minus previous; failure rate and average runtime are 0 for a period without executions, and otherwise the share of failures and the runtime per execution; the failure rate lies between 0 and 1 for non-negative counts |
| InsightsSummary.GetInsightsSummary | packages/cli/src/modules/insights/insights.service.ts:121-197 | the one-pass fold over the rows yields the summary of the per-period maps of the fold specification |
| InsightsSummary.CompactedDataSummary | packages/cli/src/modules/insights/__tests__/insights.service.test.ts:274-319 | the four aggregate rows of the five compacted events, two successes and two failures now, and one success with 123 ms of runtime before, give total 4 (deviation 3), failed 2 (deviation 2), failure rate 0.5 (deviation 0.5), average runtime 0 (deviation -123) and time saved 0 |
| TaskRunners.StopCalls | packages/cli/src/runners/task-runner-module.ts:52-62 | stop makes one stop call per loaded slot, the runner process first and the HTTP server last, and no call at all when neither is loaded |
| TaskRunners.TaskRunnerModule.constructor | packages/cli/src/runners/task-runner-module.ts:27-43 | a new module has no server, task manager or runner process loaded and has made no calls |
| TaskRunners.TaskRunnerModule.Start | packages/cli/src/runners/task-runner-module.ts:45-50 | when task runners are disabled, start fails and changes nothing; otherwise it loads the task manager, then both servers, then starts the HTTP server; afterwards the task manager and both servers are the container's instances and the runner process slot is unchanged |
| TaskRunners.TaskRunnerModule.Stop | packages/cli/src/runners/task-runner-module.ts:52-62 | afterwards neither the runner process nor the HTTP server is loaded; the WS server and the task manager are untouched; the calls made are those of StopCalls, so a second stop makes none |
| TaskRunners.TaskRunnerModule.LoadTaskManager | packages/cli/src/runners/task-runner-module.ts:64-69 | the container's task manager becomes the loaded one and nothing else changes |
| TaskRunners.TaskRunnerModule.LoadTaskRunnerServer | packages/cli/src/runners/task-runner-module.ts:71-79 | with the task manager loaded, the container's HTTP and WS servers are loaded and the HTTP server is started |
| TaskRunners.TaskRunnerModule.HandleLifecycleEvent | packages/cli/src/runners/task-runner-module.ts:31-42 | with a WS server loaded, runner:started sets its disconnect analyzer to the internal analyzer and runner:stopped clears it; without one, neither event changes anything |

## Left out

- `NumberToType` is not part of this model. Every operation that needs it takes the code table as a parameter. A code missing from the table writes an `undefined` key in the source; nothing reads that key, so the model ignores such rows. The table's injectivity is never needed.
- InsightsSummary.SummaryOf: the failure rate and the average runtime are exact reals. The source rounds them to two decimals in floating point.
- InsightsSummary.GuardedRatio: exact real division; the source's rounding to two decimals is not modelled.
- Period names that are members of a JavaScript object's prototype (such as `constructor`) would make the source fail on `byType`. The repository only returns `current` and `previous`, and the model ignores every other name.
- The ORM and its transaction are an in-memory store. Owner lookup is a map from workflow id to the owner's project, so at most one owner row exists per workflow. `metaId` values come from an auto-increment counter.
- The repository query that produces the aggregate rows is not part of this model. Its rows are the summary's input. `total_value` is an optional integer; a null or zero sum reads as 0.
- Instants are integer milliseconds. `timeSavedPerExecution` is an integer, and a zero or absent setting is falsy; fractional and NaN settings are not modelled.
- `getInsightsByWorkflow` and the insights controller are not part of this model.
- TaskRunners.TaskRunnerModule.Start: the HTTP server's `start()` is assumed to resolve; a rejection, which would leave the servers loaded, is not modelled.
- TaskRunners.TaskRunnerModule.Stop: the `stop()` calls on the runner process and the HTTP server are assumed to resolve; a rejection, which would leave that slot set and skip the rest, is not modelled.
- Dynamic `import()`, the dependency container and async interleaving are not modelled. The container is a fixed set of singleton instances given at construction. Each operation runs atomically, including an event handler that fires while `start` is suspended.
- The task runner server, WS server, local task manager, runner process and disconnect analyzer are opaque handles. The one exception is the WS server's analyzer slot. The broker's queueing, task assignment, runner supervision and disconnect classification are not in the modelled code.
