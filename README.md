# Data Task Orchestration Platform — a Dafny model of its core

The platform lets a user define *tasks*, each naming a serverless function and its
parameters. It chains tasks into *workflows*: an ordered list of task ids, a status
(ACTIVE or PAUSED) and an optional cron expression. Workflows run on demand or on schedule.
This project models the parts of it that hold real logic:

- **The web console** (React):
  - **The task form** (`CreateTask`): a fixed table of four task types decides which form
    sections show and which function a task targets. Switching the type rewrites the
    draft. Submitting assembles a `parameters` object from the shown sections only.
  - **The workflow form** (`CreateWorkflow`): an ordered selection of task ids, a status
    toggle, cron quick-fill examples, and a preview kept in step with the selection.
  - **The multi-select dropdown** (`MultiSelect`): toggling a value in or out of the
    selection, the labels of the selected options, and the trigger text.
  - **The workflow list** (`WorkflowList`): loading, a set of workflow ids whose execution
    is in flight, deletion, and the task names shown on each card.
  - **The dashboard** (`Dashboard`): three counts and the five most recent tasks and
    workflows.
- **The backend** (Spring):
  - **The execution engine** (`Orchestrator`): `runWorkflow` goes through a workflow's
    task ids in order and skips ids with no task. It invokes each found task's function
    with the task's parameters plus a `"context"` map of the results so far, logs
    `{task, result}`, and saves the job record as RUNNING, after each task, and finally
    as COMPLETED or FAILED.
  - **The scheduler** (`Scheduler`): once a minute it starts every workflow that is ACTIVE
    (ignoring case), has a cron expression, and whose next fire time after one minute ago
    is not after now.

How things are modelled:

- React state slots are fields of a class per component, and each event handler is a
  method.
- An awaited HTTP call is atomic. Its outcome (`Ok` with the body, or `Failed` with the
  backend's optional message) is a parameter.
- Generated ids and the `window.confirm` answer are parameters.
- The backend's tables are maps. The function call is a total function field. The clock
  readings and the new job id are parameters. A table operation that throws is named by a
  `Crash` parameter.
- Cron parsing is an abstract function over integer seconds.
- The browser's judgement of whether an `<input type="url">` value is a URL is an abstract
  predicate, passed to `TaskForm.Submit`.

Behaviour worth knowing:

- A workflow is removed from the list only after the delete call succeeds.
- Log entries use the key `task`, as `runWorkflow` writes them; the comment on the job
  record's `logs` field says `step`.
- The task type changes only through the type cards' inline updater (`ClickTypeCard`).
  The component also defines `handleTypeChange` (`HandleTypeChange`), but no element
  calls it. It is modelled because it rewrites the draft the same way
  (`ClickCardIsSwitchType`).
- The task form has no input for the task id, so a posted task id is always the generated
  one (`TaskForm.HandleSubmit`).
- Both status buttons of the workflow form call the same toggle. Pressing "Active" while
  the status is ACTIVE pauses the workflow (`StatusButtonsBothToggle`).
- The dashboard counts `status === 'ACTIVE'` exactly. The scheduler compares ignoring case
  (`LowerCaseActiveNotCounted`, `LowerCaseActiveIsCandidate`).

Three methods without a contract of their own are illustrations of the component classes
in use: `CreateTask.BlankNameIsNotPosted` (a draft with a blank name is never posted),
`WorkflowList.IndependentExecutions` (one execution settling leaves another in flight busy) and
`Dashboard.FailedFetchShowsNothing` (a failed first fetch leaves zeros on screen).

Files: `wrappers.dfy` (Option), `api_records.dfy` (what the console reads from the API),
`backend_model.dfy` (the stored records), then one file per core source file.

## Model

| member | source | states |
|---|---|---|
| `ApiRecords.OrEmpty` | frontend/src/components/WorkflowList.js:23-24 | a null response body reads as the empty list, any other body as itself |
| `ApiRecords.TextOr` | frontend/src/components/WorkflowList.js:42-45 | JavaScript `text \|\| fallback`: a missing or empty text gives the fallback, any other text itself; a non-empty fallback never yields an empty banner |
| `MultiSelect.Without` | frontend/src/components/MultiSelectDropdown.js:21 | the filtered selection lacks the value, keeps every other value, and is no longer than before |
| `MultiSelect.Toggle` | frontend/src/components/MultiSelectDropdown.js:19-24 | a selected value is removed, an unselected one appended at the end; the toggled value's membership flips and no other value's membership changes |
| `MultiSelect.WithoutAbsent` | frontend/src/components/MultiSelectDropdown.js:21 | filtering out a value that is not selected leaves the selection as it is |
| `MultiSelect.WithoutAppend` | frontend/src/components/MultiSelectDropdown.js:21 | filtering distributes over appending one value |
| `MultiSelect.WithoutIdempotent` | frontend/src/components/MultiSelectDropdown.js:21 | filtering twice is filtering once |
| `MultiSelect.ToggleKeepsOthersInOrder` | frontend/src/components/MultiSelectDropdown.js:19-24 | a toggle keeps the order and multiplicity of every other selected value |
| `MultiSelect.ToggleTwiceAbsent` | frontend/src/components/MultiSelectDropdown.js:19-24 | toggling an unselected value twice restores the selection |
| `MultiSelect.ToggleTwicePresent` | frontend/src/components/MultiSelectDropdown.js:19-24 | toggling a selected value twice moves it, once, to the end |
| `MultiSelect.SelectedLabels` | frontend/src/components/MultiSelectDropdown.js:26-28 | a label is shown exactly when some option carrying it is selected; a single option gives its label when selected and nothing otherwise |
| `MultiSelect.SelectedLabelsAppend` | frontend/src/components/MultiSelectDropdown.js:26-28 | the labels follow option order, one per selected option: the labels of two option lists in a row are those of the first then those of the second, which with the one-option case fixes the labels and their count |
| `MultiSelect.SelectedLabelsIgnoreSelectionOrder` | frontend/src/components/MultiSelectDropdown.js:26-28 | the labels depend on which values are selected, not on the order they were picked in |
| `MultiSelect.DecimalString` | frontend/src/components/MultiSelectDropdown.js:41 | a count renders as a non-empty string of decimal digits with no leading zero |
| `MultiSelect.DecimalRoundTrip` | frontend/src/components/MultiSelectDropdown.js:41 | reading the rendered digits back gives the count |
| `MultiSelect.TriggerTextShowsCount` | frontend/src/components/MultiSelectDropdown.js:36-42 | with two or more labels the text is the count followed by " selected", and the count can be read back from it |
| `MultiSelect.TriggerTextDistinguishesCounts` | frontend/src/components/MultiSelectDropdown.js:36-42 | two different counts of two or more never show the same text |
| `MultiSelect.TriggerTextFewLabels` | frontend/src/components/MultiSelectDropdown.js:36-42 | no label shows the placeholder, one label shows that label |
| `CreateTask.TypeEntries` | frontend/src/components/CreateTask.js:43-84 | four type cards in declaration order (Collection, Transformation, Storage, Notification), each with its own configuration, no key twice |
| `CreateTask.Config` | frontend/src/components/CreateTask.js:43-84 | Collection shows only the URL section, Transformation cleaning and source, Storage source and database, Notification source and notification; every row names a function and a caption |
| `CreateTask.LambdaNameDeterminesType` | frontend/src/components/CreateTask.js:43-84 | no two types share a target function name |
| `CreateTask.ClickDatabase` | frontend/src/components/CreateTask.js:444 | a click changes the selection only to an available card, so an available selection stays available |
| `CreateTask.OnlyDynamoDbSelectable` | frontend/src/components/CreateTask.js:7-40 | a database id is available exactly when it is "dynamodb" |
| `CreateTask.EmptyDraft` | frontend/src/components/CreateTask.js:97-111 | the mount and reset draft targets the type's function, has every section empty and blank id, name, description and schedule |
| `CreateTask.SwitchType` | frontend/src/components/CreateTask.js:117-133 | after a type change the draft targets the new type's function, keeps each section the type shows, empties each it hides, always empties the database section, and keeps id, name, description and schedule |
| `CreateTask.ClickCard` | frontend/src/components/CreateTask.js:269-283 | the card's inline updater retargets the draft to the card's function, keeps each section the card shows, empties each it hides, always empties the database section, and keeps id, name, description and schedule |
| `CreateTask.ClickCardIsSwitchType` | frontend/src/components/CreateTask.js:265-283 | the card's inline updater rewrites the draft exactly as the type-change handler does |
| `CreateTask.SwitchTypeIdempotent` | frontend/src/components/CreateTask.js:121-132 | choosing the same type again changes nothing more |
| `CreateTask.SwitchTypeTwice` | frontend/src/components/CreateTask.js:121-132 | after two switches a non-database section survives only when both types show it |
| `CreateTask.StorageToStorageClearsDatabase` | frontend/src/components/CreateTask.js:127-129 | re-selecting Storage keeps the source task but erases table, partition and sort key |
| `CreateTask.SetField` | frontend/src/components/CreateTask.js:135-141 | the edited input reads back the new value, every other input keeps its own, and the task id, target function and cleaning options are untouched |
| `CreateTask.SetFieldPreservesConsistent` | frontend/src/components/CreateTask.js:135-141 | editing any rendered input keeps the draft consistent with the selected type and leaves the task id alone |
| `CreateTask.Parameters` | frontend/src/components/CreateTask.js:167-198 | each parameter key is present exactly when its section is shown and no other key appears; every value comes from its field: URL, cleaning options, source task, topic, the database type, table, partition key and sort key (omitted when blank), and the message or its default when blank |
| `CreateTask.NotificationMessage` | frontend/src/components/CreateTask.js:197 | the notification message sent is never blank |
| `CreateTask.ParametersKeysBySection` | frontend/src/components/CreateTask.js:167-198 | the key set is the union of the key groups of the shown sections |
| `CreateTask.RequiredFilledPostsNoBlank` | frontend/src/components/CreateTask.js:317-555 | a draft the browser lets through posts a non-blank URL the browser accepts, source task, table name, partition key and topic, whichever are shown |
| `CreateTask.EmptyDraftNotSubmittable` | frontend/src/components/CreateTask.js:317-325 | the draft the form resets to cannot be submitted unchanged, its name being blank |
| `CreateTask.CollectionParameters` | frontend/src/components/CreateTask.js:170-172 | a collection task posts exactly `{url}` |
| `CreateTask.StorageParameters` | frontend/src/components/CreateTask.js:180-192 | a storage task posts exactly `{source_task, database}` |
| `CreateTask.NotificationParameters` | frontend/src/components/CreateTask.js:180-198 | a notification task posts exactly `{source_task, topic_arn, message}` |
| `CreateTask.CleanOrdersExample` | frontend/src/components/CreateTask.js:175-182 | a transformation draft posts its cleaning options and source task and nothing else |
| `CreateTask.Payload` | frontend/src/components/CreateTask.js:165-207 | the payload carries the user's id or else the generated one, the draft's name, description and function, the assembled parameters, and `null` for a blank schedule |
| `CreateTask.PayloadRoundTrip` | frontend/src/components/CreateTask.js:200-207 | decoding the payload of a consistent draft gives the draft back, up to the id and the message default |
| `CreateTask.AssembleParameters` | frontend/src/components/CreateTask.js:167-198 | the step-by-step construction yields the parameters specified above |
| `CreateTask.TaskForm.constructor` | frontend/src/components/CreateTask.js:94-115 | the form mounts on Collection with DynamoDB, the empty draft, no banners, not loading |
| `CreateTask.TaskForm.HandleTypeChange` | frontend/src/components/CreateTask.js:117-133 | selects the type and applies the type switch to the draft, keeping the form invariant |
| `CreateTask.TaskForm.ClickTypeCard` | frontend/src/components/CreateTask.js:269-283 | a card click selects that card's type and rewrites the draft as a type change does |
| `CreateTask.TaskForm.HandleInputChange` | frontend/src/components/CreateTask.js:135-141 | sets one rendered field, keeping the form invariant |
| `CreateTask.TaskForm.HandleSelectChange` | frontend/src/components/CreateTask.js:143-148 | replaces the cleaning options, keeping the form invariant |
| `CreateTask.TaskForm.SelectDatabaseCard` | frontend/src/components/CreateTask.js:444 | a database click changes the selection only to an available card |
| `CreateTask.TaskForm.HandleSubmit` | frontend/src/components/CreateTask.js:158-238 | posts the payload with the generated id; on success resets the draft for the current type, shows the type's caption and calls the callback once; on failure keeps the draft and shows the backend message or the fallback; loading ends |
| `CreateTask.TaskForm.Submit` | frontend/src/components/CreateTask.js:250-610 | when the button is enabled and every rendered required input is filled (the URL with a value the browser accepts) the outcome is exactly that of `HandleSubmit`; otherwise no field changes |
| `CreateWorkflow.MakePayload` | frontend/src/components/CreateWorkflow.js:81-90 | the payload keeps the task ids in selection order and the status, uses the user's id or else the generated one, and posts `null` for a blank cron |
| `CreateWorkflow.PayloadRoundTrip` | frontend/src/components/CreateWorkflow.js:83-90 | decoding the payload gives the draft back with the id that was posted |
| `CreateWorkflow.ToggleStatus` | frontend/src/components/CreateWorkflow.js:115-120 | the status is always ACTIVE or PAUSED afterwards and differs from a status that was one of them |
| `CreateWorkflow.ToggleStatusTwice` | frontend/src/components/CreateWorkflow.js:118 | on the two statuses, toggling twice is the identity |
| `CreateWorkflow.StatusButtonsBothToggle` | frontend/src/components/CreateWorkflow.js:416-431 | both buttons toggle: "Active" while active pauses, "Paused" while paused activates |
| `CreateWorkflow.SetCron` | frontend/src/components/CreateWorkflow.js:122-127 | a quick-fill sets the cron expression and nothing else |
| `CreateWorkflow.SelectedTasks` | frontend/src/components/CreateWorkflow.js:32-35 | the preview holds exactly the tasks whose id is selected; a single task is kept exactly when its id is selected |
| `CreateWorkflow.SelectedTasksIgnoreSelectionOrder` | frontend/src/components/CreateWorkflow.js:33 | the preview depends only on which ids are selected |
| `CreateWorkflow.SelectedTasksAppend` | frontend/src/components/CreateWorkflow.js:33 | the preview follows collection order: that of two collections in a row is the first one's then the second one's, which with the one-task case fixes the preview |
| `CreateWorkflow.TaskOptions` | frontend/src/components/CreateWorkflow.js:333-336 | one dropdown option per task, in collection order, valued by its id and labelled by its name, followed by " - " and the description when that is non-empty |
| `CreateWorkflow.SetField` | frontend/src/components/CreateWorkflow.js:49-55 | the edited input reads back the new value, every other input keeps its own, and the selection and status are untouched |
| `CreateWorkflow.WorkflowForm.constructor` | frontend/src/components/CreateWorkflow.js:12-26 | mounts with no tasks, fetching, the initial ACTIVE draft and an empty preview |
| `CreateWorkflow.WorkflowForm.FetchTasks` | frontend/src/components/CreateWorkflow.js:37-47 | success stores the tasks (null as empty), failure sets the load error; fetching ends; the preview stays in step |
| `CreateWorkflow.WorkflowForm.HandleInputChange` | frontend/src/components/CreateWorkflow.js:49-55 | sets one field |
| `CreateWorkflow.WorkflowForm.HandleTaskSelectChange` | frontend/src/components/CreateWorkflow.js:57-62 | replaces the selection and keeps the preview in step |
| `CreateWorkflow.WorkflowForm.HandleStatusToggle` | frontend/src/components/CreateWorkflow.js:115-120 | toggles the status |
| `CreateWorkflow.WorkflowForm.HandleCronExample` | frontend/src/components/CreateWorkflow.js:122-127 | sets the cron expression to the example |
| `CreateWorkflow.WorkflowForm.ClearForm` | frontend/src/components/CreateWorkflow.js:460-469 | restores the initial draft and an empty preview |
| `CreateWorkflow.WorkflowForm.HandleSubmit` | frontend/src/components/CreateWorkflow.js:68-113 | an empty selection posts nothing and shows the validation message; otherwise posts the payload, and success resets the draft and calls the callback once while failure keeps the draft and shows the backend message or the fallback; loading ends, and the task list and its fetch flag are untouched |
| `CreateWorkflow.WorkflowForm.Submit` | frontend/src/components/CreateWorkflow.js:439-443 | while loading, with no tasks loaded or with a blank name nothing changes; otherwise the outcome is exactly that of `HandleSubmit` |
| `WorkflowList.RemoveWorkflow` | frontend/src/components/WorkflowList.js:62 | exactly the workflows with another id remain; a single workflow survives exactly when its id differs |
| `WorkflowList.RemoveWorkflowAppend` | frontend/src/components/WorkflowList.js:62 | the survivors keep their order: filtering two lists in a row gives the first one's survivors then the second one's, which with the one-workflow case fixes the result |
| `WorkflowList.RemoveAbsentWorkflow` | frontend/src/components/WorkflowList.js:62 | removing an id no workflow carries changes nothing |
| `WorkflowList.RemoveWorkflowCommutes` | frontend/src/components/WorkflowList.js:62 | two deletions leave the same list whichever settles first |
| `WorkflowList.FindTask` | frontend/src/components/WorkflowList.js:77 | the index found is the first task with that id; none means no task has it |
| `WorkflowList.TaskNameList` | frontend/src/components/WorkflowList.js:75-79 | one name per id, position by position |
| `WorkflowList.GetTaskNames` | frontend/src/components/WorkflowList.js:73-81 | a null or empty id list shows "No tasks", any other the joined names |
| `WorkflowList.GetTaskNamesAppend` | frontend/src/components/WorkflowList.js:75-80 | one more id appends ", " and its name |
| `WorkflowList.GetTaskNamesSingle` | frontend/src/components/WorkflowList.js:76-79 | a single id shows the first matching task's name, or the id itself when no task matches |
| `WorkflowList.WorkflowListView.constructor` | frontend/src/components/WorkflowList.js:7-11 | mounts loading, with nothing listed, nothing executing and no banner |
| `WorkflowList.WorkflowListView.FetchData` | frontend/src/components/WorkflowList.js:17-31 | success stores both lists (null as empty), failure shows the load error; loading ends |
| `WorkflowList.WorkflowListView.StartExecute` | frontend/src/components/WorkflowList.js:33-38 | adds only this id to the executing set, clears the banner and sends the call |
| `WorkflowList.WorkflowListView.SettleExecute` | frontend/src/components/WorkflowList.js:38-52 | removes only this id from the executing set whatever the outcome, and shows the response text or the error |
| `WorkflowList.WorkflowListView.HandleDelete` | frontend/src/components/WorkflowList.js:55-71 | without confirmation nothing happens; a confirmed delete sends the call, and only success removes the workflow |
| `Dashboard.CountActive` | frontend/src/components/Dashboard.js:32 | the count is zero exactly when no workflow is ACTIVE, and the total exactly when all are |
| `Dashboard.CountActiveAppend` | frontend/src/components/Dashboard.js:32 | counting adds up over concatenation |
| `Dashboard.Recent` | frontend/src/components/Dashboard.js:35-36 | at most five items, the i-th being the i-th from the end |
| `Dashboard.ComputeStats` | frontend/src/components/Dashboard.js:29-33 | totals are the collection sizes; the active count is bounded by the total and zero exactly when none is ACTIVE |
| `Dashboard.DashboardView.constructor` | frontend/src/components/Dashboard.js:6-13 | mounts with zeros, empty lists, loading |
| `Dashboard.DashboardView.FetchDashboardData` | frontend/src/components/Dashboard.js:19-42 | success derives the counts and both recent lists from the fetched collections (null as empty); failure keeps everything; loading ends |
| `Dashboard.LowerCaseActiveNotCounted` | frontend/src/components/Dashboard.js:32 | a lower-case "active" status is not counted |
| `Orchestrator.LambdaInput` | Cloud_Task_Orchestration_Platform/src/main/java/com/cloudorchestrator/service/WorkflowOrchestrator.java:92-98 | the input holds every task parameter and the `"context"` key, which carries the results so far and replaces a parameter of that name |
| `Orchestrator.FoundTasks` | Cloud_Task_Orchestration_Platform/src/main/java/com/cloudorchestrator/service/WorkflowOrchestrator.java:51-55 | a task is run exactly when one of the ids resolves to it; a single id gives its task, or nothing when no task has it |
| `Orchestrator.FoundTasksAppend` | Cloud_Task_Orchestration_Platform/src/main/java/com/cloudorchestrator/service/WorkflowOrchestrator.java:51-55 | the tasks run follow list order, once per occurrence: those of two id lists in a row are the first one's then the second one's, which with the one-id case fixes them |
| `Orchestrator.ReplayLogs` | Cloud_Task_Orchestration_Platform/src/main/java/com/cloudorchestrator/service/WorkflowOrchestrator.java:53-72 | one log entry per found task in list order, each with the task's name and the result of running it on exactly the results logged before it; the context is what the log describes |
| `Orchestrator.ReplayCalls` | Cloud_Task_Orchestration_Platform/src/main/java/com/cloudorchestrator/service/WorkflowOrchestrator.java:88-103 | one invocation per found task that names a function, in order, to that function; none for a task without one |
| `Orchestrator.ContextLastWins` | Cloud_Task_Orchestration_Platform/src/main/java/com/cloudorchestrator/service/WorkflowOrchestrator.java:64 | a name is in the context exactly when some entry carries it, with the result of the last such entry |
| `Orchestrator.NullFunctionIsNoOp` | Cloud_Task_Orchestration_Platform/src/main/java/com/cloudorchestrator/service/WorkflowOrchestrator.java:89 | a task naming no function returns "No-Op" and invokes nothing |
| `Orchestrator.ProgressJobsGrowByOneEntry` | Cloud_Task_Orchestration_Platform/src/main/java/com/cloudorchestrator/service/WorkflowOrchestrator.java:67-72 | the k-th progress save is the running job with the first k log entries |
| `Orchestrator.StopPoint` | Cloud_Task_Orchestration_Platform/src/main/java/com/cloudorchestrator/service/WorkflowOrchestrator.java:50-80 | the loop consumes every id unless an exception escapes |
| `Orchestrator.SavedPrefix` | Cloud_Task_Orchestration_Platform/src/main/java/com/cloudorchestrator/service/WorkflowOrchestrator.java:70-72 | progress saves never cover more ids than the loop went through |
| `Orchestrator.Finished` | Cloud_Task_Orchestration_Platform/src/main/java/com/cloudorchestrator/service/WorkflowOrchestrator.java:76-83 | the final job is FAILED exactly when an exception escaped and COMPLETED otherwise, with its end time and log, and keeps id, workflow and start |
| `Orchestrator.WorkflowOrchestrator.constructor` | Cloud_Task_Orchestration_Platform/src/main/java/com/cloudorchestrator/service/WorkflowOrchestrator.java:24-32 | the engine starts over the given tables and function, with no jobs, saves or calls |
| `Orchestrator.WorkflowOrchestrator.ExecuteTask` | Cloud_Task_Orchestration_Platform/src/main/java/com/cloudorchestrator/service/WorkflowOrchestrator.java:88-108 | returns "No-Op" without a call for a task naming no function; otherwise sends one call with the built input and returns its response |
| `Orchestrator.WorkflowOrchestrator.RunTasks` | Cloud_Task_Orchestration_Platform/src/main/java/com/cloudorchestrator/service/WorkflowOrchestrator.java:50-80 | the loop's log, calls and progress saves are those of the ids it went through; only the job's entry of the job table changes |
| `Orchestrator.WorkflowOrchestrator.RunWorkflow` | Cloud_Task_Orchestration_Platform/src/main/java/com/cloudorchestrator/service/WorkflowOrchestrator.java:34-86 | an unknown workflow creates no job; otherwise the job is saved RUNNING, then after each found task, then finally COMPLETED or FAILED with its end time, and the job table's entry is the final job |
| `Scheduler.DueIffFireInLastMinute` | Cloud_Task_Orchestration_Platform/src/main/java/com/cloudorchestrator/service/WorkflowScheduler.java:50-60 | with a correct `next`, a cron is due exactly when it fires after one minute ago and no later than now |
| `Scheduler.UnparsableNeverDue` | Cloud_Task_Orchestration_Platform/src/main/java/com/cloudorchestrator/service/WorkflowScheduler.java:62-65 | an expression that does not parse is never due |
| `Scheduler.ActiveSpellings` | Cloud_Task_Orchestration_Platform/src/main/java/com/cloudorchestrator/service/WorkflowScheduler.java:31 | the statuses equal to ACTIVE ignoring case are exactly the six-letter spellings with each letter in either case, the I also dotted or dotless |
| `Scheduler.NeverCandidate` | Cloud_Task_Orchestration_Platform/src/main/java/com/cloudorchestrator/service/WorkflowScheduler.java:31 | a paused workflow, one with a null status and one with a null cron are never candidates |
| `Scheduler.LowerCaseActiveIsCandidate` | Cloud_Task_Orchestration_Platform/src/main/java/com/cloudorchestrator/service/WorkflowScheduler.java:31 | a lower-case "active" workflow with a cron is a candidate |
| `Scheduler.DueWorkflows` | Cloud_Task_Orchestration_Platform/src/main/java/com/cloudorchestrator/service/WorkflowScheduler.java:30-37 | a workflow is triggered exactly when it is listed and due |
| `Scheduler.DueWorkflowsAppend` | Cloud_Task_Orchestration_Platform/src/main/java/com/cloudorchestrator/service/WorkflowScheduler.java:30 | triggers follow table order: those of a longer list extend those of its prefix |
| `Scheduler.DueWorkflowsExactlyOnce` | Cloud_Task_Orchestration_Platform/src/main/java/com/cloudorchestrator/service/WorkflowScheduler.java:30-36 | each due workflow is triggered as often as the table lists it, any other never |
| `Scheduler.ScheduleCheck` | Cloud_Task_Orchestration_Platform/src/main/java/com/cloudorchestrator/service/WorkflowScheduler.java:25-39 | the loop starts runs of exactly the due workflows' ids, in table order |

## Left out

- Rendering, CSS, icons, routing and navigation links are not modelled. So are the
  `setTimeout` calls that clear a banner after three or five seconds.
- The dropdown's open/closed state and its outside-click listener
  (frontend/src/components/MultiSelectDropdown.js:5-17, 34) are left out: they decide
  visibility only.
- HTTP calls are atomic steps. The interleaving of two requests in flight, and the state
  between a handler's `await` and its settling, are modelled only for workflow execution
  (`StartExecute`, `SettleExecute`). The wrapper in frontend/src/services/api.js is not
  part of this model.
- Id generation (`Date.now()` and `Math.random()`) and `window.confirm` are parameters.
- The controllers and the repositories' own code are not part of this model. Nor are the
  `UserProfile` and `ExecutionLog` records and the `createdAt`/`updatedAt` fields.
- Console output (`System.out`/`System.err`, `console.error`) is left out.
- `Orchestrator.WorkflowOrchestrator.RunWorkflow`: does not model several failure paths.
  An exception from the workflow lookup, the first save or the final save escapes
  `runWorkflow`; the model treats these operations as never throwing. JSON serialization
  of the function input is also taken never to fail, so the error text that
  `executeTask` would build is not modelled. A task's name is taken to be non-null.
- `Orchestrator.LambdaInput`: parameter values are kept as their rendered JSON text. The
  model does not capture that the context map is serialized into the input as a snapshot.
- `Scheduler.ScheduleCheck`: the clock is read once per check, while the source reads it
  once per candidate. Any exception other than a parse error, and the start of each run
  itself, are left out. The method returns the ids whose runs it starts.
- `Scheduler.DueIffFireInLastMinute`: instants are whole seconds; sub-second precision is
  not modelled.
- `Scheduler.ActiveSpellings`: Java's case folding is modelled only for the characters
  that fold onto the letters of ACTIVE: ASCII letters, and the dotted capital and dotless
  small i. That is exact for a comparison with "ACTIVE" and no more.
