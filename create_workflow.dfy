/**
 * The workflow-creation form: an ordered selection of task ids, a two-valued status, an
 * optional cron expression, and the payload posted to `POST /workflows`.
 */
module CreateWorkflow {
  import opened Wrappers
  import opened ApiRecords
  import MultiSelect

  const Active := "ACTIVE"
  const Paused := "PAUSED"

  /** `formData`. */
  datatype WorkflowDraft = WorkflowDraft(
    workflowId: string,
    name: string,
    description: string,
    taskIds: seq<string>,
    status: string,
    cronExpression: string)

  /** The draft the form mounts with, and resets to after a create or "Clear Form". */
  const InitialDraft := WorkflowDraft("", "", "", [], Active, "")

  /** `workflowPayload`; a `None` cron is posted as `null`. */
  datatype WorkflowPayload = WorkflowPayload(
    workflowId: string,
    name: string,
    description: string,
    taskIds: seq<string>,
    status: string,
    cronExpression: Option<string>)

  /** `generateWorkflowId`'s prefix; the rest of the id is time and randomness. */
  const GeneratedWorkflowIdPrefix := "wf-"

  /**
   * The payload for draft `d`: the user's workflow id or the generated one, the task ids in
   * selection order, the status unchanged, and a blank cron turned into `null`.
   */
  function MakePayload(d: WorkflowDraft, generatedId: string): (p: WorkflowPayload)
    ensures p.taskIds == d.taskIds && p.status == d.status
    ensures p.name == d.name && p.description == d.description
    ensures p.workflowId == (if d.workflowId != "" then d.workflowId else generatedId)
    ensures p.cronExpression.None? <==> d.cronExpression == ""
    ensures p.cronExpression.Some? ==> p.cronExpression.value == d.cronExpression
  {
    WorkflowPayload(
      if d.workflowId != "" then d.workflowId else generatedId,
      d.name, d.description, d.taskIds, d.status,
      if d.cronExpression == "" then None else Some(d.cronExpression))
  }

  /** Reads the draft back from a payload. */
  function DecodeDraft(p: WorkflowPayload): WorkflowDraft {
    WorkflowDraft(p.workflowId, p.name, p.description, p.taskIds, p.status, p.cronExpression.GetOr(""))
  }

  /**
   * The payload loses nothing: decoding gives back the draft, with the generated id in place
   * of a blank one.
   */
  lemma PayloadRoundTrip(d: WorkflowDraft, generatedId: string)
    ensures DecodeDraft(MakePayload(d, generatedId)) == d.(workflowId := MakePayload(d, generatedId).workflowId)
  {
  }

  /** `handleStatusToggle`: ACTIVE becomes PAUSED, anything else becomes ACTIVE. */
  function ToggleStatus(status: string): (r: string)
    ensures r == Active || r == Paused
    ensures r != status || (status != Active && status != Paused)
  {
    if status == Active then Paused else Active
  }

  /** On the two statuses the form can hold, toggling twice is the identity. */
  lemma ToggleStatusTwice(status: string)
    requires status == Active || status == Paused
    ensures ToggleStatus(ToggleStatus(status)) == status
  {
  }

  /**
   * Both status buttons call the same toggle, so pressing "Active" while active pauses the
   * workflow, and pressing "Paused" while paused activates it.
   */
  lemma StatusButtonsBothToggle()
    ensures ToggleStatus(Active) == Paused && ToggleStatus(Paused) == Active
  {
  }

  /** The quick-fill cron examples offered under the cron input. */
  const CronExamples: seq<string> := ["0 0 * * *", "0 */2 * * *", "0 9 * * 1-5", "*/15 * * * *"]

  /** `handleCronExamples`: only the cron expression changes. */
  function SetCron(d: WorkflowDraft, example: string): (r: WorkflowDraft)
    ensures r.cronExpression == example
    ensures r.(cronExpression := d.cronExpression) == d
  {
    d.(cronExpression := example)
  }

  /**
   * The `selectedTasks` effect: the tasks whose id is selected, in the order of the task
   * collection (not the order of selection).
   */
  function SelectedTasks(tasks: seq<TaskRecord>, taskIds: seq<string>): (r: seq<TaskRecord>)
    ensures |r| <= |tasks|
    ensures forall t :: t in r <==> t in tasks && t.taskId in taskIds
    ensures |tasks| == 1 ==> r == (if tasks[0].taskId in taskIds then tasks else [])
  {
    if tasks == [] then []
    else
      var rest := SelectedTasks(tasks[1..], taskIds);
      assert forall t :: t in tasks <==> t == tasks[0] || t in tasks[1..];
      if tasks[0].taskId in taskIds then [tasks[0]] + rest else rest
  }

  /** Only which ids are selected matters, not the order in which they were picked. */
  lemma {:induction false} SelectedTasksIgnoreSelectionOrder(tasks: seq<TaskRecord>, a: seq<string>, b: seq<string>)
    requires forall id :: id in a <==> id in b
    ensures SelectedTasks(tasks, a) == SelectedTasks(tasks, b)
  {
    if tasks != [] {
      SelectedTasksIgnoreSelectionOrder(tasks[1..], a, b);
    }
  }

  /**
   * The preview follows collection order: the preview of two collections one after the other
   * is the preview of the first followed by that of the second. With the one-task case this
   * fixes the preview as the selected tasks in collection order, each as often as listed.
   */
  lemma {:induction false} SelectedTasksAppend(a: seq<TaskRecord>, b: seq<TaskRecord>, taskIds: seq<string>)
    ensures SelectedTasks(a + b, taskIds) == SelectedTasks(a, taskIds) + SelectedTasks(b, taskIds)
  {
    if a == [] {
      assert a + b == b;
    } else {
      assert (a + b)[1..] == a[1..] + b;
      SelectedTasksAppend(a[1..], b, taskIds);
    }
  }

  /** The dropdown's options: one per task, valued by its id, labelled "name - description". */
  function TaskOptions(tasks: seq<TaskRecord>): (options: seq<MultiSelect.SelectOption>)
    ensures |options| == |tasks|
    ensures forall i :: 0 <= i < |tasks| ==> options[i].value == tasks[i].taskId
    ensures forall i :: 0 <= i < |tasks| && tasks[i].description == "" ==> options[i].labelText == tasks[i].name
    ensures forall i :: 0 <= i < |tasks| && tasks[i].description != "" ==>
      options[i].labelText == tasks[i].name + " - " + tasks[i].description
  {
    seq(|tasks|, i requires 0 <= i < |tasks| =>
      MultiSelect.SelectOption(tasks[i].taskId,
        tasks[i].name + (if tasks[i].description != "" then " - " + tasks[i].description else "")))
  }

  /** The text inputs of the form, by their `name` attribute. */
  datatype Field = NameField | WorkflowIdField | DescriptionField | CronField

  /** The draft field an input edits. */
  function FieldValue(d: WorkflowDraft, f: Field): string {
    match f
    case NameField => d.name
    case WorkflowIdField => d.workflowId
    case DescriptionField => d.description
    case CronField => d.cronExpression
  }

  /**
   * `handleInputChange`: the edited input reads back the new value, every other input keeps
   * its own, and the selection and status stay as they were.
   */
  function SetField(d: WorkflowDraft, f: Field, v: string): (r: WorkflowDraft)
    ensures FieldValue(r, f) == v
    ensures forall g :: g != f ==> FieldValue(r, g) == FieldValue(d, g)
    ensures r.taskIds == d.taskIds && r.status == d.status
  {
    match f
    case NameField => d.(name := v)
    case WorkflowIdField => d.(workflowId := v)
    case DescriptionField => d.(description := v)
    case CronField => d.(cronExpression := v)
  }

  const NoTaskSelectedText := "Please select at least one task"
  const CreatedText := "✨ Workflow created successfully!"
  const CreateFailedText := "❌ Failed to create workflow. Please try again."
  const LoadFailedText := "Failed to load tasks"

  /**
   * The `CreateWorkflow` component's state. `requests` lists the payloads posted to the
   * workflow service; `completions` counts calls of `onWorkflowCreated`.
   */
  class WorkflowForm {
    var tasks: seq<TaskRecord>
    var fetchingTasks: bool
    var loading: bool
    var error: string
    var success: string
    var formData: WorkflowDraft
    var selectedTasks: seq<TaskRecord>
    var requests: seq<WorkflowPayload>
    var completions: nat
    const hasCallback: bool

    /**
     * The derived preview is in step with the tasks and the selection, and the status is one
     * of the two values the toggle produces.
     */
    ghost predicate Valid()
      reads this
    {
      && selectedTasks == SelectedTasks(tasks, formData.taskIds)
      && (formData.status == Active || formData.status == Paused)
    }

    constructor (hasCallback: bool)
      ensures Valid()
      ensures tasks == [] && fetchingTasks && !loading && error == "" && success == ""
      ensures formData == InitialDraft && selectedTasks == []
      ensures requests == [] && completions == 0 && this.hasCallback == hasCallback
    {
      tasks, fetchingTasks, loading, error, success := [], true, false, "", "";
      formData, selectedTasks := InitialDraft, [];
      requests, completions := [], 0;
      this.hasCallback := hasCallback;
    }

    /** `fetchTasks` settling, followed by the `selectedTasks` effect. */
    method FetchTasks(response: Response<Option<seq<TaskRecord>>>)
      requires Valid()
      modifies this
      ensures Valid()
      ensures !fetchingTasks
      ensures response.Ok? ==> tasks == OrEmpty(response.data) && error == old(error)
      ensures response.Failed? ==> tasks == old(tasks) && error == LoadFailedText
      ensures formData == old(formData) && requests == old(requests) && completions == old(completions)
      ensures success == old(success) && loading == old(loading)
    {
      match response {
        case Ok(data) => tasks := OrEmpty(data);
        case Failed(_) => error := LoadFailedText;
      }
      fetchingTasks := false;
      selectedTasks := SelectedTasks(tasks, formData.taskIds);
    }

    /** `handleInputChange`. */
    method HandleInputChange(f: Field, v: string)
      requires Valid()
      modifies this`formData
      ensures Valid()
      ensures formData == SetField(old(formData), f, v)
    {
      formData := SetField(formData, f, v);
    }

    /** `handleTaskSelectChange` with the dropdown's new selection, followed by the effect. */
    method HandleTaskSelectChange(taskIds: seq<string>)
      requires Valid()
      modifies this`formData, this`selectedTasks
      ensures Valid()
      ensures formData == old(formData).(taskIds := taskIds)
    {
      formData := formData.(taskIds := taskIds);
      selectedTasks := SelectedTasks(tasks, formData.taskIds);
    }

    /** `handleStatusToggle`. */
    method HandleStatusToggle()
      requires Valid()
      modifies this`formData
      ensures Valid()
      ensures formData == old(formData).(status := ToggleStatus(old(formData).status))
    {
      formData := formData.(status := ToggleStatus(formData.status));
    }

    /** `handleCronExamples`. */
    method HandleCronExample(example: string)
      requires Valid()
      modifies this`formData
      ensures Valid()
      ensures formData == SetCron(old(formData), example)
    {
      formData := SetCron(formData, example);
    }

    /** "Clear Form", followed by the effect. */
    method ClearForm()
      requires Valid()
      modifies this`formData, this`selectedTasks
      ensures Valid()
      ensures formData == InitialDraft
    {
      formData := InitialDraft;
      selectedTasks := SelectedTasks(tasks, formData.taskIds);
    }

    /**
     * `handleSubmit`, with the create call's outcome as a parameter and `generatedId` the
     * value `generateWorkflowId` returns. An empty selection sets the validation error and
     * posts nothing. Otherwise the payload is posted; success resets the draft and calls
     * `onWorkflowCreated`, failure keeps the draft and shows the backend's message or the
     * fixed fallback.
     */
    method HandleSubmit(generatedId: string, outcome: Response<()>)
      requires Valid()
      modifies this
      ensures Valid()
      ensures !loading && tasks == old(tasks) && fetchingTasks == old(fetchingTasks)
      ensures old(formData).taskIds == [] ==>
        && error == NoTaskSelectedText && success == ""
        && requests == old(requests) && formData == old(formData) && completions == old(completions)
      ensures old(formData).taskIds != [] ==> requests == old(requests) + [MakePayload(old(formData), generatedId)]
      ensures old(formData).taskIds != [] && outcome.Ok? ==>
        && formData == InitialDraft && success == CreatedText && error == ""
        && completions == old(completions) + (if hasCallback then 1 else 0)
      ensures old(formData).taskIds != [] && outcome.Failed? ==>
        && formData == old(formData) && success == ""
        && error == TextOr(outcome.message, CreateFailedText)
        && completions == old(completions)
    {
      error := "";
      success := "";
      loading := true;

      if |formData.taskIds| == 0 {
        error := NoTaskSelectedText;
        loading := false;
        return;
      }

      var workflowId := if formData.workflowId != "" then formData.workflowId else generatedId;
      var payload := WorkflowPayload(workflowId, formData.name, formData.description, formData.taskIds,
                                     formData.status, if formData.cronExpression == "" then None else Some(formData.cronExpression));
      requests := requests + [payload];

      match outcome {
        case Ok(_) =>
          success := CreatedText;
          formData := InitialDraft;
          selectedTasks := SelectedTasks(tasks, formData.taskIds);
          if hasCallback {
            completions := completions + 1;
          }
        case Failed(message) =>
          error := TextOr(message, CreateFailedText);
      }
      loading := false;
    }

    /**
     * Pressing "Create Workflow": the button is disabled while loading or while there are no
     * tasks, and the browser refuses a blank name; otherwise `handleSubmit` runs.
     */
    method Submit(generatedId: string, outcome: Response<()>)
      requires Valid()
      modifies this
      ensures Valid()
      ensures tasks == old(tasks) && fetchingTasks == old(fetchingTasks)
      ensures old(loading) || old(tasks) == [] || old(formData).name == "" ==>
        && requests == old(requests) && formData == old(formData) && completions == old(completions)
        && loading == old(loading) && error == old(error) && success == old(success)
      ensures !old(loading) && old(tasks) != [] && old(formData).name != "" ==> !loading
      ensures !old(loading) && old(tasks) != [] && old(formData).name != "" && old(formData).taskIds == [] ==>
        && error == NoTaskSelectedText && success == ""
        && requests == old(requests) && formData == old(formData) && completions == old(completions)
      ensures !old(loading) && old(tasks) != [] && old(formData).name != "" && old(formData).taskIds != [] ==>
        && requests == old(requests) + [MakePayload(old(formData), generatedId)]
        && (outcome.Ok? ==>
              && formData == InitialDraft && success == CreatedText && error == ""
              && completions == old(completions) + (if hasCallback then 1 else 0))
        && (outcome.Failed? ==>
              && formData == old(formData) && success == ""
              && error == TextOr(outcome.message, CreateFailedText)
              && completions == old(completions))
    {
      if !loading && |tasks| > 0 && formData.name != "" {
        HandleSubmit(generatedId, outcome);
      }
    }
  }
}
