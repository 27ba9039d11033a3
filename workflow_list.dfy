/**
 * The workflow list: the fetched workflows and tasks, the set of workflow ids whose
 * execution is in flight, deletion, and the task names shown on each card.
 */
module WorkflowList {
  import opened Wrappers
  import opened ApiRecords

  /** The banner: `{type, text}` with type '', 'success' or 'error'. */
  datatype MessageKind = Cleared | SuccessKind | ErrorKind
  datatype Message = Message(kind: MessageKind, text: string)

  const NoMessage := Message(Cleared, "")
  const LoadFailedText := "Failed to load workflows"
  const ExecutionStartedText := "Workflow execution started!"
  const ExecuteFailedText := "Failed to execute workflow"
  const DeletedText := "Workflow deleted successfully"
  const DeleteFailedText := "Failed to delete workflow"
  const NoTasksText := "No tasks"
  const NameSeparator := ", "

  /** `prev.filter(w => w.workflowId !== id)`. */
  function RemoveWorkflow(workflows: seq<WorkflowRecord>, id: string): (r: seq<WorkflowRecord>)
    ensures |r| <= |workflows|
    ensures forall w :: w in r <==> w in workflows && w.workflowId != id
    ensures |workflows| == 1 ==> r == (if workflows[0].workflowId != id then workflows else [])
  {
    if workflows == [] then []
    else
      var rest := RemoveWorkflow(workflows[1..], id);
      assert forall w :: w in workflows <==> w == workflows[0] || w in workflows[1..];
      if workflows[0].workflowId != id then [workflows[0]] + rest else rest
  }

  /** Removing an id no workflow carries leaves the list as it is. */
  lemma {:induction false} RemoveAbsentWorkflow(workflows: seq<WorkflowRecord>, id: string)
    requires forall w :: w in workflows ==> w.workflowId != id
    ensures RemoveWorkflow(workflows, id) == workflows
  {
    if workflows != [] {
      RemoveAbsentWorkflow(workflows[1..], id);
    }
  }

  /**
   * The survivors keep their order: filtering two lists one after the other gives the
   * survivors of the first followed by those of the second. With the one-workflow case this
   * fixes the result as the list with exactly the workflows carrying `id` taken out.
   */
  lemma {:induction false} RemoveWorkflowAppend(a: seq<WorkflowRecord>, b: seq<WorkflowRecord>, id: string)
    ensures RemoveWorkflow(a + b, id) == RemoveWorkflow(a, id) + RemoveWorkflow(b, id)
  {
    if a == [] {
      assert a + b == b;
    } else {
      assert (a + b)[1..] == a[1..] + b;
      RemoveWorkflowAppend(a[1..], b, id);
    }
  }

  /** Two deletions give the same list whichever settles first. */
  lemma {:induction false} RemoveWorkflowCommutes(workflows: seq<WorkflowRecord>, a: string, b: string)
    ensures RemoveWorkflow(RemoveWorkflow(workflows, a), b) == RemoveWorkflow(RemoveWorkflow(workflows, b), a)
  {
    if workflows != [] {
      RemoveWorkflowCommutes(workflows[1..], a, b);
      var w := workflows[0];
      if w.workflowId != a && w.workflowId != b {
        assert ([w] + RemoveWorkflow(workflows[1..], a))[1..] == RemoveWorkflow(workflows[1..], a);
        assert ([w] + RemoveWorkflow(workflows[1..], b))[1..] == RemoveWorkflow(workflows[1..], b);
      } else if w.workflowId != a {
        assert ([w] + RemoveWorkflow(workflows[1..], a))[1..] == RemoveWorkflow(workflows[1..], a);
      } else if w.workflowId != b {
        assert ([w] + RemoveWorkflow(workflows[1..], b))[1..] == RemoveWorkflow(workflows[1..], b);
      }
    }
  }

  /**
   * `tasks.find(t => t.taskId === id)`: the first task with that id. `Some(k)` is its index.
   */
  function FindTask(tasks: seq<TaskRecord>, id: string): (k: Option<nat>)
    ensures k.Some? ==> k.value < |tasks| && tasks[k.value].taskId == id
    ensures k.Some? ==> forall j :: 0 <= j < k.value ==> tasks[j].taskId != id
    ensures k.None? ==> forall j :: 0 <= j < |tasks| ==> tasks[j].taskId != id
  {
    if tasks == [] then None
    else if tasks[0].taskId == id then Some(0)
    else match FindTask(tasks[1..], id)
      case None => None
      case Some(j) => Some(j + 1)
  }

  /** The name shown for one id: the first matching task's name, or the id itself. */
  function TaskName(tasks: seq<TaskRecord>, id: string): string {
    match FindTask(tasks, id)
    case Some(k) => tasks[k].name
    case None => id
  }

  /** The names for a list of ids, position by position. */
  function TaskNameList(tasks: seq<TaskRecord>, ids: seq<string>): (names: seq<string>)
    ensures |names| == |ids|
    ensures forall i :: 0 <= i < |ids| ==> names[i] == TaskName(tasks, ids[i])
  {
    seq(|ids|, i requires 0 <= i < |ids| => TaskName(tasks, ids[i]))
  }

  /** `names.join(sep)`. */
  function Join(names: seq<string>, sep: string): string
    decreases |names|
  {
    if names == [] then ""
    else if |names| == 1 then names[0]
    else Join(names[..|names| - 1], sep) + sep + names[|names| - 1]
  }

  /** `getTaskNames`: 'No tasks' for a null or empty list, otherwise the joined names. */
  function GetTaskNames(tasks: seq<TaskRecord>, taskIds: Option<seq<string>>): (text: string)
    ensures taskIds.None? || taskIds.value == [] ==> text == NoTasksText
    ensures taskIds.Some? && taskIds.value != [] ==> text == Join(TaskNameList(tasks, taskIds.value), NameSeparator)
  {
    if taskIds.None? || |taskIds.value| == 0 then NoTasksText
    else Join(TaskNameList(tasks, taskIds.value), NameSeparator)
  }

  /** Appending an id appends its name after the separator. */
  lemma GetTaskNamesAppend(tasks: seq<TaskRecord>, ids: seq<string>, id: string)
    requires ids != []
    ensures GetTaskNames(tasks, Some(ids + [id]))
         == GetTaskNames(tasks, Some(ids)) + NameSeparator + TaskName(tasks, id)
  {
    var names := TaskNameList(tasks, ids + [id]);
    assert names[..|names| - 1] == TaskNameList(tasks, ids);
  }

  /**
   * A single id shows the name of the first task carrying it, or the id when no task does.
   */
  lemma GetTaskNamesSingle(tasks: seq<TaskRecord>, id: string)
    ensures (exists t :: t in tasks && t.taskId == id) ==>
      exists k :: 0 <= k < |tasks| && GetTaskNames(tasks, Some([id])) == tasks[k].name && tasks[k].taskId == id
         && forall j :: 0 <= j < k ==> tasks[j].taskId != id
    ensures (forall t :: t in tasks ==> t.taskId != id) ==> GetTaskNames(tasks, Some([id])) == id
  {
    var names := TaskNameList(tasks, [id]);
    assert GetTaskNames(tasks, Some([id])) == names[0];
  }

  /**
   * The `WorkflowList` component's state. `deleteRequests` and `executeRequests` list the ids
   * sent to the workflow service, in order.
   */
  class WorkflowListView {
    var workflows: seq<WorkflowRecord>
    var tasks: seq<TaskRecord>
    var loading: bool
    var executing: set<string>
    var message: Message
    var executeRequests: seq<string>
    var deleteRequests: seq<string>

    constructor ()
      ensures workflows == [] && tasks == [] && loading && executing == {} && message == NoMessage
      ensures executeRequests == [] && deleteRequests == []
    {
      workflows, tasks, loading, executing, message := [], [], true, {}, NoMessage;
      executeRequests, deleteRequests := [], [];
    }

    /** `fetchData` settling: both lists, or the error banner when either call fails. */
    method FetchData(response: Response<(Option<seq<WorkflowRecord>>, Option<seq<TaskRecord>>)>)
      modifies this
      ensures !loading && executing == old(executing)
      ensures response.Ok? ==>
        workflows == OrEmpty(response.data.0) && tasks == OrEmpty(response.data.1) && message == old(message)
      ensures response.Failed? ==>
        workflows == old(workflows) && tasks == old(tasks) && message == Message(ErrorKind, LoadFailedText)
      ensures executeRequests == old(executeRequests) && deleteRequests == old(deleteRequests)
    {
      match response {
        case Ok((ws, ts)) =>
          workflows := OrEmpty(ws);
          tasks := OrEmpty(ts);
        case Failed(_) =>
          message := Message(ErrorKind, LoadFailedText);
      }
      loading := false;
    }

    /**
     * `handleExecute` up to its `await`: mark `id` busy, clear the banner and send the call.
     * Only `id`'s membership changes.
     */
    method StartExecute(id: string)
      modifies this
      ensures executing == old(executing) + {id}
      ensures message == NoMessage
      ensures executeRequests == old(executeRequests) + [id]
      ensures workflows == old(workflows) && tasks == old(tasks) && loading == old(loading)
      ensures deleteRequests == old(deleteRequests)
    {
      executing := executing + {id};
      message := NoMessage;
      executeRequests := executeRequests + [id];
    }

    /**
     * `handleExecute` after its `await`: the banner shows the response body (or the default
     * text when it is empty) or the error, and `id` stops being busy whatever the outcome.
     * Only `id`'s membership changes.
     */
    method SettleExecute(id: string, response: Response<Option<string>>)
      modifies this
      ensures executing == old(executing) - {id}
      ensures response.Ok? ==> message == Message(SuccessKind, TextOr(response.data, ExecutionStartedText))
      ensures response.Failed? ==> message == Message(ErrorKind, TextOr(response.message, ExecuteFailedText))
      ensures workflows == old(workflows) && tasks == old(tasks) && loading == old(loading)
      ensures executeRequests == old(executeRequests) && deleteRequests == old(deleteRequests)
    {
      match response {
        case Ok(body) => message := Message(SuccessKind, TextOr(body, ExecutionStartedText));
        case Failed(m) => message := Message(ErrorKind, TextOr(m, ExecuteFailedText));
      }
      executing := executing - {id};
    }

    /**
     * `handleDelete`: nothing happens unless the user confirms; a confirmed delete sends the
     * call, and only a successful one drops the workflows with that id.
     */
    method HandleDelete(id: string, confirmed: bool, response: Response<()>)
      modifies this
      ensures !confirmed ==>
        workflows == old(workflows) && message == old(message) && deleteRequests == old(deleteRequests)
      ensures confirmed ==> deleteRequests == old(deleteRequests) + [id]
      ensures confirmed && response.Ok? ==>
        workflows == RemoveWorkflow(old(workflows), id) && message == Message(SuccessKind, DeletedText)
      ensures confirmed && response.Failed? ==>
        workflows == old(workflows) && message == Message(ErrorKind, TextOr(response.message, DeleteFailedText))
      ensures executing == old(executing) && tasks == old(tasks) && loading == old(loading)
      ensures executeRequests == old(executeRequests)
    {
      if !confirmed {
        return;
      }
      deleteRequests := deleteRequests + [id];
      match response {
        case Ok(_) =>
          workflows := RemoveWorkflow(workflows, id);
          message := Message(SuccessKind, DeletedText);
        case Failed(m) =>
          message := Message(ErrorKind, TextOr(m, DeleteFailedText));
      }
    }
  }

  /**
   * Two executions in flight are tracked independently: while "wf-2" is pending, "wf-1"
   * starts and settles, and "wf-2" stays busy throughout.
   */
  method IndependentExecutions(response: Response<Option<string>>)
  {
    var view := new WorkflowListView();
    view.StartExecute("wf-2");
    view.StartExecute("wf-1");
    assert view.executing == {"wf-1", "wf-2"};
    view.SettleExecute("wf-1", response);
    assert "wf-2" in view.executing && "wf-1" !in view.executing;
  }
}
