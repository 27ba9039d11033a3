/**
 * The objects the console receives from the task and workflow endpoints, reduced to the
 * fields the views read, and the shape of one HTTP call's outcome.
 */
module ApiRecords {
  import opened Wrappers

  /** A task as listed by `GET /tasks`. */
  datatype TaskRecord = TaskRecord(taskId: string, name: string, description: string, lambdaFunctionName: string)

  /** A workflow as listed by `GET /workflows`; `status`, `taskIds` and `cronExpression` may be null. */
  datatype WorkflowRecord = WorkflowRecord(
    workflowId: string,
    name: string,
    description: string,
    status: Option<string>,
    taskIds: Option<seq<string>>,
    cronExpression: Option<string>)

  /**
   * The outcome of one awaited HTTP call: the response body, or a rejection that may carry
   * the backend's `err.response.data.message`.
   */
  datatype Response<T> = Ok(data: T) | Failed(message: Option<string>)

  /** `response.data || []`: a missing collection reads as empty. */
  function OrEmpty<T>(data: Option<seq<T>>): (s: seq<T>)
    ensures data.None? ==> s == []
    ensures data.Some? ==> s == data.value
  {
    data.GetOr([])
  }

  /**
   * `text || fallback` on an optional string: JavaScript treats both a missing value and the
   * empty string as false, so either gives the fallback.
   */
  function TextOr(text: Option<string>, fallback: string): (r: string)
    ensures text.Some? && text.value != "" ==> r == text.value
    ensures text.None? || text.value == "" ==> r == fallback
    ensures fallback != "" ==> r != ""
  {
    if text.Some? && text.value != "" then text.value else fallback
  }
}
