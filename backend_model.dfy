/**
 * The backend's stored records, with the fields the execution engine and the scheduler
 * read. Instants are integer seconds; a JSON parameter value is kept as its rendered text.
 */
module BackendModel {
  import opened Wrappers

  /** A JSON value of a task's `parameters` map, as rendered text. */
  type Json = string

  /** A task definition. `lambdaFunctionName`, `parameters` and the optional texts may be null. */
  datatype Task = Task(
    taskId: string,
    name: string,
    description: Option<string>,
    lambdaFunctionName: Option<string>,
    parameters: Option<map<string, Json>>,
    scheduleExpression: Option<string>)

  /** A workflow: an ordered list of task ids, a status and an optional cron expression. */
  datatype Workflow = Workflow(
    workflowId: string,
    name: string,
    description: Option<string>,
    taskIds: Option<seq<string>>,
    status: Option<string>,
    cronExpression: Option<string>)

  /** The three states a job record goes through. */
  datatype JobStatus = Running | Completed | Failed {
    /** The text stored in the record's `status` attribute. */
    function Text(): string {
      match this
      case Running => "RUNNING"
      case Completed => "COMPLETED"
      case Failed => "FAILED"
    }
  }

  /** One entry of a job's log: the map `{task: name, result: output}`. */
  datatype LogEntry = LogEntry(task: string, result: string)

  /** One execution of a workflow. `endTime` is null until the job finishes. */
  datatype JobHistory = JobHistory(
    jobId: string,
    workflowId: string,
    status: JobStatus,
    startTime: int,
    endTime: Option<int>,
    logs: seq<LogEntry>)
}
