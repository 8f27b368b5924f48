/**
 * The task endpoints of `backend/app/routers/tasks.py`: queue an export,
 * report its status, and serve its file.  Nothing here changes the task:
 * every endpoint is a decision on what the `AsyncResult` holds.
 * `os.path.exists` is the predicate `onDisk`.
 */
module TaskRouters {
  import opened Strings
  import opened Values
  import opened TaskSchema
  import opened Celery

  const NotReady := "Task not ready"
  const TaskFailed := "Task failed"
  const NoFile := "File not found"

  /** `create_export_task`: a queued task is pending; any exception of `delay` becomes 500 with its message. */
  function CreateExportTask(submit: Submit): (r: Reply<TaskResponse>)
    ensures r.Ok? <==> submit.Submitted?
    ensures r.Ok? ==> r.body.taskId == submit.id && r.body.status == Pending && r.body.result.None? && r.body.error.None?
    ensures r.HttpError? ==> r == HttpError(500, submit.message)
  {
    match submit
    case Submitted(id) => Ok(TaskResponse(id, Pending, None, None))
    case SubmitFailed(message) => HttpError(500, message)
  }

  /** The status a Celery state is reported as: every state but SUCCESS and FAILURE is pending. */
  function StatusOf(state: string): (r: TaskStatus)
    ensures r != Progress
    ensures r == Success <==> state == "SUCCESS"
    ensures r == Failure <==> state == "FAILURE"
    ensures r == Pending <==> state != "SUCCESS" && state != "FAILURE"
  {
    if state == "SUCCESS" then Success
    else if state == "FAILURE" then Failure
    else Pending
  }

  /**
   * `get_task_status`: a ready, successful task reports its result when it
   * validates, and is reported failed with no result when it does not.
   * The error is `str(info)` exactly when the task has failed.
   */
  function GetTaskStatus(taskId: string, task: AsyncResult): (r: TaskResponse)
    reads task
    ensures r.taskId == taskId
    ensures r.result.Some? <==> task.ready && task.Successful() && Validate(task.result).Some?
    ensures r.result.Some? ==> r.result == Validate(task.result) && r.status == Success
    ensures task.ready && task.Successful() && Validate(task.result).None? ==> r.status == Failure && r.result.None?
    ensures !(task.ready && task.Successful()) ==> r.status == StatusOf(task.state)
    ensures r.error.Some? <==> task.failed
    ensures r.error.Some? ==> r.error.value == task.info
  {
    var checked := task.ready && task.Successful();
    var data := if checked then Validate(task.result) else None;
    var status := if checked && data.None? then Failure else StatusOf(task.state);
    TaskResponse(taskId, status, data, if task.failed then Some(task.info) else None)
  }

  /**
   * `download_task_file`: ready (else 404), not failed and a truthy result
   * (else 500), a truthy `ppt_file_path` naming a file on disk (else 404).
   * A truthy result that is not a dict has no `get`, and a truthy path that
   * is not text may make `os.path.exists` raise; the model answers both
   * with an unhandled 500.
   */
  function DownloadTaskFile(task: AsyncResult, onDisk: string -> bool): (r: Reply<FileResponse>)
    reads task
    ensures !task.ready ==> r == HttpError(404, NotReady)
    ensures task.ready && (task.failed || !PyTruthy(task.result)) ==> r == HttpError(500, TaskFailed)
    ensures task.ready && !task.failed && task.result.Obj? && task.result.fields != map[] && !PyTruthy(Field(task.result, "ppt_file_path")) ==>
      r == HttpError(404, NoFile)
    ensures task.ready && !task.failed && PyTruthy(task.result) && !task.result.Obj? ==> r == HttpError(500, InternalError)
    ensures (task.ready && !task.failed && task.result.Obj? && PyTruthy(Field(task.result, "ppt_file_path"))
      && !Field(task.result, "ppt_file_path").Str?) ==> r == HttpError(500, InternalError)
    ensures (task.ready && !task.failed && task.result.Obj? && Field(task.result, "ppt_file_path").Str?
      && Field(task.result, "ppt_file_path").s != "" && !onDisk(Field(task.result, "ppt_file_path").s)) ==>
      r == HttpError(404, NoFile)
    ensures r.Ok? <==>
      && task.ready && !task.failed && task.result.Obj? && Field(task.result, "ppt_file_path").Str?
      && var path := Field(task.result, "ppt_file_path").s; path != "" && onDisk(path)
    ensures r.Ok? ==> var path := Field(task.result, "ppt_file_path").s;
      r.body == FileResponse(path, Basename(path), PptxMediaType)
  {
    if !task.ready then HttpError(404, NotReady)
    else if task.failed || !PyTruthy(task.result) then HttpError(500, TaskFailed)
    else if !task.result.Obj? then HttpError(500, InternalError)
    else
      var filePath := Field(task.result, "ppt_file_path");
      if !PyTruthy(filePath) then HttpError(404, NoFile)
      else if !filePath.Str? then HttpError(500, InternalError)
      else if !onDisk(filePath.s) then HttpError(404, NoFile)
      else Ok(FileResponse(filePath.s, Basename(filePath.s), PptxMediaType))
  }
}
