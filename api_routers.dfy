/**
 * The task endpoints of `backend/app/api/routers.py`: create a generation
 * task, report its status, and serve its file.  The broker's answer to
 * `delay` is the input `submit`; `os.path.isabs` and `os.path.exists` are
 * the predicates `isAbs` and `onDisk`.
 */
module ApiRouters {
  import opened Strings
  import opened Values
  import opened TaskSchema
  import opened Celery

  const EmptyPrompt := "user_prompt 不能为空"
  const BrokerFailedPrefix := "任务Broker连接失败: "
  const InvalidPayload := "任务结果无效: Worker返回的数据结构与Schema不匹配"
  const NotReady := "任务未完成或不存在"
  const FailedPrefix := "任务执行失败: "
  const NoPath := "任务结果无效: 未在结果中找到 'ppt_file_path'"
  const NotAbsolute := "任务结果无效: Worker返回的路径不是绝对路径"
  const FileGone := "任务结果文件已丢失或不存在"

  /**
   * `create_task`: an empty prompt is refused with 422 whatever the broker
   * would do; otherwise a queued task is reported pending with no result,
   * and a broker failure becomes 503.
   */
  function CreateTask(userPrompt: string, submit: Submit): (r: Reply<TaskResponse>)
    ensures userPrompt == "" ==> r == HttpError(422, EmptyPrompt)
    ensures r.Ok? <==> userPrompt != "" && submit.Submitted?
    ensures r.Ok? ==> r.body == TaskResponse(submit.id, Pending, None, None)
    ensures userPrompt != "" && submit.SubmitFailed? ==>
      r.HttpError? && r.code == 503 && StartsWith(r.detail, BrokerFailedPrefix) && EndsWith(r.detail, submit.message)
    ensures userPrompt != "" && submit.SubmitFailed? ==> r == HttpError(503, BrokerFailedPrefix + submit.message)
  {
    if userPrompt == "" then HttpError(422, EmptyPrompt)
    else match submit
      case Submitted(id) => Ok(TaskResponse(id, Pending, None, None))
      case SubmitFailed(message) =>
        var detail := BrokerFailedPrefix + message;
        assert detail[..|BrokerFailedPrefix|] == BrokerFailedPrefix;
        assert detail[|detail| - |message|..] == message;
        HttpError(503, detail)
  }

  /** The status a Celery state is reported as: every state but the three named ones is a failure. */
  function StatusOf(state: string): (r: TaskStatus)
    ensures r == Pending <==> state == "PENDING"
    ensures r == Progress <==> state == "PROGRESS"
    ensures r == Success <==> state == "SUCCESS"
    ensures r == Failure <==> state != "PENDING" && state != "PROGRESS" && state != "SUCCESS"
  {
    if state == "PENDING" then Pending
    else if state == "PROGRESS" then Progress
    else if state == "SUCCESS" then Success
    else Failure
  }

  /**
   * `get_task_status`.  A result is reported only for a ready, successful
   * task whose payload validates; a payload that does not validate marks
   * the task failed, with the invalid-payload message as its info.  The
   * error is the info exactly when the task has failed, after that.
   */
  method GetTaskStatus(taskId: string, task: AsyncResult) returns (resp: TaskResponse)
    modifies task`state, task`failed, task`info
    ensures var checked := old(task.ready) && old(task.state) == "SUCCESS";
      var payload := Validate(old(task.result));
      && resp.taskId == taskId
      && resp.result == (if checked then payload else None)
      && resp.status == (if checked && payload.None? then Failure else StatusOf(old(task.state)))
      && (if checked && payload.None?
          then task.state == "FAILURE" && task.failed && task.info == InvalidPayload
          else task.state == old(task.state) && task.failed == old(task.failed) && task.info == old(task.info))
      && resp.error == (if task.failed then Some(task.info) else None)
  {
    var status := StatusOf(task.state);
    var data: Option<TaskResultData> := None;
    if task.ready && task.state == "SUCCESS" {
      data := Validate(task.result);
      if data.None? {
        status := Failure;
        task.SetState("FAILURE");
        task.SetInfo(InvalidPayload);
      }
    }
    resp := TaskResponse(taskId, status, data, if task.failed then Some(task.info) else None);
  }

  /** A finished, successful task whose result is a dict holding `ppt_file_path`. */
  predicate HasPath(task: AsyncResult)
    reads task
  {
    task.ready && !task.failed && task.result.Obj? && "ppt_file_path" in task.result.fields
  }

  /** The `ppt_file_path` of such a task. */
  function PathOf(task: AsyncResult): Value
    reads task
    requires HasPath(task)
  {
    task.result.fields["ppt_file_path"]
  }

  /**
   * `download_ppt_file_direct`: the checks in order: ready (else 404),
   * not failed (else 500), a dict result with `ppt_file_path` (else 500), a
   * non-empty absolute path (else 500), a file on disk (else 404).  The
   * file is served under its base name.  A truthy path that is not text
   * makes `os.path.isabs` raise: an unhandled 500.
   */
  function DownloadFileDirect(task: AsyncResult, isAbs: string -> bool, onDisk: string -> bool): (r: Reply<FileResponse>)
    reads task
    ensures !task.ready ==> r == HttpError(404, NotReady)
    ensures task.ready && task.failed ==> r == HttpError(500, FailedPrefix + task.info)
    ensures task.ready && !task.failed && (!task.result.Obj? || "ppt_file_path" !in task.result.fields) ==>
      r == HttpError(500, NoPath)
    ensures HasPath(task) && !PyTruthy(PathOf(task)) ==> r == HttpError(500, NotAbsolute)
    ensures HasPath(task) && PyTruthy(PathOf(task)) && !PathOf(task).Str? ==> r == HttpError(500, InternalError)
    ensures HasPath(task) && PathOf(task).Str? && PathOf(task).s != "" && !isAbs(PathOf(task).s) ==>
      r == HttpError(500, NotAbsolute)
    ensures HasPath(task) && PathOf(task).Str? && PathOf(task).s != "" && isAbs(PathOf(task).s) && !onDisk(PathOf(task).s) ==>
      r == HttpError(404, FileGone)
    ensures r.Ok? <==>
      && task.ready && !task.failed && Field(task.result, "ppt_file_path").Str?
      && var path := Field(task.result, "ppt_file_path").s; path != "" && isAbs(path) && onDisk(path)
    ensures r.Ok? ==> var path := Field(task.result, "ppt_file_path").s;
      r.body == FileResponse(path, Basename(path), PptxMediaType)
    ensures r.HttpError? ==> r.code == 404 || r.code == 500
  {
    if !task.ready then HttpError(404, NotReady)
    else if task.failed then HttpError(500, FailedPrefix + task.info)
    else if !task.result.Obj? || "ppt_file_path" !in task.result.fields then HttpError(500, NoPath)
    else
      var filePath := task.result.fields["ppt_file_path"];
      if !PyTruthy(filePath) then HttpError(500, NotAbsolute)
      else if !filePath.Str? then HttpError(500, InternalError)
      else if !isAbs(filePath.s) then HttpError(500, NotAbsolute)
      else if !onDisk(filePath.s) then HttpError(404, FileGone)
      else Ok(FileResponse(filePath.s, Basename(filePath.s), PptxMediaType))
  }
}
