/**
 * The task contract of the back end: the four API statuses, the record a
 * finished export task returns, its validation, and the responses the
 * task endpoints give.  Pydantic's validation of `TaskResultData` is
 * written out for the values a task can return: `status` is required text,
 * `ppt_file_path` and `message` are optional text, other keys are ignored
 * and no other type is coerced to text.
 */
module TaskSchema {
  import opened Strings
  import opened Values

  datatype TaskStatus = Pending | Progress | Success | Failure

  /** The enum's value on the wire. */
  function Wire(s: TaskStatus): string {
    match s
    case Pending => "pending"
    case Progress => "progress"
    case Success => "success"
    case Failure => "failure"
  }

  datatype TaskResultData = TaskResultData(status: string, pptFilePath: Option<string>, message: Option<string>)

  /** An optional text field: missing or `None` is no text. */
  predicate OptionalText(v: Value) {
    v.Null? || v.Str?
  }

  function TextOrNone(v: Value): Option<string>
    requires OptionalText(v)
  {
    if v.Str? then Some(v.s) else None
  }

  const ResultKeys: set<string> := {"status", "ppt_file_path", "message"}

  /**
   * `TaskResultData.model_validate(v)`, and `TaskResultData(**v)`: no record
   * when `v` does not fit; otherwise a record that, dumped, agrees with `v`
   * on every one of its keys that `v` holds.
   */
  function Validate(v: Value): (r: Option<TaskResultData>)
    ensures r.Some? <==>
      v.Obj? && Field(v, "status").Str? && OptionalText(Field(v, "ppt_file_path")) && OptionalText(Field(v, "message"))
    ensures r.Some? ==> forall k :: k in ResultKeys && k in v.fields ==> Dump(r.value).fields[k] == v.fields[k]
    ensures r.Some? && "ppt_file_path" !in v.fields ==> r.value.pptFilePath.None?
    ensures r.Some? && "message" !in v.fields ==> r.value.message.None?
  {
    if v.Obj? && Field(v, "status").Str? && OptionalText(Field(v, "ppt_file_path")) && OptionalText(Field(v, "message")) then
      Some(TaskResultData(Field(v, "status").s, TextOrNone(Field(v, "ppt_file_path")), TextOrNone(Field(v, "message"))))
    else None
  }

  /** The record as JSON: `None` fields become `null`. */
  function Dump(d: TaskResultData): Value {
    Obj(map[
      "status" := Str(d.status),
      "ppt_file_path" := match d.pptFilePath case Some(p) => Str(p) case None => Null,
      "message" := match d.message case Some(m) => Str(m) case None => Null])
  }

  /** Validating a dumped record gives the record back. */
  lemma ValidateDump(d: TaskResultData)
    ensures Validate(Dump(d)) == Some(d)
  {
    var v := Dump(d);
    assert Field(v, "status") == Str(d.status);
  }

  datatype TaskResponse = TaskResponse(taskId: string, status: TaskStatus, result: Option<TaskResultData>, error: Option<string>)

  datatype FileResponse = FileResponse(path: string, filename: string, mediaType: string)

  /** What an endpoint answers: a body, or an `HTTPException` with its status code and detail. */
  datatype Reply<T> = Ok(body: T) | HttpError(code: nat, detail: string)

  /** What Celery's `delay` did: the id of the queued task, or the message of the exception it raised. */
  datatype Submit = Submitted(id: string) | SubmitFailed(message: string)

  const PptxMediaType := "application/vnd.openxmlformats-officedocument.presentationml.presentation"
  /** The detail FastAPI answers an exception the endpoint does not catch with. */
  const InternalError := "Internal Server Error"
}
