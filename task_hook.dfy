/**
 * The `useTask` hook: the export task the interface polls and downloads.
 * Its four `useState` fields are fields of `TaskHook`; a value the hook
 * holds is a `Value`, with `null` as `Null` (and a field missing from a
 * response read as `Null` too).  The HTTP calls are inputs: what the
 * status request answered, and whether the download request succeeded.
 * The 2000 ms interval is the `ShouldPoll` predicate: while it holds, the
 * effect keeps calling `PollTaskStatus`.
 */
module TaskHook {
  import opened Strings
  import opened Values

  const Pending := Str("pending")
  const Progress := Str("progress")
  const Success := Str("success")
  const Failure := Str("failure")
  const DownloadFailed := "下载失败"
  const DefaultStem := "presentation"
  /** The `TypeError` message of reading `.status` of a `null` response body. */
  const NullData := "Cannot read properties of null (reading 'status')"

  /** What `taskAPI.getTaskStatus` did: answered with a response body, or rejected with a message. */
  datatype StatusReply = Answered(data: Value) | Rejected(message: string)

  /**
   * The file name stem `downloadPPT` uses: the second space-separated word
   * of `result.message` when there is a non-empty one, else
   * "presentation".  A `message` that is neither text nor missing has no
   * `split` and throws: no stem.
   */
  function FileStem(result: Value): (r: Option<string>)
    ensures Field(result, "message").Null? ==> r == Some(DefaultStem)
    ensures r.None? <==> !Field(result, "message").Null? && !Field(result, "message").Str?
    ensures r.Some? ==> r.value != "" && !HasSub(r.value, " ")
    ensures r.Some? && r.value != DefaultStem ==>
      var words := SplitOn(Field(result, "message").s, " ");
      |words| > 1 && words[1] == r.value
    ensures Field(result, "message").Str? ==>
      var words := SplitOn(Field(result, "message").s, " ");
      |words| > 1 && words[1] != "" ==> r == Some(words[1])
  {
    DefaultStemIsOneWord();
    match Field(result, "message")
    case Null => Some(DefaultStem)
    case Str(m) =>
      var words := SplitOn(m, " ");
      SplitOnPieces(m, " ");
      if |words| > 1 && words[1] != "" then Some(words[1]) else Some(DefaultStem)
    case _ => None
  }

  /** A message `a b c` whose second word `b` is non-empty names the file after `b`. */
  lemma StemIsSecondWord(a: string, b: string, c: string)
    requires ' ' !in a && ' ' !in b && b != ""
    ensures FileStem(Obj(map["message" := Str(a + " " + b + " " + c)])) == Some(b)
  {
    var m := a + " " + b + " " + c;
    SecondWord(a, b, c);
    assert Field(Obj(map["message" := Str(m)]), "message") == Str(m);
  }

  /** The second piece of `a b c` is `b` when neither `a` nor `b` holds a space. */
  lemma SecondWord(a: string, b: string, c: string)
    requires ' ' !in a && ' ' !in b
    ensures var words := SplitOn(a + " " + b + " " + c, " "); |words| > 1 && words[1] == b
  {
    CutWithoutHead(a, " ");
    CutWithoutHead(b, " ");
    SplitAfterCut(b, " ", c);
    assert a + " " + b + " " + c == a + " " + (b + " " + c);
    SplitAfterCut(a, " ", b + " " + c);
  }

  lemma DefaultStemIsOneWord()
    ensures !HasSub(DefaultStem, " ")
  {
    forall j | 0 <= j < |DefaultStem| ensures !OccursAt(DefaultStem, " ", j) {
      assert DefaultStem[j..j + 1] == [DefaultStem[j]];
    }
  }

  /** The download guard: a task id and a `ppt_file_path` in the result. */
  predicate CanDownload(taskId: Value, result: Value) {
    Truthy(taskId) && Truthy(Field(result, "ppt_file_path"))
  }

  class TaskHook {
    var taskId: Value
    var status: Value
    var error: Value
    var result: Value

    constructor()
      ensures taskId == Null && status == Null && error == Null && result == Null
    {
      taskId, status, error, result := Null, Null, Null, Null;
    }

    /** The effect's condition: a task id, and a status that is neither success nor failure. */
    predicate ShouldPoll()
      reads this
    {
      Truthy(taskId) && status != Success && status != Failure
    }

    /** `startExportPolling(id)`: a falsy id is ignored; otherwise a fresh pending task. */
    method StartExportPolling(newTaskId: Value)
      modifies this
      ensures !Truthy(newTaskId) ==>
        taskId == old(taskId) && status == old(status) && error == old(error) && result == old(result)
      ensures Truthy(newTaskId) ==>
        taskId == newTaskId && status == Pending && error == Null && result == Null && ShouldPoll()
    {
      if !Truthy(newTaskId) {
        return;
      }
      error := Null;
      result := Null;
      status := Pending;
      taskId := newTaskId;
    }

    /**
     * `pollTaskStatus`: nothing without a task id.  An answer's `status`,
     * `error` and `result` are copied as they are; a rejected request, or a
     * `null` body (whose `.status` throws), records the message and fails
     * the task.
     */
    method PollTaskStatus(reply: StatusReply)
      modifies this
      ensures taskId == old(taskId)
      ensures !Truthy(taskId) ==> status == old(status) && error == old(error) && result == old(result)
      ensures Truthy(taskId) && reply.Answered? && !reply.data.Null? ==>
        && status == Field(reply.data, "status") && error == Field(reply.data, "error")
        && result == Field(reply.data, "result")
      ensures Truthy(taskId) && reply.Rejected? ==>
        status == Failure && error == Str(reply.message) && result == old(result)
      ensures Truthy(taskId) && reply.Answered? && reply.data.Null? ==>
        status == Failure && error == Str(NullData) && result == old(result)
      ensures Truthy(taskId) && !(reply.Answered? && !reply.data.Null?) ==> !ShouldPoll()
    {
      if !Truthy(taskId) {
        return;
      }
      match reply
      case Answered(data) =>
        if data.Null? {
          error := Str(NullData);
          status := Failure;
        } else {
          status := Field(data, "status");
          error := Field(data, "error");
          result := Field(data, "result");
        }
      case Rejected(message) =>
        error := Str(message);
        status := Failure;
    }

    /**
     * `downloadPPT`, given whether `taskAPI.downloadPPT` succeeded.  Without
     * a task id or a file path nothing is requested and the result is
     * false.  Otherwise a successful download is saved as `<stem>.pptx`;
     * a failed one, or a stem that throws, records the download error.
     */
    method DownloadPPT(fetched: bool) returns (requested: bool, ok: bool, filename: string)
      modifies this`error
      ensures requested <==> CanDownload(taskId, result)
      ensures ok ==> requested && fetched && FileStem(result).Some? && filename == FileStem(result).value + ".pptx"
      ensures requested && fetched && FileStem(result).Some? ==> ok
      ensures ok || !requested ==> error == old(error)
      ensures requested && !ok ==> error == Str(DownloadFailed)
    {
      if !CanDownload(taskId, result) {
        return false, false, "";
      }
      requested := true;
      var stem := FileStem(result);
      if !fetched || stem.None? {
        error := Str(DownloadFailed);
        return true, false, "";
      }
      ok := true;
      filename := stem.value + ".pptx";
    }

    /** `resetTask`: every field back to `null`, so a second reset changes nothing and polling stops. */
    method ResetTask()
      modifies this
      ensures taskId == Null && status == Null && error == Null && result == Null
      ensures !ShouldPoll()
    {
      taskId := Null;
      status := Null;
      error := Null;
      result := Null;
    }
  }
}
