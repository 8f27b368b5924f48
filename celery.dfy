/**
 * Celery's `AsyncResult`, as the task endpoints use it: the task's state,
 * whether it is ready and whether it failed, its result and its info.  The
 * broker and the result back end are not part of this model: an
 * `AsyncResult` holds what they reported.  `info` is held as the text
 * `str(info)` gives, which is the only way the endpoints read it.
 */
module Celery {
  import opened Values

  class AsyncResult {
    var state: string
    var ready: bool
    var failed: bool
    var result: Value
    var info: string

    constructor(state0: string, ready0: bool, failed0: bool, result0: Value, info0: string)
      ensures state == state0 && ready == ready0 && failed == failed0 && result == result0 && info == info0
    {
      state, ready, failed, result, info := state0, ready0, failed0, result0, info0;
    }

    /** `successful()`. */
    predicate Successful()
      reads this
    {
      state == "SUCCESS"
    }

    /** `_set_state(s)`: the state is `s`, and the task has failed exactly when `s` is "FAILURE". */
    method SetState(s: string)
      modifies this`state, this`failed
      ensures state == s && failed == (s == "FAILURE")
    {
      state := s;
      failed := s == "FAILURE";
    }

    /** `info = text`. */
    method SetInfo(text: string)
      modifies this`info
      ensures info == text
    {
      info := text;
    }
  }
}
