/**
 * The `useStream` hook: one POST whose response body is read as server-sent
 * events.  The text received is buffered, cut into frames at each blank
 * line ("\n\n"), and every complete frame of the form "data: <payload>" is
 * dispatched to the caller's `onChunk`, `onDone` and `onError` callbacks.
 *
 * The network is an input: a `Reply` says whether the request itself
 * failed, or else gives the status, the error text of a failed response,
 * the decoded chunks the reader returned and how reading ended.  The
 * callbacks are modelled by the sequence of calls they receive.
 */
module Sse {
  import opened Strings
  import opened Values

  /** How a fetch or a read can reject: an abort, or any other error with its message. */
  datatype Failure = AbortError | Error(message: string)

  datatype Reply =
    | FetchFailed(failure: Failure)
    | Response(status: int, details: string, chunks: seq<string>, end: Option<Failure>)

  /** One call of a callback; `OnChunk` receives the `text` field of the frame's JSON as it is. */
  datatype Callback = OnChunk(text: Value) | OnDone | OnError(message: string)

  const Separator := "\n\n"
  const DataPrefix := "data: "
  const DoneMark := "[DONE]"

  /** `response.ok`. */
  predicate HttpOk(status: int) {
    200 <= status < 300
  }

  function HttpErrorMessage(status: int, details: string): (m: string)
    ensures HasSub(m, IntToString(status))
  {
    var m := "HTTP error! status: " + IntToString(status) + ", details: " + details;
    assert m[20..20 + |IntToString(status)|] == IntToString(status);
    assert OccursAt(m, IntToString(status), 20);
    m
  }

  /**
   * What one complete frame makes happen.  The JSON parse is supplied by
   * the caller; a frame that does not parse, a value without a truthy
   * `text` field, and a `{error}` frame (which throws inside the inner
   * `try` and is caught there) all lead to no call at all.
   */
  function FrameCallbacks(frame: string, parse: string -> Option<Value>): (r: seq<Callback>)
    ensures |r| <= 1
    ensures r != [] ==> StartsWith(frame, DataPrefix)
    ensures r == [OnDone] <==> StartsWith(frame, DataPrefix) && Trim(frame[6..]) == DoneMark
  {
    if !StartsWith(frame, DataPrefix) then []
    else
      var data := frame[6..];
      if Trim(data) == DoneMark then [OnDone]
      else match parse(data)
        case None => []
        case Some(parsed) => if Truthy(Field(parsed, "text")) then [OnChunk(Field(parsed, "text"))] else []
  }

  /** The calls for a run of frames, frame by frame in order. */
  function FramesCallbacks(frames: seq<string>, parse: string -> Option<Value>): seq<Callback> {
    if frames == [] then []
    else FramesCallbacks(frames[..|frames| - 1], parse) + FrameCallbacks(frames[|frames| - 1], parse)
  }

  /** The complete frames in the text: every piece before the last separator. */
  function Frames(text: string): (r: seq<string>) {
    var pieces := SplitOn(text, Separator);
    pieces[..|pieces| - 1]
  }

  /** The text after the last separator, which stays in the buffer. */
  function Rest(text: string): string {
    var pieces := SplitOn(text, Separator);
    pieces[|pieces| - 1]
  }

  /** Every call a request makes, given the reply the network delivers. */
  function ReplyCallbacks(reply: Reply, parse: string -> Option<Value>): seq<Callback> {
    match reply
    case FetchFailed(AbortError) => []
    case FetchFailed(Error(m)) => [OnError(m)]
    case Response(status, details, chunks, end) =>
      if !HttpOk(status) then [OnError(HttpErrorMessage(status, details))]
      else
        FramesCallbacks(Frames(Concat(chunks)), parse)
        + match end
          case None => [OnDone]
          case Some(AbortError) => []
          case Some(Error(m)) => [OnError(m)]
  }

  lemma {:induction false} FramesCallbacksAppend(a: seq<string>, b: seq<string>, parse: string -> Option<Value>)
    ensures FramesCallbacks(a + b, parse) == FramesCallbacks(a, parse) + FramesCallbacks(b, parse)
    decreases |b|
  {
    if b == [] {
      assert a + b == a;
    } else {
      var b' := b[..|b| - 1];
      assert (a + b)[..|a + b| - 1] == a + b';
      assert (a + b)[|a + b| - 1] == b[|b| - 1];
      FramesCallbacksAppend(a, b', parse);
    }
  }

  /** No frame ever reaches `onError`, whatever it holds. */
  lemma {:induction false} FramesNeverError(frames: seq<string>, parse: string -> Option<Value>)
    ensures forall c :: c in FramesCallbacks(frames, parse) ==> !c.OnError?
    decreases |frames|
  {
    if frames != [] {
      FramesNeverError(frames[..|frames| - 1], parse);
    }
  }

  /** Appending one chunk to the text so far: the frames already complete stay complete, in front. */
  lemma StepFrames(done: seq<string>, buffer: string, chunk: string)
    requires AllCut(done, Separator)
    ensures JoinWith(done + [buffer + chunk], Separator) == JoinWith(done + [buffer], Separator) + chunk
    ensures SplitOn(JoinWith(done + [buffer + chunk], Separator), Separator)
         == done + SplitOn(buffer + chunk, Separator)
  {
    JoinExtendLast(done, buffer, chunk, Separator);
    SplitJoined(done, buffer + chunk, Separator);
  }

  lemma ConcatStep(chunks: seq<string>, i: nat)
    requires i < |chunks|
    ensures Concat(chunks[..i + 1]) == Concat(chunks[..i]) + chunks[i]
  {
    assert chunks[..i + 1][..i] == chunks[..i];
  }

  /** One turn of the read loop keeps its invariant: complete frames in front, the unfinished rest last. */
  lemma ReadStep(chunks: seq<string>, i: nat, done: seq<string>, buffer: string)
    requires i < |chunks|
    requires SplitOn(Concat(chunks[..i]), Separator) == done + [buffer]
    requires AllCut(done, Separator)
    ensures var lines := SplitOn(buffer + chunks[i], Separator);
      && SplitOn(Concat(chunks[..i + 1]), Separator) == (done + lines[..|lines| - 1]) + [lines[|lines| - 1]]
      && AllCut(done + lines[..|lines| - 1], Separator)
  {
    var lines := SplitOn(buffer + chunks[i], Separator);
    var front, last := lines[..|lines| - 1], lines[|lines| - 1];
    ConcatStep(chunks, i);
    SplitOnJoin(Concat(chunks[..i]), Separator);
    StepFrames(done, buffer, chunks[i]);
    SplitOnPieces(buffer + chunks[i], Separator);
    AllCutAppend(done, front, Separator);
    LastSplit(lines);
    AppendAssoc(done, front, [last]);
  }

  /** The inner loop: each frame's calls, in frame order. */
  method DispatchFrames(frames: seq<string>, parse: string -> Option<Value>) returns (calls: seq<Callback>)
    ensures calls == FramesCallbacks(frames, parse)
  {
    calls := [];
    for j := 0 to |frames|
      invariant calls == FramesCallbacks(frames[..j], parse)
    {
      assert frames[..j + 1][..j] == frames[..j];
      calls := calls + FrameCallbacks(frames[j], parse);
    }
    assert frames[..|frames|] == frames;
  }

  /**
   * The read loop: the chunks are appended to the buffer one by one, the
   * buffer is split at the separators, the last piece is kept and the
   * pieces before it are dispatched.  Whatever the chunk boundaries, the
   * frames dispatched are exactly the complete frames of all the text,
   * and what is left in the buffer holds no separator.
   */
  method ReadFrames(chunks: seq<string>, parse: string -> Option<Value>) returns (calls: seq<Callback>, buffer: string)
    ensures calls == FramesCallbacks(Frames(Concat(chunks)), parse)
    ensures buffer == Rest(Concat(chunks))
    ensures !HasSub(buffer, Separator)
  {
    buffer := "";
    calls := [];
    ghost var done: seq<string> := [];
    assert SplitOn("", Separator) == [""];
    var i := 0;
    while i < |chunks|
      invariant 0 <= i <= |chunks|
      invariant SplitOn(Concat(chunks[..i]), Separator) == done + [buffer]
      invariant AllCut(done, Separator)
      invariant calls == FramesCallbacks(done, parse)
    {
      var lines := SplitOn(buffer + chunks[i], Separator);
      ReadStep(chunks, i, done, buffer);
      var more := DispatchFrames(lines[..|lines| - 1], parse);
      FramesCallbacksAppend(done, lines[..|lines| - 1], parse);
      calls := calls + more;
      done := done + lines[..|lines| - 1];
      buffer := lines[|lines| - 1];
      i := i + 1;
    }
    assert chunks[..i] == chunks;
    SplitOnPieces(Concat(chunks), Separator);
  }

  /**
   * The hook's one piece of state, `abortControllerRef.current`, with each
   * controller named by the number of controllers created before it.
   */
  class StreamHook {
    var current: Option<nat>
    var created: nat
    /** The controllers `abort()` was called on, in order. */
    var aborted: seq<nat>

    constructor()
      ensures current == None && created == 0 && aborted == []
    {
      current := None;
      created := 0;
      aborted := [];
    }

    /** The start of `streamRequest`: abort the request in flight, if any, and make a new controller. */
    method Begin() returns (id: nat)
      modifies this
      ensures id == old(created) && created == old(created) + 1
      ensures current == Some(id)
      ensures aborted == if old(current).Some? then old(aborted) + [old(current).value] else old(aborted)
    {
      if current.Some? {
        aborted := aborted + [current.value];
      }
      id := created;
      created := created + 1;
      current := Some(id);
    }

    /** The rest of `streamRequest`, once the network has answered: the calls made, then the `finally`. */
    method Consume(reply: Reply, parse: string -> Option<Value>) returns (calls: seq<Callback>)
      modifies this
      ensures calls == ReplyCallbacks(reply, parse)
      ensures current == None && created == old(created) && aborted == old(aborted)
    {
      match reply {
        case FetchFailed(f) =>
          calls := if f.AbortError? then [] else [OnError(f.message)];
        case Response(status, details, chunks, end) =>
          if !HttpOk(status) {
            calls := [OnError(HttpErrorMessage(status, details))];
          } else {
            var buffer;
            calls, buffer := ReadFrames(chunks, parse);
            match end {
              case None => calls := calls + [OnDone];
              case Some(AbortError) =>
              case Some(Error(m)) => calls := calls + [OnError(m)];
            }
          }
      }
      current := None;
    }

    /** `abortStream`: abort the request in flight, if any, and forget its controller. */
    method AbortStream()
      modifies this
      ensures current == None && created == old(created)
      ensures aborted == if old(current).Some? then old(aborted) + [old(current).value] else old(aborted)
    {
      if current.Some? {
        aborted := aborted + [current.value];
        current := None;
      }
    }
  }

  /** Whether the request ended in an abort, before or during reading. */
  predicate Aborted(reply: Reply) {
    match reply
    case FetchFailed(f) => f.AbortError?
    case Response(status, _, _, end) => HttpOk(status) && end == Some(AbortError)
  }

  /** An aborted request never calls `onError`. */
  lemma AbortedNeverErrors(reply: Reply, parse: string -> Option<Value>)
    requires Aborted(reply)
    ensures forall c :: c in ReplyCallbacks(reply, parse) ==> !c.OnError?
  {
    if reply.Response? {
      FramesNeverError(Frames(Concat(reply.chunks)), parse);
    }
  }

  /** A non-OK status calls `onError` exactly once, with a message that names the status. */
  lemma HttpErrorOnce(status: int, details: string, chunks: seq<string>, end: Option<Failure>, parse: string -> Option<Value>)
    requires !HttpOk(status)
    ensures var calls := ReplyCallbacks(Response(status, details, chunks, end), parse);
      |calls| == 1 && calls[0].OnError? && HasSub(calls[0].message, IntToString(status))
  {
  }

  /** Text still in the buffer when the stream ends is never dispatched. */
  lemma {:induction false} UnterminatedTextIgnored(status: int, details: string, chunks: seq<string>, parse: string -> Option<Value>)
    requires HttpOk(status) && !HasSub(Concat(chunks), Separator)
    ensures ReplyCallbacks(Response(status, details, chunks, None), parse) == [OnDone]
  {
    SplitWithout(Concat(chunks), Separator);
  }

  lemma DoneFrameOnly()
    ensures Frames(Concat(["data: [DONE]\n\n"])) == ["data: [DONE]"]
  {
    var frame := "data: [DONE]";
    assert Concat(["data: [DONE]\n\n"]) == frame + Separator + "" by {
      assert ["data: [DONE]\n\n"][..0] == [];
    }
    CutWithoutHead(frame, Separator);
    SplitAfterCut(frame, Separator, "");
    assert SplitOn("", Separator) == [""];
  }

  lemma DoneFrameCalls(parse: string -> Option<Value>)
    ensures FramesCallbacks(["data: [DONE]"], parse) == [OnDone]
  {
    var d := "[DONE]";
    assert "data: [DONE]"[6..] == d;
    assert Lead(d) == 0;
    assert Trail(d) == 0;
    assert Trim(d) == d;
    assert ["data: [DONE]"][..0] == [];
  }

  /** A `[DONE]` frame calls `onDone`, reading goes on, and the end of the stream calls it again. */
  lemma DoneTwice(parse: string -> Option<Value>)
    ensures ReplyCallbacks(Response(200, "", ["data: [DONE]\n\n"], None), parse) == [OnDone, OnDone]
  {
    DoneFrameOnly();
    DoneFrameCalls(parse);
  }
}
