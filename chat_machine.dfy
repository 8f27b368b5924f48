/**
 * The `useChatMachine` hook: a reducer over the conversation state and the
 * action callbacks, each of which issues a fixed sequence of dispatches.
 * The hook's `stateRef` is taken to hold the latest state whenever a
 * callback reads it.  A stream request is the `Sse` model: the callbacks a
 * reply produces are folded into the state in the order they are made.
 */
module ChatMachine {
  import opened Strings
  import opened Values
  import opened Conversation
  import Sse

  datatype State = State(
    phase: Phase,
    messages: seq<Message>,
    currentSlides: seq<Value>,
    isLoading: bool,
    error: Option<string>,
    sessionId: string)

  datatype Action =
    | InitSession(id: string)
    | SetLoading(loading: bool)
    | SetError(message: string)
    | AddUserMsg(text: string)
    | AddAiPlaceholder
    | StreamUpdate(payload: string)
    | SetPhase(to: Phase)
    | SetSlides(slides: seq<Value>)
    | Reset
    | Unknown(name: string)

  const Welcome := "Welcome to ChatPPT. Tell me a topic to begin."

  const Initial := State(Outline, [Message(System, Welcome)], [], false, None, "")

  /** `chatReducer`. */
  function Reduce(s: State, a: Action): State {
    match a
    case InitSession(id) => s.(sessionId := id)
    case SetLoading(b) => s.(isLoading := b, error := None)
    case SetError(m) => s.(isLoading := false, error := Some(m))
    case AddUserMsg(t) => s.(messages := s.messages + [Message(User, t)])
    case AddAiPlaceholder => s.(messages := s.messages + [Message(Assistant, "")])
    case StreamUpdate(p) =>
      if s.messages != [] && s.messages[|s.messages| - 1].role == Assistant
      then s.(messages := AppendToLast(s.messages, p))
      else s
    case SetPhase(p) => s.(phase := p)
    case SetSlides(slides) => s.(currentSlides := slides)
    case Reset => Initial.(sessionId := s.sessionId)
    case Unknown(_) => s
  }

  /** The reducer's effect on the actions the callbacks dispatch, one equation each. */
  lemma ReduceSteps(t: State, b: bool, m: string, text: string, p: Phase, slides: seq<Value>)
    ensures Reduce(t, SetLoading(b)) == t.(isLoading := b, error := None)
    ensures Reduce(t, SetError(m)) == t.(isLoading := false, error := Some(m))
    ensures Reduce(t, AddUserMsg(text)) == t.(messages := t.messages + [Message(User, text)])
    ensures Reduce(t, SetPhase(p)) == t.(phase := p)
    ensures Reduce(t, SetSlides(slides)) == t.(currentSlides := slides)
  {
  }

  /** Dispatching actions one after the other. */
  function ReduceAll(s: State, actions: seq<Action>): State
    decreases |actions|
  {
    if actions == [] then s else ReduceAll(Reduce(s, actions[0]), actions[1..])
  }

  /** `RESET` gives the initial state, keeping only the session id; a second `RESET` changes nothing. */
  lemma ResetKeepsSession(s: State)
    ensures Reduce(s, Reset) == Initial.(sessionId := s.sessionId)
    ensures Reduce(Reduce(s, Reset), Reset) == Reduce(s, Reset)
  {
  }

  /**
   * `STREAM_UPDATE` grows the last message when it is the assistant's and
   * leaves every message as it was otherwise; nothing else changes.
   */
  lemma StreamUpdateOnlyAssistant(s: State, p: string)
    ensures var r := Reduce(s, StreamUpdate(p));
      && r.(messages := s.messages) == s
      && (if s.messages != [] && s.messages[|s.messages| - 1].role == Assistant
          then LastGrew(s.messages, r.messages, p)
          else r.messages == s.messages)
  {
  }

  /** `SET_LOADING` always clears the error, `SET_ERROR` always stops loading, and an unknown action is ignored. */
  lemma LoadingAndErrorFlags(s: State, b: bool, m: string, name: string)
    ensures Reduce(s, SetLoading(b)).error == None && Reduce(s, SetLoading(b)).isLoading == b
    ensures Reduce(s, SetError(m)).isLoading == false && Reduce(s, SetError(m)).error == Some(m)
    ensures Reduce(s, Unknown(name)) == s
  {
  }

  /** No action of the reducer empties the message list. */
  lemma {:induction false} MessagesNeverEmpty(s: State, actions: seq<Action>)
    requires s.messages != []
    ensures ReduceAll(s, actions).messages != []
    decreases |actions|
  {
    if actions != [] {
      MessagesNeverEmpty(Reduce(s, actions[0]), actions[1..]);
    }
  }

  /** The fence-free, trimmed text `extractJSON` searches. */
  function Unfenced(raw: string): string {
    Trim(ReplaceAll(ReplaceAll(raw, "```json", ""), Fence, ""))
  }

  lemma UnfencedHasNoFence(raw: string)
    ensures !HasSub(Unfenced(raw), Fence)
  {
    var x := ReplaceAll(ReplaceAll(raw, "```json", ""), Fence, "");
    NoFenceAfterDelete(ReplaceAll(raw, "```json", ""));
    SliceKeepsAbsence(x, Fence, Lead(x), Lead(x) + |Trim(x)|);
  }

  /** The text from the earliest bracket on, or all of it when it holds no bracket. */
  function CutAtBracket(clean: string): (r: string)
    ensures EndsWith(clean, r)
    ensures ('{' in clean || '[' in clean) ==>
      && r != [] && (r[0] == '{' || r[0] == '[')
      && '{' !in clean[..|clean| - |r|] && '[' !in clean[..|clean| - |r|]
    ensures '{' !in clean && '[' !in clean ==> r == clean
    ensures !HasSub(clean, Fence) ==> !HasSub(r, Fence)
  {
    var start := FirstOfEither(clean, '{', '[');
    if start != -1 then
      AbsenceInSlice(clean, Fence, start, |clean|);
      assert clean[start..|clean|] == clean[start..];
      assert clean[..|clean| - |clean[start..]|] == clean[..start];
      clean[start..]
    else
      clean
  }

  /**
   * This hook's `extractJSON`: nothing for empty text; otherwise the code
   * fences are removed and the text trimmed first, and the result is cut
   * at the earliest bracket when there is one (see `CutAtBracket`), so no
   * code fence is ever left in it.
   */
  function ExtractJSON(raw: string): (r: MaybeText)
    ensures r.Absent? <==> raw == ""
  {
    if raw == "" then Absent else Present(CutAtBracket(Unfenced(raw)))
  }

  /**
   * What `extractJSON` returns for non-empty text: no code fence is left,
   * it ends the cleaned text, it starts at the earliest bracket when the
   * cleaned text has one, and it is all of the cleaned text otherwise.
   */
  lemma ExtractJSONShape(raw: string)
    requires raw != ""
    ensures var r := ExtractJSON(raw).text; var clean := Unfenced(raw);
      && !HasSub(r, Fence)
      && EndsWith(clean, r)
      && (('{' in clean || '[' in clean) ==>
          && r != [] && (r[0] == '{' || r[0] == '[')
          && '{' !in clean[..|clean| - |r|] && '[' !in clean[..|clean| - |r|])
      && ('{' !in clean && '[' !in clean ==> r == clean)
  {
    UnfencedHasNoFence(raw);
  }

  /** What `onChunk`, `onDone` and `onError` dispatch for one callback. */
  function OnCallback(s: State, c: Sse.Callback, parse: string -> Option<Value>): State {
    match c
    case OnChunk(text) => Reduce(s, StreamUpdate(JsToString(text)))
    case OnDone => OnDoneState(s, parse)
    case OnError(m) => Reduce(Reduce(s, SetError(m)), StreamUpdate("\n[System Error]: " + m))
  }

  /**
   * The `try` block of `onDone`: the slide array the last message parses
   * to, if any.  `JSON.parse` of the `null` that `extractJSON` gives for
   * empty text is `null`, which is not an array.
   */
  function ParsedSlides(content: string, parse: string -> Option<Value>): (r: Option<seq<Value>>)
    ensures r.Some? ==> var clean := ExtractJSON(content); clean.Present? && parse(clean.text) == Some(Arr(r.value))
  {
    match ExtractJSON(content)
    case Absent => None
    case Present(clean) =>
      match parse(clean)
      case Some(Arr(slides)) => Some(slides)
      case _ => None
  }

  /** The slide list `onDone` picks up from the last message, if any. */
  function DoneSlides(s: State, parse: string -> Option<Value>): Option<seq<Value>> {
    if s.phase != Content || s.messages == [] then None
    else ParsedSlides(s.messages[|s.messages| - 1].content, parse)
  }

  /** `onDone`: stop loading; in the content phase take the parsed last message as the slide list when it is an array. */
  function OnDoneState(s: State, parse: string -> Option<Value>): State {
    var s1 := Reduce(s, SetLoading(false));
    match DoneSlides(s1, parse)
    case None => s1
    case Some(slides) => Reduce(s1, SetSlides(slides))
  }

  function OnCallbacks(s: State, calls: seq<Sse.Callback>, parse: string -> Option<Value>): State
    decreases |calls|
  {
    if calls == [] then s else OnCallbacks(OnCallback(s, calls[0], parse), calls[1..], parse)
  }

  /** The request `sendMessage` posts; `current_slides` is left out of the JSON unless in the content phase. */
  function RequestFor(s: State, text: string): (r: Request)
    ensures r.endpoint == OutlineEndpoint <==> s.phase == Outline
    ensures r.body.Obj? && ("current_slides" in r.body.fields <==> s.phase == Content)
    ensures s.phase == Content ==> r.body.fields["current_slides"] == Arr(s.currentSlides)
    ensures r.body.Obj? && Prop(r.body, "user_message") == Some(Str(text))
  {
    var common := map["session_id" := Str(s.sessionId), "user_message" := Str(text)];
    Request(
      if s.phase == Outline then OutlineEndpoint else ContentEndpoint,
      Obj(if s.phase == Content then common["current_slides" := Arr(s.currentSlides)] else common))
  }

  /** The dispatches `sendMessage` makes before the request goes out. */
  function Prologue(s: State, text: string): State {
    ReduceAll(s, [AddUserMsg(text), AddAiPlaceholder, SetLoading(true)])
  }

  /**
   * `sendMessage(text)`: nothing for blank text; otherwise the prologue,
   * the request, and the callbacks folded over the state once `reply`
   * arrives.
   */
  function SendMessage(s: State, text: string, reply: Sse.Reply, parse: string -> Option<Value>): (r: (Option<Request>, State))
    ensures Trim(text) == "" ==> r == (None, s)
  {
    if Trim(text) == "" then (None, s)
    else (Some(RequestFor(s, text)), OnCallbacks(Prologue(s, text), Sse.ReplyCallbacks(reply, parse), parse))
  }

  lemma PrologueEffect(s: State, text: string)
    ensures var p := Prologue(s, text);
      && p.messages == s.messages + [Message(User, text), Message(Assistant, "")]
      && p.isLoading && p.error == None
      && p.phase == s.phase && p.currentSlides == s.currentSlides && p.sessionId == s.sessionId
  {
    var s1 := Reduce(s, AddUserMsg(text));
    var s2 := Reduce(s1, AddAiPlaceholder);
    assert ReduceAll(s, [AddUserMsg(text), AddAiPlaceholder, SetLoading(true)])
        == ReduceAll(s1, [AddAiPlaceholder, SetLoading(true)]);
    assert ReduceAll(s1, [AddAiPlaceholder, SetLoading(true)]) == ReduceAll(s2, [SetLoading(true)]);
  }

  lemma DoneStateIs(s: State, parse: string -> Option<Value>)
    ensures OnDoneState(s, parse)
      == match DoneSlides(s, parse)
         case None => s.(isLoading := false, error := None)
         case Some(slides) => s.(isLoading := false, error := None, currentSlides := slides)
  {
    var s1 := s.(isLoading := false, error := None);
    ReduceSteps(s, false, "", "", s.phase, s.currentSlides);
    var p := DoneSlides(s, parse);
    if p.Some? {
      ReduceSteps(s1, false, "", "", s.phase, p.value);
    }
  }

  /**
   * On completion the slides change only in the content phase, and only
   * to an array the last message parses to.
   */
  lemma DoneReplacesSlidesOnlyInContent(s: State, parse: string -> Option<Value>)
    ensures var r := OnDoneState(s, parse);
      && !r.isLoading && r.error == None
      && r.messages == s.messages && r.phase == s.phase
      && (r.currentSlides == s.currentSlides
          || (s.phase == Content && s.messages != []
              && var clean := ExtractJSON(s.messages[|s.messages| - 1].content);
              clean.Present? && parse(clean.text) == Some(Arr(r.currentSlides))))
  {
    DoneStateIs(s, parse);
  }

  /** A transport error stops loading, keeps the message and appends a marker to the assistant's reply. */
  lemma ErrorAppendsMarker(s: State, m: string, parse: string -> Option<Value>)
    requires s.messages != [] && s.messages[|s.messages| - 1].role == Assistant
    ensures var r := OnCallback(s, Sse.OnError(m), parse);
      && r.error == Some(m) && !r.isLoading
      && LastGrew(s.messages, r.messages, "\n[System Error]: " + m)
  {
  }

  const OutlineError := "Failed to parse outline JSON. Please try regenerating."
  const OutlineConfirmed := "Outline confirmed. Generating content previews..."

  function TitleSlide(data: Value): Value {
    Obj(map["slide_type" := Str("title"), "title" := Field(data, "main_topic"),
            "subtitle" := FieldOr(data, "summary_topic", Str(""))])
  }

  function TwoColumnSlide(item: Value): Value {
    Obj(map["slide_type" := Str("two_column"), "title" := Field(item, "sub_topic"),
            "left_topic" := Field(item, "topic1"), "left_content" := Arr([]),
            "right_topic" := Field(item, "topic2"), "right_content" := Arr([])])
  }

  const SummarySlide := Obj(map["slide_type" := Str("content"), "title" := Str("Summary"), "content" := Arr([Str("Thank you")])])

  function TwoColumnSlides(items: seq<Value>): (r: seq<Value>)
    ensures |r| == |items|
    ensures forall i :: 0 <= i < |items| ==> r[i] == TwoColumnSlide(items[i])
  {
    if items == [] then [] else [TwoColumnSlide(items[0])] + TwoColumnSlides(items[1..])
  }

  /**
   * The slide list `confirmOutline` builds from the parsed outline, or
   * nothing when building it throws: reading a field of `null`, or an
   * `outline` that is not an array, or a `null` entry in it.  Fields read
   * from a string, number or boolean are `undefined` and do not throw.
   */
  function OutlineSlides(data: Value): (r: Option<seq<Value>>)
    ensures r.Some? <==> (&& !data.Null? && Field(data, "outline").Arr?
                          && forall i :: 0 <= i < |Field(data, "outline").items| ==> !Field(data, "outline").items[i].Null?)
  {
    if data.Null? then None
    else
      match Field(data, "outline")
      case Arr(items) =>
        if exists i :: 0 <= i < |items| && items[i].Null? then None
        else Some([TitleSlide(data)] + TwoColumnSlides(items) + [SummarySlide])
      case _ => None
  }

  /** The `key` field of each value, in order; reads the sub-topics back from the slides. */
  function FieldOfEach(vs: seq<Value>, key: string): (r: seq<Value>)
    ensures |r| == |vs| && forall i :: 0 <= i < |vs| ==> r[i] == Field(vs[i], key)
  {
    if vs == [] then [] else [Field(vs[0], key)] + FieldOfEach(vs[1..], key)
  }

  /**
   * A built slide list has the outline's length plus two: the title slide,
   * one two-column slide per entry in order carrying the entry's
   * sub-topic, and the summary slide.
   */
  lemma {:induction false} OutlineSlidesShape(data: Value)
    requires OutlineSlides(data).Some?
    ensures var slides := OutlineSlides(data).value;
      var items := Field(data, "outline").items;
      && |slides| == |items| + 2
      && slides[0] == TitleSlide(data)
      && slides[|slides| - 1] == SummarySlide
      && (forall i :: 0 <= i < |items| ==> slides[i + 1] == TwoColumnSlide(items[i]))
      && FieldOfEach(slides[1..|slides| - 1], "title") == FieldOfEach(items, "sub_topic")
  {
    var slides := OutlineSlides(data).value;
    var items := Field(data, "outline").items;
    assert slides[1..|slides| - 1] == TwoColumnSlides(items);
    forall i | 0 <= i < |items| ensures Field(TwoColumnSlide(items[i]), "title") == Field(items[i], "sub_topic") {
      assert TwoColumnSlide(items[i]).fields["title"] == Field(items[i], "sub_topic");
    }
  }

  /**
   * What `confirmOutline` parses: the outline text of the last message,
   * with no JSON found read as `null`, and nothing when parsing throws.
   */
  function OutlineData(s: State, parse: string -> Option<Value>): Option<Value>
    requires s.messages != []
  {
    match ExtractJSON(s.messages[|s.messages| - 1].content)
    case Absent => Some(Null)
    case Present(clean) => parse(clean)
  }

  /** The state after three dispatches. */
  lemma ReduceThree(s: State, a: Action, b: Action, c: Action)
    ensures ReduceAll(s, [a, b, c]) == Reduce(Reduce(Reduce(s, a), b), c)
  {
    var s1 := Reduce(s, a);
    var s2 := Reduce(s1, b);
    assert [a, b, c][0] == a && [a, b, c][1..] == [b, c];
    assert ReduceAll(s, [a, b, c]) == ReduceAll(s1, [b, c]);
    assert [b, c][0] == b && [b, c][1..] == [c];
    assert ReduceAll(s1, [b, c]) == ReduceAll(s2, [c]);
    assert [c][0] == c && [c][1..] == [];
    assert ReduceAll(s2, [c]) == ReduceAll(Reduce(s2, c), []);
  }

  /** `confirmOutline`: parse the last message and, on success, install the slides and move to the content phase. */
  function ConfirmOutline(s: State, parse: string -> Option<Value>): State {
    if s.messages == [] then Reduce(s, SetError(OutlineError))
    else
      var data := OutlineData(s, parse);
      if data.None? then Reduce(s, SetError(OutlineError))
      else match OutlineSlides(data.value)
        case None => Reduce(s, SetError(OutlineError))
        case Some(slides) => ReduceAll(s, [SetSlides(slides), SetPhase(Content), AddUserMsg(OutlineConfirmed)])
  }

  /**
   * A confirmed outline installs the slides built from it, moves to the
   * content phase and appends the confirmation; a failed one only records
   * the error and stops loading.
   */
  lemma ConfirmOutlineEffect(s: State, parse: string -> Option<Value>)
    ensures var r := ConfirmOutline(s, parse);
      if s.messages != [] && OutlineData(s, parse).Some? && OutlineSlides(OutlineData(s, parse).value).Some? then
        r == s.(currentSlides := OutlineSlides(OutlineData(s, parse).value).value, phase := Content,
                messages := s.messages + [Message(User, OutlineConfirmed)])
      else
        r == s.(isLoading := false, error := Some(OutlineError))
  {
    if s.messages != [] && OutlineData(s, parse).Some? && OutlineSlides(OutlineData(s, parse).value).Some? {
      var slides := OutlineSlides(OutlineData(s, parse).value).value;
      ReduceThree(s, SetSlides(slides), SetPhase(Content), AddUserMsg(OutlineConfirmed));
      var s1 := s.(currentSlides := slides);
      var s2 := s1.(phase := Content);
      ReduceSteps(s, false, "", "", Content, slides);
      ReduceSteps(s1, false, "", "", Content, slides);
      ReduceSteps(s2, false, "", OutlineConfirmed, Content, slides);
    } else {
      ReduceSteps(s, false, OutlineError, "", Content, []);
    }
  }

  /** `startExport`. */
  function StartExport(s: State): (r: State)
    ensures r == s.(phase := Exporting)
  {
    Reduce(s, SetPhase(Exporting))
  }

  /** `reset`: abort the stream in flight, then `RESET`. */
  method ResetAction(hook: Sse.StreamHook, s: State) returns (r: State)
    modifies hook
    ensures r == Initial.(sessionId := s.sessionId)
    ensures hook.current == None && hook.created == old(hook.created)
    ensures hook.aborted == if old(hook.current).Some? then old(hook.aborted) + [old(hook.current).value] else old(hook.aborted)
  {
    hook.AbortStream();
    r := Reduce(s, Reset);
  }

  const SessionIdKey := "chatppt_session_id"

  /** The mount effect: reuse the stored session id, or store `newId` under the key and use it. */
  function InitSessionId(storage: map<string, string>, newId: string): (r: (map<string, string>, Action))
    ensures SessionIdKey in r.0 && r.1 == InitSession(r.0[SessionIdKey])
    ensures SessionIdKey in storage && storage[SessionIdKey] != "" ==> r.0 == storage
    ensures !(SessionIdKey in storage && storage[SessionIdKey] != "") ==> r.0 == storage[SessionIdKey := newId]
  {
    if SessionIdKey in storage && storage[SessionIdKey] != "" then (storage, InitSession(storage[SessionIdKey]))
    else (storage[SessionIdKey := newId], InitSession(newId))
  }
}
