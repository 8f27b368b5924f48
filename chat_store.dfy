/**
 * The `useChatStore` zustand store: the conversation of the current
 * session, its slide list, the flags the interface shows, and the history
 * index, all kept in browser storage.
 *
 * `localStorage` is the `storage` map.  `JSON.stringify`/`JSON.parse` of
 * session records and of the history index go through the store's
 * `codec`, and `JSON.parse` of streamed or pasted text is a `parse`
 * argument.  The module-level `currentController` is the `controller`
 * field (the number of the request it belongs to), and every `abort()`
 * call is recorded in `aborted`.  Fresh session ids, `Date.now()` and the
 * answer of `window.confirm` are arguments.
 *
 * `sendMessage` is an `async` function; it is cut at its `await`s into
 * `SendMessage` (everything before the fetch), `OnRead` (one
 * `reader.read()` that returned a chunk, with the activation's `buffer`
 * passed in and handed back) and `Finish` (how the `try` ended, then the
 * `finally`).  Other actions may run between these steps, as they can in
 * the browser.
 */
module ChatStore {
  import opened Strings
  import opened Values
  import opened Conversation
  import Sse
  import PptxExporter

  const SessionPrefix := "chatppt_session_"
  const IndexKey := "chatppt_history_index"
  const NewTitle := "新对话"
  const Welcome := "欢迎！请输入主题、数据或文章，为您生成 PPT。"
  const StopMarker := "\n[已停止]"
  const EmptyPreview := "空对话"
  const RefusalMark := "\"refusal\": true"
  const NoDataAlert := "未检测到 PPT 数据"
  const BadShapeAlert := "数据格式错误"
  const ParseFailedAlert := "解析失败"
  const ExportFailedPrefix := "导出失败: "
  /** The `TypeError` message of reading `.content` of a missing last message. */
  const MissingLastMessage := "Cannot read properties of undefined (reading 'content')"

  /** One entry of the history index. */
  datatype HistoryItem = HistoryItem(id: string, title: string, time: int, preview: string)

  /** The record `saveSession` stores under `chatppt_session_<id>`. */
  datatype SessionData = SessionData(
    sessionId: string,
    title: string,
    messages: seq<Message>,
    currentSlides: seq<Value>,
    phase: Phase)

  /** `JSON.stringify` and `JSON.parse` for the two kinds of stored record. */
  datatype Codec = Codec(
    encodeSession: SessionData -> string,
    decodeSession: string -> Option<SessionData>,
    encodeIndex: seq<HistoryItem> -> string,
    decodeIndex: string -> Option<seq<HistoryItem>>)

  /**
   * The store's `extractJSON`: nothing for empty text or text with neither
   * bracket; otherwise the text from the earliest bracket on, with code
   * fences removed and trimmed.
   */
  function ExtractJSON(str: string): (r: MaybeText)
    ensures r.Absent? <==> str == "" || ('[' !in str && '{' !in str)
  {
    var start := FirstOfEither(str, '[', '{');
    if str == "" || start == -1 then Absent
    else Present(Cleaned(str[start..]))
  }

  /** `.replace(/```json/g, '').replace(/```/g, '').trim()`. */
  function Cleaned(s: string): string {
    Trim(ReplaceAll(ReplaceAll(s, "```json", ""), Fence, ""))
  }

  /** Cleaning text that starts with a bracket keeps the bracket in front and leaves no fence. */
  lemma CleanedShape(s: string)
    requires s != [] && (s[0] == '[' || s[0] == '{')
    ensures var r := Cleaned(s); r != [] && r[0] == s[0] && !HasSub(r, Fence)
  {
    var once := ReplaceAll(s, "```json", "");
    var twice := ReplaceAll(once, Fence, "");
    DeleteKeepsHead(s, "```json");
    DeleteKeepsHead(once, Fence);
    TrimKeepsHead(twice);
    NoFenceAfterDelete(once);
    AbsenceInSlice(twice, Fence, Lead(twice), Lead(twice) + |Trim(twice)|);
  }

  /** What this `extractJSON` finds starts with the earliest bracket of the text and holds no code fence. */
  lemma ExtractJSONShape(str: string)
    requires ExtractJSON(str).Present?
    ensures var r := ExtractJSON(str).text;
      && r != [] && !HasSub(r, Fence)
      && exists k :: 0 <= k < |str| && r[0] == str[k] && (str[k] == '[' || str[k] == '{')
           && '[' !in str[..k] && '{' !in str[..k]
  {
    var k := FirstOfEither(str, '[', '{');
    CleanedShape(str[k..]);
  }

  /** The history ids. */
  function Ids(list: seq<HistoryItem>): set<string> {
    set i | 0 <= i < |list| :: list[i].id
  }

  predicate UniqueIds(list: seq<HistoryItem>) {
    forall i, j :: 0 <= i < j < |list| ==> list[i].id != list[j].id
  }

  lemma IdsCons(list: seq<HistoryItem>)
    requires list != []
    ensures Ids(list) == {list[0].id} + Ids(list[1..])
  {
    forall x | x in Ids(list) ensures x in {list[0].id} + Ids(list[1..]) {
      var i :| 0 <= i < |list| && list[i].id == x;
      if i > 0 { assert list[1..][i - 1].id == x; }
    }
    forall x | x in Ids(list[1..]) ensures x in Ids(list) {
      var i :| 0 <= i < |list[1..]| && list[1..][i].id == x;
      assert list[i + 1].id == x;
    }
  }

  /** `findIndex(item => item.id === id)`. */
  function FindId(list: seq<HistoryItem>, id: string): (r: int)
    ensures -1 <= r < |list|
    ensures r == -1 <==> id !in Ids(list)
    ensures 0 <= r ==> list[r].id == id && forall k :: 0 <= k < r ==> list[k].id != id
  {
    if list == [] then -1
    else if list[0].id == id then 0
    else
      var r := FindId(list[1..], id);
      IdsCons(list);
      if r == -1 then -1 else r + 1
  }

  /**
   * The update `syncToLocalStorage` makes to the index: a known id has its
   * first entry replaced (`{...old, ...item}` is `item`, which sets every
   * field), a new id goes to the front.
   */
  function Upsert(list: seq<HistoryItem>, item: HistoryItem): (r: seq<HistoryItem>)
    ensures item.id in Ids(list) ==> |r| == |list| && item in r
    ensures item.id in Ids(list) ==> forall k :: 0 <= k < |list| && list[k].id != item.id ==> r[k] == list[k]
    ensures item.id !in Ids(list) ==> r == [item] + list
    ensures UniqueIds(list) ==> UniqueIds(r)
    ensures UniqueIds(list) && item.id in Ids(list) ==>
      forall k :: 0 <= k < |list| ==> r[k] == if list[k].id == item.id then item else list[k]
  {
    var i := FindId(list, item.id);
    if i >= 0 then
      assert list[i := item][i] == item;
      list[i := item]
    else
      assert forall k :: 0 <= k < |list| ==> list[k].id in Ids(list);
      [item] + list
  }

  /** `renameSession`'s change to the index: the first entry with `id`, if any, gets the new title. */
  function RenameFirst(list: seq<HistoryItem>, id: string, title: string): (r: seq<HistoryItem>)
    ensures |r| == |list|
    ensures forall k :: 0 <= k < |list| ==> r[k].id == list[k].id && r[k].time == list[k].time && r[k].preview == list[k].preview
    ensures forall k :: 0 <= k < |list| ==> r[k].title == if k == FindId(list, id) then title else list[k].title
    ensures UniqueIds(list) ==> UniqueIds(r)
  {
    var i := FindId(list, id);
    if i >= 0 then list[i := list[i].(title := title)] else list
  }

  /** `historyList.filter(item => item.id !== id)`. */
  function WithoutId(list: seq<HistoryItem>, id: string): (r: seq<HistoryItem>)
    ensures |r| <= |list|
    ensures forall k :: 0 <= k < |r| ==> r[k] in list && r[k].id != id
  {
    if list == [] then []
    else
      var tail := WithoutId(list[1..], id);
      if list[0].id == id then tail else [list[0]] + tail
  }

  /** Filtering removes exactly the id. */
  lemma {:induction false} WithoutIdIds(list: seq<HistoryItem>, id: string)
    ensures Ids(WithoutId(list, id)) == Ids(list) - {id}
    decreases |list|
  {
    if list != [] {
      var tail := WithoutId(list[1..], id);
      WithoutIdIds(list[1..], id);
      IdsCons(list);
      if list[0].id != id {
        IdsCons([list[0]] + tail);
        assert ([list[0]] + tail)[1..] == tail;
      }
    }
  }

  /** Filtering keeps the remaining entries in order, so unique ids stay unique. */
  lemma {:induction false} WithoutIdUnique(list: seq<HistoryItem>, id: string)
    requires UniqueIds(list)
    ensures UniqueIds(WithoutId(list, id))
    decreases |list|
  {
    if list != [] {
      var tail := WithoutId(list[1..], id);
      assert UniqueIds(list[1..]) by {
        forall i, j | 0 <= i < j < |list[1..]| ensures list[1..][i].id != list[1..][j].id {
          assert list[1..][i] == list[i + 1] && list[1..][j] == list[j + 1];
        }
      }
      WithoutIdUnique(list[1..], id);
      if list[0].id != id {
        var r := [list[0]] + tail;
        forall i, j | 0 <= i < j < |r| ensures r[i].id != r[j].id {
          if i == 0 {
            var m :| 0 <= m < |list[1..]| && list[1..][m] == tail[j - 1];
            assert list[m + 1] == tail[j - 1];
          } else {
            assert r[i] == tail[i - 1] && r[j] == tail[j - 1];
          }
        }
      }
    }
  }

  /** `a[i] = v` on an array: past the end the array grows, with holes (here `Null`) in between. */
  function SetAt(items: seq<Value>, i: nat, v: Value): (r: seq<Value>)
    ensures |r| == if i < |items| then |items| else i + 1
    ensures r[i] == v
    ensures forall k :: 0 <= k < |items| && k != i ==> r[k] == items[k]
    ensures forall k :: |items| <= k < i ==> r[k] == Null
  {
    if i < |items| then items[i := v] else items + seq(i - |items|, _ => Null) + [v]
  }

  /**
   * `updateSlide`'s change to one slide: with a sub-index and an array in
   * the field, one element of that array is set; otherwise the whole field
   * is.  A slide that is not an object makes the assignment throw: no
   * result.
   */
  function UpdatedSlide(slide: Value, field: string, value: Value, subIndex: Option<nat>): (r: Option<Value>)
    ensures r.Some? <==> slide.Obj?
    ensures r.Some? ==> r.value.Obj? && r.value.fields.Keys == slide.fields.Keys + {field}
    ensures r.Some? ==> forall k :: k in slide.fields && k != field ==> r.value.fields[k] == slide.fields[k]
    ensures r.Some? && subIndex.Some? && Field(slide, field).Arr? ==>
      var before, after := Field(slide, field).items, r.value.fields[field];
      && after.Arr? && |after.items| > subIndex.value && |after.items| >= |before|
      && after.items[subIndex.value] == value
      && forall k :: 0 <= k < |before| && k != subIndex.value ==> after.items[k] == before[k]
    ensures r.Some? && (subIndex.None? || !Field(slide, field).Arr?) ==> r.value.fields[field] == value
  {
    if !slide.Obj? then None
    else if subIndex.Some? && Field(slide, field).Arr? then
      Some(WithField(slide, field, Arr(SetAt(Field(slide, field).items, subIndex.value, value))))
    else Some(WithField(slide, field, value))
  }

  /** The request `sendMessage` posts: the outline endpoint only while drafting with no slides yet. */
  function RequestFor(phase: Phase, slides: seq<Value>, sessionId: string, text: string): (r: Request)
    ensures r.endpoint == OutlineEndpoint <==> phase == Outline && slides == []
    ensures r.endpoint == OutlineEndpoint || r.endpoint == ContentEndpoint
    ensures r.body.Obj? && ("current_slides" in r.body.fields <==> slides != [])
    ensures slides != [] ==> r.body.fields["current_slides"] == Arr(slides)
    ensures Prop(r.body, "session_id") == Some(Str(sessionId)) && Prop(r.body, "user_message") == Some(Str(text))
  {
    var common := map["session_id" := Str(sessionId), "user_message" := Str(text)];
    Request(
      if phase == Outline && |slides| == 0 then OutlineEndpoint else ContentEndpoint,
      Obj(if |slides| > 0 then common["current_slides" := Arr(slides)] else common))
  }

  /** The error a response with a status outside 200-299 throws, carrying the status. */
  function StatusFailure(status: int): (r: Option<Sse.Failure>)
    ensures r.None? <==> Sse.HttpOk(status)
    ensures r.Some? ==> r.value.Error? && HasSub(r.value.message, IntToString(status))
  {
    if Sse.HttpOk(status) then None
    else
      var m := "HTTP " + IntToString(status);
      assert OccursAt(m, IntToString(status), 5);
      Some(Sse.Error(m))
  }

  /** What the store does with one complete frame. */
  datatype Handling = Skip | Stop | Append(text: string)

  /**
   * The store's handling of a frame is `useStream`'s, except that
   * `[DONE]` breaks out of the batch and a text payload is appended (as
   * `+=` turns it into text) instead of being passed on.
   */
  function Handle(line: string, parse: string -> Option<Value>): (h: Handling)
    ensures h.Stop? <==> Sse.FrameCallbacks(line, parse) == [Sse.OnDone]
    ensures h.Skip? <==> Sse.FrameCallbacks(line, parse) == []
  {
    var c := Sse.FrameCallbacks(line, parse);
    if c == [] then Skip
    else if c[0].OnDone? then Stop
    else Append(JsToString(c[0].text))
  }

  /**
   * The text one batch of frames adds to the last message: each `text`
   * payload in order, up to the first `[DONE]` frame, which breaks out of
   * the batch.
   */
  function BatchText(lines: seq<string>, parse: string -> Option<Value>): string
    decreases |lines|
  {
    if lines == [] then ""
    else match Handle(lines[0], parse)
      case Skip => BatchText(lines[1..], parse)
      case Stop => ""
      case Append(t) => t + BatchText(lines[1..], parse)
  }

  /** One step of `BatchText`: the text of the frame at `i`, or the end of the batch at a `[DONE]` frame. */
  lemma BatchTextStep(lines: seq<string>, i: nat, parse: string -> Option<Value>)
    requires i < |lines|
    ensures BatchText(lines[i..], parse)
        == match Handle(lines[i], parse)
           case Skip => BatchText(lines[i + 1..], parse)
           case Stop => ""
           case Append(t) => t + BatchText(lines[i + 1..], parse)
  {
    assert lines[i..][1..] == lines[i + 1..];
  }

  /** Moving past a frame that does not stop the batch: its text joins what was added before. */
  lemma BatchTextAdvance(lines: seq<string>, i: nat, added: string, piece: string, parse: string -> Option<Value>)
    requires i < |lines| && added + BatchText(lines[i..], parse) == BatchText(lines, parse)
    requires (Handle(lines[i], parse) == Skip && piece == "") || Handle(lines[i], parse) == Append(piece)
    ensures (added + piece) + BatchText(lines[i + 1..], parse) == BatchText(lines, parse)
  {
    BatchTextStep(lines, i, parse);
    var later := BatchText(lines[i + 1..], parse);
    AppendEmpty(later);
    AppendEmpty(added);
    assert BatchText(lines[i..], parse) == piece + later;
    AppendAssoc(added, piece, later);
  }

  /** Whatever follows a `[DONE]` frame in the same batch is dropped. */
  lemma {:induction false} DoneDropsRestOfBatch(a: seq<string>, done: string, b: seq<string>, c: seq<string>, parse: string -> Option<Value>)
    requires Sse.FrameCallbacks(done, parse) == [Sse.OnDone]
    ensures BatchText(a + [done] + b, parse) == BatchText(a + [done] + c, parse)
    decreases |a|
  {
    if a == [] {
      assert ([done] + b)[0] == done && ([done] + c)[0] == done;
    } else {
      DoneDropsRestOfBatch(a[1..], done, b, c, parse);
      assert (a + [done] + b)[1..] == a[1..] + [done] + b;
      assert (a + [done] + c)[1..] == a[1..] + [done] + c;
    }
  }

  /** What a text chunk does to the messages: the last one grows; with none, the update throws and is swallowed. */
  function Grown(msgs: seq<Message>, extra: string): (r: seq<Message>)
    ensures msgs != [] ==> LastGrew(msgs, r, extra)
    ensures msgs == [] ==> r == []
  {
    if msgs == [] then [] else AppendToLast(msgs, extra)
  }

  lemma GrownByNothing(msgs: seq<Message>)
    ensures Grown(msgs, "") == msgs
  {
    if msgs != [] {
      var last := msgs[|msgs| - 1];
      assert last.(content := last.content + "") == last;
    }
  }

  lemma GrownTwice(msgs: seq<Message>, x: string, y: string)
    ensures Grown(Grown(msgs, x), y) == Grown(msgs, x + y)
  {
    if msgs != [] {
      var last := msgs[|msgs| - 1];
      assert last.content + x + y == last.content + (x + y);
      assert Grown(msgs, x)[..|msgs| - 1] == msgs[..|msgs| - 1];
    }
  }

  /** The controller `abort()` is called on, if there is one. */
  function Abortable(controller: Option<nat>): (r: seq<nat>)
    ensures |r| <= 1 && (r != [] <==> controller.Some?)
  {
    if controller.Some? then [controller.value] else []
  }

  class Store {
    const codec: Codec
    var sessionId: string
    var title: string
    var messages: seq<Message>
    var currentSlides: seq<Value>
    var phase: Phase
    var isLoading: bool
    var error: Option<string>
    var isRefusal: bool
    var historyList: seq<HistoryItem>
    var isToolOpen: bool
    /** `localStorage`. */
    var storage: map<string, string>
    /** `currentController`: the number of the request it would abort. */
    var controller: Option<nat>
    /** The controllers `abort()` has been called on, in order. */
    var aborted: seq<nat>
    /** How many controllers have been made; the next one gets this number. */
    var requests: nat

    /** The store's initial state, over the given storage and a fresh session id. */
    constructor(codec: Codec, storage: map<string, string>, newId: string)
      ensures this.codec == codec && this.storage == storage
      ensures sessionId == newId && title == NewTitle && messages == [Message(System, Welcome)]
      ensures currentSlides == [] && phase == Outline
      ensures !isLoading && error == None && !isRefusal && historyList == [] && !isToolOpen
      ensures controller == None && aborted == [] && requests == 0
    {
      this.codec := codec;
      this.storage := storage;
      sessionId := newId;
      title := NewTitle;
      messages := [Message(System, Welcome)];
      currentSlides := [];
      phase := Outline;
      isLoading := false;
      error := None;
      isRefusal := false;
      historyList := [];
      isToolOpen := false;
      controller := None;
      aborted := [];
      requests := 0;
    }

    /** The guard of `saveSession` and `syncToLocalStorage`: more than the welcome message, or some slides. */
    predicate Worth()
      reads this
    {
      |messages| > 1 || |currentSlides| > 0
    }

    /** The session record `saveSession` writes. */
    function Record(): (r: SessionData)
      reads this
      ensures r.sessionId == sessionId && r.messages == messages && r.currentSlides == currentSlides
    {
      SessionData(sessionId, title, messages, currentSlides, phase)
    }

    /** The preview of the index entry: the first 30 characters of the second message, if there is one. */
    function Preview(): (r: string)
      reads this
      ensures |messages| > 1 ==> |r| <= 30 && StartsWith(messages[1].content, r)
      ensures |messages| > 1 ==> |r| == if |messages[1].content| < 30 then |messages[1].content| else 30
      ensures |messages| <= 1 ==> r == EmptyPreview
    {
      if |messages| > 1 then Take(messages[1].content, 30) else EmptyPreview
    }

    /** The index entry `syncToLocalStorage` writes for the current session at time `now`. */
    function Entry(now: int): (r: HistoryItem)
      reads this
      ensures r.id == sessionId && r.title == title && r.time == now && r.preview == Preview()
    {
      HistoryItem(sessionId, title, now, Preview())
    }

    /** What a save leaves behind: the record under its key, this session's entry upserted, and the index stored. */
    predicate Saved(list: seq<HistoryItem>, store: map<string, string>, now: int)
      reads this
    {
      && historyList == Upsert(list, Entry(now))
      && storage == store[SessionPrefix + sessionId := codec.encodeSession(Record())][IndexKey := codec.encodeIndex(historyList)]
    }

    /** `if (currentController) currentController.abort()`. */
    method AbortCurrent()
      modifies this`aborted
      ensures aborted == old(aborted) + Abortable(controller)
    {
      if controller.Some? {
        aborted := aborted + [controller.value];
      }
    }

    /** `init`: a non-empty stored index that parses replaces the history list. */
    method Init()
      modifies this`historyList
      ensures var raw := if IndexKey in storage then storage[IndexKey] else "";
        historyList == if raw != "" && codec.decodeIndex(raw).Some? then codec.decodeIndex(raw).value else old(historyList)
    {
      if IndexKey in storage && storage[IndexKey] != "" {
        var decoded := codec.decodeIndex(storage[IndexKey]);
        if decoded.Some? {
          historyList := decoded.value;
        }
      }
    }

    /** `createNewSession`: abort any request (the controller itself is kept) and start a blank session. */
    method CreateNewSession(newId: string)
      modifies this`aborted, this`sessionId, this`title, this`messages, this`currentSlides, this`phase
      modifies this`isLoading, this`error, this`isRefusal, this`isToolOpen
      ensures aborted == old(aborted) + Abortable(controller)
      ensures sessionId == newId && title == NewTitle && messages == [Message(System, Welcome)]
      ensures currentSlides == [] && phase == Outline
      ensures !isLoading && error == None && !isRefusal && !isToolOpen
    {
      AbortCurrent();
      sessionId := newId;
      title := NewTitle;
      messages := [Message(System, Welcome)];
      currentSlides := [];
      phase := Outline;
      isLoading := false;
      error := None;
      isRefusal := false;
      isToolOpen := false;
    }

    /**
     * `loadSession(id)`: abort any request, then take over a stored record
     * that is present, non-empty and parses; the tool panel opens when it
     * has slides.  Anything else leaves the state as it was.
     */
    method LoadSession(id: string)
      modifies this`aborted, this`sessionId, this`title, this`messages, this`currentSlides, this`phase
      modifies this`isLoading, this`error, this`isToolOpen
      ensures aborted == old(aborted) + Abortable(controller)
      ensures var key := SessionPrefix + id;
        if key in storage && storage[key] != "" && codec.decodeSession(storage[key]).Some? then
          var d := codec.decodeSession(storage[key]).value;
          && sessionId == id && title == d.title && messages == d.messages
          && currentSlides == d.currentSlides && phase == d.phase
          && !isLoading && error == None && isToolOpen == (|d.currentSlides| > 0)
        else
          && sessionId == old(sessionId) && title == old(title) && messages == old(messages)
          && currentSlides == old(currentSlides) && phase == old(phase)
          && isLoading == old(isLoading) && error == old(error) && isToolOpen == old(isToolOpen)
    {
      AbortCurrent();
      var key := SessionPrefix + id;
      if key in storage && storage[key] != "" {
        var decoded := codec.decodeSession(storage[key]);
        if decoded.Some? {
          ShowSession(id, decoded.value);
        }
      }
    }

    /** The state updates of `loadSession` once the stored session has been read. */
    method ShowSession(id: string, d: SessionData)
      modifies this`sessionId, this`title, this`messages, this`currentSlides, this`phase
      modifies this`isLoading, this`error, this`isToolOpen
      ensures && sessionId == id && title == d.title && messages == d.messages
        && currentSlides == d.currentSlides && phase == d.phase
        && !isLoading && error == None && isToolOpen == (|d.currentSlides| > 0)
    {
      title := d.title;
      messages := d.messages;
      currentSlides := d.currentSlides;
      phase := d.phase;
      sessionId := id;
      isLoading := false;
      error := None;
      isToolOpen := |d.currentSlides| > 0;
    }

    /** `setToolOpen`. */
    method SetToolOpen(isOpen: bool)
      modifies this`isToolOpen
      ensures isToolOpen == isOpen
    {
      isToolOpen := isOpen;
    }

    /**
     * The part of `sendMessage` before the fetch.  Blank text does nothing.
     * Otherwise the title becomes the first 15 characters when at most the
     * welcome message was there, the user's text and an empty assistant
     * reply are appended, the flags are reset for a new request, the
     * previous request is aborted, and a new controller is made; the
     * result is the request to post.
     */
    method SendMessage(text: string) returns (req: Option<Request>)
      modifies this`title, this`messages, this`isLoading, this`error, this`isRefusal
      modifies this`aborted, this`controller, this`requests
      ensures Trim(text) == "" ==>
        && req == None && title == old(title) && messages == old(messages)
        && isLoading == old(isLoading) && error == old(error) && isRefusal == old(isRefusal)
        && aborted == old(aborted) && controller == old(controller) && requests == old(requests)
      ensures Trim(text) != "" ==> Began(text, req)
    {
      if Trim(text) == "" {
        return None;
      }
      req := Begin(text);
    }

    /** The effect of `sendMessage` on non-blank text, up to the fetch. */
    twostate predicate Began(text: string, new req: Option<Request>)
      reads this
    {
      && title == (if |old(messages)| <= 1 then Take(text, 15) else old(title))
      && messages == old(messages) + [Message(User, text), Message(Assistant, "")]
      && isLoading && error == None && !isRefusal
      && aborted == old(aborted) + Abortable(old(controller))
      && controller == Some(old(requests)) && requests == old(requests) + 1
      && req == Some(RequestFor(phase, currentSlides, sessionId, text))
    }

    /** The first `set` of `sendMessage`, the controller swap and the request. */
    method Begin(text: string) returns (req: Option<Request>)
      modifies this`title, this`messages, this`isLoading, this`error, this`isRefusal
      modifies this`aborted, this`controller, this`requests
      ensures Began(text, req)
    {
      if |messages| <= 1 {
        title := Take(text, 15);
      }
      messages := messages + [Message(User, text), Message(Assistant, "")];
      isLoading := true;
      error := None;
      isRefusal := false;
      AbortCurrent();
      controller := Some(requests);
      requests := requests + 1;
      req := Some(RequestFor(phase, currentSlides, sessionId, text));
    }

    /**
     * One `reader.read()` of `sendMessage` that returned `chunk`: the
     * buffer grows by it, the complete frames are handled in order until a
     * `[DONE]` frame breaks the batch, and the unfinished tail is kept.
     * Text payloads only ever grow the last message (when there is none the
     * update throws inside the inner `try` and is swallowed).
     */
    method OnRead(buffer: string, chunk: string, parse: string -> Option<Value>) returns (rest: string)
      modifies this`messages
      ensures rest == Sse.Rest(buffer + chunk) && !HasSub(rest, Sse.Separator)
      ensures messages == Grown(old(messages), BatchText(Sse.Frames(buffer + chunk), parse))
    {
      var pieces := SplitOn(buffer + chunk, Sse.Separator);
      SplitOnPieces(buffer + chunk, Sse.Separator);
      rest := pieces[|pieces| - 1];
      HandleFrames(pieces[..|pieces| - 1], parse);
    }

    /** The inner `for` loop of one read: frame by frame, until a `[DONE]` frame breaks it. */
    method HandleFrames(lines: seq<string>, parse: string -> Option<Value>)
      modifies this`messages
      ensures messages == Grown(old(messages), BatchText(lines, parse))
    {
      ghost var added := "";
      GrownByNothing(messages);
      var i := 0;
      while i < |lines|
        invariant 0 <= i <= |lines|
        invariant added + BatchText(lines[i..], parse) == BatchText(lines, parse)
        invariant messages == Grown(old(messages), added)
      {
        BatchTextStep(lines, i, parse);
        match Handle(lines[i], parse) {
          case Skip =>
            BatchTextAdvance(lines, i, added, "", parse);
          case Stop =>
            AppendEmpty(added);
            break;
          case Append(piece) =>
            if messages != [] {
              messages := AppendToLast(messages, piece);
            }
            GrownTwice(old(messages), added, piece);
            BatchTextAdvance(lines, i, added, piece, parse);
            added := added + piece;
        }
        i := i + 1;
      }
      assert added == BatchText(lines, parse) by {
        if i == |lines| {
          assert lines[i..] == [];
          AppendEmpty(added);
        }
      }
    }

    /**
     * `checkRefusal`: a refusal marker in the last message sets the flag.
     * With no messages it throws, which the result reports as `false`.
     */
    method CheckRefusal() returns (ok: bool)
      modifies this`isRefusal
      ensures ok <==> messages != []
      ensures isRefusal == (old(isRefusal) || (ok && HasSub(messages[|messages| - 1].content, RefusalMark)))
    {
      if messages == [] {
        return false;
      }
      ok := true;
      if HasSub(messages[|messages| - 1].content, RefusalMark) {
        isRefusal := true;
      }
    }

    /** `syncToLocalStorage`: upsert this session's entry and store the index, unless only the welcome is there. */
    method SyncToLocalStorage(now: int)
      modifies this`historyList, this`storage
      ensures Worth() ==>
        historyList == Upsert(old(historyList), Entry(now)) && storage == old(storage)[IndexKey := codec.encodeIndex(historyList)]
      ensures !Worth() ==> historyList == old(historyList) && storage == old(storage)
    {
      if !Worth() {
        return;
      }
      historyList := Upsert(historyList, Entry(now));
      storage := storage[IndexKey := codec.encodeIndex(historyList)];
    }

    /** `saveSession`: store the session record, then sync the index; nothing when only the welcome is there. */
    method SaveSession(now: int)
      modifies this`historyList, this`storage
      ensures Worth() ==> Saved(old(historyList), old(storage), now)
      ensures !Worth() ==> historyList == old(historyList) && storage == old(storage)
    {
      if !Worth() {
        return;
      }
      storage := storage[SessionPrefix + sessionId := codec.encodeSession(Record())];
      SyncToLocalStorage(now);
    }

    /**
     * The end of `sendMessage`.  `ending` is how the `try` block stopped:
     * `None` when the reader reported done (then `checkRefusal` runs), or
     * the failure that was thrown (a rejected fetch, `StatusFailure` of a
     * bad status, a rejected read).  An abort leaves `error` alone; any
     * other failure records its message.  Then, whatever happened, the
     * controller is dropped, loading stops and the session is saved.
     */
    method Finish(ending: Option<Sse.Failure>, now: int)
      modifies this`isRefusal, this`error, this`controller, this`isLoading, this`historyList, this`storage
      ensures controller == None && !isLoading
      ensures error == match ending
        case None => if messages == [] then Some(MissingLastMessage) else old(error)
        case Some(failure) => if failure.AbortError? then old(error) else Some(failure.message)
      ensures isRefusal == (old(isRefusal)
        || (ending.None? && messages != [] && HasSub(messages[|messages| - 1].content, RefusalMark)))
      ensures Worth() ==> Saved(old(historyList), old(storage), now)
      ensures !Worth() ==> historyList == old(historyList) && storage == old(storage)
    {
      var thrown := ending;
      if ending.None? {
        var ok := CheckRefusal();
        if !ok {
          thrown := Some(Sse.Error(MissingLastMessage));
        }
      }
      if thrown.Some? && thrown.value.Error? {
        error := Some(thrown.value.message);
      }
      controller := None;
      isLoading := false;
      SaveSession(now);
    }

    /**
     * `applyCanvas(content)`: a payload that parses to an array becomes the
     * slide list, moves to the content phase, opens the tool panel and is
     * saved; otherwise the result is the alert shown and nothing changes.
     */
    method ApplyCanvas(content: string, parse: string -> Option<Value>, now: int) returns (alert: MaybeText)
      modifies this`currentSlides, this`phase, this`isToolOpen, this`historyList, this`storage
      ensures var j := ExtractJSON(content);
        if j.Absent? || j.text == "" then alert == Present(NoDataAlert)
        else if parse(j.text).None? then alert == Present(ParseFailedAlert)
        else if !parse(j.text).value.Arr? then alert == Present(BadShapeAlert)
        else alert == Absent
      ensures alert.Present? ==>
        && currentSlides == old(currentSlides) && phase == old(phase) && isToolOpen == old(isToolOpen)
        && historyList == old(historyList) && storage == old(storage)
      ensures alert.Absent? ==>
        && Some(Arr(currentSlides)) == parse(ExtractJSON(content).text)
        && phase == Content && isToolOpen
        && (Worth() ==> Saved(old(historyList), old(storage), now))
        && (!Worth() ==> historyList == old(historyList) && storage == old(storage))
    {
      var j := ExtractJSON(content);
      if j.Absent? || j.text == "" {
        return Present(NoDataAlert);
      }
      var data := parse(j.text);
      if data.None? {
        return Present(ParseFailedAlert);
      }
      if !data.value.Arr? {
        return Present(BadShapeAlert);
      }
      currentSlides := data.value.items;
      phase := Content;
      isToolOpen := true;
      SaveSession(now);
      alert := Absent;
    }

    /**
     * `updateSlide(index, field, value, subIndex)`: only slide `index`
     * changes, as `UpdatedSlide` says, and the session is saved.  An index
     * out of range or a slide that is not an object throws before the
     * save: the result is `false` and nothing changes.
     */
    method UpdateSlide(index: int, field: string, value: Value, subIndex: Option<nat>, now: int) returns (ok: bool)
      modifies this`currentSlides, this`historyList, this`storage
      ensures ok <==> 0 <= index < |old(currentSlides)| && old(currentSlides)[index].Obj?
      ensures !ok ==> currentSlides == old(currentSlides) && historyList == old(historyList) && storage == old(storage)
      ensures ok ==>
        && |currentSlides| == |old(currentSlides)|
        && Some(currentSlides[index]) == UpdatedSlide(old(currentSlides)[index], field, value, subIndex)
        && (forall k :: 0 <= k < |currentSlides| && k != index ==> currentSlides[k] == old(currentSlides)[k])
        && (Worth() ==> Saved(old(historyList), old(storage), now))
        && (!Worth() ==> historyList == old(historyList) && storage == old(storage))
    {
      if index < 0 || index >= |currentSlides| {
        return false;
      }
      var updated := UpdatedSlide(currentSlides[index], field, value, subIndex);
      if updated.None? {
        return false;
      }
      currentSlides := currentSlides[index := updated.value];
      SaveSession(now);
      ok := true;
    }

    /**
     * `handleExport`: loading is set, `exportToPPTX(currentSlides)` runs,
     * the message of the error it rejects with is stored prefixed, and
     * loading is cleared.  Loading the export library is `loadFailure` and
     * `encodeURIComponent` is `encode`, as for the exporter.
     */
    method HandleExport(loadFailure: MaybeText, encode: string -> string) returns (outcome: PptxExporter.Outcome)
      modifies this`isLoading, this`error
      ensures !isLoading
      ensures error == if outcome.Failed? then Some(ExportFailedPrefix + outcome.message) else old(error)
      ensures currentSlides == [] ==> outcome == PptxExporter.Failed(PptxExporter.NoContent)
      ensures currentSlides != [] && loadFailure.Present? ==>
        outcome == PptxExporter.Failed(PptxExporter.LoadFailedPrefix + loadFailure.text)
      ensures currentSlides != [] && loadFailure.Absent? && Null in currentSlides ==>
        outcome == PptxExporter.Failed(PptxExporter.NullSlide)
      ensures currentSlides != [] && loadFailure.Absent? && Null !in currentSlides ==>
        outcome == match PptxExporter.FileName(currentSlides)
          case Present(name) => PptxExporter.Written(name)
          case Absent => PptxExporter.Failed(PptxExporter.TitleNotText)
    {
      isLoading := true;
      var deck;
      outcome, deck := PptxExporter.ExportToPPTX(Some(currentSlides), loadFailure, encode);
      if outcome.Failed? {
        error := Some(ExportFailedPrefix + outcome.message);
      }
      isLoading := false;
    }

    /**
     * `stopGeneration`: nothing without a request in flight.  Otherwise
     * the request is aborted and forgotten, loading stops and the stop
     * marker is appended to the last message (with no messages that update
     * throws and the state stays as it was).
     */
    method StopGeneration()
      modifies this`aborted, this`controller, this`isLoading, this`messages
      ensures old(controller).None? ==>
        aborted == old(aborted) && controller == None && isLoading == old(isLoading) && messages == old(messages)
      ensures old(controller).Some? ==> aborted == old(aborted) + [old(controller).value] && controller == None
      ensures old(controller).Some? && old(messages) != [] ==> !isLoading && LastGrew(old(messages), messages, StopMarker)
      ensures old(messages) == [] ==> isLoading == old(isLoading) && messages == []
    {
      if controller.Some? {
        AbortCurrent();
        controller := None;
        if messages != [] {
          isLoading := false;
          messages := AppendToLast(messages, StopMarker);
        }
      }
    }

    /**
     * `renameSession(id, title)`: the current session's title and the
     * index entry change, the index is synced, and a stored record for
     * `id` that parses is written back with the new title.
     */
    method RenameSession(id: string, newTitle: string, now: int)
      modifies this`title, this`historyList, this`storage
      ensures title == if sessionId == id then newTitle else old(title)
      ensures var renamed := RenameFirst(old(historyList), id, newTitle);
        var synced := if Worth() then old(storage)[IndexKey := codec.encodeIndex(historyList)] else old(storage);
        var key := SessionPrefix + id;
        && historyList == (if Worth() then Upsert(renamed, Entry(now)) else renamed)
        && storage == if key in synced && codec.decodeSession(synced[key]).Some?
          then synced[key := codec.encodeSession(codec.decodeSession(synced[key]).value.(title := newTitle))]
          else synced
    {
      if sessionId == id {
        title := newTitle;
      }
      historyList := RenameFirst(historyList, id, newTitle);
      SyncToLocalStorage(now);
      var key := SessionPrefix + id;
      if key in storage {
        var decoded := codec.decodeSession(storage[key]);
        if decoded.Some? {
          storage := storage[key := codec.encodeSession(decoded.value.(title := newTitle))];
        }
      }
    }

    /**
     * `deleteSession(id)`: only when confirmed, the record and the index
     * entry go, and deleting the current session starts a blank one (its
     * loading, error and refusal flags are left as they were).
     */
    method DeleteSession(id: string, confirmed: bool, newId: string)
      modifies this`storage, this`historyList, this`sessionId, this`title, this`messages
      modifies this`currentSlides, this`phase, this`isToolOpen
      ensures !confirmed ==> storage == old(storage) && historyList == old(historyList)
      ensures confirmed ==>
        && historyList == WithoutId(old(historyList), id) && Ids(historyList) == Ids(old(historyList)) - {id}
        && storage == (old(storage) - {SessionPrefix + id})[IndexKey := codec.encodeIndex(historyList)]
      ensures confirmed && old(sessionId) == id ==>
        && sessionId == newId && title == NewTitle && messages == [Message(System, Welcome)]
        && currentSlides == [] && phase == Outline && !isToolOpen
      ensures !(confirmed && old(sessionId) == id) ==>
        && sessionId == old(sessionId) && title == old(title) && messages == old(messages)
        && currentSlides == old(currentSlides) && phase == old(phase) && isToolOpen == old(isToolOpen)
    {
      if !confirmed {
        return;
      }
      storage := storage - {SessionPrefix + id};
      WithoutIdIds(historyList, id);
      historyList := WithoutId(historyList, id);
      if sessionId == id {
        sessionId := newId;
        title := NewTitle;
        messages := [Message(System, Welcome)];
        currentSlides := [];
        phase := Outline;
        isToolOpen := false;
      }
      storage := storage[IndexKey := codec.encodeIndex(historyList)];
    }
  }
}
