# chatPPT2 — a verified model of the slide generator's core

chatPPT2 turns a chat with a language model into a PowerPoint deck. This
project models the decision logic of the system in Dafny and proves what
that logic promises. The model covers both halves of the system.

**Browser front end**
- `chatStore` keeps the conversation: phase, message log, slide list, the
  loading, error and refusal flags, and a history index kept in
  `localStorage`.
- `useChatMachine` is the reducer-based alternative to that store.
- `useStream` splits a server-sent-event stream into frames and dispatches
  them to callbacks.
- `useTask` polls an export task and downloads its file.
- `slideSplitter` pages long bullet lists into pages of nine lines.
- `pptxExporter` turns a slide list into drawing commands and a file name.

**Python back end**
- The two task routers (`api/routers.py` and `routers/tasks.py`) map Celery
  states to API statuses and check a download request step by step.
- `schemas/task.py` validates the task result.
- `services/exporter.py` names the exported file.
- The template engine (both `design.py` files) chooses layouts, filters and
  sorts body placeholders, and dispatches on the slide type.
- The MVP content generator (`mvp_fastapi/services/content.py`) asks the
  model for one slide at a time and skips an item whose call fails.

## Modules

Each core source file has its own module:

| module | models |
|---|---|
| `ChatStore` | `frontend/src/store/chatStore.js` |
| `ChatMachine` | `frontend/src/hooks/useChatMachine.js` |
| `Sse` | `frontend/src/hooks/useStream.js` |
| `TaskHook` | `frontend/src/hooks/useTask.js` |
| `SlideSplitter` | `frontend/src/utils/slideSplitter.js` |
| `PptxExporter` | `frontend/src/utils/pptxExporter.js` |
| `ApiRouters` | `backend/app/api/routers.py` |
| `TaskRouters` | `backend/app/routers/tasks.py` |
| `TaskSchema` | `backend/app/schemas/task.py` |
| `Exporter` | `backend/app/services/exporter.py` |
| `TemplateEngine` | both `design.py` files; a `Variant` (`Backend` or `Mvp`) selects the strict keyword list and the exporter |
| `ContentV1` | `mvp_fastapi/services/content.py` |

Four modules are shared by the others:
- `Strings` holds the JavaScript and Python string built-ins the code relies on: `trim`, `indexOf`, `split`, `join`, `replace`, `slice`, `String(n)` and `os.path.basename`.
- `Values` is the dynamic JSON-like value both languages pass around, with JavaScript and Python truthiness.
- `Conversation` holds the message vocabulary the two front-end state holders share.
- `Celery` has the few `AsyncResult` fields the routers read and write.

**How the source is modelled**
- State that the source updates in place is a `class`:
  - the store, the stream hook and the task hook;
  - the pptxgenjs deck, as a recorded list of commands;
  - the python-pptx presentation, as a list of pages whose texts are keyed by placeholder index. A layout's placeholder list stands for the placeholders `add_slide` clones onto a new slide, not the layout's raw XML: python-pptx skips the date, footer and slide-number placeholders and names the clones by type;
  - Celery's `AsyncResult`.
- Each of these classes' methods is proved against a specification function, and the properties are proved about those functions as lemmas.
- Loops in the source are `while` or `for` loops with invariants:
  - the splitter's outer and inner loops;
  - the exporter's slide loop;
  - the stream reader and its frame dispatch;
  - the placeholder filter's loops;
  - the template engine's entry loop;
  - the content generator's item loop.
- The store's `while (true) { reader.read() … }` loop is one `OnRead` call per read. The caller repeats it; its loop over the lines of one read is the `while` loop of `HandleFrames`.
- Python's `list.sort` of the placeholders by position is the recursive insertion sort `SortByPosition`. It is proved sorted, a permutation and stable, which is what the library call promises; it is a function, not a loop, because the source has no loop there.
- Inputs the code cannot compute are parameters of the model:
  - `JSON.parse` becomes `parse: string -> Option<Value>`; the store's `JSON.stringify`/`JSON.parse` pair is a `Codec`, an encoder/decoder pair that nothing constrains, so no contract relies on it round-tripping;
  - network replies are event sequences;
  - `Date.now()`, `generateUUID()` and `window.confirm` are arguments;
  - filesystem checks are predicates;
  - the language model's replies are oracle answers, `Answered(value)` or `Raised`.

Where the written intent and the code differ, the model follows the code:
- `useTask` downloads whenever a task id and `result.ppt_file_path` are present, not only on success.
- `useTask` takes the file name from the second word of `result.message`, not from the deck title.
- `useTask` keeps polling for any status other than `success` and `failure`, including `null`.
- `backend/app/routers/tasks.py` maps `PROGRESS` to `pending`, while `backend/app/api/routers.py` maps it to `progress`; each router is modelled as written.
- An `{error}` frame in the stream is swallowed and never reaches `onError`.
- `updateSlide` with a `subIndex` past the end of the array extends the array, and the gap is filled with `Null`, standing for `undefined`.

## Model

| member | source | states |
|---|---|---|
| ChatStore.ExtractJSON | frontend/src/store/chatStore.js:10-20 | absent exactly when the text is empty or has neither `[` nor `{` |
| ChatStore.ExtractJSONShape | frontend/src/store/chatStore.js:10-20 | a present result is non-empty, fence-free, and starts with the earliest bracket of the input |
| ChatStore.CleanedShape | frontend/src/store/chatStore.js:19 | removing fences and trimming text that starts with a bracket keeps that bracket first and leaves no fence |
| ChatStore.FindId | frontend/src/store/chatStore.js:227 | `findIndex` by id: -1 exactly when the id is absent, otherwise the first index holding it |
| ChatStore.IdsCons | frontend/src/store/chatStore.js:227 | the ids of a list are its head's id plus the ids of its tail |
| ChatStore.Upsert | frontend/src/store/chatStore.js:226-230 | a known id is replaced in place and every other entry is unchanged; a new id goes to the front; unique ids stay unique |
| ChatStore.RenameFirst | frontend/src/store/chatStore.js:237-238 | only the first entry with the id is retitled; ids, times, previews and length are kept; unique ids stay unique |
| ChatStore.WithoutId | frontend/src/store/chatStore.js:247 | the filter keeps only entries of the list, none of them with the id |
| ChatStore.WithoutIdIds | frontend/src/store/chatStore.js:247 | the filtered list's ids are the old ids minus the deleted one |
| ChatStore.WithoutIdUnique | frontend/src/store/chatStore.js:247 | filtering keeps ids unique |
| ChatStore.SetAt | frontend/src/store/chatStore.js:179 | JavaScript index assignment: the element is set, others are kept, the array grows past its end and the gap is `undefined` (modelled as `Null`) |
| ChatStore.UpdatedSlide | frontend/src/store/chatStore.js:177-182 | only the named field changes; with a subIndex on an array field only that element is replaced, otherwise the whole field is overwritten; a non-object slide throws |
| ChatStore.RequestFor | frontend/src/store/chatStore.js:94-102 | the outline endpoint is chosen iff the phase is outline and there are no slides; `current_slides` is sent iff there are slides; session id and text are always sent |
| ChatStore.StatusFailure | frontend/src/store/chatStore.js:112 | a non-OK status fails with a message that contains the status |
| ChatStore.Handle | frontend/src/store/chatStore.js:125-136 | a frame stops the batch exactly when it is a `[DONE]` frame, and is skipped exactly when it yields no callback |
| ChatStore.BatchTextStep | frontend/src/store/chatStore.js:124-138 | the text one batch appends is built frame by frame, ending at `[DONE]` |
| ChatStore.BatchTextAdvance | frontend/src/store/chatStore.js:124-138 | one step of the frame loop keeps the appended text a prefix of the batch's text |
| ChatStore.DoneDropsRestOfBatch | frontend/src/store/chatStore.js:127 | frames after `[DONE]` in the same batch have no effect |
| ChatStore.Grown | frontend/src/store/chatStore.js:131-134 | a chunk only extends the last message's content; no message is added, removed or reordered |
| ChatStore.GrownByNothing | frontend/src/store/chatStore.js:131-134 | appending no text changes nothing |
| ChatStore.GrownTwice | frontend/src/store/chatStore.js:131-134 | two chunks appended in turn equal their concatenation appended once |
| ChatStore.Abortable | frontend/src/store/chatStore.js:47 | a controller is aborted exactly when one is in flight |
| ChatStore.Store.constructor | frontend/src/store/chatStore.js:26-37 | the initial store: a new title, the welcome message, outline phase, no slides, all flags cleared |
| ChatStore.Store.Preview | frontend/src/store/chatStore.js:224 | the preview is exactly the first 30 characters of the first user message (all of it when shorter), or the empty-chat text |
| ChatStore.Store.AbortCurrent | frontend/src/store/chatStore.js:47 | the in-flight controller, if any, is aborted |
| ChatStore.Store.Init | frontend/src/store/chatStore.js:39-44 | the history index is replaced only by a stored index that is non-empty and parses |
| ChatStore.Store.CreateNewSession | frontend/src/store/chatStore.js:46-59 | aborts the request in flight and resets id, title, messages, slides, phase and every flag |
| ChatStore.Store.LoadSession | frontend/src/store/chatStore.js:61-74 | a stored session that parses replaces the conversation, clears loading and error, and opens the tool panel iff it has slides; otherwise nothing but the abort happens |
| ChatStore.Store.ShowSession | frontend/src/store/chatStore.js:67-71 | the state merged from a loaded session record |
| ChatStore.Store.SetToolOpen | frontend/src/store/chatStore.js:76 | sets the tool-panel flag |
| ChatStore.Store.SendMessage | frontend/src/store/chatStore.js:78-102 | whitespace-only text changes nothing; otherwise it appends exactly [user text, empty assistant], sets loading and clears error and refusal, takes the title from the first 15 characters only when there was at most one message, and aborts the previous controller |
| ChatStore.Store.Begin | frontend/src/store/chatStore.js:82-102 | the prologue of a non-blank send |
| ChatStore.Store.OnRead | frontend/src/store/chatStore.js:117-138 | one read: the kept buffer is the text after the last separator and holds none; the last message grows by the batch's text |
| ChatStore.Store.HandleFrames | frontend/src/store/chatStore.js:124-138 | the frame loop grows the last message by exactly the batch's text |
| ChatStore.Store.CheckRefusal | frontend/src/store/chatStore.js:150-156 | the refusal flag is set iff the last message contains the refusal mark; it is never cleared |
| ChatStore.Store.SyncToLocalStorage | frontend/src/store/chatStore.js:221-232 | an empty conversation changes nothing; otherwise the entry is upserted and the index written |
| ChatStore.Store.SaveSession | frontend/src/store/chatStore.js:207-219 | an empty conversation changes nothing; otherwise the session record and the index are stored |
| ChatStore.Store.Finish | frontend/src/store/chatStore.js:140-147 | every ending clears loading and the controller and attempts a save; an AbortError never sets error; a normal end checks for refusal |
| ChatStore.Store.ApplyCanvas | frontend/src/store/chatStore.js:159-173 | the three alerts in order (no JSON, parse failure, not an array); only an array replaces the slides, sets phase content, opens the tool panel and saves |
| ChatStore.Store.UpdateSlide | frontend/src/store/chatStore.js:175-185 | only `currentSlides[index]` changes, as `UpdatedSlide` says; all other slides are untouched; then a save |
| ChatStore.Store.HandleExport | frontend/src/store/chatStore.js:187-196 | the outcome is `exportToPPTX` of the current slides, with each of its rejections; a rejection stores its message after the prefix, a written file leaves the error as it was; loading is cleared afterwards |
| ChatStore.Store.StopGeneration | frontend/src/store/chatStore.js:198-204 | does nothing without a request in flight; otherwise it aborts, clears loading and appends the stop marker to the last message only |
| ChatStore.Store.RenameSession | frontend/src/store/chatStore.js:234-242 | retitles the current session and the first matching history entry, syncs, and rewrites the stored record only when it parses |
| ChatStore.Store.DeleteSession | frontend/src/store/chatStore.js:243-258 | unconfirmed does nothing; confirmed removes the record and the id from the index, and resets the conversation only when it was the current one |
| ChatMachine.ResetKeepsSession | frontend/src/hooks/useChatMachine.js:34 | RESET gives the initial state with the session id kept; resetting twice equals resetting once |
| ChatMachine.StreamUpdateOnlyAssistant | frontend/src/hooks/useChatMachine.js:27-31 | only the messages change; the last one grows iff it is the assistant's |
| ChatMachine.LoadingAndErrorFlags | frontend/src/hooks/useChatMachine.js:23-24 | SET_LOADING always clears the error, SET_ERROR always clears loading, and an unknown action returns the state |
| ChatMachine.MessagesNeverEmpty | frontend/src/hooks/useChatMachine.js:20-37 | no sequence of actions empties a non-empty message log |
| ChatMachine.ExtractJSON | frontend/src/hooks/useChatMachine.js:40-41 | absent exactly for empty input |
| ChatMachine.UnfencedHasNoFence | frontend/src/hooks/useChatMachine.js:43 | removing the fences leaves no fence |
| ChatMachine.CutAtBracket | frontend/src/hooks/useChatMachine.js:45-58 | the cut is a suffix starting at the earliest bracket, and the whole text when there is none |
| ChatMachine.ExtractJSONShape | frontend/src/hooks/useChatMachine.js:40-60 | the result is fence-free, cut at the earliest bracket when one exists, and otherwise the trimmed fence-free text |
| ChatMachine.ParsedSlides | frontend/src/hooks/useChatMachine.js:99-101 | slides come out only when the extracted text parses to an array |
| ChatMachine.RequestFor | frontend/src/hooks/useChatMachine.js:86-88 | the outline endpoint iff the phase is outline; `current_slides` iff the phase is content |
| ChatMachine.SendMessage | frontend/src/hooks/useChatMachine.js:79-112 | blank text sends nothing and leaves the state alone |
| ChatMachine.PrologueEffect | frontend/src/hooks/useChatMachine.js:82-84 | appends [user text, empty assistant], sets loading, clears error, and keeps everything else |
| ChatMachine.DoneStateIs | frontend/src/hooks/useChatMachine.js:92-106 | completion clears loading and error, and sets the slides when they parse |
| ChatMachine.DoneReplacesSlidesOnlyInContent | frontend/src/hooks/useChatMachine.js:93-105 | slides change only in phase content and only to an array parsed from the last message |
| ChatMachine.ErrorAppendsMarker | frontend/src/hooks/useChatMachine.js:107-110 | a transport error sets error, clears loading, and appends the system-error marker to the last assistant message |
| ChatMachine.TwoColumnSlides | frontend/src/hooks/useChatMachine.js:123-128 | one two-column slide per outline entry, in order |
| ChatMachine.OutlineSlides | frontend/src/hooks/useChatMachine.js:121-130 | the outline builds exactly when it is an array with no null entry |
| ChatMachine.FieldOfEach | frontend/src/hooks/useChatMachine.js:125 | reads one field of every entry, in order |
| ChatMachine.OutlineSlidesShape | frontend/src/hooks/useChatMachine.js:121-130 | outline length + 2 slides: the title slide, one two-column slide per entry titled by its sub_topic, then the summary |
| ChatMachine.ReduceThree | frontend/src/hooks/useChatMachine.js:132-134 | three dispatches are three reductions in order |
| ChatMachine.ConfirmOutlineEffect | frontend/src/hooks/useChatMachine.js:114-139 | success sets the slides and phase content and adds the confirmation message; failure only sets error and clears loading |
| ChatMachine.StartExport | frontend/src/hooks/useChatMachine.js:141 | only the phase changes, to exporting |
| ChatMachine.ResetAction | frontend/src/hooks/useChatMachine.js:142 | aborts the stream and resets the state, keeping the session id |
| ChatMachine.InitSessionId | frontend/src/hooks/useChatMachine.js:70-77 | a stored non-empty id is kept; otherwise the new id is stored; INIT_SESSION receives the stored id |
| Conversation.AppendToLast | frontend/src/hooks/useChatMachine.js:28-30 | only the last message's content grows, by the given text |
| Conversation.LastGrewTwice | frontend/src/hooks/useChatMachine.js:27-31 | two appends compose into one append of the concatenation |
| Sse.HttpErrorMessage | frontend/src/hooks/useStream.js:33 | the message contains the status |
| Sse.FrameCallbacks | frontend/src/hooks/useStream.js:53-72 | at most one callback per frame, only for `data: ` frames; onDone exactly for a `[DONE]` payload |
| Sse.FramesCallbacksAppend | frontend/src/hooks/useStream.js:52-73 | callbacks of concatenated frame lists concatenate |
| Sse.FramesNeverError | frontend/src/hooks/useStream.js:62-71 | no frame, not even an `{error}` one, reaches onError |
| Sse.StepFrames | frontend/src/hooks/useStream.js:46-50 | appending a chunk to the buffer extends the joined text, and its split starts with the frames already cut |
| Sse.ConcatStep | frontend/src/hooks/useStream.js:46 | the text received so far grows by each chunk |
| Sse.ReadStep | frontend/src/hooks/useStream.js:45-50 | after a read, the frames cut so far and the buffer are the split of all text received |
| Sse.DispatchFrames | frontend/src/hooks/useStream.js:52-73 | the frame loop fires exactly the frames' callbacks in order |
| Sse.ReadFrames | frontend/src/hooks/useStream.js:41-74 | the read loop fires the callbacks of every complete frame; the kept buffer is the text after the last separator and contains none |
| Sse.StreamHook.constructor | frontend/src/hooks/useStream.js:9 | no controller, nothing created or aborted |
| Sse.StreamHook.Begin | frontend/src/hooks/useStream.js:14-18 | starting a request aborts the one in flight and installs a new controller |
| Sse.StreamHook.Consume | frontend/src/hooks/useStream.js:20-87 | the request's callbacks are exactly those its reply determines; the controller is cleared afterwards |
| Sse.StreamHook.AbortStream | frontend/src/hooks/useStream.js:90-95 | aborts and clears the controller in flight, if any |
| Sse.AbortedNeverErrors | frontend/src/hooks/useStream.js:78-80 | an aborted request never calls onError |
| Sse.HttpErrorOnce | frontend/src/hooks/useStream.js:31-34 | a non-OK status calls onError exactly once, with the status in the message |
| Sse.UnterminatedTextIgnored | frontend/src/hooks/useStream.js:41-43 | a partial frame still buffered at the end is never processed |
| Sse.DoneFrameOnly | frontend/src/hooks/useStream.js:49-50 | a lone `[DONE]` frame is split off as one frame |
| Sse.DoneFrameCalls | frontend/src/hooks/useStream.js:57-60 | a `[DONE]` frame calls onDone |
| Sse.DoneTwice | frontend/src/hooks/useStream.js:57-60 | a stream with one `[DONE]` frame calls onDone twice |
| TaskHook.FileStem | frontend/src/hooks/useTask.js:51 | the second space-separated word of the message exactly when it is non-empty, otherwise "presentation"; never empty and without spaces; absent when `split` would throw |
| TaskHook.StemIsSecondWord | frontend/src/hooks/useTask.js:51 | a message `a b c`, where `a` and `b` hold no space and `b` is non-empty, gives the stem `b` |
| TaskHook.DefaultStemIsOneWord | frontend/src/hooks/useTask.js:51 | the default stem has no space |
| TaskHook.TaskHook.constructor | frontend/src/hooks/useTask.js:17-20 | all four fields start null |
| TaskHook.TaskHook.StartExportPolling | frontend/src/hooks/useTask.js:22-28 | a falsy id changes nothing; otherwise the id is set, status pending, error and result null, and polling starts |
| TaskHook.TaskHook.PollTaskStatus | frontend/src/hooks/useTask.js:30-42 | without an id nothing happens; a reply copies status, error and result verbatim; a transport error sets failure and its message, and polling stops |
| TaskHook.TaskHook.DownloadPPT | frontend/src/hooks/useTask.js:44-62 | no request unless the id and `ppt_file_path` are present; the file is "<stem>.pptx"; a failed download sets the error and returns false |
| TaskHook.TaskHook.ResetTask | frontend/src/hooks/useTask.js:64-69 | every field becomes null and polling stops |
| SlideSplitter.PageCount | frontend/src/utils/slideSplitter.js:23 | `ceil(n / 9)`: the least page count that covers n lines |
| SlideSplitter.Slice | frontend/src/utils/slideSplitter.js:28 | JavaScript `slice` with clamped bounds |
| SlideSplitter.PagesUpTo | frontend/src/utils/slideSplitter.js:25-40 | j pages for j iterations |
| SlideSplitter.SplitSlides | frontend/src/utils/slideSplitter.js:9-44 | non-array input gives []; a null slide throws; otherwise every slide's expansion in order |
| SlideSplitter.SplitLong | frontend/src/utils/slideSplitter.js:22-40 | the inner loop builds exactly the long slide's pages |
| SlideSplitter.MakePage | frontend/src/utils/slideSplitter.js:26-38 | one iteration builds page i |
| SlideSplitter.PagesUpToIndex | frontend/src/utils/slideSplitter.js:39 | pages are pushed in index order |
| SlideSplitter.PageShape | frontend/src/utils/slideSplitter.js:31-38 | a page copies every other field and sets title, its slice of content and `_splitId` |
| SlideSplitter.PagesPattern | frontend/src/utils/slideSplitter.js:22-38 | a long slide gives `ceil(n/9)` ≥ 2 pages, each of 1 to 9 lines, page 0 keeping the title, page i "<title> (续 i+1)", `_splitId` "i", other fields copied |
| SlideSplitter.PageLines | frontend/src/utils/slideSplitter.js:26-28 | page i holds lines 9i up to 9i+9 or the end |
| SlideSplitter.LinesOfFirstPages | frontend/src/utils/slideSplitter.js:25-40 | the first j pages hold the first 9j lines, in order |
| SlideSplitter.LinesStep | frontend/src/utils/slideSplitter.js:25-40 | one more page extends the covered prefix of lines |
| SlideSplitter.PagesRoundTrip | frontend/src/utils/slideSplitter.js:25-35 | concatenating the pages' content gives back the original content |
| SlideSplitter.SplitAllAppend | frontend/src/utils/slideSplitter.js:14-41 | slide order is preserved |
| SlideSplitter.SplitAllLonger | frontend/src/utils/slideSplitter.js:14-43 | the output is at least as long as the input |
| PptxExporter.ImageUrl | frontend/src/utils/pptxExporter.js:4-9 | absent for a falsy prompt; otherwise the image host and encoded prompt-plus-style with the size query |
| PptxExporter.DeckTitle | frontend/src/utils/pptxExporter.js:24 | the deck title is never falsy: the first slide's title when truthy, otherwise "Presentation" |
| PptxExporter.FileName | frontend/src/utils/pptxExporter.js:112 | "presentation.pptx" for a falsy title; absent when a truthy non-string title makes `replace` throw |
| PptxExporter.FileNameShape | frontend/src/utils/pptxExporter.js:112 | the file name ends in ".pptx", has a non-empty stem and no white space |
| PptxExporter.DefaultStemKept | frontend/src/utils/pptxExporter.js:112 | the default stem is kept |
| PptxExporter.LowerKept | frontend/src/utils/pptxExporter.js:112 | a stem of lower-case ASCII letters, such as the default "presentation", is kept as it is |
| Strings.ReplaceSpaceRunsNoSpace | frontend/src/utils/pptxExporter.js:112 | a stem without white space is kept as it is |
| PptxExporter.StemName | frontend/src/utils/pptxExporter.js:112 | a non-empty stem with white-space runs replaced by "_" plus ".pptx" has no white space |
| PptxExporter.ReplaceSpaceRunsNonEmpty | frontend/src/utils/pptxExporter.js:112 | replacing runs never empties a non-empty stem |
| PptxExporter.Deck.constructor | frontend/src/utils/pptxExporter.js:22 | a new deck has no commands |
| PptxExporter.Deck.Record | frontend/src/utils/pptxExporter.js:27 | one library call appends one command |
| PptxExporter.Deck.SetMeta | frontend/src/utils/pptxExporter.js:23-24 | sets layout and title |
| PptxExporter.DrawBullets | frontend/src/utils/pptxExporter.js:71-81 | a bullet block is drawn only for a non-empty line list |
| PptxExporter.DrawTexts | frontend/src/utils/pptxExporter.js:45-109 | draws the texts the slide type calls for |
| PptxExporter.DrawSlide | frontend/src/utils/pptxExporter.js:27-109 | one slide: a new page, its backdrop, its texts |
| PptxExporter.DrawBackdrop | frontend/src/utils/pptxExporter.js:30-43 | the image and overlay, or the plain background |
| PptxExporter.ExportToPPTX | frontend/src/utils/pptxExporter.js:11-114 | empty input fails before loading; a load failure is reported; otherwise layout, title, every slide's commands in order, and the file name; a null slide or a non-string title throws |
| PptxExporter.DrawAll | frontend/src/utils/pptxExporter.js:26-110 | the slide loop draws the deck's commands, stopping at a null slide |
| PptxExporter.SlidePage | frontend/src/utils/pptxExporter.js:27 | each slide's commands start with its one new page |
| PptxExporter.SlideBackdrop | frontend/src/utils/pptxExporter.js:32-43 | background F5F7FA iff there is no image; the overlay iff there is an image and the slide is not a title slide |
| PptxExporter.BackdropCalls | frontend/src/utils/pptxExporter.js:30-43 | the backdrop adds no page |
| PptxExporter.TextsCalls | frontend/src/utils/pptxExporter.js:45-109 | the texts add no page |
| PptxExporter.NoPageIn | frontend/src/utils/pptxExporter.js:27 | commands without a new page count no page |
| PptxExporter.PageCountAppend | frontend/src/utils/pptxExporter.js:26-27 | page counts add up over concatenation |
| PptxExporter.PageCountCons | frontend/src/utils/pptxExporter.js:27 | a new page command counts one page |
| PptxExporter.OnePagePerSlide | frontend/src/utils/pptxExporter.js:26-27 | exactly one page per input slide |
| PptxExporter.DeckInOrder | frontend/src/utils/pptxExporter.js:26 | slides are drawn in order |
| PptxExporter.TitleSlideTexts | frontend/src/utils/pptxExporter.js:46-60 | title text defaults to "无标题"; a subtitle is added iff truthy; no bullets |
| PptxExporter.ContentSlideTexts | frontend/src/utils/pptxExporter.js:64-82 | heading defaults to "Untitled"; non-array content counts as empty; the bullet block appears iff there is a line |
| PptxExporter.TwoColumnTexts | frontend/src/utils/pptxExporter.js:84-108 | any other type is drawn as two columns; each column defaults to [] and appears iff non-empty |
| ApiRouters.CreateTask | backend/app/api/routers.py:19-43 | an empty prompt is 422 before submission; a submit failure is 503 with the broker message; success is pending with no result |
| ApiRouters.StatusOf | backend/app/api/routers.py:59-67 | PENDING to pending, PROGRESS to progress, SUCCESS to success, every other state to failure |
| ApiRouters.GetTaskStatus | backend/app/api/routers.py:46-89 | a result only for a ready SUCCESS task whose payload validates; an invalid payload forces failure and `_set_state('FAILURE')`; error iff failed, then `str(info)` |
| ApiRouters.DownloadFileDirect | backend/app/api/routers.py:92-133 | every rung with its code and detail: not ready 404, failed 500 with the error, no dict or no key 500, falsy or relative path 500, truthy non-text path an unhandled 500, absolute path not on disk 404; served under its basename exactly when every check passes |
| TaskRouters.CreateExportTask | backend/app/routers/tasks.py:13-20 | any submit failure is 500; otherwise pending |
| TaskRouters.StatusOf | backend/app/routers/tasks.py:28-31 | SUCCESS to success, FAILURE to failure, every other state (PROGRESS included) to pending |
| TaskRouters.GetTaskStatus | backend/app/routers/tasks.py:22-45 | a result only when ready, successful and valid; ready, successful and invalid gives failure with no result; error iff failed |
| TaskRouters.DownloadTaskFile | backend/app/routers/tasks.py:47-65 | every rung with its code and detail: not ready 404; failed or falsy result 500; truthy non-dict result an unhandled 500; falsy path 404; truthy non-text path an unhandled 500; text path not on disk 404; served under its basename exactly when every check passes |
| TaskSchema.Validate | backend/app/schemas/task.py:24-28 | a payload builds exactly when it is a dict with a string status and optional string path and message; the fields are kept |
| TaskSchema.ValidateDump | backend/app/schemas/task.py:24-28 | validating a dumped result gives it back |
| Celery.AsyncResult.constructor | backend/app/api/routers.py:55-56 | a task result with the given fields |
| Celery.AsyncResult.SetState | backend/app/api/routers.py:79 | sets the state; failed iff it is FAILURE |
| Celery.AsyncResult.SetInfo | backend/app/api/routers.py:80 | sets the info |
| Exporter.GenerateFilename | backend/app/services/exporter.py:50-53 | "presentation.pptx" for None or ""; otherwise each space becomes "_", all else kept, ".pptx" appended |
| Exporter.FilenameHasNoSpace | backend/app/services/exporter.py:50-53 | no generated file name holds a space, whatever the title |
| Exporter.ExportPpt | backend/app/services/exporter.py:22-48 | the saved bytes with their count and the presentation content type; the download name ends in ".pptx" and holds no space |
| Exporter.PlainTitleKept | backend/app/services/exporter.py:52-53 | a title without spaces is kept |
| TemplateEngine.FirstNamed | backend/app/services/design.py:117-120 | the first layout with the name, or -1 when none has it |
| TemplateEngine.LayoutFor | backend/app/services/design.py:113-131 | by name first, then the fallback index when in range, then 0; none without layouts |
| TemplateEngine.GetLayout | backend/app/services/design.py:113-131 | the lookup loop finds what `LayoutFor` says |
| TemplateEngine.Kept | backend/app/services/design.py:135-143 | only placeholders of the slide that mention no keyword, and every such one |
| TemplateEngine.KeptCount | backend/app/services/design.py:135-143 | each placeholder keeps all its copies when it mentions no keyword and none otherwise |
| TemplateEngine.KeptAppend | backend/app/services/design.py:136-143 | the filter keeps order: filtering a concatenation is the concatenation of the filtered parts |
| TemplateEngine.Insert | backend/app/services/design.py:146 | inserting into a sorted list keeps it sorted and adds the element |
| TemplateEngine.InsertBelow | backend/app/services/design.py:146 | sortedness survives putting an element back after the insertion |
| TemplateEngine.SortByPosition | backend/app/services/design.py:146 | sorted by (top, left) and a permutation |
| TemplateEngine.SortStable | mvp_fastapi/services/design.py:135 | the sort is stable: placeholders sharing a (top, left) position keep their input order, as Python's sort does |
| TemplateEngine.SortedKept | backend/app/services/design.py:135-146 | every sorted kept placeholder is one of the slide's and mentions no keyword |
| TemplateEngine.NoTitleNoNumber | backend/app/services/design.py:150-157 | a name passing either list contains neither "Title" nor "Slide Number" |
| TemplateEngine.BodiesShape | backend/app/services/design.py:133-157 | sorted, a subset with no Title or Slide Number; the strict set when non-empty, else the relaxed set |
| TemplateEngine.BodyPlaceholders | backend/app/services/design.py:133-157 | the loops and the sort compute `Bodies` |
| TemplateEngine.TitleShape | backend/app/services/design.py:164-165 | the title placeholder, if the layout has one |
| TemplateEngine.Paragraphs | backend/app/services/design.py:213-230 | one paragraph per list item, in order; an empty list leaves one empty paragraph; other content its text split into lines |
| TemplateEngine.SetPlaceholderContent | backend/app/services/design.py:213-230 | writes the placeholder's paragraphs, or nothing when it has no text frame |
| TemplateEngine.NewPage | backend/app/services/design.py:159-165 | a page on the layout the key chooses, none without layouts; the title shape holds the title's lines and nothing else is written; it raises exactly when there are no layouts or the title shape exists and the title is not text |
| TemplateEngine.StartPage | backend/app/services/design.py:159-163 | adds exactly the page `NewPage` says |
| TemplateEngine.TitleSlide | backend/app/services/design.py:159-170 | the title layout's page |
| TemplateEngine.CreateTitleSlide | backend/app/services/design.py:159-170 | adds exactly the page `TitleSlide` says |
| TemplateEngine.SubtitleOnlyWhenPresent | backend/app/services/design.py:168-170 | the subtitle is written only when non-empty and a body placeholder exists |
| TemplateEngine.ContentSlide | backend/app/services/design.py:172-187 | the content layout's page, none without layouts |
| TemplateEngine.ContentPlacement | backend/app/services/design.py:181-187 | the content is written into the first body placeholder and nowhere else; without one the page is left as added |
| TemplateEngine.CreateContentSlide | backend/app/services/design.py:172-187 | adds exactly the page `ContentSlide` says |
| TemplateEngine.TwoColumnSlide | backend/app/services/design.py:189-211 | the two-column layout's page |
| TemplateEngine.CreateTwoColumnSlide | backend/app/services/design.py:189-211 | adds exactly the page `TwoColumnSlide` says |
| TemplateEngine.TwoColumnPlacement | backend/app/services/design.py:200-211 | left in the first body placeholder, right in the second; with one placeholder the right is dropped |
| TemplateEngine.SlideByType | backend/app/services/design.py:232-250 | a page exactly for an object entry when there are layouts |
| TemplateEngine.CreateSlideByType | backend/app/services/design.py:232-250 | adds exactly the page `SlideByType` says |
| TemplateEngine.DispatchDefaults | backend/app/services/design.py:232-250 | a missing or unknown type is a content slide; a missing title is "幻灯片 {index+1}" |
| TemplateEngine.Pages | backend/app/services/design.py:81-86 | at most one page per entry |
| TemplateEngine.AddEntries | backend/app/services/design.py:81-86 | tries every entry in order; a failing entry does not stop the rest |
| TemplateEngine.EveryEntryTried | backend/app/services/design.py:81-86 | with layouts, every object entry gives a page |
| TemplateEngine.PagesPrefix | backend/app/services/design.py:81-86 | the pages of the first k entries are a prefix of the deck |
| TemplateEngine.Presentation.constructor | backend/app/services/design.py:71 | the loaded presentation's layouts and slides |
| TemplateEngine.Presentation.ClearExistingSlides | backend/app/services/design.py:100-111 | no slides are left |
| TemplateEngine.Presentation.AddSlide | backend/app/services/design.py:162 | appends an empty page on the layout |
| TemplateEngine.Presentation.SetText | backend/app/services/design.py:218-230 | sets one placeholder's paragraphs on the last page |
| TemplateEngine.CreateFromTemplate | backend/app/services/design.py:61-89 | clears first; no data gives one title page; otherwise every entry is tried; the export of the result; raises only with no data and no layouts |
| TemplateEngine.NoDataOneTitlePage | backend/app/services/design.py:77-79 | with no data, exactly one title page with the given title |
| ContentV1.NewGenerator | mvp_fastapi/services/content.py:74-78 | ValueError exactly when the key is unset or empty |
| ContentV1.Columns | mvp_fastapi/services/content.py:151-178 | at most one slide per outline item |
| ContentV1.GeneratePptData | mvp_fastapi/services/content.py:119-200 | the loop computes `Generated`: title, the items' slides, summary, or the fallback |
| ContentV1.ColumnsAllAnswered | mvp_fastapi/services/content.py:151-178 | all calls answered: one two-column slide per item, in order |
| ContentV1.AllAnswered | mvp_fastapi/services/content.py:139-194 | outline length + 2 slides: title, one per item in order, summary |
| ContentV1.SkipOnlyThatItem | mvp_fastapi/services/content.py:139-194 | without an abort: at most outline length + 2 slides, the title slide first, the content slide last, two-column slides between |
| ContentV1.ColumnsOneSkipped | mvp_fastapi/services/content.py:151-178 | when exactly one item fails or lacks a topic, the other items' slides in order, one fewer than the outline |
| ContentV1.OneItemSkipped | mvp_fastapi/services/content.py:139-194 | a single failed item call drops that item alone: outline length + 1 slides, the cover, the items before and after it in order, the summary last |
| ContentV1.ColumnsTyped | mvp_fastapi/services/content.py:151-178 | every item slide is two-column |
| ContentV1.AbortsGiveFallback | mvp_fastapi/services/content.py:196-200 | a failed title or summary call or a missing sub_topic gives the fallback |
| ContentV1.FallbackShape | mvp_fastapi/services/content.py:213-229 | two slides: "{topic} 分析报告 (回退数据)" and the "错误" content slide with two lines |
| ContentV1.CreatePptFile | mvp_fastapi/services/content.py:202-211 | passes the slides and title through to the MVP engine unchanged; the mock export names the file "{title}.pptx" |
| Strings.Trim | frontend/src/store/chatStore.js:79 | `trim()`: the text between leading and trailing white space |
| Strings.TrimEmpty | frontend/src/store/chatStore.js:79 | trimming leaves nothing iff the text is all white space |
| Strings.IndexOf | frontend/src/store/chatStore.js:12-13 | -1 iff the character is absent, otherwise its first index |
| Strings.NoFenceAfterDelete | frontend/src/hooks/useChatMachine.js:43 | deleting every fence leaves none |
| Strings.SplitOn | frontend/src/hooks/useStream.js:49 | `split` gives at least one piece |
| Strings.SplitOnJoin | frontend/src/hooks/useStream.js:49-50 | the pieces joined by the separator give the text back |
| Strings.SplitOnPieces | frontend/src/hooks/useStream.js:49-50 | no piece contains the separator |
| Strings.Take | frontend/src/store/chatStore.js:83 | `slice(0, n)`: a prefix of at most n characters |
| Strings.ReplaceChar | backend/app/services/exporter.py:52 | each occurrence of one character replaced, all else kept |
| Strings.ReplaceSpaceRunsClean | frontend/src/utils/pptxExporter.js:112 | no white space is left when the replacement has none |
| Strings.NatToString | frontend/src/utils/slideSplitter.js:37 | decimal digits only, never empty |
| Strings.NatToStringRoundTrip | frontend/src/utils/slideSplitter.js:37 | reading the digits back gives the number |
| Strings.Basename | backend/app/api/routers.py:127 | the text after the last '/' |
| Values.FieldOr | frontend/src/utils/pptxExporter.js:24 | `v.key \|\| d` is one of the two operands, and is truthy whenever the default is |
| Values.NumberText | frontend/src/utils/slideSplitter.js:34 | a number converts to its decimal digits, after a minus sign when negative, and the digits read back as the number |
| Values.TextArrayText | frontend/src/utils/slideSplitter.js:34 | an array of strings converts to the strings joined by "," |

## Left out

- ChatStore.UpdatedSlide: a slide that is an array takes `slide[field] = value` in JavaScript as a named property, or as an element when the field is an index; the model treats that slide as making the assignment throw, because a `Value` array has no named properties.
- TaskRouters.DownloadTaskFile: a truthy path that is not text is answered with an unhandled 500; Python's `os.path.exists` takes an integer as a file descriptor instead of raising, and the model does not follow that.
- Values: numbers are integers, so fractional JSON numbers and `NaN` (which is falsy) cannot be represented; no modelled operation does arithmetic on them.
- Values: `undefined` and `null` are the one value `Null`. A slide that `frontend/src/hooks/useChatMachine.js` builds from an item missing `topic1` (say) keeps the key with `Null`, where JavaScript holds `undefined` and `JSON.stringify` would drop the key.
- Network, browser and timer mechanics are inputs of the model: fetch, axios, `TextDecoder`, `AbortController`, `alert`, Blob downloads and the 2000 ms `setInterval`. A reply is a status plus a sequence of text chunks and an ending; the polling effect is the `ShouldPoll` predicate.
- `localStorage` is a `map<string, string>`; `JSON.stringify`/`JSON.parse` of stored records are a `Codec` left unconstrained: the store's contracts state what a load yields as the decoder applied to the stored text, and the model does not prove that a load after a save returns the saved record. A stored text that parses to a record of the wrong shape counts as unparseable.
- ChatStore.Store.LoadSession: spreading a stored record copies every key it has; the model copies only the five session fields.
- ChatStore.UpdatedSlide: `subIndex` is an `Option<nat>`. JavaScript also accepts a negative or non-integer `subIndex` at `frontend/src/store/chatStore.js:178-179` and stores the value as a named property of the array, which `JSON.stringify` later drops; the model does not represent such an index.
- PptxExporter.ImageUrl: `encodeURIComponent` is the total parameter `encode`. The `URIError` it throws on a lone surrogate in the prompt (`frontend/src/utils/pptxExporter.js:6`) is not modelled.
- ChatStore.Store.Preview: JavaScript `slice` counts UTF-16 code units; the model counts characters.
- ChatStore.Store.SendMessage: the 15-character title also counts characters rather than UTF-16 code units.
- Every Chinese literal in chatStore.js (lines 27, 28, 50, 161, 171, 172, 192, 202, 224, 244, 250 and 251) is stored double-encoded, as UTF-8 read as Windows-1252 and encoded again. The model uses the decoded text throughout: `NewTitle`, `Welcome`, `StopMarker`, `EmptyPreview`, the three alerts and `ExportFailedPrefix`. So every user-visible string the store writes differs from the source's literal bytes. The welcome message's leading emoji cannot be recovered and is dropped. No logic depends on these strings; the refusal mark is ASCII.
- `generateUUID()`, `Date.now()` and `window.confirm` are arguments.
- ChatMachine.SendMessage: React's `stateRef` is taken to hold the latest dispatched state when a callback runs; React's batching and render timing are not modelled.
- The reducer's STREAM_UPDATE mutates the last message object shared with the previous state; the model works on values, so that aliasing is not captured.
- Sse.StreamHook.Consume: the reply is the whole event sequence. Callbacks that start another request while a stream is being read, which interleaves two readers, are not modelled.
- TaskHook.TaskHook.DownloadPPT: the Blob and anchor-click download is the boolean `fetched`.
- Celery's broker, result backend and `send_task` are left out. A submission is `Submitted(id)` or `SubmitFailed(message)`, and `AsyncResult` is a record of the fields the routers use. `state` and `failed` are both fields; `_set_state` keeps them in agreement.
- Celery.AsyncResult.SetState: follows the stand-in task result of `backend/tests/test_task_router.py:198-239`, whose `_set_state` only records the call and whose `failed()` answers true once `_set_state('FAILURE')` was called. The model sets `state` and keeps `failed` equal to `state == "FAILURE"`; `ready` is left unchanged. Celery's own `AsyncResult` is not part of this model.
- ApiRouters.GetTaskStatus: for an invalid payload the model answers as the stand-in test expects (status failure, no result, the validation error). Against Celery's real `AsyncResult`, which has no `_set_state` method and whose `info` cannot be assigned, `backend/app/api/routers.py:79` raises inside the `except` handler and the request ends in an unhandled server error (500) instead.
- `backend/app/api/routers.py` imports `TaskRequest`, which `backend/app/schemas/task.py` does not define, so as written that module fails at import and none of its routes is served. The model reads its handlers as if the import succeeded and takes the prompt string directly.
- `os.path.isabs` and `os.path.exists` are predicates of the model.
- Python `str()` of a slide value is the parameter `str`. python-pptx text frames are approximated as lists of paragraphs, and writing `text` splits it on "\n". A title that is not a string is assumed to raise.
- `_load_resource`, the template file and `Presentation.save` are inputs: the layouts, the existing slides and the saved bytes.
- `_clear_existing_slides` is assumed to succeed; its XML removal and exception path are not modelled.
- Logging in both `design.py` files and in `content.py` is left out.
- ContentV1.NewGenerator: only the key check is modelled. Building the LangChain chains (`mvp_fastapi/services/content.py:81-117`) is not, because the chains are oracles: each call is answered with a value or raises.
- smartImage, the UI components, the RAG service, the LLM streaming services and the app wiring are not part of this model.
