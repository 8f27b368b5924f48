/**
 * `exportToPPTX`: each slide of the list is drawn on a new page of a
 * pptxgenjs presentation.  The presentation object is a `Deck` that
 * records the calls made on it, in order, as `Command`s; the geometry and
 * colours of each text box are fixed per kind of box and named by `Box`.
 * `encodeURIComponent` is the parameter `encode`, loading the library is
 * the input `loadFailure`, and `writeFile` is the file name returned.
 */
module PptxExporter {
  import opened Strings
  import opened Values

  const NoContent := "没有内容可导出"
  const LoadFailedPrefix := "导出组件加载失败: "
  const Layout := "LAYOUT_16x9"
  const Background := "F5F7FA"
  const ImageHost := "https://image.pollinations.ai/prompt/"
  const ImageStyle := " presentation, minimalist, 4k"
  const ImageQuery := "?width=1024&height=768&nologo=true"
  /** The `TypeError` of reading `.image_prompt` of a `null` slide. */
  const NullSlide := "Cannot read properties of null (reading 'image_prompt')"
  /** The `TypeError` of calling `.replace` on a title that is not text. */
  const TitleNotText := "(intermediate value).replace is not a function"

  /** The text boxes `exportToPPTX` draws, each with its own fixed position and style. */
  datatype Box =
    | TitleBox      // title slide: the centred 44 pt title
    | SubtitleBox   // title slide: the 24 pt subtitle under it
    | HeadingBox    // other slides: the 24 pt heading at the top
    | BodyBox       // content slide: the bullet list, one line per bullet
    | LeftBox       // two-column slide: the left bullet list
    | RightBox      // two-column slide: the right bullet list

  /** One call on the presentation or on its last page. */
  datatype Command =
    | NewSlide                              // pptx.addSlide()
    | AddImage(path: string)                // full-page background picture
    | AddOverlay                            // full-page white rectangle, 20% transparent
    | SetBackground(color: string)          // slidePage.background = { color }
    | AddText(text: Value, box: Box)        // one text
    | AddBullets(lines: seq<Value>, box: Box) // one bullet per line

  /** `getImageUrl(prompt)`: no picture for a falsy prompt. */
  function ImageUrl(prompt: Value, encode: string -> string): (r: MaybeText)
    ensures r.Absent? <==> !Truthy(prompt)
    ensures r.Present? ==>
      && StartsWith(r.text, ImageHost + encode(JsToString(prompt) + ImageStyle))
      && EndsWith(r.text, ImageQuery)
    ensures r.Present? ==> r.text == ImageHost + encode(JsToString(prompt) + ImageStyle) + ImageQuery
  {
    if !Truthy(prompt) then Absent
    else
      var head := ImageHost + encode(JsToString(prompt) + ImageStyle);
      var url := head + ImageQuery;
      assert url[..|head|] == head && url[|url| - |ImageQuery|..] == ImageQuery;
      Present(url)
  }

  /** `Array.isArray(v) ? v : []`. */
  function ArrayOr(v: Value): seq<Value> {
    if v.Arr? then v.items else []
  }

  /** A bullet block, drawn only when there is at least one line. */
  function Bullets(lines: seq<Value>, box: Box): seq<Command> {
    if lines == [] then [] else [AddBullets(lines, box)]
  }

  /** The picture and its overlay, or the plain background. */
  function Backdrop(slide: Value, encode: string -> string): seq<Command> {
    match ImageUrl(Field(slide, "image_prompt"), encode)
    case Present(url) => [AddImage(url)] + (if Field(slide, "slide_type") != Str("title") then [AddOverlay] else [])
    case Absent => [SetBackground(Background)]
  }

  /** The texts of one page, by `slide_type`: title, content, and anything else as two columns. */
  function Texts(slide: Value): seq<Command> {
    var kind := Field(slide, "slide_type");
    if kind == Str("title") then
      [AddText(FieldOr(slide, "title", Str("无标题")), TitleBox)]
      + (if Truthy(Field(slide, "subtitle")) then [AddText(Field(slide, "subtitle"), SubtitleBox)] else [])
    else if kind == Str("content") then
      [AddText(FieldOr(slide, "title", Str("Untitled")), HeadingBox)]
      + Bullets(ArrayOr(Field(slide, "content")), BodyBox)
    else
      [AddText(FieldOr(slide, "title", Str("Untitled")), HeadingBox)]
      + Bullets(ArrayOr(Field(slide, "left_content")), LeftBox)
      + Bullets(ArrayOr(Field(slide, "right_content")), RightBox)
  }

  /** The calls made for one slide. */
  function SlideCommands(slide: Value, encode: string -> string): seq<Command> {
    [NewSlide] + Backdrop(slide, encode) + Texts(slide)
  }

  /** The calls made for a list of slides, each slide's in turn. */
  function DeckCommands(slides: seq<Value>, encode: string -> string): seq<Command> {
    FlatMap((s: Value) => SlideCommands(s, encode), slides)
  }

  /** `pptx.title`: the first slide's title, or "Presentation". */
  function DeckTitle(slides: seq<Value>): (r: Value)
    requires slides != []
    ensures Truthy(Field(slides[0], "title")) ==> r == Field(slides[0], "title")
    ensures !Truthy(Field(slides[0], "title")) ==> r == Str("Presentation")
    ensures Truthy(r)
  {
    FieldOr(slides[0], "title", Str("Presentation"))
  }

  /**
   * The file name: the first slide's title, or "presentation", with every
   * run of white space replaced by "_", then ".pptx".  A truthy title that
   * is not text has no `replace`: no name.
   */
  function FileName(slides: seq<Value>): (r: MaybeText)
    requires slides != []
    ensures r.Absent? <==> Truthy(Field(slides[0], "title")) && !Field(slides[0], "title").Str?
    ensures !Truthy(Field(slides[0], "title")) ==> r == Present("presentation.pptx")
  {
    var stem := FieldOr(slides[0], "title", Str("presentation"));
    if !stem.Str? then Absent
    else
      DefaultStemKept(stem.s);
      Present(ReplaceSpaceRuns(stem.s, "_") + ".pptx")
  }

  /** A file name ends with ".pptx" after a non-empty stem, and holds no white space. */
  lemma FileNameShape(slides: seq<Value>)
    requires slides != [] && FileName(slides).Present?
    ensures var name := FileName(slides).text;
      && EndsWith(name, ".pptx") && |name| > |".pptx"|
      && forall i :: 0 <= i < |name| ==> !IsSpace(name[i])
  {
    var stem := FieldOr(slides[0], "title", Str("presentation"));
    StemName(stem.s);
  }

  /** The default stem has no white space, so it is kept as it is. */
  lemma DefaultStemKept(stem: string)
    ensures stem == "presentation" ==> ReplaceSpaceRuns(stem, "_") + ".pptx" == "presentation.pptx"
  {
    if stem == "presentation" {
      LowerKept(stem);
    }
  }

  /** Lower-case ASCII letters are not white space, so a word of them is kept. */
  lemma LowerKept(s: string)
    ensures (forall i :: 0 <= i < |s| ==> 'a' <= s[i] <= 'z') ==> ReplaceSpaceRuns(s, "_") == s
  {
    if forall i :: 0 <= i < |s| ==> 'a' <= s[i] <= 'z' {
      ReplaceSpaceRunsNoSpace(s, "_");
    }
  }

  /** A non-empty stem gives a name longer than ".pptx", ending with it, with no white space. */
  lemma StemName(stem: string)
    requires stem != []
    ensures var name := ReplaceSpaceRuns(stem, "_") + ".pptx";
      && EndsWith(name, ".pptx") && |name| > |".pptx"|
      && forall i :: 0 <= i < |name| ==> !IsSpace(name[i])
  {
    var base := ReplaceSpaceRuns(stem, "_");
    assert !IsSpace("_"[0]);
    ReplaceSpaceRunsClean(stem, "_");
    ReplaceSpaceRunsNonEmpty(stem, "_");
    var ext := ".pptx";
    forall i | 0 <= i < |ext| ensures !IsSpace(ext[i]) {
      assert ext[i] == '.' || 'a' <= ext[i] <= 'z';
    }
    CleanSuffix(base, ext);
  }

  /** Joining two texts free of white space gives one, which ends with the second. */
  lemma CleanSuffix(a: string, b: string)
    requires forall i :: 0 <= i < |a| ==> !IsSpace(a[i])
    requires forall i :: 0 <= i < |b| ==> !IsSpace(b[i])
    ensures EndsWith(a + b, b)
    ensures forall i :: 0 <= i < |a + b| ==> !IsSpace((a + b)[i])
  {
    assert (a + b)[|a|..] == b;
    forall i | 0 <= i < |a + b| ensures !IsSpace((a + b)[i]) {
      if i >= |a| {
        assert (a + b)[i] == b[i - |a|];
      }
    }
  }

  /** `ReplaceSpaceRuns` of non-empty text with a non-empty replacement is not empty. */
  lemma ReplaceSpaceRunsNonEmpty(s: string, rep: string)
    requires s != [] && rep != []
    ensures ReplaceSpaceRuns(s, rep) != []
  {
  }

  /** The number of pages a list of calls opens. */
  function PageCount(commands: seq<Command>): nat {
    if commands == [] then 0
    else PageCount(commands[..|commands| - 1]) + (if commands[|commands| - 1].NewSlide? then 1 else 0)
  }

  /** What `exportToPPTX` ends with. */
  datatype Outcome = Written(fileName: string) | Failed(message: string)

  class Deck {
    var layout: string
    var title: Value
    var commands: seq<Command>

    constructor()
      ensures layout == "" && title == Null && commands == []
    {
      layout, title, commands := "", Null, [];
    }

    method Record(c: Command)
      modifies this`commands
      ensures commands == old(commands) + [c]
    {
      commands := commands + [c];
    }

    method SetMeta(newLayout: string, newTitle: Value)
      modifies this`layout, this`title
      ensures layout == newLayout && title == newTitle
    {
      layout, title := newLayout, newTitle;
    }
  }

  /** A bullet block drawn on `deck` when there is at least one line. */
  method DrawBullets(deck: Deck, list: Value, box: Box)
    modifies deck`commands
    ensures deck.commands == old(deck.commands) + Bullets(ArrayOr(list), box)
  {
    var lines := if list.Arr? then list.items else [];
    if |lines| > 0 {
      deck.Record(AddBullets(lines, box));
    }
  }

  /** The texts of one page, drawn on `deck`. */
  method DrawTexts(deck: Deck, slide: Value)
    modifies deck`commands
    ensures deck.commands == old(deck.commands) + Texts(slide)
  {
    var kind := Field(slide, "slide_type");
    if kind == Str("title") {
      deck.Record(AddText(FieldOr(slide, "title", Str("无标题")), TitleBox));
      if Truthy(Field(slide, "subtitle")) {
        deck.Record(AddText(Field(slide, "subtitle"), SubtitleBox));
      }
    } else if kind == Str("content") {
      deck.Record(AddText(FieldOr(slide, "title", Str("Untitled")), HeadingBox));
      DrawBullets(deck, Field(slide, "content"), BodyBox);
    } else {
      ghost var before := deck.commands;
      var heading := AddText(FieldOr(slide, "title", Str("Untitled")), HeadingBox);
      deck.Record(heading);
      DrawBullets(deck, Field(slide, "left_content"), LeftBox);
      ghost var middle := deck.commands;
      DrawBullets(deck, Field(slide, "right_content"), RightBox);
      AppendAssoc(before + [heading], Bullets(ArrayOr(Field(slide, "left_content")), LeftBox), Bullets(ArrayOr(Field(slide, "right_content")), RightBox));
      AppendAssoc(before, [heading] + Bullets(ArrayOr(Field(slide, "left_content")), LeftBox), Bullets(ArrayOr(Field(slide, "right_content")), RightBox));
      AppendAssoc(before, [heading], Bullets(ArrayOr(Field(slide, "left_content")), LeftBox));
    }
  }

  /** One iteration of the loop over the slides: a new page, its backdrop and its texts. */
  method DrawSlide(deck: Deck, slide: Value, encode: string -> string)
    modifies deck`commands
    ensures deck.commands == old(deck.commands) + SlideCommands(slide, encode)
  {
    ghost var c0 := deck.commands;
    deck.Record(NewSlide);
    DrawBackdrop(deck, slide, encode);
    ghost var c1 := deck.commands;
    DrawTexts(deck, slide);
    AppendAssoc(c0, [NewSlide], Backdrop(slide, encode));
    AppendAssoc(c0, [NewSlide] + Backdrop(slide, encode), Texts(slide));
  }

  /** The picture and its overlay, or the plain background. */
  method DrawBackdrop(deck: Deck, slide: Value, encode: string -> string)
    modifies deck`commands
    ensures deck.commands == old(deck.commands) + Backdrop(slide, encode)
  {
    ghost var c0 := deck.commands;
    var url := ImageUrl(Field(slide, "image_prompt"), encode);
    if url.Present? {
      deck.Record(AddImage(url.text));
      if Field(slide, "slide_type") != Str("title") {
        deck.Record(AddOverlay);
        AppendAssoc(c0, [AddImage(url.text)], [AddOverlay]);
      } else {
        AppendEmpty(c0 + [AddImage(url.text)]);
        AppendEmpty([AddImage(url.text)]);
      }
    } else {
      deck.Record(SetBackground(Background));
    }
  }

  /**
   * `exportToPPTX(slides)`: `slides` is `None` when it is missing.  An
   * empty or missing list fails before the library is loaded; a library
   * that does not load fails with its message; otherwise every slide is
   * drawn in order and the file is named by `FileName`.
   */
  method ExportToPPTX(slides: Option<seq<Value>>, loadFailure: MaybeText, encode: string -> string)
    returns (outcome: Outcome, deck: Deck?)
    ensures (slides.None? || slides.value == []) <==> outcome == Failed(NoContent) && deck == null
    ensures slides.Some? && slides.value != [] && loadFailure.Present? ==>
      outcome == Failed(LoadFailedPrefix + loadFailure.text) && deck == null
    ensures slides.Some? && slides.value != [] && loadFailure.Absent? ==>
      && deck != null && fresh(deck)
      && deck.layout == Layout && deck.title == DeckTitle(slides.value)
      && (if Null in slides.value then outcome == Failed(NullSlide)
          else
            && deck.commands == DeckCommands(slides.value, encode)
            && outcome == match FileName(slides.value)
               case Present(name) => Written(name)
               case Absent => Failed(TitleNotText))
  {
    if slides.None? || slides.value == [] {
      return Failed(NoContent), null;
    }
    if loadFailure.Present? {
      return Failed(LoadFailedPrefix + loadFailure.text), null;
    }
    var list := slides.value;
    deck := new Deck();
    deck.SetMeta(Layout, FieldOr(list[0], "title", Str("Presentation")));
    var drawn := DrawAll(deck, list, encode);
    if !drawn {
      return Failed(NullSlide), deck;
    }
    var name := FileName(list);
    if name.Absent? {
      return Failed(TitleNotText), deck;
    }
    return Written(name.text), deck;
  }

  /** The loop over the slides; a `null` slide throws once its page is added. */
  method DrawAll(deck: Deck, list: seq<Value>, encode: string -> string) returns (drawn: bool)
    modifies deck`commands
    ensures drawn <==> Null !in list
    ensures drawn ==> deck.commands == old(deck.commands) + DeckCommands(list, encode)
  {
    ghost var c0 := deck.commands;
    var i := 0;
    while i < |list|
      invariant 0 <= i <= |list|
      invariant Null !in list[..i]
      invariant deck.commands == c0 + DeckCommands(list[..i], encode)
    {
      if list[i].Null? {
        deck.Record(NewSlide);
        return false;
      }
      assert list[..i + 1] == list[..i] + [list[i]];
      FlatMapSnoc((s: Value) => SlideCommands(s, encode), list[..i], list[i]);
      DrawSlide(deck, list[i], encode);
      AppendAssoc(c0, DeckCommands(list[..i], encode), SlideCommands(list[i], encode));
      i := i + 1;
    }
    assert list[..i] == list;
    return true;
  }

  /** A slide's calls open exactly one page, and open it first. */
  lemma SlidePage(slide: Value, encode: string -> string)
    ensures SlideCommands(slide, encode)[0] == NewSlide
    ensures PageCount(SlideCommands(slide, encode)) == 1
  {
    var rest := Backdrop(slide, encode) + Texts(slide);
    BackdropCalls(slide, encode);
    TextsCalls(slide);
    NoPageIn(rest);
    PageCountCons(NewSlide, rest);
    AppendAssoc([NewSlide], Backdrop(slide, encode), Texts(slide));
  }

  /**
   * The backdrop is the picture when the slide has an image prompt, with
   * the overlay unless it is a title slide, and the F5F7FA background
   * otherwise.
   */
  lemma SlideBackdrop(slide: Value, encode: string -> string)
    ensures var c := SlideCommands(slide, encode);
      && (SetBackground(Background) in c <==> !Truthy(Field(slide, "image_prompt")))
      && (AddOverlay in c <==> Truthy(Field(slide, "image_prompt")) && Field(slide, "slide_type") != Str("title"))
  {
    BackdropCalls(slide, encode);
    TextsCalls(slide);
    assert SetBackground(Background) !in Texts(slide) && AddOverlay !in Texts(slide);
  }

  lemma BackdropCalls(slide: Value, encode: string -> string)
    ensures var b := Backdrop(slide, encode);
      && (forall k :: 0 <= k < |b| ==> !b[k].NewSlide?)
      && (SetBackground(Background) in b <==> !Truthy(Field(slide, "image_prompt")))
      && (AddOverlay in b <==> Truthy(Field(slide, "image_prompt")) && Field(slide, "slide_type") != Str("title"))
  {
  }

  /** The texts of a page hold only `AddText` and `AddBullets` calls. */
  lemma TextsCalls(slide: Value)
    ensures forall k :: 0 <= k < |Texts(slide)| ==> Texts(slide)[k].AddText? || Texts(slide)[k].AddBullets?
  {
  }

  /** No call but `addSlide` opens a page. */
  lemma {:induction false} NoPageIn(c: seq<Command>)
    requires forall k :: 0 <= k < |c| ==> !c[k].NewSlide?
    ensures PageCount(c) == 0
    decreases |c|
  {
    if c != [] {
      NoPageIn(c[..|c| - 1]);
    }
  }

  lemma {:induction false} PageCountAppend(a: seq<Command>, b: seq<Command>)
    ensures PageCount(a + b) == PageCount(a) + PageCount(b)
    decreases |b|
  {
    if b == [] {
      assert a + b == a;
    } else {
      PageCountAppend(a, b[..|b| - 1]);
      assert (a + b)[..|a + b| - 1] == a + b[..|b| - 1];
    }
  }

  lemma PageCountCons(c: Command, rest: seq<Command>)
    ensures PageCount([c] + rest) == PageCount(rest) + (if c.NewSlide? then 1 else 0)
  {
    PageCountAppend([c], rest);
    assert [c][..0] == [];
  }

  /** Exactly one page per slide. */
  lemma {:induction false} OnePagePerSlide(slides: seq<Value>, encode: string -> string)
    ensures PageCount(DeckCommands(slides, encode)) == |slides|
    decreases |slides|
  {
    if slides != [] {
      var init, last := slides[..|slides| - 1], slides[|slides| - 1];
      OnePagePerSlide(init, encode);
      assert slides == init + [last];
      FlatMapSnoc((s: Value) => SlideCommands(s, encode), init, last);
      PageCountAppend(DeckCommands(init, encode), SlideCommands(last, encode));
      SlidePage(last, encode);
    }
  }

  /** The pages come in the order of the slides. */
  lemma DeckInOrder(a: seq<Value>, b: seq<Value>, encode: string -> string)
    ensures DeckCommands(a + b, encode) == DeckCommands(a, encode) + DeckCommands(b, encode)
  {
    FlatMapAppend((s: Value) => SlideCommands(s, encode), a, b);
  }

  /** A title slide: the title or "无标题", and the subtitle only when it is truthy. */
  lemma TitleSlideTexts(slide: Value)
    requires Field(slide, "slide_type") == Str("title")
    ensures Texts(slide)[0] == AddText(FieldOr(slide, "title", Str("无标题")), TitleBox)
    ensures (exists t :: AddText(t, SubtitleBox) in Texts(slide)) <==> Truthy(Field(slide, "subtitle"))
    ensures forall k :: 0 <= k < |Texts(slide)| ==> !Texts(slide)[k].AddBullets?
  {
    if Truthy(Field(slide, "subtitle")) {
      assert AddText(Field(slide, "subtitle"), SubtitleBox) == Texts(slide)[1];
    }
  }

  /** A content slide: a heading, then one bullet block exactly when its `content` is a non-empty array. */
  lemma ContentSlideTexts(slide: Value)
    requires Field(slide, "slide_type") == Str("content")
    ensures Texts(slide)[0] == AddText(FieldOr(slide, "title", Str("Untitled")), HeadingBox)
    ensures AddBullets(ArrayOr(Field(slide, "content")), BodyBox) in Texts(slide) <==> ArrayOr(Field(slide, "content")) != []
    ensures |Texts(slide)| <= 2
  {
    var lines := ArrayOr(Field(slide, "content"));
    if lines == [] {
      assert Texts(slide) == [AddText(FieldOr(slide, "title", Str("Untitled")), HeadingBox)];
    }
  }

  /** Any other slide is two columns: each side is drawn exactly when it is a non-empty array, left before right. */
  lemma TwoColumnTexts(slide: Value)
    requires Field(slide, "slide_type") != Str("title") && Field(slide, "slide_type") != Str("content")
    ensures var left, right := ArrayOr(Field(slide, "left_content")), ArrayOr(Field(slide, "right_content"));
      && Texts(slide) == [AddText(FieldOr(slide, "title", Str("Untitled")), HeadingBox)] + Bullets(left, LeftBox) + Bullets(right, RightBox)
      && (AddBullets(left, LeftBox) in Texts(slide) <==> left != [])
      && (AddBullets(right, RightBox) in Texts(slide) <==> right != [])
  {
  }
}
