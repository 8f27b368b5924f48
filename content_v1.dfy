/**
 * `ContentGeneratorV1` of `mvp_fastapi/services/content.py`: Python walks
 * a fixed outline and asks a language model for one slide at a time.
 *
 * Each model call is an oracle: it answers with the structured record its
 * schema describes, or raises.  The answers are inputs: `titleReply` for
 * the cover, `itemReply(i)` for outline item `i`, `summaryReply` for the
 * closing slide.  An outline item is a dictionary of strings.
 */
module ContentV1 {
  import opened Strings
  import opened Values
  import TemplateEngine

  /** What an oracle call did. */
  datatype Call<T> = Answered(value: T) | Raised

  datatype TitleModel = TitleModel(title: string, subtitle: string)
  datatype ContentModel = ContentModel(title: string, content: seq<string>)
  datatype TwoColumnModel = TwoColumnModel(title: string, leftContent: seq<string>, rightContent: seq<string>)

  type Item = map<string, string>

  const MissingKey := "DEEPSEEK_API_KEY 未设置"
  const FallbackSuffix := " 分析报告 (回退数据)"
  const FallbackSubtitle := "LLM API 调用失败"
  const ErrorTitle := "错误"
  const ErrorLines: seq<string> := ["内容生成失败，请检查 API 密钥或网络连接。", "这是一个回退数据示例。"]

  /** A generator holds the API key it was built with. */
  datatype Generator = Generator(apiKey: string)

  /** What the constructor did: a generator, or the `ValueError` it raised. */
  datatype Init = Ready(generator: Generator) | ValueError(message: string)

  /** `ContentGeneratorV1.__init__` given `os.environ.get("DEEPSEEK_API_KEY")`: a missing or empty key raises. */
  function NewGenerator(apiKey: Option<string>): (r: Init)
    ensures r.ValueError? <==> apiKey.None? || apiKey.value == ""
    ensures r.ValueError? ==> r.message == MissingKey
    ensures r.Ready? ==> r.generator.apiKey == apiKey.value
  {
    match apiKey
    case None => ValueError(MissingKey)
    case Some(k) => if k == "" then ValueError(MissingKey) else Ready(Generator(k))
  }

  function Texts(lines: seq<string>): (r: Value)
    ensures r.Arr? && |r.items| == |lines| && forall i :: 0 <= i < |lines| ==> r.items[i] == Str(lines[i])
  {
    Arr(seq(|lines|, i requires 0 <= i < |lines| => Str(lines[i])))
  }

  /** The dictionaries appended to `slides_data`. */
  function TitleEntry(m: TitleModel): Value {
    Obj(map["slide_type" := Str("title"), "title" := Str(m.title), "subtitle" := Str(m.subtitle)])
  }

  function ColumnsEntry(m: TwoColumnModel): Value {
    Obj(map["slide_type" := Str("two_column"), "title" := Str(m.title),
            "left_content" := Texts(m.leftContent), "right_content" := Texts(m.rightContent)])
  }

  function SummaryEntry(m: ContentModel): Value {
    Obj(map["slide_type" := Str("content"), "title" := Str(m.title), "content" := Texts(m.content)])
  }

  /** `get_fallback_data(topic)`. */
  function Fallback(topic: string): seq<Value> {
    [ Obj(map["slide_type" := Str("title"), "title" := Str(topic + FallbackSuffix), "subtitle" := Str(FallbackSubtitle)]),
      Obj(map["slide_type" := Str("content"), "title" := Str(ErrorTitle), "content" := Texts(ErrorLines)]) ]
  }

  /**
   * The slide of one outline item, if any: a missing `topic1` or `topic2`
   * raises inside the per-item guard, as does a failed call; either way
   * the item is skipped.
   */
  function ItemSlide(item: Item, reply: Call<TwoColumnModel>): seq<Value> {
    if "topic1" in item && "topic2" in item && reply.Answered? then [ColumnsEntry(reply.value)] else []
  }

  /** The two-column slides of the outline, in order. */
  function Columns(outline: seq<Item>, itemReply: nat -> Call<TwoColumnModel>): (r: seq<Value>)
    ensures |r| <= |outline|
  {
    if outline == [] then []
    else Columns(outline[..|outline| - 1], itemReply) + ItemSlide(outline[|outline| - 1], itemReply(|outline| - 1))
  }

  /** A failure that escapes the per-item guard: the cover, an item without `sub_topic`, or the summary. */
  predicate Aborts(outline: seq<Item>, titleReply: Call<TitleModel>, summaryReply: Call<ContentModel>) {
    || titleReply.Raised?
    || (exists i :: 0 <= i < |outline| && "sub_topic" !in outline[i])
    || summaryReply.Raised?
  }

  /** The slide list `generate_ppt_data_v1` returns. */
  function Generated(mainTopic: string, outline: seq<Item>, titleReply: Call<TitleModel>,
                     itemReply: nat -> Call<TwoColumnModel>, summaryReply: Call<ContentModel>): seq<Value> {
    if Aborts(outline, titleReply, summaryReply) then Fallback(mainTopic)
    else [TitleEntry(titleReply.value)] + Columns(outline, itemReply) + [SummaryEntry(summaryReply.value)]
  }

  /**
   * `generate_ppt_data_v1`: the cover, then the loop over the outline
   * with its own guard around each item, then the summary; anything that
   * escapes to the outer guard discards the partial list for the fallback.
   */
  method GeneratePptData(g: Generator, mainTopic: string, outline: seq<Item>, summaryTopic: string,
                         titleReply: Call<TitleModel>, itemReply: nat -> Call<TwoColumnModel>,
                         summaryReply: Call<ContentModel>)
    returns (slides: seq<Value>)
    ensures slides == Generated(mainTopic, outline, titleReply, itemReply, summaryReply)
  {
    if titleReply.Raised? {
      return Fallback(mainTopic);
    }
    var data := [TitleEntry(titleReply.value)];
    for i := 0 to |outline|
      invariant forall j :: 0 <= j < i ==> "sub_topic" in outline[j]
      invariant data == [TitleEntry(titleReply.value)] + Columns(outline[..i], itemReply)
    {
      var item := outline[i];
      assert outline[..i + 1][..i] == outline[..i];
      assert Columns(outline[..i + 1], itemReply) == Columns(outline[..i], itemReply) + ItemSlide(item, itemReply(i));
      AppendAssoc([TitleEntry(titleReply.value)], Columns(outline[..i], itemReply), ItemSlide(item, itemReply(i)));
      if "sub_topic" !in item {
        return Fallback(mainTopic);
      }
      if "topic1" in item && "topic2" in item {
        var reply := itemReply(i);
        if reply.Answered? {
          data := data + [ColumnsEntry(reply.value)];
        }
      }
      AppendEmpty(data);
    }
    assert outline[..|outline|] == outline;
    if summaryReply.Raised? {
      return Fallback(mainTopic);
    }
    slides := data + [SummaryEntry(summaryReply.value)];
  }

  /**
   * `create_ppt_file`: the slides and the title go to the template
   * engine unchanged; its presentation is built from exactly these.
   */
  method CreatePptFile(g: Generator, layouts: seq<TemplateEngine.Layout>, existing: seq<TemplateEngine.Page>,
                       saved: seq<bv8>, slidesData: seq<Value>, outputTitle: string, str: Value -> string)
    returns (pages: seq<TemplateEngine.Page>, out: Option<TemplateEngine.Output>)
    ensures pages == TemplateEngine.Deck(layouts, outputTitle, Some(slidesData), TemplateEngine.Mvp, str)
    ensures (slidesData != [] || layouts != []) ==> out == Some(TemplateEngine.Export(TemplateEngine.Mvp, saved, outputTitle))
    ensures slidesData == [] && layouts == [] ==> out.None?
  {
    var prs;
    prs, out := TemplateEngine.CreateFromTemplate(TemplateEngine.Mvp, layouts, existing, saved, outputTitle, Some(slidesData), str);
    pages := prs.slides;
  }

  /** When every item has its keys and every call answers, item `i` gives slide `i`. */
  lemma {:induction false} ColumnsAllAnswered(outline: seq<Item>, itemReply: nat -> Call<TwoColumnModel>)
    requires forall i :: 0 <= i < |outline| ==> "topic1" in outline[i] && "topic2" in outline[i] && itemReply(i).Answered?
    ensures var r := Columns(outline, itemReply);
      |r| == |outline| && forall i :: 0 <= i < |outline| ==> r[i] == ColumnsEntry(itemReply(i).value)
    decreases |outline|
  {
    if outline != [] {
      var init := outline[..|outline| - 1];
      ColumnsAllAnswered(init, itemReply);
    }
  }

  /**
   * When every call answers and no item lacks a key: the cover, one
   * two-column slide per outline item in order, and the summary, so
   * `len(outline) + 2` slides.
   */
  lemma AllAnswered(mainTopic: string, outline: seq<Item>, titleReply: Call<TitleModel>,
                    itemReply: nat -> Call<TwoColumnModel>, summaryReply: Call<ContentModel>)
    requires titleReply.Answered? && summaryReply.Answered?
    requires forall i :: 0 <= i < |outline| ==>
      "sub_topic" in outline[i] && "topic1" in outline[i] && "topic2" in outline[i] && itemReply(i).Answered?
    ensures var r := Generated(mainTopic, outline, titleReply, itemReply, summaryReply);
      && |r| == |outline| + 2
      && r[0] == TitleEntry(titleReply.value)
      && (forall i :: 0 <= i < |outline| ==> r[i + 1] == ColumnsEntry(itemReply(i).value))
      && r[|r| - 1] == SummaryEntry(summaryReply.value)
  {
    ColumnsAllAnswered(outline, itemReply);
  }

  /**
   * When item `k` alone is skipped (its call raised, or it lacks `topic1`
   * or `topic2`) and every other item answers, the slides are those of the
   * other items, in order.
   */
  lemma {:induction false} ColumnsOneSkipped(outline: seq<Item>, itemReply: nat -> Call<TwoColumnModel>, k: nat)
    requires k < |outline|
    requires itemReply(k).Raised? || "topic1" !in outline[k] || "topic2" !in outline[k]
    requires forall j :: 0 <= j < |outline| && j != k ==>
      "topic1" in outline[j] && "topic2" in outline[j] && itemReply(j).Answered?
    ensures var r := Columns(outline, itemReply);
      && |r| == |outline| - 1
      && (forall j :: 0 <= j < k ==> r[j] == ColumnsEntry(itemReply(j).value))
      && (forall j :: k < j < |outline| ==> r[j - 1] == ColumnsEntry(itemReply(j).value))
    decreases |outline|
  {
    var init := outline[..|outline| - 1];
    var n := |outline| - 1;
    if k == n {
      ColumnsAllAnswered(init, itemReply);
      assert Columns(outline, itemReply) == Columns(init, itemReply) + [];
    } else {
      ColumnsOneSkipped(init, itemReply, k);
      assert Columns(outline, itemReply) == Columns(init, itemReply) + [ColumnsEntry(itemReply(n).value)];
    }
  }

  /**
   * A failed call for item `k` drops that item and nothing else: the
   * cover, the slides of the items before and after it in order, then the
   * summary, so `len(outline) + 1` slides.
   */
  lemma OneItemSkipped(mainTopic: string, outline: seq<Item>, titleReply: Call<TitleModel>,
                       itemReply: nat -> Call<TwoColumnModel>, summaryReply: Call<ContentModel>, k: nat)
    requires titleReply.Answered? && summaryReply.Answered?
    requires k < |outline| && itemReply(k).Raised?
    requires forall j :: 0 <= j < |outline| ==> "sub_topic" in outline[j]
    requires forall j :: 0 <= j < |outline| && j != k ==>
      "topic1" in outline[j] && "topic2" in outline[j] && itemReply(j).Answered?
    ensures var r := Generated(mainTopic, outline, titleReply, itemReply, summaryReply);
      && |r| == |outline| + 1
      && r[0] == TitleEntry(titleReply.value)
      && (forall j :: 0 <= j < k ==> r[j + 1] == ColumnsEntry(itemReply(j).value))
      && (forall j :: k < j < |outline| ==> r[j] == ColumnsEntry(itemReply(j).value))
      && r[|r| - 1] == SummaryEntry(summaryReply.value)
  {
    ColumnsOneSkipped(outline, itemReply, k);
  }

  function SlideType(slide: Value): Value {
    Field(slide, "slide_type")
  }

  /**
   * Without an abort the list opens with the cover, closes with the
   * summary, holds at most `len(outline) + 2` slides, and every slide
   * between is a two-column one (`OneItemSkipped` says which ones).
   */
  lemma SkipOnlyThatItem(mainTopic: string, outline: seq<Item>, titleReply: Call<TitleModel>,
                         itemReply: nat -> Call<TwoColumnModel>, summaryReply: Call<ContentModel>)
    requires !Aborts(outline, titleReply, summaryReply)
    ensures var r := Generated(mainTopic, outline, titleReply, itemReply, summaryReply);
      && 2 <= |r| <= |outline| + 2
      && SlideType(r[0]) == Str("title")
      && SlideType(r[|r| - 1]) == Str("content")
      && forall i :: 0 < i < |r| - 1 ==> SlideType(r[i]) == Str("two_column")
  {
    var c := Columns(outline, itemReply);
    var r := Generated(mainTopic, outline, titleReply, itemReply, summaryReply);
    assert r == [TitleEntry(titleReply.value)] + c + [SummaryEntry(summaryReply.value)];
    forall i | 0 < i < |r| - 1 ensures SlideType(r[i]) == Str("two_column") {
      assert r[i] == c[i - 1];
      ColumnsTyped(outline, itemReply, i - 1);
    }
  }

  lemma {:induction false} ColumnsTyped(outline: seq<Item>, itemReply: nat -> Call<TwoColumnModel>, i: nat)
    requires i < |Columns(outline, itemReply)|
    ensures SlideType(Columns(outline, itemReply)[i]) == Str("two_column")
    decreases |outline|
  {
    var init := outline[..|outline| - 1];
    var c := Columns(init, itemReply);
    var last := ItemSlide(outline[|outline| - 1], itemReply(|outline| - 1));
    assert Columns(outline, itemReply) == c + last;
    if i < |c| {
      ColumnsTyped(init, itemReply, i);
    } else {
      assert Columns(outline, itemReply)[i] == last[i - |c|];
    }
  }

  /** Each failure that escapes the per-item guard gives the fallback and nothing of the partial list. */
  lemma AbortsGiveFallback(mainTopic: string, outline: seq<Item>, titleReply: Call<TitleModel>,
                           itemReply: nat -> Call<TwoColumnModel>, summaryReply: Call<ContentModel>, k: nat)
    requires titleReply.Raised? || summaryReply.Raised? || (k < |outline| && "sub_topic" !in outline[k])
    ensures Generated(mainTopic, outline, titleReply, itemReply, summaryReply) == Fallback(mainTopic)
  {
  }

  /**
   * The fallback is two slides: a cover titled "<topic> 分析报告 (回退数据)"
   * and a content slide "错误" with two lines.
   */
  lemma FallbackShape(topic: string)
    ensures var r := Fallback(topic);
      && |r| == 2
      && SlideType(r[0]) == Str("title") && Field(r[0], "title") == Str(topic + FallbackSuffix)
      && SlideType(r[1]) == Str("content") && Field(r[1], "title") == Str(ErrorTitle)
      && Field(r[1], "content").Arr? && |Field(r[1], "content").items| == 2
  {
  }
}
