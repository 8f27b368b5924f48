/**
 * `splitSlides`: a content slide with more than nine lines is cut into
 * pages of at most nine lines each; every other slide passes through as it
 * is.  Slides are `Value`s; a `null` slide makes the reading of its
 * `slide_type` throw, so the whole call has no result.
 */
module SlideSplitter {
  import opened Strings
  import opened Values

  const MaxLines := 9

  /** `Math.ceil(n / 9)`. */
  function PageCount(n: nat): (k: nat)
    ensures k * MaxLines >= n
    ensures k > 0 ==> (k - 1) * MaxLines < n
  {
    (n + MaxLines - 1) / MaxLines
  }

  /** JavaScript `s.slice(a, b)` for non-negative bounds: both are clamped to the length. */
  function Slice(s: seq<Value>, a: nat, b: nat): (r: seq<Value>)
    ensures a <= b <= |s| ==> r == s[a..b]
    ensures |s| <= a ==> r == []
  {
    var hi := if b < |s| then b else |s|;
    if a >= hi then [] else s[a..hi]
  }

  /** The slides passed through unchanged: not a content slide, content not an array, or at most nine lines. */
  predicate Kept(slide: Value) {
    || Field(slide, "slide_type") != Str("content")
    || !Field(slide, "content").Arr?
    || |Field(slide, "content").items| <= MaxLines
  }

  /** The lines of a slide; empty unless its `content` is an array. */
  function Lines(slide: Value): seq<Value> {
    match Field(slide, "content")
    case Arr(items) => items
    case _ => []
  }

  /** `${slide.title}`: an absent title reads as "undefined". */
  function TitleText(slide: Value): string {
    match Prop(slide, "title")
    case None => "undefined"
    case Some(v) => JsToString(v)
  }

  /** The title of page `i`: the slide's own on the first page, "<title> (续 <i+1>)" after. */
  function PageTitle(slide: Value, i: nat): Value {
    if i == 0 then Field(slide, "title") else Str(TitleText(slide) + " (续 " + NatToString(i + 1) + ")")
  }

  /** Page `i` of a long slide: `{...slide, title, content: lines 9i to 9i+9, _splitId: "<i>"}`. */
  function Page(slide: Value, i: nat): Value
    requires slide.Obj?
  {
    var start := i * MaxLines;
    Obj(slide.fields
      ["title" := PageTitle(slide, i)]
      ["content" := Arr(Slice(Lines(slide), start, start + MaxLines))]
      ["_splitId" := Str(NatToString(i))])
  }

  /** The first `j` pages, in order. */
  function PagesUpTo(slide: Value, j: nat): (r: seq<Value>)
    requires slide.Obj?
    ensures |r| == j
  {
    if j == 0 then [] else PagesUpTo(slide, j - 1) + [Page(slide, j - 1)]
  }

  /** What one slide becomes. */
  function Expand(slide: Value): seq<Value> {
    if Kept(slide) then [slide] else PagesUpTo(slide, PageCount(|Lines(slide)|))
  }

  /** What a list of slides becomes: each slide's pages in turn. */
  function SplitAll(slides: seq<Value>): seq<Value> {
    FlatMap(Expand, slides)
  }

  /** The lines of a list of pages, in order. */
  function AllLines(pages: seq<Value>): seq<Value> {
    FlatMap(Lines, pages)
  }

  /**
   * `splitSlides(slides)`: the `forEach` over the slides with its counted
   * inner loop over the pages of a long one.
   */
  method SplitSlides(slides: Value) returns (r: Option<seq<Value>>)
    ensures !slides.Arr? ==> r == Some([])
    ensures slides.Arr? ==> r == if Null in slides.items then None else Some(SplitAll(slides.items))
  {
    if !slides.Arr? {
      return Some([]);
    }
    var items := slides.items;
    var processed: seq<Value> := [];
    var j := 0;
    while j < |items|
      invariant 0 <= j <= |items|
      invariant Null !in items[..j]
      invariant processed == SplitAll(items[..j])
    {
      var slide := items[j];
      if slide.Null? {
        return None;
      }
      assert items[..j + 1] == items[..j] + [slide];
      FlatMapSnoc(Expand, items[..j], slide);
      var pages;
      if Kept(slide) {
        pages := [slide];
      } else {
        pages := SplitLong(slide);
      }
      processed := processed + pages;
      j := j + 1;
    }
    assert items[..j] == items;
    return Some(processed);
  }

  /** The inner loop of `splitSlides`: the pages of one long content slide. */
  method SplitLong(slide: Value) returns (pages: seq<Value>)
    requires !Kept(slide)
    ensures pages == Expand(slide)
  {
    var lines := Field(slide, "content").items;
    var totalPages := (|lines| + MaxLines - 1) / MaxLines;
    pages := [];
    var i := 0;
    while i < totalPages
      invariant 0 <= i <= totalPages
      invariant pages == PagesUpTo(slide, i)
    {
      var page := MakePage(slide, i);
      pages := pages + [page];
      i := i + 1;
    }
  }

  /** One iteration of the inner loop: the `i`-th page of a long slide. */
  method MakePage(slide: Value, i: nat) returns (page: Value)
    requires slide.Obj?
    ensures page == Page(slide, i)
  {
    var lines := Lines(slide);
    var start := i * MaxLines;
    var end := start + MaxLines;
    var chunk := Slice(lines, start, end);
    var title := if i == 0 then Field(slide, "title") else Str(TitleText(slide) + " (续 " + NatToString(i + 1) + ")");
    page := Obj(slide.fields["title" := title]["content" := Arr(chunk)]["_splitId" := Str(NatToString(i))]);
  }

  lemma {:induction false} PagesUpToIndex(slide: Value, j: nat, i: nat)
    requires slide.Obj? && i < j
    ensures PagesUpTo(slide, j)[i] == Page(slide, i)
    decreases j
  {
    if i < j - 1 {
      PagesUpToIndex(slide, j - 1, i);
    }
  }

  /** The fields of page `i`. */
  lemma PageShape(slide: Value, i: nat)
    requires slide.Obj?
    ensures var p := Page(slide, i);
      && p.Obj?
      && Field(p, "title") == PageTitle(slide, i)
      && Field(p, "_splitId") == Str(NatToString(i))
      && Lines(p) == Slice(Lines(slide), i * MaxLines, i * MaxLines + MaxLines)
      && forall k :: k in slide.fields && k != "title" && k != "content" && k != "_splitId" ==>
           k in p.fields && p.fields[k] == slide.fields[k]
  {
  }

  /**
   * A long content slide becomes `ceil(n / 9)` pages, at least two.  Page
   * `i` keeps every other field of the slide, holds between one and nine
   * lines, is titled as `PageTitle` says and has `_splitId` "<i>".
   */
  lemma PagesPattern(slide: Value, i: nat)
    requires !Kept(slide) && i < |Expand(slide)|
    ensures |Expand(slide)| == PageCount(|Lines(slide)|) >= 2
    ensures var p := Expand(slide)[i];
      && p.Obj?
      && Field(p, "title") == PageTitle(slide, i)
      && Field(p, "_splitId") == Str(NatToString(i))
      && Field(p, "content").Arr? && 1 <= |Lines(p)| <= MaxLines
      && forall k :: k in slide.fields && k != "title" && k != "content" && k != "_splitId" ==>
           k in p.fields && p.fields[k] == slide.fields[k]
  {
    var n := |Lines(slide)|;
    PagesUpToIndex(slide, PageCount(n), i);
    PageShape(slide, i);
    assert i * MaxLines < n;
  }

  /** The line count of the first `j` pages of a slide with `n` lines. */
  function Covered(n: nat, j: nat): nat {
    if j * MaxLines < n then j * MaxLines else n
  }

  /** The lines of the page that starts at line `9i`, for a start inside the slide. */
  lemma PageLines(slide: Value, i: nat)
    requires slide.Obj? && i * MaxLines < |Lines(slide)|
    ensures Lines(Page(slide, i)) == Lines(slide)[i * MaxLines..Covered(|Lines(slide)|, i + 1)]
  {
    PageShape(slide, i);
  }

  lemma {:induction false} LinesOfFirstPages(slide: Value, j: nat)
    requires slide.Obj? && (j == 0 || (j - 1) * MaxLines < |Lines(slide)|)
    ensures AllLines(PagesUpTo(slide, j)) == Lines(slide)[..Covered(|Lines(slide)|, j)]
    decreases j
  {
    if j > 0 {
      LinesOfFirstPages(slide, j - 1);
      LinesStep(slide, j - 1);
    }
  }

  /** Adding page `i` to the first `i` pages adds its lines. */
  lemma LinesStep(slide: Value, i: nat)
    requires slide.Obj? && i * MaxLines < |Lines(slide)|
    requires AllLines(PagesUpTo(slide, i)) == Lines(slide)[..Covered(|Lines(slide)|, i)]
    ensures AllLines(PagesUpTo(slide, i + 1)) == Lines(slide)[..Covered(|Lines(slide)|, i + 1)]
  {
    var lines := Lines(slide);
    var start := i * MaxLines;
    var hi := Covered(|lines|, i + 1);
    assert Covered(|lines|, i) == start;
    FlatMapSnoc(Lines, PagesUpTo(slide, i), Page(slide, i));
    PageLines(slide, i);
    PrefixSplit(lines, start, hi);
  }

  /** Putting the pages' lines back together gives the slide's lines, in order. */
  lemma PagesRoundTrip(slide: Value)
    requires !Kept(slide)
    ensures AllLines(Expand(slide)) == Lines(slide)
  {
    LinesOfFirstPages(slide, PageCount(|Lines(slide)|));
    assert Lines(slide)[..|Lines(slide)|] == Lines(slide);
  }

  /** Splitting works slide by slide: the output keeps the order of the input. */
  lemma SplitAllAppend(a: seq<Value>, b: seq<Value>)
    ensures SplitAll(a + b) == SplitAll(a) + SplitAll(b)
  {
    FlatMapAppend(Expand, a, b);
  }

  /** Every slide gives at least one slide, so the output is never shorter than the input. */
  lemma {:induction false} SplitAllLonger(slides: seq<Value>)
    ensures |SplitAll(slides)| >= |slides|
    decreases |slides|
  {
    if slides != [] {
      SplitAllLonger(slides[..|slides| - 1]);
      var last := slides[|slides| - 1];
      if !Kept(last) {
        PagesPattern(last, 0);
      }
    }
  }
}
