/**
 * `TemplateEngine` of `backend/app/services/design.py` and of
 * `mvp_fastapi/services/design.py`: slide records are laid out on the
 * layouts of a PowerPoint template.  The two files differ only in the
 * keywords of the strict placeholder filter and in the exporter, so one
 * module serves both, selected by `Variant`.
 *
 * python-pptx is abstracted: a layout is a name and its placeholders; a
 * placeholder is its `idx`, name and position, whether it is the slide's
 * title shape and whether it has a text frame; a page is the index of its
 * layout and the paragraphs written into its placeholders, by `idx`.
 * Python's `str()` of a value is the parameter `str`.
 */
module TemplateEngine {
  import opened Strings
  import opened Values
  import Exporter

  datatype Variant = Backend | Mvp

  datatype Placeholder = Placeholder(idx: nat, name: string, top: int, left: int, isTitle: bool, hasTextFrame: bool)
  datatype Layout = Layout(name: string, placeholders: seq<Placeholder>)
  datatype Page = Page(layout: nat, texts: map<nat, seq<string>>)

  /** One entry's effect: the page it added, if any, and whether it raised. */
  datatype Made = Made(page: Option<Page>, raised: bool)

  /** What `create_from_template` returns: the real exporter's record, or the mock's buffer and name. */
  datatype Output = Real(exported: Exporter.Exported) | Mock(buffer: seq<bv8>, filename: string)

  const DefaultTitle := "演示文稿"

  /** `LAYOUT_NAMES.get(key)`. */
  function LayoutName(key: string): Option<string> {
    if key == "title" then Some("Title 1")
    else if key == "content" then Some("Title and Content")
    else if key == "two_column" then Some("Title and two Content 1")
    else None
  }

  /** `LAYOUT_INDICES.get(key, 1)`. */
  function FallbackIndex(key: string): nat {
    if key == "title" then 0
    else if key == "content" then 4
    else if key == "two_column" then 6
    else 1
  }

  /** The position of the first layout called `name`, or -1. */
  function FirstNamed(layouts: seq<Layout>, name: string): (r: int)
    ensures -1 <= r < |layouts|
    ensures r >= 0 ==> layouts[r].name == name && forall j :: 0 <= j < r ==> layouts[j].name != name
    ensures r < 0 ==> forall j :: 0 <= j < |layouts| ==> layouts[j].name != name
  {
    if layouts == [] then -1
    else if layouts[0].name == name then 0
    else
      var k := FirstNamed(layouts[1..], name);
      if k < 0 then -1 else k + 1
  }

  /**
   * `_get_layout(prs, key)`: the first layout carrying the configured name;
   * failing that the fallback index when it is in range, else layout 0.
   * With no layouts at all, `slide_layouts[0]` raises: no layout.
   */
  function LayoutFor(layouts: seq<Layout>, key: string): (r: Option<nat>)
    ensures r.None? <==> layouts == []
    ensures r.Some? ==> r.value < |layouts|
    ensures LayoutName(key).Some? && FirstNamed(layouts, LayoutName(key).value) >= 0 ==>
      r == Some(FirstNamed(layouts, LayoutName(key).value) as nat)
    ensures layouts != [] && (LayoutName(key).None? || FirstNamed(layouts, LayoutName(key).value) < 0) ==>
      r == Some(if FallbackIndex(key) < |layouts| then FallbackIndex(key) else 0)
  {
    if LayoutName(key).Some? && FirstNamed(layouts, LayoutName(key).value) >= 0 then
      Some(FirstNamed(layouts, LayoutName(key).value) as nat)
    else if FallbackIndex(key) < |layouts| then Some(FallbackIndex(key))
    else if layouts != [] then Some(0)
    else None
  }

  /** The keywords of the strict filter; the MVP version keeps Header and Footer placeholders. */
  function StrictKeywords(v: Variant): seq<string> {
    match v
    case Backend => ["Title", "Picture", "Slide Number", "Table", "Header", "Footer"]
    case Mvp => ["Title", "Picture", "Slide Number", "Table"]
  }

  const RelaxedKeywords: seq<string> := ["Title", "Slide Number"]

  /** `any(keyword in name for keyword in keywords)`. */
  predicate Mentions(name: string, keywords: seq<string>) {
    exists i :: 0 <= i < |keywords| && HasSub(name, keywords[i])
  }

  /** The placeholders whose name mentions no keyword, in their order. */
  function Kept(ps: seq<Placeholder>, keywords: seq<string>): (r: seq<Placeholder>)
    ensures |r| <= |ps|
    ensures forall i :: 0 <= i < |r| ==> r[i] in ps && !Mentions(r[i].name, keywords)
    ensures forall i :: 0 <= i < |ps| && !Mentions(ps[i].name, keywords) ==> ps[i] in r
  {
    if ps == [] then []
    else
      var init := Kept(ps[..|ps| - 1], keywords);
      var last := ps[|ps| - 1];
      assert forall i :: 0 <= i < |ps| - 1 ==> ps[i] == ps[..|ps| - 1][i];
      if Mentions(last.name, keywords) then init else init + [last]
  }

  /** The filter drops every copy of a placeholder that mentions a keyword and keeps every copy of one that does not. */
  lemma {:induction false} KeptCount(ps: seq<Placeholder>, keywords: seq<string>, x: Placeholder)
    ensures multiset(Kept(ps, keywords))[x] == if Mentions(x.name, keywords) then 0 else multiset(ps)[x]
  {
    if ps != [] {
      var init := ps[..|ps| - 1];
      assert ps == init + [ps[|ps| - 1]];
      KeptCount(init, keywords, x);
    }
  }

  /** The filter keeps order: filtering a concatenation concatenates the filtered parts. */
  lemma {:induction false} KeptAppend(a: seq<Placeholder>, b: seq<Placeholder>, keywords: seq<string>)
    ensures Kept(a + b, keywords) == Kept(a, keywords) + Kept(b, keywords)
    decreases |b|
  {
    if b == [] {
      assert a + b == a;
    } else {
      var b0, last := b[..|b| - 1], b[|b| - 1];
      assert (a + b)[..|a + b| - 1] == a + b0;
      assert (a + b)[|a + b| - 1] == last;
      KeptAppend(a, b0, keywords);
    }
  }

  /** The sort key `(top, left)`, compared lexicographically. */
  predicate Before(a: Placeholder, b: Placeholder) {
    a.top < b.top || (a.top == b.top && a.left <= b.left)
  }

  predicate Sorted(ps: seq<Placeholder>) {
    forall i, j :: 0 <= i < j < |ps| ==> Before(ps[i], ps[j])
  }

  /** `x` placed after every element not after it, in a sorted list. */
  function Insert(s: seq<Placeholder>, x: Placeholder): (r: seq<Placeholder>)
    requires Sorted(s)
    ensures Sorted(r) && multiset(r) == multiset(s) + multiset{x}
  {
    if s == [] || Before(s[|s| - 1], x) then s + [x]
    else
      var init, last := s[..|s| - 1], s[|s| - 1];
      assert s == init + [last];
      var r0 := Insert(init, x);
      InsertBelow(init, last, x, r0);
      r0 + [last]
  }

  lemma InsertBelow(init: seq<Placeholder>, last: Placeholder, x: Placeholder, r0: seq<Placeholder>)
    requires Sorted(init + [last]) && !Before(last, x)
    requires Sorted(r0) && multiset(r0) == multiset(init) + multiset{x}
    ensures Sorted(r0 + [last])
  {
    var s := init + [last];
    forall i | 0 <= i < |r0| ensures Before(r0[i], last) {
      assert r0[i] in multiset(r0);
      if r0[i] != x {
        assert r0[i] in multiset(init);
        var k :| 0 <= k < |init| && init[k] == r0[i];
        assert s[k] == init[k] && s[|s| - 1] == last;
      }
    }
  }

  /** `sort(key=lambda p: (p.top, p.left))`. */
  function SortByPosition(ps: seq<Placeholder>): (r: seq<Placeholder>)
    ensures Sorted(r) && multiset(r) == multiset(ps)
  {
    if ps == [] then []
    else
      assert ps == ps[..|ps| - 1] + [ps[|ps| - 1]];
      Insert(SortByPosition(ps[..|ps| - 1]), ps[|ps| - 1])
  }

  /** Placeholder `p` is at position `(top, left)`. */
  predicate At(p: Placeholder, top: int, left: int) {
    p.top == top && p.left == left
  }

  /** The placeholders at position `(top, left)`, in their order. */
  function Tied(ps: seq<Placeholder>, top: int, left: int): seq<Placeholder> {
    if ps == [] then []
    else
      var init := Tied(ps[..|ps| - 1], top, left);
      var last := ps[|ps| - 1];
      if At(last, top, left) then init + [last] else init
  }

  /** `Tied` of a list with one more placeholder at its end. */
  lemma TiedSnoc(s: seq<Placeholder>, x: Placeholder, top: int, left: int)
    ensures At(x, top, left) ==> Tied(s + [x], top, left) == Tied(s, top, left) + [x]
    ensures !At(x, top, left) ==> Tied(s + [x], top, left) == Tied(s, top, left)
  {
    assert (s + [x])[..|s + [x]| - 1] == s;
  }

  /** Inserting `x` puts it after every placeholder tied with it. */
  lemma {:induction false} InsertTied(s: seq<Placeholder>, x: Placeholder, top: int, left: int)
    requires Sorted(s)
    ensures At(x, top, left) ==> Tied(Insert(s, x), top, left) == Tied(s, top, left) + [x]
    ensures !At(x, top, left) ==> Tied(Insert(s, x), top, left) == Tied(s, top, left)
    decreases |s|
  {
    if s == [] || Before(s[|s| - 1], x) {
      TiedSnoc(s, x, top, left);
    } else {
      var init, last := s[..|s| - 1], s[|s| - 1];
      assert s == init + [last];
      var r0 := Insert(init, x);
      assert Insert(s, x) == r0 + [last];
      InsertTied(init, x, top, left);
      TiedSnoc(r0, last, top, left);
      TiedSnoc(init, last, top, left);
      if At(last, top, left) {
        // `x` lies strictly before `last`, so it is not at (top, left).
        assert !At(x, top, left);
      }
    }
  }

  /**
   * The sort is stable, like Python's `sorted`: the placeholders sharing a
   * position come out in their input order.
   */
  lemma {:induction false} SortStable(ps: seq<Placeholder>, top: int, left: int)
    ensures Tied(SortByPosition(ps), top, left) == Tied(ps, top, left)
    decreases |ps|
  {
    if ps != [] {
      var init, last := ps[..|ps| - 1], ps[|ps| - 1];
      SortStable(init, top, left);
      InsertTied(SortByPosition(init), last, top, left);
    }
  }

  /**
   * `_get_body_placeholders`: the strictly filtered placeholders sorted by
   * position, or, when none pass, the relaxed filter's.
   */
  function Bodies(ps: seq<Placeholder>, v: Variant): seq<Placeholder> {
    var strict := SortByPosition(Kept(ps, StrictKeywords(v)));
    if strict != [] then strict else SortByPosition(Kept(ps, RelaxedKeywords))
  }

  /** A sorted filter keeps only placeholders of the slide that mention no keyword. */
  lemma SortedKept(ps: seq<Placeholder>, keywords: seq<string>, i: nat)
    requires i < |SortByPosition(Kept(ps, keywords))|
    ensures SortByPosition(Kept(ps, keywords))[i] in ps
    ensures !Mentions(SortByPosition(Kept(ps, keywords))[i].name, keywords)
  {
    var k := Kept(ps, keywords);
    var r := SortByPosition(k);
    assert r[i] in multiset(r);
    assert r[i] in multiset(k);
  }

  /** A name mentioning none of the keywords contains neither the first nor the third. */
  lemma NoTitleNoNumber(name: string, keywords: seq<string>)
    requires |keywords| >= 3 && keywords[0] == "Title" && keywords[2] == "Slide Number"
    requires !Mentions(name, keywords)
    ensures !HasSub(name, "Title") && !HasSub(name, "Slide Number")
  {
    assert !HasSub(name, keywords[0]);
    assert !HasSub(name, keywords[2]);
  }

  /** The sorted placeholders kept by a list naming "Title" and "Slide Number" are placeholders of the slide with neither in their name. */
  lemma SortedKeptClean(ps: seq<Placeholder>, keywords: seq<string>, r: seq<Placeholder>)
    requires "Title" in keywords && "Slide Number" in keywords
    requires r == SortByPosition(Kept(ps, keywords))
    ensures forall i :: 0 <= i < |r| ==> r[i] in ps && !HasSub(r[i].name, "Title") && !HasSub(r[i].name, "Slide Number")
  {
    var t :| 0 <= t < |keywords| && keywords[t] == "Title";
    var n :| 0 <= n < |keywords| && keywords[n] == "Slide Number";
    forall i | 0 <= i < |r| ensures r[i] in ps && !HasSub(r[i].name, "Title") && !HasSub(r[i].name, "Slide Number") {
      SortedKept(ps, keywords, i);
      assert !HasSub(r[i].name, keywords[t]) && !HasSub(r[i].name, keywords[n]);
    }
  }

  /**
   * The body placeholders are sorted by `(top, left)`, are placeholders of
   * the slide, and never a "Title" or "Slide Number" one; they are the
   * strict filter's exactly when that one keeps any, and the relaxed
   * filter's otherwise.
   */
  lemma BodiesShape(ps: seq<Placeholder>, v: Variant)
    ensures var r := Bodies(ps, v);
      && Sorted(r)
      && (forall i :: 0 <= i < |r| ==> r[i] in ps && !HasSub(r[i].name, "Title") && !HasSub(r[i].name, "Slide Number"))
      && (Kept(ps, StrictKeywords(v)) != [] ==> multiset(r) == multiset(Kept(ps, StrictKeywords(v))))
      && (Kept(ps, StrictKeywords(v)) == [] ==> multiset(r) == multiset(Kept(ps, RelaxedKeywords)))
  {
    var kw := StrictKeywords(v);
    var strict := Kept(ps, kw);
    assert |SortByPosition(strict)| == |strict| by {
      assert |multiset(SortByPosition(strict))| == |multiset(strict)|;
    }
    if strict != [] {
      assert Bodies(ps, v) == SortByPosition(strict);
      assert kw[0] == "Title" && kw[2] == "Slide Number";
      SortedKeptClean(ps, kw, Bodies(ps, v));
    } else {
      assert Bodies(ps, v) == SortByPosition(Kept(ps, RelaxedKeywords));
      assert RelaxedKeywords[0] == "Title" && RelaxedKeywords[1] == "Slide Number";
      SortedKeptClean(ps, RelaxedKeywords, Bodies(ps, v));
    }
  }

  /** `slide.shapes.title`: the first title placeholder. */
  function TitleShape(ps: seq<Placeholder>): (r: Option<Placeholder>)
    ensures r.Some? ==> r.value in ps && r.value.isTitle
    ensures r.None? ==> forall i :: 0 <= i < |ps| ==> !ps[i].isTitle
  {
    if ps == [] then None
    else if ps[0].isTitle then Some(ps[0])
    else TitleShape(ps[1..])
  }

  /**
   * The paragraphs `_set_placeholder_content` leaves: one per item, as
   * `str(item)`, for a list (a cleared frame keeps one empty paragraph);
   * otherwise the lines of `str(content)`.
   */
  function Paragraphs(content: Value, str: Value -> string): (r: seq<string>)
    ensures |r| >= 1
    ensures content.Arr? && content.items != [] ==>
      |r| == |content.items| && forall i :: 0 <= i < |r| ==> r[i] == str(content.items[i])
    ensures content.Arr? && content.items == [] ==> r == [""]
    ensures !content.Arr? ==> JoinWith(r, "\n") == str(content)
  {
    if content.Arr? then
      if content.items == [] then [""] else seq(|content.items|, i requires 0 <= i < |content.items| => str(content.items[i]))
    else
      SplitOnJoin(str(content), "\n");
      SplitOn(str(content), "\n")
  }

  /** A page after `_set_placeholder_content(ph, content)`: no change without a text frame. */
  function Put(p: Page, ph: Placeholder, content: Value, str: Value -> string): Page {
    if ph.hasTextFrame then Page(p.layout, p.texts[ph.idx := Paragraphs(content, str)]) else p
  }

  /**
   * `add_slide` on the layout for `key`, then the title written into the
   * title shape.  Without a layout nothing is added; a title that is not
   * text raises once the page is there.
   */
  function NewPage(layouts: seq<Layout>, key: string, title: Value): (r: Made)
    ensures r.page.None? <==> layouts == []
    ensures r.page.None? ==> r.raised
    ensures r.page.Some? ==> Some(r.page.value.layout) == LayoutFor(layouts, key)
    ensures r.page.Some? ==> match TitleShape(layouts[r.page.value.layout].placeholders)
      case None => r.page.value.texts == map[] && !r.raised
      case Some(t) =>
        && (title.Str? ==> r.page.value.texts == map[t.idx := SplitOn(title.s, "\n")])
        && (r.raised <==> !title.Str?)
  {
    match LayoutFor(layouts, key)
    case None => Made(None, true)
    case Some(li) =>
      match TitleShape(layouts[li].placeholders)
      case None => Made(Some(Page(li, map[])), false)
      case Some(t) =>
        if title.Str? then Made(Some(Page(li, map[t.idx := SplitOn(title.s, "\n")])), false)
        else Made(Some(Page(li, map[])), true)
  }

  /** The body of a title page: the subtitle in the first body placeholder, when it is truthy and there is one. */
  function FillTitle(p: Page, b: seq<Placeholder>, subtitle: Value, str: Value -> string): Page {
    if PyTruthy(subtitle) && b != [] then Put(p, b[0], subtitle, str) else p
  }

  /** The body of a content page: the content in the first body placeholder, if any. */
  function FillContent(p: Page, b: seq<Placeholder>, content: Value, str: Value -> string): Page {
    if b != [] then Put(p, b[0], content, str) else p
  }

  /** The body of a two-column page: left in the first body placeholder, right in the second. */
  function FillColumns(p: Page, b: seq<Placeholder>, left: Value, right: Value, str: Value -> string): Page {
    var p1 := if |b| >= 1 then Put(p, b[0], left, str) else p;
    if |b| >= 2 then Put(p1, b[1], right, str) else p1
  }

  /** The body placeholders of the layout a page was added on. */
  function PageBodies(layouts: seq<Layout>, p: Page, v: Variant): seq<Placeholder>
    requires p.layout < |layouts|
  {
    Bodies(layouts[p.layout].placeholders, v)
  }

  /** `_create_title_slide`. */
  function TitleSlide(layouts: seq<Layout>, title: Value, subtitle: Value, v: Variant, str: Value -> string): (r: Made)
    ensures r.page.None? <==> layouts == []
    ensures r.page.Some? ==> Some(r.page.value.layout) == LayoutFor(layouts, "title")
  {
    var m := NewPage(layouts, "title", title);
    if m.raised then m
    else Made(Some(FillTitle(m.page.value, PageBodies(layouts, m.page.value, v), subtitle, str)), false)
  }

  /** `_create_content_slide`. */
  function ContentSlide(layouts: seq<Layout>, title: Value, content: Value, v: Variant, str: Value -> string): (r: Made)
    ensures r.page.None? <==> layouts == []
    ensures r.page.Some? ==> Some(r.page.value.layout) == LayoutFor(layouts, "content")
  {
    var m := NewPage(layouts, "content", title);
    if m.raised then m
    else Made(Some(FillContent(m.page.value, PageBodies(layouts, m.page.value, v), content, str)), false)
  }

  /** `_create_two_column_slide`. */
  function TwoColumnSlide(layouts: seq<Layout>, title: Value, left: Value, right: Value, v: Variant, str: Value -> string): (r: Made)
    ensures r.page.None? <==> layouts == []
    ensures r.page.Some? ==> Some(r.page.value.layout) == LayoutFor(layouts, "two_column")
  {
    var m := NewPage(layouts, "two_column", title);
    if m.raised then m
    else Made(Some(FillColumns(m.page.value, PageBodies(layouts, m.page.value, v), left, right, str)), false)
  }

  /** `dict.get(key, d)`. */
  function Get(info: Value, key: string, d: Value): Value
    requires info.Obj?
  {
    if key in info.fields then info.fields[key] else d
  }

  /** The default title of entry `index`: "幻灯片 <index + 1>". */
  function EntryTitle(index: nat): Value {
    Str("幻灯片 " + NatToString(index + 1))
  }

  /**
   * `_create_slide_by_type(prs, info, index)`.  An entry that is not a
   * dict has no `get` and raises before anything is added.
   */
  function SlideByType(layouts: seq<Layout>, info: Value, index: nat, v: Variant, str: Value -> string): (r: Made)
    ensures r.page.Some? ==> info.Obj? && layouts != []
    ensures info.Obj? && layouts != [] ==> r.page.Some?
  {
    if !info.Obj? then Made(None, true)
    else
      var kind := Get(info, "slide_type", Str("content"));
      var title := Get(info, "title", EntryTitle(index));
      if kind == Str("title") then TitleSlide(layouts, title, Get(info, "subtitle", Str("")), v, str)
      else if kind == Str("two_column") then
        TwoColumnSlide(layouts, title, Get(info, "left_content", Str("")), Get(info, "right_content", Str("")), v, str)
      else ContentSlide(layouts, title, Get(info, "content", Str("")), v, str)
  }

  function PageList(m: Made): seq<Page> {
    if m.page.Some? then [m.page.value] else []
  }

  /** The pages the loop over the entries adds: each entry's own, whether an earlier one raised or not. */
  function Pages(layouts: seq<Layout>, data: seq<Value>, v: Variant, str: Value -> string): (r: seq<Page>)
    ensures |r| <= |data|
  {
    if data == [] then []
    else Pages(layouts, data[..|data| - 1], v, str) + PageList(SlideByType(layouts, data[|data| - 1], |data| - 1, v, str))
  }

  /** The pages of the presentation `create_from_template` returns. */
  function Deck(layouts: seq<Layout>, title: string, data: Option<seq<Value>>, v: Variant, str: Value -> string): seq<Page> {
    if data.None? || data.value == [] then PageList(TitleSlide(layouts, Str(title), Str(""), v, str))
    else Pages(layouts, data.value, v, str)
  }

  /** The exporter's answer for the variant. */
  function Export(v: Variant, saved: seq<bv8>, title: string): Output {
    match v
    case Backend => Real(Exporter.ExportPpt(saved, Some(title)))
    case Mvp => Mock(saved, title + ".pptx")
  }

  class Presentation {
    const layouts: seq<Layout>
    var slides: seq<Page>

    constructor(layouts0: seq<Layout>, slides0: seq<Page>)
      ensures layouts == layouts0 && slides == slides0
    {
      layouts, slides := layouts0, slides0;
    }

    /** `_clear_existing_slides`: the slide list is emptied from the back. */
    method ClearExistingSlides()
      modifies this`slides
      ensures slides == []
    {
      var i := |slides| - 1;
      while i >= 0
        invariant -1 <= i < |slides| && |slides| == i + 1
      {
        slides := slides[..i];
        i := i - 1;
      }
    }

    /** `prs.slides.add_slide(layout)`: an empty page at the end. */
    method AddSlide(li: nat)
      modifies this`slides
      ensures slides == old(slides) + [Page(li, map[])]
    {
      slides := slides + [Page(li, map[])];
    }

    /** The paragraphs of placeholder `idx` of the last page are `paras`. */
    method SetText(idx: nat, paras: seq<string>)
      requires slides != []
      modifies this`slides
      ensures var n := |old(slides)|; var last := old(slides)[n - 1];
        slides == old(slides)[..n - 1] + [Page(last.layout, last.texts[idx := paras])]
    {
      var last := slides[|slides| - 1];
      slides := slides[..|slides| - 1] + [Page(last.layout, last.texts[idx := paras])];
    }
  }

  /** `_get_layout`: the loop over the layouts looking for the configured name. */
  method GetLayout(prs: Presentation, key: string) returns (r: Option<nat>)
    ensures r == LayoutFor(prs.layouts, key)
  {
    var target := LayoutName(key);
    var i := 0;
    while i < |prs.layouts|
      invariant 0 <= i <= |prs.layouts|
      invariant target.Some? ==> forall j :: 0 <= j < i ==> prs.layouts[j].name != target.value
    {
      if target.Some? && prs.layouts[i].name == target.value {
        return Some(i);
      }
      i := i + 1;
    }
    var fallback := FallbackIndex(key);
    if fallback < |prs.layouts| {
      return Some(fallback);
    }
    if |prs.layouts| == 0 {
      return None;
    }
    return Some(0);
  }

  /** `_get_body_placeholders`: the two filtering loops, each followed by the sort. */
  method BodyPlaceholders(ps: seq<Placeholder>, v: Variant) returns (r: seq<Placeholder>)
    ensures r == Bodies(ps, v)
  {
    r := [];
    var strict := StrictKeywords(v);
    for i := 0 to |ps|
      invariant r == Kept(ps[..i], strict)
    {
      assert ps[..i + 1][..i] == ps[..i];
      if !Mentions(ps[i].name, strict) {
        r := r + [ps[i]];
      }
    }
    assert ps[..|ps|] == ps;
    r := SortByPosition(r);
    if r == [] {
      for i := 0 to |ps|
        invariant r == Kept(ps[..i], RelaxedKeywords)
      {
        assert ps[..i + 1][..i] == ps[..i];
        if !Mentions(ps[i].name, RelaxedKeywords) {
          r := r + [ps[i]];
        }
      }
      r := SortByPosition(r);
    }
  }

  /** `_set_placeholder_content` on the last page. */
  method SetPlaceholderContent(prs: Presentation, ph: Placeholder, content: Value, str: Value -> string)
    requires prs.slides != []
    modifies prs`slides
    ensures var n := |old(prs.slides)|;
      prs.slides == old(prs.slides)[..n - 1] + [Put(old(prs.slides)[n - 1], ph, content, str)]
  {
    if !ph.hasTextFrame {
      assert old(prs.slides) == old(prs.slides)[..|old(prs.slides)| - 1] + [old(prs.slides)[|old(prs.slides)| - 1]];
      return;
    }
    var paras: seq<string>;
    if content.Arr? {
      paras := [""];
      var items := content.items;
      for i := 0 to |items|
        invariant i == 0 ==> paras == [""]
        invariant i > 0 ==> |paras| == i && forall j :: 0 <= j < i ==> paras[j] == str(items[j])
      {
        if i == 0 {
          paras := [str(items[0])];
        } else {
          paras := paras + [str(items[i])];
        }
      }
    } else {
      paras := SplitOn(str(content), "\n");
    }
    assert paras == Paragraphs(content, str);
    prs.SetText(ph.idx, paras);
  }

  /** The first steps of every `_create_*_slide`: the layout, `add_slide`, the title. */
  method StartPage(prs: Presentation, key: string, title: Value) returns (raised: bool)
    modifies prs`slides
    ensures var m := NewPage(prs.layouts, key, title);
      && raised == m.raised
      && prs.slides == old(prs.slides) + PageList(m)
  {
    var li := GetLayout(prs, key);
    if li.None? {
      return true;
    }
    prs.AddSlide(li.value);
    var t := TitleShape(prs.layouts[li.value].placeholders);
    if t.Some? {
      if !title.Str? {
        return true;
      }
      prs.SetText(t.value.idx, SplitOn(title.s, "\n"));
    }
    return false;
  }

  method CreateTitleSlide(prs: Presentation, title: Value, subtitle: Value, v: Variant, str: Value -> string) returns (raised: bool)
    modifies prs`slides
    ensures var m := TitleSlide(prs.layouts, title, subtitle, v, str);
      raised == m.raised && prs.slides == old(prs.slides) + PageList(m)
  {
    ghost var base := prs.slides;
    raised := StartPage(prs, "title", title);
    if raised {
      return;
    }
    var p := prs.slides[|prs.slides| - 1];
    DropLast(base, p);
    var b := BodyPlaceholders(prs.layouts[p.layout].placeholders, v);
    if PyTruthy(subtitle) && b != [] {
      SetPlaceholderContent(prs, b[0], subtitle, str);
    }
    assert prs.slides == base + [FillTitle(p, b, subtitle, str)];
  }

  method CreateContentSlide(prs: Presentation, title: Value, content: Value, v: Variant, str: Value -> string) returns (raised: bool)
    modifies prs`slides
    ensures var m := ContentSlide(prs.layouts, title, content, v, str);
      raised == m.raised && prs.slides == old(prs.slides) + PageList(m)
  {
    ghost var base := prs.slides;
    raised := StartPage(prs, "content", title);
    if raised {
      return;
    }
    var p := prs.slides[|prs.slides| - 1];
    DropLast(base, p);
    var b := BodyPlaceholders(prs.layouts[p.layout].placeholders, v);
    if b != [] {
      SetPlaceholderContent(prs, b[0], content, str);
    }
    assert prs.slides == base + [FillContent(p, b, content, str)];
  }

  method CreateTwoColumnSlide(prs: Presentation, title: Value, left: Value, right: Value, v: Variant, str: Value -> string)
    returns (raised: bool)
    modifies prs`slides
    ensures var m := TwoColumnSlide(prs.layouts, title, left, right, v, str);
      raised == m.raised && prs.slides == old(prs.slides) + PageList(m)
  {
    ghost var base := prs.slides;
    raised := StartPage(prs, "two_column", title);
    if raised {
      return;
    }
    var p := prs.slides[|prs.slides| - 1];
    DropLast(base, p);
    var b := BodyPlaceholders(prs.layouts[p.layout].placeholders, v);
    PutColumns(prs, b, left, right, str);
    assert prs.slides == base + [FillColumns(p, b, left, right, str)];
  }

  /** The two `_set_placeholder_content` calls of `_create_two_column_slide`, on the last page. */
  method PutColumns(prs: Presentation, b: seq<Placeholder>, left: Value, right: Value, str: Value -> string)
    requires prs.slides != []
    modifies prs`slides
    ensures var n := |old(prs.slides)|;
      prs.slides == old(prs.slides)[..n - 1] + [FillColumns(old(prs.slides)[n - 1], b, left, right, str)]
  {
    ghost var base := prs.slides[..|prs.slides| - 1];
    ghost var p := prs.slides[|prs.slides| - 1];
    if |b| >= 1 {
      SetPlaceholderContent(prs, b[0], left, str);
      DropLast(base, Put(p, b[0], left, str));
    }
    if |b| >= 2 {
      SetPlaceholderContent(prs, b[1], right, str);
    }
  }

  method CreateSlideByType(prs: Presentation, info: Value, index: nat, v: Variant, str: Value -> string) returns (raised: bool)
    modifies prs`slides
    ensures var m := SlideByType(prs.layouts, info, index, v, str);
      raised == m.raised && prs.slides == old(prs.slides) + PageList(m)
  {
    if !info.Obj? {
      return true;
    }
    var kind := Get(info, "slide_type", Str("content"));
    var title := Get(info, "title", EntryTitle(index));
    if kind == Str("title") {
      raised := CreateTitleSlide(prs, title, Get(info, "subtitle", Str("")), v, str);
    } else if kind == Str("two_column") {
      raised := CreateTwoColumnSlide(prs, title, Get(info, "left_content", Str("")), Get(info, "right_content", Str("")), v, str);
    } else {
      raised := CreateContentSlide(prs, title, Get(info, "content", Str("")), v, str);
    }
  }

  /**
   * `create_from_template(title, slides_data)` on the presentation
   * `_load_resource` gave (`layouts` and `existing` slides); `saved` is
   * what saving it writes.  The existing slides are always cleared; each
   * entry is tried in turn, and one that raises is skipped.  Without
   * entries the title page is not guarded: when it raises, so does the
   * call, and nothing is exported.
   */
  method CreateFromTemplate(v: Variant, layouts: seq<Layout>, existing: seq<Page>, saved: seq<bv8>,
                            title: string, data: Option<seq<Value>>, str: Value -> string)
    returns (prs: Presentation, out: Option<Output>)
    ensures prs.layouts == layouts
    ensures prs.slides == Deck(layouts, title, data, v, str)
    ensures out.None? <==> (data.None? || data.value == []) && layouts == []
    ensures out.Some? ==> out.value == Export(v, saved, title)
  {
    prs := new Presentation(layouts, existing);
    prs.ClearExistingSlides();
    if data.None? || data.value == [] {
      var raised := CreateTitleSlide(prs, Str(title), Str(""), v, str);
      if raised {
        return prs, None;
      }
    } else {
      AddEntries(prs, data.value, v, str);
    }
    out := Some(Export(v, saved, title));
  }

  /** The guarded loop of `create_from_template` over the entries, on a cleared presentation. */
  method AddEntries(prs: Presentation, entries: seq<Value>, v: Variant, str: Value -> string)
    requires prs.slides == []
    modifies prs`slides
    ensures prs.slides == Pages(prs.layouts, entries, v, str)
  {
    for i := 0 to |entries|
      invariant prs.slides == Pages(prs.layouts, entries[..i], v, str)
    {
      assert entries[..i + 1][..i] == entries[..i];
      var _ := CreateSlideByType(prs, entries[i], i, v, str);
    }
    assert entries[..|entries|] == entries;
  }

  /** Without entries there is exactly one page, a title page with the given title, on the title layout. */
  lemma NoDataOneTitlePage(layouts: seq<Layout>, title: string, v: Variant, str: Value -> string)
    requires layouts != []
    ensures var d := Deck(layouts, title, None, v, str);
      && |d| == 1 && Some(d[0].layout) == LayoutFor(layouts, "title")
      && (TitleShape(layouts[d[0].layout].placeholders).Some? ==>
            d[0].texts == map[TitleShape(layouts[d[0].layout].placeholders).value.idx := SplitOn(title, "\n")])
  {
    var m := NewPage(layouts, "title", Str(title));
    assert !m.raised && m.page.Some?;
    assert !PyTruthy(Str(""));
    assert TitleSlide(layouts, Str(title), Str(""), v, str) == m;
  }

  /** With a template that has layouts, every dict entry adds its page, whatever the others do. */
  lemma {:induction false} EveryEntryTried(layouts: seq<Layout>, data: seq<Value>, v: Variant, str: Value -> string)
    requires layouts != [] && forall i :: 0 <= i < |data| ==> data[i].Obj?
    ensures |Pages(layouts, data, v, str)| == |data|
    decreases |data|
  {
    if data != [] {
      EveryEntryTried(layouts, data[..|data| - 1], v, str);
    }
  }

  /** An entry's pages sit after the pages of the entries before it. */
  lemma {:induction false} PagesPrefix(layouts: seq<Layout>, data: seq<Value>, k: nat, v: Variant, str: Value -> string)
    requires k <= |data|
    ensures Pages(layouts, data[..k], v, str) <= Pages(layouts, data, v, str)
    decreases |data| - k
  {
    if k < |data| {
      PagesPrefix(layouts, data[..|data| - 1], k, v, str);
      assert data[..|data| - 1][..k] == data[..k];
    } else {
      assert data[..k] == data;
    }
  }

  /**
   * Dispatch defaults: a missing `slide_type` is "content" and any type
   * but "title" and "two_column" is drawn as a content slide; a missing
   * title is "幻灯片 <index + 1>".
   */
  lemma DispatchDefaults(layouts: seq<Layout>, info: Value, index: nat, v: Variant, str: Value -> string)
    requires info.Obj?
    requires "slide_type" !in info.fields || (info.fields["slide_type"] != Str("title") && info.fields["slide_type"] != Str("two_column"))
    ensures SlideByType(layouts, info, index, v, str)
      == ContentSlide(layouts, if "title" in info.fields then info.fields["title"] else EntryTitle(index),
                      if "content" in info.fields then info.fields["content"] else Str(""), v, str)
  {
  }

  /**
   * A two-column page: left in the first body placeholder, right in the
   * second; with a single body placeholder the right content is dropped.
   */
  lemma TwoColumnPlacement(layouts: seq<Layout>, title: Value, left: Value, right: Value, v: Variant, str: Value -> string)
    requires layouts != [] && !TwoColumnSlide(layouts, title, left, right, v, str).raised
    ensures var p := TwoColumnSlide(layouts, title, left, right, v, str).page.value;
      var m := NewPage(layouts, "two_column", title).page.value;
      var b := Bodies(layouts[m.layout].placeholders, v);
      && p.layout == m.layout
      && (|b| >= 1 && b[0].hasTextFrame && (|b| < 2 || b[1].idx != b[0].idx) ==> p.texts[b[0].idx] == Paragraphs(left, str))
      && (|b| >= 2 && b[1].hasTextFrame ==> p.texts[b[1].idx] == Paragraphs(right, str))
      && (|b| == 1 ==> p.texts.Keys <= m.texts.Keys + {b[0].idx})
      && (|b| == 0 ==> p == m)
  {
    var m := NewPage(layouts, "two_column", title);
    assert !m.raised;
    var m0 := m.page.value;
    var b := Bodies(layouts[m0.layout].placeholders, v);
    var p := TwoColumnSlide(layouts, title, left, right, v, str).page.value;
    if |b| >= 2 {
      assert p == Put(Put(m0, b[0], left, str), b[1], right, str);
    } else if |b| == 1 {
      assert p == Put(m0, b[0], left, str);
    } else {
      assert p == m0;
    }
  }

  /** A content page: the content in the first body placeholder, and nothing written without one. */
  lemma ContentPlacement(layouts: seq<Layout>, title: Value, content: Value, v: Variant, str: Value -> string)
    requires layouts != [] && !ContentSlide(layouts, title, content, v, str).raised
    ensures var p := ContentSlide(layouts, title, content, v, str).page.value;
      var m := NewPage(layouts, "content", title).page.value;
      var b := Bodies(layouts[m.layout].placeholders, v);
      && (b == [] || !b[0].hasTextFrame ==> p == m)
      && (b != [] && b[0].hasTextFrame ==> p.layout == m.layout && p.texts == m.texts[b[0].idx := Paragraphs(content, str)])
  {
    var m := NewPage(layouts, "content", title);
    assert !m.raised;
    var m0 := m.page.value;
    var b := Bodies(layouts[m0.layout].placeholders, v);
    var p := ContentSlide(layouts, title, content, v, str).page.value;
    if b != [] {
      assert p == Put(m0, b[0], content, str);
    } else {
      assert p == m0;
    }
  }

  /** A title page's subtitle is written only when it is truthy and a body placeholder exists. */
  lemma SubtitleOnlyWhenPresent(layouts: seq<Layout>, title: Value, subtitle: Value, v: Variant, str: Value -> string)
    requires layouts != [] && !TitleSlide(layouts, title, subtitle, v, str).raised
    ensures var p := TitleSlide(layouts, title, subtitle, v, str).page.value;
      var m := NewPage(layouts, "title", title).page.value;
      var b := Bodies(layouts[m.layout].placeholders, v);
      && (!PyTruthy(subtitle) || b == [] ==> p == m)
      && (PyTruthy(subtitle) && b != [] && b[0].hasTextFrame ==> p.texts == m.texts[b[0].idx := Paragraphs(subtitle, str)])
  {
    var m := NewPage(layouts, "title", title);
    assert !m.raised;
    var m0 := m.page.value;
    var b := Bodies(layouts[m0.layout].placeholders, v);
    var p := TitleSlide(layouts, title, subtitle, v, str).page.value;
    if PyTruthy(subtitle) && b != [] {
      assert p == Put(m0, b[0], subtitle, str);
    } else {
      assert p == m0;
    }
  }

  /** A pattern whose first character is not in the text does not occur in it (used by `HeaderKeptOnlyByMvp`). */
  lemma FirstCharAbsent(s: string, pat: string)
    requires |pat| > 0 && pat[0] !in s
    ensures !HasSub(s, pat)
  {
    forall j | 0 <= j <= |s| - |pat| ensures !OccursAt(s, pat, j) {
      assert s[j..j + |pat|][0] == s[j];
    }
  }

  /**
   * Documents how the two strict filters differ: the MVP one keeps a
   * "Header" placeholder that the back-end one drops.  Placeholders cloned
   * by `add_slide` never carry that name, so no page differs because of it.
   */
  lemma HeaderKeptOnlyByMvp()
    ensures var header := Placeholder(1, "Header", 0, 0, false, true);
      !Mentions(header.name, StrictKeywords(Mvp)) && Mentions(header.name, StrictKeywords(Backend))
  {
    var name := "Header";
    assert OccursAt(name, "Header", 0);
    assert HasSub(name, StrictKeywords(Backend)[4]);
    forall i | 0 <= i < |StrictKeywords(Mvp)| ensures !HasSub(name, StrictKeywords(Mvp)[i]) {
      FirstCharAbsent(name, StrictKeywords(Mvp)[i]);
    }
  }
}
