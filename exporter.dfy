/**
 * `PPTExporter` of `backend/app/services/exporter.py`: the presentation is
 * saved into an in-memory buffer and returned with its metadata.  What
 * `Presentation.save` writes is the input `saved`.
 */
module Exporter {
  import opened Strings

  const PptxContentType := "application/vnd.openxmlformats-officedocument.presentationml.presentation"

  /** The dict `export_ppt` returns. */
  datatype Exported = Exported(buffer: seq<bv8>, contentType: string, filename: string, fileSize: nat)

  /**
   * `_generate_filename(title)`: no title or an empty one gives
   * "presentation.pptx"; otherwise every ASCII space of the title becomes
   * "_", every other character is kept, and ".pptx" follows.
   */
  function GenerateFilename(title: Option<string>): (r: string)
    ensures EndsWith(r, ".pptx")
    ensures title.None? || title == Some("") ==> r == "presentation.pptx"
    ensures title.Some? && title.value != "" ==>
      && |r| == |title.value| + |".pptx"|
      && forall i :: 0 <= i < |title.value| ==> r[i] == if title.value[i] == ' ' then '_' else title.value[i]
    ensures title.Some? && title.value != "" ==> ' ' !in r[..|title.value|]
  {
    var base := if title.Some? && title.value != "" then ReplaceChar(title.value, ' ', '_') else "presentation";
    var name := base + ".pptx";
    assert name[|name| - |".pptx"|..] == ".pptx";
    assert name[..|base|] == base;
    name
  }

  /** A generated name never holds a space, whatever the title. */
  lemma {:induction false} FilenameHasNoSpace(title: Option<string>)
    ensures ' ' !in GenerateFilename(title)
  {
    var r := GenerateFilename(title);
    var cut := |r| - |".pptx"|;
    assert r[cut..] == ".pptx";
    assert r == r[..cut] + r[cut..];
    if title.Some? && title.value != "" {
      assert ' ' !in r[..cut];
    } else {
      assert r[..cut] == "presentation";
    }
  }

  /**
   * `export_ppt`: the saved bytes with their count, the presentation
   * content type, and a download name that ends in ".pptx" and holds no
   * space.
   */
  function ExportPpt(saved: seq<bv8>, title: Option<string>): (r: Exported)
    ensures r.buffer == saved && r.fileSize == |r.buffer|
    ensures r.contentType == PptxContentType
    ensures r.filename == GenerateFilename(title)
    ensures EndsWith(r.filename, ".pptx") && ' ' !in r.filename
  {
    FilenameHasNoSpace(title);
    Exported(saved, PptxContentType, GenerateFilename(title), |saved|)
  }

  /** A title without spaces is kept as it is. */
  lemma PlainTitleKept(title: string)
    requires title != "" && ' ' !in title
    ensures GenerateFilename(Some(title)) == title + ".pptx"
  {
    var r := GenerateFilename(Some(title));
    assert r[..|title|] == title;
    assert r[|title|..] == ".pptx";
    assert r == r[..|title|] + r[|title|..];
  }
}
