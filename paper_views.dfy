/** The document preview and PDF views. Both read the sequence part of the
    stored number (the text after the last `/`), add 99 so that printed
    numbers start at 100, and show it zero-padded to four digits on the
    in-memory entry only; the stored number is not written back. */
module PaperViews {
  import opened Wrappers
  import opened Text
  import opened PaperModels
  import opened PaperSignals

  /** The offset between the stored sequence and the printed one. */
  const DisplayOffset := 99

  /** int() of the last `/` piece plus the offset; None where int() raises ValueError. */
  function DisplaySequence(paperNumber: string): (r: Option<int>)
    ensures r.Some? <==> ParseInt(LastPiece(paperNumber, '/')).Some?
    ensures r.Some? ==> r.value - DisplayOffset == ParseInt(LastPiece(paperNumber, '/')).value
  {
    match ParseInt(LastPiece(paperNumber, '/'))
    case None => None
    case Some(v) => Some(v + DisplayOffset)
  }

  /** The number shown on the document: the display sequence padded to four digits. */
  function DisplayNumber(paperNumber: string): (r: Option<string>)
    ensures r.Some? <==> DisplaySequence(paperNumber).Some?
    ensures r.Some? ==> ParseInt(r.value) == DisplaySequence(paperNumber)
  {
    match DisplaySequence(paperNumber)
    case None => None
    case Some(d) => Pad4RoundTrip(d); Some(Pad4(d))
  }

  /** The per-company template of a document type: an HTML file under papers/. */
  function TemplatePath(slug: string, paperType: string): (r: string)
    ensures |r| >= 12 && r[..7] == "papers/" && r[|r| - 5..] == ".html"
  {
    var r := "papers/" + slug + "/" + paperType + ".html";
    assert r[..7] == "papers/" && r[|r| - 5..] == ".html";
    r
  }

  /** The download name of a PDF: type, upper-case slug and padded display
      number, a .pdf name with at least four digits' room for the number. */
  function PdfFilename(paperType: string, slug: string, display: int): (r: string)
    ensures |r| >= 10 && r[|r| - 4..] == ".pdf"
  {
    var r := paperType + "_" + Upper(slug) + "_" + Pad4(display) + ".pdf";
    assert r[|r| - 4..] == ".pdf";
    r
  }

  /** The preview view: returns the template to render, or None where the
      sequence part is not an integer (the request then fails). */
  method PaperPreview(entry: PaperEntry, paperType: string) returns (template: Option<string>)
    modifies entry`paperNumber
    ensures template.Some? <==> DisplayNumber(old(entry.paperNumber)).Some?
    ensures template.Some? ==> template.value == TemplatePath(entry.companySlug, paperType)
    ensures template.Some? ==> Some(entry.paperNumber) == DisplayNumber(old(entry.paperNumber))
    ensures template.None? ==> entry.paperNumber == old(entry.paperNumber)
  {
    var display := DisplaySequence(entry.paperNumber);
    if display.None? {
      return None;
    }
    entry.paperNumber := Pad4(display.value);
    template := Some(TemplatePath(entry.companySlug, paperType));
  }

  /** What the PDF view hands to the renderer and to the download. */
  datatype PdfResponse = PdfResponse(template: string, filename: string)

  /** The PDF view: the same override as the preview, plus the download name. */
  method PaperPdf(entry: PaperEntry, paperType: string) returns (response: Option<PdfResponse>)
    modifies entry`paperNumber
    ensures response.Some? <==> DisplayNumber(old(entry.paperNumber)).Some?
    ensures response.Some? ==> response.value == PdfResponse(
      TemplatePath(entry.companySlug, paperType),
      PdfFilename(paperType, entry.companySlug, DisplaySequence(old(entry.paperNumber)).value))
    ensures response.Some? ==> Some(entry.paperNumber) == DisplayNumber(old(entry.paperNumber))
    ensures response.None? ==> entry.paperNumber == old(entry.paperNumber)
  {
    var display := DisplaySequence(entry.paperNumber);
    if display.None? {
      return None;
    }
    entry.paperNumber := Pad4(display.value);
    var path := TemplatePath(entry.companySlug, paperType);
    var filename := PdfFilename(paperType, entry.companySlug, display.value);
    response := Some(PdfResponse(path, filename));
  }

  /** A generated number with count c is displayed as c + 99. */
  lemma DisplayOfGenerated(slug: string, year: nat, count: nat)
    requires '/' !in slug
    ensures DisplaySequence(FormatPaperNumber(slug, year, count)) == Some(count + DisplayOffset)
    ensures DisplayNumber(FormatPaperNumber(slug, year, count)) == Some(Pad4(count + DisplayOffset))
  {
    FormatPaperNumberParts(slug, year, count);
  }

  /** The first document of a company is displayed as 0100, whatever the year. */
  lemma FirstDocumentDisplay(slug: string, year: nat, rows: seq<EntryRow>)
    requires '/' !in slug && CompanyCount(rows, slug) == 0
    ensures DisplayNumber(AssignedNumber("", slug, rows, year)) == Some("0100")
  {
    assert AssignedNumber("", slug, rows, year) == FormatPaperNumber(slug, year, 1);
    DisplayOfGenerated(slug, year, 1);
    PadHundred();
  }

  lemma PadHundred()
    ensures Pad4(100) == "0100"
  {
    assert DigitString(1) == "1";
    assert DigitString(10) == "10";
    assert DigitString(100) == "100";
    assert Zeros(1) == "0";
  }

  lemma NoSeparatorInPadded(x: int, c: char)
    requires !IsDigit(c) && c != '-'
    ensures c !in Pad4(x)
  {
    if x >= 0 {
      Pad4Width(x);
    } else {
      var d := DigitString(-x);
      var p := PadDigits(d, 3);
      assert p == (if |d| < 3 then Zeros(3 - |d|) + d else d);
      assert forall i :: 0 <= i < |p| ==> IsDigit(p[i]);
    }
  }

  /** For a slug and a type without `/`, the template path is the three
      directory levels `papers`, the slug, and the type's `.html` file. */
  lemma TemplatePathParts(slug: string, paperType: string)
    requires '/' !in slug && '/' !in paperType
    ensures Split(TemplatePath(slug, paperType), '/') == ["papers", slug, paperType + ".html"]
  {
    var t := paperType + ".html";
    assert '/' !in t by { assert forall i :: 0 <= i < |t| ==> t[i] != '/'; }
    assert '/' !in "papers";
    assert TemplatePath(slug, paperType) == "papers" + ['/'] + slug + ['/'] + t;
    SplitThree("papers", slug, t, '/');
  }

  /** For a type and slug without `_`, the filename splits on `_` into the type,
      the upper-case slug and the padded display number, which reads back. */
  lemma PdfFilenameParts(paperType: string, slug: string, display: int)
    requires '_' !in paperType && '_' !in slug
    ensures Split(PdfFilename(paperType, slug, display), '_') ==
      [paperType, Upper(slug), Pad4(display) + ".pdf"]
    ensures ParseInt(Pad4(display)) == Some(display)
  {
    var u, e := Upper(slug), Pad4(display) + ".pdf";
    UpperKeepsSeparatorOut(slug, '_');
    NoSeparatorInPadded(display, '_');
    assert '_' !in e by { assert forall i :: 0 <= i < |e| ==> e[i] != '_'; }
    assert PdfFilename(paperType, slug, display) == paperType + ['_'] + u + ['_'] + e;
    SplitThree(paperType, u, e, '_');
    Pad4RoundTrip(display);
  }
}
