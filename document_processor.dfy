/** File-type and size validation and text extraction
    (`backend/app/services/document_processor.py`). The PDF, DOCX and UTF-8
    decoders are parameters (`Extractors`); the model states how their output
    is filtered, numbered and joined, and which failures are `ValueError`s. */
module DocumentProcessor {
  import opened Wrappers
  import opened Text
  import opened Records
  import Config

  /** A raised exception: a `ValueError` (turned into a 400 by the upload
      route) or any other exception. */
  datatype Failure = ValueError(msg: string) | OtherError(msg: string)

  const SupportedTypes: seq<string> := ["pdf", "docx", "txt"]
  /** `str(self.supported_types)`. */
  const SupportedTypesText: string := "['pdf', 'docx', 'txt']"

  // ------------------------------------------------------------ validation

  /** `get_file_type`: the lower-cased text after the last '.', accepted when
      it is a supported type. */
  function GetFileType(filename: string): (r: Result<string, Failure>)
    ensures r.Ok? ==> r.value in SupportedTypes && IsLastSegment(Lower(filename), '.', r.value)
    ensures r.Err? ==> r.error.ValueError?
                       && forall t | t in SupportedTypes :: !IsLastSegment(Lower(filename), '.', t)
  {
    var ext := LastSegment(Lower(filename), '.');
    if ext in SupportedTypes then Ok(ext)
    else
      assert forall t | t in SupportedTypes :: !IsLastSegment(Lower(filename), '.', t) by {
        forall t | t in SupportedTypes && IsLastSegment(Lower(filename), '.', t) ensures false {
          LastSegmentUnique(Lower(filename), '.', t, ext);
        }
      }
      Err(ValueError("Unsupported file extension: " + ext + ". Supported types: " + SupportedTypesText))
  }

  /** A name without a '.' is its own extension: it is accepted exactly when
      the whole lower-cased name is a supported type. */
  lemma NoDotWholeName(filename: string)
    requires '.' !in filename
    ensures GetFileType(filename).Ok? <==> Lower(filename) in SupportedTypes
    ensures GetFileType(filename).Ok? ==> GetFileType(filename).value == Lower(filename)
  {
    var s := Lower(filename);
    assert '.' !in s by {
      forall k | 0 <= k < |s| ensures s[k] != '.' {
        assert filename[k] != '.';
      }
    }
    assert IsLastSegment(s, '.', s);
    LastSegmentUnique(s, '.', s, LastSegment(s, '.'));
  }

  const TooLarge: string := "File too large. Maximum size: 10MB"

  /** `validate_file_size`: sizes up to the limit pass, larger ones raise a
      `ValueError`. */
  function ValidateFileSize(size: int): (r: Result<bool, Failure>)
    ensures r.Ok? <==> size <= Config.MaxFileSize
    ensures r.Ok? ==> r.value
    ensures r.Err? ==> r.error == ValueError(TooLarge)
  {
    if size > Config.MaxFileSize then Err(ValueError(TooLarge)) else Ok(true)
  }

  /** The limit itself is accepted, one byte more is not. */
  lemma SizeLimitEdge()
    ensures ValidateFileSize(10 * 1024 * 1024).Ok?
    ensures ValidateFileSize(10 * 1024 * 1024 + 1).Err?
  {
  }

  // ------------------------------------------------------------ extraction

  /** The decoders: the page texts pdfplumber read before it finished or
      raised (a page without text as ""), pypdf's page texts or its failure,
      python-docx's paragraph texts or its failure, and strict UTF-8 decoding
      (`None` for invalid input). */
  datatype Extractors = Extractors(
    plumber: seq<byte> -> seq<string>,
    pypdf: seq<byte> -> Result<seq<string>, Failure>,
    docx: seq<byte> -> Result<seq<string>, Failure>,
    utf8: seq<byte> -> Option<string>)

  /** The part of page `number` (1-based). */
  function PagePart(number: nat, text: string): string {
    "Page " + NatToString(number) + "\n" + text
  }

  /** The parts of the pages that have text, each under its original page number. */
  function PdfParts(pages: seq<string>): seq<string>
    decreases |pages|
  {
    if pages == [] then []
    else
      var init := PdfParts(pages[..|pages| - 1]);
      var t := pages[|pages| - 1];
      if t == "" then init else init + [PagePart(|pages|, t)]
  }

  /** The loop over pages shared by both PDF readers. */
  method CollectPageParts(pages: seq<string>) returns (parts: seq<string>)
    ensures parts == PdfParts(pages)
  {
    parts := [];
    var i := 0;
    while i < |pages|
      invariant 0 <= i <= |pages| && parts == PdfParts(pages[..i])
    {
      assert pages[..i + 1][..i] == pages[..i];
      if pages[i] != "" {
        parts := parts + [PagePart(i + 1, pages[i])];
      }
      i := i + 1;
    }
    assert pages[..i] == pages;
  }

  /** Part `p` is the part of page `k + 1`, a page with text. */
  predicate PartOfPage(pages: seq<string>, p: string) {
    exists k | 0 <= k < |pages| :: pages[k] != "" && p == PagePart(k + 1, pages[k])
  }

  /** The parts are those of the pages with text, under their 1-based
      numbers; there is none exactly when no page has text. */
  lemma {:induction false} PdfPartsSpec(pages: seq<string>)
    ensures PdfParts(pages) == [] <==> forall k | 0 <= k < |pages| :: pages[k] == ""
    ensures forall j | 0 <= j < |PdfParts(pages)| :: PartOfPage(pages, PdfParts(pages)[j])
    decreases |pages|
  {
    if pages != [] {
      var front := pages[..|pages| - 1];
      PdfPartsSpec(front);
      var init := PdfParts(front);
      var r := PdfParts(pages);
      forall j | 0 <= j < |r| ensures PartOfPage(pages, r[j]) {
        if j < |init| {
          assert r[j] == init[j];
          var k :| 0 <= k < |front| && front[k] != "" && init[j] == PagePart(k + 1, front[k]);
          assert pages[k] == front[k];
        } else {
          assert r[j] == PagePart(|pages|, pages[|pages| - 1]);
        }
      }
      if forall k | 0 <= k < |pages| :: pages[k] == "" {
        assert forall k | 0 <= k < |front| :: front[k] == "" by {
          forall k | 0 <= k < |front| ensures front[k] == "" {
            assert front[k] == pages[k];
          }
        }
      }
    }
  }

  /** A part is never blank: it starts with "Page ". */
  lemma PagePartNotBlank(number: nat, text: string)
    ensures !IsBlank(PagePart(number, text))
  {
    var p := PagePart(number, text);
    assert p[0] == 'P';
    StripSpec(p, IsPySpace);
  }

  /** Joined parts whose first part is not blank are not blank. */
  lemma JoinNotBlank(parts: seq<string>, sep: string)
    requires parts != [] && !IsBlank(parts[0])
    ensures !IsBlank(Join(parts, sep))
  {
    var s := Join(parts, sep);
    var p := parts[0];
    assert |parts| > 1 ==> s == p + (sep + Join(parts[1..], sep));
    assert s[..|p|] == p;
    StripSpec(p, IsPySpace);
    StripSpec(s, IsPySpace);
    var k :| 0 <= k < |p| && !IsPySpace(p[k]);
    assert s[k] == p[k];
  }

  /** The PDF outcome: pdfplumber's parts, or pypdf's when pdfplumber gave
      none; a `ValueError` when the joined parts are blank. */
  function PdfOutcome(first: seq<string>, second: Result<seq<string>, Failure>): Result<string, Failure> {
    var parts1 := PdfParts(first);
    if parts1 == [] && second.Err? then Err(second.error)
    else
      var parts := if parts1 != [] then parts1 else PdfParts(second.value);
      var full := Join(parts, "\n\n");
      if IsBlank(full) then Err(ValueError("No text could be extracted from PDF")) else Ok(full)
  }

  /** `_extract_from_pdf`. `usedPypdf` says whether pypdf was consulted. */
  method ExtractPdf(content: seq<byte>, ex: Extractors) returns (r: Result<string, Failure>, usedPypdf: bool)
    ensures r == PdfOutcome(ex.plumber(content), ex.pypdf(content))
    ensures usedPypdf <==> forall k | 0 <= k < |ex.plumber(content)| :: ex.plumber(content)[k] == ""
  {
    var parts := CollectPageParts(ex.plumber(content));
    PdfPartsSpec(ex.plumber(content));
    usedPypdf := parts == [];
    if parts == [] {
      var second := ex.pypdf(content);
      if second.Err? {
        return Err(second.error), usedPypdf;
      }
      parts := CollectPageParts(second.value);
    }
    var full := Join(parts, "\n\n");
    if IsBlank(full) {
      return Err(ValueError("No text could be extracted from PDF")), usedPypdf;
    }
    r := Ok(full);
  }

  /** pdfplumber's parts win when it found a page with text; otherwise
      pypdf's failure is raised, or the PDF fails with "No text could be
      extracted" exactly when pypdf found no page with text either. A PDF
      text that is returned is never blank. */
  lemma PdfOutcomeSpec(first: seq<string>, second: Result<seq<string>, Failure>)
    ensures var r := PdfOutcome(first, second);
      var noText := forall k | 0 <= k < |first| :: first[k] == "";
      (!noText ==> r == Ok(Join(PdfParts(first), "\n\n")))
      && (noText && second.Err? ==> r == Err(second.error))
      && (noText && second.Ok? ==>
            (r.Err? <==> forall k | 0 <= k < |second.value| :: second.value[k] == "")
            && (r.Err? ==> r.error == ValueError("No text could be extracted from PDF")))
      && (r.Ok? ==> !IsBlank(r.value))
  {
    PdfPartsSpec(first);
    var parts1 := PdfParts(first);
    if parts1 != [] {
      assert PartOfPage(first, parts1[0]);
      var k :| 0 <= k < |first| && first[k] != "" && parts1[0] == PagePart(k + 1, first[k]);
      PagePartNotBlank(k + 1, first[k]);
      JoinNotBlank(parts1, "\n\n");
    } else if second.Ok? {
      PdfPartsSpec(second.value);
      var parts2 := PdfParts(second.value);
      if parts2 != [] {
        assert PartOfPage(second.value, parts2[0]);
        var k :| 0 <= k < |second.value| && second.value[k] != "" && parts2[0] == PagePart(k + 1, second.value[k]);
        PagePartNotBlank(k + 1, second.value[k]);
        JoinNotBlank(parts2, "\n\n");
      } else {
        StripSpec("", IsPySpace);
      }
    }
  }

  /** The paragraphs that are not blank, in order. */
  function KeptParagraphs(paras: seq<string>): seq<string>
    decreases |paras|
  {
    if paras == [] then []
    else
      var init := KeptParagraphs(paras[..|paras| - 1]);
      var t := paras[|paras| - 1];
      if IsBlank(t) then init else init + [t]
  }

  /** The paragraph loop of `_extract_from_docx`. */
  method CollectParagraphs(paras: seq<string>) returns (kept: seq<string>)
    ensures kept == KeptParagraphs(paras)
  {
    kept := [];
    var i := 0;
    while i < |paras|
      invariant 0 <= i <= |paras| && kept == KeptParagraphs(paras[..i])
    {
      assert paras[..i + 1][..i] == paras[..i];
      if !IsBlank(paras[i]) {
        kept := kept + [paras[i]];
      }
      i := i + 1;
    }
    assert paras[..i] == paras;
  }

  /** The kept paragraphs are paragraphs of the document, none of them blank,
      and there is none exactly when every paragraph is blank. */
  lemma KeptParagraphsSpec(paras: seq<string>)
    ensures forall j | 0 <= j < |KeptParagraphs(paras)| ::
      KeptParagraphs(paras)[j] in paras && !IsBlank(KeptParagraphs(paras)[j])
    ensures KeptParagraphs(paras) == [] <==> forall k | 0 <= k < |paras| :: IsBlank(paras[k])
  {
    KeptFromParagraphs(paras);
    KeptNone(paras);
  }

  predicate KeptFrom(kept: seq<string>, paras: seq<string>) {
    forall j | 0 <= j < |kept| :: kept[j] in paras && !IsBlank(kept[j])
  }

  lemma {:induction false} KeptFromParagraphs(paras: seq<string>)
    ensures KeptFrom(KeptParagraphs(paras), paras)
    decreases |paras|
  {
    if paras != [] {
      var front := paras[..|paras| - 1];
      KeptFromParagraphs(front);
      var init := KeptParagraphs(front);
      var r := KeptParagraphs(paras);
      forall j | 0 <= j < |r| ensures r[j] in paras && !IsBlank(r[j]) {
        if j < |init| {
          assert r[j] == init[j];
          assert init[j] in front;
        }
      }
    }
  }

  lemma {:induction false} KeptNone(paras: seq<string>)
    ensures KeptParagraphs(paras) == [] <==> forall k | 0 <= k < |paras| :: IsBlank(paras[k])
    decreases |paras|
  {
    if paras != [] {
      var front := paras[..|paras| - 1];
      KeptNone(front);
      if forall k | 0 <= k < |paras| :: IsBlank(paras[k]) {
        forall k | 0 <= k < |front| ensures IsBlank(front[k]) {
          assert front[k] == paras[k];
        }
      }
      if KeptParagraphs(paras) == [] {
        forall k | 0 <= k < |paras| ensures IsBlank(paras[k]) {
          if k < |front| {
            assert paras[k] == front[k];
          }
        }
      }
    }
  }

  function DocxOutcome(paras: Result<seq<string>, Failure>): Result<string, Failure> {
    if paras.Err? then Err(paras.error)
    else
      var text := Join(KeptParagraphs(paras.value), "\n");
      if IsBlank(text) then Err(ValueError("No text could be extracted from DOCX")) else Ok(text)
  }

  /** `_extract_from_docx`. */
  method ExtractDocx(content: seq<byte>, ex: Extractors) returns (r: Result<string, Failure>)
    ensures r == DocxOutcome(ex.docx(content))
  {
    var paras := ex.docx(content);
    if paras.Err? {
      return Err(paras.error);
    }
    var kept := CollectParagraphs(paras.value);
    var text := Join(kept, "\n");
    if IsBlank(text) {
      return Err(ValueError("No text could be extracted from DOCX"));
    }
    r := Ok(text);
  }

  /** A DOCX the reader could not open raises the reader's failure;
      otherwise it fails with "No text could be extracted" exactly when every
      paragraph is blank. A DOCX text that is returned is never blank. */
  lemma DocxOutcomeSpec(paras: Result<seq<string>, Failure>)
    ensures var r := DocxOutcome(paras);
      (paras.Err? ==> r == Err(paras.error))
      && (paras.Ok? ==>
            (r.Err? <==> forall k | 0 <= k < |paras.value| :: IsBlank(paras.value[k]))
            && (r.Err? ==> r.error == ValueError("No text could be extracted from DOCX")))
      && (r.Ok? ==> !IsBlank(r.value))
  {
    if paras.Ok? {
      KeptParagraphsSpec(paras.value);
      var kept := KeptParagraphs(paras.value);
      if kept != [] {
        JoinNotBlank(kept, "\n");
      } else {
        StripSpec("", IsPySpace);
      }
    }
  }

  /** `bytes.decode('latin-1')`: every byte becomes the character with the
      same code. */
  function Latin1(content: seq<byte>): (r: string)
    ensures |r| == |content| && forall k | 0 <= k < |content| :: r[k] as int == content[k] as int
  {
    seq(|content|, k requires 0 <= k < |content| => (content[k] as int) as char)
  }

  /** `_extract_from_txt`: valid UTF-8 must not be blank; anything else is
      read as Latin-1, which never fails and is not checked for blankness. */
  function TxtOutcome(content: seq<byte>, ex: Extractors): (r: Result<string, Failure>)
    ensures ex.utf8(content).None? ==> r == Ok(Latin1(content))
    ensures ex.utf8(content).Some? ==>
      (r.Err? <==> IsBlank(ex.utf8(content).value))
      && (r.Err? ==> r.error == ValueError("Text file is empty"))
      && (r.Ok? ==> r.value == ex.utf8(content).value)
  {
    match ex.utf8(content)
    case Some(text) => if IsBlank(text) then Err(ValueError("Text file is empty")) else Ok(text)
    case None => Ok(Latin1(content))
  }

  /** What `extract_text` yields for a type: an unsupported type is the
      `ValueError` naming it, and extracted text is never blank unless it is
      the Latin-1 reading of undecodable text. */
  function TextOutcome(content: seq<byte>, fileType: string, ex: Extractors): (r: Result<string, Failure>)
    ensures fileType !in SupportedTypes ==> r == Err(ValueError("Unsupported file type: " + fileType))
    ensures r.Ok? && (fileType != "txt" || ex.utf8(content).Some?) ==> !IsBlank(r.value)
  {
    if fileType == "pdf" then PdfOutcomeSpec(ex.plumber(content), ex.pypdf(content)); PdfOutcome(ex.plumber(content), ex.pypdf(content))
    else if fileType == "docx" then DocxOutcomeSpec(ex.docx(content)); DocxOutcome(ex.docx(content))
    else if fileType == "txt" then TxtOutcome(content, ex)
    else Err(ValueError("Unsupported file type: " + fileType))
  }

  /** `extract_text`: dispatch on the file type; any other type is a `ValueError`. */
  method ExtractText(content: seq<byte>, filename: string, fileType: string, ex: Extractors)
    returns (r: Result<string, Failure>)
    ensures r == TextOutcome(content, fileType, ex)
    ensures fileType !in SupportedTypes ==> r == Err(ValueError("Unsupported file type: " + fileType))
  {
    if fileType == "pdf" {
      var usedPypdf;
      r, usedPypdf := ExtractPdf(content, ex);
    } else if fileType == "docx" {
      r := ExtractDocx(content, ex);
    } else if fileType == "txt" {
      r := TxtOutcome(content, ex);
    } else {
      r := Err(ValueError("Unsupported file type: " + fileType));
    }
  }
}
