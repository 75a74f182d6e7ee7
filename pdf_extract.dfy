// The page loop of extract_text_from_pdf: every page's extracted text is
// whitespace-normalised and kept when it was non-empty before
// normalisation; the kept parts are joined with blank lines.

module PdfExtract {
  import opened Text
  import opened Optional

  /** The outcome of page.extract_text() for one page: some text, None
      (treated like ""), or an exception. */
  datatype PageText = Extracted(text: String) | NoText | Failed

  /** PdfReader(pdf_path): either the file cannot be opened, or its pages. */
  datatype Pdf = Unreadable | Readable(pages: seq<PageText>)

  const Separator: String := "\n\n"

  /** The part one page contributes: none for a failed page, for None and
      for "", otherwise exactly one normalised part. The emptiness test
      looks at the raw text, so a whitespace-only page gives the part "". */
  function PagePart(p: PageText): (r: seq<String>)
    ensures |r| <= 1
    ensures r == [] <==> p.Failed? || p.NoText? || p.text == []
  {
    if p.Extracted? && p.text != [] then [NormalizeWs(p.text)] else []
  }

  /** The part of a page is normalised, has the page's tokens, and is empty
      exactly when the page text is whitespace only. */
  lemma {:induction false} PagePartNormalized(p: PageText)
    requires PagePart(p) != []
    ensures Normalized(PagePart(p)[0])
    ensures Words(PagePart(p)[0]) == Words(p.text)
    ensures PagePart(p)[0] == [] <==> AllSpace(p.text)
  {
    NormalizeWsProperties(p.text);
  }

  /** The parts list after processing the given pages in order. */
  function Parts(pages: seq<PageText>): (parts: seq<String>)
    ensures |parts| <= |pages|
  {
    if pages == [] then []
    else Parts(pages[..|pages| - 1]) + PagePart(pages[|pages| - 1])
  }

  /** extract_text_from_pdf, with the reader given as its outcome and the
      output file write reduced to whether it succeeds; `written` is what
      ends up in the output file. */
  method ExtractTextFromPdf(pdf: Pdf, writeSucceeds: bool) returns (combined: String, written: Option<String>)
    ensures pdf.Unreadable? ==> combined == [] && written == None
    ensures pdf.Readable? ==> combined == Join(Separator, Parts(pdf.pages))
    ensures written == (if pdf.Readable? && writeSucceeds then Some(combined) else None)
  {
    if pdf.Unreadable? {
      return [], None;
    }
    var pages := pdf.pages;
    var parts: seq<String> := [];
    for i := 0 to |pages|
      invariant parts == Parts(pages[..i])
    {
      PartsStep(pages, i);
      match pages[i]
      case Failed =>
        // the exception is caught; the page is skipped
      case NoText =>
      case Extracted(text) =>
        if text != [] {
          parts := parts + [NormalizeWs(text)];
        }
    }
    assert pages[..|pages|] == pages;
    combined := Join(Separator, parts);
    written := if writeSucceeds then Some(combined) else None;
  }

  // ---------------------------------------------------------------------
  // Properties of the page loop

  /** Parts are produced page by page, in page order. */
  lemma {:induction false} PartsAppend(a: seq<PageText>, b: seq<PageText>)
    ensures Parts(a + b) == Parts(a) + Parts(b)
    decreases |b|
  {
    if b == [] {
      assert a + b == a;
    } else {
      var b', x := b[..|b| - 1], b[|b| - 1];
      assert (a + b)[..|a + b| - 1] == a + b';
      assert (a + b)[|a + b| - 1] == x;
      PartsLast(a + b);
      PartsLast(b);
      PartsAppend(a, b');
      ConcatAssoc(Parts(a), Parts(b'), PagePart(x));
    }
  }

  lemma {:induction false} PartsLast(pages: seq<PageText>)
    requires pages != []
    ensures Parts(pages) == Parts(pages[..|pages| - 1]) + PagePart(pages[|pages| - 1])
  {
  }

  lemma {:induction false} PartsStep(pages: seq<PageText>, i: nat)
    requires i < |pages|
    ensures Parts(pages[..i + 1]) == Parts(pages[..i]) + PagePart(pages[i])
  {
    assert pages[..i + 1][..i] == pages[..i];
  }

  lemma {:induction false} PartsSingle(p: PageText)
    ensures Parts([p]) == PagePart(p)
  {
    assert [p][..0] == [];
  }

  /** A page that fails, has no text or has empty text leaves the parts of
      the pages around it unchanged: later pages are still processed. */
  lemma {:induction false} PageSkipped(a: seq<PageText>, p: PageText, b: seq<PageText>)
    requires p.Failed? || p.NoText? || p == Extracted([])
    ensures Parts(a + [p] + b) == Parts(a) + Parts(b)
  {
    PartsAppend(a + [p], b);
    PartsAppend(a, [p]);
    PartsSingle(p);
    AppendEmptyRight(Parts(a), Parts([p]));
  }

  /** Every part is whitespace-collapsed and trimmed. */
  lemma {:induction false} PartsNormalized(pages: seq<PageText>)
    ensures forall k :: 0 <= k < |Parts(pages)| ==> Normalized(Parts(pages)[k])
    decreases |pages|
  {
    if pages != [] {
      var init, last := pages[..|pages| - 1], pages[|pages| - 1];
      PartsNormalized(init);
      PartsLast(pages);
      PagePartAllNormalized(last);
      AllConcat(Normalized, Parts(init), PagePart(last));
    }
  }

  lemma {:induction false} PagePartAllNormalized(p: PageText)
    ensures forall k :: 0 <= k < |PagePart(p)| ==> Normalized(PagePart(p)[k])
  {
    if PagePart(p) != [] {
      PagePartNormalized(p);
    }
  }

  /** A whitespace-only page passes the emptiness test and contributes an
      empty part; between two non-empty part lists it doubles the
      separator. */
  lemma {:induction false} BlankPageDoublesSeparator(a: seq<PageText>, s: String, b: seq<PageText>)
    requires s != [] && AllSpace(s)
    requires Parts(a) != [] && Parts(b) != []
    ensures PagePart(Extracted(s)) == [[]]
    ensures Join(Separator, Parts(a + [Extracted(s)] + b)) ==
            Join(Separator, Parts(a)) + "\n\n\n\n" + Join(Separator, Parts(b))
  {
    BlankPagePart(s);
    BlankPageParts(a, s, b);
    JoinDoubleSeparator(Parts(a), Parts(b));
  }

  lemma {:induction false} BlankPagePart(s: String)
    requires s != [] && AllSpace(s)
    ensures PagePart(Extracted(s)) == [[]]
  {
    PagePartNormalized(Extracted(s));
  }

  lemma {:induction false} BlankPageParts(a: seq<PageText>, s: String, b: seq<PageText>)
    requires PagePart(Extracted(s)) == [[]]
    ensures Parts(a + [Extracted(s)] + b) == Parts(a) + ([[]] + Parts(b))
  {
    PartsAppend(a + [Extracted(s)], b);
    PartsAppend(a, [Extracted(s)]);
    PartsSingle(Extracted(s));
    ConcatAssoc(Parts(a), [[]], Parts(b));
  }

  lemma {:induction false} JoinDoubleSeparator(pa: seq<String>, pb: seq<String>)
    requires pa != [] && pb != []
    ensures Join(Separator, pa + ([[]] + pb)) ==
            Join(Separator, pa) + "\n\n\n\n" + Join(Separator, pb)
  {
    JoinAppend(Separator, pa, [[]] + pb);
    JoinEmptyFirst(pb);
    var ja, jb := Join(Separator, pa), Join(Separator, pb);
    ConcatAssoc(ja + Separator, Separator, jb);
    assert Separator + Separator == "\n\n\n\n";
  }

  lemma {:induction false} JoinEmptyFirst(pb: seq<String>)
    requires pb != []
    ensures Join(Separator, [[]] + pb) == Separator + Join(Separator, pb)
  {
    assert ([[]] + pb)[1..] == pb;
  }

  /** Splitting the combined text at blank lines gives back the parts,
      whenever there is at least one part. */
  lemma {:induction false} CombinedSplitsIntoParts(pages: seq<PageText>)
    requires Parts(pages) != []
    ensures SplitParagraphs(Join(Separator, Parts(pages))) == Parts(pages)
  {
    var parts := Parts(pages);
    PartsNormalized(pages);
    forall k | 0 <= k < |parts|
      ensures '\n' !in parts[k]
    {
      NormalizedHasNoNewline(parts[k]);
    }
    SplitJoinParagraphs(parts);
  }
}
