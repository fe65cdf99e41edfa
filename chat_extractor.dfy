/** `Extractor.extract` of chat/extractor.py: trafilatura alone, then post-processing and a
    minimum length of 50. */
module ChatExtractor {
  import opened Wrappers
  import opened Text
  import opened Extraction
  import BackendExtractor

  const MinLength: nat := 50

  /** `extract(html_content)`, given what trafilatura makes of the page. */
  function Extract(html: string, primary: PrimaryOutcome): (r: Option<Extracted>)
    ensures html == [] || !HasText(primary) ==> r.None?
    ensures r.Some? ==> Nbsp !in r.value.text && NoNewlineRun3(r.value.text) && |r.value.text| >= MinLength
    ensures r.Some? <==> html != [] && HasText(primary) && |PostProcess(primary.text.s)| >= MinLength
    ensures r.Some? ==> r.value.title == TitleOf(primary.title)
  {
    if html == [] then None
    else if !HasText(primary) then None // also where trafilatura raised: the handler returns None
    else
      var text := PostProcess(primary.text.s);
      if |text| < MinLength then None else Some(Extracted(text, TitleOf(primary.title)))
  }

  /** The extracted text differs from trafilatura's only in whitespace. */
  lemma ExtractKeepsContent(html: string, primary: PrimaryOutcome)
    requires Extract(html, primary).Some?
    ensures NonSpace(Extract(html, primary).value.text) == NonSpace(primary.text.s)
  {
    PostProcessKeepsNonSpace(primary.text.s);
  }

  /** Every page this extractor keeps, the backend extractor keeps too, with the same text and
      title, whatever its fallback would do: the two differ only where trafilatura finds no
      text and in the minimum length. */
  lemma BackendAcceptsMore(html: string, primary: PrimaryOutcome, fallback: BackendExtractor.FallbackOutcome)
    requires Extract(html, primary).Some?
    ensures BackendExtractor.Extract(html, primary, fallback) == Extract(html, primary)
  {
  }
}
