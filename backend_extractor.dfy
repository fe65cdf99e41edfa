/** `Extractor.extract` of chat/backend/extractor.py: trafilatura first, a BeautifulSoup fallback
    when it finds no text, then post-processing and a minimum length of 10. */
module BackendExtractor {
  import opened Wrappers
  import opened Text
  import opened Extraction

  /** The BeautifulSoup fallback: it raises, or yields `soup.title.string` (None when there is no
      `<title>` or it has no single string) and `soup.get_text(separator='\n\n')` after removing
      the script, style and navigation tags. */
  datatype FallbackOutcome =
    | FallbackRaised(message: string)
    | Parsed(titleString: Option<string>, text: string)

  const MinLength: nat := 10

  /** The fallback's title: the stripped `<title>` string when it is non-empty, "Unknown Title"
      otherwise. */
  function FallbackTitle(titleString: Option<string>): (r: string)
    ensures titleString.Some? && titleString.value != [] ==> r == Strip(titleString.value)
    ensures titleString.None? || titleString.value == [] ==> r == UnknownTitle
  {
    if titleString.Some? && titleString.value != [] then Strip(titleString.value) else UnknownTitle
  }

  /** The raw text and title before post-processing: trafilatura's when it has text, the
      fallback's otherwise; None where the fallback raised. */
  function Source(primary: PrimaryOutcome, fallback: FallbackOutcome): (r: Option<Extracted>)
    requires !primary.PrimaryRaised?
    ensures HasText(primary) ==> r == Some(Extracted(primary.text.s, TitleOf(primary.title)))
    ensures !HasText(primary) && fallback.FallbackRaised? ==> r.None?
    ensures !HasText(primary) && fallback.Parsed? ==>
      r == Some(Extracted(fallback.text, Some(FallbackTitle(fallback.titleString))))
  {
    if HasText(primary) then Some(Extracted(primary.text.s, TitleOf(primary.title)))
    else match fallback
      case FallbackRaised(_) => None
      case Parsed(titleString, text) => Some(Extracted(text, Some(FallbackTitle(titleString))))
  }

  /** `extract(html_content)`, given what trafilatura and BeautifulSoup make of the page. */
  function Extract(html: string, primary: PrimaryOutcome, fallback: FallbackOutcome): (r: Option<Extracted>)
    ensures html == [] || primary.PrimaryRaised? ==> r.None?
    ensures r.Some? ==> Nbsp !in r.value.text && NoNewlineRun3(r.value.text) && |r.value.text| >= MinLength
    ensures r.Some? <==>
      && html != [] && !primary.PrimaryRaised?
      && Source(primary, fallback).Some?
      && |PostProcess(Source(primary, fallback).value.text)| >= MinLength
  {
    if html == [] then None
    else if primary.PrimaryRaised? then None // caught by the outer handler: no fallback
    else match Source(primary, fallback)
      case None => None
      case Some(source) =>
        if source.text == [] then None
        else
          var text := PostProcess(source.text);
          if |text| < MinLength then None else Some(Extracted(text, source.title))
  }

  /** The extracted text differs from trafilatura's or the fallback's only in whitespace, and
      keeps its title. */
  lemma ExtractKeepsContent(html: string, primary: PrimaryOutcome, fallback: FallbackOutcome)
    requires Extract(html, primary, fallback).Some?
    ensures var r := Extract(html, primary, fallback).value;
      var source := Source(primary, fallback).value;
      NonSpace(r.text) == NonSpace(source.text) && r.title == source.title
  {
    PostProcessKeepsNonSpace(Source(primary, fallback).value.text);
  }

  /** When trafilatura finds text the fallback plays no part. */
  lemma PrimaryTextWins(html: string, primary: PrimaryOutcome, f1: FallbackOutcome, f2: FallbackOutcome)
    requires HasText(primary)
    ensures Extract(html, primary, f1) == Extract(html, primary, f2)
  {
  }
}
