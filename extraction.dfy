/** What the two extractors share: the outcome of `trafilatura.bare_extraction`, the extracted
    page, and the post-processing both apply to the text. */
module Extraction {
  import opened Wrappers
  import opened Text

  /** One key of the dict trafilatura returns: missing, present with None, or a string. */
  datatype Field = Absent | Null | Str(s: string)

  /** `bare_extraction`: it raises, returns None (or an empty dict), or returns a dict. */
  datatype PrimaryOutcome =
    | PrimaryRaised(message: string)
    | NoData
    | Data(text: Field, title: Field)

  /** The returned dict `{"text": ..., "title": ...}`. */
  datatype Extracted = Extracted(text: string, title: Option<string>)

  const UnknownTitle: string := "Unknown Title"

  /** `data.get('text')` is truthy: a non-empty string. */
  predicate HasText(primary: PrimaryOutcome) {
    primary.Data? && primary.text.Str? && primary.text.s != []
  }

  /** `data.get('title', 'Unknown Title')`. */
  function TitleOf(title: Field): (r: Option<string>)
    ensures title.Absent? ==> r == Some(UnknownTitle)
    ensures title.Null? <==> r.None?
  {
    match title
    case Absent => Some(UnknownTitle)
    case Null => None
    case Str(t) => Some(t)
  }

  /** `text.replace('\xa0', ' ')` followed by `re.sub(r'\n{3,}', '\n\n', text)`. */
  function PostProcess(text: string): (r: string)
    ensures Nbsp !in r && NoNewlineRun3(r)
    ensures text != [] && text[0] != '\n' ==> r != []
  {
    var spaced := ReplaceChar(text, Nbsp, ' ');
    ReplaceCharRemoves(text, Nbsp, ' ');
    CollapseNewlinesNoRun3(spaced);
    CollapseNewlines(spaced)
  }

  /** Post-processing only rewrites whitespace. */
  lemma PostProcessKeepsNonSpace(text: string)
    ensures NonSpace(PostProcess(text)) == NonSpace(text)
  {
    var spaced := ReplaceChar(text, Nbsp, ' ');
    ReplaceSpaceKeepsNonSpace(text, Nbsp, ' ');
    CollapseNewlinesKeepsNonSpace(spaced);
  }

  /** Text that is already post-processed is left alone. */
  lemma PostProcessFixes(text: string)
    requires Nbsp !in text && NoNewlineRun3(text)
    ensures PostProcess(text) == text
  {
    assert ReplaceChar(text, Nbsp, ' ') == text;
    CollapseNewlinesIdentity(text);
  }

  lemma PostProcessIdempotent(text: string)
    ensures PostProcess(PostProcess(text)) == PostProcess(text)
  {
    PostProcessFixes(PostProcess(text));
  }
}
