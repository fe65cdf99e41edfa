/** `Chunker.chunk` (chat/backend/chunker.py): stamps every piece of the text splitter with the
    page's metadata and drops the blank pieces. `RecursiveCharacterTextSplitter` is the `split`
    parameter. */
module Chunker {
  import opened Wrappers
  import opened Text
  import opened Docs
  import Config

  /** The splitter's settings: chunks of at most `Config.ChunkSize` characters overlapping by
      `Config.ChunkOverlap`, split at paragraph, line, word and character boundaries. */
  datatype SplitterSettings = SplitterSettings(chunkSize: nat, chunkOverlap: nat, separators: seq<string>)

  const Settings := SplitterSettings(Config.ChunkSize, Config.ChunkOverlap, ["\n\n", "\n", " ", ""])

  const DefaultTitle: string := "Unknown"

  /** `c.page_content and c.page_content.strip()`: the piece has a non-whitespace character. */
  predicate Substantive(piece: string) {
    piece != [] && Strip(piece) != []
  }

  lemma SubstantiveIff(piece: string)
    ensures Substantive(piece) <==> !AllSpace(piece)
  {
    StripEmpty(piece);
  }

  /** `create_documents` followed by the blank-chunk filter: one document per substantive piece,
      in the splitter's order, each carrying `metadata`. */
  function Stamp(pieces: seq<string>, metadata: Metadata): (docs: seq<Document>)
    ensures |docs| <= |pieces|
    ensures forall d :: d in docs ==> d.metadata == metadata && Substantive(d.pageContent)
    ensures forall p :: Document(p, metadata) in docs <==> p in pieces && Substantive(p)
    decreases |pieces|
  {
    if pieces == [] then []
    else
      (if Substantive(pieces[0]) then [Document(pieces[0], metadata)] else [])
        + Stamp(pieces[1..], metadata)
  }

  /** Stamping keeps the order of the pieces: it distributes over concatenation. */
  lemma {:induction false} StampAppend(a: seq<string>, b: seq<string>, metadata: Metadata)
    ensures Stamp(a + b, metadata) == Stamp(a, metadata) + Stamp(b, metadata)
    decreases |a|
  {
    if a == [] {
      assert a + b == b;
    } else {
      assert (a + b)[0] == a[0] && (a + b)[1..] == a[1..] + b;
      StampAppend(a[1..], b, metadata);
    }
  }

  /** `chunk(text, source_url, title)`. */
  function Chunk(text: string, source: string, title: Option<string>, split: string -> seq<string>)
    : (docs: seq<Document>)
    ensures text == [] ==> docs == []
    ensures forall d :: d in docs ==> d.metadata == Metadata(source, title) && !AllSpace(d.pageContent)
    ensures text != [] ==> docs == Stamp(split(text), Metadata(source, title))
  {
    if text == [] then []
    else
      var docs := Stamp(split(text), Metadata(source, title));
      forall d | d in docs ensures !AllSpace(d.pageContent) {
        SubstantiveIff(d.pageContent);
      }
      docs
  }

  /** `chunk(text, source_url)`: the title defaults to "Unknown". */
  function ChunkUntitled(text: string, source: string, split: string -> seq<string>): (docs: seq<Document>)
    ensures forall d :: d in docs ==> d.metadata == Metadata(source, Some(DefaultTitle))
  {
    Chunk(text, source, Some(DefaultTitle), split)
  }
}
