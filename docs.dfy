/** The document values the pipeline passes between the chunker, the vector store and the QA
    engine: a LangChain `Document` whose metadata holds the page URL and title. */
module Docs {
  import opened Wrappers

  /** The metadata dict `{"source": ..., "title": ...}`; the title may be None. */
  datatype Metadata = Metadata(source: string, title: Option<string>)

  datatype Document = Document(pageContent: string, metadata: Metadata)
}
