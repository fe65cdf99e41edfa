/** The two JSON endpoints of chat/views.py and `clear_chat`: `api_index` runs the indexing
    pipeline (crawl, extract, clean, chunk, store) for a site, `api_chat` answers a question
    against the stored site and keeps the conversation in the session. Everything behind the
    pipeline's stages is the models of those stages; their foreign calls arrive as oracles and
    outcome values. */
module Views {
  import opened Wrappers
  import opened Text
  import opened Urls
  import opened Docs
  import opened Extraction
  import Config
  import Crawler
  import BackendExtractor
  import Cleaner
  import Chunker
  import QAChain
  import VectorStores
  import opened Lists

  const UserRole: string := "user"
  const AssistantRole: string := "assistant"
  const InvalidMethod: string := "Invalid method"
  const NoUrlProvided: string := "No URL provided"
  const ErrorPrefix: string := "Error: "
  /** How many of the latest messages `api_chat` hands to the chain as history. */
  const HistoryWindow: nat := 5

  /** One entry `{"role": ..., "content": ...}` of the session's message list. */
  datatype ChatMessage = ChatMessage(role: string, content: string)

  /** The Django session of the signed-in user: the conversation and the site last indexed. */
  class Session {
    var messages: seq<ChatMessage>
    var indexedUrl: Option<string>

    constructor (messages: seq<ChatMessage>, indexedUrl: Option<string>)
      ensures this.messages == messages && this.indexedUrl == indexedUrl
    {
      this.messages := messages;
      this.indexedUrl := indexedUrl;
    }
  }

  /** `clear_chat`: the conversation is emptied; the indexed site stays. */
  method ClearChat(session: Session)
    modifies session
    ensures session.messages == [] && session.indexedUrl == old(session.indexedUrl)
  {
    session.messages := [];
  }

  // ---------------------------------------------------------------------------------------------
  // api_index

  /** One entry `{"url": ..., "text": ..., "title": ...}` of `extracted_data`. */
  datatype PageText = PageText(url: string, text: string, title: Option<string>)

  /** The extractor's oracles: what trafilatura and the BeautifulSoup fallback make of an HTML
      text. */
  datatype Extractors = Extractors(primary: string -> PrimaryOutcome, fallback: string -> BackendExtractor.FallbackOutcome)

  /** `extractor.extract(page['html'])` for one crawled page, labelled with the page's URL. */
  function ExtractPage(page: Crawler.Page, ex: Extractors): (r: seq<PageText>)
    ensures |r| <= 1
    ensures forall d :: d in r ==> d.url == page.url && |d.text| >= BackendExtractor.MinLength
  {
    match BackendExtractor.Extract(page.html, ex.primary(page.html), ex.fallback(page.html))
    case None => []
    case Some(e) => [PageText(page.url, e.text, e.title)]
  }

  /** `extracted_data`: the pages whose extraction gives a result, in crawl order. */
  function Extractions(pages: seq<Crawler.Page>, ex: Extractors): seq<PageText> {
    FlatMap(pages, page => ExtractPage(page, ex))
  }

  /** `d` is the entry the extractor gives for page `p`: the page's URL with the text and title
      extracted from its HTML. */
  predicate ExtractedFrom(p: Crawler.Page, ex: Extractors, d: PageText) {
    p.url == d.url
    && BackendExtractor.Extract(p.html, ex.primary(p.html), ex.fallback(p.html)) == Some(Extracted(d.text, d.title))
  }

  /** An entry is extracted exactly when it is what the extractor gives for one of the crawled
      pages. */
  lemma ExtractionsFromPages(pages: seq<Crawler.Page>, ex: Extractors, d: PageText)
    ensures d in Extractions(pages, ex) <==> exists p :: p in pages && ExtractedFrom(p, ex, d)
  {
    var f := page => ExtractPage(page, ex);
    if d in Extractions(pages, ex) {
      FlatMapMember(pages, f, d);
      var p :| p in pages && d in f(p);
      assert ExtractedFrom(p, ex, d);
    }
    if p :| p in pages && ExtractedFrom(p, ex, d) {
      assert d in f(p);
      FlatMapHas(pages, f, p, d);
    }
  }

  /** The loop at chat/views.py:68-76. */
  method ExtractPages(pages: seq<Crawler.Page>, ex: Extractors) returns (data: seq<PageText>)
    ensures data == Extractions(pages, ex)
  {
    data := [];
    for i := 0 to |pages|
      invariant data == Extractions(pages[..i], ex)
    {
      assert pages[..i + 1][..i] == pages[..i];
      var result := BackendExtractor.Extract(pages[i].html, ex.primary(pages[i].html), ex.fallback(pages[i].html));
      if result.Some? {
        data := data + [PageText(pages[i].url, result.value.text, result.value.title)];
      }
    }
    assert pages[..|pages|] == pages;
  }

  /** `chunker.chunk(cleaner.clean(data['text']), data['url'], data['title'])`. */
  function ChunksOf(d: PageText, split: string -> seq<string>): (r: seq<Document>)
    ensures forall doc :: doc in r ==> doc.metadata == Metadata(d.url, d.title) && !AllSpace(doc.pageContent)
  {
    Chunker.Chunk(Cleaner.Clean(d.text), d.url, d.title, split)
  }

  /** `all_chunks`: the chunks of every entry, entry after entry. */
  function AllChunks(data: seq<PageText>, split: string -> seq<string>): seq<Document> {
    FlatMap(data, d => ChunksOf(d, split))
  }

  /** Every chunk has some non-whitespace text and is labelled with the URL and title of the
      entry it was cut from. */
  lemma AllChunksLabelled(data: seq<PageText>, split: string -> seq<string>, doc: Document)
    requires doc in AllChunks(data, split)
    ensures !AllSpace(doc.pageContent)
    ensures exists d :: d in data && doc.metadata == Metadata(d.url, d.title)
  {
    FlatMapMember(data, d => ChunksOf(d, split), doc);
  }

  /** The loop at chat/views.py:80-85. */
  method ChunkAll(data: seq<PageText>, split: string -> seq<string>) returns (chunks: seq<Document>)
    ensures chunks == AllChunks(data, split)
  {
    chunks := [];
    for i := 0 to |data|
      invariant chunks == AllChunks(data[..i], split)
    {
      assert data[..i + 1][..i] == data[..i];
      var cleanText := Cleaner.Clean(data[i].text);
      var pieces := Chunker.Chunk(cleanText, data[i].url, data[i].title, split);
      chunks := chunks + pieces;
    }
    assert data[..|data|] == data;
  }

  /** What `api_index` stores for the crawled pages. */
  function IndexedChunks(pages: seq<Crawler.Page>, ex: Extractors, split: string -> seq<string>): seq<Document> {
    AllChunks(Extractions(pages, ex), split)
  }

  /** Every stored chunk has some non-whitespace text and names as its source the URL of a
      crawled page. */
  lemma IndexedChunksFromPages(pages: seq<Crawler.Page>, ex: Extractors, split: string -> seq<string>, doc: Document)
    requires doc in IndexedChunks(pages, ex, split)
    ensures !AllSpace(doc.pageContent)
    ensures exists p :: p in pages && p.url == doc.metadata.source
  {
    AllChunksLabelled(Extractions(pages, ex), split, doc);
    var d :| d in Extractions(pages, ex) && doc.metadata == Metadata(d.url, d.title);
    ExtractionsFromPages(pages, ex, d);
    var p :| p in pages && ExtractedFrom(p, ex, d);
    assert p.url == doc.metadata.source;
  }

  /** The vector store as `api_index` meets it: the provider and its settings, and what the
      database does when `create_collection` resets and fills it. */
  datatype Backend = Backend(
    provider: VectorStores.Provider,
    pineconeApiKey: Option<string>,
    clientFailure: Option<string>,
    deletion: VectorStores.DeleteOutcome,
    insertion: VectorStores.InsertOutcome)

  /** The key `VectorStore(collection_name="website_content")` works on. */
  function StoreTarget(backend: Backend): string {
    VectorStores.TargetName(backend.provider, Config.DefaultCollectionName)
  }

  /** `create_collection` stores the chunks: there are none, or the reset and the insertion both
      succeed for a provider the class knows. */
  predicate Stores(backend: Backend, chunks: seq<Document>) {
    chunks == [] ||
      (VectorStores.ResetFailure(backend.provider, backend.deletion).None?
       && !backend.provider.OtherProvider? && backend.insertion.Inserted?)
  }

  /** `str(e)` of the ValueErrors `crawl` raises. */
  function CrawlErrorMessage(e: Crawler.CrawlError): string {
    match e
    case EmptyStartUrl => "URL cannot be empty"
    case MalformedStartUrl => "Invalid IPv6 URL"
  }

  /** The JSON answer of `api_index`. */
  datatype IndexResponse = Indexed(chunksCount: nat) | IndexFailed(error: string)

  /** The database after `create_collection` has stored the chunks. */
  function Stored(db: map<string, seq<Document>>, backend: Backend, chunks: seq<Document>): map<string, seq<Document>> {
    if chunks == [] then db
    else VectorStores.Insert(
           VectorStores.AfterReset(db, backend.provider, StoreTarget(backend), backend.deletion),
           StoreTarget(backend), chunks)
  }

  /** `str(e)` of the exception the storing step of `api_index` raises, if any, in the order the
      code meets them: the embedder, opening the store, then `create_collection`'s reset, its
      unassigned `vectorstore` for an unknown provider, and the insertion. */
  function StoreError(embedderFailure: Option<string>, backend: Backend, chunks: seq<Document>)
    : (r: Option<string>)
    ensures r.None? <==>
      embedderFailure.None?
      && VectorStores.InitFailure(backend.provider, backend.pineconeApiKey, backend.clientFailure).None?
      && Stores(backend, chunks)
    ensures embedderFailure.Some? ==> r == embedderFailure
    ensures embedderFailure.None? && r.Some? && chunks != [] ==>
      || r == VectorStores.InitFailure(backend.provider, backend.pineconeApiKey, backend.clientFailure)
      || r == VectorStores.ResetFailure(backend.provider, backend.deletion)
      || r == Some(VectorStores.UnboundStore)
      || (backend.insertion.InsertRaised? && r == Some(backend.insertion.message))
  {
    var init := VectorStores.InitFailure(backend.provider, backend.pineconeApiKey, backend.clientFailure);
    var reset := VectorStores.ResetFailure(backend.provider, backend.deletion);
    if embedderFailure.Some? then embedderFailure
    else if init.Some? then init
    else if chunks == [] then None
    else if reset.Some? then reset
    else if backend.provider.OtherProvider? then Some(VectorStores.UnboundStore)
    else if backend.insertion.InsertRaised? then Some(backend.insertion.message)
    else None
  }

  /** The database after the storing step of `api_index`, whether it raised or not: unchanged when
      it stops before the reset, reset when it stops after it, and reset then filled otherwise. */
  function AfterStore(db: map<string, seq<Document>>, embedderFailure: Option<string>, backend: Backend,
                      chunks: seq<Document>): (r: map<string, seq<Document>>)
    ensures StoreError(embedderFailure, backend, chunks).None? ==> r == Stored(db, backend, chunks)
    ensures (|| embedderFailure.Some?
             || VectorStores.InitFailure(backend.provider, backend.pineconeApiKey, backend.clientFailure).Some?
             || chunks == []) ==> r == db
    ensures forall name :: name != StoreTarget(backend) ==> (name in r <==> name in db)
    ensures forall name :: name != StoreTarget(backend) && name in r ==> r[name] == db[name]
  {
    var init := VectorStores.InitFailure(backend.provider, backend.pineconeApiKey, backend.clientFailure);
    var target := StoreTarget(backend);
    if embedderFailure.Some? || init.Some? || chunks == []
       || VectorStores.ResetFailure(backend.provider, backend.deletion).Some? then db
    else
      var reset := VectorStores.AfterReset(db, backend.provider, target, backend.deletion);
      if backend.provider.OtherProvider? || backend.insertion.InsertRaised? then reset
      else VectorStores.Insert(reset, target, chunks)
  }

  /** A Chroma reset that works followed by a failed insertion loses the previously indexed site:
      `api_index` reports the insertion's error and the collection is gone. */
  lemma FailedInsertionLosesSite(db: map<string, seq<Document>>, backend: Backend, chunks: seq<Document>)
    requires backend.provider.Chroma? && backend.clientFailure.None?
    requires backend.deletion.Deleted? && backend.insertion.InsertRaised? && chunks != []
    ensures StoreError(None, backend, chunks) == Some(backend.insertion.message)
    ensures StoreTarget(backend) !in AfterStore(db, None, backend, chunks)
  {
  }

  /** The storing step of `api_index` (chat/views.py:87-91): the embedding function, the store
      object, then `create_collection`. `failure` is the message of the exception raised, if
      any. */
  method StoreChunks(chunks: seq<Document>, embedderFailure: Option<string>, backend: Backend,
                     db: map<string, seq<Document>>)
    returns (failure: Option<string>, db': map<string, seq<Document>>)
    ensures failure.None? <==>
      embedderFailure.None?
      && VectorStores.InitFailure(backend.provider, backend.pineconeApiKey, backend.clientFailure).None?
      && Stores(backend, chunks)
    ensures embedderFailure.Some? ==> failure == embedderFailure && db' == db
    ensures failure.None? ==> db' == Stored(db, backend, chunks)
    ensures failure.Some? && db' != db ==>
      db' == VectorStores.AfterReset(db, backend.provider, StoreTarget(backend), backend.deletion)
    ensures failure == StoreError(embedderFailure, backend, chunks)
    ensures db' == AfterStore(db, embedderFailure, backend, chunks)
  {
    if embedderFailure.Some? {
      return embedderFailure, db;
    }
    var connected := VectorStores.VectorStore.Open(Config.DefaultCollectionName, backend.provider,
                                                   backend.pineconeApiKey, backend.clientFailure, db);
    if connected.Failure? {
      return Some(connected.error), db;
    }
    var store := connected.value;
    var created := store.CreateCollection(chunks, backend.deletion, backend.insertion);
    db' := store.collections;
    failure := if created.CreateRaised? then Some(created.message) else None;
  }

  /** The part of `api_index` after the crawl (chat/views.py:67-97): extraction, cleaning,
      chunking and storing of the crawled pages. */
  method IndexPages(pages: seq<Crawler.Page>, ex: Extractors, split: string -> seq<string>,
                    embedderFailure: Option<string>, backend: Backend, db: map<string, seq<Document>>)
    returns (resp: IndexResponse, db': map<string, seq<Document>>)
    ensures var chunks := IndexedChunks(pages, ex, split);
      && (resp.Indexed? <==>
            embedderFailure.None?
            && VectorStores.InitFailure(backend.provider, backend.pineconeApiKey, backend.clientFailure).None?
            && Stores(backend, chunks))
      && (resp.Indexed? ==> resp.chunksCount == |chunks| && db' == Stored(db, backend, chunks))
      && (resp.IndexFailed? ==> resp.error == StoreError(embedderFailure, backend, chunks).value)
      && db' == AfterStore(db, embedderFailure, backend, chunks)
  {
    var data := ExtractPages(pages, ex);
    var chunks := ChunkAll(data, split);
    var failure;
    failure, db' := StoreChunks(chunks, embedderFailure, backend, db);
    if failure.Some? {
      return IndexFailed(failure.value), db';
    }
    resp := Indexed(|chunks|);
  }

  /** `api_index`. `url` is the request's "url" field; `db` is the vector database before the
      call and `db'` after it; `crawled` is what the crawl returned and `order` the URLs it
      dequeued. */
  method ApiIndex(session: Session, isPost: bool, url: Option<string>, web: Crawler.Web, ex: Extractors,
                  split: string -> seq<string>, embedderFailure: Option<string>, backend: Backend,
                  db: map<string, seq<Document>>)
    returns (resp: IndexResponse, db': map<string, seq<Document>>, ghost crawled: seq<Crawler.Page>,
             ghost order: seq<string>)
    modifies session
    ensures session.messages == old(session.messages)
    ensures resp.IndexFailed? ==> session.indexedUrl == old(session.indexedUrl)
    ensures !isPost ==> resp == IndexFailed(InvalidMethod) && db' == db
    ensures isPost && (url.None? || url.value == []) ==> resp == IndexFailed(NoUrlProvided) && db' == db
    ensures isPost && url.Some? && url.value != [] && Netloc(url.value).None? ==>
      resp == IndexFailed(CrawlErrorMessage(Crawler.MalformedStartUrl)) && db' == db
    ensures isPost && url.Some? && url.value != [] && Netloc(url.value).Some? ==>
      && Crawler.Crawled(url.value, Config.MaxPagesCrawl, web, crawled, order)
      && |crawled| <= Config.MaxPagesCrawl
      && (forall p :: p in crawled ==> Netloc(p.url) == Netloc(url.value))
      && var chunks := IndexedChunks(crawled, ex, split);
      && (resp.Indexed? <==>
            embedderFailure.None?
            && VectorStores.InitFailure(backend.provider, backend.pineconeApiKey, backend.clientFailure).None?
            && Stores(backend, chunks))
      && (resp.Indexed? ==>
            resp.chunksCount == |chunks| && session.indexedUrl == Some(url.value) && db' == Stored(db, backend, chunks))
      && (resp.IndexFailed? ==> resp.error == StoreError(embedderFailure, backend, chunks).value)
      && db' == AfterStore(db, embedderFailure, backend, chunks)
  {
    crawled, order := [], [];
    db' := db;
    if !isPost {
      return IndexFailed(InvalidMethod), db', crawled, order;
    }
    if url.None? || url.value == [] {
      return IndexFailed(NoUrlProvided), db', crawled, order;
    }
    var crawl;
    crawl, order := Crawler.CrawlDefault(url.value, web);
    if crawl.Failure? {
      assert crawl != Failure(Crawler.EmptyStartUrl);
      assert crawl.error.EmptyStartUrl? || crawl.error.MalformedStartUrl?;
      assert crawl == Failure(Crawler.MalformedStartUrl);
      assert Netloc(url.value).None?;
      return IndexFailed(CrawlErrorMessage(crawl.error)), db', crawled, order;
    }
    crawled := crawl.value;
    resp, db' := IndexPages(crawl.value, ex, split, embedderFailure, backend, db);
    if resp.Indexed? {
      session.indexedUrl := Some(url.value);
    }
  }

  // ---------------------------------------------------------------------------------------------
  // api_chat

  /** `messages[-5:]`. */
  function Window(messages: seq<ChatMessage>): (w: seq<ChatMessage>)
    ensures |w| == if |messages| < HistoryWindow then |messages| else HistoryWindow
    ensures w == messages[|messages| - |w|..]
  {
    if |messages| <= HistoryWindow then messages else messages[|messages| - HistoryWindow..]
  }

  /** The window rolls: a new message joins at the end and, once the window is full, the oldest
      one leaves. */
  lemma WindowRolls(messages: seq<ChatMessage>, m: ChatMessage)
    ensures var w := Window(messages);
      Window(messages + [m]) == (if |w| == HistoryWindow then w[1..] else w) + [m]
  {
    var w := Window(messages);
    var all := messages + [m];
    if |messages| < HistoryWindow {
      assert Window(all) == all;
    } else {
      assert Window(all) == all[|all| - HistoryWindow..];
      assert all[|all| - HistoryWindow..] == messages[|messages| - HistoryWindow + 1..] + [m];
    }
  }

  /** The label a history line starts with. */
  function RoleLabel(role: string): string {
    if role == UserRole then "Human" else "AI"
  }

  /** `f"{role_label}: {msg['content']}\n"`. */
  function Line(m: ChatMessage): (r: string)
    ensures |r| > |m.content| && r[|r| - 1] == '\n'
    ensures r[|r| - 1 - |m.content|..|r| - 1] == m.content
  {
    var head := RoleLabel(m.role) + ": ";
    assert (head + m.content + "\n")[|head|..|head| + |m.content|] == m.content;
    head + m.content + "\n"
  }

  /** The history text for a list of messages: their lines, in order. */
  function Render(messages: seq<ChatMessage>): string {
    FlatMap(messages, Line)
  }

  /** The history `api_chat` builds ends with the question just saved, as a "Human: " line. */
  lemma HistoryEndsWithQuestion(messages: seq<ChatMessage>, question: string)
    ensures var h := Render(Window(messages + [ChatMessage(UserRole, question)]));
      var line := "Human" + ": " + question + "\n";
      |line| <= |h| && h[|h| - |line|..] == line
  {
    var m := ChatMessage(UserRole, question);
    var w := Window(messages + [m]);
    WindowRolls(messages, m);
    var kept := if |Window(messages)| == HistoryWindow then Window(messages)[1..] else Window(messages);
    assert w == kept + [m] && w[..|w| - 1] == kept && w[|w| - 1] == m;
    assert Render(w) == Render(kept) + Line(m);
    assert RoleLabel(UserRole) == "Human";
    EndsWith(Render(kept), Line(m));
  }

  lemma EndsWith(a: string, b: string)
    ensures (a + b)[|a + b| - |b|..] == b
  {
  }

  /** The loop at chat/views.py:162-166. */
  method FormatHistory(messages: seq<ChatMessage>) returns (history: string)
    ensures history == Render(Window(messages))
  {
    var window := if |messages| <= HistoryWindow then messages else messages[|messages| - HistoryWindow..];
    history := "";
    for i := 0 to |window|
      invariant history == Render(window[..i])
    {
      assert window[..i + 1][..i] == window[..i];
      assert Render(window[..i + 1]) == Render(window[..i]) + Line(window[i]);
      var roleLabel := if window[i].role == UserRole then "Human" else "AI";
      assert Line(window[i]) == roleLabel + ": " + window[i].content + "\n";
      history := history + (roleLabel + ": " + window[i].content + "\n");
    }
    assert window[..|window|] == window;
  }

  /** One entry `{"source": ..., "title": ...}` of the answer's sources. */
  datatype SourceRef = SourceRef(source: string, title: Option<string>)

  function SourceRefs(docs: seq<Document>): (r: seq<SourceRef>)
    ensures |r| == |docs|
    ensures forall i :: 0 <= i < |docs| ==> r[i] == SourceRef(docs[i].metadata.source, docs[i].metadata.title)
  {
    seq(|docs|, i requires 0 <= i < |docs| => SourceRef(docs[i].metadata.source, docs[i].metadata.title))
  }

  /** The JSON answer of `api_chat`: an answer with its sources, an answer reporting the error
      that stopped the RAG step, or an error. */
  datatype ChatResponse =
    | Answered(answer: string, sources: seq<SourceRef>)
    | AnswerFailed(answer: string)
    | ChatFailed(error: string)

  /** `api_chat`. `question` is the request's "message" field; `openFailure` is the exception,
      if any, raised while the stored collection is opened (embedder, client, or no store for
      the configured provider); `retrieve` and `generate` stand for the retriever and the chain
      over it. */
  method ApiChat(session: Session, isPost: bool, question: string, openFailure: Option<string>,
                 retrieve: string -> QAChain.Retrieval, generate: QAChain.ChainInput -> QAChain.Generation)
    returns (resp: ChatResponse)
    modifies session
    ensures session.indexedUrl == old(session.indexedUrl)
    ensures !isPost ==> resp == ChatFailed(InvalidMethod) && session.messages == old(session.messages)
    ensures isPost && openFailure.Some? ==>
      && resp == AnswerFailed(ErrorPrefix + openFailure.value)
      && session.messages == old(session.messages) + [ChatMessage(UserRole, question)]
    ensures isPost && openFailure.None? ==>
      var saved := old(session.messages) + [ChatMessage(UserRole, question)];
      var result := QAChain.Answer(question, Render(Window(saved)), retrieve, generate);
      && resp == Answered(result.answer, SourceRefs(result.sources))
      && session.messages == saved + [ChatMessage(AssistantRole, result.answer)]
  {
    if !isPost {
      return ChatFailed(InvalidMethod);
    }
    var messages := session.messages;
    messages := messages + [ChatMessage(UserRole, question)];
    session.messages := messages;
    if openFailure.Some? {
      return AnswerFailed(ErrorPrefix + openFailure.value);
    }
    var history := FormatHistory(messages);
    var result := QAChain.Answer(question, history, retrieve, generate);
    var sources := SourceRefs(result.sources);
    messages := messages + [ChatMessage(AssistantRole, result.answer)];
    session.messages := messages;
    resp := Answered(result.answer, sources);
  }
}
