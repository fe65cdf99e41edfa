# Website QA indexing and chat, modelled in Dafny

This project models the core of a Django website question-answering application. A signed-in
user gives the site a URL. `api_index` then indexes the site in five stages:

- it crawls up to five HTML pages on the URL's host, breadth first;
- it extracts each page's readable text and title, with trafilatura first and a BeautifulSoup
  fallback;
- it normalises the text's whitespace;
- it cuts the text into chunks labelled with the page's URL and title;
- it replaces the contents of a Chroma collection (or of a Pinecone index) with those chunks.

`api_chat` then answers questions with a retrieval-augmented chain over the stored chunks. The
last five messages of the conversation go to the chain as history, and the conversation is kept
in the session. `validate_gateway` checks a URL before it is indexed: its form first, then one
probe request.

Each module follows one source file:

| module | file | what it holds |
|---|---|---|
| `Text`, `Urls` | — | the Python `str`, `re` and `urllib.parse` behaviour the core depends on |
| `Cleaner` | `chat/cleaner.py` | `clean` and the normal form it produces |
| `Crawler` | `chat/backend/crawler.py` | the crawl, as imperative code with its queue, visited set and results |
| `Extraction`, `BackendExtractor`, `ChatExtractor` | `chat/backend/extractor.py`, `chat/extractor.py` | the two extractors |
| `Chunker` | `chat/backend/chunker.py` | labelling the splitter's pieces and dropping blank ones |
| `VectorStores` | `chat/vectorstore.py` | the store, as a class whose database is a map from collection name to documents |
| `QAChain` | `chat/backend/qa_chain.py` | `answer` and its prompt |
| `Validator` | `chat/backend/validator.py` | `validate_gateway` and the reasons its error texts encode |
| `Views` | `chat/views.py` | `api_index`, `api_chat` and `clear_chat`, with the session as a class |
| `Lists` | — | the "extend the list in a loop" pattern these views use |
| `Config`, `Docs`, `Wrappers` | `chat/config.py` | the settings, documents, `Option` and `Result` |

The outside world arrives as parameters:

- The network, the HTML parser and `urljoin` are the functions of a `Crawler.Web` value.
- What trafilatura and BeautifulSoup make of a page is an `Extraction.PrimaryOutcome` and a
  `BackendExtractor.FallbackOutcome`.
- The text splitter is a `split` function.
- The retriever and the LLM chain are `retrieve` and `generate` functions.
- The vector database's deletions and insertions are outcome values. Its contents are a
  `map<string, seq<Document>>`.

## Model

| member | source | states |
|---|---|---|
| Cleaner.Clean | chat/cleaner.py:8-18 | Whatever the input, the result is in normal form: no carriage return, no run of three newlines, no tab, no two adjacent spaces, no whitespace at either end. Empty input gives "". |
| Cleaner.CleanKeepsNonSpace | chat/cleaner.py:12-18 | Cleaning only rewrites whitespace: the non-whitespace characters survive unchanged and in order. |
| Cleaner.CleanEmptyIff | chat/cleaner.py:9-18 | The cleaned text is empty exactly when the input is all whitespace. |
| Cleaner.CleanFixesNormalForm | chat/cleaner.py:12-18 | Text already in normal form is returned unchanged. |
| Cleaner.CleanIdempotent | chat/cleaner.py:8-18 | Cleaning twice is cleaning once. |
| Cleaner.SubstitutionsNormalize | chat/cleaner.py:12-16 | After the three substitutions, and before the strip, there is no carriage return, no run of three newlines, no tab and no double space. |
| Cleaner.StripToNormalForm | chat/cleaner.py:18 | Stripping text that has no carriage return, no newline run and no double blank yields the normal form. |
| Cleaner.ReplaceCrLf | chat/cleaner.py:12 | `replace('\r\n', '\n')`, scanning left to right without overlap; its properties are the lemmas below. |
| Cleaner.NormalizeLineEndings | chat/cleaner.py:12 | After CRLF and then lone CR become LF, no carriage return is left. |
| Cleaner.CollapseBlanks | chat/cleaner.py:16 | `[ \t]+` becomes one space: the result is empty exactly when the input is, starts with the input's first character (a space when that is a blank), and holds only the input's characters and spaces. |
| Cleaner.ReplaceCrLfKeepsNonSpace | chat/cleaner.py:12 | Replacing CRLF by LF keeps the non-whitespace characters. |
| Cleaner.ReplaceCrLfIdentity | chat/cleaner.py:12 | Text without a carriage return is unchanged by the CRLF replacement. |
| Cleaner.CollapseBlanksSingleSpaced | chat/cleaner.py:16 | After `[ \t]+` becomes one space, there is no tab and no two adjacent spaces. |
| Cleaner.CollapseBlanksKeepsNoRun3 | chat/cleaner.py:14-16 | Collapsing blanks does not create a run of three newlines. |
| Cleaner.CollapseBlanksIdentity | chat/cleaner.py:16 | Text with no tab and no double space is unchanged by the blank collapse. |
| Cleaner.CollapseBlanksKeepsNonSpace | chat/cleaner.py:16 | Collapsing blanks keeps the non-whitespace characters. |
| Text.CollapseNewlines | chat/cleaner.py:14 | `re.sub(r'\n{3,}', '\n\n', s)`: every character of the result comes from the input, and a first character that is not a newline is kept. |
| Text.ReplaceChar | chat/backend/extractor.py:53 | `s.replace(a, b)` for one character: the same length, with `b` exactly where `s` has `a` and `s` elsewhere. |
| Text.CollapseNewlinesNoRun3 | chat/cleaner.py:14 | After `\n{3,}` becomes two newlines, no run of three newlines is left. |
| Text.CollapseNewlinesIdentity | chat/backend/extractor.py:54 | Text with no run of three newlines is left as it is. |
| Text.CollapseNewlinesKeepsNonSpace | chat/backend/extractor.py:54 | Collapsing newline runs keeps the non-whitespace characters. |
| Text.ReplaceCharRemoves | chat/backend/extractor.py:53 | After a character is replaced by a different one, it no longer occurs. |
| Text.ReplaceSpaceKeepsNonSpace | chat/backend/extractor.py:53 | Replacing the no-break space by a space keeps the non-whitespace characters. |
| Text.Strip | chat/cleaner.py:18 | `str.strip()` returns a contiguous slice of its input that neither starts nor ends with whitespace. |
| Text.StripMargins | chat/cleaner.py:18 | Everything `strip` removes, at either end, is whitespace. |
| Text.StripEmpty | chat/backend/chunker.py:27 | A text strips to "" exactly when it is all whitespace. |
| Text.StripKeepsNonSpace | chat/cleaner.py:18 | Stripping keeps the non-whitespace characters. |
| Text.Lower | chat/backend/crawler.py:45 | Lower-casing keeps the length and maps each character on its own. |
| Text.IntToStringRoundTrip | chat/backend/validator.py:30 | The status code written into an error text can be read back as the same integer, negative ones included. |
| Text.ContainsIff | chat/backend/crawler.py:45 | `pattern in s` holds exactly when the pattern occurs at some position of `s`. |
| Urls.HasScheme | chat/backend/validator.py:14-15 | A scheme is present when a ':' follows a letter and scheme characters only; a predicate read by `Urls.Scheme`'s contract. |
| Urls.Authority | chat/backend/crawler.py:58 | The authority after "//" runs up to the first '/', '?' or '#', so it contains none of them. |
| Urls.Netloc | chat/backend/validator.py:14-18 | `urlparse(s).netloc` (also read at chat/backend/crawler.py lines 20, 40 and 58), or None when `urlparse` raises: a netloc is returned exactly when its '[' and ']' are both present or both absent. |
| Urls.Scheme | chat/backend/validator.py:14-15 | `urlsplit` finds a non-empty scheme exactly when the URL has one (a letter, then scheme characters, then ':'). |
| Urls.StripFragment | chat/backend/crawler.py:59 | The URL without its fragment has no '#' and is the URL up to its first '#'. |
| Urls.NetlocStripFragment | chat/backend/crawler.py:58-61 | Removing the fragment keeps the netloc, so the host test of a link and the link enqueued agree. |
| Urls.AuthorityStripFragment | chat/backend/crawler.py:58-59 | The authority ends at the first '#' at the latest, so cutting the fragment keeps it. |
| Urls.AfterSchemeStripFragment | chat/backend/crawler.py:58-59 | Removing the fragment commutes with taking the scheme off. |
| Urls.IndexOf | chat/backend/crawler.py:59 | `find` returns the first position of the character, or the length when it is absent. |
| Crawler.Crawl | chat/backend/crawler.py:14-70 | See the Crawler.Crawl list below the table. |
| Crawler.CrawlDefault | chat/backend/crawler.py:14-23 | With the default limit of 5: the two ValueErrors exactly as in `Crawl`; on success the pages are `Crawled` with limit 5 (the whole breadth-first run, with `order` the URLs dequeued), so at most 5 of them, every one on the start URL's host. |
| Crawler.Explore | chat/backend/crawler.py:21-68 | The loop of `crawl`: its dequeue order is a breadth-first run that has finished, the results are the kept pages of that order, and the enqueued URLs are `Enqueued` of it, distinct, on the host and each harvested from an earlier kept page. |
| Crawler.Step | chat/backend/crawler.py:28-63 | One iteration keeps the crawl invariant, dequeues the head of the queue, and either keeps a page or shortens the queue. |
| Crawler.Accepts | chat/backend/crawler.py:36-47 | A fetched URL's page is kept exactly when the request returned, with status 200, a final URL whose netloc is the start host, and a lower-cased Content-Type ("" when absent) containing "text/html". |
| Crawler.Kept | chat/backend/crawler.py:36-50 | A dequeued URL gives at most one page, exactly when `Accepts` holds, and that page carries the final URL, on the start host. |
| Crawler.Discovered | chat/backend/crawler.py:50-63 | The URLs a visit enqueues: the page's `NewLinks` when the page is kept and the results are still below the limit, and none otherwise. |
| Crawler.Enqueued | chat/backend/crawler.py:21-63 | The URLs enqueued once `order` has been dequeued: the start URL first, then the links each dequeued URL contributed, in order. |
| Crawler.DequeuedAt | chat/backend/crawler.py:27-28 | The k-th URL dequeued is the k-th URL enqueued, and it was dequeued while fewer than `limit` pages were kept: first in, first out. |
| Crawler.Dequeues | chat/backend/crawler.py:27-28 | Every URL of `order` was dequeued as `DequeuedAt` says. |
| Crawler.Finished | chat/backend/crawler.py:27 | The loop condition fails: every enqueued URL has been dequeued, or `limit` pages are kept. |
| Crawler.Crawled | chat/backend/crawler.py:14-70 | The pages returned by `crawl(start, limit)`: a breadth-first run from the start URL that has finished, and the kept pages of its dequeue order. |
| Crawler.CrawledUnique | chat/backend/crawler.py:14-70 | Two runs that are both `Crawled` for the same start URL, limit and web have the same dequeue order and the same pages, so `Crawled` fixes what `crawl` returns. |
| Crawler.DequeuesAgree | chat/backend/crawler.py:27-28 | Two breadth-first runs from the same start agree on their common prefix. |
| Crawler.StillRunning | chat/backend/crawler.py:27 | A breadth-first run has not finished before its last dequeue. |
| Crawler.EnqueuedGrows | chat/backend/crawler.py:63 | Nothing leaves the enqueued list: what was enqueued after a prefix of the run is still enqueued after the whole run. |
| Crawler.NewLinksComplete | chat/backend/crawler.py:54-63 | Every on-host link of a page, when no earlier anchor made `urljoin` or `urlparse` raise, is visited afterwards: seen before, or harvested now. |
| Crawler.EnqueuedComplete | chat/backend/crawler.py:50-63 | Every on-host link of a page kept while below the limit is enqueued, unless an earlier anchor of that page raised. |
| Crawler.StepKeepsRun | chat/backend/crawler.py:27-28 | Dequeuing the head of the queue while below the limit extends the breadth-first run. |
| Crawler.CrawlStops | chat/backend/crawler.py:27 | When the loop exits, the run has finished. |
| Crawler.Visit | chat/backend/crawler.py:28-67 | One dequeued URL adds its page to the results exactly when it is kept (fetched with status 200, its final URL on the start host, Content-Type text/html). While the count stays below the limit, the queue and the visited set grow by exactly the new links of that page. |
| Crawler.Harvest | chat/backend/crawler.py:53-63 | The link loop appends exactly `NewLinks` to the queue, and adds exactly those links to the visited set. |
| Crawler.NewLinks | chat/backend/crawler.py:54-63 | The links harvested are unseen, fragment-free, on the start host and pairwise distinct. |
| Crawler.NewLinksResolve | chat/backend/crawler.py:55-59 | Every harvested link is the `urljoin` of one of the page's anchors with its fragment removed. |
| Crawler.NewLinksStop | chat/backend/crawler.py:56-58 | An anchor whose `urljoin` or `urlparse` raises ends the harvest there (the except at lines 65-67). |
| Crawler.NewLinksTake | chat/backend/crawler.py:61-63 | An anchor resolving to an unseen on-host link contributes that link first, and the rest is harvested with it marked visited. |
| Crawler.NewLinksSkip | chat/backend/crawler.py:61 | An off-host or already-visited link contributes nothing. |
| Crawler.Pages | chat/backend/crawler.py:36-50 | The dequeued URLs give at most one page each, and every page kept has its final URL on the start host. |
| Crawler.StepKeepsState | chat/backend/crawler.py:27-63 | One iteration of the `while` loop preserves the crawl invariant. |
| Crawler.StepKeepsPages | chat/backend/crawler.py:50-52 | After one more visit, the results are still the kept pages of the dequeued URLs and within the limit. |
| Crawler.StepKeepsOnHost | chat/backend/crawler.py:61-63 | Enqueuing harvested links keeps every enqueued URL after the first fragment-free and on the start host. |
| Crawler.DiscoverLinks | chat/backend/crawler.py:61-63 | Enqueuing a page's new links keeps the enqueued URLs distinct, and records that page as the parent of each new link. |
| Crawler.CrawlStart | chat/backend/crawler.py:21-23 | The start state satisfies the invariant: one queued URL, visited, no results. |
| Crawler.CrawlDone | chat/backend/crawler.py:27 | When the loop stops, the queue is exhausted or the limit is reached, and the results are within the limit. |
| Extraction.TitleOf | chat/backend/extractor.py:28 | A missing title key gives "Unknown Title". A title key present with None gives None, and only then. |
| Extraction.PostProcess | chat/backend/extractor.py:53-54 | The result has no no-break space and no run of three newlines. A non-empty text not starting with a newline stays non-empty. |
| Extraction.PostProcessKeepsNonSpace | chat/extractor.py:30-31 | Post-processing only rewrites whitespace. |
| Extraction.PostProcessFixes | chat/extractor.py:30-31 | Text already free of no-break spaces and newline runs is left alone. |
| Extraction.PostProcessIdempotent | chat/extractor.py:30-31 | Post-processing twice is post-processing once. |
| BackendExtractor.FallbackTitle | chat/backend/extractor.py:41 | A non-empty `<title>` string gives its stripped value; otherwise "Unknown Title". |
| BackendExtractor.Source | chat/backend/extractor.py:23-47 | trafilatura's text and title when it finds text; otherwise the fallback's text and title; None when the fallback raises. |
| BackendExtractor.Extract | chat/backend/extractor.py:10-67 | Empty HTML, or an exception from trafilatura, gives None. A result exists exactly when the chosen source has text whose post-processed form has at least 10 characters. A result never holds a no-break space or a run of three newlines. |
| BackendExtractor.ExtractKeepsContent | chat/backend/extractor.py:49-63 | The text returned differs from the source's only in whitespace, and the title is the source's. |
| BackendExtractor.PrimaryTextWins | chat/backend/extractor.py:26-31 | When trafilatura finds text, the fallback plays no part. |
| ChatExtractor.Extract | chat/extractor.py:10-44 | Empty HTML, or no text from trafilatura, gives None. A result exists exactly when the post-processed text has at least 50 characters. The result carries trafilatura's title. |
| ChatExtractor.ExtractKeepsContent | chat/extractor.py:27-40 | The text returned differs from trafilatura's only in whitespace. |
| ChatExtractor.BackendAcceptsMore | chat/extractor.py:23-35 | Every page this extractor keeps, the backend extractor keeps too, with the same text and title, whatever its fallback does. |
| Chunker.Stamp | chat/backend/chunker.py:23-27 | One document per non-blank piece and no more. Each document carries the page's metadata. A piece appears exactly when it is non-blank. |
| Chunker.StampAppend | chat/backend/chunker.py:25-27 | Labelling keeps the splitter's order: it distributes over concatenation. |
| Chunker.SubstantiveIff | chat/backend/chunker.py:27 | A piece passes the filter exactly when it is not all whitespace. |
| Chunker.Chunk | chat/backend/chunker.py:18-27 | Empty text gives no chunks. Otherwise the chunks are the labelled non-blank pieces of the splitter's output, each with metadata {source, title} and some non-whitespace text. |
| Chunker.ChunkUntitled | chat/backend/chunker.py:18 | Without a title, every chunk is titled "Unknown". |
| VectorStores.InitFailure | chat/vectorstore.py:15-32 | Chroma raises what its client raises. Pinecone raises "Pinecone API Key is missing." exactly when the key is missing or empty. Another provider raises nothing. |
| VectorStores.ResetFailure | chat/vectorstore.py:34-61 | A deletion that works raises nothing. Chroma tolerates exactly a ValueError and reports other errors with their message. Pinecone tolerates exactly a NOT_FOUND/404 error and reports other errors with the fixed message. Every error starts with "Could not reset vector store for new site: ". |
| VectorStores.AfterReset | chat/vectorstore.py:38-57 | A deletion that works removes the Chroma collection, or empties the Pinecone index. A failed one changes nothing. No other collection is touched. |
| VectorStores.Insert | chat/vectorstore.py:72-85 | The new documents are appended after whatever the target holds. Other collections are untouched. |
| VectorStores.CreateReplaces | chat/vectorstore.py:63-88 | When the reset removed the old contents, the target holds exactly the new documents afterwards. |
| VectorStores.TolerantResetKeepsOld | chat/vectorstore.py:42-54 | A tolerated deletion error leaves the old documents in front of the new ones. |
| VectorStores.VectorStore.constructor | chat/vectorstore.py:15-19 | The store records its collection name, its provider and the database. |
| VectorStores.VectorStore.Open | chat/vectorstore.py:15-32 | Opening fails exactly where `InitFailure` says, with its message; otherwise it gives a fresh store over the database. |
| VectorStores.VectorStore.ResetCollection | chat/vectorstore.py:34-61 | It raises exactly `ResetFailure`, and the database becomes `AfterReset` of the old one. |
| VectorStores.VectorStore.CreateCollection | chat/vectorstore.py:63-88 | No documents: None and no change. A failed reset: the error and no change. An unknown provider: UnboundLocalError after the reset. A failed insertion: its error after the reset. Otherwise the handle, with the documents inserted after the reset. |
| VectorStores.VectorStore.AsRetriever | chat/vectorstore.py:90-91 | The retriever searches the given store for the top 4 documents. |
| QAChain.TemplateMentions | chat/backend/qa_chain.py:19-33 | The prompt has a slot for each of context, chat_history and question, and tells the model the exact not-available sentence. |
| QAChain.Answer | chat/backend/qa_chain.py:41-75 | No documents retrieved: the not-available sentence with no sources. A retrieval or chain error: "An error occurred: " + message, with no sources. Otherwise the chain's output for the documents, the query and the history, with the documents as sources. |
| QAChain.AnswerKinds | chat/backend/qa_chain.py:41-75 | Every result is the sentinel, an error with no sources, or the chain's answer with the retrieved documents unchanged and in order as sources. |
| QAChain.SourcesOnlyWithAnswer | chat/backend/qa_chain.py:56-68 | Sources are reported only when they are the retrieved documents and the chain answered from them. |
| QAChain.AnswerWithoutHistory | chat/backend/qa_chain.py:41 | Without a history the chain gets "" as history. |
| Validator.Message | chat/backend/validator.py:11-53 | The error text of each rejection reason; `Validator.MessageRoundTrip` states that each text reads back as its reason. |
| Validator.Diagnose | chat/backend/validator.py:9-53 | An empty URL is rejected as empty. An ill-formed one is rejected as malformed or bad format. A URL is accepted exactly when it is non-empty, has a scheme and a netloc, and the probe answers 200 with an HTML Content-Type. |
| Validator.FormatCheckedFirst | chat/backend/validator.py:10-18 | A URL rejected for its form is rejected whatever the probe would do. |
| Validator.ValidateGateway | chat/backend/validator.py:9-53 | `valid` holds exactly when there is no error, and exactly when the URL is well-formed and serves HTML. A rejected URL carries the message of its reason. |
| Validator.MessageRoundTrip | chat/backend/validator.py:10-53 | Every error text names its reason unambiguously, including the status code, the Content-Type and the exception text it quotes. |
| Validator.ErrorIdentifiesReason | chat/backend/validator.py:9-53 | The error of a rejected URL reads back as exactly the reason it was rejected. |
| Validator.UnreachableRoundTrip | chat/backend/validator.py:27-31 | The status code can be read back from the "Website unreachable" text. |
| Validator.NotHtmlRoundTrip | chat/backend/validator.py:33-39 | The Content-Type can be read back from the "does not point to a website" text. |
| Validator.ConnectionFailedRoundTrip | chat/backend/validator.py:51-53 | The exception text can be read back from the "Connection failed" text. |
| Validator.FixedRoundTrip | chat/backend/validator.py:10-50 | The six fixed error texts are told apart from each other and from the quoting ones. |
| Lists.FlatMapAppend | chat/views.py:80-85 | Extending a list entry by entry distributes over concatenation. |
| Lists.FlatMapMember | chat/views.py:80-85 | Every element of the extended list comes from some entry. |
| Lists.FlatMapHas | chat/views.py:80-85 | Every piece of every entry is in the extended list. |
| Views.Session.constructor | chat/views.py:42-43 | The session holds a conversation and the URL last indexed. |
| Views.ClearChat | chat/views.py:47-48 | The conversation is emptied and the indexed URL is kept. |
| Views.ExtractPage | chat/views.py:69-76 | A crawled page gives at most one entry, labelled with the page's URL, with at least 10 characters of text. |
| Views.ExtractionsFromPages | chat/views.py:68-76 | An entry is extracted exactly when it is what the extractor gives for one of the crawled pages. |
| Views.ExtractPages | chat/views.py:68-76 | The loop builds exactly the extraction of every page whose extraction succeeds, in crawl order. |
| Views.ChunksOf | chat/views.py:83-84 | The chunks of an entry are labelled with its URL and title, and each has non-whitespace text. |
| Views.AllChunksLabelled | chat/views.py:80-85 | Every chunk has non-whitespace text and carries the URL and title of some extracted entry. |
| Views.ChunkAll | chat/views.py:80-85 | The loop builds exactly the chunks of the cleaned text of every entry, entry after entry. |
| Views.IndexedChunksFromPages | chat/views.py:64-85 | Every stored chunk has non-whitespace text and names a crawled page's URL as its source. |
| Views.StoreError | chat/views.py:87-100 | The `str(e)` that `api_index` reports when storing raises: the embedder's error, the store's opening error, the reset's RuntimeError, the UnboundLocalError of an unknown provider, or the insertion's error, in the order the code meets them. There is none exactly when storing succeeds. |
| Views.AfterStore | chat/views.py:87-91 | The database after the storing step, whether it raised or not. It is unchanged when the step stops before the reset, and equal to the stored chunks' database on success. No collection other than the target changes. |
| Views.FailedInsertionLosesSite | chat/vectorstore.py:63-88 | A Chroma reset that works followed by a failed insertion reports the insertion's error, and the previously indexed collection is gone. |
| Views.StoreChunks | chat/views.py:87-91 | Storing succeeds exactly when the embedder, the store opening, the reset and the insertion all succeed (or there are no chunks). The exception message is exactly `StoreError` and the database is exactly `AfterStore`: an embedder or opening error changes nothing, and on success the database is the reset-then-insert of the chunks. |
| Views.IndexPages | chat/views.py:64-100 | Indexing succeeds exactly when storing the chunks of the crawled pages does; it then reports their number. A failure reports exactly `StoreError` of those chunks, and in both cases the database is `AfterStore` of them. |
| Views.ApiIndex | chat/views.py:54-102 | See the Views.ApiIndex list below the table. |
| Views.Window | chat/views.py:162 | The window is the last five messages, or all of them when there are fewer. |
| Views.WindowRolls | chat/views.py:112-114 | A new message joins the window at the end and, once it is full, the oldest leaves. |
| Views.HistoryEndsWithQuestion | chat/views.py:112-114 | The history handed to the chain ends with the question just saved, as a "Human: " line. |
| Views.Line | chat/views.py:165-166 | One history line ends with a newline, just after the message's content. |
| Views.Render | chat/views.py:163-166 | The history string: one `Line` per message, concatenated in order; its properties are `Views.FormatHistory` and `Views.HistoryEndsWithQuestion`. |
| Views.FormatHistory | chat/views.py:162-166 | The loop renders exactly the window's messages, one "Human"/"AI" line each, in order. |
| Views.SourceRefs | chat/views.py:171 | One source entry per document, in order, with its source and title. |
| Views.ApiChat | chat/views.py:105-188 | See the Views.ApiChat list below the table. |

Crawler.Crawl, in full:

- An empty start URL raises "URL cannot be empty". An unparseable netloc raises "Invalid IPv6 URL".
- Otherwise the results are `Crawled`: the dequeue order is the breadth-first run from the start
  URL. The k-th URL dequeued is the k-th URL enqueued, and it is dequeued only while fewer than
  `limit` pages are kept. The results are exactly the kept pages of that order, and there are
  at most `limit` of them.
- The run stops only at the limit, or once every enqueued URL has been fetched.
- The enqueued URLs are `Enqueued` of the run: each dequeued URL contributes its page's new links.
  `Crawler.EnqueuedComplete` shows that no on-host link of a page kept below the limit is
  missed. `Crawler.CrawledUnique` shows that `Crawled` determines the pages.
- The enqueued URLs are distinct and start with the start URL. Every later one is
  fragment-free, lies on the start host, and was harvested from an earlier page kept while
  below the limit.

Views.ApiIndex, in full:

- A non-POST request fails with "Invalid method".
- A missing or empty URL fails with "No URL provided".
- An unparseable URL fails with the crawler's error.
- Otherwise the pages indexed are the crawl of the URL with limit 5 (`Crawler.Crawled`), and
  indexing succeeds exactly when storing their chunks does.
- On success it reports the number of chunks, records the URL in the session, and leaves the
  database with those chunks stored.
- On a failed store it reports `str(e)` of the exception (`Views.StoreError`). The database is
  then `Views.AfterStore`: as it was when the failure came before the reset, and reset when it
  came after.
- The conversation is never touched, and failures leave the indexed URL as it was.

Views.ApiChat, in full:

- A non-POST request fails with "Invalid method" and leaves the session alone.
- Otherwise the question is saved first.
- An error while opening the store answers "Error: " + message.
- Otherwise the reply is the chain's answer to the question, with the rendered last five
  messages as history and the sources of the documents used. The answer is saved after the
  question.
- The indexed URL is never touched.

## Left out

- HTTP and parsing: the network calls, `time.sleep`, the User-Agent header, logging and the
  compression-ratio computation are not modelled. Responses and parser output are parameters.
- `urlsplit` is modelled only for the scheme, the netloc and the fragment. Its NFKC checks and
  its port and bracketed-host validation are not.
- Scheme (`Urls.Scheme`, and `Urls.Netloc` with it): `urlsplit` first strips leading C0 control
  characters and spaces and removes every tab, CR and LF. The model reads the string as given,
  so `" https://example.com"` has no scheme here but scheme "https" in Python.
- StripFragment (`Urls.StripFragment`): `geturl()` rebuilds the URL rather than cutting it. It
  lower-cases the scheme (`"HTTPS://h/x#f"` gives `"https://h/x"`), drops an empty ';' params
  (`"http://h/a;#f"` gives `"http://h/a"`) and drops an empty '?'. The model keeps the string
  up to the first '#', so such links are different strings here and can both be enqueued.
- `str.lower()` is modelled for ASCII letters only. Content-Type values are ASCII in practice.
- `RecursiveCharacterTextSplitter` is the `split` parameter. Its chunk size (1000) and overlap
  (150) are recorded in `Chunker.Settings`, but no property of the splitting itself is proved.
- Similarity search, embeddings (`backend/embedder.py` and `chat/backend/embedder.py` are not
  part of this model) and the LLM are the `retrieve` and `generate` parameters and the
  embedder's failure.
- A partly completed insertion into the vector store is not modelled: `from_documents` either
  stores every document or raises having stored none.
- Views.ApiChat: the opening of the stored Chroma or Pinecone collection (chat/views.py:118-159) is
  folded into one `openFailure` value. A provider that is neither Chroma nor Pinecone gets its
  UnboundLocalError that way too.
- Views.ApiChat: a request whose JSON has no "message" is modelled with the question as a
  string. The source stores None. A body that is not JSON (the outer handler at
  chat/views.py:185-186) is not modelled; the same holds for the outer handler of `api_index`
  for JSON errors.
- Views.ApiIndex: chat/views.py imports `.backend.cleaner` and `.backend.vectorstore`, which are
  not among the modelled files. chat/cleaner.py and chat/vectorstore.py are modelled in their
  place.
- The `index`, `login_view` and `logout_view` views, `Auth`, `Retriever` (chat/retriever.py), the
  Streamlit front end and the scripts are not part of this model. A session without a
  'messages' key is treated as an empty conversation.
- Concurrency is not modelled: two users share one collection name, and concurrent requests
  could interleave their resets and insertions.
- Crawler.Crawl: the same page can appear twice in the results when two distinct enqueued URLs
  redirect to the same final URL. The code allows it and the model keeps it.
- BackendExtractor.Extract: an exception from trafilatura is caught by the outer handler, so no
  fallback is tried. The model follows the code, although a fallback test script in the
  repository expects the fallback to run.
- Views.ApiIndex: a reset that works followed by a failed insertion leaves the collection reset,
  so the previously indexed site is lost while the session still names it
  (`Views.FailedInsertionLosesSite`). The model follows the code.
- Views.ApiIndex: a site giving zero chunks still succeeds with `chunks_count` 0 and records
  the URL, while the previously stored site stays in the database. The model follows the code.
- VectorStores.VectorStore.CreateCollection: a tolerated reset error (a Chroma ValueError, a
  Pinecone 404) leaves the old documents in front of the new ones. The model follows the code.
