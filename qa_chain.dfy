/** `QAChain.answer` (chat/backend/qa_chain.py): retrieval, then a "stuff" chain over the
    retrieved documents, with every exception turned into an answer. The retriever and the
    language-model chain are parameters. */
module QAChain {
  import opened Text
  import opened Docs

  /** What `retriever.invoke(query)` did. */
  datatype Retrieval = RetrievalRaised(message: string) | Retrieved(docs: seq<Document>)

  /** The inputs handed to the chain. */
  datatype ChainInput = ChainInput(inputDocuments: seq<Document>, question: string, chatHistory: string)

  /** What the chain did: its `output_text`, or an exception. */
  datatype Generation = GenerationRaised(message: string) | Generated(outputText: string)

  /** The returned dict `{"answer": ..., "sources": ...}`. */
  datatype QAResult = QAResult(answer: string, sources: seq<Document>)

  const NotAvailable: string := "The answer is not available on the provided website."
  const ErrorPrefix: string := "An error occurred: "

  /** The prompt, written as its literal pieces around the sentinel phrase and the three
      placeholders. */
  const Instructions: string :=
    "Use the following pieces of context to answer the question at the end. \nIf you don't know the answer, just say '"
  const AfterSentinel: string := "', don't try to make up an answer.\n\n"
  const BeforeHistory: string := "\n\nCurrent Conversation:\n"
  const BeforeQuestion: string := "\n\nQuestion: "
  const Closing: string := "\nAnswer:"
  const Template: string :=
    Instructions + (NotAvailable + (AfterSentinel + ("{context}" + (BeforeHistory
      + ("{chat_history}" + (BeforeQuestion + ("{question}" + Closing)))))))

  /** The prompt tells the model to give the very sentence `answer` returns when nothing is
      retrieved, and it has a slot for each input variable. */
  lemma TemplateMentions()
    ensures Contains(Template, NotAvailable)
    ensures Contains(Template, "{context}")
    ensures Contains(Template, "{chat_history}")
    ensures Contains(Template, "{question}")
  {
    var fromQuestion := "{question}" + Closing;
    var fromHistory := "{chat_history}" + (BeforeQuestion + fromQuestion);
    var fromContext := "{context}" + (BeforeHistory + fromHistory);
    var fromSentinel := NotAvailable + (AfterSentinel + fromContext);
    ContainsPrefix("{question}", Closing);
    ContainsExtend(BeforeQuestion, fromQuestion, "{question}");
    ContainsPrefix("{chat_history}", BeforeQuestion + fromQuestion);
    ContainsExtend("{chat_history}", BeforeQuestion + fromQuestion, "{question}");
    ContainsExtend(BeforeHistory, fromHistory, "{question}");
    ContainsExtend(BeforeHistory, fromHistory, "{chat_history}");
    ContainsPrefix("{context}", BeforeHistory + fromHistory);
    ContainsExtend("{context}", BeforeHistory + fromHistory, "{question}");
    ContainsExtend("{context}", BeforeHistory + fromHistory, "{chat_history}");
    ContainsExtend(AfterSentinel, fromContext, "{question}");
    ContainsExtend(AfterSentinel, fromContext, "{chat_history}");
    ContainsExtend(AfterSentinel, fromContext, "{context}");
    ContainsPrefix(NotAvailable, AfterSentinel + fromContext);
    ContainsExtend(NotAvailable, AfterSentinel + fromContext, "{question}");
    ContainsExtend(NotAvailable, AfterSentinel + fromContext, "{chat_history}");
    ContainsExtend(NotAvailable, AfterSentinel + fromContext, "{context}");
    ContainsExtend(Instructions, fromSentinel, "{question}");
    ContainsExtend(Instructions, fromSentinel, "{chat_history}");
    ContainsExtend(Instructions, fromSentinel, "{context}");
    ContainsExtend(Instructions, fromSentinel, NotAvailable);
  }

  /** `answer(query, chat_history)`. */
  function Answer(query: string, chatHistory: string, retrieve: string -> Retrieval,
                  generate: ChainInput -> Generation): (r: QAResult)
    ensures retrieve(query).RetrievalRaised? ==> r == QAResult(ErrorPrefix + retrieve(query).message, [])
    ensures retrieve(query) == Retrieved([]) ==> r == QAResult(NotAvailable, [])
    ensures retrieve(query).Retrieved? && retrieve(query).docs != [] ==>
      var generation := generate(ChainInput(retrieve(query).docs, query, chatHistory));
      && (generation.GenerationRaised? ==> r == QAResult(ErrorPrefix + generation.message, []))
      && (generation.Generated? ==> r == QAResult(generation.outputText, retrieve(query).docs))
  {
    match retrieve(query)
    case RetrievalRaised(message) => QAResult(ErrorPrefix + message, [])
    case Retrieved(docs) =>
      if docs == [] then QAResult(NotAvailable, [])
      else match generate(ChainInput(docs, query, chatHistory))
        case GenerationRaised(message) => QAResult(ErrorPrefix + message, [])
        case Generated(outputText) => QAResult(outputText, docs)
  }

  /** Every result is one of three kinds: the sentinel with no sources, an error message with no
      sources, or the chain's output for the query and history with the retrieved documents,
      unchanged and in order, as sources. */
  lemma AnswerKinds(query: string, chatHistory: string, retrieve: string -> Retrieval,
                    generate: ChainInput -> Generation)
    ensures var r := Answer(query, chatHistory, retrieve, generate);
      || r == QAResult(NotAvailable, [])
      || (r.sources == [] && StartsWith(r.answer, ErrorPrefix))
      || (&& retrieve(query).Retrieved? && r.sources == retrieve(query).docs && r.sources != []
          && generate(ChainInput(r.sources, query, chatHistory)) == Generated(r.answer))
  {
    var r := Answer(query, chatHistory, retrieve, generate);
    if r.sources == [] && r != QAResult(NotAvailable, []) {
      var message := if retrieve(query).RetrievalRaised? then retrieve(query).message
        else generate(ChainInput(retrieve(query).docs, query, chatHistory)).message;
      assert r.answer == ErrorPrefix + message;
      assert r.answer[..|ErrorPrefix|] == ErrorPrefix;
    }
  }

  /** Sources are reported only when the chain produced the answer from them. */
  lemma SourcesOnlyWithAnswer(query: string, chatHistory: string, retrieve: string -> Retrieval,
                              generate: ChainInput -> Generation)
    requires Answer(query, chatHistory, retrieve, generate).sources != []
    ensures retrieve(query) == Retrieved(Answer(query, chatHistory, retrieve, generate).sources)
    ensures generate(ChainInput(retrieve(query).docs, query, chatHistory))
         == Generated(Answer(query, chatHistory, retrieve, generate).answer)
  {
  }

  /** `answer(query)`: the history defaults to "". */
  function AnswerWithoutHistory(query: string, retrieve: string -> Retrieval, generate: ChainInput -> Generation)
    : (r: QAResult)
    ensures r.sources != [] ==> generate(ChainInput(r.sources, query, "")) == Generated(r.answer)
  {
    Answer(query, "", retrieve, generate)
  }
}
