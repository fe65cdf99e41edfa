/** `VectorStore` (chat/vectorstore.py): a named collection in Chroma, or the fixed index in
    Pinecone, that `create_collection` empties and refills with a site's documents. The database
    behind the client is the map `collections`, from collection (or index) name to documents;
    what the client calls do to it is given by outcome values. */
module VectorStores {
  import opened Wrappers
  import opened Text
  import opened Docs
  import Config

  /** `Config.VECTOR_STORE_PROVIDER`, already lower-cased. */
  datatype Provider = Chroma | Pinecone | OtherProvider(name: string)

  /** What deleting the Chroma collection, or clearing the Pinecone index, did: it worked, or it
      raised an exception (a ValueError or another kind) with a message. */
  datatype DeleteOutcome = Deleted | DeleteRaised(isValueError: bool, message: string)

  /** What `from_documents` did: stored the documents, or raised. */
  datatype InsertOutcome = Inserted | InsertRaised(message: string)

  /** The LangChain vector store object `create_collection` returns. */
  datatype Handle = Handle(provider: Provider, name: string)

  /** The retriever `as_retriever` returns: a search over one collection for the `k` closest
      documents. */
  datatype Retriever = Retriever(store: Handle, k: nat)

  /** `create_collection`'s three ways out: None for no documents, the store, or an exception. */
  datatype CreateResult = NoDocuments | Created(handle: Handle) | CreateRaised(message: string)

  const MissingApiKey: string := "Pinecone API Key is missing."
  const ResetFailedPrefix: string := "Could not reset vector store for new site: "
  const PineconeResetFailed: string := "Could not reset Pinecone index."
  /** The UnboundLocalError `create_collection` raises for a provider that is neither Chroma nor
      Pinecone, because no branch assigns `vectorstore`. */
  const UnboundStore: string := "cannot access local variable 'vectorstore' where it is not associated with a value"

  /** The exception `__init__` raises, if any: the Chroma client's own, or the ValueError for a
      Pinecone provider without an API key (None or ""). */
  function InitFailure(provider: Provider, pineconeApiKey: Option<string>, clientFailure: Option<string>)
    : (r: Option<string>)
    ensures provider.Pinecone? ==> (r.Some? <==> pineconeApiKey.None? || pineconeApiKey.value == [])
    ensures provider.Pinecone? && r.Some? ==> r.value == MissingApiKey
    ensures provider.Chroma? ==> r == clientFailure
    ensures provider.OtherProvider? ==> r.None?
  {
    match provider
    case Chroma => clientFailure
    case Pinecone => if pineconeApiKey.None? || pineconeApiKey.value == [] then Some(MissingApiKey) else None
    case OtherProvider(_) => None
  }

  /** The key the store works on: the collection name for Chroma, the fixed index name for
      Pinecone. */
  function TargetName(provider: Provider, collectionName: string): string {
    if provider.Pinecone? then Config.PineconeIndexName else collectionName
  }

  /** A Pinecone error that means the index does not exist yet. */
  predicate NotFound(message: string) {
    Contains(message, "NOT_FOUND") || Contains(message, "404")
  }

  /** The RuntimeError `_reset_collection` raises, if any. Chroma tolerates a ValueError (the
      collection is missing) and reports any other error with its message; Pinecone tolerates
      a missing index and reports any other error with a fixed message. */
  function ResetFailure(provider: Provider, deletion: DeleteOutcome): (r: Option<string>)
    ensures deletion.Deleted? || provider.OtherProvider? ==> r.None?
    ensures provider.Chroma? && deletion.DeleteRaised? ==>
      (r.None? <==> deletion.isValueError) && (r.Some? ==> r.value == ResetFailedPrefix + deletion.message)
    ensures provider.Pinecone? && deletion.DeleteRaised? ==>
      (r.None? <==> NotFound(deletion.message)) && (r.Some? ==> r.value == ResetFailedPrefix + PineconeResetFailed)
    ensures r.Some? ==> StartsWith(r.value, ResetFailedPrefix)
  {
    match (provider, deletion)
    case (OtherProvider(_), _) => None
    case (_, Deleted) => None
    case (Chroma, DeleteRaised(isValueError, message)) =>
      if isValueError then None else Some(ResetFailedPrefix + message)
    case (Pinecone, DeleteRaised(_, message)) =>
      if NotFound(message) then None else Some(ResetFailedPrefix + PineconeResetFailed)
  }

  /** The database after `_reset_collection`: Chroma drops the collection, Pinecone empties the
      index; an error leaves everything as it was. */
  function AfterReset(collections: map<string, seq<Document>>, provider: Provider, target: string,
                      deletion: DeleteOutcome): (r: map<string, seq<Document>>)
    ensures forall name :: name != target ==> (name in r <==> name in collections)
    ensures forall name :: name != target && name in r ==> r[name] == collections[name]
    ensures deletion.Deleted? && !provider.OtherProvider? ==> target !in r || r[target] == []
    ensures deletion.DeleteRaised? || provider.OtherProvider? ==> r == collections
  {
    if !deletion.Deleted? then collections
    else match provider
      case Chroma => collections - {target}
      case Pinecone => collections[target := []]
      case OtherProvider(_) => collections
  }

  /** `from_documents`: the documents are added to whatever the target already holds. */
  function Insert(collections: map<string, seq<Document>>, target: string, documents: seq<Document>)
    : (r: map<string, seq<Document>>)
    ensures target in r && |documents| <= |r[target]| && r[target][|r[target]| - |documents|..] == documents
    ensures target in collections ==>
      |r[target]| == |collections[target]| + |documents| && r[target][..|collections[target]|] == collections[target]
    ensures target !in collections ==> r[target] == documents
    ensures forall name :: name != target ==> (name in r <==> name in collections)
    ensures forall name :: name != target && name in r ==> r[name] == collections[name]
  {
    var existing := if target in collections then collections[target] else [];
    assert (existing + documents)[|existing|..] == documents;
    assert (existing + documents)[..|existing|] == existing;
    collections[target := existing + documents]
  }

  /** After a successful `create_collection` whose reset removed the old contents (or found
      none), the target holds exactly the new documents and every other collection is as it was. */
  lemma CreateReplaces(collections: map<string, seq<Document>>, provider: Provider, target: string,
                       deletion: DeleteOutcome, documents: seq<Document>)
    requires !provider.OtherProvider?
    requires deletion.Deleted? || target !in collections
    requires ResetFailure(provider, deletion).None?
    ensures var r := Insert(AfterReset(collections, provider, target, deletion), target, documents);
      && r[target] == documents
      && (forall name :: name != target ==> (name in r <==> name in collections))
      && (forall name :: name != target && name in r ==> r[name] == collections[name])
  {
    var reset := AfterReset(collections, provider, target, deletion);
    assert target !in reset || reset[target] == [];
    assert [] + documents == documents;
  }

  /** A tolerated failure to delete leaves the old documents in front of the new ones. */
  lemma TolerantResetKeepsOld(collections: map<string, seq<Document>>, provider: Provider, target: string,
                              deletion: DeleteOutcome, documents: seq<Document>)
    requires deletion.DeleteRaised? && ResetFailure(provider, deletion).None? && target in collections
    ensures Insert(AfterReset(collections, provider, target, deletion), target, documents)[target]
         == collections[target] + documents
  {
  }

  class VectorStore {
    const collectionName: string
    const provider: Provider
    /** The database the client talks to. */
    var collections: map<string, seq<Document>>

    constructor (collectionName: string, provider: Provider, collections: map<string, seq<Document>>)
      ensures this.collectionName == collectionName && this.provider == provider
      ensures this.collections == collections
    {
      this.collectionName := collectionName;
      this.provider := provider;
      this.collections := collections;
    }

    /** `VectorStore(collection_name)`, which raises where `InitFailure` says so. */
    static method Open(collectionName: string, provider: Provider, pineconeApiKey: Option<string>,
                       clientFailure: Option<string>, collections: map<string, seq<Document>>)
      returns (r: Result<VectorStore, string>)
      ensures r.Failure? <==> InitFailure(provider, pineconeApiKey, clientFailure).Some?
      ensures r.Failure? ==> r.error == InitFailure(provider, pineconeApiKey, clientFailure).value
      ensures r.Success? ==>
        && fresh(r.value) && r.value.collectionName == collectionName
        && r.value.provider == provider && r.value.collections == collections
    {
      var failure := InitFailure(provider, pineconeApiKey, clientFailure);
      if failure.Some? {
        return Failure(failure.value);
      }
      var store := new VectorStore(collectionName, provider, collections);
      return Success(store);
    }

    function Target(): string
      reads this
    {
      TargetName(provider, collectionName)
    }

    /** `_reset_collection()`: returns the RuntimeError message where it raises. */
    method ResetCollection(deletion: DeleteOutcome) returns (failure: Option<string>)
      modifies this
      ensures failure == ResetFailure(provider, deletion)
      ensures collections == AfterReset(old(collections), provider, Target(), deletion)
    {
      failure := ResetFailure(provider, deletion);
      if failure.None? {
        match provider
        case Chroma =>
          if deletion.Deleted? {
            collections := collections - {collectionName};
          }
        case Pinecone =>
          if deletion.Deleted? {
            collections := collections[Config.PineconeIndexName := []];
          }
        case OtherProvider(_) =>
      }
    }

    /** `create_collection(documents, embedding_function)`: nothing for no documents; otherwise
        the reset, and only when it succeeds the insertion. */
    method CreateCollection(documents: seq<Document>, deletion: DeleteOutcome, insertion: InsertOutcome)
      returns (r: CreateResult)
      modifies this
      ensures documents == [] ==> r == NoDocuments && collections == old(collections)
      ensures documents != [] && ResetFailure(provider, deletion).Some? ==>
        r == CreateRaised(ResetFailure(provider, deletion).value) && collections == old(collections)
      ensures documents != [] && ResetFailure(provider, deletion).None? ==>
        var reset := AfterReset(old(collections), provider, Target(), deletion);
        if provider.OtherProvider? then r == CreateRaised(UnboundStore) && collections == reset
        else if insertion.InsertRaised? then r == CreateRaised(insertion.message) && collections == reset
        else r == Created(Handle(provider, Target())) && collections == Insert(reset, Target(), documents)
    {
      if documents == [] {
        return NoDocuments;
      }
      var failure := ResetCollection(deletion);
      if failure.Some? {
        return CreateRaised(failure.value);
      }
      if provider.OtherProvider? {
        return CreateRaised(UnboundStore);
      }
      if insertion.InsertRaised? {
        return CreateRaised(insertion.message);
      }
      collections := Insert(collections, Target(), documents);
      return Created(Handle(provider, Target()));
    }

    /** `as_retriever(vectorstore)`: top-k search with k = `Config.RETRIEVAL_TOP_K`. */
    function AsRetriever(store: Handle): (r: Retriever)
      ensures r.k == Config.RetrievalTopK && r.store == store
    {
      Retriever(store, Config.RetrievalTopK)
    }
  }
}
