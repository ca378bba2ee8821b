/**
 * The document pipeline of back_end/model_chain.py: id extraction, the
 * reuse-or-ingest branch of `load_document`, the retriever of
 * `vector_document`, and the answer-then-log order of `output_generation`.
 *
 * Loading and splitting the PDF (PyPDFLoader, SemanticChunker) is the
 * parameter `loadAndSplit`; the chain's `invoke` is the parameter `invoke`.
 * `init_chain_with_history` only wires library objects and is not part of
 * this model.
 */
module ModelChain {
  import opened Wrappers
  import opened PathNames
  import opened RedisIndex
  import opened ChatHistory

  /** `as_retriever(search_kwargs={"k": 2})`. */
  const RetrieverK: nat := 2

  /**
   * load_document: the id is `ModelChainFileId(file_path)`; if keys
   * `doc:<id>:*` exist, the existing index is opened; otherwise the file is
   * loaded, split and ingested under `id.split("_")[0]`, which is the id.
   * `fromDocuments` is Redis's answer to each chunk.
   */
  method LoadDocument<D>(db: VectorDb<D>, filePath: string, loadAndSplit: string -> Result<seq<D>>,
                         fromDocuments: seq<D> -> Result<()>)
    returns (r: Result<Store>)
    modifies db
    // reuse: nothing is loaded and the index is left as it is
    ensures old(db.HasKeys(ModelChainFileId(filePath))) ==>
              r == Ok(Store(ModelChainFileId(filePath))) && db.indexes == old(db.indexes)
    // a load failure leaves the index untouched
    ensures !old(db.HasKeys(ModelChainFileId(filePath))) && loadAndSplit(filePath).Err? ==>
              r == Err(loadAndSplit(filePath).error) && db.indexes == old(db.indexes)
    // otherwise the documents are ingested under the id
    ensures !old(db.HasKeys(ModelChainFileId(filePath))) && loadAndSplit(filePath).Ok? ==>
              Ingestion(db.indexes, r)
                == Ingest(old(db.indexes), loadAndSplit(filePath).value, ModelChainFileId(filePath), fromDocuments)
    // a store is the id's own, with keys behind it
    ensures r.Ok? ==> r.value == Store(ModelChainFileId(filePath)) && db.HasKeys(ModelChainFileId(filePath))
    // a failure that wrote anything leaves keys under the id, so the next
    // call reuses the partial index without reading the file again
    ensures r.Err? && db.indexes != old(db.indexes) ==> db.HasKeys(ModelChainFileId(filePath))
  {
    r := ReuseOrIngest(db, ModelChainFileId(filePath), filePath, loadAndSplit, fromDocuments);
  }

  /** The branch of load_document for an id already extracted, which has no '_'. */
  method ReuseOrIngest<D>(db: VectorDb<D>, fileId: string, filePath: string, loadAndSplit: string -> Result<seq<D>>,
                          fromDocuments: seq<D> -> Result<()>)
    returns (r: Result<Store>)
    requires '_' !in fileId
    modifies db
    ensures old(db.HasKeys(fileId)) ==> r == Ok(Store(fileId)) && db.indexes == old(db.indexes)
    ensures !old(db.HasKeys(fileId)) && loadAndSplit(filePath).Err? ==>
              r == Err(loadAndSplit(filePath).error) && db.indexes == old(db.indexes)
    ensures !old(db.HasKeys(fileId)) && loadAndSplit(filePath).Ok? ==>
              Ingestion(db.indexes, r) == Ingest(old(db.indexes), loadAndSplit(filePath).value, fileId, fromDocuments)
    ensures r.Ok? ==> r.value == Store(fileId) && db.HasKeys(fileId)
    ensures r.Err? && db.indexes != old(db.indexes) ==> db.HasKeys(fileId)
  {
    if db.HasKeys(fileId) {
      return Ok(Store(fileId));
    }
    var loaded := loadAndSplit(filePath);
    if loaded.Err? {
      return Err(loaded.error);
    }
    FirstBeforeNoSep(fileId, '_');
    IngestSucceeds(db.indexes, loaded.value, fileId, fromDocuments);
    IngestPartial(db.indexes, loaded.value, fileId, fromDocuments);
    r := db.IngestDocument(loaded.value, FirstBefore(fileId, '_'), fromDocuments);
  }

  /** vector_document: the store from load_document as a retriever with k = 2. */
  method VectorDocument<D>(db: VectorDb<D>, filePath: string, loadAndSplit: string -> Result<seq<D>>,
                           fromDocuments: seq<D> -> Result<()>)
    returns (r: Result<Retriever>)
    modifies db
    ensures r.Ok? ==>
              && r.value == Retriever(Store(ModelChainFileId(filePath)), RetrieverK)
              && db.HasKeys(ModelChainFileId(filePath))
    ensures old(db.HasKeys(ModelChainFileId(filePath))) ==> r.Ok? && db.indexes == old(db.indexes)
    ensures !old(db.HasKeys(ModelChainFileId(filePath))) && loadAndSplit(filePath).Err? ==>
              r == Err(loadAndSplit(filePath).error) && db.indexes == old(db.indexes)
    // an ingestion failure propagates with the chunks already written
    ensures !old(db.HasKeys(ModelChainFileId(filePath))) && loadAndSplit(filePath).Ok? ==>
              var x := Ingest(old(db.indexes), loadAndSplit(filePath).value, ModelChainFileId(filePath), fromDocuments);
              && db.indexes == x.indexes
              && (r.Ok? <==> x.outcome.Ok?)
              && (x.outcome.Err? ==> r == Err(x.outcome.error))
    ensures r.Err? && db.indexes != old(db.indexes) ==> db.HasKeys(ModelChainFileId(filePath))
  {
    var store := LoadDocument(db, filePath, loadAndSplit, fromDocuments);
    if store.Err? {
      return Err(store.error);
    }
    r := Ok(Retriever(store.value, RetrieverK));
  }

  /**
   * output_generation: invoke the chain on the question and the session's
   * history, read `output["answer"]`, log the exchange, then return the
   * answer.  An exception leaves the history as it was.
   */
  method OutputGeneration(history: HistoryStore, question: string, sessionId: string,
                          invoke: (string, seq<ChatMessage>) -> Result<map<string, string>>)
    returns (r: Result<string>)
    modifies history
    ensures var output := invoke(question, old(history.Messages(sessionId)));
            && (r.Ok? <==> output.Ok? && "answer" in output.value)
            && (output.Err? ==> r == Err(output.error))
            && (output.Ok? && "answer" !in output.value ==> r == Err(KeyError("answer")))
            && (r.Ok? ==> r.value == output.value["answer"])
    ensures r.Ok? ==> history.sessions == old(history.sessions)[sessionId :=
                        AppendExchange(old(history.Messages(sessionId)), question, r.value)]
    ensures r.Err? ==> history.sessions == old(history.sessions)
  {
    var output := invoke(question, history.Messages(sessionId));
    if output.Err? {
      return Err(output.error);
    }
    if "answer" !in output.value {
      return Err(KeyError("answer"));
    }
    var answer := output.value["answer"];
    history.LogChatHistory(sessionId, question, answer);
    r := Ok(answer);
  }
}
