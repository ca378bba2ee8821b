/**
 * The FAISS pipeline of the two console scripts model-chain.py and
 * model.py: the store folder named after the document, the reuse-or-build
 * branch of `vectorDocuments`, the error wrapping of the chain (or agent)
 * construction, and the error-string fallback of `answeringQuestion`.
 *
 * The folders under `vector_path` are the map `saved` from folder path to
 * the documents of the index saved there.  Loading and splitting the PDF
 * (LLMSherpaFileLoader, RecursiveCharacterTextSplitter) is the parameter
 * `loadAndSplit`; building a chain or an agent around a retriever, and
 * invoking it with the Redis chat history, are parameters too.
 */
module FaissScripts {
  import opened Wrappers
  import opened PathNames

  /** `vector.as_retriever()` over the index saved in `folder`. */
  datatype FaissRetriever<D> = FaissRetriever(folder: string, documents: seq<D>)

  /** The saved folders after a call to `vectorDocuments`, and its outcome. */
  datatype Indexed<D> = Indexed(saved: map<string, seq<D>>, outcome: Result<FaissRetriever<D>>)

  /** The message of the exception raised when the retriever cannot be built. */
  const RetrieverFailure: string := "Error creating the retriever"

  /** The prefix of the string answeringQuestion returns when the build fails. */
  const AgentFailurePrefix: string := "Step 3. Unable to create agent: "

  /**
   * vectorDocuments on the folders `saved`, for the document's folder
   * `cur` (VectorStorePath of the script's folder and the document).  An
   * existing folder is loaded and the document is not read; otherwise the
   * document is loaded, split, indexed and saved in that folder.
   */
  function Indexing<D>(saved: map<string, seq<D>>, cur: string, filePath: string,
                       loadAndSplit: string -> Result<seq<D>>): (x: Indexed<D>)
    // the folder read or written is the document's folder
    ensures x.outcome.Ok? ==> cur in x.saved && x.outcome.value == FaissRetriever(cur, x.saved[cur])
    // an existing folder is reused whatever the loader would do
    ensures cur in saved ==> x == Indexed(saved, Ok(FaissRetriever(cur, saved[cur])))
    // otherwise the loader decides: its failure propagates with nothing saved
    ensures cur !in saved ==>
              && (x.outcome.Err? <==> loadAndSplit(filePath).Err?)
              && (x.outcome.Err? ==> x.outcome.error == loadAndSplit(filePath).error && x.saved == saved)
              && (x.outcome.Ok? ==> x.outcome.value.documents == loadAndSplit(filePath).value)
    // saved folders are never overwritten, and at most the one folder is added
    ensures forall p :: p in saved ==> p in x.saved && x.saved[p] == saved[p]
    ensures x.saved.Keys <= saved.Keys + {cur}
  {
    if cur in saved then Indexed(saved, Ok(FaissRetriever(cur, saved[cur])))
    else
      match loadAndSplit(filePath)
      case Err(e) => Indexed(saved, Err(e))
      case Ok(documents) => Indexed(saved[cur := documents], Ok(FaissRetriever(cur, documents)))
  }

  /**
   * Once a call has succeeded, a second call for the same document takes
   * the reuse branch: same retriever, nothing saved, whatever the loader
   * would now return.
   */
  lemma SecondCallReuses<D>(saved: map<string, seq<D>>, cur: string, filePath: string,
                            first: string -> Result<seq<D>>, second: string -> Result<seq<D>>)
    requires Indexing(saved, cur, filePath, first).outcome.Ok?
    ensures var x := Indexing(saved, cur, filePath, first);
            Indexing(x.saved, cur, filePath, second) == x
  {
  }

  /**
   * The folder is named after the last path segment only, so a document
   * with the same file name in another directory is answered from the
   * first document's index, and its own content is never read.
   */
  lemma {:induction false} SameNameSharesIndex<D>(saved: map<string, seq<D>>, vectorPath: string,
                                                  a: string, b: string, name: string,
                                                  first: string -> Result<seq<D>>,
                                                  second: string -> Result<seq<D>>)
    requires '/' !in name
    requires Indexing(saved, VectorStorePath(vectorPath, a + "/" + name), a + "/" + name, first).outcome.Ok?
    ensures var x := Indexing(saved, VectorStorePath(vectorPath, a + "/" + name), a + "/" + name, first);
            Indexing(x.saved, VectorStorePath(vectorPath, b + "/" + name), b + "/" + name, second) == x
  {
    VectorStorePathShared(vectorPath, a + "/" + name, b + "/" + name);
    LastAfterSplit(a, '/', name);
    LastAfterSplit(b, '/', name);
  }

  /** The folder `vector_path` of one script, and the indexes saved under it. */
  class VectorFolder<D> {
    /** `os.path.dirname(__file__) + "/data/vectorstore/"`. */
    const vectorPath: string
    var saved: map<string, seq<D>>

    constructor (scriptDir: string, saved: map<string, seq<D>>)
      ensures vectorPath == scriptDir + "/data/vectorstore/"
      ensures this.saved == saved
    {
      vectorPath := scriptDir + "/data/vectorstore/";
      this.saved := saved;
    }

    /** vectorDocuments: reuse the document's folder, or build and save it. */
    method VectorDocuments(filePath: string, loadAndSplit: string -> Result<seq<D>>)
      returns (r: Result<FaissRetriever<D>>)
      modifies this
      ensures Indexed(saved, r) == Indexing(old(saved), VectorStorePath(vectorPath, filePath), filePath, loadAndSplit)
    {
      r := LoadOrSave(VectorStorePath(vectorPath, filePath), filePath, loadAndSplit);
    }

    /** The body of vectorDocuments once the folder `cur` is named. */
    method LoadOrSave(cur: string, filePath: string, loadAndSplit: string -> Result<seq<D>>)
      returns (r: Result<FaissRetriever<D>>)
      modifies this
      ensures Indexed(saved, r) == Indexing(old(saved), cur, filePath, loadAndSplit)
    {
      if cur in saved {
        return Ok(FaissRetriever(cur, saved[cur]));
      }
      var loaded := loadAndSplit(filePath);
      if loaded.Err? {
        return Err(loaded.error);
      }
      saved := saved[cur := loaded.value];
      r := Ok(FaissRetriever(cur, loaded.value));
    }
  }

  /**
   * What init_chain_with_history and agent_init give for the folders
   * `saved`: the retriever failure wrapped, or the builder's own outcome.
   */
  function Built<D, C>(saved: map<string, seq<D>>, cur: string, filePath: string,
                       loadAndSplit: string -> Result<seq<D>>, create: FaissRetriever<D> -> Result<C>): (r: Result<C>)
    ensures Indexing(saved, cur, filePath, loadAndSplit).outcome.Err? ==> r == Err(Exception(RetrieverFailure))
    ensures Indexing(saved, cur, filePath, loadAndSplit).outcome.Ok? ==> r == create(Indexing(saved, cur, filePath, loadAndSplit).outcome.value)
  {
    var x := Indexing(saved, cur, filePath, loadAndSplit);
    if x.outcome.Err? then Err(Exception(RetrieverFailure)) else create(x.outcome.value)
  }

  /**
   * init_chain_with_history of model-chain.py: any failure of the retriever
   * is replaced by `Exception("Error creating the retriever")`; otherwise
   * the retrieval chain is built around the retriever, and an exception of
   * the `create_*` calls propagates as it is.
   */
  method InitChainWithHistory<D, C>(folder: VectorFolder<D>, filePath: string,
                                    loadAndSplit: string -> Result<seq<D>>,
                                    createChain: FaissRetriever<D> -> Result<C>)
    returns (r: Result<C>)
    modifies folder
    ensures var x := Indexing(old(folder.saved), VectorStorePath(folder.vectorPath, filePath), filePath, loadAndSplit);
            && folder.saved == x.saved
            && (x.outcome.Err? ==> r == Err(Exception(RetrieverFailure)))
            && (x.outcome.Ok? ==> r == createChain(x.outcome.value))
    ensures r == Built(old(folder.saved), VectorStorePath(folder.vectorPath, filePath), filePath, loadAndSplit, createChain)
  {
    var retriever := folder.VectorDocuments(filePath, loadAndSplit);
    if retriever.Err? {
      return Err(Exception(RetrieverFailure));
    }
    r := createChain(retriever.value);
  }

  /**
   * agent_init of model.py: the same wrapping of a retriever failure; the
   * retriever becomes the one tool of an agent executor with history, and
   * an exception while building the tool or the agent propagates.
   */
  method AgentInit<D, A>(folder: VectorFolder<D>, filePath: string,
                         loadAndSplit: string -> Result<seq<D>>,
                         createAgent: FaissRetriever<D> -> Result<A>)
    returns (r: Result<A>)
    modifies folder
    ensures var x := Indexing(old(folder.saved), VectorStorePath(folder.vectorPath, filePath), filePath, loadAndSplit);
            && folder.saved == x.saved
            && (x.outcome.Err? ==> r == Err(Exception(RetrieverFailure)))
            && (x.outcome.Ok? ==> r == createAgent(x.outcome.value))
    ensures r == Built(old(folder.saved), VectorStorePath(folder.vectorPath, filePath), filePath, loadAndSplit, createAgent)
  {
    var retriever := folder.VectorDocuments(filePath, loadAndSplit);
    if retriever.Err? {
      return Err(Exception(RetrieverFailure));
    }
    r := createAgent(retriever.value);
  }

  /**
   * answeringQuestion of model-chain.py: the chain is rebuilt on every
   * call; a build failure, of the retriever or of the chain, is returned as
   * a string, never raised.  An exception of `invoke` propagates, and the
   * answer is `output["answer"]`.
   */
  method AnsweringQuestion<D, C>(folder: VectorFolder<D>, question: string, sessionId: string, filePath: string,
                                 loadAndSplit: string -> Result<seq<D>>,
                                 createChain: FaissRetriever<D> -> Result<C>,
                                 invoke: (C, string, string) -> Result<map<string, string>>)
    returns (r: Result<string>)
    modifies folder
    ensures folder.saved == Indexing(old(folder.saved), VectorStorePath(folder.vectorPath, filePath), filePath, loadAndSplit).saved
    ensures var chain := Built(old(folder.saved), VectorStorePath(folder.vectorPath, filePath), filePath, loadAndSplit, createChain);
            && (chain.Err? ==> r == Ok(AgentFailurePrefix + ExcText(chain.error)))
            && (chain.Ok? ==>
                  var output := invoke(chain.value, question, sessionId);
                  && (output.Err? ==> r == Err(output.error))
                  && (output.Ok? && "answer" !in output.value ==> r == Err(KeyError("answer")))
                  && (output.Ok? && "answer" in output.value ==> r == Ok(output.value["answer"])))
  {
    var chain := InitChainWithHistory(folder, filePath, loadAndSplit, createChain);
    r := Answer(chain, question, sessionId, invoke, "answer");
  }

  /**
   * answeringQuestion of model.py: the same fallback around agent_init;
   * the answer is `output["output"]`.
   */
  method AnsweringQuestionAgent<D, A>(folder: VectorFolder<D>, question: string, sessionId: string, filePath: string,
                                      loadAndSplit: string -> Result<seq<D>>,
                                      createAgent: FaissRetriever<D> -> Result<A>,
                                      invoke: (A, string, string) -> Result<map<string, string>>)
    returns (r: Result<string>)
    modifies folder
    ensures folder.saved == Indexing(old(folder.saved), VectorStorePath(folder.vectorPath, filePath), filePath, loadAndSplit).saved
    ensures var agent := Built(old(folder.saved), VectorStorePath(folder.vectorPath, filePath), filePath, loadAndSplit, createAgent);
            && (agent.Err? ==> r == Ok(AgentFailurePrefix + ExcText(agent.error)))
            && (agent.Ok? ==>
                  var output := invoke(agent.value, question, sessionId);
                  && (output.Err? ==> r == Err(output.error))
                  && (output.Ok? && "output" !in output.value ==> r == Err(KeyError("output")))
                  && (output.Ok? && "output" in output.value ==> r == Ok(output.value["output"])))
  {
    var agent := AgentInit(folder, filePath, loadAndSplit, createAgent);
    r := Answer(agent, question, sessionId, invoke, "output");
  }

  /**
   * The part both answeringQuestion functions share once the chain or agent
   * is built: a build failure becomes the answer text, an exception of
   * `invoke` propagates, and the answer is `output[key]`.
   */
  method Answer<C>(built: Result<C>, question: string, sessionId: string,
                   invoke: (C, string, string) -> Result<map<string, string>>, key: string)
    returns (r: Result<string>)
    ensures built.Err? ==> r == Ok(AgentFailurePrefix + ExcText(built.error))
    ensures built.Ok? ==>
              var output := invoke(built.value, question, sessionId);
              && (output.Err? ==> r == Err(output.error))
              && (output.Ok? && key !in output.value ==> r == Err(KeyError(key)))
              && (output.Ok? && key in output.value ==> r == Ok(output.value[key]))
  {
    if built.Err? {
      return Ok(AgentFailurePrefix + ExcText(built.error));
    }
    var output := invoke(built.value, question, sessionId);
    if output.Err? {
      return Err(output.error);
    }
    if key !in output.value {
      return Err(KeyError(key));
    }
    r := Ok(output.value[key]);
  }
}
