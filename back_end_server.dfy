/**
 * The handlers of back_end/app.py over its module-level state: `file_map`,
 * its JSON snapshot, the files of `data/files`, and the `retrievers` and
 * `rag_chains` dicts, which this server fills itself, synchronously.
 *
 * The builders `model.vector_document` and `model.init_chain_with_history`,
 * the chain's `invoke` and the Redis flush are parameters.
 */
module BackEndServer {
  import opened Wrappers
  import opened Storage
  import opened Memo
  import opened PathNames
  import opened Streaming
  import opened ChatHistory
  import ModelChain

  /** The body of a successful upload: `{"Result": "OK", "file_id": id}`. */
  datatype UploadReply = UploadReply(result: string, fileId: string)

  const Initialized: string := "Retriever and rag_chain initialized successfully."

  /** The attribute back_end/model_chain.py lacks. */
  const ChatCompletionMissing: string := "chat_completion"

  /** The message of `async for` over a `str`. */
  const AsyncForStr: string := "'async for' requires an object with __aiter__ method, got str"

  class Server<R, C> {
    const caches: SessionCaches<R, C>
    var fileMap: FileMap
    var stored: Option<FileMap>
    var disk: set<string>

    /** Module start: empty dicts, and `load_file_map()`, `{}` without a snapshot. */
    constructor (stored: Option<FileMap>, disk: set<string>)
      ensures fresh(caches) && caches.retrievers == map[] && caches.chains == map[]
      ensures fileMap == LoadFileMap(stored)
      ensures stored.None? ==> fileMap == map[]
      ensures this.stored == stored && this.disk == disk
    {
      caches := new SessionCaches();
      fileMap := LoadFileMap(stored);
      this.stored := stored;
      this.disk := disk;
    }

    /**
     * POST /api/upload/: store the file at `data_path/<id>_<name>`, register
     * and save it, then activate it synchronously.  An activation failure
     * propagates, and the registration stays.
     */
    method Upload(fileId: string, fileName: string, vectorDocument: string -> Result<R>, initChain: R -> Result<C>)
      returns (r: Result<UploadReply>)
      modifies this, caches
      ensures disk == old(disk) + {UploadPath(DataPath, fileId, fileName)}
      ensures fileMap == old(fileMap)[fileId := UploadPath(DataPath, fileId, fileName)]
      ensures stored == Some(fileMap)
      ensures var f := Memoise(old(caches.retrievers), old(caches.chains), fileId,
                               UploadPath(DataPath, fileId, fileName), vectorDocument, initChain);
              && caches.retrievers == f.retrievers && caches.chains == f.chains
              && (f.outcome.Ok? ==> r == Ok(UploadReply("OK", fileId)))
              && (f.outcome.Err? ==> r == Err(f.outcome.error))
    {
      var filePath := UploadPath(DataPath, fileId, fileName);
      disk := disk + {filePath};
      fileMap := fileMap[fileId := filePath];
      stored := Some(fileMap);
      var activated := NModelActivation(fileId, vectorDocument, initChain);
      if activated.Err? {
        return Err(activated.error);
      }
      r := Ok(UploadReply("OK", fileId));
    }

    /**
     * nmodel_activation: a missing path reaches a bare `raise` outside any
     * handler (RuntimeError, nothing changed); otherwise the memoised fill.
     */
    method NModelActivation(fileId: string, vectorDocument: string -> Result<R>, initChain: R -> Result<C>)
      returns (r: Result<string>)
      modifies caches
      ensures ResolvePath(fileMap, disk, fileId).None? ==>
                && r == Err(RuntimeError(NoActiveException))
                && caches.retrievers == old(caches.retrievers) && caches.chains == old(caches.chains)
      ensures ResolvePath(fileMap, disk, fileId).Some? ==>
                var f := Memoise(old(caches.retrievers), old(caches.chains), fileId, fileMap[fileId], vectorDocument, initChain);
                && caches.retrievers == f.retrievers && caches.chains == f.chains
                && (f.outcome.Ok? ==> r == Ok(Initialized))
                && (f.outcome.Err? ==> r == Err(f.outcome.error))
    {
      var filePath := ResolvePath(fileMap, disk, fileId);
      if filePath.None? {
        return Err(RuntimeError(NoActiveException));
      }
      var filled := caches.Fill(fileId, filePath.value, vectorDocument, initChain);
      if filled.Err? {
        return Err(filled.error);
      }
      r := Ok(Initialized);
    }

    /**
     * POST /api/model_activation: the guard (404, or TypeError for an
     * unmapped id, nothing changed), then the memoised fill.
     */
    method ModelActivation(fileId: string, vectorDocument: string -> Result<R>, initChain: R -> Result<C>)
      returns (r: Result<string>)
      modifies caches
      ensures ActivationGuard(fileMap, disk, fileId).Err? ==>
                && r == Err(ActivationGuard(fileMap, disk, fileId).error)
                && caches.retrievers == old(caches.retrievers) && caches.chains == old(caches.chains)
      ensures ActivationGuard(fileMap, disk, fileId).Ok? ==>
                var f := Memoise(old(caches.retrievers), old(caches.chains), fileId, fileMap[fileId], vectorDocument, initChain);
                && caches.retrievers == f.retrievers && caches.chains == f.chains
                && (f.outcome.Ok? ==> r == Ok(Initialized))
                && (f.outcome.Err? ==> r == Err(f.outcome.error))
      // after a successful activation both caches hold the id
      ensures r.Ok? ==> fileId in caches.retrievers && fileId in caches.chains
    {
      var filePath := ActivationGuard(fileMap, disk, fileId);
      if filePath.Err? {
        return Err(filePath.error);
      }
      var filled := caches.Fill(fileId, filePath.value, vectorDocument, initChain);
      if filled.Err? {
        return Err(filled.error);
      }
      r := Ok(Initialized);
    }

    /**
     * GET /api/chat_completion/: the response streams `generate()`, and the
     * stream fails on both paths.  Without both cache entries it reads
     * `model.chat_completion`, which back_end/model_chain.py does not
     * define, so AttributeError is raised as soon as the stream starts.
     * Otherwise it calls `model.output_generation`, which in that module is
     * a plain function: it answers and logs the exchange (ModelChain's
     * OutputGeneration), and `async for` over the `str` it returns raises
     * TypeError; an exception of its own propagates instead.  `invoke` is
     * the cached chain's `invoke`.
     */
    method ChatCompletion(sessionId: string, question: string, history: HistoryStore,
                          invoke: (C, string, seq<ChatMessage>) -> Result<map<string, string>>)
      returns (r: Result<seq<string>>)
      modifies history
      // no token is ever streamed
      ensures r.Err?
      ensures sessionId !in caches.retrievers || sessionId !in caches.chains ==>
                r == Err(AttributeError(ChatCompletionMissing)) && history.sessions == old(history.sessions)
      ensures sessionId in caches.retrievers && sessionId in caches.chains ==>
                var output := invoke(caches.chains[sessionId], question, old(history.Messages(sessionId)));
                && (output.Ok? && "answer" in output.value ==>
                      && r == Err(TypeError(AsyncForStr))
                      && history.sessions == old(history.sessions)[sessionId :=
                           AppendExchange(old(history.Messages(sessionId)), question, output.value["answer"])])
                && (output.Err? ==> r == Err(output.error) && history.sessions == old(history.sessions))
                && (output.Ok? && "answer" !in output.value ==>
                      r == Err(KeyError("answer")) && history.sessions == old(history.sessions))
    {
      var cached := caches.Cached(sessionId);
      match ChatRoute(cached.0, cached.1)
      case Plain =>
        r := Err(AttributeError(ChatCompletionMissing));
      case Rag(chain) =>
        var answer := ModelChain.OutputGeneration(history, question, sessionId, (q, m) => invoke(chain, q, m));
        if answer.Err? {
          return Err(answer.error);
        }
        r := Err(TypeError(AsyncForStr));
    }

    /**
     * DELETE /api/flush: both caches are cleared and every file of
     * `data/files` removed; the map is never cleared.  Redis is flushed
     * last, and its exception is re-raised after all of that.
     */
    method Flush(flushed: Result<()>) returns (r: Result<string>)
      modifies this, caches
      ensures caches.retrievers == map[] && caches.chains == map[]
      ensures disk == old(disk) - Listing(old(disk), DataPath)
      ensures fileMap == old(fileMap) && stored == old(stored)
      ensures flushed.Ok? ==> r == Ok("Data flushed successfully.")
      ensures flushed.Err? ==> r == Err(flushed.error)
    {
      caches.ClearBoth();
      var fileNames := Listing(disk, DataPath);
      var remaining := fileNames;
      while remaining != {}
        invariant remaining <= fileNames
        invariant caches.retrievers == map[] && caches.chains == map[]
        invariant disk == old(disk) - (fileNames - remaining)
        invariant fileMap == old(fileMap) && stored == old(stored)
        decreases remaining
      {
        var p :| p in remaining;
        disk := disk - {p};
        remaining := remaining - {p};
      }
      if flushed.Err? {
        return Err(flushed.error);
      }
      r := Ok("Data flushed successfully.");
    }

    /**
     * DELETE /api/delete: for a mapped id, remove the file (its exception
     * re-raised, nothing changed), delete the entry and save the map; then
     * pop both caches without a default.
     */
    method Delete(fileId: string) returns (r: Result<string>)
      modifies this, caches
      ensures (fileId in old(fileMap) && old(fileMap)[fileId] != "" && old(fileMap)[fileId] !in old(disk)) ==>
                && r == Err(FileNotFoundError(old(fileMap)[fileId]))
                && fileMap == old(fileMap) && stored == old(stored) && disk == old(disk)
                && caches.retrievers == old(caches.retrievers) && caches.chains == old(caches.chains)
      ensures !(fileId in old(fileMap) && old(fileMap)[fileId] != "" && old(fileMap)[fileId] !in old(disk)) ==>
                && (ResolvePath(old(fileMap), old(disk), fileId).Some? ==>
                      && disk == old(disk) - {old(fileMap)[fileId]}
                      && fileMap == old(fileMap) - {fileId}
                      && stored == Some(fileMap))
                && (ResolvePath(old(fileMap), old(disk), fileId).None? ==>
                      fileMap == old(fileMap) && stored == old(stored) && disk == old(disk))
                && caches.retrievers == old(caches.retrievers) - {fileId}
                && caches.chains == (if fileId in old(caches.retrievers) then old(caches.chains) - {fileId} else old(caches.chains))
                && (r.Ok? <==> fileId in old(caches.retrievers) && fileId in old(caches.chains))
                && (r.Ok? ==> r.value == "File deleted successfully.")
                && (r.Err? ==> r.error == KeyError(fileId))
    {
      var filePath := FileGet(fileMap, fileId);
      if filePath.Some? && filePath.value != "" {
        if filePath.value !in disk {
          return Err(FileNotFoundError(filePath.value));
        }
        disk := disk - {filePath.value};
        fileMap := fileMap - {fileId};
        stored := Some(fileMap);
      }
      var popped := caches.PopBoth(fileId);
      if popped.Err? {
        return Err(popped.error);
      }
      r := Ok("File deleted successfully.");
    }
  }
}
