/**
 * The handlers of app/app.py over its module-level state: `file_map`, its
 * JSON snapshot, the files of `data/files`, and the `retrievers` and
 * `rag_chains` dicts.
 *
 * Activation only enqueues a Celery task; the task receives serialised
 * copies of the two dicts, so no handler of this server ever adds to them.
 * The enqueue, the LLM streams and the Redis flush are parameters.
 */
module ApiServer {
  import opened Wrappers
  import opened Storage
  import opened Memo
  import opened PathNames
  import opened Streaming
  import RagChat

  class Server<R, C> {
    const caches: SessionCaches<R, C>
    var fileMap: FileMap
    var stored: Option<FileMap>
    var disk: set<string>

    /** Module start: empty dicts, and `load_file_map()`, `{}` without a snapshot. */
    constructor (stored: Option<FileMap>, disk: set<string>)
      ensures fresh(caches) && caches.retrievers == map[] && caches.chains == map[]
      ensures fileMap == LoadFileMap(stored)
      ensures stored.None? ==> fileMap == map[]
      ensures this.stored == stored && this.disk == disk
    {
      caches := new SessionCaches();
      fileMap := LoadFileMap(stored);
      this.stored := stored;
      this.disk := disk;
    }

    /**
     * POST /api/upload/: `fileId` is the fresh `str(uuid.uuid4())`.  The file
     * is written at `data_path/<id>_<name>`, exactly that key is added to the
     * map, the map is saved, and the id is returned.
     */
    method Upload(fileId: string, fileName: string) returns (r: string)
      modifies this
      ensures r == fileId
      ensures disk == old(disk) + {UploadPath(DataPath, fileId, fileName)}
      ensures fileMap == old(fileMap)[fileId := UploadPath(DataPath, fileId, fileName)]
      ensures stored == Some(fileMap)
    {
      var filePath := UploadPath(DataPath, fileId, fileName);
      disk := disk + {filePath};
      fileMap := fileMap[fileId := filePath];
      stored := Some(fileMap);
      r := fileId;
    }

    /**
     * POST /api/model_activation: the guard (404, or TypeError for an
     * unmapped id), then `process_document.delay(...)`, whose failure
     * becomes a 500; the task id is returned.  Nothing here is changed.
     */
    function ModelActivation(fileId: string, enqueue: (string, string) -> Result<string>): (r: Result<string>)
      reads this
      ensures ResolvePath(fileMap, disk, fileId).None? ==> r == ActivationGuard(fileMap, disk, fileId)
      ensures fileId !in fileMap ==> r == Err(TypeError(ConcatNone))
      ensures ResolvePath(fileMap, disk, fileId).Some? ==>
                var task := enqueue(fileMap[fileId], fileId);
                && (task.Ok? ==> r == task)
                && (task.Err? ==> r == Err(HttpException(500, "Error in initializing model.")))
    {
      match ActivationGuard(fileMap, disk, fileId)
      case Err(e) => Err(e)
      case Ok(filePath) =>
        match enqueue(filePath, fileId)
        case Err(_) => Err(HttpException(500, "Error in initializing model."))
        case Ok(taskId) => Ok(taskId)
    }

    /** POST /api/chat_completion/: dispatch on the session's cache entries, one space per token. */
    function ChatCompletion(sessionId: string, question: string, plain: string -> RagChat.Stream<string>,
                            rag: (string, string, C) -> RagChat.Stream<string>): (r: RagChat.Stream<string>)
      reads caches
      ensures sessionId !in caches.retrievers || sessionId !in caches.chains ==>
                r.items == Spaced(plain(question).items) && r.failure == plain(question).failure
      ensures sessionId in caches.retrievers && sessionId in caches.chains ==>
                r.items == Spaced(rag(question, sessionId, caches.chains[sessionId]).items)
                && r.failure == rag(question, sessionId, caches.chains[sessionId]).failure
    {
      var cached := caches.Cached(sessionId);
      Streaming.ChatCompletion(cached.0, cached.1, question, sessionId, plain, rag)
    }

    /**
     * DELETE /api/delete: for a mapped id, remove the file (any failure is a
     * 500 with nothing changed), delete the entry and save the map; then pop
     * both caches without a default, which raises KeyError for an id that
     * was never activated.
     */
    method Delete(fileId: string) returns (r: Result<string>)
      modifies this, caches
      ensures (fileId in old(fileMap) && old(fileMap)[fileId] != "" && old(fileMap)[fileId] !in old(disk)) ==>
                && r == Err(HttpException(500, "Error in deleting file."))
                && fileMap == old(fileMap) && stored == old(stored) && disk == old(disk)
                && caches.retrievers == old(caches.retrievers) && caches.chains == old(caches.chains)
      ensures !(fileId in old(fileMap) && old(fileMap)[fileId] != "" && old(fileMap)[fileId] !in old(disk)) ==>
                && (ResolvePath(old(fileMap), old(disk), fileId).Some? ==>
                      && disk == old(disk) - {old(fileMap)[fileId]}
                      && fileMap == old(fileMap) - {fileId}
                      && stored == Some(fileMap))
                && (ResolvePath(old(fileMap), old(disk), fileId).None? ==>
                      fileMap == old(fileMap) && stored == old(stored) && disk == old(disk))
                && caches.retrievers == old(caches.retrievers) - {fileId}
                && caches.chains == (if fileId in old(caches.retrievers) then old(caches.chains) - {fileId} else old(caches.chains))
                && (r.Ok? <==> fileId in old(caches.retrievers) && fileId in old(caches.chains))
                && (r.Ok? ==> r.value == "File deleted successfully.")
                && (r.Err? ==> r.error == KeyError(fileId))
    {
      var filePath := FileGet(fileMap, fileId);
      if filePath.Some? && filePath.value != "" {
        if filePath.value !in disk {
          return Err(HttpException(500, "Error in deleting file."));
        }
        disk := disk - {filePath.value};
        fileMap := fileMap - {fileId};
        stored := Some(fileMap);
      }
      var popped := caches.PopBoth(fileId);
      if popped.Err? {
        return Err(popped.error);
      }
      r := Ok("File deleted successfully.");
    }

    /**
     * DELETE /api/flush: a failing Redis flush is a 500 before anything is
     * touched.  Otherwise both caches are cleared and every file of
     * `data/files` is removed; the map is cleared and saved inside that
     * loop, so it is cleared only when there was a file.
     */
    method Flush(flushed: Result<()>) returns (r: Result<string>)
      modifies this, caches
      ensures flushed.Err? ==>
                && r == Err(HttpException(500, "Error in flushing data."))
                && fileMap == old(fileMap) && stored == old(stored) && disk == old(disk)
                && caches.retrievers == old(caches.retrievers) && caches.chains == old(caches.chains)
      ensures flushed.Ok? ==>
                && r == Ok("Data flushed successfully.")
                && caches.retrievers == map[] && caches.chains == map[]
                && disk == old(disk) - Listing(old(disk), DataPath)
                && Listing(disk, DataPath) == {}
                && (Listing(old(disk), DataPath) == {} ==> fileMap == old(fileMap) && stored == old(stored))
                && (Listing(old(disk), DataPath) != {} ==> fileMap == map[] && stored == Some(map[]))
    {
      if flushed.Err? {
        return Err(HttpException(500, "Error in flushing data."));
      }
      caches.ClearBoth();
      var fileNames := Listing(disk, DataPath);
      var remaining := fileNames;
      while remaining != {}
        invariant remaining <= fileNames
        invariant caches.retrievers == map[] && caches.chains == map[]
        invariant disk == old(disk) - (fileNames - remaining)
        invariant remaining == fileNames ==> fileMap == old(fileMap) && stored == old(stored)
        invariant remaining != fileNames ==> fileMap == map[] && stored == Some(map[])
        decreases remaining
      {
        var p :| p in remaining;
        disk := disk - {p};
        fileMap := map[];
        stored := Some(fileMap);
        remaining := remaining - {p};
      }
      assert disk == old(disk) - fileNames;
      r := Ok("Data flushed successfully.");
    }
  }
}
