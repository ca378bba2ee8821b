/**
 * The handlers of the top-level app.py: one global retriever and one global
 * chain for the whole server, an id-to-path map, and a file listing taken
 * once at start-up.
 *
 * The builders `model_chain.vectorDocuments`,
 * `model_chain.init_chain_with_history` and `model_chain.answeringQuestion`
 * are parameters.
 */
module ScriptServer {
  import opened Wrappers
  import opened Storage
  import opened PathNames

  /** The body of an upload: `{"Result": "OK", "file_id": id}`. */
  datatype UploadReply = UploadReply(result: string, fileId: string)

  const NotInitialized: string := "Retriever and rag_chain are not initialized. Call /initialize_model first."
  const NotFound: string := "File not found or invalid file_id"

  class Server<R, C> {
    /** `file_names = os.listdir(data_path)`, taken when the module loads. */
    const startupFiles: set<string>
    var fileMap: FileMap
    var stored: Option<FileMap>
    var disk: set<string>
    var retriever: Option<R>
    var ragChain: Option<C>

    constructor (stored: Option<FileMap>, disk: set<string>)
      ensures startupFiles == Listing(disk, DataPath)
      ensures fileMap == LoadFileMap(stored)
      ensures stored.None? ==> fileMap == map[]
      ensures this.stored == stored && this.disk == disk
      ensures retriever.None? && ragChain.None?
    {
      startupFiles := Listing(disk, DataPath);
      fileMap := LoadFileMap(stored);
      this.stored := stored;
      this.disk := disk;
      retriever := None;
      ragChain := None;
    }

    /** GET /get_files: the number of files found at start-up. */
    function GetFiles(): (r: nat)
      ensures r == |startupFiles|
    {
      |startupFiles|
    }

    /**
     * POST /uploadfile/: `uniqueId` is the fresh `str(uuid.uuid4())`; the
     * file is stored at `data/files/<id>_<name>` and registered.  The count
     * reported by GetFiles is a constant of the server and does not move.
     */
    method CreateUploadFile(uniqueId: string, fileName: string) returns (r: UploadReply)
      modifies this
      ensures r == UploadReply("OK", uniqueId)
      ensures disk == old(disk) + {UploadPath(DataPath, uniqueId, fileName)}
      ensures fileMap == old(fileMap)[uniqueId := UploadPath(DataPath, uniqueId, fileName)]
      ensures stored == Some(fileMap)
      ensures retriever == old(retriever) && ragChain == old(ragChain)
    {
      var filePath := UploadPath(DataPath, uniqueId, fileName);
      disk := disk + {filePath};
      fileMap := fileMap[uniqueId := filePath];
      stored := Some(fileMap);
      r := UploadReply("OK", uniqueId);
    }

    /**
     * POST /initialize_model: 404 for an unmapped id or a missing file;
     * otherwise the single global retriever is overwritten, then the single
     * global chain.  A failing chain build leaves the new retriever beside
     * the chain of whatever file was initialised before.
     */
    method InitializeModel(fileId: string, vectorDocuments: string -> Result<R>, initChain: R -> Result<C>)
      returns (r: Result<string>)
      modifies this
      ensures fileMap == old(fileMap) && stored == old(stored) && disk == old(disk)
      ensures ResolvePath(fileMap, disk, fileId).None? ==>
                r == Err(HttpException(404, NotFound)) && retriever == old(retriever) && ragChain == old(ragChain)
      ensures ResolvePath(fileMap, disk, fileId).Some? ==>
                var built := vectorDocuments(fileMap[fileId]);
                && (built.Err? ==> r == Err(built.error) && retriever == old(retriever) && ragChain == old(ragChain))
                && (built.Ok? ==> retriever == Some(built.value)
                                  && (initChain(built.value).Err? ==>
                                        r == Err(initChain(built.value).error) && ragChain == old(ragChain))
                                  && (initChain(built.value).Ok? ==>
                                        r == Ok("Retriever and rag_chain initialized successfully.")
                                        && ragChain == Some(initChain(built.value).value)))
    {
      var filePath := ResolvePath(fileMap, disk, fileId);
      if filePath.None? {
        return Err(HttpException(404, NotFound));
      }
      var built := vectorDocuments(filePath.value);
      if built.Err? {
        return Err(built.error);
      }
      retriever := Some(built.value);
      var chain := initChain(built.value);
      if chain.Err? {
        return Err(chain.error);
      }
      ragChain := Some(chain.value);
      r := Ok("Retriever and rag_chain initialized successfully.");
    }

    /**
     * POST /get_response/{file_id}: the 500 for an uninitialised server is
     * checked before the 404 for the file; the answer comes from the one
     * global chain, whichever file id is asked about.
     */
    function GetResponse(fileId: string, question: string, answer: (string, string, C) -> Result<string>): (r: Result<string>)
      reads this
      ensures retriever.None? || ragChain.None? ==> r == Err(HttpException(500, NotInitialized))
      ensures retriever.Some? && ragChain.Some? && ResolvePath(fileMap, disk, fileId).None? ==>
                r == Err(HttpException(404, NotFound))
      ensures retriever.Some? && ragChain.Some? && ResolvePath(fileMap, disk, fileId).Some? ==>
                r == answer(question, fileId, ragChain.value)
    {
      if retriever.None? || ragChain.None? then Err(HttpException(500, NotInitialized))
      else if ResolvePath(fileMap, disk, fileId).None? then Err(HttpException(404, NotFound))
      else answer(question, fileId, ragChain.value)
    }
  }
}
