/**
 * The two DocumentProcessor classes: app/modules/preprocessing.py, and its
 * variant back_end/modules/preprocessing.py whose constructor and calls do
 * not run as written.
 *
 * A processor is the value its constructor computes: the path, its
 * basename, and the text of the basename before the first '_'.  Batching is
 * RedisIndex.VectorDb.IngestDocument, which both variants share with
 * back_end/model_chain.py; the two differ from that file in the index name
 * they ingest under.
 */
module Preprocessing {
  import opened Wrappers
  import opened PathNames
  import opened RedisIndex

  datatype Processor = Processor(filePath: string, fileName: string, fileId: string)

  /** `as_retriever(search_kwargs={"k": 3})` in the app variant. */
  const AppRetrieverK: nat := 3

  /**
   * `file_name = os.path.basename(file_path)` and
   * `file_id = file_name.split("_")[0]`.
   */
  function NewProcessor(filePath: string): (p: Processor)
    ensures p.filePath == filePath
    // the name is the last path segment
    ensures '/' !in p.fileName && |p.fileName| <= |filePath| && p.fileName == filePath[|filePath| - |p.fileName|..]
    ensures |p.fileName| < |filePath| ==> filePath[|filePath| - |p.fileName| - 1] == '/'
    // the id is the name up to its first '_'
    ensures '_' !in p.fileId && p.fileId <= p.fileName
    ensures |p.fileId| < |p.fileName| ==> p.fileName[|p.fileId|] == '_'
  {
    var fileName := Basename(filePath);
    Processor(filePath, fileName, FirstBefore(fileName, '_'))
  }

  /**
   * For an upload `data/files/<id>_<name>` the processor's name is
   * `<id>_<name>` and its id is the upload's id; the two always differ.
   */
  lemma UploadProcessor(fileId: string, fileName: string)
    requires SafeId(fileId) && SafeName(fileName)
    ensures var p := NewProcessor(UploadPath(DataPath, fileId, fileName));
            && p.fileName == UploadName(fileId, fileName)
            && p.fileId == fileId
            && p.fileName != p.fileId
  {
    var u := UploadName(fileId, fileName);
    assert '/' !in u;
    assert UploadPath(DataPath, fileId, fileName) == DataPath + ['/'] + u;
    LastAfterSplit(DataPath, '/', u);
    ProcessorIdRoundTrip(fileId, fileName);
    assert u[|fileId|] == '_';
  }

  /**
   * The index written (`file_name`) and the index looked up (`file_id`)
   * are the same name exactly when the basename has no '_'.
   */
  lemma ProcessorNamesCoincide(filePath: string)
    ensures var p := NewProcessor(filePath);
            p.fileName == p.fileId <==> '_' !in p.fileName
  {
    var p := NewProcessor(filePath);
    if '_' !in p.fileName {
      FirstBeforeNoSep(p.fileName, '_');
    }
  }

  // ---------------------------------------------------------------------------
  // app/modules/preprocessing.py
  // ---------------------------------------------------------------------------

  /**
   * load_document: keys `doc:<file_id>:*` select the existing index named
   * `file_id`; otherwise the file is loaded, split and ingested under
   * `file_name`, with `fromDocuments` Redis's answer to each chunk.
   * Whenever the two names differ, as they do for every upload, ingestion,
   * complete or partial, never makes the reuse test succeed.
   */
  method LoadDocument<D>(p: Processor, db: VectorDb<D>, loadAndSplit: string -> Result<seq<D>>,
                         fromDocuments: seq<D> -> Result<()>)
    returns (r: Result<Store>)
    modifies db
    ensures old(db.HasKeys(p.fileId)) ==> r == Ok(Store(p.fileId)) && db.indexes == old(db.indexes)
    ensures !old(db.HasKeys(p.fileId)) && loadAndSplit(p.filePath).Err? ==>
              r == Err(loadAndSplit(p.filePath).error) && db.indexes == old(db.indexes)
    ensures !old(db.HasKeys(p.fileId)) && loadAndSplit(p.filePath).Ok? ==>
              Ingestion(db.indexes, r) == Ingest(old(db.indexes), loadAndSplit(p.filePath).value, p.fileName, fromDocuments)
    // the store opened is the reused `file_id` index, or the new `file_name` one
    ensures r.Ok? ==> r.value == if old(db.HasKeys(p.fileId)) then Store(p.fileId) else Store(p.fileName)
    ensures p.fileName != p.fileId ==> db.HasKeys(p.fileId) == old(db.HasKeys(p.fileId))
  {
    if db.HasKeys(p.fileId) {
      return Ok(Store(p.fileId));
    }
    var loaded := loadAndSplit(p.filePath);
    if loaded.Err? {
      return Err(loaded.error);
    }
    IngestSucceeds(db.indexes, loaded.value, p.fileName, fromDocuments);
    if p.fileName != p.fileId {
      IngestFrame(db.indexes, loaded.value, p.fileName, fromDocuments, p.fileId);
    }
    r := db.IngestDocument(loaded.value, p.fileName, fromDocuments);
  }

  /** vector_document: the loaded store as a retriever with k = 3. */
  method VectorDocument<D>(p: Processor, db: VectorDb<D>, loadAndSplit: string -> Result<seq<D>>,
                           fromDocuments: seq<D> -> Result<()>)
    returns (r: Result<Retriever>)
    modifies db
    ensures old(db.HasKeys(p.fileId)) ==> r == Ok(Retriever(Store(p.fileId), AppRetrieverK)) && db.indexes == old(db.indexes)
    ensures !old(db.HasKeys(p.fileId)) && loadAndSplit(p.filePath).Err? ==>
              r == Err(loadAndSplit(p.filePath).error) && db.indexes == old(db.indexes)
    // an ingestion failure propagates with the chunks already written under `file_name`
    ensures !old(db.HasKeys(p.fileId)) && loadAndSplit(p.filePath).Ok? ==>
              var x := Ingest(old(db.indexes), loadAndSplit(p.filePath).value, p.fileName, fromDocuments);
              && db.indexes == x.indexes
              && (x.outcome.Ok? ==> r == Ok(Retriever(Store(p.fileName), AppRetrieverK)))
              && (x.outcome.Err? ==> r == Err(x.outcome.error))
    ensures p.fileName != p.fileId ==> db.HasKeys(p.fileId) == old(db.HasKeys(p.fileId))
  {
    var store := LoadDocument(p, db, loadAndSplit, fromDocuments);
    if store.Err? {
      return Err(store.error);
    }
    r := Ok(Retriever(store.value, AppRetrieverK));
  }

  // ---------------------------------------------------------------------------
  // back_end/modules/preprocessing.py
  // ---------------------------------------------------------------------------

  /**
   * The constructor reads `self.redis_url` before anything assigns it (only
   * the module-level `redis_url` exists), so construction raises
   * AttributeError and no processor is ever produced.
   */
  function NewBackEndProcessor(filePath: string): (r: Result<Processor>)
    ensures forall p :: r != Ok(p)
    ensures r == Err(AttributeError("redis_url"))
  {
    Err(AttributeError("redis_url"))
  }

  const LoadDocumentArity: string := "DocumentProcessor.load_document() takes 1 positional argument but 2 were given"
  const IngestDocumentArity: string := "DocumentProcessor.ingest_document() takes 2 positional arguments but 3 were given"

  /**
   * load_document of the variant, for a processor that did exist: the reuse
   * branch opens index `file_id`; the other branch loads and splits, then
   * calls `ingest_document` with one argument too many, so nothing is
   * written.
   */
  function LoadDocumentBackEnd<D>(p: Processor, db: VectorDb<D>, loadAndSplit: string -> Result<seq<D>>): (r: Result<Store>)
    reads db
    ensures r.Ok? <==> db.HasKeys(p.fileId)
    ensures r.Ok? ==> r.value == Store(p.fileId)
    ensures !db.HasKeys(p.fileId) && loadAndSplit(p.filePath).Err? ==> r == Err(loadAndSplit(p.filePath).error)
    ensures !db.HasKeys(p.fileId) && loadAndSplit(p.filePath).Ok? ==> r == Err(TypeError(IngestDocumentArity))
  {
    if db.HasKeys(p.fileId) then Ok(Store(p.fileId))
    else match loadAndSplit(p.filePath)
      case Err(e) => Err(e)
      case Ok(_) => Err(TypeError(IngestDocumentArity))
  }

  /** vector_document of the variant passes `file_path` to a method that takes none. */
  function VectorDocumentBackEnd(p: Processor, filePath: string): (r: Result<Retriever>)
    ensures forall v :: r != Ok(v)
    ensures r == Err(TypeError(LoadDocumentArity))
  {
    Err(TypeError(LoadDocumentArity))
  }
}
