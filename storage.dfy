/**
 * What the three FastAPI servers share about their files: the id-to-path
 * map, its JSON snapshot, the set of paths on disk, and the lookup guard
 * that precedes every activation.
 */
module Storage {
  import opened Wrappers

  /** file_map: file id -> stored path. */
  type FileMap = map<string, string>

  /** `load_file_map()`: the JSON snapshot when data/file_map.json exists, else `{}`. */
  function LoadFileMap(stored: Option<FileMap>): (r: FileMap)
    ensures stored.None? ==> r == map[]
    ensures stored.Some? ==> r == stored.value
  {
    match stored
    case Some(m) => m
    case None => map[]
  }

  /** `file_map.get(file_id)`: None exactly for an unknown id. */
  function FileGet(fileMap: FileMap, fileId: string): (r: Option<string>)
    ensures r.Some? <==> fileId in fileMap
    ensures r.Some? ==> r.value == fileMap[fileId]
  {
    if fileId in fileMap then Some(fileMap[fileId]) else None
  }

  /** `p` names an entry directly inside directory `dir`. */
  predicate InDir(dir: string, p: string)
  {
    |p| > |dir| + 1 && p[..|dir| + 1] == dir + "/" && '/' !in p[|dir| + 1..]
  }

  /**
   * The paths `os.path.join(dir, f)` for `f` in `os.listdir(dir)`: the
   * entries of `disk` that sit directly inside `dir`.
   */
  function Listing(disk: set<string>, dir: string): (r: set<string>)
    ensures r <= disk
    ensures forall p :: p in disk && InDir(dir, p) ==> p in r
    ensures forall p :: p in r ==> InDir(dir, p)
  {
    set p | p in disk && InDir(dir, p)
  }

  /**
   * `file_path = file_map.get(id)` followed by the test
   * `not file_path or not os.path.exists(file_path)`: the path when the id is
   * mapped to a non-empty path that is on disk.
   */
  function ResolvePath(fileMap: FileMap, disk: set<string>, fileId: string): (r: Option<string>)
    ensures r.Some? <==> fileId in fileMap && fileMap[fileId] != "" && fileMap[fileId] in disk
    ensures r.Some? ==> r.value == fileMap[fileId] && r.value in disk
  {
    if fileId in fileMap && fileMap[fileId] != "" && fileMap[fileId] in disk
    then Some(fileMap[fileId]) else None
  }

  /**
   * The guard of model_activation: HTTP 404 whose detail is the message
   * followed by the path; for an unmapped id the path is None, and the
   * concatenation itself raises TypeError before any 404 is built.
   */
  function ActivationGuard(fileMap: FileMap, disk: set<string>, fileId: string): (r: Result<string>)
    ensures r.Ok? <==> ResolvePath(fileMap, disk, fileId).Some?
    ensures r.Ok? ==> r.value == fileMap[fileId]
    ensures fileId !in fileMap ==> r == Err(TypeError(ConcatNone))
    ensures fileId in fileMap && r.Err? ==>
              r == Err(HttpException(404, "File not found or invalid file_id" + fileMap[fileId]))
  {
    if fileId !in fileMap then Err(TypeError(ConcatNone))
    else if fileMap[fileId] == "" || fileMap[fileId] !in disk
    then Err(HttpException(404, "File not found or invalid file_id" + fileMap[fileId]))
    else Ok(fileMap[fileId])
  }
}
