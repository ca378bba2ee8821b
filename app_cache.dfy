/**
 * The `Cache` class of app/modules/cache.py: the id-to-path map with its
 * JSON snapshot, and the retriever and chain caches, updated in place.
 *
 * The files under `data/files` are the set `disk`; `stored` is the content
 * of `data/file_map.json` (None when the file does not exist).  Two calls
 * pass the map to `save_file_map`, which takes no argument besides `self`;
 * each raises TypeError after the in-memory change and before anything is
 * written.
 */
module AppCache {
  import opened Wrappers
  import opened Storage
  import opened Memo
  import opened PathNames

  /** The TypeError of `self.save_file_map(self.file_map)`. */
  const SaveFileMapArity: string := "Cache.save_file_map() takes 1 positional argument but 2 were given"

  class Cache<R, C> {
    const dataPath: string
    const fileMapPath: string
    /** `self.retrievers` and `self.rag_chains`. */
    const caches: SessionCaches<R, C>
    var fileMap: FileMap
    var stored: Option<FileMap>
    var disk: set<string>

    /** Empty caches, and the file map loaded from its snapshot, `{}` without one. */
    constructor (stored: Option<FileMap>, disk: set<string>)
      ensures dataPath == DataPath && fileMapPath == "data/file_map.json"
      ensures fresh(caches) && caches.retrievers == map[] && caches.chains == map[]
      ensures fileMap == LoadFileMap(stored)
      ensures stored.None? ==> fileMap == map[]
      ensures this.stored == stored && this.disk == disk
    {
      dataPath := DataPath;
      fileMapPath := "data/file_map.json";
      caches := new SessionCaches();
      fileMap := LoadFileMap(stored);
      this.stored := stored;
      this.disk := disk;
    }

    /** The pair of cache lookups, each None when absent. */
    function GetCachedFile(fileId: string): (r: (Option<R>, Option<C>))
      reads caches
      ensures r.0.Some? <==> fileId in caches.retrievers
      ensures r.1.Some? <==> fileId in caches.chains
      ensures r.0.Some? ==> r.0.value == caches.retrievers[fileId]
      ensures r.1.Some? ==> r.1.value == caches.chains[fileId]
    {
      caches.Cached(fileId)
    }

    /**
     * save_file: the entry is set in memory, every other entry is kept, and
     * the save then raises TypeError, so the snapshot is not written.
     */
    method SaveFile(fileId: string, filePath: string) returns (r: Result<()>)
      modifies this
      ensures fileMap == old(fileMap)[fileId := filePath]
      ensures forall k :: k in old(fileMap) && k != fileId ==> fileMap[k] == old(fileMap)[k]
      ensures r == Err(TypeError(SaveFileMapArity))
      ensures stored == old(stored) && disk == old(disk)
    {
      fileMap := fileMap[fileId := filePath];
      r := Err(TypeError(SaveFileMapArity));
    }

    /**
     * delete_file.  An unmapped id, or one mapped to "", gives False and
     * changes nothing.  Otherwise the file is removed (FileNotFoundError,
     * with nothing changed, when it is not on disk), the entry deleted and
     * the map saved; then both caches are popped without a default, so an
     * id that was never activated raises KeyError after the entry is gone.
     */
    method DeleteFile(fileId: string) returns (r: Result<bool>)
      modifies this, caches
      ensures fileId !in old(fileMap) || old(fileMap)[fileId] == "" ==>
                && r == Ok(false)
                && fileMap == old(fileMap) && stored == old(stored) && disk == old(disk)
                && caches.retrievers == old(caches.retrievers) && caches.chains == old(caches.chains)
      ensures fileId in old(fileMap) && old(fileMap)[fileId] != "" && old(fileMap)[fileId] !in old(disk) ==>
                && r == Err(FileNotFoundError(old(fileMap)[fileId]))
                && fileMap == old(fileMap) && stored == old(stored) && disk == old(disk)
                && caches.retrievers == old(caches.retrievers) && caches.chains == old(caches.chains)
      ensures ResolvePath(old(fileMap), old(disk), fileId).Some? ==>
                && disk == old(disk) - {old(fileMap)[fileId]}
                && fileMap == old(fileMap) - {fileId}
                && stored == Some(fileMap)
                && caches.retrievers == old(caches.retrievers) - {fileId}
                && caches.chains == (if fileId in old(caches.retrievers) then old(caches.chains) - {fileId} else old(caches.chains))
                && (r.Ok? <==> fileId in old(caches.retrievers) && fileId in old(caches.chains))
                && (r.Ok? ==> r.value)
                && (r.Err? ==> r.error == KeyError(fileId))
    {
      var filePath := FileGet(fileMap, fileId);
      if filePath.None? || filePath.value == "" {
        return Ok(false);
      }
      if filePath.value !in disk {
        return Err(FileNotFoundError(filePath.value));
      }
      disk := disk - {filePath.value};
      fileMap := fileMap - {fileId};
      stored := Some(fileMap);
      var popped := caches.PopBoth(fileId);
      if popped.Err? {
        return Err(popped.error);
      }
      r := Ok(true);
    }

    /**
     * clear_cache: both caches are emptied first.  The loop over the files
     * of `data/files` removes one file, clears the map, and then raises in
     * its first iteration (the save_file_map call), so at most one file is
     * removed and the map is cleared only when there was a file.
     */
    method ClearCache() returns (r: Result<bool>)
      modifies this, caches
      ensures caches.retrievers == map[] && caches.chains == map[]
      ensures stored == old(stored)
      ensures Listing(old(disk), dataPath) == {} ==> r == Ok(true) && fileMap == old(fileMap) && disk == old(disk)
      ensures Listing(old(disk), dataPath) != {} ==>
                && r == Err(TypeError(SaveFileMapArity))
                && fileMap == map[]
                && exists p :: p in Listing(old(disk), dataPath) && disk == old(disk) - {p}
    {
      caches.ClearBoth();
      var fileNames := Listing(disk, dataPath);
      if fileNames == {} {
        return Ok(true);
      }
      var p :| p in fileNames;
      disk := disk - {p};
      fileMap := map[];
      r := Err(TypeError(SaveFileMapArity));
    }
  }
}
