/**
 * The per-document caches `retrievers` and `rag_chains` (or `chains`), and
 * the memoised fill that activation runs on them: the retriever is built
 * only when absent, then the chain only when absent, from the retriever
 * stored under the same id.
 *
 * The same two dicts and the same fill appear in app/modules/cache.py,
 * app/app.py, back_end/app.py, app/services/tasks/process_document_task.py
 * and back_end/worker.py.  Retrievers and chains are values of the opaque
 * types R and C; the builders are parameters that may fail.  The source tests
 * `dict.get(id) is None`; the maps here never hold None, so that test is
 * `id !in map`.
 */
module Memo {
  import opened Wrappers

  /** The two caches after a fill, and how the fill ended. */
  datatype Filled<R, C> = Filled(retrievers: map<string, R>, chains: map<string, C>, outcome: Result<()>)

  /**
   * The memoised fill:
   *   if retrievers.get(id) is None: retrievers[id] = vectorDocument(path)
   *   if chains.get(id) is None:     chains[id] = initChain(retrievers[id])
   * with an exception from either builder propagating at the point it occurs.
   */
  function Memoise<R, C>(retrievers: map<string, R>, chains: map<string, C>, fileId: string, filePath: string,
                         vectorDocument: string -> Result<R>, initChain: R -> Result<C>): (f: Filled<R, C>)
    // nothing is ever overwritten, and no other id is touched
    ensures retrievers.Keys <= f.retrievers.Keys <= retrievers.Keys + {fileId}
    ensures chains.Keys <= f.chains.Keys <= chains.Keys + {fileId}
    ensures forall k :: k in retrievers ==> f.retrievers[k] == retrievers[k]
    ensures forall k :: k in chains ==> f.chains[k] == chains[k]
    // success is exactly "both caches now hold the id"
    ensures f.outcome.Ok? <==> fileId in f.retrievers && fileId in f.chains
    // a new retriever is the builder's result for the path
    ensures fileId !in retrievers && fileId in f.retrievers ==> vectorDocument(filePath) == Ok(f.retrievers[fileId])
    // a new chain is built from the retriever stored under the same id
    ensures fileId !in chains && fileId in f.chains ==> fileId in f.retrievers && initChain(f.retrievers[fileId]) == Ok(f.chains[fileId])
    // the exceptions that propagate
    ensures fileId !in retrievers && vectorDocument(filePath).Err? ==>
              f == Filled(retrievers, chains, Err(vectorDocument(filePath).error))
    ensures f.outcome.Err? && fileId in f.retrievers ==>
              fileId !in chains && initChain(f.retrievers[fileId]).Err?
              && f.outcome == Err(initChain(f.retrievers[fileId]).error)
  {
    if fileId !in retrievers && vectorDocument(filePath).Err? then
      Filled(retrievers, chains, Err(vectorDocument(filePath).error))
    else
      var rs := if fileId in retrievers then retrievers else retrievers[fileId := vectorDocument(filePath).value];
      if fileId in chains then Filled(rs, chains, Ok(()))
      else match initChain(rs[fileId])
        case Err(e) => Filled(rs, chains, Err(e))
        case Ok(c) => Filled(rs, chains[fileId := c], Ok(()))
  }

  /** A second activation after a successful one changes nothing and succeeds. */
  lemma MemoiseIdempotent<R, C>(retrievers: map<string, R>, chains: map<string, C>, fileId: string, filePath: string,
                                vectorDocument: string -> Result<R>, initChain: R -> Result<C>,
                                filePath': string, vectorDocument': string -> Result<R>, initChain': R -> Result<C>)
    requires Memoise(retrievers, chains, fileId, filePath, vectorDocument, initChain).outcome.Ok?
    ensures var f := Memoise(retrievers, chains, fileId, filePath, vectorDocument, initChain);
            Memoise(f.retrievers, f.chains, fileId, filePath', vectorDocument', initChain')
              == Filled(f.retrievers, f.chains, Ok(()))
  {
  }

  class SessionCaches<R, C> {
    var retrievers: map<string, R>
    var chains: map<string, C>

    /** Both dicts start empty. */
    constructor ()
      ensures retrievers == map[] && chains == map[]
    {
      retrievers := map[];
      chains := map[];
    }

    /** `(retrievers.get(id), rag_chains.get(id))`. */
    function Cached(fileId: string): (r: (Option<R>, Option<C>))
      reads this
      ensures r.0.Some? <==> fileId in retrievers
      ensures r.1.Some? <==> fileId in chains
      ensures r.0.Some? ==> r.0.value == retrievers[fileId]
      ensures r.1.Some? ==> r.1.value == chains[fileId]
    {
      (if fileId in retrievers then Some(retrievers[fileId]) else None,
       if fileId in chains then Some(chains[fileId]) else None)
    }

    /** The memoised fill, as two conditional writes in place. */
    method Fill(fileId: string, filePath: string, vectorDocument: string -> Result<R>, initChain: R -> Result<C>)
      returns (r: Result<()>)
      modifies this
      ensures Filled(retrievers, chains, r)
           == Memoise(old(retrievers), old(chains), fileId, filePath, vectorDocument, initChain)
    {
      if fileId !in retrievers {
        var built := vectorDocument(filePath);
        if built.Err? {
          return Err(built.error);
        }
        retrievers := retrievers[fileId := built.value];
      }
      if fileId !in chains {
        var chain := initChain(retrievers[fileId]);
        if chain.Err? {
          return Err(chain.error);
        }
        chains := chains[fileId := chain.value];
      }
      r := Ok(());
    }

    /**
     * `retrievers.pop(id)` then `rag_chains.pop(id)`, both without a
     * default: each raises KeyError for a missing id, the second after the
     * first has already removed its entry.
     */
    method PopBoth(fileId: string) returns (r: Result<()>)
      modifies this
      ensures r.Ok? <==> fileId in old(retrievers) && fileId in old(chains)
      ensures r.Err? ==> r.error == KeyError(fileId)
      ensures retrievers == old(retrievers) - {fileId}
      ensures chains == if fileId in old(retrievers) then old(chains) - {fileId} else old(chains)
    {
      if fileId !in retrievers {
        return Err(KeyError(fileId));
      }
      retrievers := retrievers - {fileId};
      if fileId !in chains {
        return Err(KeyError(fileId));
      }
      chains := chains - {fileId};
      r := Ok(());
    }

    /** `retrievers.clear()` and `rag_chains.clear()`. */
    method ClearBoth()
      modifies this
      ensures retrievers == map[] && chains == map[]
    {
      retrievers := map[];
      chains := map[];
    }
  }
}
