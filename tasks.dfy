/**
 * The two Celery task bodies that fill the per-document caches:
 * `process_document` of app/services/tasks/process_document_task.py and
 * `ProcessingTask.process_document` of back_end/worker.py.  Queueing and
 * serialisation of the task's arguments are not part of this model: a task
 * body is a method on the caches it is given.
 */
module Tasks {
  import opened Wrappers
  import opened Memo
  import opened Preprocessing

  /**
   * process_document: build the app processor for the path, then the
   * memoised fill with `preprocessor.vector_document()` and
   * `model.init_chain_with_history`; an exception is logged and re-raised,
   * and a retriever stored before a failing chain build stays stored.
   */
  method ProcessDocument<R, C>(caches: SessionCaches<R, C>, filePath: string, fileId: string,
                               vectorDocument: Processor -> Result<R>, initChain: R -> Result<C>)
    returns (r: Result<()>)
    modifies caches
    ensures Filled(caches.retrievers, caches.chains, r)
         == Memoise(old(caches.retrievers), old(caches.chains), fileId, filePath,
                    path => vectorDocument(NewProcessor(path)), initChain)
  {
    r := caches.Fill(fileId, filePath, path => vectorDocument(NewProcessor(path)), initChain);
  }

  /** The message of reading `.delay` on a bound method. */
  const DelayMissing: string := "delay"

  /**
   * ProcessingTask.process_document: the processor is built before the
   * `try`, from back_end/modules/preprocessing.py, whose constructor always
   * raises; the caches are never reached, so nothing is modified.
   */
  method WorkerProcessDocument<R, C>(caches: SessionCaches<R, C>, filePath: string, fileId: string)
    returns (r: Result<()>)
    ensures r == Err(AttributeError("redis_url"))
  {
    var preprocessor := NewBackEndProcessor(filePath);
    // no processor is ever returned, so the try block below it is not reached
    r := Err(preprocessor.error);
  }

  /**
   * The message of calling `RagChat.init_chain_with_history`, declared
   * without `self`, through the instance `model`.
   */
  const InitChainArity: string :=
    "RagChat.init_chain_with_history() takes 1 positional argument but 2 were given"

  /**
   * The `try` block of the worker, for a processor that did exist: the
   * retriever slot is filled from `preprocessor.vector_document.delay(...)`,
   * and a bound method has no attribute `delay`; the chain slot is filled
   * from `model.init_chain_with_history(...)`, which the missing `self`
   * makes a TypeError.  So neither cache ever grows, and the task succeeds
   * only when both already hold the id.
   */
  method WorkerFill<R, C>(caches: SessionCaches<R, C>, filePath: string, fileId: string)
    returns (r: Result<()>)
    modifies caches
    ensures Filled(caches.retrievers, caches.chains, r)
         == Memoise(old(caches.retrievers), old(caches.chains), fileId, filePath,
                    _ => Err(AttributeError(DelayMissing)), (_: R) => Err(TypeError(InitChainArity)))
    ensures caches.retrievers == old(caches.retrievers) && caches.chains == old(caches.chains)
    ensures r == if fileId !in caches.retrievers then Err(AttributeError(DelayMissing))
                 else if fileId !in caches.chains then Err(TypeError(InitChainArity))
                 else Ok(())
  {
    r := caches.Fill(fileId, filePath, _ => Err(AttributeError(DelayMissing)), (_: R) => Err(TypeError(InitChainArity)));
  }
}
