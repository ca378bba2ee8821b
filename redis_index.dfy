/**
 * The Redis vector index as the document loaders see it, and the batching
 * loop of `ingest_document`.
 *
 * The index server is a map from index name to the documents written under
 * that name; `Redis.from_documents(chunk, index_name=X)` appends `chunk` to
 * index X, and `redis_client.keys(f"doc:{X}:*")` is non-empty exactly when
 * index X holds a document.  Documents are values of the opaque type D.
 */
module RedisIndex {
  import opened Wrappers

  /** `range(0, len(docs), 100)` steps by this many documents. */
  const BatchSize: nat := 100

  /** A handle on the index named `indexName` (from_documents / from_existing_index). */
  datatype Store = Store(indexName: string)

  /** `store.as_retriever(search_kwargs={"k": k})`. */
  datatype Retriever = Retriever(store: Store, k: nat)

  // ---------------------------------------------------------------------------
  // The batches
  // ---------------------------------------------------------------------------

  /** `docs[i:]` if `i + 100 > len(docs)` else `docs[i:i+100]`. */
  function Chunk<D>(docs: seq<D>, i: nat): (r: seq<D>)
    requires i <= |docs|
    // the next at most 100 documents from position i, none skipped
    ensures |r| <= BatchSize && i + |r| <= |docs| && r == docs[i..i + |r|]
    // it stops only at a full batch or at the end of the documents
    ensures |r| == BatchSize || i + |r| == |docs|
  {
    if i + BatchSize > |docs| then docs[i..] else docs[i..i + BatchSize]
  }

  /** The chunks for the loop indices `i, i + 100, ...` below `len(docs)`. */
  function BatchesFrom<D>(docs: seq<D>, i: nat): seq<seq<D>>
    decreases |docs| - i
  {
    if i >= |docs| then [] else [Chunk(docs, i)] + BatchesFrom(docs, i + BatchSize)
  }

  /** Concatenation of a sequence of chunks. */
  function Flatten<D>(bs: seq<seq<D>>): seq<D>
  {
    if |bs| == 0 then [] else bs[0] + Flatten(bs[1..])
  }

  lemma FlattenAppend<D>(bs: seq<seq<D>>, b: seq<D>)
    ensures Flatten(bs + [b]) == Flatten(bs) + b
  {
    if |bs| > 0 {
      assert (bs + [b])[1..] == bs[1..] + [b];
    }
  }

  /** The chunks from index i concatenate to `docs[i..]`. */
  lemma {:induction false} BatchesFromPartition<D>(docs: seq<D>, i: nat)
    requires i <= |docs|
    ensures Flatten(BatchesFrom(docs, i)) == docs[i..]
    decreases |docs| - i
  {
    if i < |docs| {
      if i + BatchSize > |docs| {
        BatchesFromEmpty(docs, i + BatchSize);
      } else {
        BatchesFromPartition(docs, i + BatchSize);
        assert docs[i..] == docs[i..i + BatchSize] + docs[i + BatchSize..];
      }
    }
  }

  lemma BatchesFromEmpty<D>(docs: seq<D>, i: nat)
    requires i >= |docs|
    ensures BatchesFrom(docs, i) == []
  {
  }

  /**
   * Chunk k is `docs[100k .. min(100k + 100, n)]`: it is non-empty and holds
   * at most 100 documents, and there are ceil(n / 100) chunks.
   */
  lemma {:induction false} BatchesFromShape<D>(docs: seq<D>, i: nat)
    requires i % BatchSize == 0
    ensures var bs := BatchesFrom(docs, i);
            && |bs| == (if i >= |docs| then 0 else (|docs| - i + BatchSize - 1) / BatchSize)
            && forall k :: 0 <= k < |bs| ==>
                 && i + k * BatchSize < |docs|
                 && bs[k] == docs[i + k * BatchSize .. Min(i + k * BatchSize + BatchSize, |docs|)]
                 && 0 < |bs[k]| <= BatchSize
    decreases |docs| - i
  {
    if i < |docs| {
      BatchesFromShape(docs, i + BatchSize);
      var bs := BatchesFrom(docs, i);
      var rest := BatchesFrom(docs, i + BatchSize);
      assert bs == [Chunk(docs, i)] + rest;
      forall k | 0 < k < |bs|
        ensures i + k * BatchSize < |docs|
        ensures bs[k] == docs[i + k * BatchSize .. Min(i + k * BatchSize + BatchSize, |docs|)]
      {
        assert bs[k] == rest[k - 1];
        assert i + BatchSize + (k - 1) * BatchSize == i + k * BatchSize;
      }
    }
  }

  /**
   * Every chunk the ingestion loop sends, in order: they partition the
   * documents, and there are ceil(n / 100) of them.
   */
  function Batches<D>(docs: seq<D>): (bs: seq<seq<D>>)
    ensures Flatten(bs) == docs
    ensures |bs| == (|docs| + BatchSize - 1) / BatchSize
  {
    BatchesFromPartition(docs, 0);
    BatchesFromShape(docs, 0);
    BatchesFrom(docs, 0)
  }

  /** Chunk k holds the documents 100k up to 100k + 100 (or the end), at least one. */
  lemma BatchesShape<D>(docs: seq<D>)
    ensures var bs := Batches(docs);
            forall k :: 0 <= k < |bs| ==>
              && k * BatchSize < |docs|
              && bs[k] == docs[k * BatchSize .. Min(k * BatchSize + BatchSize, |docs|)]
              && 0 < |bs[k]| <= BatchSize
  {
    BatchesFromShape(docs, 0);
  }

  /** Chunk j on its own: the documents from 100j on, at most 100 of them. */
  lemma BatchAt<D>(docs: seq<D>, j: nat)
    requires j < |Batches(docs)|
    ensures j * BatchSize < |docs|
    ensures Batches(docs)[j] == docs[j * BatchSize .. Min(j * BatchSize + BatchSize, |docs|)]
  {
    BatchesShape(docs);
  }

  /** The first k chunks are the first 100k documents (all of them once k reaches the end). */
  lemma {:induction false} BatchesPrefix<D>(docs: seq<D>, k: nat)
    requires k <= |Batches(docs)|
    ensures Flatten(Batches(docs)[..k]) == docs[..Min(k * BatchSize, |docs|)]
  {
    var bs := Batches(docs);
    if k > 0 {
      BatchesPrefix(docs, k - 1);
      BatchAt(docs, k - 1);
      var m := (k - 1) * BatchSize;
      assert m + BatchSize == k * BatchSize;
      assert bs[..k] == bs[..k - 1] + [bs[k - 1]];
      FlattenAppend(bs[..k - 1], bs[k - 1]);
      assert Flatten(bs[..k]) == docs[..m] + docs[m .. Min(m + BatchSize, |docs|)];
    }
  }

  // ---------------------------------------------------------------------------
  // Sending the chunks
  // ---------------------------------------------------------------------------

  /**
   * How many chunks `Redis.from_documents` takes, in order, before the
   * first one it raises on: all of them when it raises on none.
   */
  function Accepted<D>(bs: seq<seq<D>>, fromDocuments: seq<D> -> Result<()>): (k: nat)
    ensures k <= |bs|
    ensures forall j :: 0 <= j < k ==> fromDocuments(bs[j]).Ok?
    ensures k < |bs| ==> fromDocuments(bs[k]).Err?
  {
    if bs == [] || fromDocuments(bs[0]).Err? then 0 else 1 + Accepted(bs[1..], fromDocuments)
  }

  /** The documents under index `name` of the index map (none when never written). */
  function DocsOf<D>(indexes: map<string, seq<D>>, name: string): seq<D>
  {
    if name in indexes then indexes[name] else []
  }

  /** The index map after an ingestion, and what `ingest_document` returned or raised. */
  datatype Ingestion<D> = Ingestion(indexes: map<string, seq<D>>, outcome: Result<Store>)

  /**
   * The ingestion loop from a given point on: each chunk is handed to
   * `Redis.from_documents`, which appends it to index `name` and rebinds
   * `vector`, or raises, and the exception leaves the loop with what was
   * written so far.  After the last chunk `vector.write_schema` runs on
   * `vector`, which is unbound if the loop never ran.
   */
  function Send<D>(indexes: map<string, seq<D>>, bs: seq<seq<D>>, name: string,
                   fromDocuments: seq<D> -> Result<()>, vector: Option<Store>): Ingestion<D>
    decreases |bs|
  {
    if bs == [] then
      (if vector.None? then Ingestion(indexes, Err(UnboundLocalError("vector"))) else Ingestion(indexes, Ok(vector.value)))
    else
      match fromDocuments(bs[0])
      case Err(e) => Ingestion(indexes, Err(e))
      case Ok(_) => Send(indexes[name := DocsOf(indexes, name) + bs[0]], bs[1..], name, fromDocuments, Some(Store(name)))
  }

  /** ingest_document(docs, name) on the index map `indexes`. */
  function Ingest<D>(indexes: map<string, seq<D>>, docs: seq<D>, name: string,
                     fromDocuments: seq<D> -> Result<()>): (x: Ingestion<D>)
    // no documents: the loop never runs and `vector` is unbound
    ensures docs == [] ==> x == Ingestion(indexes, Err(UnboundLocalError("vector")))
  {
    Send(indexes, Batches(docs), name, fromDocuments, None)
  }

  /** The loop taken whole: the chunks Redis accepted are appended, in order. */
  lemma {:induction false} SendWrites<D>(indexes: map<string, seq<D>>, bs: seq<seq<D>>, name: string,
                                         fromDocuments: seq<D> -> Result<()>, vector: Option<Store>)
    ensures var k := Accepted(bs, fromDocuments);
            Send(indexes, bs, name, fromDocuments, vector).indexes
              == (if k == 0 then indexes else indexes[name := DocsOf(indexes, name) + Flatten(bs[..k])])
    decreases |bs|
  {
    if bs != [] && fromDocuments(bs[0]).Ok? {
      var next := indexes[name := DocsOf(indexes, name) + bs[0]];
      var rest := Send(next, bs[1..], name, fromDocuments, Some(Store(name)));
      assert Send(indexes, bs, name, fromDocuments, vector) == rest;
      SendWrites(next, bs[1..], name, fromDocuments, Some(Store(name)));
      var j := Accepted(bs[1..], fromDocuments);
      assert Accepted(bs, fromDocuments) == j + 1;
      FlattenHead(bs, j + 1);
      if j > 0 {
        var more := Flatten(bs[1..][..j]);
        assert rest.indexes == next[name := DocsOf(next, name) + more];
        OverwriteIndex(indexes, name, DocsOf(indexes, name) + bs[0], more);
        assert DocsOf(indexes, name) + bs[0] + more == DocsOf(indexes, name) + Flatten(bs[..j + 1]);
      }
    }
  }

  /**
   * The loop's outcome: the exception of the first refused chunk, else the
   * store once a chunk was sent, else the UnboundLocalError of `vector`.
   */
  lemma {:induction false} SendOutcome<D>(indexes: map<string, seq<D>>, bs: seq<seq<D>>, name: string,
                                          fromDocuments: seq<D> -> Result<()>, vector: Option<Store>)
    ensures var k := Accepted(bs, fromDocuments);
            var x := Send(indexes, bs, name, fromDocuments, vector);
            && (k < |bs| ==> x.outcome == Err(fromDocuments(bs[k]).error))
            && (k == |bs| && k > 0 ==> x.outcome == Ok(Store(name)))
            && (|bs| == 0 ==> x.outcome == (if vector.None? then Err(UnboundLocalError("vector")) else Ok(vector.value)))
    decreases |bs|
  {
    if bs != [] && fromDocuments(bs[0]).Ok? {
      var next := indexes[name := DocsOf(indexes, name) + bs[0]];
      SendOutcome(next, bs[1..], name, fromDocuments, Some(Store(name)));
      assert Accepted(bs, fromDocuments) == 1 + Accepted(bs[1..], fromDocuments);
    }
  }

  /** Appending twice to one index is appending the two parts at once. */
  lemma OverwriteIndex<D>(indexes: map<string, seq<D>>, name: string, first: seq<D>, more: seq<D>)
    ensures var next := indexes[name := first];
            next[name := DocsOf(next, name) + more] == indexes[name := first + more]
  {
  }

  /** The first k chunks flattened: the first chunk, then the next k - 1. */
  lemma FlattenHead<D>(bs: seq<seq<D>>, k: nat)
    requires 0 < k <= |bs|
    ensures Flatten(bs[..k]) == bs[0] + Flatten(bs[1..][..k - 1])
    ensures k == 1 ==> Flatten(bs[..k]) == bs[0]
  {
    assert bs[..k][1..] == bs[1..][..k - 1];
    if k == 1 {
      assert bs[1..][..0] == [];
    }
  }

  /**
   * ingest_document succeeds exactly when there is a document and Redis
   * takes every chunk; then all documents are appended to the index.
   */
  lemma IngestSucceeds<D>(indexes: map<string, seq<D>>, docs: seq<D>, name: string,
                          fromDocuments: seq<D> -> Result<()>)
    ensures var x := Ingest(indexes, docs, name, fromDocuments);
            && (x.outcome.Ok? <==> docs != [] && forall j :: 0 <= j < |Batches(docs)| ==> fromDocuments(Batches(docs)[j]).Ok?)
            && (x.outcome.Ok? ==> x.outcome.value == Store(name) && x.indexes == indexes[name := DocsOf(indexes, name) + docs])
  {
    var bs := Batches(docs);
    SendWrites(indexes, bs, name, fromDocuments, None);
    SendOutcome(indexes, bs, name, fromDocuments, None);
    assert bs[..|bs|] == bs;
  }

  /**
   * A refused chunk k: its exception propagates, and the first k chunks,
   * the first 100k documents, stay written under the index.
   */
  lemma IngestRefused<D>(indexes: map<string, seq<D>>, docs: seq<D>, name: string,
                         fromDocuments: seq<D> -> Result<()>)
    ensures var x := Ingest(indexes, docs, name, fromDocuments);
            var k := Accepted(Batches(docs), fromDocuments);
            k < |Batches(docs)| ==>
              && x.outcome == Err(fromDocuments(Batches(docs)[k]).error)
              && x.indexes == (if k == 0 then indexes else indexes[name := DocsOf(indexes, name) + docs[..k * BatchSize]])
  {
    var bs := Batches(docs);
    var k := Accepted(bs, fromDocuments);
    SendWrites(indexes, bs, name, fromDocuments, None);
    SendOutcome(indexes, bs, name, fromDocuments, None);
    if k < |bs| {
      BatchesPrefix(docs, k);
      BatchesShape(docs);
    }
  }

  /**
   * A failed ingestion that wrote anything leaves the index non-empty, so
   * its keys exist, yet short of some of the documents.
   */
  lemma IngestPartial<D>(indexes: map<string, seq<D>>, docs: seq<D>, name: string,
                         fromDocuments: seq<D> -> Result<()>)
    ensures var x := Ingest(indexes, docs, name, fromDocuments);
            x.outcome.Err? && x.indexes != indexes ==>
              && DocsOf(x.indexes, name) != []
              && |DocsOf(x.indexes, name)| < |DocsOf(indexes, name)| + |docs|
  {
    var bs := Batches(docs);
    var k := Accepted(bs, fromDocuments);
    SendWrites(indexes, bs, name, fromDocuments, None);
    SendOutcome(indexes, bs, name, fromDocuments, None);
    IngestRefused(indexes, docs, name, fromDocuments);
    if k == |bs| {
      assert bs[..k] == bs;
    } else if k > 0 {
      BatchesShape(docs);
    }
  }

  /** Only index `name` is written: every other index keeps its documents. */
  lemma IngestFrame<D>(indexes: map<string, seq<D>>, docs: seq<D>, name: string,
                       fromDocuments: seq<D> -> Result<()>, other: string)
    requires other != name
    ensures DocsOf(Ingest(indexes, docs, name, fromDocuments).indexes, other) == DocsOf(indexes, other)
  {
    SendWrites(indexes, Batches(docs), name, fromDocuments, None);
  }

  function Min(a: int, b: int): int
  {
    if a <= b then a else b
  }

  // ---------------------------------------------------------------------------
  // The index server
  // ---------------------------------------------------------------------------

  class VectorDb<D> {
    /** Index name -> documents written under it, in write order. */
    var indexes: map<string, seq<D>>

    constructor (indexes: map<string, seq<D>>)
      ensures this.indexes == indexes
    {
      this.indexes := indexes;
    }

    /** The documents under index `name` (none when it was never written). */
    function Documents(name: string): seq<D>
      reads this
    {
      DocsOf(indexes, name)
    }

    /** `len(redis_client.keys(f"doc:{name}:*")) > 0`. */
    predicate HasKeys(name: string)
      reads this
      ensures HasKeys(name) <==> name in indexes && indexes[name] != []
    {
      Documents(name) != []
    }

    /**
     * ingest_document: one `Redis.from_documents` per chunk of 100, each
     * appending the chunk to index `indexName` and rebinding `vector`;
     * `fromDocuments` says which chunks Redis takes and which it raises on.
     */
    method IngestDocument(docs: seq<D>, indexName: string, fromDocuments: seq<D> -> Result<()>)
      returns (r: Result<Store>)
      modifies this
      ensures Ingestion(indexes, r) == Ingest(old(indexes), docs, indexName, fromDocuments)
    {
      var vector: Option<Store> := None;
      var i := 0;
      while i < |docs|
        invariant Send(indexes, BatchesFrom(docs, i), indexName, fromDocuments, vector)
               == Ingest(old(indexes), docs, indexName, fromDocuments)
        decreases |docs| - i
      {
        var chunk := if i + BatchSize > |docs| then docs[i..] else docs[i..i + BatchSize];
        assert BatchesFrom(docs, i) == [chunk] + BatchesFrom(docs, i + BatchSize);
        var sent := fromDocuments(chunk);
        if sent.Err? {
          return Err(sent.error);
        }
        indexes := indexes[indexName := Documents(indexName) + chunk];
        vector := Some(Store(indexName));
        i := i + BatchSize;
      }
      BatchesFromEmpty(docs, i);
      if vector.None? {
        return Err(UnboundLocalError("vector"));
      }
      r := Ok(vector.value);
    }
  }
}
