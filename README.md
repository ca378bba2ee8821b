# ChatDocument bookkeeping, modelled in Dafny

ChatDocument lets a user upload a PDF and chat with it. Three FastAPI servers keep the same bookkeeping around the LangChain, Redis and Celery calls:

- `app/app.py`, with its `Cache` class in `app/modules/cache.py` and its Celery task;
- `back_end/app.py`, with its worker;
- the top-level `app.py`.

Two console scripts (`model-chain.py`, `model.py`) index documents with FAISS, and a React front end holds a little client state.

This project models that bookkeeping and proves what it promises:

- the id-to-path map `file_map` with its JSON snapshot, the files on disk, and the per-document caches `retrievers` and `rag_chains`;
- how upload names a file `<id>_<name>`, and how three different extractors recover the id;
- the batching of documents into Redis in slices of 100, and the reuse-or-build rule of the Redis and FAISS stores;
- the memoised activation, which fills a cache slot only when it is empty;
- the streamed answer assembly, including the log written in a `finally` block;
- the front end's reducers, its upload toggle, and the chat list with its Enter-key guard.

Where the code as written raises, the model returns an `Err` carrying the same Python exception. Examples:

- `save_file_map` called with an argument it does not take;
- `pop` without a default;
- `"..." + None`;
- a bare `raise`;
- an attribute that is never assigned;
- an unbound `vector`;
- `.delay` on a bound method;
- a method declared without `self` but called through an instance;
- an attribute missing from an imported module;
- `async for` over a plain string.

Foreign calls are function-typed parameters that may fail. These include loading and splitting a PDF, building a retriever or chain, LLM streams, Redis's answer to each batch of documents, the Celery enqueue, and the Redis flush. Retrievers, chains and documents are opaque type parameters. The disk is a set of paths, and `data/file_map.json` is an `Option` snapshot of the map.

Layout, one module per file:

- `wrappers.dfy`: Option, the Python exceptions, Result.
- `path_names.dfy`: Python string operations, upload naming, the id extractors, FAISS store names.
- `storage.dfy`: the file map, the directory listing, the activation guard.
- `memo.dfy`: the two caches and the memoised fill.
- `redis_index.dfy`: the Redis index, and the batching of `ingest_document`.
- `chat_history.dfy`: the per-session chat log.
- `streaming.dfy`: chat-completion dispatch and token spacing.
- `rag_chat.dfy`: the two streaming generators of `back_end/modules/rag_chat.py`.
- `console.dfy`: the `user_interface` loops.
- `model_chain.dfy`: `back_end/model_chain.py`.
- `preprocessing.dfy`: the two `DocumentProcessor` classes.
- `tasks.dfy`: the Celery task bodies.
- `app_cache.dfy`: the `Cache` class.
- `api_server.dfy`, `back_end_server.dfy`, `script_server.dfy`: the three servers' handlers.
- `faiss_scripts.dfy`: `model-chain.py` and `model.py`.
- `js.dfy`: JavaScript objects, spread, `useReducer` order, `trim`.
- `error_context.dfy`, `chat_context.dfy`, `file_context.dfy`, `chat_view.dfy`: the front-end state.

## Model

| member | source | states |
|---|---|---|
| PathNames.LastAfter | back_end/model_chain.py:76 | `split("/")[-1]` is a suffix of the text that holds no separator; when it is shorter than the text, a separator precedes it |
| PathNames.FirstBefore | back_end/model_chain.py:79 | `split("_")[0]` is a prefix of the text that holds no separator; when it is shorter, a separator follows it |
| PathNames.RemovePrefix | back_end/model_chain.py:77 | `removeprefix` strips the prefix exactly when the text starts with it, and otherwise returns the text unchanged |
| PathNames.Basename | app/modules/preprocessing.py:18 | the basename holds no '/', and a path without '/' is its own basename |
| PathNames.Join | app/app.py:113 | `os.path.join` of two parts: an absolute second part replaces the first; a relative one follows the first directly when that is empty or ends in '/', and after exactly one '/' otherwise |
| PathNames.UploadName | app/app.py:113 | the stored name is the id, one '_', then the client's file name unchanged. For an id without '_', the text before the first '_' is the id |
| PathNames.UploadPath | app/app.py:113 | an upload is stored directly inside a directory written without a trailing '/' (`data/files/<id>_<name>`); for an id and a file name without '/', the basename of the stored path is the stored name |
| PathNames.BasenameJoin | app/app.py:113 | the basename of `os.path.join(dir, name)` is `name` when `name` holds no '/' |
| PathNames.LastAfterNoSep | back_end/model_chain.py:78 | splitting a text with no separator and taking the last piece gives the text back |
| PathNames.LastAfterSplit | back_end/model_chain.py:76-78 | the last piece after the final separator is exactly the text that follows it |
| PathNames.FirstBeforeSplit | back_end/model_chain.py:79 | the first piece before the first separator is exactly the text in front of it |
| PathNames.FirstBeforeNoSep | back_end/model_chain.py:140 | `split("_")[0]` of a text with no '_' is the text itself |
| PathNames.FirstBeforeIdempotent | back_end/model_chain.py:140 | taking `split("_")[0]` twice gives the same as taking it once, so ingestion under `file_name.split("_")[0]` keeps the id |
| PathNames.ModelChainFileId | back_end/model_chain.py:76-79 | the id extracted by load_document holds no '_', '/' or '\' |
| PathNames.ProcessorFileId | back_end/modules/preprocessing.py:21-22 | the processor id holds no '_' or '/' |
| PathNames.Uuid4TextIsSafeId | app/app.py:111 | the RFC 4122 text of a version-4 uuid holds no '_', '/' or '\' and does not start with "files" |
| PathNames.UploadNameNotFiles | back_end/model_chain.py:77 | an upload name `<id>_<name>` never starts with "files", so `removeprefix("files")` leaves it alone |
| PathNames.ModelChainIdRoundTrip | back_end/model_chain.py:76-79 | the id extracted from `data/files/<id>_<name>` is the upload's id |
| PathNames.ModelChainIdRoundTripWindows | back_end/model_chain.py:76-79 | the id extracted from `data/files\<id>_<name>` is the upload's id as well |
| PathNames.ModelChainWindowsName | back_end/model_chain.py:76-79 | for any name without '/' or '\', the id extracted from `data/files\<name>` is the name up to its first '_' |
| PathNames.ProcessorIdRoundTrip | app/modules/preprocessing.py:18-19 | the DocumentProcessor id of `data/files/<id>_<name>` is the upload's id |
| PathNames.VectorStoreName | model-chain.py:67 | the store name is the last '/'-segment followed by "_vectorstore" |
| PathNames.VectorStorePathShared | model-chain.py:67-68 | two documents share a FAISS folder exactly when their last path segments are equal |
| Storage.LoadFileMap | app/app.py:59-63 | the map is the JSON snapshot when `data/file_map.json` exists, and `{}` otherwise |
| Storage.FileGet | app/modules/cache.py:48-49 | `file_map.get(id)` gives the mapped path, and None exactly for an unknown id. The GET /api/files endpoints of app/app.py and back_end/app.py return this value, and the delete handlers read the path through it |
| Storage.Listing | app/app.py:245-247 | the listing is the set of paths on disk that sit directly inside the directory |
| Storage.ResolvePath | back_end/app.py:113-116 | a path is found exactly when the id is mapped to a non-empty path that is on disk |
| Storage.ActivationGuard | app/app.py:139-143 | activation proceeds exactly when the path resolves. A mapped path that is empty or missing gives 404 with the path appended. An unmapped id raises TypeError from `"..." + None` |
| Memo.Memoise | back_end/app.py:148-156 | the fill never overwrites an entry and touches no other id. It succeeds exactly when both caches hold the id. A new retriever comes from the builder, and a new chain from the retriever stored under the same id. Each builder's exception propagates, and a retriever stored before a failing chain build stays |
| Memo.MemoiseIdempotent | back_end/app.py:149-153 | after a successful fill, a second fill for the same id changes nothing and succeeds, whatever the builders |
| Memo.SessionCaches.constructor | app/modules/cache.py:19-20 | both caches start empty |
| Memo.SessionCaches.Cached | app/modules/cache.py:51-52 | the pair of `.get` lookups, each None exactly when the id is absent |
| Memo.SessionCaches.Fill | app/services/tasks/process_document_task.py:14-18 | the two conditional in-place writes leave exactly the caches and outcome of Memoise |
| Memo.SessionCaches.PopBoth | app/app.py:224-225 | popping without a default succeeds exactly when both caches hold the id. Otherwise it raises KeyError, and the first pop has already taken effect |
| Memo.SessionCaches.ClearBoth | app/modules/cache.py:76-77 | both caches are empty afterwards |
| RedisIndex.Chunk | back_end/model_chain.py:131-134 | a chunk is the next documents from offset i, contiguous and at most 100 of them. It is shorter than 100 only at the end of the documents |
| RedisIndex.BatchesFromPartition | back_end/model_chain.py:130-134 | the slices from offset i concatenate to `docs[i:]` |
| RedisIndex.Batches | back_end/model_chain.py:130-134 | the chunks the loop sends concatenate to the documents, and there are ceil(n/100) of them |
| RedisIndex.BatchesFromShape | app/modules/preprocessing.py:45-49 | slice k from offset i is `docs[i+100k : min(i+100k+100, n)]` and holds between 1 and 100 documents. The number of slices is ceil((n-i)/100) |
| RedisIndex.BatchesShape | back_end/modules/preprocessing.py:48-52 | there are ceil(n/100) slices. Slice k is `docs[100k : min(100k+100, n)]` and holds between 1 and 100 documents |
| RedisIndex.BatchesPrefix | app/modules/preprocessing.py:45-49 | the first k chunks together are the first min(100k, n) documents |
| RedisIndex.Accepted | back_end/model_chain.py:130-141 | the number of chunks Redis takes before the first one it raises on. Every chunk before it was taken, and the chunk at that position, if any, was refused |
| RedisIndex.Ingest | back_end/model_chain.py:124-146 | with no documents the loop never binds `vector`, so `write_schema` raises UnboundLocalError and nothing is written |
| RedisIndex.SendWrites | back_end/model_chain.py:130-141 | the chunks Redis took are appended to the index, in order, and nothing else is written. Chunks after a refused one are never sent |
| RedisIndex.SendOutcome | back_end/model_chain.py:136-146 | the outcome is the exception of the first refused chunk. With none refused it is the index's store, or UnboundLocalError when no chunk was sent |
| RedisIndex.IngestSucceeds | back_end/model_chain.py:124-143 | ingestion succeeds exactly when there is a document and Redis takes every chunk. Then the index gains all the documents, in order, and the store is that index |
| RedisIndex.IngestRefused | app/modules/preprocessing.py:44-61 | when Redis refuses chunk k, its exception propagates, and the first 100k documents stay written under the index |
| RedisIndex.IngestPartial | back_end/model_chain.py:129-146 | a failed ingestion that wrote anything leaves the index non-empty, so its keys exist. The index still lacks some of the documents |
| RedisIndex.IngestFrame | back_end/model_chain.py:136-141 | only the named index is written; every other index keeps its documents |
| RedisIndex.VectorDb.HasKeys | back_end/model_chain.py:84 | keys `doc:<name>:*` exist exactly when the index is present and holds a document |
| RedisIndex.VectorDb.IngestDocument | back_end/model_chain.py:124-146 | the in-place loop over chunks of 100 leaves exactly the index map and outcome of Ingest, so every property above holds of it: the chunks Redis took stay written, and a refusal raises partway |
| ChatHistory.AppendExchange | back_end/model_chain.py:197-199 | the history keeps its old messages, then gains the human message, then the AI message |
| ChatHistory.HistoryStore.Messages | back_end/model_chain.py:180 | a session's stored messages, empty for a session never written |
| ChatHistory.HistoryStore.LogChatHistory | back_end/model_chain.py:191-202 | only this session's log changes, and it gains the human message and then the AI message |
| Streaming.ChatRoute | app/app.py:176-180 | the RAG path is taken exactly when both the retriever and the chain are cached |
| Streaming.Spaced | app/app.py:184 | every emitted piece is the token followed by exactly one space, one piece per token |
| Streaming.SpacedRoundTrip | back_end/app.py:172-179 | the tokens are recovered from the emitted pieces, so spacing loses nothing |
| Streaming.ChatCompletion | app/app.py:171-190 | the response is the plain LLM stream, spaced, when either cache lacks the session. Otherwise it is the cached chain's stream, spaced. An exception the generator raises mid-stream ends the response after the pieces already emitted |
| RagChat.Answers | back_end/modules/rag_chat.py:58-61 | the answer values number at most the chunks |
| RagChat.AnswersExtremes | back_end/modules/rag_chat.py:58-61 | every chunk's value is kept when every chunk has "answer", and none is kept when no chunk has it |
| RagChat.AnswersAppend | back_end/modules/rag_chat.py:52-61 | filtering a stream piece by piece equals filtering it whole |
| RagChat.Concat | back_end/modules/rag_chat.py:66 | `"".join` of one part is that part |
| RagChat.ConcatAppend | back_end/modules/rag_chat.py:66 | joining concatenated lists is concatenating the joins |
| RagChat.Contents | back_end/modules/rag_chat.py:75 | one content per chunk, in order |
| RagChat.ContentsAppend | back_end/modules/rag_chat.py:74-75 | the contents of concatenated streams concatenate |
| RagChat.OutputGeneration | back_end/modules/rag_chat.py:46-66 | exactly the "answer" values are yielded, in stream order. The log entry is the question with the concatenation of what was yielded, written whether the stream ends or raises. The stream's exception is re-raised |
| RagChat.ChatCompletion | back_end/modules/rag_chat.py:68-81 | every chunk is yielded unchanged, the logged text is the concatenation of all contents, and the stream's exception is re-raised |
| Console.FirstExit | model.py:141-144 | the position of the first "exit" among the questions; no earlier question is "exit" |
| Console.QuestionLoop | back_end/model_chain.py:216-220 | exactly the questions before the first "exit" are answered, in order, each printed after "DocumentAssist: ". The loop ends normally exactly at that "exit". An answer's exception ends it, and so does EOFError when input runs out |
| Console.UserInterface | model-chain.py:154-162 | the first line is the session id, and the questions after it run through the loop above. Empty input raises EOFError |
| Console.UserInterfaceWithChain | back_end/model_chain.py:205-220 | a failing chain setup prints "Step 4. Unable to create chain: " with the error and returns normally. Otherwise every question is answered by the one chain |
| ModelChain.LoadDocument | back_end/model_chain.py:70-107 | existing keys `doc:<id>:*` reuse the index and change nothing, and a load error changes nothing. Otherwise the documents are ingested under the id. A store returned is the id's own, with keys behind it. A failure that wrote some chunks leaves keys, so the next call reuses the partial index without reading the file again |
| ModelChain.VectorDocument | back_end/model_chain.py:109-122 | on success the retriever is the id's store with k = 2, and the id's keys exist. A load error changes nothing. An ingestion failure propagates with the chunks already written, and then the id's keys exist |
| ModelChain.OutputGeneration | back_end/model_chain.py:171-189 | the answer is `output["answer"]`. The exchange is logged before the answer is returned. A failed invoke or a missing key raises, and nothing is logged |
| Preprocessing.NewProcessor | app/modules/preprocessing.py:16-19 | `file_name` is the last path segment, and `file_id` is its text before the first '_' |
| Preprocessing.UploadProcessor | app/modules/preprocessing.py:18-19 | for an upload path, `file_name` is `<id>_<name>` and `file_id` is the id; the two always differ |
| Preprocessing.ProcessorNamesCoincide | app/modules/preprocessing.py:55-75 | the ingested index (`file_name`) and the looked-up index (`file_id`) coincide exactly when the basename has no '_' |
| Preprocessing.LoadDocument | app/modules/preprocessing.py:63-94 | keys for `file_id` reuse that index. Otherwise the documents are ingested under `file_name`, and a store returned is that new index. For differing names, ingestion, complete or partial, never makes the reuse test succeed |
| Preprocessing.VectorDocument | app/modules/preprocessing.py:21-33 | the retriever has k = 3 over the reused `file_id` store or the new `file_name` store. A load error changes nothing. An ingestion failure propagates with the chunks already written |
| Preprocessing.LoadDocumentBackEnd | back_end/modules/preprocessing.py:66-96 | it succeeds exactly in the reuse branch. The other branch raises the loader's error or the TypeError of `ingest_document`'s arity |
| Tasks.ProcessDocument | app/services/tasks/process_document_task.py:10-21 | the task leaves exactly the caches and outcome of Memoise, with the processor's `vector_document` as the retriever builder |
| Tasks.WorkerProcessDocument | back_end/worker.py:23-24 | the worker task always raises the processor constructor's AttributeError, before the caches are touched |
| Tasks.WorkerFill | back_end/worker.py:25-33 | the worker's fill never changes either cache: `.delay` on a bound method raises AttributeError for an absent retriever, and `model.init_chain_with_history`, declared without `self`, raises TypeError for an absent chain. It succeeds only when both caches already hold the id |
| AppCache.Cache.constructor | app/modules/cache.py:6-29 | both caches start empty. The map is the snapshot, or `{}` when there is none |
| AppCache.Cache.GetCachedFile | app/modules/cache.py:51-52 | the two cache lookups, each None exactly when absent |
| AppCache.Cache.SaveFile | app/modules/cache.py:54-56 | the entry is set and every other entry is kept. The save then raises TypeError, so nothing is written |
| AppCache.Cache.DeleteFile | app/modules/cache.py:58-72 | an unknown or empty path gives False and changes nothing, and a missing file raises with nothing changed. Otherwise the file and entry go and the map is saved. Both pops follow, and an id that was never activated raises KeyError with the entry already gone |
| AppCache.Cache.ClearCache | app/modules/cache.py:74-87 | the caches are always emptied. With no files, it returns True and keeps the map. Otherwise one file is removed and the map cleared, then it raises TypeError |
| ApiServer.Server.constructor | app/app.py:59-70 | the map is the snapshot, or `{}` when there is none |
| ApiServer.Server.Upload | app/app.py:101-124 | the file is stored at `data/files/<id>_<name>`, exactly that key is added and saved, and the id is returned |
| ApiServer.Server.ModelActivation | app/app.py:126-156 | the guard's 404 or TypeError come first. Then the enqueued task id is returned, and a failed enqueue gives 500. No state changes |
| ApiServer.Server.ChatCompletion | app/app.py:171-190 | the plain path when either cache lacks the session, the RAG path otherwise, one space per token, and the generator's exception ends the response |
| ApiServer.Server.Delete | app/app.py:209-228 | a missing file gives 500 with nothing changed. A resolved id loses its file and entry, and the map is saved. The pops without a default raise KeyError for an id that was never activated |
| ApiServer.Server.Flush | app/app.py:230-251 | a failing flush gives 500 before anything changes. Otherwise the caches are emptied and every data file removed. The map is cleared and saved only when there was a file |
| BackEndServer.Server.constructor | back_end/app.py:41-52 | the caches start empty. The map is the snapshot, or `{}` |
| BackEndServer.Server.Upload | back_end/app.py:83-103 | the file is stored and registered before activation, so the registration stays when activation fails. The reply is `{"Result": "OK", "file_id": id}` |
| BackEndServer.Server.NModelActivation | back_end/app.py:105-130 | a path that does not resolve raises RuntimeError from the bare `raise` and changes nothing. Otherwise the memoised fill runs |
| BackEndServer.Server.ModelActivation | back_end/app.py:132-158 | the guard runs first, then the memoised fill. After a success, both caches hold the id |
| BackEndServer.Server.ChatCompletion | back_end/app.py:161-180 | the endpoint never streams an answer. Without both cache entries, `model.chat_completion` does not exist in back_end/model_chain.py, so AttributeError is raised and the history is unchanged. With them, the chain is invoked once: a failed invoke or a missing "answer" raises with the history unchanged. Otherwise the exchange is logged, and then `async for` over the returned string raises TypeError |
| BackEndServer.Server.Flush | back_end/app.py:204-222 | the caches are emptied and every data file removed. The map is never cleared. The flush's exception comes after all of that |
| BackEndServer.Server.Delete | back_end/app.py:224-245 | removing a missing file re-raises FileNotFoundError with nothing changed. Otherwise it is as in app/app.py, with the same KeyError |
| ScriptServer.Server.constructor | app.py:19-36 | the file count is taken from the listing at start-up, and the map from the snapshot; no retriever or chain exists |
| ScriptServer.Server.CreateUploadFile | app.py:51-69 | the file is stored at `data/files/<id>_<name>` and registered and saved. The reply carries the id |
| ScriptServer.Server.InitializeModel | app.py:72-92 | an unmapped id or a missing file gives 404 with nothing changed. Otherwise the single retriever is overwritten before the chain is built, so a failing chain build leaves the new retriever beside the old chain |
| ScriptServer.Server.GetResponse | app.py:95-117 | the 500 for an uninitialised server precedes the 404. The answer comes from the last initialised chain, whatever the file id |
| FaissScripts.Indexing | model-chain.py:66-109 | an existing folder is reused whatever the loader would return. Otherwise the loader's error propagates with nothing saved, or its documents are saved in the document's folder. Saved folders are never overwritten |
| FaissScripts.SecondCallReuses | model-chain.py:73-98 | after a successful call, a second call for the same document returns the same retriever and saves nothing |
| FaissScripts.SameNameSharesIndex | model.py:47-53 | a document with the same file name in another directory is answered from the first document's index |
| FaissScripts.VectorFolder.constructor | model-chain.py:63 | the folder is `<script dir>/data/vectorstore/` |
| FaissScripts.VectorFolder.VectorDocuments | model.py:46-89 | the folders and the outcome are those of Indexing |
| FaissScripts.InitChainWithHistory | model-chain.py:116-128 | a retriever failure becomes `Exception("Error creating the retriever")`. Otherwise the chain builder's result, success or exception, is returned as it is. The folders change as in Indexing |
| FaissScripts.AgentInit | model.py:96-116 | the same wrapping of a retriever failure, with the agent builder's result, success or exception, returned as it is |
| FaissScripts.Built | model-chain.py:116-136 | what either builder yields: the retriever failure wrapped, or the builder's own result on the retriever |
| FaissScripts.AnsweringQuestion | model-chain.py:131-151 | the chain is rebuilt on every call. A failure of the retriever or of the chain builders is returned as the string "Step 3. Unable to create agent: " with the error, not raised. An invoke error propagates, and the answer is `output["answer"]` |
| FaissScripts.AnsweringQuestionAgent | model.py:119-134 | the same fallback string for any build failure, and the answer is `output["output"]` |
| FaissScripts.Answer | model-chain.py:133-151 | a build failure becomes the answer text. Otherwise an invoke error propagates, a missing key raises KeyError, and the answer is the value under the key |
| Js.Get | front_end/src/components/context/ErrorContext.js:6 | a property read gives `undefined` for a missing key |
| Js.Spread | front_end/src/components/context/ErrorContext.js:8 | `{ ...state, key: v }` sets the key and keeps every other field |
| Js.TrimStart | front_end/src/components/Chat/Chat.js:39 | the result is a suffix of the text that does not start with a space, and everything removed is a space |
| Js.TrimEnd | front_end/src/components/Chat/Chat.js:39 | the result is a prefix of the text that does not end with a space, and everything removed is a space |
| Js.Trim | front_end/src/components/Chat/Chat.js:39 | the trimmed text neither starts nor ends with a space |
| Js.TrimSplits | front_end/src/components/Chat/Chat.js:39 | the trimmed text sits inside the original with only spaces before and after it |
| Js.TrimStartEmpty | front_end/src/components/Chat/Chat.js:39 | `trimStart` leaves nothing exactly when every character is a JavaScript space |
| Js.TrimEmptyIff | front_end/src/components/Chat/Chat.js:39 | `trim() !== ''` holds exactly when some character is not a JavaScript space |
| ErrorContext.InitialState | front_end/src/components/context/ErrorContext.js:17 | the initial state is `{ error_type: null }` |
| ErrorContext.ErrorReducer | front_end/src/components/context/ErrorContext.js:5-14 | ERROR sets `error_type` to the payload, and CLEAR sets it to null. Both keep every other field. Any other action returns the state |
| ErrorContext.LastErrorWins | front_end/src/components/context/ErrorContext.js:7-8 | ERROR a then ERROR b leaves what ERROR b alone leaves |
| ErrorContext.ClearIdempotent | front_end/src/components/context/ErrorContext.js:9-10 | clearing twice is clearing once |
| ErrorContext.DispatchedErrorType | front_end/src/components/context/ErrorContext.js:5-17 | after any dispatches, the fields are unchanged. `error_type` is the last ERROR's payload, or null after a final CLEAR |
| ChatContext.InitialState | front_end/src/components/context/ChatContext.js:15 | the initial state is `{ sessionId: null }` |
| ChatContext.ChatReducer | front_end/src/components/context/ChatContext.js:5-12 | UPDATE_SESSION_ID sets `sessionId` to the payload and keeps the other fields. Any other action returns the state |
| ChatContext.DispatchIdempotent | front_end/src/components/context/ChatContext.js:7-10 | dispatching the same action twice is dispatching it once |
| ChatContext.DispatchedSessionId | front_end/src/components/context/ChatContext.js:5-15 | from the initial state, the only field is `sessionId`, holding the last update's payload (null if none) |
| FileContext.NotifyFileUploaded | front_end/src/components/context/FileContext.js:8-10 | each notification negates the flag |
| FileContext.NotifyTwice | front_end/src/components/context/FileContext.js:8-10 | two notifications restore the flag |
| FileContext.NotifyParity | front_end/src/components/context/FileContext.js:6-10 | after n notifications from `false`, the flag is true exactly when n is odd |
| ChatView.SendMessage | front_end/src/components/Chat/Chat.js:17-21 | the old list is kept and gains "User: "+text from "user", then "Echo: "+text from "chatbot" |
| ChatView.SendAllTranscript | front_end/src/components/Chat/Chat.js:17-21 | after n sends, the old list is followed by 2n messages, each user message directly followed by its echo |
| ChatView.ChatBox.constructor | front_end/src/components/Chat/Chat.js:6 | the list starts empty |
| ChatView.ChatBox.OnKeyDown | front_end/src/components/Chat/Chat.js:38-43 | Enter on a text that is not all spaces sends the untrimmed text and clears the input. Any other key, or a blank text, changes nothing |

## Left out

- Library calls are function parameters or opaque values: LLM, embeddings, FAISS, Redis vector store, chat-history storage, PDF loading and splitting. Their internals are not modelled.
- Celery queueing and `AsyncResult` are not modelled. The task bodies are modelled as methods on the caches they receive.
- FastAPI routing, CORS, `StreamingResponse` and async generators are not modelled. Handlers are methods, and a stream is its sequence of items followed by its end or exception.
- File contents, `aiofiles`, `json.dump`, `os.mkdir` and the health, chat, chat-history and preprocessing-status endpoints are single library calls and are not modelled.
- The `measure_time` timing decorators (wall-clock floats) are not modelled. Nor is `app/modules/utils.py`, a thin wrapper whose log ordering `ChatHistory` covers.
- `model_chain.py` is not part of this model: its reuse branch is commented out, and the rest is library wiring. The top-level app.py receives its functions as parameters.
- `init_chain_with_history` and `get_session_history` of `back_end/model_chain.py` only wire library objects; they are builder parameters.
- Presentational front-end code is not part of this model: ErrorPopup, Section, Upload, Navbar, Footer, Message, Style, App and api.
- Cache getters (`get_retrievers` and the like) return the dicts themselves. Aliasing through them is not modelled.
- RedisIndex.Send: a chunk is written whole or not at all. A `Redis.from_documents` call that fails after writing part of its chunk is not modelled.
- RedisIndex.Ingest: a failure of `vector.write_schema` after every chunk was written is not modelled; its outcome is the store.
- RedisIndex.VectorDb.HasKeys: `keys("doc:X:*")` is modelled as "index X holds a document". It does not model a key of another index that happens to match the glob.
- ApiServer.Server.Delete: the two Redis `delete` calls with a literal `*` pattern are not modelled, since they delete a key of that exact name.
- BackEndServer.Server.Delete: the same two Redis `delete` calls are left out.
- ApiServer.Server.Flush: what `flushall` removes from Redis is not modelled; the flush is an input outcome.
- BackEndServer.Server.Flush: the same, for its `flushall`.
- ApiServer.Server.ModelActivation: the Celery task fills serialised copies of the dicts, so this server's own dicts never change. The model states that and nothing about the worker's copies.
- AppCache.Cache.ClearCache: which file `os.listdir` yields first is left open, and the model says only that one listed file is removed.
- ScriptServer.Server.GetFiles: returns the count, not the message text "Found N file(s) in the server".
- Console.UserInterface: the answering function is stateless here. The vector folder the scripts' `answeringQuestion` changes between questions is modelled separately by FaissScripts.
- FaissScripts.VectorFolder.VectorDocuments: a folder that exists but holds no loadable index is treated as a saved index. A failing `FAISS.load_local` is not modelled.
- RagChat.OutputGeneration: the method is declared without `self`, so an instance call would shift its arguments. It is modelled as the plain function its body describes.
- RagChat.ChatCompletion: likewise declared without `self`, and modelled the same way.
- RagChat.OutputGeneration: a failure fetching the session history before the stream starts is not modelled.
- ChatView.SendMessage: the `new Date()` timestamps of the two messages are not modelled.
- PathNames.Join: only the POSIX `os.path.join` is modelled; the Windows drive and backslash rules of `ntpath.join` are not.
