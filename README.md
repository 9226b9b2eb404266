# Retrieval service over a vector store and a QA table — a Dafny model

This project models the decision logic of a small question-answering service. It is written in
Go on top of an Ollama LLM, a vector store (Milvus or Qdrant) and a MySQL table `qa_pairs`.

- **Write path (`StoreQA`).** The service inserts a question/answer row into the table and
  reads back the generated id. It then writes one vector document whose content is the question
  and whose `qa_id` metadata is that id.
- **Read path (`RetrieveAnswer`).** The service runs a similarity search and extracts `qa_id`
  from each hit (integer, float or some other type). It joins the ids into a comma-separated
  decimal list and reads the answers with `SELECT answer FROM qa_pairs WHERE id IN (...)`.
- **`QueryWithRetrieve`.** This wraps the read path. When nothing is found it returns a fixed
  fallback answer. Otherwise it builds one LLM prompt from the query and the answers.
- **Supporting parts:**
  - a sliding-window rate limiter, keyed by client address;
  - the HTTP handlers' request normalisation and status mapping;
  - validation of the two backend configurations;
  - the Milvus index-type switch;
  - validation of the application configuration.

Remote systems are parameters of the model:

- the similarity search, the LLM and the conversational agent are function values;
- URL parsing is a function value;
- the search, the LLM, the agent and URL parsing report their failures through `Result`;
- the failures of the row insert, `LastInsertId`, the upsert, the answer query and `db.Close`
  are `Option<string>` inputs;
- a result set that fails part-way through is an `Option<nat>` input: the number of rows
  read before it fails.

The modules follow the source's packages:

| module | file | models |
|---|---|---|
| `Results` | results.dfy | `Option`, `Result` |
| `Strings` | strings.dfy | `strings.Join` and where a part lands in the joined text |
| `IdList` | idlist.dfy | the decimal id list and the database's reading of it |
| `Documents` | documents.dfy | `schema.Document` with loosely typed metadata |
| `Milvus` | milvus.dfy | `models/vectorstore/milvus.go` |
| `Qdrant` | qdrant.dfy | `models/vectorstore/qdrant.go` |
| `VectorStore` | vectorstore.dfy | the `VectorStore` interface over both backends |
| `Service` | service.dfy | `models/ollama.go` |
| `RateLimit` | ratelimit.dfy | `api/ratelimit.go` |
| `Handlers` | handlers.dfy | `api/handlers.go` |
| `AppConfig` | config.dfy | `config/config.go` |

How the state is modelled:

- **Relational table.** `ModelService.rows : map<int, QARow>` holds the table, with the
  auto-increment counter `nextId`, which starts at 1.
- **Vector collection.** `docs : seq<Document>` holds it, inside each backend object.
- **Write order.** A ghost event log records the order of the writes.
- **Service invariant `Valid`.** It states three things:
  - every row id lies in `[1, nextId)`;
  - the backend, once held, is initialized;
  - every vector document with an id points at an existing row.
- **Derived facts.**
  - From the invariant: an upsert failure after a successful insert leaves an **orphaned**
    row.
  - Separately: suppose a hit's `qa_id` reads as the id of an existing row, no hit has a
    `qa_id` of an unexpected type, the answer query succeeds and its result set is read to
    the end. Then that row's answer is in the result.
- **Silent partial reads.** The scan loop over the answer query's rows never checks
  `rows.Err()`. A result set that fails part-way therefore yields the answers read so far, as
  a success. When none were read, `QueryWithRetrieve` returns the "nothing found" fallback.

## Model

| member | source | states |
|---|---|---|
| Service.TruncateToInt | models/ollama.go:118-119 | `int64(v)` on a float id truncates toward zero: `r <= f < r+1` for non-negative `f`, `r-1 < f <= r` for negative `f` |
| Service.ExtractIdsAppend | models/ollama.go:112-124 | id extraction distributes over concatenation of the result list: order and duplicates are kept, and an error in an earlier document wins |
| Service.ExtractIdsFailure | models/ollama.go:113-122 | extraction fails iff some document has a `qa_id` of a type other than integer or float; the type reported is that of the first such document |
| Service.ExtractIdsMembers | models/ollama.go:113-124 | on success an id is extracted iff some document carries it |
| Service.ExtractIdsCount | models/ollama.go:113-124 | on success there is one id per document that has the key: keyless documents are skipped and duplicates kept |
| Service.CollectIds | models/ollama.go:112-124 | the extraction loop computes `ExtractIds`: ints kept, floats truncated, the first value of another type aborts |
| IdList.IntRoundTrip | models/ollama.go:134 | reading back the `%d` rendering of any id gives the id, negative ids included |
| IdList.SplitJoin | models/ollama.go:136 | joining comma-free parts with "," and splitting on "," gives the parts back |
| IdList.IdListRoundTrip | models/ollama.go:132-139 | for a non-empty id sequence, the joined list that the database parses is exactly the ids, in retrieval order, duplicates kept |
| IdList.EmptyIdListIsMalformed | models/ollama.go:127-129 | with no ids the list would be empty and `IN ()` unparsable, which is what the early return avoids |
| IdList.BuildIdList | models/ollama.go:132-136 | the `idStrs` loop and join produce the id list, and that list parses back to the ids |
| Service.SelectedIdsExact | models/ollama.go:138-139 | the `IN (...)` selection holds each wanted, existing row exactly once, in ascending id order; missing ids are simply absent |
| Service.SelectedIdsMembers | models/ollama.go:138-139 | a row is selected iff it exists, is in the id list and lies in the id range |
| Service.SelectedIdsAscending | models/ollama.go:138-139 | the selected rows come in strictly ascending id order |
| Service.AnswersOf | models/ollama.go:146-153 | one answer per selected row |
| Service.ReadAnswers | models/ollama.go:146-155 | what the scan delivers is a prefix of the selected rows' answers: all of them when the result set does not fail, and exactly the first `n` when it fails after `n` rows |
| Service.ScanAnswers | models/ollama.go:146-155 | the `rows.Next()` loop collects each selected row's answer in order and stops silently where the result set fails; it computes `ReadAnswers` of the selected rows' answers |
| Service.RetrievalStopsSilently | models/ollama.go:146-155 | a result set that fails part-way never turns a retrieval into an error: it succeeds exactly when the complete read does, with a prefix of its answers of length `min(n, total)` |
| Service.StoppedScanExample | models/ollama.go:104-155 | with rows 3 and 5 selected and the result set failing after one row, the retrieval succeeds with the answer of row 3 alone |
| Service.QADocument | models/ollama.go:92-97 | the document written for a pair has the question as content and the row id as its `qa_id` |
| Service.RetrievalAnswers | models/ollama.go:104-156 | a successful retrieval returns the answers of exactly the existing rows some hit points at, each once, in ascending id order |
| Service.StoredAnswerIsRetrieved | models/ollama.go:76-156 | when the search returns a document with the question whose `qa_id` reads as row `id` (an integer or a float that truncates to it) and no hit has an unexpected id type, that row's answer is among the answers |
| Service.FloatEncodedIdIsSame | models/ollama.go:116-119 | a document whose `qa_id` comes back as the float of the id yields the same id as the integer document StoreQA wrote |
| Service.GenerationPrompt | models/ollama.go:245-246 | the prompt starts with the fixed instruction, and the query follows it immediately |
| Service.PromptEmbedsAnswers | models/ollama.go:245-246 | the prompt contains the query and every answer |
| Strings.JoinContainsPart | models/ollama.go:246 | every part of `strings.Join` occurs in the joined text |
| Service.PageContents | models/ollama.go:309-311 | one AI message per retrieved document, in search order |
| Service.InitVectorStore | models/ollama.go:196-219 | only "milvus" and "qdrant" build a backend (fresh, empty, with the given config); any other type is refused; for each backend, success is equivalent to that backend's Initialize succeeding |
| Service.ModelService.constructor | models/ollama.go:36-41 | a new service holds no store, model or database, and has an empty table |
| Service.ModelService.Initialize | models/ollama.go:43-73 | a model failure changes nothing; the store step succeeds iff the type is "milvus" with a supported index type and a successful dial, or "qdrant" with a parsable address and a successful dial; an unknown type is reported as such; a failed store step leaves the held store, the models and the database as they were; on store success a fresh, empty backend of the configured kind and config is held; the database is opened last; success iff all three steps succeed; the invariant is kept |
| Service.ModelService.StoreQA | models/ollama.go:76-101 | an insert failure writes nothing; an id or upsert failure leaves the inserted row with no document, so the row is orphaned; on success exactly one document with the question and the new id is appended; the insert precedes the upsert in the log; the backend's connection handle is unchanged; the invariant is kept |
| Service.ModelService.RetrieveAnswer | models/ollama.go:104-156 | the result is the retrieval function of table and search outcome: a search error or an unexpected id type fails; no ids gives an empty result without a query; otherwise the answers of the selected rows, collected by a scan over them in order that stops silently where the result set fails |
| Service.ModelService.QueryWithRetrieve | models/ollama.go:263-282 | a retrieval error propagates with no LLM call; no answers (also when the result set fails before its first row) gives the fixed fallback with no LLM call; otherwise exactly one LLM call, with the prompt built from query and answers, and its outcome is returned |
| Service.ModelService.Query | models/ollama.go:221-240 | a search error is reported; otherwise the agent receives the page contents in order, and its outcome is returned |
| Service.ModelService.Close | models/ollama.go:326-345 | cleanup fails iff the database is open and its close fails, and then reports exactly that failure |
| RateLimit.RecentMembers | api/ratelimit.go:32-38 | a timestamp survives pruning iff it is strictly after `now - window` (one at the boundary is dropped); pruning never lengthens the list |
| RateLimit.RecentAppend | api/ratelimit.go:34-38 | pruning distributes over concatenation, so the survivors keep their relative order |
| RateLimit.RecentOfRecent | api/ratelimit.go:32-38 | pruning is idempotent |
| RateLimit.RecentKeepsAll | api/ratelimit.go:34-38 | when every timestamp is after the window start, pruning keeps the list unchanged |
| RateLimit.RecentDropsAll | api/ratelimit.go:34-38 | when no timestamp is after the window start, pruning empties the list |
| RateLimit.RateLimiter.constructor | api/ratelimit.go:16-22 | a new limiter has no recorded requests and the given limit and window |
| RateLimit.RateLimiter.Admit | api/ratelimit.go:26-50 | admitted iff fewer than `limit` timestamps survive (so `limit <= 0` refuses all); a refusal leaves the map unchanged; an admission sets only this key's entry, to the survivors followed by `now`; with `limit >= 1` every entry stays within `limit` |
| RateLimit.RateLimiter.Middleware | api/ratelimit.go:24-54 | the wrapped handler runs iff the request is admitted, and it is handed the updated map, whose entry for this key ends with `now`; otherwise it replies 429 with the fixed message, and the map is unchanged |
| RateLimit.AdmitAtSameInstant | api/ratelimit.go:33-49 | when every stored timestamp equals `now`, a request is admitted iff fewer than `limit` are stored, and on admission `now` is appended |
| RateLimit.RefuseThenExpire | api/ratelimit.go:33-49 | with three timestamps at `t`, limit 3 and window 1000, a fourth request at `t` is refused and one at `t + 1100` is admitted |
| RateLimit.SameInstantScenario | api/ratelimit.go:33-49 | with limit 3 and window 1000, three requests at one instant pass, a fourth is refused, and one 1100 later passes |
| Handlers.ClampTopK | api/handlers.go:55-59 | the clamped `top_k` is in [1,20]: 5 when not positive, 20 above 20, otherwise unchanged |
| Handlers.ClampIdempotent | api/handlers.go:55-59 | clamping is idempotent |
| Handlers.ClampSamples | api/handlers.go:55-59 | 0 and -5 clamp to 5; 21 and 1000 clamp to 20 |
| Handlers.QueryHandler | api/handlers.go:38-75 | non-POST gives 405, an undecodable body 400, an empty query 400, all three without calling the service; otherwise the service gets the clamped `top_k`; a failure gives 504 past the deadline and 500 otherwise, and success gives 200 with the answer |
| Handlers.StoreQAHandler | api/handlers.go:77-96 | non-POST gives 405 and a bad body 400, neither calling the service; otherwise question and answer are forwarded unchecked; a store error gives 500 and success 200 |
| Handlers.GetQuestionsHandler | api/handlers.go:98-114 | non-GET gives 405 without a call; otherwise the listing's error gives 500 and its success 200 with the questions |
| Milvus.MilvusConfig.Validate | models/vectorstore/milvus.go:21-32 | valid iff address, collection and index type are all non-empty; the first empty one, in that order, is reported; the database name is not checked |
| Milvus.IndexFor | models/vectorstore/milvus.go:51-60 | exactly IVF_FLAT, IVF_SQ8 and HNSW give an index, each of its own kind and each with the L2 metric |
| Milvus.MilvusStore.constructor | models/vectorstore/milvus.go:40-45 | a new store has its config and no connection |
| Milvus.MilvusStore.Initialize | models/vectorstore/milvus.go:47-82 | an unsupported index type fails before any connection attempt; a connection failure keeps the old handle; on success the handle records address, database, collection and index |
| Milvus.MilvusStore.AddDocuments | models/vectorstore/milvus.go:84-87 | the SDK's outcome is returned; the documents are appended on success only |
| Milvus.MilvusStore.Close | models/vectorstore/milvus.go:97-99 | Close always succeeds, in any state |
| Qdrant.QdrantConfig.Validate | models/vectorstore/qdrant.go:18-23 | valid iff the address is non-empty; the collection is not checked |
| Qdrant.QdrantStore.constructor | models/vectorstore/qdrant.go:31-36 | a new store has its config and no connection |
| Qdrant.QdrantStore.Initialize | models/vectorstore/qdrant.go:38-55 | an unparsable address fails before the store is built; a build failure keeps the old handle; on success the handle records the parsed URL and the collection |
| Qdrant.QdrantStore.AddDocuments | models/vectorstore/qdrant.go:57-60 | the SDK's outcome is returned; the documents are appended on success only |
| Qdrant.QdrantStore.Close | models/vectorstore/qdrant.go:70-72 | Close always succeeds, in any state |
| VectorStore.Backend.Search | models/vectorstore/interface.go:17-18 | searching through the interface is the backend's search over its collection |
| VectorStore.AddDocuments | models/vectorstore/interface.go:14-15 | through the interface, the documents are appended on success only, and the backend's connection handle and count of connection attempts are unchanged |
| VectorStore.Close | models/vectorstore/interface.go:20-21 | Close through the interface always succeeds |
| AppConfig.ValidateConfig | config/config.go:61-72 | the guards run in order (Milvus address, Ollama address, chunk size > 0) and the first failure is reported; valid iff all three pass |
| AppConfig.ValidationIgnoresOtherFields | config/config.go:61-72 | chunk overlap, top-K, score threshold and every other field do not affect validation |
| AppConfig.LoadConfig | config/config.go:43-59 | a configuration is returned iff reading, parsing and validation all succeed, and a returned configuration passes validation |

## Left out

- **Remote I/O.** HTTP transport, JSON decoding and `jsonResponse` are abstracted. A body that
  does not decode is `None`, and a handler's response is a value.
- **`sql.Open` and SQL execution.** Whether the row insert, `LastInsertId`, the answer query
  and `db.Close` succeed are inputs.
- **Row order in the `IN (...)` query.** The database returns the selected rows in ascending id
  order. This is an assumption about the primary-key scan: SQL itself promises no order.
- **`rows.Scan` errors.** Per-row scan failures (models/ollama.go:149-151) are not modelled;
  an answer column always scans.
- **Client construction.** Building the Ollama, Milvus and Qdrant clients and the langchaingo
  calls are abstracted. So are `Initialize`'s embedder, the `milvus.New` / `qdrant.New`
  outcome (an input) and the error the SDK index constructors may return for their
  parameters; the model takes 768, 768 and 16/200 as always accepted.
- **Ollama responses.** The LLM's `Choices[0]` on an empty choice list is not modelled. The LLM
  is a function from prompt to result.
- Service.ModelService.Query: the agent executor of `generateAnswer` (models/ollama.go:307-324)
  is one function. The model states only that it receives the page contents in order and the
  query.
- **Concurrency and time.** The rate limiter's mutex and any concurrency are not modelled.
  Context deadlines appear only as the `deadlineExceeded` flag of a failed query. Time is an
  integer timestamp given to `Admit`.
- **Float metadata.** A float `qa_id` is a real number truncated toward zero. NaN, infinities
  and int64 overflow of `int64(v)` are not modelled, and ids are unbounded integers.
- **Initialization state.** Initialization starts from an empty table and an empty
  collection, not from pre-existing remote data.
- **`GetStoredQuestions`.** The questions handler calls it, but models/ollama.go does not
  define it, so GetStoredQuestions is not part of this model. The handler receives its outcome
  as a function.
- **Other parts of the repository.** `ModelService.AddDocuments` and `utils/utils.go` (file
  loading and chunking) are not modelled. Neither are `main.go` (wiring), `api/health.go`
  (runtime statistics) and `LoadConfig`'s file reading and YAML parsing, which are inputs.
  `ScoreThreshold` is parsed but never used, and the model records it without using it.
- **Missing configuration fields.** The service reads `cfg.VectorStore.*` and `cfg.MySQL.DSN`
  (models/ollama.go:66, 197), but the `Config` struct of config/config.go has no such fields.
  The store type, both backend configurations and the DSN are therefore plain constructor
  parameters of `Service.ModelService`.
- **Interface implementation.** The `VectorStore` interface is a datatype `VectorStore.Backend`
  with one case per backend, dispatching to the two classes, rather than an interface type.
  Its `Initialize` is reached through `Service.InitVectorStore`, which knows the concrete
  class.
- **Id handling follows the code.**
  - An unexpected `qa_id` type aborts the whole retrieval (models/ollama.go:120-121); no
    document is skipped.
  - Duplicate ids stay in the id list (models/ollama.go:132-136). They collapse only because
    `IN (...)` selects each row once, which `Service.RetrievalAnswers` states.
