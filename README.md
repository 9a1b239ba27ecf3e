# A verified model of the GR-OL-RAG question-answering service

GR-OL-RAG is a retrieval-augmented chatbot for dropshipping and service-point documents.
It has four parts:

- Uploaded PDF, TXT, DOCX and Markdown files are split into overlapping chunks.
- The chunks are stored in a vector collection.
- A four-stage workflow answers each question: clean the query, retrieve the nearest chunks,
  build a numbered context, and ask a language model (Groq, with Ollama as the fallback).
- Conversations are kept per thread in a document database.

This project models that core in Dafny and proves properties of the model. There is one
module per source file:

| module | file | source |
|---|---|---|
| `Common`, `Config` | `common.dfy` | shared Python semantics (`str.strip`, `rfind`, `lower`, slicing, `x or default`, integer printing and parsing, loosely typed metadata values) and the configured defaults |
| `Schemas` | `schemas.dfy` | `app/models/schemas.py` |
| `DocumentProcessor` | `document_processor.dfy` | `app/services/document_processor.py` |
| `VectorStore` | `vector_store.dfy` | `app/services/vector_store.py` |
| `LlmService` | `llm_service.dfy` | `app/services/llm_service.py` |
| `WorkflowState` | `workflow_state.dfy` | the `RAGState` record of `app/services/rag_workflow.py` |
| `Checkpointer` | `checkpointer.dfy` | `app/checkpointer/mongo_checkpointer.py` |
| `RagWorkflow` | `rag_workflow.dfy` | `app/services/rag_workflow.py` |
| `Api` | `api.dfy` | `app/main.py` |

The model takes the form of the code it follows:

- Objects whose state changes are classes:
  - the vector store: a map from record id to record;
  - the checkpointer: a map from thread id to stored document;
  - the application: the documents directory and the services started at startup.
- Their methods carry `modifies` clauses and state the whole new state.
- Loops in the source are `while` or `for` loops, proved against a specification function:
  - the chunking loop;
  - the PDF page loop;
  - the id/document/metadata loop of `add_documents`;
  - the result-formatting loop of `search`;
  - the context and source loops of the workflow;
  - the message loop of both backends;
  - the history filter of the API.
- The language-model service never changes after construction, so it is a datatype with
  functions.
- The outside world enters as parameters:
  - the embedding search engine and the two chat backends are function values;
  - file contents and upload sizes are values;
  - whether the database answers is a `bool`;
  - a failing count or add of the vector collection is the optional text of its error;
  - the processing timestamp is a string.

Four behaviours of the code are worth stating outright. The model keeps each as written:

- A text shorter than the chunk size can yield two chunks.
  - The loop runs once more after a window that already reached the end of the text.
  - A text longer than `chunk_size - chunk_overlap` but at most `chunk_size` and at most
    `2 * (chunk_size - chunk_overlap)` characters long is visited twice. The overlap tail comes
    out as a second chunk unless it is blank (`DocumentProcessor.ShortTextTwoWindows`).
  - The defaults 1000 and 200 always meet the last condition, so every text of 801 to 1000
    characters is visited twice.
- A blank query is accepted and stripped to the empty string.
  - The workflow goes on with the empty string (`RagWorkflow.BlankQueryBecomesEmpty`).
  - Only a zero-length query is refused, by request validation (`Schemas.QueryMinLength`).
- Nothing checks the overlap against the chunk size.
  - Even an overlap below the chunk size can make the loop run forever (see Findings).
- `end_char` is the window end and is never clamped to the text length
  (`DocumentProcessor.EndCharNotClamped`).

## Model

| member | source | states |
|---|---|---|
| Schemas.QueryMinLength | app/models/schemas.py:17-22 | the empty query fails request validation; any non-empty query, blanks included, passes |
| Schemas.NewStructuredAnswer | app/models/schemas.py:33-37 | the answer model is built exactly when 0 <= confidence <= 1, carrying its fields; `sources_used` defaults to the empty list; otherwise a validation error |
| Schemas.NewSourceDocument | app/models/schemas.py:25-30 | built exactly when the filename is a string and the page is absent or coerces to an integer; content, filename and score carried; page absent exactly when none was given |
| DocumentProcessor.Processor.constructor | app/services/document_processor.py:45-46 | an absent or zero chunk size or overlap takes the configured default |
| DocumentProcessor.FileTypeIgnoresCase | app/services/document_processor.py:57-58 | the dispatch type, the lower-cased suffix of the file name, is the same for a path and its lower-cased form |
| DocumentProcessor.LoadDocument | app/services/document_processor.py:57-70 | fails exactly for a type outside .pdf/.txt/.docx/.md, with `Unsupported file type: <ext>`; .txt and .md give the file text; .pdf and .docx give their non-blank pages or paragraphs joined by a blank line |
| DocumentProcessor.LoadPdf | app/services/document_processor.py:84-92 | the page loop keeps the pages whose text is not blank and joins them by a blank line |
| DocumentProcessor.JoinNonBlankEmpty | app/services/document_processor.py:115-117 | the extracted text is empty exactly when every page or paragraph is blank |
| DocumentProcessor.WindowEnd | app/services/document_processor.py:142-154 | a window ends at most chunk_size after its start; it is cut back only when the text goes on and the last '.' or '\n' lies beyond half the chunk size, and then ends just after it |
| DocumentProcessor.BreakIsLast | app/services/document_processor.py:148-154 | a cut-back window ends after the last break of the full window: no '.' or '\n' lies between its end and the full window's end |
| DocumentProcessor.Processor.CutWindow | app/services/document_processor.py:142-154 | the end and text of the window at a start are those of the specification window |
| DocumentProcessor.AdvancesGuaranteesProgress | app/services/document_processor.py:172 | under the guard (overlap below the chunk size and at most half of it plus one) the next start is always beyond the current one |
| DocumentProcessor.StallsWithoutGuard | app/services/document_processor.py:172-174 | with chunk size 10 and overlap 7 the text "aaaaaa.aaaaaaa" restarts at 0; with chunk size and overlap both 10 the text "aaaaaaaaaaaaaa" restarts at 0 as well |
| DocumentProcessor.StartNeverIncreases | app/services/document_processor.py:142-172 | with an overlap of at least the chunk size no window moves the start forward |
| DocumentProcessor.GuardIsTight | app/services/document_processor.py:172 | for every positive chunk size and overlap outside the guard some non-empty text does not move the start forward |
| DocumentProcessor.WindowsChain | app/services/document_processor.py:141-174 | every visited window is the window at its start; each next start is the previous end minus the overlap; after the last window the next start reaches the end of the text |
| DocumentProcessor.WindowsCover | app/services/document_processor.py:141-174 | with a non-negative overlap every position of the text lies inside some window |
| DocumentProcessor.Processor.ChunkText | app/services/document_processor.py:119-176 | the chunking loop returns exactly the chunks of the specification windows, numbered in order over the non-blank windows |
| DocumentProcessor.ChunksWellFormed | app/services/document_processor.py:156-169 | the chunks are numbered 0, 1, 2, ...; each carries the document metadata and its window, lies within chunk_size, and holds the stripped, non-empty window text; there are at most as many chunks as windows |
| DocumentProcessor.DictFacts | app/services/document_processor.py:157-162 | a chunk's metadata is the document's with `chunk_id`, `start_char` and `end_char` set, every other key unchanged |
| DocumentProcessor.EmptyTextNoChunks | app/services/document_processor.py:141 | an empty text yields no chunk |
| DocumentProcessor.ShortTextOneWindow | app/services/document_processor.py:141-174 | a text of at most chunk_size - overlap characters is one window, so one chunk (none if blank) with end_char = chunk_size |
| DocumentProcessor.ShortTextTwoWindows | app/services/document_processor.py:141-174 | a text longer than chunk_size - overlap, at most chunk_size and at most 2 * (chunk_size - overlap) characters long is visited twice, and the overlap tail is emitted again unless blank |
| DocumentProcessor.EndCharNotClamped | app/services/document_processor.py:142-162 | "abc" with the defaults gives one chunk "abc" whose end_char is 1000 |
| DocumentProcessor.DocumentMetadata | app/services/document_processor.py:198-206 | the document metadata holds filename, file_path, file_type and processed_at, overridden key by key by the additional metadata |
| DocumentProcessor.Processor.ProcessDocument | app/services/document_processor.py:192-213 | a load failure propagates; otherwise the chunks of the loaded text under the document metadata |
| VectorStore.RecordIdInjective | app/services/vector_store.py:69 | two ids `<filename>_<chunk_id>` are equal exactly when filename and chunk number are |
| VectorStore.ChunkFilenameOfDocument | app/services/vector_store.py:69 | the filename in a chunk's id is its document's filename, or "unknown" |
| VectorStore.DocumentIdsDistinct | app/services/vector_store.py:67-72 | the chunks of one document get pairwise distinct ids |
| VectorStore.PrepareBatch | app/services/vector_store.py:63-72 | the loop builds parallel lists: each chunk's id, content and metadata at its own index |
| VectorStore.InsertAllOfBatch | app/services/vector_store.py:79-84 | adding those lists to the collection is adding the chunks one by one |
| VectorStore.AddChunksKeeps | app/services/vector_store.py:79-84 | adding keeps every existing record, and the ids afterwards are the old ids plus the chunks' ids |
| VectorStore.AddChunksFresh | app/services/vector_store.py:79-87 | for fresh, distinct ids the collection grows by the number of chunks and stores each chunk's content and metadata under its id |
| VectorStore.Store.AddDocuments | app/services/vector_store.py:59-87 | no chunks: 0 and nothing changes; otherwise a failing embedding call or collection add propagates its error and stores nothing, and a successful one gives the count of chunks and the collection with the batch added |
| VectorStore.ScoreRange | app/services/vector_store.py:126-127 | a non-negative distance gives a score in (0, 1], equal to 1 exactly at distance 0 |
| VectorStore.ScoreDecreasing | app/services/vector_store.py:124-127 | of two non-negative distances the larger gives the strictly smaller score |
| VectorStore.HitsShape | app/services/vector_store.py:122-133 | formatting succeeds exactly when every document has a metadata and a distance other than -1; it then gives one hit per document in engine order, pairing content, metadata and score of one index; otherwise an index or division error |
| VectorStore.EmptyAnswerNoHits | app/services/vector_store.py:122 | no documents gives no results, whatever the other lists hold |
| VectorStore.AscendingDistancesRankedScores | app/services/vector_store.py:124-133 | ascending non-negative distances give non-increasing scores |
| VectorStore.FormatResults | app/services/vector_store.py:120-136 | the formatting loop computes exactly the specification hits, errors included |
| VectorStore.Store.Search | app/services/vector_store.py:105-136 | top_k defaults only when absent; an engine failure propagates; otherwise the formatted engine answer |
| VectorStore.DeleteMatching | app/services/vector_store.py:148-157 | deleting the matching ids keeps exactly the other files' records unchanged and shrinks the collection by the number deleted |
| VectorStore.Store.DeleteByFilename | app/services/vector_store.py:147-157 | returns the number of records of that file and removes exactly them |
| VectorStore.Store.GetCollectionStats | app/services/vector_store.py:165-171 | a failing count propagates its error; otherwise total_chunks is the collection's size, and name and directory are the configured ones |
| VectorStore.Store.ResetCollection | app/services/vector_store.py:175-179 | the collection is empty afterwards |
| LlmService.NewService | app/services/llm_service.py:28-43 | the provider is the given one or the default; a Groq client exists exactly when the provider is groq or a key is configured and construction succeeds |
| LlmService.DefaultService | app/services/llm_service.py:28-39 | with the shipped settings the provider is groq and a client exists exactly when it constructs |
| LlmService.ToFloat | app/services/llm_service.py:121 | float(): numbers kept, booleans to 1.0/0.0, strings parsed, null, lists and objects refused with a TypeError |
| LlmService.ParseAnswerDefaults | app/services/llm_service.py:119-123 | an empty reply gives answer "", confidence 0.5, no sources |
| LlmService.ParseAnswerWellTyped | app/services/llm_service.py:119-123 | a well-typed reply parses exactly when its confidence lies in [0, 1], and then carries its fields unchanged |
| LlmService.ParseAnswerBadConfidence | app/services/llm_service.py:121 | a null, list or object confidence raises a TypeError before validation |
| LlmService.UserContentOrder | app/services/llm_service.py:94-102 | the user turn is the header, the context, the question header, the question, the closing, in that order |
| LlmService.MessagesShape | app/services/llm_service.py:67-103 | the messages are the system turn, the last min(6, n) history entries in order, and the user turn |
| LlmService.BuildMessages | app/services/llm_service.py:146-170 | the appending loop builds exactly those messages |
| LlmService.GenerateWithGroq | app/services/llm_service.py:63-127 | without a client a ValueError and no backend call; otherwise exactly one Groq call |
| LlmService.GenerateWithOllama | app/services/llm_service.py:145-196 | exactly one Ollama call |
| LlmService.GenerateFallback | app/services/llm_service.py:216-236 | a first success is final; after a failure one call to the other backend when it is available, whose outcome is final; otherwise the original error; at most two calls |
| LlmService.GenerateConfidenceValid | app/services/llm_service.py:119-123 | whatever the backends reply, an answer the service returns has a confidence in [0, 1] |
| LlmService.UnknownProviderNoFallback | app/services/llm_service.py:223-236 | an unknown provider fails with `Unknown provider: <name>` and reaches no backend |
| LlmService.OutOfRangeConfidenceFallsBack | app/services/llm_service.py:218-231 | a Groq reply with an out-of-range confidence fails validation, so the Ollama answer is returned after calls to Groq then Ollama |
| Checkpointer.LoadAfterSave | app/checkpointer/mongo_checkpointer.py:64-76 | loading a thread just saved gives the saved state and its history |
| Checkpointer.LastWriteWins | app/checkpointer/mongo_checkpointer.py:72-76 | a second save to a thread replaces the first |
| Checkpointer.ThreadsIsolated | app/checkpointer/mongo_checkpointer.py:72-76 | saving or deleting one thread leaves every other thread's state and history as they were |
| Checkpointer.DeleteForgets | app/checkpointer/mongo_checkpointer.py:148-150 | a deleted thread has no state and no history; the count is 0 exactly for an unknown thread |
| Checkpointer.Store.SaveState | app/checkpointer/mongo_checkpointer.py:59-83 | True and the thread's document upserted when the database answers; False and nothing stored otherwise |
| Checkpointer.Store.LoadState | app/checkpointer/mongo_checkpointer.py:97-113 | the stored state, or None for a missing thread, a document without state, or a failing database |
| Checkpointer.Store.GetConversationHistory | app/checkpointer/mongo_checkpointer.py:124-137 | the stored history, or [] for a missing thread or a failing database |
| Checkpointer.Store.DeleteThread | app/checkpointer/mongo_checkpointer.py:148-150 | the number of documents removed and the thread gone; a database failure propagates |
| RagWorkflow.ProcessQuery | app/services/rag_workflow.py:85-92 | the query is stripped and every other field kept |
| RagWorkflow.ProcessQueryIdempotent | app/services/rag_workflow.py:85 | cleaning twice is cleaning once |
| RagWorkflow.BlankQueryBecomesEmpty | app/services/rag_workflow.py:85-92 | the cleaned query is empty exactly when the query is blank; the stage does not reject it |
| RagWorkflow.RetrieveDocuments | app/services/rag_workflow.py:103-116 | the stored top_k goes to the search; only the results change; it fails exactly when the engine or the formatting fails |
| RagWorkflow.Parts | app/services/rag_workflow.py:133-137 | one part per result, `[Source i: filename]` then the content, numbered from 1 |
| RagWorkflow.ContextShape | app/services/rag_workflow.py:127-146 | the sentinel text exactly when nothing was retrieved; otherwise the context opens with source 1 and contains every source's part |
| RagWorkflow.FormatContext | app/services/rag_workflow.py:127-146 | the loop sets the specification context and nothing else |
| RagWorkflow.AppendExchange | app/services/rag_workflow.py:172-175 | the history is extended by exactly the user's query and the assistant's answer |
| RagWorkflow.GenerateAnswer | app/services/rag_workflow.py:157-183 | a generator failure propagates; otherwise the answer is stored and the exchange appended, nothing else changing |
| RagWorkflow.GraphOutcome | app/services/rag_workflow.py:61-71 | a completed run has the stripped query, the context of its results, an answer, the history extended by this exchange, and its thread, provider and top_k |
| RagWorkflow.SourcesShape | app/services/rag_workflow.py:254-264 | one source per result in order: content cut to 500 characters, same score, page absent exactly when the metadata has none; the list fails exactly when some result fails validation |
| RagWorkflow.FormatSources | app/services/rag_workflow.py:254-264 | the loop computes exactly those sources |
| RagWorkflow.Workflow.Invoke | app/services/rag_workflow.py:224 | the four stages run on the store's records compute the specification graph |
| RagWorkflow.ResponseOfGraph | app/services/rag_workflow.py:231-237 | the response of a completed run exists exactly when every result makes a valid source, and then holds the cleaned query, the generated answer, a confidence in [0, 1], one source per result and the caller's thread id |
| RagWorkflow.Respond | app/services/rag_workflow.py:231-239 | the response is shaped from the final state: its sources formatted, or their first failure raised; the answer and confidence default to "" and 0.0 when no answer is present |
| RagWorkflow.ConversationCarriesOver | app/services/rag_workflow.py:204-228 | on a thread the next run starts from the previous history plus the previous exchange; a failed run saves nothing |
| RagWorkflow.Workflow.Run | app/services/rag_workflow.py:204-243 | history loaded only for a non-empty thread id with a checkpointer; the graph's failure propagates; the state saved only after success; the response shaped from the final state |
| Api.Served | app/main.py:246-251 | a failure becomes status 500 with the endpoint's prefix and the error text; a success is returned as is |
| Api.AllowedAreSupported | app/main.py:164 | the endpoint's extensions are exactly the loader's types |
| Api.MaxUploadBytesValue | app/main.py:174 | the size limit is 52428800 bytes |
| Api.CheckUpload | app/main.py:164-183 | accepted exactly for an allowed lower-cased suffix and a size within the limit; a bad type gives 400 whatever the size, then an oversize gives 413 |
| Api.UploadLimitInclusive | app/main.py:174-183 | a file of exactly the limit is accepted and one byte more is refused with 413 |
| Api.UploadIgnoresCase | app/main.py:165 | the checks give the same verdict for a name and its lower-cased form |
| Api.StoragePathKeepsName | app/main.py:186-193 | the saved path `documents/<filename>` has the upload's name and type |
| Api.AcceptedUploadLoads | app/main.py:186-193 | an upload past the checks always loads |
| Api.App.constructor | app/main.py:55-63 | the documents directory starts empty, the processor starts with the default sizes (1000 and 200), and the services are those startup created, any of them possibly missing |
| Api.App.UploadDocument | app/main.py:162-215 | a refused upload answers 400 or 413 and changes nothing; an accepted one is saved in every case, then chunked and added; it answers with the chunk count, or a 500 `Error processing document: ...` without a vector store or when adding the chunks fails, the store then unchanged |
| Api.App.Ingest | app/main.py:193-215 | the saved file's chunks are added and counted; a missing store or a failing add gives a 500 with the endpoint's prefix and the error text, and a failed add leaves the store unchanged |
| Api.App.AddUploadChunks | app/main.py:195-215 | without a vector store, a 500 naming `add_documents`; with chunks and a failing add, a 500 `Error processing document: <error>` and the records unchanged; otherwise the chunk count, with the chunks added when there are any |
| Api.EffectiveTopK | app/main.py:230 | a missing or zero top_k becomes 5; any other is kept |
| Api.ValidRequestTopKInRange | app/main.py:230 | a validated request retrieves between 1 and 20 documents |
| Api.App.QueryChatbot | app/main.py:224-251 | an invalid request gets 422; otherwise the workflow runs with the defaulted top_k; its failure becomes a 500 |
| Api.ConversationAppend | app/main.py:262-269 | the filter keeps order: filtering a concatenation concatenates the filtered parts |
| Api.ConversationKeepsAll | app/main.py:262-269 | nothing is dropped exactly when every entry is a dict with a role and a content |
| Api.ExchangeShown | app/main.py:262-269 | after a run's exchange the history shows the user's and the assistant's message last |
| Api.FilterMessages | app/main.py:262-269 | the loop keeps exactly the specification messages |
| Api.App.GetConversationHistory | app/main.py:257-282 | the stored history filtered, with total_messages its length |
| Api.App.DeleteConversation | app/main.py:288-303 | the thread removed and its count reported; a database failure becomes a 500 |
| Api.App.GetStats | app/main.py:309-322 | the vector store's statistics; a 500 without a store or when the count fails, with the error's text |
| Api.HealthyIff | app/main.py:146-147 | the status is "healthy" exactly when all three services are up |
| Api.App.HealthCheck | app/main.py:117-153 | one flag per service: the store exists and counts; the checkpointer exists and answers the ping; the workflow exists; status healthy exactly when all hold, else degraded; the details hold the statistics or the `chromadb_error` text, plus the `mongodb_error` text exactly when the database probe fails |

## Left out

- Embeddings and the nearest-neighbour search are the abstract `Engine` function. Chroma's order, its `n_results` handling and the search's `where` filter are not modelled.
- The Groq and Ollama clients are abstract `Backend` functions returning parsed JSON. The network, temperature, token limits and JSON decoding are not modelled.
- PDF and DOCX parsing are inputs: the page texts and paragraph texts. File encoding is not modelled.
- Real arithmetic stands for floating point, in the score `1 / (1 + d)` and in confidence values.
  - `ToFloat` parses decimal strings only: no exponents, `inf` or `nan`.
- `Lower` lower-cases the ASCII letters only. `Strip` and `Blank` follow Python's `str.isspace` set.
- Timestamps are left out or passed in as strings: `processed_at`, the checkpoint timestamp, and the response and message timestamps.
  - The "latest document" sort of the checkpointer is not modelled, because one upsert per thread keeps one document per thread.
- Pickling is the identity on states.
- The singleton getters, startup and shutdown, `close`, the root endpoint, logging and CORS are not modelled. They only create, log or release resources.
- History entries are dictionaries of strings. An entry with a `role` or `content` that is not a string, which the message model would refuse, is not modelled.
- The application's services are constructor arguments that may be absent. An absent service gives the AttributeError text the endpoint reports.
- Api.App.UploadDocument: the 400 detail omits the rendering of the allowed-extension set. Python prints that set in hash order, which varies between runs.
- Api.App.UploadDocument: `Path` normalisation of the saved path (`..`, `//`, an absolute upload name) is not modelled.
- DocumentProcessor.Processor.ProcessDocument: the `filename` metadata is the text after the last "/". `Path(p).name` also drops trailing slashes and collapses `//` and `.` parts, which is not modelled.
- Schemas.NewSourceDocument: metadata values are strings, integers and booleans only. A float or None value, such as a `page` of 3.0, is not modelled, so pydantic's coercion of an integral float to an int is not stated; rendering one would need Python's `str(float)`.
- Api.App.UploadDocument: a loader exception on a corrupt file is not modelled. Loading is total in the model, so an accepted upload never gives a 500 from loading.
- Api.Describe gives approximate `str(e)` texts for errors raised by the driver or by pydantic. The texts of errors the code raises itself are exact.
- Api.App.QueryChatbot answers 422 with a fixed detail. FastAPI's field-by-field validation report is not modelled.
- DocumentProcessor.Processor.ChunkText requires the progress guard `Advances`. Without it the source loops forever on some inputs (see Findings), which a terminating model cannot express.
  - The same guard is required by `ProcessDocument` and by the windowing functions.
  - The default sizes satisfy it (`DocumentProcessor.DefaultsAdvance`).
- VectorStore.Store.DeleteByFilename, VectorStore.Store.ResetCollection: a failing `get`, `delete`, `delete_collection` or `create_collection` call is not modelled. No endpoint calls either operation, so no status depends on it.
- VectorStore.Store.AddDocuments: a failing add is taken to store nothing. Chroma's partial writes within one batch are not modelled.
- VectorStore.Store.AddDocuments: an id already present keeps its old record, and Chroma's handling of ids repeated within one batch is not modelled.

## Findings

| source | as written | input that shows it | evidently intended | confidence | as-written member | corrected member |
|---|---|---|---|---|---|---|
| app/services/document_processor.py:172 | `start = end - chunk_overlap` with no check of the overlap against the chunk size or against the break rule | chunk_size 10, chunk_overlap 7, text "aaaaaa.aaaaaaa": the first window is cut after the '.', ends at 7, and the next start is 0 again, so the loop never ends; with chunk_overlap >= chunk_size the start can never increase, since every window ends at most chunk_size after its start, so the loop never terminates on any non-empty text | every window moves the start forward, which holds exactly when chunk_overlap < chunk_size and chunk_overlap <= chunk_size / 2 + 1 | not executed | DocumentProcessor.StallsWithoutGuard | DocumentProcessor.AdvancesGuaranteesProgress |
