/** The HTTP endpoints: the upload checks, the query call with its top_k default, the history
    filter, thread deletion, statistics and the health rule. Each endpoint maps an exception to
    an error status and detail text. */
module Api {
  import opened Common
  import Config
  import opened Schemas
  import opened DocumentProcessor
  import VectorStore
  import Checkpointer
  import opened RagWorkflow

  /** What an endpoint answers: a response body, or an error status with its detail text. */
  datatype HttpResult<+T> = Ok(value: T) | HttpError(status: int, detail: string)

  /** str(e) for the exceptions the model distinguishes. */
  function Describe(e: Error): string {
    match e
    case ValueError(m) => m
    case TypeError(m) => m
    case IndexError => "list index out of range"
    case ZeroDivisionError => "float division by zero"
    case ValidationError(model) => "validation error for " + model
    case BackendError(m) => m
    case StoreError => "database unavailable"
  }

  /** str(e) of the AttributeError raised when a service was never initialised. */
  function NoneAttribute(name: string): string {
    "'NoneType' object has no attribute '" + name + "'"
  }

  /** An endpoint's `except Exception`: a failure becomes status 500 with the prefix. */
  function Served<T>(r: Result<T>, prefix: string): (h: HttpResult<T>)
    ensures r.Success? <==> h.Ok?
    ensures r.Success? ==> h.value == r.value
    ensures r.Failure? ==> h.status == 500 && h.detail == prefix + Describe(r.error)
  {
    match r
    case Success(v) => Ok(v)
    case Failure(e) => HttpError(500, prefix + Describe(e))
  }

  // ---------------------------------------------------------------------------
  // Upload

  const AllowedExtensions: set<string> := {".pdf", ".txt", ".docx", ".md"}

  const MaxUploadBytes: int := Config.MaxUploadSizeMb * 1024 * 1024

  /** The endpoint accepts exactly the types the processor can load. */
  lemma AllowedAreSupported()
    ensures AllowedExtensions == SupportedTypes
  {
  }

  /** The limit is fifty binary megabytes. */
  lemma MaxUploadBytesValue()
    ensures MaxUploadBytes == 52428800
  {
  }

  datatype Verdict = Accept | Reject(status: int, detail: string)

  /** The upload checks in order: the lower-cased suffix first (400), then the size (413). */
  function CheckUpload(filename: string, size: int): (v: Verdict)
    ensures v.Accept? <==> FileType(filename) in AllowedExtensions && size <= MaxUploadBytes
    ensures FileType(filename) !in AllowedExtensions ==>
      v == Reject(400, "Unsupported file type: " + FileType(filename))
    ensures FileType(filename) in AllowedExtensions && size > MaxUploadBytes ==>
      v == Reject(413, "File too large. Max size: " + IntToString(Config.MaxUploadSizeMb) + "MB")
  {
    var extension := FileType(filename);
    if extension !in AllowedExtensions then
      Reject(400, "Unsupported file type: " + extension)
    else if size > MaxUploadBytes then
      Reject(413, "File too large. Max size: " + IntToString(Config.MaxUploadSizeMb) + "MB")
    else Accept
  }

  /** A file of exactly the limit is accepted and one byte more is refused; an unsupported type
      is refused with 400 whatever its size. */
  lemma UploadLimitInclusive(filename: string, size: int)
    ensures FileType(filename) in AllowedExtensions ==> CheckUpload(filename, MaxUploadBytes) == Accept
    ensures FileType(filename) in AllowedExtensions ==> CheckUpload(filename, MaxUploadBytes + 1).status == 413
    ensures FileType(filename) !in AllowedExtensions ==> CheckUpload(filename, size).status == 400
  {
  }

  /** The checks ignore the case of the name. */
  lemma UploadIgnoresCase(filename: string, size: int)
    ensures CheckUpload(Lower(filename), size) == CheckUpload(filename, size)
  {
    FileTypeIgnoresCase(filename);
  }

  /** Where the upload is saved: `documents/<filename>`. */
  function StoragePath(filename: string): string {
    "documents/" + filename
  }

  /** The saved copy has the uploaded file's name, so the type the processor dispatches on is the
      one the endpoint checked. */
  lemma {:induction false} StoragePathKeepsName(filename: string)
    ensures BaseName(StoragePath(filename)) == BaseName(filename)
    ensures FileType(StoragePath(filename)) == FileType(filename)
  {
    var s := StoragePath(filename);
    var i := RFind(filename, '/');
    if i >= 0 {
      RFindAt(s, '/', 10 + i);
      assert s[10 + i + 1..] == filename[i + 1..];
    } else {
      RFindAt(s, '/', 9);
      assert s[10..] == filename;
    }
  }

  /** An upload past the checks always loads: its type is one the processor supports. */
  lemma AcceptedUploadLoads(filename: string, file: FileContents, size: int)
    requires CheckUpload(filename, size) == Accept
    ensures LoadDocument(StoragePath(filename), file).Success?
  {
    StoragePathKeepsName(filename);
  }

  /** The chunks an accepted upload produces. */
  function UploadChunks(filename: string, file: FileContents, processedAt: string, chunkSize: int, chunkOverlap: int): seq<DocumentChunk>
    requires Advances(chunkSize, chunkOverlap)
  {
    match LoadDocument(StoragePath(filename), file)
    case Failure(_) => []
    case Success(content) => Chunks(content, DocumentMetadata(StoragePath(filename), processedAt, None), chunkSize, chunkOverlap)
  }

  /** The detail of the upload endpoint's 500: its prefix and str(e). */
  function ProcessingError(text: string): string {
    "Error processing document: " + text
  }

  datatype UploadResponse = UploadResponse(success: bool, message: string, filename: string, chunksCreated: int,
                                           documentId: Option<string>)

  const UploadedMessage := "Document uploaded and processed successfully"

  // ---------------------------------------------------------------------------
  // Query

  /** `request.top_k or settings.top_k_results`: a missing or zero top_k takes the configured 5. */
  function EffectiveTopK(topK: Option<int>): (k: int)
    ensures topK.None? || topK.value == 0 ==> k == Config.TopKResults
    ensures topK.Some? && topK.value != 0 ==> k == topK.value
  {
    OrDefault(topK, Config.TopKResults)
  }

  /** A request that passed validation asks for between 1 and 20 documents. */
  lemma ValidRequestTopKInRange(request: QueryRequest)
    requires ValidQueryRequest(request)
    ensures 1 <= EffectiveTopK(request.topK) <= 20
  {
  }

  // ---------------------------------------------------------------------------
  // History

  datatype ConversationMessage = ConversationMessage(role: string, content: string)

  datatype ConversationHistory = ConversationHistory(threadId: string, messages: seq<ConversationMessage>, totalMessages: int)

  /** A history entry the endpoint can show: a dict with both a role and a content. */
  predicate IsMessage(item: Item) {
    item.Dict? && "role" in item.fields && "content" in item.fields
  }

  function ToMessage(item: Item): ConversationMessage
    requires IsMessage(item)
  {
    ConversationMessage(item.fields["role"], item.fields["content"])
  }

  /** The messages the endpoint keeps, in their stored order. */
  function Conversation(items: seq<Item>): (r: seq<ConversationMessage>)
    ensures |r| <= |items|
  {
    if items == [] then []
    else
      var last := items[|items| - 1];
      Conversation(items[..|items| - 1]) + (if IsMessage(last) then [ToMessage(last)] else [])
  }

  /** Filtering a concatenation filters each part, keeping their order. */
  lemma {:induction false} ConversationAppend(a: seq<Item>, b: seq<Item>)
    ensures Conversation(a + b) == Conversation(a) + Conversation(b)
    decreases |b|
  {
    if b == [] {
      assert a + b == a;
    } else {
      var init := b[..|b| - 1];
      ConversationAppend(a, init);
      assert (a + b)[..|a + b| - 1] == a + init;
    }
  }

  /** Nothing is dropped exactly when every entry is a message. */
  lemma {:induction false} ConversationKeepsAll(items: seq<Item>)
    ensures |Conversation(items)| == |items| <==> forall i | 0 <= i < |items| :: IsMessage(items[i])
  {
    if items != [] {
      var init := items[..|items| - 1];
      ConversationKeepsAll(init);
      assert forall i | 0 <= i < |init| :: init[i] == items[i];
      if !IsMessage(items[|items| - 1]) {
        assert |Conversation(items)| == |Conversation(init)| <= |init|;
      }
    }
  }

  /** A run's exchange shows up as the last two messages of the thread's history. */
  lemma ExchangeShown(history: seq<Item>, query: string, answer: string)
    ensures Conversation(AppendExchange(history, query, answer))
         == Conversation(history) + [ConversationMessage("user", query), ConversationMessage("assistant", answer)]
  {
    var pair := [Msg("user", query), Msg("assistant", answer)];
    ConversationAppend(history, pair);
    assert "role"[0] != "content"[0];
    assert pair[..1] == [Msg("user", query)];
    assert Conversation(pair) == [ConversationMessage("user", query), ConversationMessage("assistant", answer)];
  }

  /** The history endpoint's loop: append each dict that has a role and a content. */
  method FilterMessages(items: seq<Item>) returns (messages: seq<ConversationMessage>)
    ensures messages == Conversation(items)
  {
    messages := [];
    for i := 0 to |items|
      invariant messages == Conversation(items[..i])
    {
      var msg := items[i];
      assert items[..i + 1][..i] == items[..i];
      if msg.Dict? && "role" in msg.fields && "content" in msg.fields {
        messages := messages + [ConversationMessage(msg.fields["role"], msg.fields["content"])];
      }
    }
    assert items[..|items|] == items;
  }

  // ---------------------------------------------------------------------------
  // Deletion, statistics, health

  datatype DeleteResponse = DeleteResponse(success: bool, message: string, threadId: string, deletedCount: int)

  function DeletedMessage(count: nat, threadId: string): string {
    "Deleted " + NatToString(count) + " checkpoints for thread " + threadId
  }

  /** A value of the health report's details. */
  datatype Detail = DStats(stats: VectorStore.Stats) | DText(text: string)

  datatype HealthReport = HealthReport(status: string, services: map<string, bool>, details: map<string, Detail>)

  /** `"healthy" if all(services.values()) else "degraded"`. */
  function Status(services: map<string, bool>): string {
    if forall k | k in services :: services[k] then "healthy" else "degraded"
  }

  /** With the three probes, the status is healthy exactly when every service is up. */
  lemma HealthyIff(chromadb: bool, mongodb: bool, llm: bool)
    ensures Status(map["chromadb" := chromadb, "mongodb" := mongodb, "llm" := llm]) == "healthy"
        <==> chromadb && mongodb && llm
  {
    var services := map["chromadb" := chromadb, "mongodb" := mongodb, "llm" := llm];
    assert "chromadb"[0] != "mongodb"[0] && "chromadb"[0] != "llm"[0] && "mongodb"[0] != "llm"[0];
    assert services["chromadb"] == chromadb && services["mongodb"] == mongodb && services["llm"] == llm;
    assert "healthy"[0] != "degraded"[0];
  }

  /** What processing a saved upload answers, given its chunks, whether a vector store exists,
      the add's failure and the store's records before and after: a 500 without a store; with
      chunks and a failing add, a 500 with the add's error text and the store unchanged; otherwise
      the chunk count with the chunks added. */
  predicate IngestOutcome(r: HttpResult<UploadResponse>, filename: string, chunks: seq<DocumentChunk>, hasStore: bool,
                          addError: Option<string>, before: VectorStore.Collection, after: VectorStore.Collection)
  {
    && (!hasStore ==> r == HttpError(500, ProcessingError(NoneAttribute("add_documents"))))
    && (hasStore && chunks != [] && addError.Some? ==> r == HttpError(500, ProcessingError(addError.value)) && after == before)
    && (hasStore && (chunks == [] || addError.None?) ==>
          && r == Ok(UploadResponse(true, UploadedMessage, filename, |chunks|, Some(filename)))
          && after == (if chunks == [] then before else VectorStore.AddChunks(before, chunks)))
  }

  /** A failing add of some chunks answers the endpoint's 500 and leaves the records as they were. */
  lemma FailedAddOutcome(filename: string, chunks: seq<DocumentChunk>, text: string, before: VectorStore.Collection)
    requires chunks != []
    ensures IngestOutcome(HttpError(500, ProcessingError(text)), filename, chunks, true, Some(text), before, before)
  {
  }

  // ---------------------------------------------------------------------------
  // The application

  /** The application's services as startup leaves them: any of them may be missing, and the
      workflow shares the application's vector store and checkpointer. */
  class App {
    const processor: Processor
    const store: VectorStore.Store?
    const checkpointer: Checkpointer.Store?
    const workflow: Workflow?
    /** The documents directory: the saved uploads by path. */
    var documents: map<string, FileContents>

    predicate Valid()
      reads this
    {
      && Advances(processor.chunkSize, processor.chunkOverlap)
      && (workflow != null ==> workflow.store == store && workflow.checkpointer == checkpointer)
    }

    constructor (store: VectorStore.Store?, checkpointer: Checkpointer.Store?, workflow: Workflow?)
      requires workflow != null ==> workflow.store == store && workflow.checkpointer == checkpointer
      ensures Valid() && documents == map[]
      ensures this.store == store && this.checkpointer == checkpointer && this.workflow == workflow
      ensures processor.chunkSize == Config.ChunkSize && processor.chunkOverlap == Config.ChunkOverlap
    {
      processor := new Processor(None, None);
      this.store := store;
      this.checkpointer := checkpointer;
      this.workflow := workflow;
      documents := map[];
    }

    /** POST /upload: the type and size checks, then the file is saved, processed and added.
        `addError` is the failure of adding the chunks to the store, as for the store. */
    method UploadDocument(filename: string, file: FileContents, size: nat, processedAt: string, addError: Option<string>)
      returns (r: HttpResult<UploadResponse>)
      requires Valid()
      modifies this, store
      ensures CheckUpload(filename, size).Reject? ==>
        && r == HttpError(CheckUpload(filename, size).status, CheckUpload(filename, size).detail)
        && documents == old(documents)
        && (store != null ==> store.records == old(store.records))
      ensures CheckUpload(filename, size).Accept? ==>
        && documents == old(documents)[StoragePath(filename) := file]
        && IngestOutcome(r, filename, UploadChunks(filename, file, processedAt, processor.chunkSize, processor.chunkOverlap),
                      store != null, addError, old(if store == null then map[] else store.records),
                      if store == null then map[] else store.records)
    {
      var verdict := CheckUpload(filename, size);
      if verdict.Reject? {
        return HttpError(verdict.status, verdict.detail);
      }
      documents := documents[StoragePath(filename) := file];
      ghost var saved := documents;
      AcceptedUploadLoads(filename, file, size);
      r := Ingest(filename, file, processedAt, addError);
      assert documents == saved;
    }

    /** The saved upload is processed and its chunks added to the vector store. */
    method Ingest(filename: string, file: FileContents, processedAt: string, addError: Option<string>)
      returns (r: HttpResult<UploadResponse>)
      requires Valid() && LoadDocument(StoragePath(filename), file).Success?
      modifies store
      ensures IngestOutcome(r, filename, UploadChunks(filename, file, processedAt, processor.chunkSize, processor.chunkOverlap),
                      store != null, addError, old(if store == null then map[] else store.records),
                      if store == null then map[] else store.records)
    {
      var processed := processor.ProcessDocument(StoragePath(filename), file, processedAt, None);
      assert processed == Success(UploadChunks(filename, file, processedAt, processor.chunkSize, processor.chunkOverlap));
      r := AddUploadChunks(filename, processed.value, addError);
    }

    /** The add_documents step of the upload: the chunks go to the vector store, and a missing
        store or a failing add becomes the endpoint's 500. */
    method AddUploadChunks(filename: string, chunks: seq<DocumentChunk>, addError: Option<string>)
      returns (r: HttpResult<UploadResponse>)
      modifies store
      ensures IngestOutcome(r, filename, chunks, store != null, addError, old(if store == null then map[] else store.records),
                            if store == null then map[] else store.records)
    {
      if store == null {
        return HttpError(500, ProcessingError(NoneAttribute("add_documents")));
      }
      ghost var before := store.records;
      var added := store.AddDocuments(chunks, addError);
      if added.Failure? {
        assert Describe(added.error) == addError.value;
        r := HttpError(500, ProcessingError(Describe(added.error)));
        FailedAddOutcome(filename, chunks, addError.value, before);
        return;
      }
      r := Ok(UploadResponse(true, UploadedMessage, filename, added.value, Some(filename)));
    }

    /** POST /query: the request is validated, then the workflow runs with top_k defaulted; any
        failure becomes a 500. */
    method QueryChatbot(request: QueryRequest, loadOk: bool, saveOk: bool) returns (r: HttpResult<Response>)
      requires Valid()
      modifies checkpointer
      ensures !ValidQueryRequest(request) ==>
        r == HttpError(422, "validation error for QueryRequest") && (checkpointer != null ==> checkpointer.docs == old(checkpointer.docs))
      ensures ValidQueryRequest(request) && workflow == null ==>
        r == HttpError(500, "Error processing query: " + NoneAttribute("run")) && (checkpointer != null ==> checkpointer.docs == old(checkpointer.docs))
      ensures ValidQueryRequest(request) && workflow != null ==>
        var history := StartHistory(if checkpointer != null then old(checkpointer.docs) else map[], request.threadId,
                                    checkpointer != null, loadOk);
        var g := Graph(workflow.store.records, workflow.engine, workflow.service, workflow.groq, workflow.ollama,
                       InitialState(request.query, history, request.threadId, request.llmProvider, EffectiveTopK(request.topK)));
        && r == Served(match g case Failure(e) => Failure(e) case Success(final) => ResponseOf(final, request.threadId),
                       "Error processing query: ")
        && (checkpointer != null ==> checkpointer.docs == AfterRun(old(checkpointer.docs), request.threadId, saveOk, g))
    {
      if !ValidQueryRequest(request) {
        return HttpError(422, "validation error for QueryRequest");
      }
      if workflow == null {
        return HttpError(500, "Error processing query: " + NoneAttribute("run"));
      }
      var result := workflow.Run(request.query, request.threadId, request.llmProvider, EffectiveTopK(request.topK), loadOk, saveOk);
      if result.Failure? {
        return HttpError(500, "Error processing query: " + Describe(result.error));
      }
      r := Ok(result.value);
    }

    /** GET /history/{thread_id}: the stored messages that have a role and a content, and their
        number. */
    method GetConversationHistory(threadId: string, reachable: bool) returns (r: HttpResult<ConversationHistory>)
      requires Valid()
      ensures checkpointer == null ==>
        r == HttpError(500, "Error retrieving history: " + NoneAttribute("get_conversation_history"))
      ensures checkpointer != null ==>
        var messages := Conversation(if reachable then Checkpointer.History(checkpointer.docs, threadId) else []);
        r == Ok(ConversationHistory(threadId, messages, |messages|))
    {
      if checkpointer == null {
        return HttpError(500, "Error retrieving history: " + NoneAttribute("get_conversation_history"));
      }
      var messagesData := checkpointer.GetConversationHistory(threadId, reachable);
      var messages := FilterMessages(messagesData);
      r := Ok(ConversationHistory(threadId, messages, |messages|));
    }

    /** DELETE /history/{thread_id}: the thread's document is removed and counted. */
    method DeleteConversation(threadId: string, reachable: bool) returns (r: HttpResult<DeleteResponse>)
      requires Valid()
      modifies checkpointer
      ensures checkpointer == null ==>
        r == HttpError(500, "Error deleting conversation: " + NoneAttribute("delete_thread"))
      ensures checkpointer != null && reachable ==>
        var count := Checkpointer.DeletedCount(old(checkpointer.docs), threadId);
        && r == Ok(DeleteResponse(true, DeletedMessage(count, threadId), threadId, count))
        && checkpointer.docs == Checkpointer.Deleted(old(checkpointer.docs), threadId)
      ensures checkpointer != null && !reachable ==>
        r == HttpError(500, "Error deleting conversation: " + Describe(StoreError)) && checkpointer.docs == old(checkpointer.docs)
    {
      if checkpointer == null {
        return HttpError(500, "Error deleting conversation: " + NoneAttribute("delete_thread"));
      }
      var deleted := checkpointer.DeleteThread(threadId, reachable);
      if deleted.Failure? {
        return HttpError(500, "Error deleting conversation: " + Describe(deleted.error));
      }
      r := Ok(DeleteResponse(true, DeletedMessage(deleted.value, threadId), threadId, deleted.value));
    }

    /** GET /stats: the vector store's statistics; `countError` as for the store. */
    method GetStats(countError: Option<string>) returns (r: HttpResult<VectorStore.Stats>)
      requires Valid()
      ensures store == null ==> r == HttpError(500, "Error getting stats: " + NoneAttribute("get_collection_stats"))
      ensures store != null && countError.Some? ==> r == HttpError(500, "Error getting stats: " + countError.value)
      ensures store != null && countError.None? ==>
        r == Ok(VectorStore.Stats(store.collectionName, |store.records|, store.persistDirectory))
    {
      if store == null {
        return HttpError(500, "Error getting stats: " + NoneAttribute("get_collection_stats"));
      }
      var stats := store.GetCollectionStats(countError);
      if stats.Failure? {
        return HttpError(500, "Error getting stats: " + Describe(stats.error));
      }
      r := Ok(stats.value);
    }

    /** GET /health: one flag per service, filled in turn, and the overall status. The database
        ping and the collection's count are given by their errors, if any. */
    method HealthCheck(countError: Option<string>, pingError: Option<string>) returns (h: HealthReport)
      requires Valid()
      ensures h.services == map["chromadb" := store != null && countError.None?,
                                "mongodb" := checkpointer != null && pingError.None?,
                                "llm" := workflow != null]
      ensures h.status == "healthy" <==>
        store != null && countError.None? && checkpointer != null && pingError.None? && workflow != null
      ensures h.status != "healthy" ==> h.status == "degraded"
      ensures store != null && countError.None? ==>
        h.details == map["chromadb" := DStats(VectorStore.Stats(store.collectionName, |store.records|, store.persistDirectory))]
                     + MongoDetails(checkpointer != null, pingError)
      ensures store != null && countError.Some? ==>
        h.details == map["chromadb_error" := DText(countError.value)] + MongoDetails(checkpointer != null, pingError)
      ensures store == null ==> h.details == map["chromadb_error" := DText(NoneAttribute("get_collection_stats"))]
                                               + MongoDetails(checkpointer != null, pingError)
    {
      var services: map<string, bool> := map[];
      var details: map<string, Detail> := map[];
      if store != null {
        var stats := store.GetCollectionStats(countError);
        if stats.Success? {
          services := services["chromadb" := true];
          details := details["chromadb" := DStats(stats.value)];
        } else {
          services := services["chromadb" := false];
          details := details["chromadb_error" := DText(Describe(stats.error))];
        }
      } else {
        services := services["chromadb" := false];
        details := details["chromadb_error" := DText(NoneAttribute("get_collection_stats"))];
      }
      if checkpointer == null {
        services := services["mongodb" := false];
        details := details["mongodb_error" := DText(NoneAttribute("client"))];
      } else if pingError.Some? {
        services := services["mongodb" := false];
        details := details["mongodb_error" := DText(pingError.value)];
      } else {
        services := services["mongodb" := true];
      }
      services := services["llm" := workflow != null];
      HealthyIff(store != null && countError.None?, checkpointer != null && pingError.None?, workflow != null);
      h := HealthReport(Status(services), services, details);
    }
  }

  /** The details the database probe adds: none when the ping answers. */
  function MongoDetails(hasCheckpointer: bool, pingError: Option<string>): map<string, Detail> {
    if !hasCheckpointer then map["mongodb_error" := DText(NoneAttribute("client"))]
    else if pingError.Some? then map["mongodb_error" := DText(pingError.value)]
    else map[]
  }
}
