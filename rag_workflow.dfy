/** The question-answering workflow: four stages over a state (query cleaning, retrieval,
    context assembly, generation), run between an optional history load and save. */
module RagWorkflow {
  import opened Common
  import opened Schemas
  import opened VectorStore
  import opened LlmService
  import opened WorkflowState
  import Checkpointer

  // ---------------------------------------------------------------------------
  // Query cleaning

  /** process_query: the query is stripped; every other field is kept. */
  function ProcessQuery(s: RagState): (r: RagState)
    ensures r.query == Strip(s.query)
    ensures r.(query := s.query) == s
  {
    s.(query := Strip(s.query))
  }

  /** Cleaning twice is cleaning once. */
  lemma ProcessQueryIdempotent(s: RagState)
    ensures ProcessQuery(ProcessQuery(s)) == ProcessQuery(s)
  {
    StripIdempotent(s.query);
  }

  /** A query of blanks becomes the empty query, which the workflow does not reject. */
  lemma BlankQueryBecomesEmpty(s: RagState)
    ensures ProcessQuery(s).query == "" <==> Blank(s.query)
  {
    StripEmpty(s.query);
  }

  // ---------------------------------------------------------------------------
  // Retrieval

  /** retrieve_documents: the stored top_k is passed to search; only the results change. */
  function RetrieveDocuments(records: VectorStore.Collection, engine: Engine, s: RagState): (r: Result<RagState>)
    ensures r.Success? ==> r.value.(retrievedDocs := s.retrievedDocs) == s
    ensures r.Success? <==> engine(records, s.query, s.topK, None).Success? && Hits(engine(records, s.query, s.topK, None).value).Success?
    ensures r.Success? ==> Success(r.value.retrievedDocs) == Hits(engine(records, s.query, s.topK, None).value)
  {
    match engine(records, s.query, s.topK, None)
    case Failure(e) => Failure(e)
    case Success(answer) =>
      match Hits(answer)
      case Failure(e) => Failure(e)
      case Success(hits) => Success(s.(retrievedDocs := hits))
  }

  // ---------------------------------------------------------------------------
  // Context

  const NoDocuments: string := "No relevant documents found."

  /** The filename shown for a result: its metadata's filename, or "Unknown". */
  function ResultFilename(h: SearchHit): string {
    Render(Get(h.metadata, "filename", VStr("Unknown")))
  }

  /** The part for the i-th result, counting from 1. */
  function SourcePart(i: nat, h: SearchHit): string {
    "[Source " + NatToString(i) + ": " + ResultFilename(h) + "]\n" + h.content + "\n"
  }

  function Parts(docs: seq<SearchHit>): (parts: seq<string>)
    ensures |parts| == |docs|
    ensures forall k | 0 <= k < |docs| :: parts[k] == SourcePart(k + 1, docs[k])
  {
    seq(|docs|, k requires 0 <= k < |docs| => SourcePart(k + 1, docs[k]))
  }

  /** The context: the sentinel for no results, otherwise the numbered parts joined by newlines. */
  function Context(docs: seq<SearchHit>): string {
    if docs == [] then NoDocuments else Join("\n", Parts(docs))
  }

  /** The sentinel appears exactly when nothing was retrieved; otherwise the context opens with
      the first source and contains every source's part in order of numbering. */
  lemma ContextShape(docs: seq<SearchHit>)
    ensures Context(docs) == NoDocuments <==> docs == []
    ensures docs != [] ==> var c, p := Context(docs), SourcePart(1, docs[0]); |p| <= |c| && c[..|p|] == p
    ensures forall k | 0 <= k < |docs| :: IsSubstring(SourcePart(k + 1, docs[k]), Context(docs))
  {
    if docs != [] {
      var parts := Parts(docs);
      JoinStartsWithFirst("\n", parts);
      assert Context(docs)[0] == '[' != NoDocuments[0];
      forall k | 0 <= k < |docs|
        ensures IsSubstring(SourcePart(k + 1, docs[k]), Context(docs))
      {
        JoinContains("\n", parts, k);
      }
    }
  }

  /** format_context: the parts are collected in a loop, then joined. */
  method FormatContext(s: RagState) returns (r: RagState)
    ensures r == s.(context := Context(s.retrievedDocs))
  {
    var docs := s.retrievedDocs;
    var context: string;
    if docs == [] {
      context := NoDocuments;
    } else {
      var contextParts: seq<string> := [];
      for i := 0 to |docs|
        invariant |contextParts| == i
        invariant forall k | 0 <= k < i :: contextParts[k] == SourcePart(k + 1, docs[k])
      {
        var doc := docs[i];
        var filename := Get(doc.metadata, "filename", VStr("Unknown"));
        var content := doc.content;
        contextParts := contextParts + ["[Source " + NatToString(i + 1) + ": " + Render(filename) + "]\n" + content + "\n"];
      }
      assert contextParts == Parts(docs);
      context := Join("\n", contextParts);
    }
    r := s.(context := context);
  }

  // ---------------------------------------------------------------------------
  // Generation

  /** The history copy with the user's query and the assistant's answer appended. */
  function AppendExchange(history: seq<Item>, query: string, answer: string): (r: seq<Item>)
    ensures |r| == |history| + 2
    ensures r[..|history|] == history
    ensures r[|history|] == Msg("user", query) && r[|history| + 1] == Msg("assistant", answer)
  {
    history + [Msg("user", query), Msg("assistant", answer)]
  }

  /** generate_answer: the generator's failure propagates; otherwise the answer is stored and the
      exchange appended to the history, nothing else changing. */
  function GenerateAnswer(service: Service, groq: Backend, ollama: Backend, s: RagState): (r: Result<RagState>)
    ensures var a := Generate(service, s.query, s.context, Some(s.conversationHistory), s.llmProvider, groq, ollama);
      && (r.Success? <==> a.result.Success?)
      && (r.Failure? ==> r.error == a.result.error)
      && (r.Success? ==>
            && r.value.answer == Some(a.result.value)
            && r.value.conversationHistory == AppendExchange(s.conversationHistory, s.query, a.result.value.answer)
            && r.value.(answer := s.answer, conversationHistory := s.conversationHistory) == s)
  {
    var a := Generate(service, s.query, s.context, Some(s.conversationHistory), s.llmProvider, groq, ollama);
    match a.result
    case Failure(e) => Failure(e)
    case Success(answer) =>
      Success(s.(answer := Some(answer), conversationHistory := AppendExchange(s.conversationHistory, s.query, answer.answer)))
  }

  // ---------------------------------------------------------------------------
  // The graph and the response

  /** The state run starts from: the loaded history, "default" for a missing thread. */
  function InitialState(query: string, history: seq<Item>, threadId: Option<string>, llmProvider: Option<string>, topK: int): RagState {
    RagState(query, [], "", None, history, if Truthy(threadId) then threadId.value else "default", llmProvider, topK)
  }

  /** The four stages in order; the first failure ends the run. */
  function Graph(records: VectorStore.Collection, engine: Engine, service: Service, groq: Backend, ollama: Backend,
                 s: RagState): Result<RagState> {
    var cleaned := ProcessQuery(s);
    match RetrieveDocuments(records, engine, cleaned)
    case Failure(e) => Failure(e)
    case Success(retrieved) =>
      GenerateAnswer(service, groq, ollama, retrieved.(context := Context(retrieved.retrievedDocs)))
  }

  /** A completed run has the stripped query, the context of its results, an answer, the
      history extended by exactly this exchange, and the thread, provider and top_k it began with. */
  lemma GraphOutcome(records: VectorStore.Collection, engine: Engine, service: Service, groq: Backend, ollama: Backend,
                     s: RagState)
    requires Graph(records, engine, service, groq, ollama, s).Success?
    ensures var f := Graph(records, engine, service, groq, ollama, s).value;
      && f.query == Strip(s.query)
      && f.context == Context(f.retrievedDocs)
      && f.answer.Some?
      && f.conversationHistory == AppendExchange(s.conversationHistory, Strip(s.query), f.answer.value.answer)
      && f.threadId == s.threadId && f.llmProvider == s.llmProvider && f.topK == s.topK
  {
  }

  /** One source per result: the content cut to 500 characters, the filename or "Unknown", the
      page when present, the score. */
  function SourceOf(h: SearchHit): Result<SourceDocument> {
    NewSourceDocument(Take(h.content, 500), Get(h.metadata, "filename", VStr("Unknown")), GetOpt(h.metadata, "page"), h.score)
  }

  function Sources(docs: seq<SearchHit>): Result<seq<SourceDocument>> {
    if docs == [] then Success([])
    else match SourceOf(docs[0])
      case Failure(e) => Failure(e)
      case Success(first) =>
        match Sources(docs[1..])
        case Failure(e) => Failure(e)
        case Success(rest) => Success([first] + rest)
  }

  /** The sources line up with the results: same number, same order, each built from its result;
      the list fails exactly when some result's metadata fails validation. */
  lemma {:induction false} SourcesShape(docs: seq<SearchHit>)
    ensures Sources(docs).Success? <==> forall k | 0 <= k < |docs| :: SourceOf(docs[k]).Success?
    ensures Sources(docs).Success? ==>
      var v := Sources(docs).value;
      && |v| == |docs|
      && forall k | 0 <= k < |docs| ::
           && SourceOf(docs[k]).Success? && v[k] == SourceOf(docs[k]).value
           && v[k].content == Take(docs[k].content, 500)
           && v[k].score == docs[k].score
           && (v[k].page.None? <==> "page" !in docs[k].metadata)
  {
    if docs != [] {
      SourcesShape(docs[1..]);
      if Sources(docs).Success? {
        var v := Sources(docs).value;
        forall k | 0 <= k < |docs|
          ensures SourceOf(docs[k]).Success? && v[k] == SourceOf(docs[k]).value
        {
          if k > 0 {
            assert docs[1..][k - 1] == docs[k];
          }
        }
      }
      if forall k | 0 <= k < |docs| :: SourceOf(docs[k]).Success? {
        forall k | 0 <= k < |docs[1..]|
          ensures SourceOf(docs[1..][k]).Success?
        {
          assert docs[1..][k] == docs[k + 1];
        }
      }
    }
  }

  /** _format_sources: the loop over the results. */
  method FormatSources(docs: seq<SearchHit>) returns (r: Result<seq<SourceDocument>>)
    ensures r == Sources(docs)
  {
    var sources: seq<SourceDocument> := [];
    assert docs[0..] == docs;
    assert Sources(docs) == match Sources(docs[0..]) case Failure(e) => Failure(e) case Success(rest) => Success([] + rest) by {
      match Sources(docs)
      case Failure(e) =>
      case Success(rest) => assert [] + rest == rest;
    }
    for i := 0 to |docs|
      invariant Sources(docs) == match Sources(docs[i..]) case Failure(e) => Failure(e) case Success(rest) => Success(sources + rest)
    {
      var doc := docs[i];
      assert docs[i..][0] == doc && docs[i..][1..] == docs[i + 1..];
      var source := NewSourceDocument(Take(doc.content, 500), Get(doc.metadata, "filename", VStr("Unknown")),
                                      GetOpt(doc.metadata, "page"), doc.score);
      if source.Failure? {
        return Failure(source.error);
      }
      match Sources(docs[i + 1..])
      case Failure(e) =>
      case Success(rest) => AppendAssociative(sources, [source.value], rest);
      sources := sources + [source.value];
    }
    assert docs[|docs|..] == [];
    assert sources + [] == sources;
    r := Success(sources);
  }

  /** The response of run: the cleaned query, the answer and confidence with their defaults, the
      sources, and the thread id as the caller gave it. */
  datatype Response = Response(query: string, answer: string, confidence: real, sources: seq<SourceDocument>,
                               threadId: Option<string>)

  function ResponseOf(final: RagState, threadId: Option<string>): Result<Response> {
    match Sources(final.retrievedDocs)
    case Failure(e) => Failure(e)
    case Success(sources) =>
      Success(Response(
        final.query,
        if final.answer.Some? then final.answer.value.answer else "",
        if final.answer.Some? then final.answer.value.confidence else 0.0,
        sources,
        threadId))
  }

  /** The history a run starts from: loaded only for a non-empty thread id with a checkpointer,
      and [] when nothing is stored. */
  function StartHistory(docs: Checkpointer.Collection, threadId: Option<string>, hasCheckpointer: bool, loadOk: bool): seq<Item> {
    if Truthy(threadId) && hasCheckpointer && loadOk then
      match Checkpointer.Loaded(docs, threadId.value)
      case Some(previous) => previous.conversationHistory
      case None => []
    else []
  }

  /** The checkpointer's documents after a run: saved only for a non-empty thread id after the
      graph completed. */
  function AfterRun(docs: Checkpointer.Collection, threadId: Option<string>, saveOk: bool, graph: Result<RagState>): Checkpointer.Collection {
    if graph.Success? && Truthy(threadId) && saveOk then Checkpointer.Saved(docs, threadId.value, graph.value) else docs
  }

  /** Two turns on one thread: the second starts from the first's history extended by the first
      exchange; a failed turn saves nothing. */
  lemma ConversationCarriesOver(docs: Checkpointer.Collection, threadId: string, records: VectorStore.Collection, engine: Engine,
                                service: Service, groq: Backend, ollama: Backend, query: string, llmProvider: Option<string>, topK: int)
    requires threadId != ""
    ensures var s0 := InitialState(query, StartHistory(docs, Some(threadId), true, true), Some(threadId), llmProvider, topK);
      var g := Graph(records, engine, service, groq, ollama, s0);
      var after := AfterRun(docs, Some(threadId), true, g);
      && (g.Failure? ==> after == docs)
      && (g.Success? ==>
            StartHistory(after, Some(threadId), true, true)
            == AppendExchange(s0.conversationHistory, Strip(query), g.value.answer.value.answer))
  {
    var s0 := InitialState(query, StartHistory(docs, Some(threadId), true, true), Some(threadId), llmProvider, topK);
    var g := Graph(records, engine, service, groq, ollama, s0);
    if g.Success? {
      GraphOutcome(records, engine, service, groq, ollama, s0);
      Checkpointer.LoadAfterSave(docs, threadId, g.value);
    }
  }

  /** The response of a completed run: it exists exactly when every result makes a valid source,
      and then holds the cleaned query, the generated answer with a confidence in [0, 1], one
      source per result, and the caller's thread id. */
  lemma ResponseOfGraph(records: VectorStore.Collection, engine: Engine, service: Service, groq: Backend, ollama: Backend,
                        s: RagState, threadId: Option<string>)
    requires Graph(records, engine, service, groq, ollama, s).Success?
    ensures var f := Graph(records, engine, service, groq, ollama, s).value;
      var r := ResponseOf(f, threadId);
      && (r.Success? <==> forall k | 0 <= k < |f.retrievedDocs| :: SourceOf(f.retrievedDocs[k]).Success?)
      && (r.Success? ==>
            && r.value.query == Strip(s.query)
            && f.answer.Some? && r.value.answer == f.answer.value.answer
            && 0.0 <= r.value.confidence <= 1.0
            && |r.value.sources| == |f.retrievedDocs|
            && r.value.threadId == threadId)
  {
    var f := Graph(records, engine, service, groq, ollama, s).value;
    GraphOutcome(records, engine, service, groq, ollama, s);
    SourcesShape(f.retrievedDocs);
    var retrieved := RetrieveDocuments(records, engine, ProcessQuery(s)).value;
    var st := retrieved.(context := Context(retrieved.retrievedDocs));
    GenerateConfidenceValid(service, st.query, st.context, Some(st.conversationHistory), st.llmProvider, groq, ollama);
  }

  /** The response dict of run. */
  method Respond(result: RagState, threadId: Option<string>) returns (r: Result<Response>)
    ensures r == ResponseOf(result, threadId)
  {
    var sources := FormatSources(result.retrievedDocs);
    if sources.Failure? {
      return Failure(sources.error);
    }
    r := Success(Response(
      result.query,
      if result.answer.Some? then result.answer.value.answer else "",
      if result.answer.Some? then result.answer.value.confidence else 0.0,
      sources.value,
      threadId));
  }

  class Workflow {
    const checkpointer: Checkpointer.Store?
    const store: VectorStore.Store
    const service: Service
    const groq: Backend
    const ollama: Backend
    const engine: Engine

    constructor (checkpointer: Checkpointer.Store?, store: VectorStore.Store, service: Service,
                 groq: Backend, ollama: Backend, engine: Engine)
      ensures this.checkpointer == checkpointer && this.store == store && this.service == service
      ensures this.groq == groq && this.ollama == ollama && this.engine == engine
    {
      this.checkpointer := checkpointer;
      this.store := store;
      this.service := service;
      this.groq := groq;
      this.ollama := ollama;
      this.engine := engine;
    }

    /** The compiled graph: the four stages in order. */
    method Invoke(initialState: RagState) returns (g: Result<RagState>)
      ensures g == Graph(store.records, engine, service, groq, ollama, initialState)
    {
      var state := ProcessQuery(initialState);
      var results := store.Search(state.query, Some(state.topK), None, engine);
      if results.Failure? {
        return Failure(results.error);
      }
      state := state.(retrievedDocs := results.value);
      state := FormatContext(state);
      g := GenerateAnswer(service, groq, ollama, state);
    }

    /** run: load the history, run the graph, save on success, shape the response. `loadOk` and
        `saveOk` stand for whether the database operations go through. */
    method Run(query: string, threadId: Option<string>, llmProvider: Option<string>, topK: int, loadOk: bool, saveOk: bool)
      returns (r: Result<Response>)
      modifies checkpointer
      ensures var history := StartHistory(if checkpointer != null then old(checkpointer.docs) else map[], threadId,
                                          checkpointer != null, loadOk);
        var g := Graph(store.records, engine, service, groq, ollama, InitialState(query, history, threadId, llmProvider, topK));
        && r == (match g case Failure(e) => Failure(e) case Success(final) => ResponseOf(final, threadId))
        && (checkpointer != null ==> checkpointer.docs == AfterRun(old(checkpointer.docs), threadId, saveOk, g))
    {
      var conversationHistory: seq<Item> := [];
      if Truthy(threadId) && checkpointer != null {
        var previousState := checkpointer.LoadState(threadId.value, loadOk);
        if previousState.Some? {
          conversationHistory := previousState.value.conversationHistory;
        }
      }
      var initialState := InitialState(query, conversationHistory, threadId, llmProvider, topK);

      var generated := Invoke(initialState);
      if generated.Failure? {
        return Failure(generated.error);
      }
      var result := generated.value;

      if Truthy(threadId) && checkpointer != null {
        var _ := checkpointer.SaveState(threadId.value, result, saveOk);
      }
      r := Respond(result, threadId);
    }
  }
}
