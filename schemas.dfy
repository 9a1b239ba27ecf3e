/** The request and answer models and their field constraints. */
module Schemas {
  import opened Common

  /** A chat request as the query endpoint receives it. */
  datatype QueryRequest = QueryRequest(
    query: string,
    threadId: Option<string>,
    llmProvider: Option<string>,
    topK: Option<int>)

  /** The request passes validation: a query of at least one character and, when given,
      1 <= top_k <= 20. The provider is any string. */
  predicate ValidQueryRequest(r: QueryRequest) {
    |r.query| >= 1 && (r.topK.Some? ==> 1 <= r.topK.value <= 20)
  }

  /** The empty query is refused while a query of blanks is admitted. */
  lemma QueryMinLength(q: string, threadId: Option<string>, provider: Option<string>)
    ensures !ValidQueryRequest(QueryRequest("", threadId, provider, None))
    ensures q != [] ==> ValidQueryRequest(QueryRequest(q, threadId, provider, None))
  {
  }

  datatype StructuredAnswer = StructuredAnswer(answer: string, confidence: real, sourcesUsed: seq<string>)

  predicate ValidConfidence(c: real) { 0.0 <= c <= 1.0 }

  /** The StructuredAnswer constructor: it raises a validation error unless 0 <= confidence <= 1;
      sources_used defaults to the empty list. */
  function NewStructuredAnswer(answer: string, confidence: real, sourcesUsed: Option<seq<string>>): (r: Result<StructuredAnswer>)
    ensures r.Success? <==> ValidConfidence(confidence)
    ensures r.Failure? ==> r.error == ValidationError("StructuredAnswer")
    ensures r.Success? ==> r.value.answer == answer && r.value.confidence == confidence
    ensures r.Success? ==> r.value.sourcesUsed == (if sourcesUsed.Some? then sourcesUsed.value else [])
  {
    if ValidConfidence(confidence) then
      Success(StructuredAnswer(answer, confidence, match sourcesUsed case Some(s) => s case None => []))
    else Failure(ValidationError("StructuredAnswer"))
  }

  datatype SourceDocument = SourceDocument(content: string, filename: string, page: Option<int>, score: real)

  /** The SourceDocument constructor on loosely typed metadata: the filename must be a string,
      the page is absent or coerces to an integer (an int, a bool, or a numeric string). */
  function NewSourceDocument(content: string, filename: Value, page: Option<Value>, score: real): (r: Result<SourceDocument>)
    ensures r.Success? <==> filename.VStr? && (page.None? || !page.value.VStr? || ParseInt(page.value.s).Some?)
    ensures r.Success? ==> r.value.content == content && r.value.filename == filename.s && r.value.score == score
    ensures r.Success? ==> (r.value.page.None? <==> page.None?)
    ensures r.Success? && page.Some? && page.value.VInt? ==> r.value.page == Some(page.value.i)
  {
    if !filename.VStr? then Failure(ValidationError("SourceDocument"))
    else match page
      case None => Success(SourceDocument(content, filename.s, None, score))
      case Some(VInt(p)) => Success(SourceDocument(content, filename.s, Some(p), score))
      case Some(VBool(b)) => Success(SourceDocument(content, filename.s, Some(if b then 1 else 0), score))
      case Some(VStr(t)) =>
        match ParseInt(t)
        case None => Failure(ValidationError("SourceDocument"))
        case Some(p) => Success(SourceDocument(content, filename.s, Some(p), score))
  }
}
