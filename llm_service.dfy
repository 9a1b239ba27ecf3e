/** The answer generator: prompt assembly for the Groq and Ollama backends, coercion of the
    model's JSON reply into a structured answer, and the provider dispatch with one fallback. */
module LlmService {
  import opened Common
  import Config
  import opened Schemas

  // ---------------------------------------------------------------------------
  // Replies

  /** A JSON value of the model's reply. Numbers are reals. */
  datatype Json = JNull | JBool(b: bool) | JNum(x: real) | JStr(s: string) | JList(items: seq<Json>)
                | JObj(fields: map<string, Json>)

  /** The backend call: the model name and the chat messages, giving the parsed JSON object or
      the error the client, the network or the JSON parser raised. */
  type Backend = (string, seq<Item>) -> Result<map<string, Json>>

  function FieldOr(fields: map<string, Json>, key: string, default: Json): Json {
    if key in fields then fields[key] else default
  }

  function Pow10(n: nat): (p: nat)
    ensures p >= 1
  {
    if n == 0 then 1 else 10 * Pow10(n - 1)
  }

  /** The value of "d+" or "d+.d*" or ".d+", without sign. */
  function UnsignedDecimal(t: string): Option<real> {
    var dot := RFind(t, '.');
    if dot < 0 then
      if t != [] && AllDigits(t) then Some(DigitsValue(t) as real) else None
    else
      var whole, frac := t[..dot], t[dot + 1..];
      if (whole != [] || frac != []) && AllDigits(whole) && AllDigits(frac) then
        Some(DigitsValue(whole) as real + DigitsValue(frac) as real / Pow10(|frac|) as real)
      else None
  }

  /** float(s) on a decimal string: surrounding whitespace and a sign are allowed. */
  function ParseFloat(s: string): Option<real> {
    var t := Strip(s);
    if t != [] && (t[0] == '-' || t[0] == '+') then
      match UnsignedDecimal(t[1..])
      case None => None
      case Some(v) => Some(if t[0] == '-' then -v else v)
    else UnsignedDecimal(t)
  }

  /** float(x): numbers and booleans convert, decimal strings parse, anything else raises. */
  function ToFloat(j: Json): (r: Result<real>)
    ensures j.JNum? ==> r == Success(j.x)
    ensures j.JBool? ==> r == Success(if j.b then 1.0 else 0.0)
    ensures j.JNull? || j.JList? || j.JObj? ==> r == Failure(TypeError("float"))
    ensures j.JStr? ==> (r.Success? <==> ParseFloat(j.s).Some?)
  {
    match j
    case JNum(x) => Success(x)
    case JBool(b) => Success(if b then 1.0 else 0.0)
    case JStr(s) => (if ParseFloat(s).Some? then Success(ParseFloat(s).value) else Failure(ValueError("float")))
    case JNull => Failure(TypeError("float"))
    case JList(_) => Failure(TypeError("float"))
    case JObj(_) => Failure(TypeError("float"))
  }

  predicate AllStrings(items: seq<Json>) {
    forall k | 0 <= k < |items| :: items[k].JStr?
  }

  function Strings(items: seq<Json>): (r: seq<string>)
    requires AllStrings(items)
    ensures |r| == |items| && forall k | 0 <= k < |items| :: r[k] == items[k].s
  {
    if items == [] then [] else [items[0].s] + Strings(items[1..])
  }

  /** The StructuredAnswer built from the reply: answer defaults to "", confidence to 0.5 and
      sources_used to []; confidence goes through float() first; the answer must be a string and
      the sources a list of strings. */
  function ParseAnswer(fields: map<string, Json>): Result<StructuredAnswer> {
    match ToFloat(FieldOr(fields, "confidence", JNum(0.5)))
    case Failure(e) => Failure(e)
    case Success(confidence) =>
      var answer, sources := FieldOr(fields, "answer", JStr("")), FieldOr(fields, "sources_used", JList([]));
      if !answer.JStr? || !sources.JList? || !AllStrings(sources.items) then
        Failure(ValidationError("StructuredAnswer"))
      else NewStructuredAnswer(answer.s, confidence, Some(Strings(sources.items)))
  }

  /** The empty reply takes every default. */
  lemma ParseAnswerDefaults()
    ensures ParseAnswer(map[]) == Success(StructuredAnswer("", 0.5, []))
  {
    assert ToFloat(JNum(0.5)) == Success(0.5);
    assert Strings([]) == [];
  }

  /** A well-typed reply parses exactly when its confidence lies in [0, 1], and then carries its
      fields unchanged. */
  lemma ParseAnswerWellTyped(answer: string, confidence: real, sources: seq<string>)
    ensures var fields := map["answer" := JStr(answer), "confidence" := JNum(confidence),
                              "sources_used" := JList(seq(|sources|, k requires 0 <= k < |sources| => JStr(sources[k])))];
      && (ParseAnswer(fields).Success? <==> 0.0 <= confidence <= 1.0)
      && (ParseAnswer(fields).Success? ==> ParseAnswer(fields).value == StructuredAnswer(answer, confidence, sources))
      && (ParseAnswer(fields).Failure? ==> ParseAnswer(fields).error == ValidationError("StructuredAnswer"))
  {
    var items := seq(|sources|, k requires 0 <= k < |sources| => JStr(sources[k]));
    var fields := map["answer" := JStr(answer), "confidence" := JNum(confidence), "sources_used" := JList(items)];
    assert "answer"[0] != "confidence"[0] && "answer"[0] != "sources_used"[0] && "confidence"[0] != "sources_used"[0];
    assert FieldOr(fields, "confidence", JNum(0.5)) == JNum(confidence);
    assert FieldOr(fields, "answer", JStr("")) == JStr(answer);
    assert FieldOr(fields, "sources_used", JList([])) == JList(items);
    assert AllStrings(items);
    assert Strings(items) == sources;
  }

  /** A confidence that is not a number, a boolean or a decimal string raises before validation. */
  lemma ParseAnswerBadConfidence(fields: map<string, Json>)
    requires "confidence" in fields
    requires fields["confidence"].JNull? || fields["confidence"].JList? || fields["confidence"].JObj?
    ensures ParseAnswer(fields) == Failure(TypeError("float"))
  {
  }

  // ---------------------------------------------------------------------------
  // Prompts

  const GroqSystemPrompt: string :=
    "You are a helpful AI assistant specializing in dropshipping and service points platforms. \n"
    + "Your role is to provide accurate, helpful information based on the provided context.\n\n"
    + "When answering:\n"
    + "1. Use the provided context to answer the question accurately\n"
    + "2. If the context doesn't contain enough information, say so honestly\n"
    + "3. Provide confidence score based on how well the context supports your answer\n"
    + "4. List the source filenames you used to generate the answer\n\n"
    + "Format your response as JSON with these fields:\n"
    + "- answer: Your detailed answer to the question\n"
    + "- confidence: A number between 0 and 1 indicating your confidence\n"
    + "- sources_used: List of source filenames used"

  const OllamaSystemPrompt: string :=
    "You are a helpful AI assistant specializing in dropshipping and service points platforms. \n"
    + "Provide accurate information based on the context. Format your response as JSON with: "
    + "answer, confidence (0-1), and sources_used (list)."

  const GroqContextHeader: string := "Context from documents:\n"
  const GroqClosing: string := "\n\nPlease provide a detailed answer based on the context above."
  const OllamaContextHeader: string := "Context: "
  const OllamaClosing: string := "\n\nRespond in JSON format with answer, confidence, and sources_used fields."
  const QuestionHeader: string := "\n\nQuestion: "

  /** The user turn: the header, the context, the question, the closing line. */
  function UserContent(header: string, context: string, prompt: string, closing: string): string {
    header + context + QuestionHeader + prompt + closing
  }

  /** The user turn holds the context right after its header and the question after the context. */
  lemma UserContentOrder(header: string, context: string, prompt: string, closing: string)
    ensures var u, c0 := UserContent(header, context, prompt, closing), |header|;
      var q0 := c0 + |context| + |QuestionHeader|;
      && u[..c0] == header
      && u[c0..c0 + |context|] == context
      && u[c0 + |context|..q0] == QuestionHeader
      && u[q0..q0 + |prompt|] == prompt
      && u[q0 + |prompt|..] == closing
  {
  }

  /** The chat messages: the system turn, the last six history entries, the user turn. */
  function Messages(system: string, history: Option<seq<Item>>, user: string): seq<Item> {
    [Msg("system", system)] + (if history.Some? then LastN(history.value, 6) else []) + [Msg("user", user)]
  }

  /** There are 2 + min(6, |history|) messages; the history part is its tail in order. */
  lemma MessagesShape(system: string, history: seq<Item>, user: string)
    ensures var m := Messages(system, Some(history), user);
      && |m| == 2 + Min(6, |history|)
      && m[0] == Msg("system", system) && m[|m| - 1] == Msg("user", user)
      && m[1..|m| - 1] == history[|history| - Min(6, |history|)..]
  {
    var m := Messages(system, Some(history), user);
    assert m[1..|m| - 1] == LastN(history, 6);
  }

  /** The message list built by appending, as both backends do. */
  method BuildMessages(system: string, history: Option<seq<Item>>, user: string) returns (messages: seq<Item>)
    ensures messages == Messages(system, history, user)
  {
    ghost var recent: seq<Item> := if history.Some? then LastN(history.value, 6) else [];
    var systemMessage := Msg("system", system);
    messages := [systemMessage];
    if history.Some? && history.value != [] {
      var tail := LastN(history.value, 6);
      for k := 0 to |tail|
        invariant messages == [systemMessage] + tail[..k]
      {
        messages := messages + [tail[k]];
        assert tail[..k + 1] == tail[..k] + [tail[k]];
      }
      assert tail[..|tail|] == tail;
    } else {
      assert recent == [];
    }
    var userMessage := Msg("user", user);
    messages := messages + [userMessage];
  }

  // ---------------------------------------------------------------------------
  // The service

  /** The service's settings after construction: the provider, whether a Groq client exists, and
      the Ollama model name. */
  datatype Service = Service(provider: string, hasGroqClient: bool, ollamaModel: string)

  /** provider or the default; a Groq client is created when the provider is groq or a key is
      configured, and is absent when its construction fails. */
  function NewService(provider: Option<string>, defaultProvider: string, groqApiKey: string,
                      clientConstructs: bool, ollamaModel: string): (s: Service)
    ensures s.provider == (if Truthy(provider) then provider.value else defaultProvider)
    ensures s.hasGroqClient <==> (s.provider == "groq" || groqApiKey != "") && clientConstructs
    ensures s.ollamaModel == ollamaModel
  {
    var p := if Truthy(provider) then provider.value else defaultProvider;
    Service(p, (p == "groq" || groqApiKey != "") && clientConstructs, ollamaModel)
  }

  /** With the configured defaults and no override, the provider is groq and a client is tried. */
  lemma DefaultService(clientConstructs: bool)
    ensures var s := NewService(None, Config.DefaultLlmProvider, Config.GroqApiKey, clientConstructs, Config.OllamaModel);
      s.provider == "groq" && (s.hasGroqClient <==> clientConstructs) && s.ollamaModel != ""
  {
  }

  datatype Provider = Groq | Ollama

  /** A call's result and the backends it reached, in order. */
  datatype Attempt = Attempt(result: Result<StructuredAnswer>, calls: seq<Provider>)

  const NoGroqClient: string := "Groq client not initialized. Check GROQ_API_KEY."

  /** A backend's reply turned into an answer: its error re-raised, or the parsed answer. */
  function Answer(reply: Result<map<string, Json>>): (r: Result<StructuredAnswer>)
    ensures r.Success? ==> ValidConfidence(r.value.confidence)
  {
    match reply
    case Failure(e) => Failure(e)
    case Success(fields) => ParseAnswer(fields)
  }

  /** The messages each backend is sent: its system prompt, the recent history, and the user
      turn with its own header and closing. */
  function GroqMessages(prompt: string, context: string, history: Option<seq<Item>>): seq<Item> {
    Messages(GroqSystemPrompt, history, UserContent(GroqContextHeader, context, prompt, GroqClosing))
  }

  function OllamaMessages(prompt: string, context: string, history: Option<seq<Item>>): seq<Item> {
    Messages(OllamaSystemPrompt, history, UserContent(OllamaContextHeader, context, prompt, OllamaClosing))
  }

  /** generate_with_groq: refused before any call without a client. */
  function GenerateWithGroq(s: Service, prompt: string, context: string, history: Option<seq<Item>>,
                            groq: Backend): (a: Attempt)
    ensures !s.hasGroqClient ==> a == Attempt(Failure(ValueError(NoGroqClient)), [])
    ensures s.hasGroqClient ==> a.calls == [Groq]
  {
    if !s.hasGroqClient then Attempt(Failure(ValueError(NoGroqClient)), [])
    else
      Attempt(Answer(groq(Config.GroqModel, GroqMessages(prompt, context, history))), [Groq])
  }

  /** generate_with_ollama: always calls the backend with the service's model. */
  function GenerateWithOllama(s: Service, prompt: string, context: string, history: Option<seq<Item>>,
                              ollama: Backend): (a: Attempt)
    ensures a.calls == [Ollama]
  {
    Attempt(Answer(ollama(s.ollamaModel, OllamaMessages(prompt, context, history))), [Ollama])
  }

  /** provider or the service's provider. */
  function EffectiveProvider(s: Service, provider: Option<string>): string {
    if Truthy(provider) then provider.value else s.provider
  }

  /** The first attempt: the named backend, or a ValueError for an unknown name. */
  function Dispatch(s: Service, use: string, prompt: string, context: string, history: Option<seq<Item>>,
                    groq: Backend, ollama: Backend): Attempt {
    if use == "groq" then GenerateWithGroq(s, prompt, context, history, groq)
    else if use == "ollama" then GenerateWithOllama(s, prompt, context, history, ollama)
    else Attempt(Failure(ValueError("Unknown provider: " + use)), [])
  }

  /** Whether a failure of the first attempt falls back, and to which backend. */
  function Fallback(s: Service, use: string): Option<Provider> {
    if use == "groq" && s.ollamaModel != "" then Some(Ollama)
    else if use == "ollama" && s.hasGroqClient then Some(Groq)
    else None
  }

  /** generate: dispatch; on failure one fallback call to the other backend whose result, answer
      or error, is final; without a fallback the original error is re-raised. */
  function Generate(s: Service, prompt: string, context: string, history: Option<seq<Item>>,
                    provider: Option<string>, groq: Backend, ollama: Backend): Attempt {
    var use := EffectiveProvider(s, provider);
    var first := Dispatch(s, use, prompt, context, history, groq, ollama);
    if first.result.Success? then first
    else match Fallback(s, use)
      case None => first
      case Some(Ollama) =>
        var second := GenerateWithOllama(s, prompt, context, history, ollama);
        Attempt(second.result, first.calls + second.calls)
      case Some(Groq) =>
        var second := GenerateWithGroq(s, prompt, context, history, groq);
        Attempt(second.result, first.calls + second.calls)
  }

  /** The fallback rule: success of the first attempt is returned as is; otherwise the result is
      the fallback's when there is one and the original error when there is none; at most two
      backend calls in all, the second to the other backend. */
  lemma GenerateFallback(s: Service, prompt: string, context: string, history: Option<seq<Item>>,
                         provider: Option<string>, groq: Backend, ollama: Backend)
    ensures var use := EffectiveProvider(s, provider);
      var first := Dispatch(s, use, prompt, context, history, groq, ollama);
      var a := Generate(s, prompt, context, history, provider, groq, ollama);
      && |a.calls| <= 2
      && (first.result.Success? ==> a == first)
      && (first.result.Failure? && Fallback(s, use).None? ==> a == first)
      && (first.result.Failure? && Fallback(s, use) == Some(Ollama) ==>
            a.result == GenerateWithOllama(s, prompt, context, history, ollama).result
            && a.calls == (if use == "groq" && s.hasGroqClient then [Groq, Ollama] else [Ollama]))
      && (first.result.Failure? && Fallback(s, use) == Some(Groq) ==>
            a.result == GenerateWithGroq(s, prompt, context, history, groq).result && a.calls == [Ollama, Groq])
  {
  }

  /** Whatever the backends reply, an answer the service returns passed validation: its
      confidence lies in [0, 1]. */
  lemma GenerateConfidenceValid(s: Service, prompt: string, context: string, history: Option<seq<Item>>,
                                provider: Option<string>, groq: Backend, ollama: Backend)
    ensures var a := Generate(s, prompt, context, history, provider, groq, ollama);
      a.result.Success? ==> ValidConfidence(a.result.value.confidence)
  {
  }

  /** An unknown provider fails with its ValueError and reaches no backend. */
  lemma UnknownProviderNoFallback(s: Service, prompt: string, context: string, history: Option<seq<Item>>,
                                  provider: Option<string>, groq: Backend, ollama: Backend)
    requires EffectiveProvider(s, provider) != "groq" && EffectiveProvider(s, provider) != "ollama"
    ensures Generate(s, prompt, context, history, provider, groq, ollama)
      == Attempt(Failure(ValueError("Unknown provider: " + EffectiveProvider(s, provider))), [])
  {
  }

  /** The reply with an out-of-range confidence and otherwise default fields. */
  function OutOfRangeReply(confidence: real): map<string, Json> {
    map["answer" := JStr(""), "confidence" := JNum(confidence), "sources_used" := JList([])]
  }

  lemma OutOfRangeReplyRejected(confidence: real)
    requires !(0.0 <= confidence <= 1.0)
    ensures ParseAnswer(OutOfRangeReply(confidence)) == Failure(ValidationError("StructuredAnswer"))
  {
    var none: seq<string> := [];
    ParseAnswerWellTyped("", confidence, none);
    assert seq(|none|, k requires 0 <= k < |none| => JStr(none[k])) == [];
  }

  /** A Groq reply whose confidence is out of range fails validation inside the backend call, so
      it counts as a Groq failure and the Ollama answer is returned. */
  lemma OutOfRangeConfidenceFallsBack(s: Service, prompt: string, context: string, history: Option<seq<Item>>,
                                      groq: Backend, ollama: Backend, confidence: real)
    requires s.provider == "groq" && s.hasGroqClient && s.ollamaModel != ""
    requires !(0.0 <= confidence <= 1.0)
    requires groq(Config.GroqModel, GroqMessages(prompt, context, history)) == Success(OutOfRangeReply(confidence))
    ensures var a := Generate(s, prompt, context, history, None, groq, ollama);
      a.result == GenerateWithOllama(s, prompt, context, history, ollama).result && a.calls == [Groq, Ollama]
  {
    OutOfRangeReplyRejected(confidence);
    assert GenerateWithGroq(s, prompt, context, history, groq).result.Failure?;
    assert EffectiveProvider(s, None) == "groq" && Fallback(s, "groq") == Some(Ollama);
    GenerateFallback(s, prompt, context, history, None, groq, ollama);
  }

}
