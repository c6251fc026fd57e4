/** The analysis client: how a concept becomes a request, and how the
    endpoint's reply text becomes a parsed value or an error. The endpoint
    call itself is outside the model; `JSON.parse` is a parameter
    `parse` that yields `None` where the real one throws. Two copies of the
    client exist, one in the service module and one inlined in the page
    component, and they differ in the prompt wording and in the error
    they raise for unparsable text. */
module GeminiService {
  import opened Wrappers
  import opened Json
  import opened AnalysisSchema

  const ModelName: string := "gemini-3-flash-preview"
  const ResponseMimeType: string := "application/json"

  /** Prompt prefix of the service module; the concept follows it inside
      double quotes. */
  const ServicePromptPrefix: string := "Analyze the following video marketing concept for global distribution potential: \""
  /** Prompt prefix of the copy inlined in the page component. */
  const PagePromptPrefix: string := "Analyze this video concept for global distribution potential: \""

  /** Text used when the reply carries no text or empty text. */
  const EmptyReplyText: string := "{}"

  /** The message of the error the service raises for unparsable text. */
  const AnalysisFailedMessage: string := "Analysis failed"

  /** Why decoding a reply failed. `AnalysisFailed` is the service's own
      error; `SyntaxError` is `JSON.parse`'s exception, which the page's
      inlined copy lets escape unchanged. */
  datatype DecodeError = AnalysisFailed | SyntaxError

  /** The text an error reports: the service's fixed message, or, for the
      parser's exception, its name, since its message depends on the text. */
  function ErrorMessage(e: DecodeError): (msg: string)
  {
    match e
    case AnalysisFailed => AnalysisFailedMessage
    case SyntaxError => "SyntaxError"
  }

  /** One `generateContent` request. */
  datatype Request = Request(model: string, contents: string, mimeType: string, schema: ObjectSchema)

  /** The prompt: the prefix, then the concept verbatim, then a closing
      double quote. The concept is neither trimmed nor escaped. */
  function Prompt(prefix: string, concept: string): (p: string)
    ensures |p| == |prefix| + |concept| + 1
    ensures p[..|prefix|] == prefix
    ensures p[|prefix|..|p| - 1] == concept
    ensures p[|p| - 1] == '"'
  {
    prefix + concept + "\""
  }

  /** Recovers the concept from a prompt built with `prefix`: strips the
      prefix and the final double quote, whatever lies between. */
  function ConceptOfPrompt(prefix: string, p: string): (c: Option<string>)
    ensures c.Some? ==> |prefix| < |p| && c.value == p[|prefix|..|p| - 1]
  {
    if |prefix| < |p| && p[..|prefix|] == prefix && p[|p| - 1] == '"'
    then Some(p[|prefix|..|p| - 1])
    else None
  }

  /** The concept is carried verbatim: it can be read back from the
      prompt, so no two concepts share a prompt. */
  lemma PromptRoundTrip(prefix: string, concept: string)
    ensures ConceptOfPrompt(prefix, Prompt(prefix, concept)) == Some(concept)
  {
  }

  lemma PromptInjective(prefix: string, a: string, b: string)
    requires Prompt(prefix, a) == Prompt(prefix, b)
    ensures a == b
  {
    PromptRoundTrip(prefix, a);
    PromptRoundTrip(prefix, b);
  }

  /** The request the service sends for a concept. */
  function ServiceRequest(concept: string): (q: Request)
    ensures ConceptOfPrompt(ServicePromptPrefix, q.contents) == Some(concept)
    ensures q.model == ModelName && q.mimeType == ResponseMimeType
    ensures q.schema == ResponseSchema
    ensures PropertyNames(q.schema) == ResultFields && q.schema.required == ResultFields
  {
    PromptRoundTrip(ServicePromptPrefix, concept);
    SchemaMatchesResult();
    Request(ModelName, Prompt(ServicePromptPrefix, concept), ResponseMimeType, ResponseSchema)
  }

  /** The request the page's inlined copy sends: same model and schema,
      different prompt wording. */
  function PageRequest(concept: string): (q: Request)
    ensures ConceptOfPrompt(PagePromptPrefix, q.contents) == Some(concept)
    ensures q.model == ModelName && q.mimeType == ResponseMimeType
    ensures q.schema == ResponseSchema
    ensures PropertyNames(q.schema) == ResultFields && q.schema.required == ResultFields
  {
    PromptRoundTrip(PagePromptPrefix, concept);
    SchemaMatchesResult();
    Request(ModelName, Prompt(PagePromptPrefix, concept), ResponseMimeType, ResponseSchema)
  }

  /** `response.text || '{}'`: absent and empty text both fall back to an
      empty object; any other text is passed on unchanged. */
  function EffectiveText(text: Option<string>): (t: string)
    ensures t != ""
    ensures text.Some? && text.value != "" ==> t == text.value
    ensures text == None || text == Some("") ==> t == EmptyReplyText
  {
    match text
    case None => EmptyReplyText
    case Some(s) => if s == "" then EmptyReplyText else s
  }

  /** Shared decoding: parse the effective text and keep the parsed value
      as it is, with no check of its fields; map a parse failure to `err`. */
  function DecodeWith(text: Option<string>, parse: string -> Option<Json>, err: DecodeError): (r: Result<Json, DecodeError>)
    ensures r.Success? <==> parse(EffectiveText(text)).Some?
    ensures r.Success? ==> r.value == parse(EffectiveText(text)).value
    ensures r.Failure? ==> r.error == err
  {
    match parse(EffectiveText(text))
    case Some(j) => Success(j)
    case None => Failure(err)
  }

  /** The service's decoding: every unparsable reply yields the one error
      "Analysis failed". */
  function ServiceDecode(text: Option<string>, parse: string -> Option<Json>): (r: Result<Json, DecodeError>)
    ensures r.Failure? ==> ErrorMessage(r.error) == "Analysis failed"
    ensures r.Failure? <==> parse(EffectiveText(text)).None?
  {
    DecodeWith(text, parse, AnalysisFailed)
  }

  /** The page's inlined decoding: `JSON.parse`'s own error escapes. */
  function PageDecode(text: Option<string>, parse: string -> Option<Json>): (r: Result<Json, DecodeError>)
    ensures r.Failure? ==> r.error == SyntaxError
    ensures r.Failure? <==> parse(EffectiveText(text)).None?
  {
    DecodeWith(text, parse, SyntaxError)
  }

  /** Absent text, empty text and the text `{}` decode alike. */
  lemma EmptyReplyIsEmptyObject(parse: string -> Option<Json>, err: DecodeError)
    ensures DecodeWith(None, parse, err) == DecodeWith(Some(EmptyReplyText), parse, err)
    ensures DecodeWith(Some(""), parse, err) == DecodeWith(Some(EmptyReplyText), parse, err)
  {
  }

  /** Whatever text fails to parse, the service reports the same error:
      the failure carries nothing of the text or the parser's message. */
  lemma ServiceFailureIsUniform(t1: Option<string>, t2: Option<string>, parse: string -> Option<Json>)
    requires ServiceDecode(t1, parse).Failure? && ServiceDecode(t2, parse).Failure?
    ensures ServiceDecode(t1, parse) == ServiceDecode(t2, parse)
  {
  }

  /** The two copies agree on every reply they can parse, and fail on the
      same replies. */
  lemma DecodersAgree(text: Option<string>, parse: string -> Option<Json>)
    ensures ServiceDecode(text, parse).Success? <==> PageDecode(text, parse).Success?
    ensures ServiceDecode(text, parse).Success? ==> ServiceDecode(text, parse) == PageDecode(text, parse)
  {
  }

  /** No field check: if the parser reads the reply as `j`, `j` is the
      result, schema-conforming or not. With a parser that reads `{}` as
      the empty object, an empty reply succeeds with a value that has none
      of the required fields. */
  lemma UncheckedReplyIsReturned(text: Option<string>, parse: string -> Option<Json>, j: Json)
    requires parse(EffectiveText(text)) == Some(j)
    ensures ServiceDecode(text, parse) == Success(j)
    ensures PageDecode(text, parse) == Success(j)
  {
  }

  lemma EmptyReplySucceedsWithoutFields(parse: string -> Option<Json>)
    requires parse(EmptyReplyText) == Some(JObject([]))
    ensures ServiceDecode(None, parse) == Success(JObject([]))
    ensures ServiceDecode(Some(""), parse) == Success(JObject([]))
    ensures !Conforms(ServiceDecode(None, parse).value, ResponseSchema)
  {
    EmptyObjectDoesNotConform();
  }
}
