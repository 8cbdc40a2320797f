/** `analyzeCaseWithGemini`: build a prompt around the case text, hand it to
    the generative-text service, cut the JSON object out of the generated
    text, normalise its fields, and fall back to one fixed record whenever
    any step fails. The service and `JSON.parse` are parameters. */
module GeminiService {
  import opened Wrappers
  import opened Text

  /** The record the pages display. `outcomeType` is the source's `type`
      field; the interface declares three values but nothing enforces them. */
  datatype PredictionResult = PredictionResult(
    outcome: string,
    probability: int,
    outcomeType: string,
    reasoning: seq<string>,
    confidence: string)

  /** What the service sends back, seen from the caller: the request failed,
      or a response arrived with an HTTP status and, when the body has the
      path `candidates[0].content.parts[0].text`, the generated text. */
  datatype Reply = NetworkError | HttpReply(status: int, candidateText: Option<string>)

  /** The fields `JSON.parse` yields for the extracted object, already typed.
      `None` is a field that is absent; a field of another JSON type is read
      as `None` too, which matches the source only for `null` and `false`
      (other values of another type would pass through its `||`). */
  datatype ParsedFields = ParsedFields(
    outcome: Option<string>,
    probability: Option<int>,
    outcomeType: Option<string>,
    reasoning: Option<seq<string>>,
    confidence: Option<string>)

  /** Why the `try` block threw. */
  datatype AnalysisError = TransportFailed | ApiError(status: int) | MissingCandidate | NoJsonBlock | ParseFailed

  /** `response.ok`. */
  predicate IsOk(status: int) {
    200 <= status <= 299
  }

  // ---------------------------------------------------------------- prompt

  const PromptHead := "\nYou are an expert legal AI assistant. Analyze the following legal case and provide a prediction about the likely outcome. \n\nCase Details: "

  const PromptTail := "\n\nPlease provide your analysis in the following JSON format:\n{\n  \"outcome\": \"One of: 'Judgment in favor of the Plaintiff', 'Not in favor of the Plaintiff', or 'Case will be Dismissed'\",\n  \"probability\": \"A number between 60-95 representing confidence percentage\",\n  \"type\": \"One of: 'favorable', 'unfavorable', or 'neutral'\",\n  \"reasoning\": [\"Array of 3-4 key legal reasoning points\"],\n  \"confidence\": \"Brief explanation of confidence level\"\n}\n\nConsider legal precedents, evidence strength, procedural requirements, and applicable laws. Be thorough but concise in your reasoning.\n"

  /** The prompt sent for a case: the case text appears verbatim between a
      fixed instruction head and a fixed tail. */
  function Prompt(caseDetails: string): (p: string)
    ensures |p| == |PromptHead| + |caseDetails| + |PromptTail|
    ensures p[..|PromptHead|] == PromptHead
    ensures p[|PromptHead|..|PromptHead| + |caseDetails|] == caseDetails
    ensures p[|PromptHead| + |caseDetails|..] == PromptTail
  {
    PromptHead + caseDetails + PromptTail
  }

  /** Recovers the case text from a prompt. */
  function CaseOfPrompt(p: string): string
    requires |p| >= |PromptHead| + |PromptTail|
  {
    p[|PromptHead|..|p| - |PromptTail|]
  }

  /** Nothing of the case text is lost in the prompt. */
  lemma CaseOfPromptRoundTrip(caseDetails: string)
    ensures |Prompt(caseDetails)| >= |PromptHead| + |PromptTail|
    ensures CaseOfPrompt(Prompt(caseDetails)) == caseDetails
  {
  }

  /** Different case texts are sent as different prompts. */
  lemma PromptInjective(a: string, b: string)
    requires Prompt(a) == Prompt(b)
    ensures a == b
  {
    CaseOfPromptRoundTrip(a);
    CaseOfPromptRoundTrip(b);
  }

  // ------------------------------------------------------------ extraction

  /** `text.match(/\{[\s\S]*\}/)`: the leftmost `{` starts the match and the
      greedy `[\s\S]*` stretches it to the last `}`; there is a match exactly
      when some `}` follows some `{`. */
  function ExtractJson(text: string): (r: Option<string>)
    ensures r.None? <==> !exists i, j | 0 <= i < j < |text| :: text[i] == '{' && text[j] == '}'
    ensures r.Some? ==> exists i, j | 0 <= i < j < |text| ::
      IsFirst(text, '{', i) && IsLast(text, '}', j) && r.value == text[i..j + 1]
  {
    match (IndexOf(text, '{'), LastIndexOf(text, '}'))
    case (Some(i), Some(j)) =>
      if i < j then Some(text[i..j + 1]) else None
    case _ => None
  }

  /** The extracted block opens with `{`, closes with `}` and is a piece of
      the generated text. */
  lemma ExtractJsonShape(text: string)
    requires ExtractJson(text).Some?
    ensures var m := ExtractJson(text).value;
      2 <= |m| <= |text| && m[0] == '{' && m[|m| - 1] == '}'
  {
    var i, j :| 0 <= i < j < |text| && IsFirst(text, '{', i) && IsLast(text, '}', j)
      && ExtractJson(text).value == text[i..j + 1];
  }

  // --------------------------------------------------------- normalisation

  /** JavaScript truthiness of an optional string field. */
  predicate Truthy(o: Option<string>) {
    o.Some? && o.value != ""
  }

  /** `field || fallback` on a string field. */
  function StringOr(o: Option<string>, fallback: string): string {
    if Truthy(o) then o.value else fallback
  }

  function Min(a: int, b: int): int { if a <= b then a else b }
  function Max(a: int, b: int): int { if a >= b then a else b }

  /** `Math.min(Math.max(probability || 75, 60), 95)`. */
  function NormalizeProbability(p: Option<int>): (r: int)
    ensures 60 <= r <= 95
    ensures p.Some? && 60 <= p.value <= 95 ==> r == p.value
    ensures p.Some? && p.value > 95 ==> r == 95
    ensures p.Some? && p.value != 0 && p.value < 60 ==> r == 60
    ensures p.None? || p.value == 0 ==> r == 75
  {
    var v := if p.None? || p.value == 0 then 75 else p.value;
    Min(Max(v, 60), 95)
  }

  const DefaultOutcome := "Case outcome uncertain"
  const DefaultType := "neutral"
  const DefaultReasoning := ["Analysis provided by AI"]
  const DefaultConfidence := "Moderate confidence based on available information"

  /** The record built from the parsed fields: each field is normalised on
      its own, so a bad field never spoils the others. */
  function Normalize(f: ParsedFields): (r: PredictionResult)
    ensures Truthy(f.outcome) ==> r.outcome == f.outcome.value
    ensures !Truthy(f.outcome) ==> r.outcome == DefaultOutcome
    ensures r.probability == NormalizeProbability(f.probability)
    ensures Truthy(f.outcomeType) ==> r.outcomeType == f.outcomeType.value
    ensures !Truthy(f.outcomeType) ==> r.outcomeType == DefaultType
    ensures f.reasoning.Some? ==> r.reasoning == f.reasoning.value
    ensures f.reasoning.None? ==> r.reasoning == DefaultReasoning
    ensures Truthy(f.confidence) ==> r.confidence == f.confidence.value
    ensures !Truthy(f.confidence) ==> r.confidence == DefaultConfidence
  {
    PredictionResult(
      StringOr(f.outcome, DefaultOutcome),
      NormalizeProbability(f.probability),
      StringOr(f.outcomeType, DefaultType),
      if f.reasoning.Some? then f.reasoning.value else DefaultReasoning,
      StringOr(f.confidence, DefaultConfidence))
  }

  /** The record returned from the `catch` block: a fixed outcome, the
      middle probability 75, the type "neutral", three fixed reasons and a
      fixed confidence note. */
  function Fallback(): (r: PredictionResult)
    ensures r.outcome == "Case analysis temporarily unavailable"
    ensures r.probability == 75 && 60 <= r.probability <= 95
    ensures r.outcomeType == "neutral"
    ensures |r.reasoning| == 3
    ensures r.reasoning[0] == "Unable to connect to AI analysis service"
    ensures r.reasoning[1] == "Please try again later"
    ensures r.reasoning[2] == "Manual legal consultation recommended"
    ensures r.confidence == "AI service temporarily unavailable"
  {
    PredictionResult(
      "Case analysis temporarily unavailable",
      75,
      "neutral",
      ["Unable to connect to AI analysis service", "Please try again later", "Manual legal consultation recommended"],
      "AI service temporarily unavailable")
  }

  // -------------------------------------------------------------- analysis

  /** The steps of the `try` block up to `JSON.parse`, each of which may
      throw. */
  function Interpret(reply: Reply, parse: string -> Option<ParsedFields>): (r: Result<ParsedFields, AnalysisError>)
    ensures reply.NetworkError? ==> r == Failure(TransportFailed)
    ensures reply.HttpReply? && !IsOk(reply.status) ==> r == Failure(ApiError(reply.status))
    ensures reply.HttpReply? && IsOk(reply.status) && reply.candidateText.None? ==> r == Failure(MissingCandidate)
    ensures reply.HttpReply? && IsOk(reply.status) && reply.candidateText.Some? ==>
      match ExtractJson(reply.candidateText.value)
      case None => r == Failure(NoJsonBlock)
      case Some(json) => if parse(json).Some? then r == Success(parse(json).value) else r == Failure(ParseFailed)
  {
    match reply
    case NetworkError => Failure(TransportFailed)
    case HttpReply(status, candidateText) =>
      if !IsOk(status) then Failure(ApiError(status))
      else match candidateText
        case None => Failure(MissingCandidate)
        case Some(text) =>
          match ExtractJson(text)
          case None => Failure(NoJsonBlock)
          case Some(json) =>
            match parse(json)
            case None => Failure(ParseFailed)
            case Some(fields) => Success(fields)
  }

  /** `analyzeCaseWithGemini(caseDetails)` against a service and a parser.
      It never throws: every failure returns the fallback record. With the
      probability modelled as an integer, every result carries one in
      [60, 95]; a non-numeric probability, which the source lets reach
      `Math.max`, is not modelled. */
  function Analyze(caseDetails: string, service: string -> Reply, parse: string -> Option<ParsedFields>): (r: PredictionResult)
    ensures 60 <= r.probability <= 95
    ensures Interpret(service(Prompt(caseDetails)), parse).Failure? ==> r == Fallback()
    ensures Interpret(service(Prompt(caseDetails)), parse).Success? ==>
      r == Normalize(Interpret(service(Prompt(caseDetails)), parse).value)
  {
    match Interpret(service(Prompt(caseDetails)), parse)
    case Success(fields) => Normalize(fields)
    case Failure(_) => Fallback()
  }

  /** Each failure the source names collapses to the same fixed record:
      a failed request, a non-OK status, a missing candidate text, a text in
      which no `}` follows a `{`, and a block the parser rejects. */
  lemma FailuresYieldFallback(caseDetails: string, service: string -> Reply, parse: string -> Option<ParsedFields>)
    ensures var reply := service(Prompt(caseDetails));
      var r := Analyze(caseDetails, service, parse);
      && (reply.NetworkError? ==> r == Fallback())
      && (reply.HttpReply? && !IsOk(reply.status) ==> r == Fallback())
      && (reply.HttpReply? && reply.candidateText.None? ==> r == Fallback())
      && (reply.HttpReply? && reply.candidateText.Some? &&
          (forall i, j | 0 <= i < j < |reply.candidateText.value| ::
             !(reply.candidateText.value[i] == '{' && reply.candidateText.value[j] == '}'))
          ==> r == Fallback())
      && (reply.HttpReply? && reply.candidateText.Some? && ExtractJson(reply.candidateText.value).Some? &&
          parse(ExtractJson(reply.candidateText.value).value).None?
          ==> r == Fallback())
  {
  }

  /** The fallback record is what the model returns on failure and never
      more: a result differs from it only on the success path, where the
      reply was OK, carried text, held a brace block and that block parsed. */
  lemma NotFallbackMeansParsed(caseDetails: string, service: string -> Reply, parse: string -> Option<ParsedFields>)
    requires Analyze(caseDetails, service, parse) != Fallback()
    ensures var reply := service(Prompt(caseDetails));
      && reply.HttpReply? && IsOk(reply.status) && reply.candidateText.Some?
      && ExtractJson(reply.candidateText.value).Some?
      && parse(ExtractJson(reply.candidateText.value).value).Some?
      && Analyze(caseDetails, service, parse) == Normalize(parse(ExtractJson(reply.candidateText.value).value).value)
  {
  }
}
