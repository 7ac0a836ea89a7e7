/** The estimation client. The HTTP exchange with the reasoning service is replaced by its outcome;
    what remains is the error policy of `CalculateCarbs` and the response `parseThinkingResponse`
    synthesises, which depends on the meal description alone. */
module Sampling {
  import opened Wrappers
  import opened Text
  import opened Models

  /** A decoded JSON value, the shape of the `map[string]interface{}` the body is decoded into. */
  datatype JsonValue =
    | JNull
    | JBool(b: bool)
    | JNumber(n: real)
    | JString(s: string)
    | JArray(items: seq<JsonValue>)
    | JObject(fields: map<string, JsonValue>)

  datatype Body = Undecodable | Decoded(payload: map<string, JsonValue>)

  /** What the POST to the reasoning service ends in. */
  datatype HttpOutcome = TransportError | Response(status: int, body: Body)

  const STATUS_OK := 200

  datatype EstimateError =
    | RequestFailed           // the HTTP client returned an error
    | BadStatus(status: int)  // any status other than 200
    | DecodeFailed            // the body is not a JSON object

  /** A function from a request to its estimate or error: the shape of `CalculateCarbs` as its
      callers see it. */
  type Estimator = CarbCalculationRequest -> Result<CarbCalculationResponse, EstimateError>

  /** Descriptions shorter than this many bytes are considered too vague. */
  const MIN_DETAILED_BYTES := 20

  const FALLBACK_QUESTIONS: seq<string> := [
    "What was the approximate portion size?",
    "How was the food prepared (fried, baked, etc.)?",
    "Were there any sauces or condiments?"
  ]

  const PARSED_PREFIX := "Parsed from: "

  function PlaceholderFood(mealDesc: string): Food {
    Food(PARSED_PREFIX + mealDesc, "estimated", 25.0, 15.0, MEDIUM_CONFIDENCE)
  }

  /** The estimate built for a description; the decoded payload is not consulted. */
  function ParseThinkingResponse(thinking: map<string, JsonValue>, mealDesc: string): (r: CarbCalculationResponse)
    ensures r.totalCarbs == SumCarbs(r.foods)
    ensures r.needsMoreInfo <==> Utf8Len(mealDesc) < MIN_DETAILED_BYTES
    ensures |r.clarifications| > 0 <==> r.needsMoreInfo
  {
    var foods := [PlaceholderFood(mealDesc)];
    assert SumCarbs(foods) == 15.0 by { assert foods[1..] == []; }
    var needsMoreInfo := Utf8Len(mealDesc) < MIN_DETAILED_BYTES;
    CarbCalculationResponse(
      foods, 15.0, MEDIUM_CONFIDENCE,
      if needsMoreInfo then FALLBACK_QUESTIONS else [],
      needsMoreInfo)
  }

  /** One medium-confidence food named after the description, 25 g per 100 g and 15 g in all,
      and the three fixed questions, in order, exactly when the description is short. */
  lemma ParseThinkingResponseShape(thinking: map<string, JsonValue>, mealDesc: string)
    ensures var r := ParseThinkingResponse(thinking, mealDesc);
      && |r.foods| == 1
      && r.foods[0].name == PARSED_PREFIX + mealDesc
      && r.foods[0].quantity == "estimated"
      && r.foods[0].carbsPer100g == 25.0
      && r.foods[0].estimatedCarbs == 15.0
      && r.foods[0].confidence == MEDIUM_CONFIDENCE
      && r.totalCarbs == 15.0
      && r.confidence == MEDIUM_CONFIDENCE
      && r.clarifications == (if Utf8Len(mealDesc) < MIN_DETAILED_BYTES then FALLBACK_QUESTIONS else [])
  {
  }

  /** The description can be read back from the food's name. */
  lemma DescriptionRecoverable(thinking: map<string, JsonValue>, mealDesc: string)
    ensures ParseThinkingResponse(thinking, mealDesc).foods[0].name[|PARSED_PREFIX|..] == mealDesc
  {
  }

  /** The upstream payload has no influence on the estimate. */
  lemma ParseIgnoresPayload(p: map<string, JsonValue>, q: map<string, JsonValue>, mealDesc: string)
    ensures ParseThinkingResponse(p, mealDesc) == ParseThinkingResponse(q, mealDesc)
  {
  }

  /** Twenty or more characters always make the description detailed enough; for ASCII text the
      threshold is exactly twenty characters. */
  lemma ShortByCharacters(mealDesc: string)
    ensures |mealDesc| >= MIN_DETAILED_BYTES ==> !ParseThinkingResponse(map[], mealDesc).needsMoreInfo
    ensures IsAscii(mealDesc) ==>
      (ParseThinkingResponse(map[], mealDesc).needsMoreInfo <==> |mealDesc| < MIN_DETAILED_BYTES)
  {
    Utf8LenIsCharCountIffAscii(mealDesc);
  }

  /** `CalculateCarbs`: any failure of the exchange is an error and yields no estimate; a decoded
      body always yields the synthesised estimate. */
  function CalculateCarbs(req: CarbCalculationRequest, upstream: HttpOutcome): (r: Result<CarbCalculationResponse, EstimateError>)
    ensures r.Success? <==> upstream.Response? && upstream.status == STATUS_OK && upstream.body.Decoded?
    ensures r.Success? ==> r.value == ParseThinkingResponse(upstream.body.payload, req.mealDescription)
    ensures upstream.TransportError? ==> r == Failure(RequestFailed)
    ensures upstream.Response? && upstream.status != STATUS_OK ==> r == Failure(BadStatus(upstream.status))
    ensures upstream.Response? && upstream.status == STATUS_OK && upstream.body.Undecodable? ==> r == Failure(DecodeFailed)
  {
    match upstream
    case TransportError => Failure(RequestFailed)
    case Response(status, body) =>
      if status != STATUS_OK then Failure(BadStatus(status))
      else match body
        case Undecodable => Failure(DecodeFailed)
        case Decoded(payload) => Success(ParseThinkingResponse(payload, req.mealDescription))
  }

  /** The clarification flag of the request has no effect on the outcome. */
  lemma CalculateCarbsIgnoresFlag(mealDesc: string, upstream: HttpOutcome)
    ensures CalculateCarbs(CarbCalculationRequest(mealDesc, true), upstream)
         == CalculateCarbs(CarbCalculationRequest(mealDesc, false), upstream)
  {
  }

  /** `AskClarification`: a fresh estimate of the same description with clarifications off; the
      questions are only logged. */
  function AskClarification(mealDesc: string, questions: seq<string>, upstream: HttpOutcome): (r: Result<CarbCalculationResponse, EstimateError>)
    ensures r.Success? <==> upstream.Response? && upstream.status == STATUS_OK && upstream.body.Decoded?
    ensures r.Success? ==> r.value == ParseThinkingResponse(upstream.body.payload, mealDesc)
    ensures upstream.TransportError? ==> r == Failure(RequestFailed)
    ensures upstream.Response? && upstream.status != STATUS_OK ==> r == Failure(BadStatus(upstream.status))
    ensures upstream.Response? && upstream.status == STATUS_OK && upstream.body.Undecodable? ==> r == Failure(DecodeFailed)
  {
    CalculateCarbs(CarbCalculationRequest(mealDesc, false), upstream)
  }

  /** The questions passed in make no difference to the outcome. */
  lemma AskClarificationIgnoresQuestions(mealDesc: string, questions: seq<string>, others: seq<string>, upstream: HttpOutcome)
    ensures AskClarification(mealDesc, questions, upstream) == AskClarification(mealDesc, others, upstream)
  {
  }

  /** A short description still comes back with the fixed questions, although clarifications were
      switched off. */
  lemma AskClarificationStillAsks(mealDesc: string, questions: seq<string>, upstream: HttpOutcome)
    requires Utf8Len(mealDesc) < MIN_DETAILED_BYTES
    ensures var r := AskClarification(mealDesc, questions, upstream);
      r.Success? ==> r.value.needsMoreInfo && r.value.clarifications == FALLBACK_QUESTIONS
  {
  }
}
