/** The tool handlers: log a meal, estimate carbohydrates without logging, list meals. Inputs
    arrive already decoded; the estimator, the clock readings, the storage engine's faults and the
    knowledge-graph notifier are given to the handlers as parameters. */
module Tools {
  import opened Wrappers
  import opened Text
  import opened Times
  import opened Models
  import opened Sampling
  import opened Storage

  datatype LogMealParams = LogMealParams(description: string, timestamp: string)

  datatype CalculateCarbsParams = CalculateCarbsParams(mealDescription: string, askClarifications: bool)

  datatype GetMealsParams = GetMealsParams(startDate: string, endDate: string, limit: int)

  datatype ToolError =
    | DescriptionRequired
    | InvalidTimestamp
    | CalculateFailed(estimateError: EstimateError)
    | SaveFailed(saveError: StoreError)
    | RetrieveFailed(retrieveError: StoreError)

  /** What log-meal answers when it does not fail: the questions together with the preliminary
      estimate, or the meal that was saved. */
  datatype LogMealResult =
    | Clarification(clarifications: seq<string>, preliminary: CarbCalculationResponse)
    | Logged(meal: Meal)

  /** The readings of the clock one log-meal request takes: the default meal time, the nanosecond
      count the id is made from, and the two audit times. */
  datatype Clock = Clock(now: Time, idNanos: int, createdAt: Time, updatedAt: Time)

  /** The collaborators log-meal talked to: the request given to the estimator, the meal given to
      the store, the meal given to the notifier, and whether the notifier's failure was logged. */
  datatype Trace = Trace(
    estimateRequest: Option<CarbCalculationRequest>,
    saved: Option<Meal>,
    notified: Option<Meal>,
    warned: bool)

  const DEFAULT_LIMIT := 20

  /** The id `meal_<nanoseconds>`. */
  function MealId(nanos: int): (id: string)
    ensures |id| > 5 && id[..5] == "meal_"
  {
    "meal_" + IntToDecimal(nanos)
  }

  /** Distinct clock readings give distinct ids; equal readings collide, and the collision shows up
      as a failed save. */
  lemma MealIdInjective(a: int, b: int)
    requires MealId(a) == MealId(b)
    ensures a == b
  {
    assert MealId(a)[5..] == IntToDecimal(a) && MealId(b)[5..] == IntToDecimal(b);
    IntToDecimalInjective(a, b);
  }

  /** The meal time: the supplied text parsed as RFC 3339, or the current time when none is given. */
  function ResolveTimestamp(text: string, now: Time, rfc3339: string -> Option<Time>): (r: Result<Time, ToolError>)
    ensures text == "" ==> r == Success(now)
    ensures text != "" ==> (r.Success? <==> rfc3339(text).Some?)
    ensures text != "" && r.Success? ==> Some(r.value) == rfc3339(text)
    ensures r.Failure? ==> r.error == InvalidTimestamp
  {
    if text == "" then Success(now)
    else match rfc3339(text)
      case None => Failure(InvalidTimestamp)
      case Some(t) => Success(t)
  }

  predicate NeedsClarification(resp: CarbCalculationResponse) {
    resp.needsMoreInfo && |resp.clarifications| > 0
  }

  function BuildMeal(description: string, timestamp: Time, resp: CarbCalculationResponse, clock: Clock): Meal {
    Meal(MealId(clock.idNanos), description, timestamp, resp.foods, resp.totalCarbs, resp.confidence,
         clock.createdAt, clock.updatedAt, AI_PARSED_SOURCE)
  }

  /** The request log-meal gives the estimator, if it gets that far. */
  function EstimateRequest(params: LogMealParams, now: Time, rfc3339: string -> Option<Time>): (req: Option<CarbCalculationRequest>)
    ensures req.Some? <==> params.description != "" && ResolveTimestamp(params.timestamp, now, rfc3339).Success?
    ensures req.Some? ==> req.value == CarbCalculationRequest(params.description, true)
  {
    if params.description != "" && ResolveTimestamp(params.timestamp, now, rfc3339).Success?
    then Some(CarbCalculationRequest(params.description, true))
    else None
  }

  /** Where a log-meal request ends: refused with an error, answered with questions, or committed. */
  datatype Plan = Reject(error: ToolError) | Clarify(response: CarbCalculationResponse) | Commit(meal: Meal)

  function PlanLogMeal(params: LogMealParams, clock: Clock, estimate: Estimator, rfc3339: string -> Option<Time>): (p: Plan)
    // the description is checked first, then the timestamp, and only then is the estimator asked
    ensures params.description == "" ==> p == Reject(DescriptionRequired)
    ensures params.description != "" && params.timestamp != "" && rfc3339(params.timestamp).None?
      ==> p == Reject(InvalidTimestamp)
    ensures EstimateRequest(params, clock.now, rfc3339).Some? ==>
      var outcome := estimate(CarbCalculationRequest(params.description, true));
      && (outcome.Failure? ==> p == Reject(CalculateFailed(outcome.error)))
      && (outcome.Success? && NeedsClarification(outcome.value) ==> p == Clarify(outcome.value))
      && (outcome.Success? && !NeedsClarification(outcome.value) ==> p.Commit?)
    // a committed meal takes the estimate's foods, total and confidence as they are
    ensures p.Commit? ==>
      var outcome := estimate(CarbCalculationRequest(params.description, true));
      && EstimateRequest(params, clock.now, rfc3339).Some?
      && outcome.Success? && !NeedsClarification(outcome.value)
      && p.meal.foods == outcome.value.foods
      && p.meal.totalCarbs == outcome.value.totalCarbs
      && p.meal.confidence == outcome.value.confidence
      && p.meal.description == params.description
      && p.meal.timestamp == ResolveTimestamp(params.timestamp, clock.now, rfc3339).value
      && p.meal.source == AI_PARSED_SOURCE
      && p.meal.id == MealId(clock.idNanos)
      && p.meal.createdAt == clock.createdAt
      && p.meal.updatedAt == clock.updatedAt
    ensures p.Clarify? ==> NeedsClarification(p.response)
  {
    if params.description == "" then Reject(DescriptionRequired)
    else match ResolveTimestamp(params.timestamp, clock.now, rfc3339)
      case Failure(e) => Reject(e)
      case Success(timestamp) =>
        match estimate(CarbCalculationRequest(params.description, true))
        case Failure(e) => Reject(CalculateFailed(e))
        case Success(resp) =>
          if NeedsClarification(resp) then Clarify(resp)
          else Commit(BuildMeal(params.description, timestamp, resp, clock))
  }

  /** The estimator of the running system: one exchange with the reasoning service. */
  function SamplingEstimator(upstream: HttpOutcome): Estimator {
    req => CalculateCarbs(req, upstream)
  }

  /** Through log-meal with a working reasoning service, a description shorter than twenty bytes
      is answered with the three questions and never reaches the store, and a longer one is
      committed as one medium-confidence food of 15 g. */
  lemma LogMealWithSamplingClient(params: LogMealParams, clock: Clock, rfc3339: string -> Option<Time>, payload: map<string, JsonValue>)
    requires params.description != ""
    requires ResolveTimestamp(params.timestamp, clock.now, rfc3339).Success?
    ensures var p := PlanLogMeal(params, clock, SamplingEstimator(Response(STATUS_OK, Decoded(payload))), rfc3339);
      && (p.Clarify? <==> Utf8Len(params.description) < MIN_DETAILED_BYTES)
      && (p.Commit? <==> Utf8Len(params.description) >= MIN_DETAILED_BYTES)
      && (p.Clarify? ==> p.response.clarifications == FALLBACK_QUESTIONS)
      && (p.Commit? ==>
            && p.meal.totalCarbs == 15.0
            && p.meal.totalCarbs == SumCarbs(p.meal.foods)
            && p.meal.foods == [PlaceholderFood(params.description)]
            && p.meal.confidence == MEDIUM_CONFIDENCE)
  {
    var upstream := Response(STATUS_OK, Decoded(payload));
    var req := CarbCalculationRequest(params.description, true);
    assert SamplingEstimator(upstream)(req) == CalculateCarbs(req, upstream);
    ParseThinkingResponseShape(payload, params.description);
  }

  /** A failed exchange with the reasoning service fails log-meal with nothing committed. */
  lemma LogMealUpstreamFailure(params: LogMealParams, clock: Clock, rfc3339: string -> Option<Time>, upstream: HttpOutcome)
    requires params.description != ""
    requires ResolveTimestamp(params.timestamp, clock.now, rfc3339).Success?
    requires !(upstream.Response? && upstream.status == STATUS_OK && upstream.body.Decoded?)
    ensures var p := PlanLogMeal(params, clock, SamplingEstimator(upstream), rfc3339);
      p.Reject? && p.error.CalculateFailed?
  {
    var req := CarbCalculationRequest(params.description, true);
    assert SamplingEstimator(upstream)(req) == CalculateCarbs(req, upstream);
  }

  /** calculate-carbs: the description must be non-empty; the caller's flag is passed on as it is
      and the estimator's answer or error is returned. */
  function HandleCalculateCarbs(params: CalculateCarbsParams, estimate: Estimator): (r: Result<CarbCalculationResponse, ToolError>)
    ensures params.mealDescription == "" ==> r == Failure(DescriptionRequired)
    ensures params.mealDescription != "" ==>
      var outcome := estimate(CarbCalculationRequest(params.mealDescription, params.askClarifications));
      && (r.Success? <==> outcome.Success?)
      && (r.Success? ==> r.value == outcome.value)
      && (r.Failure? ==> r.error == CalculateFailed(outcome.error))
  {
    if params.mealDescription == "" then Failure(DescriptionRequired)
    else match estimate(CarbCalculationRequest(params.mealDescription, params.askClarifications))
      case Failure(e) => Failure(CalculateFailed(e))
      case Success(resp) => Success(resp)
  }

  /** With the running estimator, calculate-carbs answers with the synthesised estimate whatever
      the clarification flag says. */
  lemma CalculateCarbsWithSamplingClient(params: CalculateCarbsParams, payload: map<string, JsonValue>)
    requires params.mealDescription != ""
    ensures HandleCalculateCarbs(params, SamplingEstimator(Response(STATUS_OK, Decoded(payload))))
         == Success(ParseThinkingResponse(payload, params.mealDescription))
  {
    var req := CarbCalculationRequest(params.mealDescription, params.askClarifications);
    assert SamplingEstimator(Response(STATUS_OK, Decoded(payload)))(req)
        == CalculateCarbs(req, Response(STATUS_OK, Decoded(payload)));
  }

  /** get-meals: a missing or non-positive limit becomes 20; any other limit is kept. */
  function EffectiveLimit(limit: int): (l: int)
    ensures l > 0
    ensures limit > 0 ==> l == limit
    ensures limit <= 0 ==> l == DEFAULT_LIMIT
  {
    if limit <= 0 then DEFAULT_LIMIT else limit
  }

  function FoodLine(food: Food, formatCarbs: real -> string): string {
    food.name + " (" + food.quantity + ", " + formatCarbs(food.estimatedCarbs) + "g carbs)"
  }

  /** One line per food, in the foods' order. */
  function FoodLines(foods: seq<Food>, formatCarbs: real -> string): (lines: seq<string>)
    ensures |lines| == |foods|
    ensures forall i :: 0 <= i < |foods| ==> lines[i] == FoodLine(foods[i], formatCarbs)
  {
    if foods == [] then [] else [FoodLine(foods[0], formatCarbs)] + FoodLines(foods[1..], formatCarbs)
  }

  /** `formatFoodsList`: the food lines joined with "; ", and "" for no foods. The `%.1f`
      rendering of the carbohydrates is given as `formatCarbs`. */
  method FormatFoodsList(foods: seq<Food>, formatCarbs: real -> string) returns (s: string)
    ensures s == Join(FoodLines(foods, formatCarbs), "; ")
    ensures foods == [] ==> s == ""
    ensures foods != [] ==> |s| == TotalLength(FoodLines(foods, formatCarbs)) + 2 * (|foods| - 1)
  {
    var foodStrings: seq<string> := [];
    for i := 0 to |foods|
      invariant |foodStrings| == i
      invariant forall k :: 0 <= k < i ==> foodStrings[k] == FoodLine(foods[k], formatCarbs)
    {
      foodStrings := foodStrings + [FoodLine(foods[i], formatCarbs)];
    }
    assert foodStrings == FoodLines(foods, formatCarbs);
    s := Join(foodStrings, "; ");
    if foods != [] { JoinLength(foodStrings, "; "); }
  }

  class MealLogServer {
    const storage: SQLiteStorage
    /** `time.Parse(time.RFC3339, ...)` */
    const rfc3339: string -> Option<Time>

    constructor (storage: SQLiteStorage, rfc3339: string -> Option<Time>)
      ensures this.storage == storage && this.rfc3339 == rfc3339
    {
      this.storage := storage;
      this.rfc3339 := rfc3339;
    }

    /** log-meal: validate, resolve the time, estimate, then either return the questions with
        nothing saved or save the meal and notify; a failed notification is only logged. */
    method HandleLogMeal(params: LogMealParams, clock: Clock, estimate: Estimator, fault: Fault, notify: Meal -> bool)
      returns (r: Result<LogMealResult, ToolError>, trace: Trace)
      requires storage.Valid()
      modifies storage
      ensures storage.Valid()
      ensures trace.estimateRequest == EstimateRequest(params, clock.now, rfc3339)
      ensures var p := PlanLogMeal(params, clock, estimate, rfc3339);
        && (!p.Commit? ==>
              && storage.State() == old(storage.State())
              && trace.saved == None && trace.notified == None && !trace.warned)
        && (p.Reject? ==> r == Failure(p.error))
        && (p.Clarify? ==> r == Success(Clarification(p.response.clarifications, p.response)))
        && (p.Commit? ==>
              var err := SaveOutcome(old(storage.State()), p.meal, fault);
              && trace.saved == Some(p.meal)
              && storage.State() == (if err.None? then Inserted(old(storage.State()), p.meal) else old(storage.State()))
              && r == (if err.None? then Success(Logged(p.meal)) else Failure(SaveFailed(err.value)))
              && trace.notified == (if err.None? then Some(p.meal) else None)
              && trace.warned == (err.None? && !notify(p.meal)))
    {
      trace := Trace(None, None, None, false);
      if params.description == "" {
        return Failure(DescriptionRequired), trace;
      }
      var timestamp: Time;
      if params.timestamp != "" {
        var parsed := rfc3339(params.timestamp);
        if parsed.None? {
          return Failure(InvalidTimestamp), trace;
        }
        timestamp := parsed.value;
      } else {
        timestamp := clock.now;
      }
      var carbReq := CarbCalculationRequest(params.description, true);
      trace := trace.(estimateRequest := Some(carbReq));
      var carbResp := estimate(carbReq);
      if carbResp.Failure? {
        return Failure(CalculateFailed(carbResp.error)), trace;
      }
      if carbResp.value.needsMoreInfo && |carbResp.value.clarifications| > 0 {
        return Success(Clarification(carbResp.value.clarifications, carbResp.value)), trace;
      }
      var meal := BuildMeal(params.description, timestamp, carbResp.value, clock);
      trace := trace.(saved := Some(meal));
      var err := storage.SaveMeal(meal, fault);
      if err.Some? {
        return Failure(SaveFailed(err.value)), trace;
      }
      var delivered := notify(meal);
      trace := trace.(notified := Some(meal), warned := !delivered);
      return Success(Logged(meal)), trace;
    }

    /** get-meals: the limit defaulted, the dates passed on unchanged, the store's error wrapped. */
    method HandleGetMeals(params: GetMealsParams) returns (r: Result<seq<Meal>, ToolError>)
      ensures var q := QueryMeals(storage.State(), storage.codec, params.startDate, params.endDate, EffectiveLimit(params.limit));
        r == if q.Success? then Success(q.value) else Failure(RetrieveFailed(q.error))
      ensures r.Success? ==> |r.value| <= EffectiveLimit(params.limit)
      ensures r.Success? && params.limit <= 0 ==> |r.value| <= DEFAULT_LIMIT
    {
      var limit := params.limit;
      if limit <= 0 {
        limit := DEFAULT_LIMIT;
      }
      var meals := storage.GetMeals(params.startDate, params.endDate, limit);
      QueryMealsShape(storage.State(), storage.codec, params.startDate, params.endDate, limit);
      if meals.Failure? {
        return Failure(RetrieveFailed(meals.error));
      }
      return Success(meals.value);
    }
  }
}
