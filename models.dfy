/** The records shared by the estimator, the store and the tool handlers. */
module Models {
  import opened Times

  /** A confidence tag. In the program it is a string type with three named values; a value read
      back from the database is whatever text was stored. */
  type ConfidenceLevel = string

  const HIGH_CONFIDENCE: ConfidenceLevel := "high"
  const MEDIUM_CONFIDENCE: ConfidenceLevel := "medium"
  const LOW_CONFIDENCE: ConfidenceLevel := "low"

  predicate IsNamedLevel(c: ConfidenceLevel) {
    c == HIGH_CONFIDENCE || c == MEDIUM_CONFIDENCE || c == LOW_CONFIDENCE
  }

  /** The three named levels are pairwise distinct, so a level names exactly one of them. */
  lemma NamedLevelsDistinct()
    ensures HIGH_CONFIDENCE != MEDIUM_CONFIDENCE && MEDIUM_CONFIDENCE != LOW_CONFIDENCE
    ensures HIGH_CONFIDENCE != LOW_CONFIDENCE
    ensures !IsNamedLevel("") && IsNamedLevel("medium")
  {
    assert HIGH_CONFIDENCE[0] != MEDIUM_CONFIDENCE[0];
    assert MEDIUM_CONFIDENCE[0] != LOW_CONFIDENCE[0];
    assert HIGH_CONFIDENCE[0] != LOW_CONFIDENCE[0];
  }

  /** Provenance tags a meal's source field is documented to hold. */
  const MANUAL_SOURCE := "manual"
  const AI_PARSED_SOURCE := "ai_parsed"

  datatype Food = Food(
    name: string,
    quantity: string,
    carbsPer100g: real,
    estimatedCarbs: real,
    confidence: ConfidenceLevel)

  datatype Meal = Meal(
    id: string,
    description: string,
    timestamp: Time,
    foods: seq<Food>,
    totalCarbs: real,
    confidence: ConfidenceLevel,
    createdAt: Time,
    updatedAt: Time,
    source: string)

  /** What the estimator is asked: a description and whether clarifying questions are allowed. */
  datatype CarbCalculationRequest = CarbCalculationRequest(mealDescription: string, askClarifications: bool)

  datatype CarbCalculationResponse = CarbCalculationResponse(
    foods: seq<Food>,
    totalCarbs: real,
    confidence: ConfidenceLevel,
    clarifications: seq<string>,
    needsMoreInfo: bool)

  /** Sum of the foods' estimated carbohydrates, in grams. */
  function SumCarbs(foods: seq<Food>): real {
    if foods == [] then 0.0 else foods[0].estimatedCarbs + SumCarbs(foods[1..])
  }

  /** The JSON keys a response is encoded with: `clarifications` carries `omitempty`, so it is
      present exactly when there is at least one question; every other key is always present. */
  function ResponseJsonKeys(r: CarbCalculationResponse): (keys: set<string>)
    ensures "needs_more_info" in keys && "foods" in keys
    ensures "total_carbs" in keys && "confidence" in keys
    ensures "clarifications" in keys <==> |r.clarifications| > 0
    ensures |keys| == if |r.clarifications| > 0 then 5 else 4
  {
    var always := {"foods", "total_carbs", "confidence", "needs_more_info"};
    assert "clarifications" !in always;
    if |r.clarifications| > 0 then always + {"clarifications"} else always
  }
}
