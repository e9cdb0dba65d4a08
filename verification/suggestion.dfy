/** The suggestion record the services build: the eighteen members of a
    product idea. Every member is a JSON value because the Gemini service
    copies whatever truthy value the provider sent, unchecked. */
module Suggestions {
  import opened Wrappers
  import opened Json

  datatype Suggestion = Suggestion(
    id: JsonValue,
    productName: JsonValue,
    description: JsonValue,
    difficulty: JsonValue,
    estimatedCost: JsonValue,
    sellingPriceRange: JsonValue,
    earningPotential: JsonValue,
    carbonSavings: JsonValue,
    marketDemand: JsonValue,
    roi: JsonValue,
    timeRequired: JsonValue,
    materialsNeeded: JsonValue,
    toolsRequired: JsonValue,
    steps: JsonValue,
    sellingPlatforms: JsonValue,
    targetAudience: JsonValue,
    successRate: JsonValue,
    customerRating: JsonValue)

  /** The record as the JavaScript object it is: one member per field. */
  function ToJson(s: Suggestion): (v: JsonValue)
    ensures v.Obj?
  {
    Obj(map[
      "id" := s.id, "productName" := s.productName, "description" := s.description,
      "difficulty" := s.difficulty, "estimatedCost" := s.estimatedCost,
      "sellingPriceRange" := s.sellingPriceRange, "earningPotential" := s.earningPotential,
      "carbonSavings" := s.carbonSavings, "marketDemand" := s.marketDemand, "roi" := s.roi,
      "timeRequired" := s.timeRequired, "materialsNeeded" := s.materialsNeeded,
      "toolsRequired" := s.toolsRequired, "steps" := s.steps,
      "sellingPlatforms" := s.sellingPlatforms, "targetAudience" := s.targetAudience,
      "successRate" := s.successRate, "customerRating" := s.customerRating])
  }

  /** The identifying members of the object: id, name, description, level,
      cost and price range. */
  lemma ToJsonIdentity(s: Suggestion)
    ensures var v := ToJson(s);
      Member(v, "id") == Some(s.id) &&
      Member(v, "productName") == Some(s.productName) &&
      Member(v, "description") == Some(s.description) &&
      Member(v, "difficulty") == Some(s.difficulty) &&
      Member(v, "estimatedCost") == Some(s.estimatedCost) &&
      Member(v, "sellingPriceRange") == Some(s.sellingPriceRange)
  {
  }

  /** The figures of the object: earnings, savings, demand, ROI, time and
      materials. */
  lemma ToJsonFigures(s: Suggestion)
    ensures var v := ToJson(s);
      Member(v, "earningPotential") == Some(s.earningPotential) &&
      Member(v, "carbonSavings") == Some(s.carbonSavings) &&
      Member(v, "marketDemand") == Some(s.marketDemand) &&
      Member(v, "roi") == Some(s.roi) &&
      Member(v, "timeRequired") == Some(s.timeRequired) &&
      Member(v, "materialsNeeded") == Some(s.materialsNeeded)
  {
  }

  /** The instructions and audience of the object: tools, steps, platforms,
      audience, success rate and rating. */
  lemma ToJsonInstructions(s: Suggestion)
    ensures var v := ToJson(s);
      Member(v, "toolsRequired") == Some(s.toolsRequired) &&
      Member(v, "steps") == Some(s.steps) &&
      Member(v, "sellingPlatforms") == Some(s.sellingPlatforms) &&
      Member(v, "targetAudience") == Some(s.targetAudience) &&
      Member(v, "successRate") == Some(s.successRate) &&
      Member(v, "customerRating") == Some(s.customerRating)
  {
  }

  /** Each record as a JSON object, in order. */
  function ToJsonAll(ss: seq<Suggestion>): (r: seq<JsonValue>)
    ensures |r| == |ss|
    ensures forall i :: 0 <= i < |ss| ==> r[i] == ToJson(ss[i])
  {
    seq(|ss|, i requires 0 <= i < |ss| => ToJson(ss[i]))
  }

  /** No member is missing or falsy: what a caller reading any member with
      `||`-style checks sees as filled in. */
  predicate Complete(s: Suggestion)
  {
    && Truthy(s.id) && Truthy(s.productName) && Truthy(s.description) && Truthy(s.difficulty)
    && Truthy(s.estimatedCost) && Truthy(s.sellingPriceRange) && Truthy(s.earningPotential)
    && Truthy(s.carbonSavings) && Truthy(s.marketDemand) && Truthy(s.roi)
    && Truthy(s.timeRequired) && Truthy(s.materialsNeeded) && Truthy(s.toolsRequired)
    && Truthy(s.steps) && Truthy(s.sellingPlatforms) && Truthy(s.targetAudience)
    && Truthy(s.successRate) && Truthy(s.customerRating)
  }
}
