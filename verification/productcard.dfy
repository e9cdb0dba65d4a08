/** The three classifiers of the product card: a difficulty, a market
    demand and a return on investment each pick one Tailwind colour class.
    The difficulty is any JSON value or missing; demand and ROI are numbers,
    and a value of any other JavaScript type is not part of this model. */
module ProductCard {
  import opened Wrappers
  import opened Json
  import opened JsText

  // ---------------------------------------------------------------------
  // Difficulty

  const BeginnerClass: string := "bg-green-100 text-green-800"
  const IntermediateClass: string := "bg-yellow-100 text-yellow-800"
  const AdvancedClass: string := "bg-red-100 text-red-800"
  const UnknownLevelClass: string := "bg-gray-100 text-gray-800"

  /** The card's `product.difficulty` is a string whose lower-cased text is
      `level`. The value is whatever the service returned, so it may be
      missing (None) or of any JSON type. */
  predicate LevelIs(difficulty: Option<JsonValue>, level: string)
  {
    difficulty.Some? && difficulty.value.Str? && ToLower(difficulty.value.s) == level
  }

  /** `getDifficultyColor(difficulty)`: a switch on the lower-cased level
      with exact matches only; any other text gets gray. Only a string has
      `toLowerCase`: a missing difficulty, null, a number, a boolean, an
      array or an object makes the call throw (None), and the card does
      not render. */
  function DifficultyColor(difficulty: Option<JsonValue>): (r: Option<string>)
    ensures r.None? <==> !(difficulty.Some? && difficulty.value.Str?)
    ensures r == Some(BeginnerClass) <==> LevelIs(difficulty, "beginner")
    ensures r == Some(IntermediateClass) <==> LevelIs(difficulty, "intermediate")
    ensures r == Some(AdvancedClass) <==> LevelIs(difficulty, "advanced")
    ensures r == Some(UnknownLevelClass) <==>
      difficulty.Some? && difficulty.value.Str? &&
      !LevelIs(difficulty, "beginner") && !LevelIs(difficulty, "intermediate") && !LevelIs(difficulty, "advanced")
  {
    match difficulty
    case Some(Str(s)) =>
      Some(match ToLower(s)
           case "beginner" => BeginnerClass
           case "intermediate" => IntermediateClass
           case "advanced" => AdvancedClass
           case _ => UnknownLevelClass)
    case _ => None
  }

  /** Only the lower-cased text matters: "BEGINNER", "Beginner" and
      "beginner" look alike. */
  lemma DifficultyColorIgnoresCase(a: string, b: string)
    requires ToLower(a) == ToLower(b)
    ensures DifficultyColor(Some(Str(a))) == DifficultyColor(Some(Str(b)))
  {
  }

  /** The three levels the services write get green, yellow and red. */
  lemma ServiceLevelsColoured()
    ensures DifficultyColor(Some(Str("Beginner"))) == Some(BeginnerClass)
    ensures DifficultyColor(Some(Str("Intermediate"))) == Some(IntermediateClass)
    ensures DifficultyColor(Some(Str("Advanced"))) == Some(AdvancedClass)
  {
    assert ToLower("Beginner") == "beginner";
    assert ToLower("Intermediate") == "intermediate";
    assert ToLower("Advanced") == "advanced";
  }

  /** No trimming: a level with a trailing space is unknown. */
  lemma PaddedLevelIsGray()
    ensures DifficultyColor(Some(Str("Beginner "))) == Some(UnknownLevelClass)
  {
    assert |ToLower("Beginner ")| == 9;
  }

  /** The difficulties no service checks break the card: an OpenRouter or
      Hugging Face entry without one, and the empty list Gemini's
      normalisation keeps because it is truthy. */
  lemma UncheckedDifficultiesThrow()
    ensures DifficultyColor(None) == None
    ensures DifficultyColor(Some(Arr([]))) == None
    ensures DifficultyColor(Some(Null)) == None
  {
  }

  // ---------------------------------------------------------------------
  // Demand and ROI

  /** The three bands of both number classifiers, from low to high. */
  datatype Band = Low | Middle | High

  function Rank(b: Band): nat
  {
    match b
    case Low => 0
    case Middle => 1
    case High => 2
  }

  /** `demand >= 80` is high, `demand >= 60` middle: each boundary belongs
      to the higher band. */
  function DemandBand(demand: real): (b: Band)
    ensures b == High <==> demand >= 80.0
    ensures b == Middle <==> 60.0 <= demand < 80.0
    ensures b == Low <==> demand < 60.0
  {
    if demand >= 80.0 then High else if demand >= 60.0 then Middle else Low
  }

  /** A higher demand never lands in a lower band. */
  lemma DemandBandMonotone(x: real, y: real)
    requires x <= y
    ensures Rank(DemandBand(x)) <= Rank(DemandBand(y))
  {
  }

  /** `getDemandColor(demand)`: red for high demand, orange for middle,
      green for low. */
  function DemandColor(demand: real): (r: string)
    ensures DemandBand(demand) == High ==> r == "bg-red-500"
    ensures DemandBand(demand) == Middle ==> r == "bg-orange-500"
    ensures DemandBand(demand) == Low ==> r == "bg-green-500"
  {
    if demand >= 80.0 then "bg-red-500"
    else if demand >= 60.0 then "bg-orange-500"
    else "bg-green-500"
  }

  /** `roi > 150` is high, `roi > 100` middle: each boundary belongs to the
      lower band, the opposite of the demand bands. */
  function RoiBand(roi: real): (b: Band)
    ensures b == High <==> roi > 150.0
    ensures b == Middle <==> 100.0 < roi <= 150.0
    ensures b == Low <==> roi <= 100.0
  {
    if roi > 150.0 then High else if roi > 100.0 then Middle else Low
  }

  /** A higher return never lands in a lower band. */
  lemma RoiBandMonotone(x: real, y: real)
    requires x <= y
    ensures Rank(RoiBand(x)) <= Rank(RoiBand(y))
  {
  }

  /** The ROI colour of the card: green for a high return, yellow for a
      middle one, red for a low one. */
  function RoiColor(roi: real): (r: string)
    ensures RoiBand(roi) == High ==> r == "text-green-600"
    ensures RoiBand(roi) == Middle ==> r == "text-yellow-600"
    ensures RoiBand(roi) == Low ==> r == "text-red-600"
  {
    if roi > 150.0 then "text-green-600"
    else if roi > 100.0 then "text-yellow-600"
    else "text-red-600"
  }

  /** The default ROI of 120 a normalised entry gets shows yellow, and a
      demand of 75 shows orange; 150 is still yellow, 80 already red. */
  lemma DefaultsAndBoundaries()
    ensures RoiColor(120.0) == "text-yellow-600" && RoiColor(150.0) == "text-yellow-600"
    ensures DemandColor(75.0) == "bg-orange-500" && DemandColor(80.0) == "bg-red-500"
  {
  }
}
