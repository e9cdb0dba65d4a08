/** The Hugging Face service. A reply whose generated text holds
    `{ "suggestions": [ ... ] }` is returned as the provider sent it, with
    no check of the entries. Every other outcome ends in the enhanced mock,
    whose figures scale with the quantity, except that a reply which cannot
    be parsed gives the mock for ONE kilogram whatever was asked.
    Categories come from a keyword table alone; no provider is called. */
module HuggingFaceService {
  import opened Wrappers
  import opened JsText
  import opened JsMath
  import opened Json
  import opened ResponseText
  import opened Suggestions
  import opened CategoryTables

  // ---------------------------------------------------------------------
  // Categories

  /** The keyword table behind `getCategories`, in the order of its
      if-chain: "wood" alone, without "timber". */
  const CategoryRules: seq<Rule> := [
    Rule(["plastic"], PlasticCategories),
    Rule(["wood"], WoodCategories),
    Rule(["metal"], MetalCategories),
    Rule(["glass"], GlassCategories),
    Rule(["textile", "cloth"], TextileCategories),
    Rule(["electronic", "e-waste"], ElectronicCategories),
    Rule(["paper", "cardboard"], PaperCategories),
    Rule(["organic", "food"], OrganicCategories)]

  /** `getCategories(material)`: five categories chosen by the first
      keyword the lower-cased material contains. */
  function GetCategories(material: string): (r: seq<string>)
    ensures |r| == 5
  {
    var m := ToLower(material);
    if Contains(m, "plastic") then PlasticCategories
    else if Contains(m, "wood") then WoodCategories
    else if Contains(m, "metal") then MetalCategories
    else if Contains(m, "glass") then GlassCategories
    else if Contains(m, "textile") || Contains(m, "cloth") then TextileCategories
    else if Contains(m, "electronic") || Contains(m, "e-waste") then ElectronicCategories
    else if Contains(m, "paper") || Contains(m, "cardboard") then PaperCategories
    else if Contains(m, "organic") || Contains(m, "food") then OrganicCategories
    else GenericCategories
  }

  /** The if-chain is the table read top to bottom, first match winning. */
  lemma GetCategoriesIsFirstMatch(material: string)
    ensures GetCategories(material) == FirstMatch(CategoryRules, ToLower(material))
  {
    var m := ToLower(material);
    MatchesOne("plastic", PlasticCategories, m);
    MatchesOne("wood", WoodCategories, m);
    MatchesOne("metal", MetalCategories, m);
    MatchesOne("glass", GlassCategories, m);
    MatchesTwo("textile", "cloth", TextileCategories, m);
    MatchesTwo("electronic", "e-waste", ElectronicCategories, m);
    MatchesTwo("paper", "cardboard", PaperCategories, m);
    MatchesTwo("organic", "food", OrganicCategories, m);
    FirstMatchOfEight(CategoryRules, m);
  }

  /** No keyword of the table occurs in "timber". */
  lemma NoKeywordInTimber()
    ensures !Contains("timber", "plastic") && !Contains("timber", "wood") && !Contains("timber", "metal")
    ensures !Contains("timber", "glass") && !Contains("timber", "textile") && !Contains("timber", "cloth")
    ensures !Contains("timber", "electronic") && !Contains("timber", "e-waste")
    ensures !Contains("timber", "paper") && !Contains("timber", "cardboard")
    ensures !Contains("timber", "organic") && !Contains("timber", "food")
  {
    var m := "timber";
    AbsentFirstChar(m, "plastic");
    AbsentFirstChar(m, "wood");
    AbsentFirstChar(m, "metal");
    AbsentFirstChar(m, "glass");
    AbsentFirstChar(m, "textile");
    AbsentFirstChar(m, "cloth");
    AbsentFirstChar(m, "electronic");
    AbsentFirstChar(m, "e-waste");
    AbsentFirstChar(m, "paper");
    AbsentFirstChar(m, "cardboard");
    AbsentFirstChar(m, "organic");
    AbsentFirstChar(m, "food");
  }

  /** Without the "timber" keyword, "Timber" falls through to the generic
      list. */
  lemma TimberIsGeneric()
    ensures GetCategories("Timber") == GenericCategories
  {
    assert ToLower("Timber") == "timber";
    NoKeywordInTimber();
  }

  // ---------------------------------------------------------------------
  // The enhanced mock

  /** `Math.max(100, quantity * 20)`: 20 per unit, never below 100, so
      the floor applies up to 5 units. */
  function BaseCost(quantity: real): (r: real)
    ensures r >= 100.0 && r >= quantity * 20.0
    ensures quantity <= 5.0 ==> r == 100.0
    ensures quantity >= 5.0 ==> r == quantity * 20.0
  {
    Max(100.0, quantity * 20.0)
  }

  /** `Math.max(200, quantity * 50)`: 50 per unit, never below 200, so
      the floor applies up to 4 units. */
  function BasePrice(quantity: real): (r: real)
    ensures r >= 200.0 && r >= quantity * 50.0
    ensures quantity <= 4.0 ==> r == 200.0
    ensures quantity >= 4.0 ==> r == quantity * 50.0
  {
    Max(200.0, quantity * 50.0)
  }

  /** The figures of one mock idea: its cost, its price range, its
      earnings range (whole rupees) and its carbon savings. */
  datatype Figures = Figures(cost: real, priceLow: real, priceHigh: real, earnLow: int, earnHigh: int, savings: real)

  /** The figures of the three ideas for a quantity: the planter costs
      the base cost and is priced from the base price to 300 more; the
      organizer costs 50 more and is priced 100 to 600 above the base
      price, the art piece 100 more and 200 to 1000 above it; the earnings
      are 30%-70%, 40%-60% and 50%-50% of the price bounds, rounded to
      whole rupees, and the savings 0.8, 0.6 and 1.2 per unit, rounded to
      a tenth. Every price range and earnings range is ordered, and the
      earnings stay below the prices; for a non-negative quantity the
      savings are non-negative, the organizer saving least and the art
      piece most. */
  function IdeaFigures(quantity: real): (r: seq<Figures>)
    ensures |r| == 3
    ensures forall i :: 0 <= i < |r| ==>
      && 100.0 <= r[i].cost
      && 200.0 <= r[i].priceLow < r[i].priceHigh
      && 0 < r[i].earnLow <= r[i].earnHigh
      && r[i].earnLow as real < r[i].priceLow && r[i].earnHigh as real < r[i].priceHigh
    ensures r[1].cost == r[0].cost + 50.0 && r[2].cost == r[0].cost + 100.0
    ensures quantity >= 0.0 ==> 0.0 <= r[1].savings <= r[0].savings <= r[2].savings
    ensures r[0].cost == BaseCost(quantity) && r[0].priceLow == BasePrice(quantity)
    ensures r[0].priceHigh == r[0].priceLow + 300.0
    ensures r[1].priceLow == r[0].priceLow + 100.0 && r[1].priceHigh == r[0].priceLow + 600.0
    ensures r[2].priceLow == r[0].priceLow + 200.0 && r[2].priceHigh == r[0].priceLow + 1000.0
    ensures r[0].earnLow == MathRound(r[0].priceLow * 0.3) && r[0].earnHigh == MathRound(r[0].priceHigh * 0.7)
    ensures r[1].earnLow == MathRound(r[1].priceLow * 0.4) && r[1].earnHigh == MathRound(r[1].priceHigh * 0.6)
    ensures r[2].earnLow == MathRound(r[2].priceLow * 0.5) && r[2].earnHigh == MathRound(r[2].priceHigh * 0.5)
    ensures r[0].savings == RoundTenth(quantity * 0.8) && r[1].savings == RoundTenth(quantity * 0.6)
    ensures r[2].savings == RoundTenth(quantity * 1.2)
  {
    var c, p := BaseCost(quantity), BasePrice(quantity);
    var f := [
      Figures(c, p, p + 300.0, MathRound(p * 0.3), MathRound((p + 300.0) * 0.7), RoundTenth(quantity * 0.8)),
      Figures(c + 50.0, p + 100.0, p + 600.0, MathRound((p + 100.0) * 0.4), MathRound((p + 600.0) * 0.6), RoundTenth(quantity * 0.6)),
      Figures(c + 100.0, p + 200.0, p + 1000.0, MathRound((p + 200.0) * 0.5), MathRound((p + 1000.0) * 0.5), RoundTenth(quantity * 1.2))];
    MathRoundMonotone(p * 0.3, (p + 300.0) * 0.7);
    MathRoundMonotone((p + 100.0) * 0.4, (p + 600.0) * 0.6);
    MathRoundMonotone((p + 200.0) * 0.5, (p + 1000.0) * 0.5);
    SavingsOrdered(quantity);
    f
  }

  /** 0.6 q <= 0.8 q <= 1.2 q survives rounding. */
  lemma SavingsOrdered(quantity: real)
    ensures quantity >= 0.0 ==>
      0.0 <= RoundTenth(quantity * 0.6) <= RoundTenth(quantity * 0.8) <= RoundTenth(quantity * 1.2)
  {
    if quantity >= 0.0 {
      RoundTenthNonNegative(quantity * 0.6);
      RoundTenthMonotone(quantity * 0.6, quantity * 0.8);
      RoundTenthMonotone(quantity * 0.8, quantity * 1.2);
    }
  }

  /** The fallback a failed parse uses, for one kilogram: costs 100, 150
      and 200, prices 200-500, 300-800 and 400-1200, earnings 60-350,
      120-480 and 200-600, savings 0.8, 0.6 and 1.2. */
  lemma OneKilogramFigures()
    ensures IdeaFigures(1.0) == [
      Figures(100.0, 200.0, 500.0, 60, 350, 0.8),
      Figures(150.0, 300.0, 800.0, 120, 480, 0.6),
      Figures(200.0, 400.0, 1200.0, 200, 600, 1.2)]
  {
    RoundTenthUnique(0.8, 0.8);
    RoundTenthUnique(0.6, 0.6);
    RoundTenthUnique(1.2, 1.2);
  }

  /** Past the floors the figures grow with the quantity: from 10 units on,
      the cost is 20 and the lowest price 50 per unit. */
  lemma LargeQuantityFigures(quantity: real)
    requires quantity >= 10.0
    ensures IdeaFigures(quantity)[0].cost == quantity * 20.0
    ensures IdeaFigures(quantity)[0].priceLow == quantity * 50.0
  {
  }

  /** A rupee range `₹${low}-${high}`. */
  function RupeeRange(low: real, high: real, fmt: NumberFormat): (r: string)
    ensures var a, b := fmt.toString(low), fmt.toString(high);
      |r| == |a| + |b| + 2 && r[0] == '\U{20B9}' && r[1..|a| + 1] == a && r[|a| + 1] == '-' && r[|a| + 2..] == b
  {
    "\U{20B9}" + fmt.toString(low) + "-" + fmt.toString(high)
  }

  /** The idea shows the figures: its cost, its savings and its price
      range. */
  predicate Carries(s: Suggestion, f: Figures, fmt: NumberFormat)
  {
    && s.estimatedCost == Num(f.cost) && s.carbonSavings == Num(f.savings)
    && s.sellingPriceRange == Str(RupeeRange(f.priceLow, f.priceHigh, fmt))
  }

  // The fixed texts of the planter idea.
  const PlanterPitchEnd: string := " into beautiful planters perfect for Indian homes. Great for small gardens and balcony gardening. Saves "
  const PlanterSupplies: seq<string> := ["Potting soil", "Seeds or small plants", "Eco-friendly paint", "Decorative stones"]
  const PlanterTools: seq<string> := ["Scissors/Cutter", "Paint brushes", "Drill (for drainage)", "Measuring tape"]
  const PlanterLaterSteps: seq<string> := [
    "Create drainage holes at the bottom",
    "Paint and decorate the exterior",
    "Add soil and plant your seeds",
    "Water lightly and place in sunlight"]
  const PlanterPlatforms: seq<string> := ["Amazon India", "Flipkart", "Local Nursery"]

  /** The first idea: a planter whose text states the savings to one
      decimal. */
  function MockPlanter(material: string, category: string, quantity: real, fmt: NumberFormat, f: Figures): (r: Suggestion)
    ensures r.id == Str("1") && r.difficulty == Str("Beginner")
    ensures Carries(r, f, fmt)
  {
    var mc := material + " " + category;
    Suggestion(
      Str("1"),
      Str("Upcycled " + mc + " Planter"),
      Str("Transform " + mc + PlanterPitchEnd + fmt.toFixed1(quantity * 0.8) + " kg CO2."),
      Str("Beginner"),
      Num(f.cost),
      Str(RupeeRange(f.priceLow, f.priceHigh, fmt)),
      Str(RupeeRange(f.earnLow as real, f.earnHigh as real, fmt)),
      Num(f.savings),
      Num(85.0),
      Num(150.0),
      Str("2-3 hours"),
      Arr(StrItems([mc] + PlanterSupplies)),
      Arr(StrItems(PlanterTools)),
      Arr(StrItems(["Clean and prepare the " + mc] + PlanterLaterSteps)),
      Arr(StrItems(PlanterPlatforms)),
      Str("Urban gardeners and plant lovers"),
      Str("90%"),
      Str("4.5/5"))
  }

  // The fixed texts of the home organizer idea.
  const OrganizerPitch: string := "Create practical storage solutions from "
  const OrganizerPitchEnd: string := ". Perfect for Indian households to organize kitchen, office, or bathroom items."
  const OrganizerSupplies: seq<string> := ["Strong adhesive", "Eco-friendly paint", "Decorative paper", "Small hardware"]
  const OrganizerTools: seq<string> := ["Measuring tape", "Cutter/Scissors", "Paint brushes", "Sandpaper"]
  const OrganizerLaterSteps: seq<string> := [
    "Sand edges for smooth finish",
    "Assemble pieces with strong adhesive",
    "Paint and decorate as desired",
    "Add any dividers or compartments"]
  const OrganizerPlatforms: seq<string> := ["Amazon India", "Flipkart", "Facebook Marketplace"]

  /** The second idea: a home organizer. */
  function MockOrganizer(material: string, category: string, fmt: NumberFormat, f: Figures): (r: Suggestion)
    ensures r.id == Str("2") && r.difficulty == Str("Intermediate")
    ensures Carries(r, f, fmt)
  {
    var mc := material + " " + category;
    Suggestion(
      Str("2"),
      Str(mc + " Home Organizer"),
      Str(OrganizerPitch + mc + OrganizerPitchEnd),
      Str("Intermediate"),
      Num(f.cost),
      Str(RupeeRange(f.priceLow, f.priceHigh, fmt)),
      Str(RupeeRange(f.earnLow as real, f.earnHigh as real, fmt)),
      Num(f.savings),
      Num(78.0),
      Num(120.0),
      Str("3-4 hours"),
      Arr(StrItems([mc] + OrganizerSupplies)),
      Arr(StrItems(OrganizerTools)),
      Arr(StrItems(["Measure and cut " + material + " to required sizes"] + OrganizerLaterSteps)),
      Arr(StrItems(OrganizerPlatforms)),
      Str("Home organization enthusiasts"),
      Str("85%"),
      Str("4.3/5"))
  }

  // The fixed texts of the art piece idea.
  const ArtPitchEnd: string := " into unique wall art or decorative items. Adds character to any Indian home while being eco-friendly."
  const ArtSupplies: seq<string> := ["Art supplies", "Frame materials", "LED lights (optional)", "Protective coating"]
  const ArtTools: seq<string> := ["Hot glue gun", "Precision tools", "Paint equipment", "Safety gear"]
  const ArtLaterSteps: seq<string> := [
    "Prepare and clean all materials thoroughly",
    "Assemble the main structure",
    "Add artistic details and colors",
    "Apply protective coating and finish"]
  const ArtPlatforms: seq<string> := ["Etsy", "Local Art Markets", "Custom Orders"]

  /** The third idea: an art piece. */
  function MockArtPiece(material: string, category: string, fmt: NumberFormat, f: Figures): (r: Suggestion)
    ensures r.id == Str("3") && r.difficulty == Str("Advanced")
    ensures Carries(r, f, fmt)
  {
    var mc := material + " " + category;
    Suggestion(
      Str("3"),
      Str("Creative " + material + " Art Piece"),
      Str("Turn " + mc + ArtPitchEnd),
      Str("Advanced"),
      Num(f.cost),
      Str(RupeeRange(f.priceLow, f.priceHigh, fmt)),
      Str(RupeeRange(f.earnLow as real, f.earnHigh as real, fmt)),
      Num(f.savings),
      Num(65.0),
      Num(180.0),
      Str("4-5 hours"),
      Arr(StrItems([mc] + ArtSupplies)),
      Arr(StrItems(ArtTools)),
      Arr(StrItems(["Design your art concept using " + material] + ArtLaterSteps)),
      Arr(StrItems(ArtPlatforms)),
      Str("Art lovers and interior designers"),
      Str("75%"),
      Str("4.7/5"))
  }

  /** `getEnhancedMockSuggestions(material, category, quantity, unit)`:
      three ideas, Beginner, Intermediate and Advanced, carrying the figures
      of `IdeaFigures(quantity)`. The unit is only logged. */
  function GetEnhancedMockSuggestions(material: string, category: string, quantity: real, unit: string,
                                      fmt: NumberFormat): (r: seq<Suggestion>)
    ensures |r| == 3
  {
    var f := IdeaFigures(quantity);
    [MockPlanter(material, category, quantity, fmt, f[0]),
     MockOrganizer(material, category, fmt, f[1]),
     MockArtPiece(material, category, fmt, f[2])]
  }

  /** The three ideas are numbered 1 to 3 and rise in difficulty. */
  lemma MockIdsAndLevels(material: string, category: string, quantity: real, unit: string, fmt: NumberFormat)
    ensures var r := GetEnhancedMockSuggestions(material, category, quantity, unit, fmt);
      && r[0].id == Str("1") && r[1].id == Str("2") && r[2].id == Str("3")
      && r[0].difficulty == Str("Beginner") && r[1].difficulty == Str("Intermediate")
      && r[2].difficulty == Str("Advanced")
  {
  }

  /** Each idea carries its figures, so the properties of `IdeaFigures`
      hold of the mock. */
  lemma MockCarriesFigures(material: string, category: string, quantity: real, unit: string, fmt: NumberFormat)
    ensures var r := GetEnhancedMockSuggestions(material, category, quantity, unit, fmt);
      forall i :: 0 <= i < |r| ==> Carries(r[i], IdeaFigures(quantity)[i], fmt)
  {
  }

  /** The unit changes nothing in the mock. */
  lemma MockIgnoresUnit(material: string, category: string, quantity: real, u1: string, u2: string, fmt: NumberFormat)
    ensures GetEnhancedMockSuggestions(material, category, quantity, u1, fmt)
      == GetEnhancedMockSuggestions(material, category, quantity, u2, fmt)
  {
  }

  // ---------------------------------------------------------------------
  // Suggestions

  /** What the service hands back: the provider's array as sent, or the
      mock ideas. */
  datatype Answer = ProviderArray(items: seq<JsonValue>) | Fallback(ideas: seq<Suggestion>)

  /** `parseAIResponse(response, material, category)`: the `suggestions`
      array, unchecked, when every extraction step succeeds; otherwise the
      mock called without quantity and unit, that is for 1 kg. */
  function ParseAIResponse(response: JsonValue, material: string, category: string,
                           parse: JsonParser, fmt: NumberFormat): (r: Answer)
    ensures ReplyArray(Some(response), "suggestions", parse).Some? ==>
      r == ProviderArray(ReplyArray(Some(response), "suggestions", parse).value)
    ensures ReplyArray(Some(response), "suggestions", parse).None? ==>
      r == Fallback(GetEnhancedMockSuggestions(material, category, 1.0, "kg", fmt))
  {
    match ReplyArray(Some(response), "suggestions", parse)
    case Some(items) => ProviderArray(items)
    case None => Fallback(GetEnhancedMockSuggestions(material, category, 1.0, "kg", fmt))
  }

  /** `analyzeWaste(material, category, quantity, unit)`: never throws. A
      failed call, or a reply without a truthy generated text, gives the
      mock for the request's quantity and unit; a truthy text goes through
      `parseAIResponse`. */
  function AnalyzeWaste(material: string, category: string, quantity: real, unit: string,
                        reply: Reply, parse: JsonParser, fmt: NumberFormat): (r: Answer)
    ensures !(reply.Delivered? && reply.text.Some? && Truthy(reply.text.value)) ==>
      r == Fallback(GetEnhancedMockSuggestions(material, category, quantity, unit, fmt))
    ensures reply.Delivered? && reply.text.Some? && Truthy(reply.text.value) ==>
      r == ParseAIResponse(reply.text.value, material, category, parse, fmt)
    ensures r.Fallback? ==> |r.ideas| == 3
  {
    match reply
    case Delivered(Some(text)) =>
      if Truthy(text) then ParseAIResponse(text, material, category, parse, fmt)
      else Fallback(GetEnhancedMockSuggestions(material, category, quantity, unit, fmt))
    case _ => Fallback(GetEnhancedMockSuggestions(material, category, quantity, unit, fmt))
  }

  /** Whatever the quantity, an unparsable reply gives the same answer:
      the one-kilogram mock. */
  lemma UnparsableReplyIgnoresQuantity(material: string, category: string, quantity: real, unit: string,
                                       text: string, parse: JsonParser, fmt: NumberFormat)
    requires text != "" && Candidate(text).None?
    ensures AnalyzeWaste(material, category, quantity, unit, Delivered(Some(Str(text))), parse, fmt)
      == Fallback(GetEnhancedMockSuggestions(material, category, 1.0, "kg", fmt))
  {
    assert Truthy(Str(text));
    NoCandidateNoArray(text, "suggestions", parse);
  }
}
