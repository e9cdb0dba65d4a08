/** The Gemini service, the one the analysis route calls. A reply whose
    text holds `{ "suggestions": [ ... ] }` is normalised entry by entry:
    every member the provider left missing or falsy gets a fixed default,
    nothing else is changed, and the array keeps its length and order.
    Every failure, from the HTTP call to a null entry in the array, ends in
    the fixed three-item mock. Categories follow the same pattern with a
    keyword table as fallback. */
module GeminiService {
  import opened Wrappers
  import opened JsText
  import opened Json
  import opened ResponseText
  import opened Suggestions
  import opened CategoryTables

  // ---------------------------------------------------------------------
  // Categories

  /** The keyword table behind `getDefaultCategories`, in the order of its
      if-chain. */
  const DefaultCategoryRules: seq<Rule> := [
    Rule(["plastic"], PlasticCategories),
    Rule(["wood", "timber"], WoodCategories),
    Rule(["metal"], MetalCategories),
    Rule(["glass"], GlassCategories),
    Rule(["textile", "cloth"], TextileCategories),
    Rule(["electronic", "e-waste"], ElectronicCategories),
    Rule(["paper", "cardboard"], PaperCategories),
    Rule(["organic", "food"], OrganicCategories)]

  /** `getDefaultCategories(material)`: five categories chosen by the first
      keyword the lower-cased material contains. */
  function GetDefaultCategories(material: string): (r: seq<string>)
    ensures |r| == 5
  {
    var m := ToLower(material);
    if Contains(m, "plastic") then PlasticCategories
    else if Contains(m, "wood") || Contains(m, "timber") then WoodCategories
    else if Contains(m, "metal") then MetalCategories
    else if Contains(m, "glass") then GlassCategories
    else if Contains(m, "textile") || Contains(m, "cloth") then TextileCategories
    else if Contains(m, "electronic") || Contains(m, "e-waste") then ElectronicCategories
    else if Contains(m, "paper") || Contains(m, "cardboard") then PaperCategories
    else if Contains(m, "organic") || Contains(m, "food") then OrganicCategories
    else GenericCategories
  }

  /** The if-chain is the table read top to bottom, first match winning. */
  lemma GetDefaultCategoriesIsFirstMatch(material: string)
    ensures GetDefaultCategories(material) == FirstMatch(DefaultCategoryRules, ToLower(material))
  {
    var m := ToLower(material);
    MatchesOne("plastic", PlasticCategories, m);
    MatchesTwo("wood", "timber", WoodCategories, m);
    MatchesOne("metal", MetalCategories, m);
    MatchesOne("glass", GlassCategories, m);
    MatchesTwo("textile", "cloth", TextileCategories, m);
    MatchesTwo("electronic", "e-waste", ElectronicCategories, m);
    MatchesTwo("paper", "cardboard", PaperCategories, m);
    MatchesTwo("organic", "food", OrganicCategories, m);
    FirstMatchOfEight(DefaultCategoryRules, m);
  }

  /** The argument-less call `getDefaultCategories()` (material '') gives
      the generic list. */
  lemma DefaultCategoriesOfNothing()
    ensures GetDefaultCategories("") == GenericCategories
  {
    assert ToLower("") == "";
  }

  /** "Timber" counts as wood here, ahead of every later keyword. */
  lemma TimberIsWood()
    ensures GetDefaultCategories("Timber") == WoodCategories
  {
    assert ToLower("Timber") == "timber";
    assert OccursAt("timber", "timber", 0);
    AbsentFirstChar("timber", "plastic");
    AbsentFirstChar("timber", "wood");
  }

  /** `parseCategoriesResponse(response)`: the first five elements of the
      parsed `categories` array, whatever they are; on any failure the catch
      calls `getDefaultCategories()` WITHOUT the material, so the generic
      list comes back whatever was asked. A text that is not a string makes
      `response.replace` throw inside the same try. */
  function ParseCategoriesResponse(response: Option<JsonValue>, parse: JsonParser): (r: seq<JsonValue>)
    ensures |r| <= 5
    ensures ReplyArray(response, "categories", parse).Some? ==>
      var items := ReplyArray(response, "categories", parse).value;
      |r| == (if |items| < 5 then |items| else 5) && r == items[..|r|]
    ensures ReplyArray(response, "categories", parse).None? ==> r == StrItems(GenericCategories)
  {
    match ReplyArray(response, "categories", parse)
    case Some(items) => if |items| <= 5 then items else items[..5]
    case None => DefaultCategoriesOfNothing(); StrItems(GetDefaultCategories(""))
  }

  /** `getCategories(material)`: never throws. A failed call falls back on
      the material's own default list; a delivered reply goes through
      `parseCategoriesResponse`, whose failures give the generic list. */
  function GetCategories(material: string, reply: Reply, parse: JsonParser): (r: seq<JsonValue>)
    ensures reply.Failed? ==> r == StrItems(GetDefaultCategories(material))
    ensures reply.Delivered? ==> r == ParseCategoriesResponse(reply.text, parse)
    ensures |r| <= 5
  {
    match reply
    case Failed(_) => StrItems(GetDefaultCategories(material))
    case Delivered(text) => ParseCategoriesResponse(text, parse)
  }

  /** A reply for "plastic" without any JSON in it gives the generic list,
      not the plastic one. */
  lemma UnparsableCategoriesIgnoreMaterial(material: string, text: string, parse: JsonParser)
    requires Candidate(text).None?
    ensures GetCategories(material, Delivered(Some(Str(text))), parse) == StrItems(GenericCategories)
  {
  }

  // ---------------------------------------------------------------------
  // Suggestions

  /** The throw that ends `parseAIResponse` on every failure: its catch
      calls `getMockSuggestions()` without arguments, and
      `material.charAt(0)` on the undefined material raises a TypeError. */
  datatype Thrown = MockCalledWithoutMaterial

  /** `getMockSuggestions(material, category, quantity, unit)`: three fixed
      ideas, Beginner, Intermediate and Advanced, with ids '1', '2', '3'.
      Only the texts mention the material and category; the figures are
      constants, whatever the quantity and unit. */
  function GetMockSuggestions(material: string, category: string, quantity: real, unit: string): (r: seq<Suggestion>)
    ensures |r| == 3
    ensures r[0].id == Str("1") && r[1].id == Str("2") && r[2].id == Str("3")
    ensures r[0].difficulty == Str("Beginner") && r[1].difficulty == Str("Intermediate")
      && r[2].difficulty == Str("Advanced")
    ensures forall i :: 0 <= i < |r| ==> Complete(r[i])
  {
    [MockPlanters(material, category), MockOrganizers(material, category), MockArtInstallation(material, category)]
  }

  // The fixed texts of the planters idea.
  const PlantersPitch: string := "Create beautiful planters and garden decor using "
  const PlantersPitchEnd: string := ". Perfect for urban gardening and home decoration."
  const PlantersSupplies: seq<string> := ["Soil", "Seeds", "Paint", "Decorative items"]
  const PlantersTools: seq<string> := ["Scissors", "Brush", "Drill", "Measuring tape"]
  const PlantersSteps: seq<string> := [
    "Clean and prepare the materials thoroughly",
    "Create proper drainage holes if needed",
    "Decorate and customize the design with paint",
    "Add quality soil and compost mixture",
    "Plant seeds or small plants and water properly"]
  const PlantersPlatforms: seq<string> := ["Amazon India", "Flipkart", "Local Nursery Markets"]
  const PlantersAudience: string := "Urban gardeners and home decor enthusiasts"

  /** The first mock idea: planters, named after the capitalised material. */
  function MockPlanters(material: string, category: string): (r: Suggestion)
    ensures r.id == Str("1") && r.difficulty == Str("Beginner")
    ensures r.productName == Str(Capitalise(material) + " " + category + " Planters")
    ensures Complete(r)
  {
    var mc := material + " " + category;
    Suggestion(
      Str("1"),
      Str(Capitalise(material) + " " + category + " Planters"),
      Str(PlantersPitch + mc + PlantersPitchEnd),
      Str("Beginner"),
      Num(150.0),
      Str("\U{20B9}200-500"),
      Str("\U{20B9}50-350"),
      Num(8.5),
      Num(85.0),
      Num(150.0),
      Str("2-3 hours"),
      Arr(StrItems([mc] + PlantersSupplies)),
      Arr(StrItems(PlantersTools)),
      Arr(StrItems(PlantersSteps)),
      Arr(StrItems(PlantersPlatforms)),
      Str(PlantersAudience),
      Str("90%"),
      Str("4.5/5"))
  }

  // The fixed texts of the home organizers idea.
  const OrganizersPitch: string := "Transform "
  const OrganizersPitchEnd: string := " into practical home organization solutions with stylish designs for modern Indian homes."
  const OrganizersSupplies: seq<string> := ["Strong adhesive", "Paint", "Hardware", "Decorative paper"]
  const OrganizersTools: seq<string> := ["Cutter", "Sander", "Paint brushes", "Measuring tape"]
  const OrganizersSteps: seq<string> := [
    "Design the organizer layout based on available space",
    "Cut and shape materials to required dimensions",
    "Assemble and securely join all pieces",
    "Apply finish with paint or decorative covering",
    "Add any functional hardware or decorative elements"]
  const OrganizersPlatforms: seq<string> := ["Amazon India", "Flipkart", "Facebook Marketplace"]
  const OrganizersAudience: string := "Home organization enthusiasts and DIY lovers"

  /** The second mock idea: home organizers. */
  function MockOrganizers(material: string, category: string): (r: Suggestion)
    ensures r.id == Str("2") && r.difficulty == Str("Intermediate")
    ensures Complete(r)
  {
    var mc := material + " " + category;
    Suggestion(
      Str("2"),
      Str("Creative " + material + " Home Organizers"),
      Str(OrganizersPitch + mc + OrganizersPitchEnd),
      Str("Intermediate"),
      Num(200.0),
      Str("\U{20B9}300-800"),
      Str("\U{20B9}100-600"),
      Num(6.2),
      Num(78.0),
      Num(120.0),
      Str("3-4 hours"),
      Arr(StrItems([mc] + OrganizersSupplies)),
      Arr(StrItems(OrganizersTools)),
      Arr(StrItems(OrganizersSteps)),
      Arr(StrItems(OrganizersPlatforms)),
      Str(OrganizersAudience),
      Str("85%"),
      Str("4.3/5"))
  }

  // The fixed texts of the art installation idea.
  const ArtPitch: string := "Create unique artistic pieces and decorative installations from "
  const ArtPitchEnd: string := " for contemporary home and office decor."
  const ArtSupplies: seq<string> := ["Art supplies", "Frame materials", "LED lights", "Protective coating"]
  const ArtTools: seq<string> := ["Hot glue gun", "Precision cutting tools", "Electrical tools", "Paint equipment"]
  const ArtSteps: seq<string> := [
    "Plan the artistic design concept and layout",
    "Prepare and thoroughly clean all materials",
    "Assemble the main structural framework",
    "Add artistic elements, textures and details",
    "Apply final protective coating and finishing"]
  const ArtPlatforms: seq<string> := ["Etsy", "Art galleries", "Custom interior design orders"]
  const ArtAudience: string := "Art collectors, interior designers, and premium home owners"

  /** The third mock idea: an art installation. */
  function MockArtInstallation(material: string, category: string): (r: Suggestion)
    ensures r.id == Str("3") && r.difficulty == Str("Advanced")
    ensures Complete(r)
  {
    var mc := material + " " + category;
    Suggestion(
      Str("3"),
      Str("Upcycled " + material + " Art Installation"),
      Str(ArtPitch + mc + ArtPitchEnd),
      Str("Advanced"),
      Num(300.0),
      Str("\U{20B9}500-1500"),
      Str("\U{20B9}200-1200"),
      Num(12.5),
      Num(65.0),
      Num(180.0),
      Str("4-6 hours"),
      Arr(StrItems([mc] + ArtSupplies)),
      Arr(StrItems(ArtTools)),
      Arr(StrItems(ArtSteps)),
      Arr(StrItems(ArtPlatforms)),
      Str(ArtAudience),
      Str("75%"),
      Str("4.7/5"))
  }

  /** The mock depends on the material and category only. */
  lemma MockIgnoresQuantityAndUnit(material: string, category: string, q1: real, u1: string, q2: real, u2: string)
    ensures GetMockSuggestions(material, category, q1, u1) == GetMockSuggestions(material, category, q2, u2)
  {
  }

  /** The id given to the entry at `index` when the provider sent none:
      "ai_" followed by the position counted from 1. */
  function GeneratedId(index: nat): (r: string)
    ensures |r| > 3 && r[..3] == "ai_" && r[3..] == NatToString(index + 1)
  {
    "ai_" + NatToString(index + 1)
  }

  // The defaults of the members of a normalised entry, other than its id
  // and its name.
  const DefaultDescription: JsonValue := Str("AI-generated upcycling idea")
  const DefaultDifficulty: JsonValue := Str("Beginner")
  const DefaultCost: JsonValue := Num(150.0)
  const DefaultPriceRange: JsonValue := Str("\U{20B9}200-500")
  const DefaultEarnings: JsonValue := Str("\U{20B9}50-350")
  const DefaultSavings: JsonValue := Num(8.5)
  const DefaultDemand: JsonValue := Num(75.0)
  const DefaultRoi: JsonValue := Num(120.0)
  const DefaultTime: JsonValue := Str("2-3 hours")
  const DefaultMaterials: JsonValue := Arr(StrItems(["Base materials", "Additional supplies"]))
  const DefaultTools: JsonValue := Arr(StrItems(["Basic tools"]))
  const DefaultSteps: JsonValue := Arr(StrItems(["Step 1", "Step 2", "Step 3", "Step 4", "Step 5"]))
  const DefaultPlatforms: JsonValue := Arr(StrItems(["Online Platforms"]))
  const DefaultAudience: JsonValue := Str("General customers")
  const DefaultSuccessRate: JsonValue := Str("80%")
  const DefaultRating: JsonValue := Str("4.0/5")

  /** Every default is truthy, so a normalised entry has no falsy member. */
  lemma DefaultsTruthy()
    ensures Truthy(DefaultDescription) && Truthy(DefaultDifficulty) && Truthy(DefaultCost)
    ensures Truthy(DefaultPriceRange) && Truthy(DefaultEarnings) && Truthy(DefaultSavings)
    ensures Truthy(DefaultDemand) && Truthy(DefaultRoi) && Truthy(DefaultTime)
    ensures Truthy(DefaultMaterials) && Truthy(DefaultTools) && Truthy(DefaultSteps)
    ensures Truthy(DefaultPlatforms) && Truthy(DefaultAudience) && Truthy(DefaultSuccessRate)
    ensures Truthy(DefaultRating)
  {
  }

  /** `AI Generated ${difficulty} Product`, None when turning the
      difficulty into text throws. */
  function DefaultName(difficulty: JsonValue, fmt: NumberFormat): (r: Option<string>)
    ensures r.None? <==> ThrowsOnString(difficulty)
    ensures difficulty.Str? ==> r == Some("AI Generated " + difficulty.s + " Product")
  {
    match Interpolate(difficulty, fmt)
    case Some(text) => Some("AI Generated " + text + " Product")
    case None => None
  }

  /** The member is there and truthy, so `||` keeps it. */
  predicate Kept(m: Option<JsonValue>)
  {
    m.Some? && Truthy(m.value)
  }

  /** `r` is what `v || d` gives. */
  predicate KeptOrDefault(v: Option<JsonValue>, d: JsonValue, r: JsonValue)
  {
    if Kept(v) then r == v.value else r == d
  }

  /** The difficulty the default name mentions: the entry's own when
      truthy, else "Beginner". */
  function NameDifficulty(s: JsonValue): JsonValue
  {
    OrElse(Member(s, "difficulty"), DefaultDifficulty)
  }

  /** Normalising the entry throws: it has no truthy name, so the default
      name is built, and its difficulty cannot be turned into text. */
  predicate NameThrows(s: JsonValue)
  {
    !Kept(Member(s, "productName")) && ThrowsOnString(NameDifficulty(s))
  }

  /** The elements the `map` gets through: none is null (reading its
      members would throw) and none makes the name template throw. */
  predicate Normalizable(items: seq<JsonValue>)
  {
    forall i :: 0 <= i < |items| ==> items[i] != Null && !NameThrows(items[i])
  }

  /** `suggestion.productName || `AI Generated ${...} Product``: the
      template is evaluated only when the name is missing or falsy. */
  function EntryName(s: JsonValue, fmt: NumberFormat): (r: JsonValue)
    requires !NameThrows(s)
    ensures Truthy(r)
    ensures Kept(Member(s, "productName")) ==> r == Member(s, "productName").value
    ensures !Kept(Member(s, "productName")) ==> r == Str(DefaultName(NameDifficulty(s), fmt).value)
  {
    var name := Member(s, "productName");
    if Kept(name) then name.value else Str(DefaultName(NameDifficulty(s), fmt).value)
  }

  /** One element of the `map` in `parseAIResponse`: each member is kept
      when truthy and replaced by its default otherwise; no range or type
      check is applied to a kept value. The default name is built only when
      needed, as `||` evaluates its right side only then. */
  function NormalizeEntry(s: JsonValue, index: nat, fmt: NumberFormat): (r: Suggestion)
    requires s != Null && !NameThrows(s)
    ensures Complete(r)
    ensures KeptOrDefault(Member(s, "id"), Str(GeneratedId(index)), r.id)
    ensures Kept(Member(s, "productName")) ==> r.productName == Member(s, "productName").value
    ensures !Kept(Member(s, "productName")) ==>
      r.productName == Str(DefaultName(NameDifficulty(s), fmt).value)
  {
    DefaultsTruthy();
    Suggestion(
      OrElse(Member(s, "id"), Str(GeneratedId(index))),
      EntryName(s, fmt),
      OrElse(Member(s, "description"), DefaultDescription),
      OrElse(Member(s, "difficulty"), DefaultDifficulty),
      OrElse(Member(s, "estimatedCost"), DefaultCost),
      OrElse(Member(s, "sellingPriceRange"), DefaultPriceRange),
      OrElse(Member(s, "earningPotential"), DefaultEarnings),
      OrElse(Member(s, "carbonSavings"), DefaultSavings),
      OrElse(Member(s, "marketDemand"), DefaultDemand),
      OrElse(Member(s, "roi"), DefaultRoi),
      OrElse(Member(s, "timeRequired"), DefaultTime),
      OrElse(Member(s, "materialsNeeded"), DefaultMaterials),
      OrElse(Member(s, "toolsRequired"), DefaultTools),
      OrElse(Member(s, "steps"), DefaultSteps),
      OrElse(Member(s, "sellingPlatforms"), DefaultPlatforms),
      OrElse(Member(s, "targetAudience"), DefaultAudience),
      OrElse(Member(s, "successRate"), DefaultSuccessRate),
      OrElse(Member(s, "customerRating"), DefaultRating))
  }

  /** The text members of a normalised entry: each kept when truthy, else its
      default. */
  lemma NormalizeEntryText(s: JsonValue, index: nat, fmt: NumberFormat)
    requires s != Null && !NameThrows(s)
    ensures KeptOrDefault(Member(s, "description"), DefaultDescription, NormalizeEntry(s, index, fmt).description)
    ensures KeptOrDefault(Member(s, "difficulty"), DefaultDifficulty, NormalizeEntry(s, index, fmt).difficulty)
    ensures KeptOrDefault(Member(s, "sellingPriceRange"), DefaultPriceRange, NormalizeEntry(s, index, fmt).sellingPriceRange)
    ensures KeptOrDefault(Member(s, "earningPotential"), DefaultEarnings, NormalizeEntry(s, index, fmt).earningPotential)
    ensures KeptOrDefault(Member(s, "timeRequired"), DefaultTime, NormalizeEntry(s, index, fmt).timeRequired)
    ensures KeptOrDefault(Member(s, "targetAudience"), DefaultAudience, NormalizeEntry(s, index, fmt).targetAudience)
    ensures KeptOrDefault(Member(s, "successRate"), DefaultSuccessRate, NormalizeEntry(s, index, fmt).successRate)
    ensures KeptOrDefault(Member(s, "customerRating"), DefaultRating, NormalizeEntry(s, index, fmt).customerRating)
  {
  }

  /** The figures of a normalised entry: each kept when truthy, else its
      default; 0 counts as missing. */
  lemma NormalizeEntryFigures(s: JsonValue, index: nat, fmt: NumberFormat)
    requires s != Null && !NameThrows(s)
    ensures KeptOrDefault(Member(s, "estimatedCost"), DefaultCost, NormalizeEntry(s, index, fmt).estimatedCost)
    ensures KeptOrDefault(Member(s, "carbonSavings"), DefaultSavings, NormalizeEntry(s, index, fmt).carbonSavings)
    ensures KeptOrDefault(Member(s, "marketDemand"), DefaultDemand, NormalizeEntry(s, index, fmt).marketDemand)
    ensures KeptOrDefault(Member(s, "roi"), DefaultRoi, NormalizeEntry(s, index, fmt).roi)
  {
  }

  /** The lists of a normalised entry: each kept when truthy (an empty array
      is), else its default. */
  lemma NormalizeEntryLists(s: JsonValue, index: nat, fmt: NumberFormat)
    requires s != Null && !NameThrows(s)
    ensures KeptOrDefault(Member(s, "materialsNeeded"), DefaultMaterials, NormalizeEntry(s, index, fmt).materialsNeeded)
    ensures KeptOrDefault(Member(s, "toolsRequired"), DefaultTools, NormalizeEntry(s, index, fmt).toolsRequired)
    ensures KeptOrDefault(Member(s, "steps"), DefaultSteps, NormalizeEntry(s, index, fmt).steps)
    ensures KeptOrDefault(Member(s, "sellingPlatforms"), DefaultPlatforms, NormalizeEntry(s, index, fmt).sellingPlatforms)
  {
  }

  /** `parsed.suggestions.map(...)`: one normalised entry per element, in
      order; nothing is added, dropped or reordered. */
  function Normalize(items: seq<JsonValue>, fmt: NumberFormat): (r: seq<Suggestion>)
    requires Normalizable(items)
    ensures |r| == |items|
    ensures forall i :: 0 <= i < |items| ==> r[i] == NormalizeEntry(items[i], i, fmt)
    ensures forall i :: 0 <= i < |r| ==> Complete(r[i])
  {
    seq(|items|, i requires 0 <= i < |items| => NormalizeEntry(items[i], i, fmt))
  }

  /** Distinct positions get distinct generated ids. */
  lemma GeneratedIdsDistinct(i: nat, j: nat)
    requires i != j
    ensures GeneratedId(i) != GeneratedId(j)
  {
    NatToStringInjective(i + 1, j + 1);
  }

  /** A complete record read back as a provider entry comes out unchanged:
      every member is truthy, so every `||` keeps it. */
  lemma NormalizeEntryOfComplete(t: Suggestion, index: nat, fmt: NumberFormat)
    requires Complete(t)
    ensures !NameThrows(ToJson(t))
    ensures NormalizeEntry(ToJson(t), index, fmt) == t
  {
    ToJsonIdentity(t);
    ToJsonFigures(t);
    ToJsonInstructions(t);
  }

  /** Normalising is idempotent: the normalised array, as the objects it
      stands for, normalises to itself. */
  lemma NormalizeIdempotent(items: seq<JsonValue>, fmt: NumberFormat)
    requires Normalizable(items)
    ensures var once := Normalize(items, fmt);
      Normalizable(ToJsonAll(once)) && Normalize(ToJsonAll(once), fmt) == once
  {
    var once := Normalize(items, fmt);
    var back := ToJsonAll(once);
    forall i | 0 <= i < |back|
      ensures back[i] != Null && !NameThrows(back[i])
      ensures NormalizeEntry(back[i], i, fmt) == once[i]
    {
      NormalizeEntryOfComplete(once[i], i, fmt);
    }
  }

  /** Values are kept without any range check, and only falsy ones are
      replaced: a market demand of 500 stays 500, one of 0 becomes 75. */
  lemma NoRangeCheck(index: nat, fmt: NumberFormat)
    ensures NormalizeEntry(Obj(map["marketDemand" := Num(500.0)]), index, fmt).marketDemand == Num(500.0)
    ensures NormalizeEntry(Obj(map["marketDemand" := Num(0.0)]), index, fmt).marketDemand == Num(75.0)
  {
  }

  /** Nor is there a type check: an empty array, being truthy, is kept as
      the difficulty. */
  lemma NoTypeCheck(index: nat, fmt: NumberFormat)
    ensures NormalizeEntry(Obj(map["difficulty" := Arr([]), "productName" := Str("Lamp")]), index, fmt).difficulty == Arr([])
  {
  }

  /** A nameless entry is named after its difficulty, which is itself
      defaulted first. */
  lemma DefaultNameFollowsDifficulty(s: JsonValue, index: nat, fmt: NumberFormat, difficulty: string)
    requires s.Obj? && "productName" !in s.members
    ensures Member(s, "difficulty") == Some(Str(difficulty)) && difficulty != "" ==>
      !NameThrows(s) && NormalizeEntry(s, index, fmt).productName == Str("AI Generated " + difficulty + " Product")
    ensures "difficulty" !in s.members ==>
      !NameThrows(s) && NormalizeEntry(s, index, fmt).productName == Str("AI Generated " + "Beginner" + " Product")
  {
  }

  /** A nameless entry whose difficulty is an object with its own
      "toString" member makes the `map` throw. */
  lemma ObjectDifficultyThrows(t: JsonValue)
    ensures NameThrows(Obj(map["difficulty" := Obj(map["toString" := t])]))
  {
    var s := Obj(map["difficulty" := Obj(map["toString" := t])]);
    assert NameDifficulty(s) == Obj(map["toString" := t]);
  }

  /** The suggestions array of a delivered reply that the `map` gets
      through: the text is a string, the shape check passes and every
      element can be normalised. */
  function ProviderSuggestions(text: Option<JsonValue>, parse: JsonParser): (r: Option<seq<JsonValue>>)
    ensures r.Some? <==> ReplyArray(text, "suggestions", parse).Some? && Normalizable(ReplyArray(text, "suggestions", parse).value)
    ensures r.Some? ==> r.value == ReplyArray(text, "suggestions", parse).value
  {
    match ReplyArray(text, "suggestions", parse)
    case Some(items) => if Normalizable(items) then Some(items) else None
    case None => None
  }

  /** `parseAIResponse(response)`: the normalised array, or the TypeError
      its catch block raises. */
  function ParseAIResponse(response: Option<JsonValue>, parse: JsonParser, fmt: NumberFormat): (r: Result<seq<Suggestion>, Thrown>)
    ensures r.Success? <==> ProviderSuggestions(response, parse).Some?
    ensures r.Success? ==> r.value == Normalize(ProviderSuggestions(response, parse).value, fmt)
  {
    match ProviderSuggestions(response, parse)
    case Some(items) => Success(Normalize(items, fmt))
    case None => Failure(MockCalledWithoutMaterial)
  }

  /** `analyzeWaste(material, category, quantity, unit)`: never throws for
      a string material. The provider's array, normalised, when the reply
      gets through `parseAIResponse`; otherwise, whatever went wrong, the
      mock for the request's own material and category. Either way every
      entry has all eighteen members filled in; the number of entries is
      whatever the provider sent, or three. */
  function AnalyzeWaste(material: string, category: string, quantity: real, unit: string,
                        reply: Reply, parse: JsonParser, fmt: NumberFormat): (r: seq<Suggestion>)
    ensures reply.Failed? ==> r == GetMockSuggestions(material, category, quantity, unit)
    ensures reply.Delivered? && ProviderSuggestions(reply.text, parse).None? ==>
      r == GetMockSuggestions(material, category, quantity, unit)
    ensures reply.Delivered? && ProviderSuggestions(reply.text, parse).Some? ==>
      r == Normalize(ProviderSuggestions(reply.text, parse).value, fmt)
      && |r| == |ProviderSuggestions(reply.text, parse).value|
    ensures forall i :: 0 <= i < |r| ==> Complete(r[i])
  {
    match reply
    case Failed(_) => GetMockSuggestions(material, category, quantity, unit)
    case Delivered(text) =>
      match ParseAIResponse(text, parse, fmt)
      case Success(suggestions) => suggestions
      case Failure(_) => GetMockSuggestions(material, category, quantity, unit)
  }
}
