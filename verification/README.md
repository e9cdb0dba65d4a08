# WasteUpCycle.AI suggestion pipeline and carbon calculator in Dafny

This project models the core of the WasteUpCycle.AI backend. A user names a
waste material, its category, a quantity and a unit. The backend then:

- works out how much CO2 the material accounts for if wasted and if
  upcycled (`carbonCalculator.js`);
- asks one of three language-model providers (Gemini, Hugging Face,
  OpenRouter) for upcycling ideas and product categories, and reads the
  JSON object out of the generated text;
- falls back to fixed mock ideas and keyword-chosen category lists when a
  provider fails (except OpenRouter, which reports an error instead).

It also models the three colour classifiers of the frontend's product
card. Everything in the core is pure: the model is datatypes, functions
and lemmas, with no classes and no loops.

Modules, one per concern:

| file | module | what it holds |
|---|---|---|
| wrappers.dfy | Wrappers | `Option` and `Result` |
| jstext.dfy | JsText | the JavaScript string operations used: `toLowerCase`, `includes`, `indexOf`, `lastIndexOf`, `substring`, `trim`, decimal rendering of naturals |
| jsmath.dfy | JsMath | `Math.round`, `Math.max`, and rounding to one decimal |
| json.dfy | Json | JSON values, truthiness, member access, `a \|\| b`, template interpolation |
| responsetext.dfy | ResponseText | the text-extraction chain the three services share: strip code fences, trim, cut from the first `{` to the last `}`, parse, check for an array member |
| suggestion.dfy | Suggestions | the eighteen-member suggestion record |
| categories.dfy | CategoryTables | the category lists and a first-match reference for the keyword if-chains |
| carbon.dfy | CarbonCalculator | `calculateCarbonFootprint`, as intended and as written |
| gemini.dfy | GeminiService | normalisation, mock, categories and fallbacks of the Gemini service |
| huggingface.dfy | HuggingFaceService | the enhanced mock with quantity-dependent figures, categories and fallbacks |
| openrouter.dfy | OpenRouterService | parse errors, rethrown errors and categories of the OpenRouter service |
| productcard.dfy | ProductCard | difficulty, demand and ROI colour classes |

How the environment is represented:

- The provider's reply is an input. It is `Failed(message)` for every error
  raised before the generated text is read: the HTTP call itself, or an
  envelope without the expected nesting. Otherwise it is
  `Delivered(text)`, the JSON value found where the service looks for the
  generated text (`None` when it is undefined).
- `JSON.parse` is a function parameter. It returns a value, or the message
  of the `SyntaxError` it throws.
- How numbers print inside template strings (`String(x)` and
  `x.toFixed(1)`) is a parameter `NumberFormat`. Generated ids
  `ai_<n>` use a concrete decimal rendering.
- Numbers are exact reals.

Behaviour of the code that the model keeps, although it may be
surprising:

- The emission factor is an exact lookup of the lower-cased name, not a
  substring search. "wood pallets" gets the default 1.5, not wood's 0.3.
- The "if upcycled" figure is 0.8 of the UNROUNDED "if wasted" figure, not
  of the rounded one.
- Putting a value into a template string throws when the value is an
  object with its own "toString" member (a parsed JSON object can have
  one, and its value is never a function), or an array holding such an
  object. Gemini's default name (`AI Generated ${difficulty} Product`)
  and OpenRouter's log line for each entry (`${productName}
  (${difficulty})`) both do this with provider data, so such a reply ends
  in the mock (Gemini) or in an error (OpenRouter).
- Gemini's normalisation maps the provider's array one to one. It neither
  pads nor truncates to three entries and checks no ranges.
- The catch block of Gemini's `parseAIResponse` calls `getMockSuggestions()`
  without arguments. That call itself throws (it reads
  `material.charAt` of `undefined`), so `analyzeWaste`'s own catch returns
  the mock for the request's material. The model keeps this as the
  `Thrown` failure of `GeminiService.ParseAIResponse`.
- Gemini's `parseCategoriesResponse` falls back to
  `getDefaultCategories()` with the empty material. An unparsable
  categories reply therefore gives the generic list whatever the material.
- Hugging Face returns the provider's `suggestions` array as it came,
  without normalising it. When that array cannot be extracted, it returns
  the mock for ONE kilogram (the default arguments), not for the request's
  quantity.
- OpenRouter has no fallback for suggestions: every failure is an error
  prefixed "AI service error: ".
- When the last `}` comes before the first `{`, JavaScript's `substring`
  swaps its bounds. The model reproduces this, and proves that the
  swapped slice contains no brace.

## Model

| member | source | states |
|---|---|---|
| CarbonCalculator.QuantityInKg | backend/services/carbonCalculator.js:19-22 | pieces weigh 0.05 kg, litres 0.5 kg, metres 0.1 kg; every other unit, "kg" or unknown, leaves the quantity as it is; a non-negative quantity never grows |
| CarbonCalculator.EmissionFactor | backend/services/carbonCalculator.js:2-24 | a lower-cased name that is a key of the nine-entry table gets that key's factor, every other name gets 1.5; the factor is positive |
| CarbonCalculator.CalculateCarbonFootprint | backend/services/carbonCalculator.js:17-32 | each figure is the multiple of 0.1 within (x - 0.05, x + 0.05] of its exact value (factor times kilograms, and 0.8 of that); for a non-negative quantity, 0 <= ifUpcycled <= ifWasted |
| CarbonCalculator.UpcycledBelowWasted | backend/services/carbonCalculator.js:25-30 | rounding keeps 0.8 of non-negative emissions between 0 and the rounded whole |
| CarbonCalculator.EmissionFactorIgnoresCase | backend/services/carbonCalculator.js:24 | the factor and the footprint of a name equal those of its lower-cased form |
| CarbonCalculator.SameLowerCaseSameFootprint | backend/services/carbonCalculator.js:17-32 | names that lower-case alike give the same footprint for every quantity and unit |
| CarbonCalculator.PlasticPiecesExample | backend/services/carbonCalculator.js:17-32 | 10 pieces of plastic give 1.3 wasted and 1.0 upcycled |
| CarbonCalculator.WoodExample | backend/services/carbonCalculator.js:17-32 | 5 kg of wood give 1.5 and 1.2 |
| CarbonCalculator.WoodPalletsExample | backend/services/carbonCalculator.js:24 | "wood pallets" is not a key and gets the default factor: 7.5 and 6.0 for 5 kg |
| CarbonCalculator.UpcycledUsesUnroundedWasted | backend/services/carbonCalculator.js:25-30 | for 0.04 kg of an unlisted material the figures are 0.1 and 0.0, while 0.8 of the shown 0.1 would round to 0.1 |
| CarbonCalculator.EmissionFactorAsWritten | backend/services/carbonCalculator.js:24 | the lookup as written gives NaN exactly for the inherited member names "constructor" and "__proto__" |
| CarbonCalculator.CalculateCarbonFootprintAsWritten | backend/services/carbonCalculator.js:17-32 | the footprint as written is NaN exactly when the lower-cased name is an inherited member |
| CarbonCalculator.ConstructorGivesNaN | backend/services/carbonCalculator.js:24 | the material "Constructor" yields NaN for both figures |
| CarbonCalculator.AsWrittenAgreesOffInheritedNames | backend/services/carbonCalculator.js:17-32 | away from the inherited names, the code as written and the corrected lookup give the same figures |
| JsMath.MathRound | backend/services/carbonCalculator.js:29 | `Math.round(x)` is the integer in (x - 0.5, x + 0.5] |
| JsMath.MathRoundMonotone | backend/services/huggingfaceService.js:125 | `Math.round` never reverses an order |
| JsMath.Max | backend/services/huggingfaceService.js:114-115 | `Math.max(a, b)` is at least both and is one of them |
| JsMath.RoundTenth | backend/services/carbonCalculator.js:29-30 | `Math.round(x * 10) / 10` is a multiple of 0.1 within (x - 0.05, x + 0.05] |
| JsMath.RoundTenthUnique | backend/services/carbonCalculator.js:29-30 | exactly one multiple of 0.1 lies in that interval, so the contract determines the result |
| JsMath.RoundTenthMonotone | backend/services/carbonCalculator.js:29-30 | rounding to a tenth never reverses an order |
| JsMath.RoundTenthNonNegative | backend/services/carbonCalculator.js:29-30 | rounding a non-negative number gives a non-negative number |
| ResponseText.Clean | backend/services/geminiService.js:302 | after removing every "```json" and then every "```" and trimming, no "```" is left and neither end is whitespace; a reply without backticks is only trimmed; every character other than whitespace and those of "```json" is in the result exactly when it is in the reply |
| ResponseText.CleanKeeps | backend/services/geminiService.js:302 | fence removal and trimming drop no character other than fence characters and whitespace |
| ResponseText.CleanKeepsBraces | backend/services/geminiService.js:302-306 | cleaning neither adds nor removes a '{' or a '}' |
| ResponseText.TrimmedHasNoFence | backend/services/geminiService.js:302 | trimming the unfenced text cannot bring a "```" back |
| ResponseText.UnfencedWithoutBackticks | backend/services/geminiService.js:302 | a reply without backticks comes through fence removal unchanged |
| ResponseText.FencedReply | backend/services/geminiService.js:302 | a body without backticks and without surrounding whitespace, wrapped in a "```json" line and a "```" line, is cleaned back to exactly the body |
| ResponseText.Candidate | backend/services/geminiService.js:305-312 | no text for the parser exactly when the cleaned reply lacks '{' or '}'; a reply without one of the braces never yields one |
| ResponseText.ExtractArray | backend/services/geminiService.js:305-320 | a reply lacking '{' or '}' fails with "no JSON structure"; an array comes out only as the `key` member of the parsed candidate |
| JsText.ToLower | backend/services/carbonCalculator.js:24 | same length; each character lower-cased on its own, ASCII capitals becoming small letters, everything else kept |
| JsText.ToLowerIdempotent | backend/services/geminiService.js:101 | lower-casing twice is lower-casing once |
| JsText.Capitalise | backend/services/geminiService.js:216 | same length; the first character upper-cased, the rest kept; the empty string stays empty |
| JsText.Contains | backend/services/geminiService.js:104-118 | `includes` holds exactly when the pattern occurs at some index |
| JsText.AbsentFirstChar | backend/services/huggingfaceService.js:238-254 | a pattern whose first character appears nowhere it could start does not occur |
| JsText.AbsentFirstTwo | backend/services/openrouterService.js:188-195 | a pattern whose first two characters appear together nowhere it could start does not occur |
| JsText.IndexOf | backend/services/geminiService.js:305 | -1 exactly when the character is absent; otherwise an index holding it with none before |
| JsText.LastIndexOf | backend/services/geminiService.js:306 | -1 exactly when the character is absent; otherwise an index holding it with none after |
| JsText.Substring | backend/services/geminiService.js:312 | the slice between the bounds, taken in either order, never longer than the string |
| JsText.RemoveAll | backend/services/geminiService.js:302 | never longer than the input; a text without the pattern is unchanged |
| JsText.RemoveAllShrinks | backend/services/geminiService.js:302 | a text that contains the pattern gets strictly shorter |
| JsText.RemoveAllKeeps | backend/services/geminiService.js:302 | a character not in the pattern is in the result exactly when it is in the input |
| JsText.RemoveAllTrailing | backend/services/geminiService.js:302 | a text that cannot start the pattern, followed by the pattern, loses exactly the pattern |
| JsText.SkipForward | backend/services/geminiService.js:302 | the end of the whitespace run from an index: everything skipped is whitespace, and what stops it is not |
| JsText.SkipBackward | backend/services/geminiService.js:302 | the start of the whitespace run before an index, down to a bound: everything skipped is whitespace, and what stops it is not |
| JsText.Trim | backend/services/geminiService.js:302 | a slice of the input with only whitespace dropped around it, neither end of which is whitespace |
| JsText.TrimKeeps | backend/services/geminiService.js:302 | a character other than whitespace is in the trimmed text exactly when it is in the input |
| JsText.TrimLines | backend/services/geminiService.js:302 | a text with no whitespace at its ends, between two line breaks, trims back to itself |
| JsText.NatToString | backend/services/geminiService.js:323 | a non-empty string of decimal digits |
| JsText.NatToStringRoundTrip | backend/services/geminiService.js:323 | reading the digits back gives the number |
| JsText.NatToStringInjective | backend/services/geminiService.js:323 | different numbers are written differently |
| Json.OrElse | backend/services/geminiService.js:323-340 | `a \|\| d` is `a` when it is present and truthy, `d` otherwise; truthy whenever `d` is |
| Json.Interpolate | backend/services/geminiService.js:324 | throws exactly when the value is an object with its own "toString" member or an array holding one; a string is inserted as it is, any other object as "[object Object]" |
| ResponseText.NoFenceAfterRemoval | backend/services/geminiService.js:302 | removing every "```" left to right leaves none behind, even out of longer runs of backticks |
| ResponseText.BraceSlice | backend/services/geminiService.js:305-312 | no slice exactly when '{' or '}' is missing; otherwise the text from the first '{' through the last '}', which starts and ends with them; when the last '}' precedes the first '{', a slice with no brace at all |
| ResponseText.SwappedSliceHasNoBrace | backend/services/geminiService.js:312 | the text between a last '}' and a later first '{' contains neither brace |
| ResponseText.WholeObjectIsCandidate | backend/services/openrouterService.js:116-124 | a cleaned reply that starts with '{' and ends with '}' is parsed whole |
| ResponseText.ArrayMember | backend/services/geminiService.js:305-320 | no braces gives the "no JSON" failure, a parser error its message; success exactly when the parsed value's `key` member exists and is an array, and the result is that array |
| ResponseText.ReplyArray | backend/services/huggingfaceService.js:79-101 | an array comes out exactly when the delivered text is a string and the extraction succeeds |
| ResponseText.NoCandidateNoArray | backend/services/huggingfaceService.js:90-102 | a reply without braces yields no array, whatever the parser does |
| CategoryTables.FirstMatch | backend/services/geminiService.js:100-123 | reference for the keyword if-chains: the categories of the first rule with a keyword in the name, and the generic list when none matches |
| CategoryTables.MatchesOne | backend/services/geminiService.js:104 | a one-keyword rule matches exactly when the name contains the keyword |
| CategoryTables.MatchesTwo | backend/services/geminiService.js:106 | a two-keyword rule matches exactly when the name contains either keyword |
| CategoryTables.FirstMatchOfEight | backend/services/geminiService.js:100-123 | first match over eight rules is the eight-way if-chain |
| CategoryTables.FirstMatchHasFive | backend/services/geminiService.js:100-123 | when every list of a table has five entries, so does the first match |
| GeminiService.GetDefaultCategories | backend/services/geminiService.js:100-123 | always five categories |
| GeminiService.GetDefaultCategoriesIsFirstMatch | backend/services/geminiService.js:100-123 | the if-chain equals the first match over the table plastic, wood/timber, metal, glass, textile/cloth, electronic/e-waste, paper/cardboard, organic/food |
| GeminiService.DefaultCategoriesOfNothing | backend/services/geminiService.js:96-101 | the empty material (the default argument) gets the generic list |
| GeminiService.TimberIsWood | backend/services/geminiService.js:106-107 | "Timber" gets the wood categories |
| GeminiService.ParseCategoriesResponse | backend/services/geminiService.js:69-98 | at most five; an extracted array is cut to its first five; every failure gives the generic list |
| GeminiService.GetCategories | backend/services/geminiService.js:7-41 | a failed call gives the material's default list; a delivered text goes through `parseCategoriesResponse`; at most five |
| GeminiService.UnparsableCategoriesIgnoreMaterial | backend/services/geminiService.js:93-97 | a delivered reply without braces gives the generic list whatever the material |
| GeminiService.GetMockSuggestions | backend/services/geminiService.js:211-295 | three ideas with ids 1, 2, 3 and levels Beginner, Intermediate, Advanced, every member filled in |
| GeminiService.MockPlanters | backend/services/geminiService.js:214-239 | id 1, Beginner, named the capitalised material, the category and "Planters", complete |
| GeminiService.MockOrganizers | backend/services/geminiService.js:240-265 | id 2, Intermediate, complete |
| GeminiService.MockArtInstallation | backend/services/geminiService.js:266-291 | id 3, Advanced, complete |
| GeminiService.MockIgnoresQuantityAndUnit | backend/services/geminiService.js:211-295 | the mock is the same for every quantity and unit |
| GeminiService.GeneratedId | backend/services/geminiService.js:323 | "ai_" followed by the decimal digits of index + 1 |
| GeminiService.DefaultName | backend/services/geminiService.js:324 | "AI Generated <difficulty> Product" for a string difficulty; none exactly when turning the difficulty into text throws |
| GeminiService.EntryName | backend/services/geminiService.js:324 | the entry's own name when truthy, else the default name of its (defaulted) difficulty; always truthy |
| GeminiService.NormalizeEntry | backend/services/geminiService.js:322-341 | every member filled in; the id is the entry's own when truthy, else "ai_<index + 1>"; the name is the entry's own when truthy, else built from the difficulty |
| GeminiService.NormalizeEntryText | backend/services/geminiService.js:325-340 | each text member is kept when truthy, else 'AI-generated upcycling idea', 'Beginner', '₹200-500', '₹50-350', '2-3 hours', 'General customers', '80%', '4.0/5' |
| GeminiService.NormalizeEntryFigures | backend/services/geminiService.js:327-333 | each figure is kept when truthy, else 150, 8.5, 75, 120 |
| GeminiService.NormalizeEntryLists | backend/services/geminiService.js:335-338 | each list is kept when truthy, else the default materials, tools, five steps and platforms |
| GeminiService.Normalize | backend/services/geminiService.js:322-341 | one entry per provider entry, in order, each the normalisation of its provider entry at its index, all complete |
| GeminiService.GeneratedIdsDistinct | backend/services/geminiService.js:323 | different indices get different generated ids |
| GeminiService.NormalizeEntryOfComplete | backend/services/geminiService.js:322-341 | a complete record read back as a provider entry comes out unchanged |
| GeminiService.NormalizeIdempotent | backend/services/geminiService.js:322-341 | normalising the normalised array again changes nothing |
| GeminiService.NoRangeCheck | backend/services/geminiService.js:331 | a market demand of 500 is kept, one of 0 becomes 75 |
| GeminiService.NoTypeCheck | backend/services/geminiService.js:326 | an empty array, being truthy, is kept as the difficulty |
| GeminiService.DefaultNameFollowsDifficulty | backend/services/geminiService.js:324 | a nameless entry is named "AI Generated <difficulty> Product", with Beginner when the difficulty is missing |
| GeminiService.ObjectDifficultyThrows | backend/services/geminiService.js:324 | a nameless entry whose difficulty is an object with its own "toString" member makes the map throw |
| GeminiService.ProviderSuggestions | backend/services/geminiService.js:297-341 | the provider's array exactly when it is extracted and the map gets through every entry: none is null and none needs a default name it cannot build |
| GeminiService.ParseAIResponse | backend/services/geminiService.js:297-352 | success exactly when the provider's array is usable, and then its normalisation; otherwise the throw of the argument-less mock call |
| GeminiService.AnalyzeWaste | backend/services/geminiService.js:126-161 | a failed call or an unusable reply gives the mock for the request; a usable one its normalisation, of the same length; every entry complete |
| HuggingFaceService.GetCategories | backend/services/huggingfaceService.js:232-257 | always five categories |
| HuggingFaceService.GetCategoriesIsFirstMatch | backend/services/huggingfaceService.js:232-257 | the if-chain equals the first match over the table of the Gemini service without "timber" |
| HuggingFaceService.NoKeywordInTimber | backend/services/huggingfaceService.js:238-254 | none of the twelve keywords occurs in "timber" |
| HuggingFaceService.TimberIsGeneric | backend/services/huggingfaceService.js:240-241 | "Timber" gets the generic list here, unlike in the Gemini service |
| HuggingFaceService.BaseCost | backend/services/huggingfaceService.js:114 | at least 100 and at least 20 per unit: 100 up to 5 units, 20 per unit from there |
| HuggingFaceService.BasePrice | backend/services/huggingfaceService.js:115 | at least 200 and at least 50 per unit: 200 up to 4 units, 50 per unit from there |
| HuggingFaceService.IdeaFigures | backend/services/huggingfaceService.js:114-200 | costs are the base cost plus 0, 50, 100; prices the base price plus 0-300, 100-600, 200-1000; earnings 30%-70%, 40%-60%, 50%-50% of those bounds rounded; savings 0.8, 0.6, 1.2 per unit rounded to a tenth; hence every range is ordered, earnings are positive and below the prices, and for a non-negative quantity the savings order is organizer <= planter <= art piece |
| HuggingFaceService.RupeeRange | backend/services/huggingfaceService.js:124 | the rupee sign, the low bound as printed, a dash, the high bound as printed |
| HuggingFaceService.SavingsOrdered | backend/services/huggingfaceService.js:126-200 | rounding keeps 0.6, 0.8 and 1.2 of a non-negative quantity in that order |
| HuggingFaceService.OneKilogramFigures | backend/services/huggingfaceService.js:111-200 | the figures for 1 kg: costs 100/150/200, prices 200-500/300-800/400-1200, earnings 60-350/120-480/200-600, savings 0.8/0.6/1.2 |
| HuggingFaceService.LargeQuantityFigures | backend/services/huggingfaceService.js:114-115 | from 10 kg on, cost and price scale with the quantity (20 and 50 per unit) |
| HuggingFaceService.MockPlanter | backend/services/huggingfaceService.js:118-154 | id 1, Beginner, carrying the first idea's cost, price range and savings |
| HuggingFaceService.MockOrganizer | backend/services/huggingfaceService.js:155-191 | id 2, Intermediate, carrying the second idea's figures |
| HuggingFaceService.MockArtPiece | backend/services/huggingfaceService.js:192-228 | id 3, Advanced, carrying the third idea's figures |
| HuggingFaceService.GetEnhancedMockSuggestions | backend/services/huggingfaceService.js:111-230 | three ideas |
| HuggingFaceService.MockIdsAndLevels | backend/services/huggingfaceService.js:111-230 | ids 1, 2, 3 and levels Beginner, Intermediate, Advanced |
| HuggingFaceService.MockCarriesFigures | backend/services/huggingfaceService.js:111-230 | each idea carries its figures, so the properties of `IdeaFigures` hold of the mock |
| HuggingFaceService.MockIgnoresUnit | backend/services/huggingfaceService.js:111-230 | the unit changes nothing in the mock |
| HuggingFaceService.ParseAIResponse | backend/services/huggingfaceService.js:79-109 | the provider's array, unchecked, when extracted; otherwise the mock for 1 kg |
| HuggingFaceService.AnalyzeWaste | backend/services/huggingfaceService.js:6-43 | a failed call or a falsy text gives the mock for the request's quantity; a truthy text goes through `parseAIResponse`; a fallback has three ideas |
| HuggingFaceService.UnparsableReplyIgnoresQuantity | backend/services/huggingfaceService.js:104-107 | a non-empty reply without braces gives the 1 kg mock whatever quantity was asked |
| OpenRouterService.GetDefaultCategories | backend/services/openrouterService.js:185-207 | always five categories |
| OpenRouterService.GetDefaultCategoriesIsFirstMatch | backend/services/openrouterService.js:185-207 | the if-chain equals the first match over plastic, wood, metal, glass, textile/cloth, electronic, paper, organic |
| OpenRouterService.NoEarlyKeywordInEWaste | backend/services/openrouterService.js:188-195 | none of plastic, wood, metal, glass occurs in "e-waste" |
| OpenRouterService.NoLateKeywordInEWaste | backend/services/openrouterService.js:196-203 | none of textile, cloth, electronic, paper, organic occurs in "e-waste" |
| OpenRouterService.EWasteIsGeneric | backend/services/openrouterService.js:198-199 | "E-waste" gets the generic list here, unlike in the other two services |
| OpenRouterService.FailureMessage | backend/services/openrouterService.js:119-134 | a parser error passes its own message through; no structure, a null parse and a missing array each get exactly their own fixed message |
| OpenRouterService.ParseAIResponse | backend/services/openrouterService.js:112-141 | success exactly when the extraction succeeds, and then the parsed object's `suggestions` array; every failure is its cause's message behind "Failed to parse AI response: " |
| OpenRouterService.NotAStringMessage | backend/services/openrouterService.js:41 | the TypeError that `substring` raises on undefined, on null and on any other non-string |
| OpenRouterService.LogError | backend/services/openrouterService.js:47-49 | a null entry fails reading `productName`; another entry fails exactly when its name or difficulty is an object with its own "toString" member (or an array holding one) |
| OpenRouterService.FirstLogError | backend/services/openrouterService.js:47-49 | nothing exactly when every entry can be logged; otherwise the error of the first entry that cannot |
| OpenRouterService.AnalyzeWaste | backend/services/openrouterService.js:16-60 | every error starts with "AI service error: "; success exactly when the text is a string whose array is extracted and every entry can be logged, and then that array; otherwise the first logging error; a failed call reports its own message |
| OpenRouterService.ObjectNameFails | backend/services/openrouterService.js:48 | an entry whose name is an object with its own "toString" member fails the whole call with "Cannot convert object to primitive value" |
| OpenRouterService.UnparsableReplyReportsCause | backend/services/openrouterService.js:136-140 | a string reply whose extraction fails reports the cause behind both prefixes |
| OpenRouterService.NoBracesNoStructure | backend/services/openrouterService.js:120-122 | a reply without '{' fails with "No JSON structure found in response" |
| OpenRouterService.WholeObjectReply | backend/services/openrouterService.js:112-134 | a reply that is one object whose `suggestions` entries can all be logged gives that array |
| OpenRouterService.ProvidedCategories | backend/services/openrouterService.js:166-174 | the parsed object's truthy `categories` member, when every step up to reading it succeeds |
| OpenRouterService.GetCategories | backend/services/openrouterService.js:143-183 | always truthy; the provider's truthy `categories` member when there is one, otherwise the material's five default categories |
| OpenRouterService.CategoriesUnchecked | backend/services/openrouterService.js:174 | any truthy `categories` value, array or not, is returned as it is |
| ProductCard.DifficultyColor | frontend/src/components/dashboard/ProductCard.jsx:5-12 | throws exactly when the difficulty is missing or not a string; otherwise green exactly for "beginner", yellow exactly for "intermediate", red exactly for "advanced" after lower-casing, gray exactly for the rest |
| ProductCard.DifficultyColorIgnoresCase | frontend/src/components/dashboard/ProductCard.jsx:6 | levels that lower-case alike get the same class |
| ProductCard.ServiceLevelsColoured | frontend/src/components/dashboard/ProductCard.jsx:5-12 | Beginner, Intermediate and Advanced get green, yellow and red |
| ProductCard.PaddedLevelIsGray | frontend/src/components/dashboard/ProductCard.jsx:6-10 | "Beginner " with a trailing space gets gray |
| ProductCard.UncheckedDifficultiesThrow | frontend/src/components/dashboard/ProductCard.jsx:6 | a missing difficulty, the empty list and null make `toLowerCase` throw |
| ProductCard.DemandBand | frontend/src/components/dashboard/ProductCard.jsx:14-18 | high exactly from 80, middle exactly from 60 below 80, low below 60 |
| ProductCard.DemandBandMonotone | frontend/src/components/dashboard/ProductCard.jsx:14-18 | a higher demand never lands in a lower band |
| ProductCard.DemandColor | frontend/src/components/dashboard/ProductCard.jsx:14-18 | red for high, orange for middle, green for low demand |
| ProductCard.RoiBand | frontend/src/components/dashboard/ProductCard.jsx:77 | high exactly above 150, middle exactly above 100 up to 150, low up to 100 |
| ProductCard.RoiBandMonotone | frontend/src/components/dashboard/ProductCard.jsx:77 | a higher ROI never lands in a lower band |
| ProductCard.RoiColor | frontend/src/components/dashboard/ProductCard.jsx:77 | green for high, yellow for middle, red for low ROI |
| ProductCard.DefaultsAndBoundaries | frontend/src/components/dashboard/ProductCard.jsx:14-77 | ROI 120 and 150 show yellow; demand 75 shows orange, 80 red |

## Left out

- HTTP calls, request envelopes, headers, timeouts, API keys and model names: the provider's reply is an input.
- Prompt builders (`createPrompt`, `createCategoriesPrompt`): template text whose result is only sent to the provider.
- Logging (`console.*`): what is written is not modelled. Where building a log line can throw, the throw is modelled: OpenRouter's line for each entry (`OpenRouterService.LogError`) and its preview of a reply that is not a string (`OpenRouterService.NotAStringMessage`).
- `JSON.parse`: a parameter, not a model of JSON syntax.
- Binary floating point: numbers are exact reals, so artefacts such as 0.1 * 3 are not reproduced. The printing of numbers in template strings is the `NumberFormat` parameter.
- Non-string materials and categories, and non-number quantities: JavaScript's coercions (`undefined.toLowerCase()`, `"5" * 0.05`) are not modelled. In particular the `category` parameter of the services is a string, so a category object whose own "toString" makes `${category}` in the mock texts throw is not modelled. Demand and ROI in the product card are numbers; its difficulty is any JSON value, and the throw of `toLowerCase` on a non-string is modelled.
- Case conversion is ASCII only: `toLowerCase` and `toUpperCase` of other letters are not modelled, including conversions that change the length ('ß' upper-cases to "SS").
- Routes, authentication, the database, the server, the frontend API client and every other page and component: they only pass values through or render them.
- HuggingFaceService.GetEnhancedMockSuggestions: the descriptions, materials, tools, steps and audiences are modelled exactly but the contracts state only ids, levels and the figures.
- GeminiService.MockOrganizers: the contract states id, level and completeness but not the texts, which are modelled exactly.
- GeminiService.MockArtInstallation: the contract states id, level and completeness but not the texts, which are modelled exactly.

## Findings

| source | as written | input that shows it | evidently intended | confidence | as-written member | corrected member |
|---|---|---|---|---|---|---|
| backend/services/carbonCalculator.js:24 | `emissionFactors[material.toLowerCase()] \|\| 1.5` also finds the members every object inherits; "constructor" and "__proto__" are truthy, so they are kept and multiplying them gives NaN | material "Constructor", 5 kg: both figures NaN | only the table's own nine keys are factors, every other name gets 1.5 (7.5 and 6.0 for 5 kg) | not executed | CarbonCalculator.ConstructorGivesNaN | CarbonCalculator.CalculateCarbonFootprint |
