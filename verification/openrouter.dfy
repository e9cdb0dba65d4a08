/** The OpenRouter service. Unlike the other two providers it has no mock
    to fall back on: every failure of the call, of reading the reply or of
    parsing it surfaces as an error whose message starts with
    "AI service error: ". A parsed `suggestions` array is returned as the
    provider sent it, once every entry has been read for logging, which
    rejects a null entry. Categories come from the provider when its reply
    holds a truthy `categories` member, whatever that member is, and from a
    keyword table otherwise. */
module OpenRouterService {
  import opened Wrappers
  import opened JsText
  import opened Json
  import opened ResponseText
  import opened CategoryTables

  // ---------------------------------------------------------------------
  // Default categories

  /** The keyword table behind `getDefaultCategories`, in the order of its
      if-chain: only textiles have a second keyword. */
  const DefaultCategoryRules: seq<Rule> := [
    Rule(["plastic"], PlasticCategories),
    Rule(["wood"], WoodCategories),
    Rule(["metal"], MetalCategories),
    Rule(["glass"], GlassCategories),
    Rule(["textile", "cloth"], TextileCategories),
    Rule(["electronic"], ElectronicCategories),
    Rule(["paper"], PaperCategories),
    Rule(["organic"], OrganicCategories)]

  /** `getDefaultCategories(material)`: five categories chosen by the first
      keyword the lower-cased material contains. */
  function GetDefaultCategories(material: string): (r: seq<string>)
    ensures |r| == 5
  {
    var m := ToLower(material);
    if Contains(m, "plastic") then PlasticCategories
    else if Contains(m, "wood") then WoodCategories
    else if Contains(m, "metal") then MetalCategories
    else if Contains(m, "glass") then GlassCategories
    else if Contains(m, "textile") || Contains(m, "cloth") then TextileCategories
    else if Contains(m, "electronic") then ElectronicCategories
    else if Contains(m, "paper") then PaperCategories
    else if Contains(m, "organic") then OrganicCategories
    else GenericCategories
  }

  /** The if-chain is the table read top to bottom, first match winning. */
  lemma GetDefaultCategoriesIsFirstMatch(material: string)
    ensures GetDefaultCategories(material) == FirstMatch(DefaultCategoryRules, ToLower(material))
  {
    var m := ToLower(material);
    MatchesOne("plastic", PlasticCategories, m);
    MatchesOne("wood", WoodCategories, m);
    MatchesOne("metal", MetalCategories, m);
    MatchesOne("glass", GlassCategories, m);
    MatchesTwo("textile", "cloth", TextileCategories, m);
    MatchesOne("electronic", ElectronicCategories, m);
    MatchesOne("paper", PaperCategories, m);
    MatchesOne("organic", OrganicCategories, m);
    FirstMatchOfEight(DefaultCategoryRules, m);
  }

  /** None of the first four keywords of the table occurs in "e-waste";
      "wood" fails on its second letter. */
  lemma NoEarlyKeywordInEWaste()
    ensures !Contains("e-waste", "plastic") && !Contains("e-waste", "wood")
    ensures !Contains("e-waste", "metal") && !Contains("e-waste", "glass")
  {
    var m := "e-waste";
    AbsentFirstChar(m, "plastic");
    AbsentFirstTwo(m, "wood");
    AbsentFirstChar(m, "metal");
    AbsentFirstChar(m, "glass");
  }

  /** None of the later keywords of the table occurs in "e-waste". */
  lemma NoLateKeywordInEWaste()
    ensures !Contains("e-waste", "textile") && !Contains("e-waste", "cloth")
    ensures !Contains("e-waste", "electronic") && !Contains("e-waste", "paper") && !Contains("e-waste", "organic")
  {
    var m := "e-waste";
    AbsentFirstChar(m, "textile");
    AbsentFirstChar(m, "cloth");
    AbsentFirstChar(m, "electronic");
    AbsentFirstChar(m, "paper");
    AbsentFirstChar(m, "organic");
  }

  /** "E-waste" is not a keyword here, so it gets the generic list. */
  lemma EWasteIsGeneric()
    ensures GetDefaultCategories("E-waste") == GenericCategories
  {
    assert ToLower("E-waste") == "e-waste";
    NoEarlyKeywordInEWaste();
    NoLateKeywordInEWaste();
  }

  // ---------------------------------------------------------------------
  // Suggestions

  const ParsePrefix: string := "Failed to parse AI response: "
  const ServicePrefix: string := "AI service error: "

  /** The message of the error each extraction failure throws. */
  function FailureMessage(e: ParseFailure): (r: string)
    ensures e.SyntaxError? ==> r == e.message
    ensures !e.SyntaxError? ==> r in {"No JSON structure found in response",
      "Cannot read properties of null (reading 'suggestions')",
      "Invalid response format - missing suggestions array"}
    ensures e.NoJsonStructure? <==> r == "No JSON structure found in response" && !e.SyntaxError?
    ensures e.NullParsed? <==> r == "Cannot read properties of null (reading 'suggestions')" && !e.SyntaxError?
    ensures e.NotAnArray? <==> r == "Invalid response format - missing suggestions array" && !e.SyntaxError?
  {
    match e
    case NoJsonStructure => "No JSON structure found in response"
    case SyntaxError(message) => message
    case NullParsed => "Cannot read properties of null (reading 'suggestions')"
    case NotAnArray => "Invalid response format - missing suggestions array"
  }

  /** `parseAIResponse(response)`: the `suggestions` array of the object cut
      out of the reply, unchecked beyond being an array; every failure is
      rethrown with the prefix "Failed to parse AI response: ". */
  function ParseAIResponse(response: string, parse: JsonParser): (r: Result<seq<JsonValue>, string>)
    ensures r.Success? <==> ExtractArray(response, "suggestions", parse).Success?
    ensures r.Success? ==>
      && Candidate(response).Some?
      && parse(Candidate(response).value).Success?
      && Member(parse(Candidate(response).value).value, "suggestions") == Some(Arr(r.value))
    ensures r.Failure? ==>
      r.error == ParsePrefix + FailureMessage(ExtractArray(response, "suggestions", parse).error)
  {
    match ExtractArray(response, "suggestions", parse)
    case Success(items) => Success(items)
    case Failure(e) => Failure(ParsePrefix + FailureMessage(e))
  }

  /** What reading the generated text for logging does to a value that is
      not a string: `aiResponse.substring(0, 200)` throws. */
  function NotAStringMessage(text: Option<JsonValue>): (r: string)
    ensures text.None? ==> r == "Cannot read properties of undefined (reading 'substring')"
    ensures text == Some(Null) ==> r == "Cannot read properties of null (reading 'substring')"
    ensures text.Some? && text.value != Null ==> r == "aiResponse.substring is not a function"
  {
    if text.None? then "Cannot read properties of undefined (reading 'substring')"
    else if text.value == Null then "Cannot read properties of null (reading 'substring')"
    else "aiResponse.substring is not a function"
  }

  const NullEntryMessage: string := "Cannot read properties of null (reading 'productName')"
  const PrimitiveMessage: string := "Cannot convert object to primitive value"

  /** Reading the member for the log line and putting it into the template
      throws: the member is an object with its own "toString" member, or an
      array holding one. A missing member reads as "undefined". */
  predicate MemberThrows(entry: JsonValue, key: string)
  {
    var m := Member(entry, key); m.Some? && ThrowsOnString(m.value)
  }

  /** The error that logging one entry as `${index + 1}. ${productName}
      (${difficulty})` throws, if any: a null entry has no members to read,
      and the name is put into the line before the difficulty. */
  function LogError(entry: JsonValue): (r: Option<string>)
    ensures entry == Null ==> r == Some(NullEntryMessage)
    ensures entry != Null ==> (r.None? <==> !MemberThrows(entry, "productName") && !MemberThrows(entry, "difficulty"))
    ensures r.Some? ==> r.value in {NullEntryMessage, PrimitiveMessage}
  {
    if entry == Null then Some(NullEntryMessage)
    else if MemberThrows(entry, "productName") || MemberThrows(entry, "difficulty") then Some(PrimitiveMessage)
    else None
  }

  /** The `forEach` over the parsed suggestions stops at the first entry
      whose log line throws, and that error is what propagates. */
  function FirstLogError(items: seq<JsonValue>): (r: Option<string>)
    ensures r.None? <==> forall i :: 0 <= i < |items| ==> LogError(items[i]).None?
    ensures r.Some? ==>
      exists i :: 0 <= i < |items| && r == LogError(items[i]) && forall j :: 0 <= j < i ==> LogError(items[j]).None?
  {
    if |items| == 0 then None
    else if LogError(items[0]).Some? then LogError(items[0])
    else
      var rest := FirstLogError(items[1..]);
      assert forall i :: 1 <= i < |items| ==> items[i] == items[1..][i - 1];
      rest
  }

  /** `analyzeWaste(material, category, quantity, unit)`: the provider's
      `suggestions` array as it came, or an error. The error is the reply's
      own message for a failed call, otherwise the message of whichever
      step threw, always behind the prefix "AI service error: ". There is
      no fallback: a result exists exactly when the reply is a string
      holding a `suggestions` array each of whose entries can be logged. */
  function AnalyzeWaste(reply: Reply, parse: JsonParser): (r: Result<seq<JsonValue>, string>)
    ensures r.Failure? ==> |r.error| >= |ServicePrefix| && r.error[..|ServicePrefix|] == ServicePrefix
    ensures r.Success? <==>
      && reply.Delivered? && reply.text.Some? && reply.text.value.Str?
      && ParseAIResponse(reply.text.value.s, parse).Success?
      && FirstLogError(ParseAIResponse(reply.text.value.s, parse).value).None?
    ensures r.Success? ==> r.value == ParseAIResponse(reply.text.value.s, parse).value
    ensures reply.Failed? ==> r == Failure(ServicePrefix + reply.message)
    ensures
      (&& reply.Delivered? && reply.text.Some? && reply.text.value.Str?
       && ParseAIResponse(reply.text.value.s, parse).Success?
       && FirstLogError(ParseAIResponse(reply.text.value.s, parse).value).Some?)
      ==> r == Failure(ServicePrefix + FirstLogError(ParseAIResponse(reply.text.value.s, parse).value).value)
  {
    var r := match reply
      case Failed(message) => Failure(ServicePrefix + message)
      case Delivered(text) =>
        if text.None? || !text.value.Str? then Failure(ServicePrefix + NotAStringMessage(text))
        else match ParseAIResponse(text.value.s, parse)
          case Failure(message) => Failure(ServicePrefix + message)
          case Success(items) =>
            match FirstLogError(items)
            case Some(message) => Failure(ServicePrefix + message)
            case None => Success(items);
    assert r.Failure? ==> r.error[..|ServicePrefix|] == ServicePrefix;
    r
  }

  /** An entry whose name is an object with its own "toString" member makes
      the whole call fail, although the array itself was well formed. */
  lemma ObjectNameFails(text: string, parse: JsonParser, t: JsonValue)
    requires ParseAIResponse(text, parse) == Success([Obj(map["productName" := Obj(map["toString" := t])])])
    ensures AnalyzeWaste(Delivered(Some(Str(text))), parse) == Failure(ServicePrefix + PrimitiveMessage)
  {
    var e := Obj(map["productName" := Obj(map["toString" := t])]);
    assert MemberThrows(e, "productName");
    assert FirstLogError([e]) == LogError(e);
  }

  /** A reply that cannot be parsed reports why, behind both prefixes. */
  lemma UnparsableReplyReportsCause(text: string, parse: JsonParser)
    requires ExtractArray(text, "suggestions", parse).Failure?
    ensures AnalyzeWaste(Delivered(Some(Str(text))), parse)
      == Failure(ServicePrefix + (ParsePrefix + FailureMessage(ExtractArray(text, "suggestions", parse).error)))
  {
  }

  /** A reply without braces fails with "No JSON structure found in
      response", whatever the parser would have said. */
  lemma NoBracesNoStructure(text: string, parse: JsonParser)
    requires '{' !in Clean(text)
    ensures AnalyzeWaste(Delivered(Some(Str(text))), parse)
      == Failure(ServicePrefix + (ParsePrefix + "No JSON structure found in response"))
  {
  }

  /** A reply that is exactly one object is parsed whole, and its
      `suggestions` array, if every entry can be logged, is the result. */
  lemma WholeObjectReply(text: string, parse: JsonParser, items: seq<JsonValue>)
    requires var c := Clean(text); |c| > 0 && c[0] == '{' && c[|c| - 1] == '}'
    requires parse(Clean(text)).Success?
    requires Member(parse(Clean(text)).value, "suggestions") == Some(Arr(items))
    requires forall i :: 0 <= i < |items| ==> LogError(items[i]).None?
    ensures AnalyzeWaste(Delivered(Some(Str(text))), parse) == Success(items)
  {
    WholeObjectIsCandidate(Clean(text));
  }

  // ---------------------------------------------------------------------
  // Categories

  /** The truthy `categories` member of the object cut out of a delivered
      text, when every step up to reading it succeeds. */
  function ProvidedCategories(text: Option<JsonValue>, parse: JsonParser): (r: Option<JsonValue>)
    ensures r.Some? ==> Truthy(r.value)
    ensures r.Some? <==>
      && text.Some? && text.value.Str? && Candidate(text.value.s).Some?
      && parse(Candidate(text.value.s).value).Success?
      && var m := Member(parse(Candidate(text.value.s).value).value, "categories"); m.Some? && Truthy(m.value)
    ensures r.Some? ==> Some(r.value) == Member(parse(Candidate(text.value.s).value).value, "categories")
  {
    if text.None? || !text.value.Str? then None
    else match Candidate(text.value.s)
      case None => None
      case Some(json) =>
        match parse(json)
        case Failure(_) => None
        case Success(parsed) =>
          var m := Member(parsed, "categories");
          if m.Some? && Truthy(m.value) then m else None
  }

  /** `getCategories(material)`: the provider's truthy `categories` member,
      whatever kind of value it is, or else the default list for the
      material. The result is always truthy. */
  function GetCategories(material: string, reply: Reply, parse: JsonParser): (r: JsonValue)
    ensures Truthy(r)
    ensures reply.Delivered? && ProvidedCategories(reply.text, parse).Some? ==>
      r == ProvidedCategories(reply.text, parse).value
    ensures !(reply.Delivered? && ProvidedCategories(reply.text, parse).Some?) ==>
      r.Arr? && r.items == StrItems(GetDefaultCategories(material)) && |r.items| == 5
  {
    match reply
    case Failed(_) => Arr(StrItems(GetDefaultCategories(material)))
    case Delivered(text) =>
      match ProvidedCategories(text, parse)
      case Some(categories) => categories
      case None => Arr(StrItems(GetDefaultCategories(material)))
  }

  /** Nothing checks the shape of the provider's categories: a number, an
      object or an array of any length comes back as it is. */
  lemma CategoriesUnchecked(material: string, text: string, parse: JsonParser, categories: JsonValue)
    requires var c := Clean(text); |c| > 0 && c[0] == '{' && c[|c| - 1] == '}'
    requires parse(Clean(text)) == Success(Obj(map["categories" := categories]))
    requires Truthy(categories)
    ensures GetCategories(material, Delivered(Some(Str(text))), parse) == categories
  {
    var c := Clean(text);
    WholeObjectIsCandidate(c);
    assert Candidate(text) == Some(c);
    assert Member(parse(c).value, "categories") == Some(categories);
    assert ProvidedCategories(Some(Str(text)), parse) == Some(categories);
  }
}
