/** The category lists the services fall back on, and a table-driven
    reference for their keyword if-chains: the categories of the FIRST rule
    one of whose keywords occurs in the lower-cased material name, or the
    generic list when none does. */
module CategoryTables {
  import opened JsText

  const PlasticCategories: seq<string> := ["Bottles", "Containers", "Bags", "Packaging", "Toys"]
  const WoodCategories: seq<string> := ["Furniture", "Pallets", "Construction", "Packaging", "Natural"]
  const MetalCategories: seq<string> := ["Cans", "Foils", "Wires", "Utensils", "Scrap"]
  const GlassCategories: seq<string> := ["Bottles", "Jars", "Windows", "Containers", "Broken"]
  const TextileCategories: seq<string> := ["Cotton", "Denim", "Wool", "Synthetic", "Mixed"]
  const ElectronicCategories: seq<string> := ["Phones", "Computers", "Wires", "Batteries", "Appliances"]
  const PaperCategories: seq<string> := ["Newspaper", "Cardboard", "Books", "Packaging", "Office"]
  const OrganicCategories: seq<string> := ["Food Waste", "Garden Waste", "Agricultural", "Compost", "Mixed"]
  const GenericCategories: seq<string> := ["Household", "Industrial", "Packaging", "Construction", "Mixed"]

  /** A material containing any of `keywords` gets `categories`. */
  datatype Rule = Rule(keywords: seq<string>, categories: seq<string>)

  /** Some keyword of the rule occurs in the name. */
  predicate Matches(rule: Rule, name: string)
  {
    exists k :: k in rule.keywords && Contains(name, k)
  }

  /** No rule before index `i` matches. */
  predicate FirstMatching(rules: seq<Rule>, name: string, i: int)
  {
    forall j :: 0 <= j < i && j < |rules| ==> !Matches(rules[j], name)
  }

  /** The categories of the first matching rule, the generic list if none
      matches: exactly the rule at the first index that matches. */
  function FirstMatch(rules: seq<Rule>, name: string): (r: seq<string>)
    ensures (forall i :: 0 <= i < |rules| ==> !Matches(rules[i], name)) ==> r == GenericCategories
    ensures forall i :: 0 <= i < |rules| && Matches(rules[i], name) && FirstMatching(rules, name, i) ==>
      r == rules[i].categories
  {
    if |rules| == 0 then GenericCategories
    else if Matches(rules[0], name) then rules[0].categories
    else
      var r := FirstMatch(rules[1..], name);
      assert forall i :: 1 <= i < |rules| ==> rules[i] == rules[1..][i - 1];
      r
  }

  /** A one-keyword rule matches when its keyword occurs. */
  lemma MatchesOne(k: string, categories: seq<string>, name: string)
    ensures Matches(Rule([k], categories), name) <==> Contains(name, k)
  {
    assert k in [k];
  }

  /** A two-keyword rule matches when either keyword occurs. */
  lemma MatchesTwo(k1: string, k2: string, categories: seq<string>, name: string)
    ensures Matches(Rule([k1, k2], categories), name) <==> Contains(name, k1) || Contains(name, k2)
  {
    assert k1 in [k1, k2] && k2 in [k1, k2];
  }

  /** A table of eight rules read as the if-chain it stands for. */
  lemma FirstMatchOfEight(rules: seq<Rule>, name: string)
    requires |rules| == 8
    ensures FirstMatch(rules, name) ==
      if Matches(rules[0], name) then rules[0].categories
      else if Matches(rules[1], name) then rules[1].categories
      else if Matches(rules[2], name) then rules[2].categories
      else if Matches(rules[3], name) then rules[3].categories
      else if Matches(rules[4], name) then rules[4].categories
      else if Matches(rules[5], name) then rules[5].categories
      else if Matches(rules[6], name) then rules[6].categories
      else if Matches(rules[7], name) then rules[7].categories
      else GenericCategories
  {
    if Matches(rules[0], name) { assert FirstMatching(rules, name, 0); }
    else if Matches(rules[1], name) { assert FirstMatching(rules, name, 1); }
    else if Matches(rules[2], name) { assert FirstMatching(rules, name, 2); }
    else if Matches(rules[3], name) { assert FirstMatching(rules, name, 3); }
    else if Matches(rules[4], name) { assert FirstMatching(rules, name, 4); }
    else if Matches(rules[5], name) { assert FirstMatching(rules, name, 5); }
    else if Matches(rules[6], name) { assert FirstMatching(rules, name, 6); }
    else if Matches(rules[7], name) { assert FirstMatching(rules, name, 7); }
    else { assert forall i :: 0 <= i < |rules| ==> !Matches(rules[i], name); }
  }

  /** Every list a rule table can give has five entries. */
  predicate FiveEach(rules: seq<Rule>)
  {
    forall i :: 0 <= i < |rules| ==> |rules[i].categories| == 5
  }

  lemma {:induction false} FirstMatchHasFive(rules: seq<Rule>, name: string)
    requires FiveEach(rules)
    ensures |FirstMatch(rules, name)| == 5
  {
    if |rules| > 0 && !Matches(rules[0], name) {
      FirstMatchHasFive(rules[1..], name);
    }
  }
}
