/** The carbon accounting behind an analysis: the quantity is converted to
    kilograms, multiplied by the material's emission factor (kg CO2 per kg),
    and the "if upcycled" figure is 0.8 of that; both figures are rounded to
    one decimal half-up, as `Math.round(x * 10) / 10` does. Quantities are
    exact reals. */
module CarbonCalculator {
  import opened JsText
  import opened JsMath

  /** kg CO2 per kg of material, keyed by lower-case material name. */
  const EmissionFactors: map<string, real> := map[
    "plastic" := 2.5, "paper" := 0.8, "metal" := 1.8, "glass" := 0.9, "textile" := 3.0,
    "electronic" := 5.2, "organic" := 0.5, "wood" := 0.3, "rubber" := 2.2]

  /** The factor of a material missing from the table. */
  const DefaultEmission: real := 1.5

  /** The share of the wasted emissions that upcycling still accounts for. */
  const UpcyclingEfficiency: real := 0.8

  datatype CarbonFootprint = CarbonFootprint(ifWasted: real, ifUpcycled: real)

  /** For non-negative emissions, the rounded upcycled share is between 0
      and the rounded whole. */
  lemma UpcycledBelowWasted(w: real)
    ensures w >= 0.0 ==> 0.0 <= RoundTenth(w * UpcyclingEfficiency) <= RoundTenth(w)
  {
    if w >= 0.0 {
      RoundTenthMonotone(w * UpcyclingEfficiency, w);
      RoundTenthNonNegative(w * UpcyclingEfficiency);
    }
  }

  /** The quantity in kilograms: pieces weigh 0.05 kg, a litre 0.5 kg and
      a metre 0.1 kg; every other unit, "kg" or unknown, counts as kg. */
  function QuantityInKg(quantity: real, unit: string): (kg: real)
    ensures unit == "pieces" ==> kg == quantity * 0.05
    ensures unit == "liters" ==> kg == quantity * 0.5
    ensures unit == "meters" ==> kg == quantity * 0.1
    ensures unit != "pieces" && unit != "liters" && unit != "meters" ==> kg == quantity
    ensures quantity >= 0.0 ==> 0.0 <= kg <= quantity
  {
    var kg := quantity;
    var kg := if unit == "pieces" then quantity * 0.05 else kg;
    var kg := if unit == "liters" then quantity * 0.5 else kg;
    if unit == "meters" then quantity * 0.1 else kg
  }

  /** `emissionFactors[material.toLowerCase()] || 1.5` over the table's own
      keys: an exact match of the lower-cased name, not a substring search;
      every other name gets the default. */
  function EmissionFactor(material: string): (f: real)
    ensures ToLower(material) in EmissionFactors ==> f == EmissionFactors[ToLower(material)]
    ensures ToLower(material) !in EmissionFactors ==> f == DefaultEmission
    ensures f > 0.0
  {
    var key := ToLower(material);
    if key in EmissionFactors then EmissionFactors[key] else DefaultEmission
  }

  /** The emissions before rounding. */
  function UnroundedWasted(material: string, quantity: real, unit: string): real
  {
    EmissionFactor(material) * QuantityInKg(quantity, unit)
  }

  /** `calculateCarbonFootprint(material, quantity, unit)`: each figure is
      the multiple of 0.1 nearest to its exact value (halves up), and the
      "if upcycled" figure is computed from the UNROUNDED "if wasted" one.
      For a non-negative quantity both are non-negative and upcycling never
      shows more emissions than wasting. */
  function CalculateCarbonFootprint(material: string, quantity: real, unit: string): (r: CarbonFootprint)
    ensures var w := UnroundedWasted(material, quantity, unit);
      && IsTenth(r.ifWasted) && w - 0.05 < r.ifWasted <= w + 0.05
      && IsTenth(r.ifUpcycled) && w * 0.8 - 0.05 < r.ifUpcycled <= w * 0.8 + 0.05
    ensures quantity >= 0.0 ==> 0.0 <= r.ifUpcycled <= r.ifWasted
  {
    var ifWasted := UnroundedWasted(material, quantity, unit);
    var ifUpcycled := ifWasted * UpcyclingEfficiency;
    UpcycledBelowWasted(ifWasted);
    CarbonFootprint(RoundTenth(ifWasted), RoundTenth(ifUpcycled))
  }

  /** Only the lower-cased name matters. */
  lemma EmissionFactorIgnoresCase(material: string)
    ensures EmissionFactor(material) == EmissionFactor(ToLower(material))
    ensures CalculateCarbonFootprint(material, 1.0, "kg") == CalculateCarbonFootprint(ToLower(material), 1.0, "kg")
  {
    ToLowerIdempotent(material);
  }

  /** Names that lower-case alike give the same footprint. */
  lemma SameLowerCaseSameFootprint(a: string, b: string, quantity: real, unit: string)
    requires ToLower(a) == ToLower(b)
    ensures CalculateCarbonFootprint(a, quantity, unit) == CalculateCarbonFootprint(b, quantity, unit)
  {
    var w := UnroundedWasted(a, quantity, unit);
    assert w == UnroundedWasted(b, quantity, unit);
    assert CalculateCarbonFootprint(a, quantity, unit) == CarbonFootprint(RoundTenth(w), RoundTenth(w * UpcyclingEfficiency));
  }

  /** 10 pieces of plastic weigh 0.5 kg: 1.25 kg CO2 wasted, shown as 1.3,
      and 1.0 if upcycled. */
  lemma PlasticPiecesExample()
    ensures CalculateCarbonFootprint("plastic", 10.0, "pieces") == CarbonFootprint(1.3, 1.0)
  {
    assert ToLower("plastic") == "plastic";
  }

  /** 5 kg of wood: 1.5 and 1.2. */
  lemma WoodExample()
    ensures CalculateCarbonFootprint("wood", 5.0, "kg") == CarbonFootprint(1.5, 1.2)
  {
    assert ToLower("wood") == "wood";
  }

  /** "wood pallets" is not a key: it gets the default factor 1.5, so 5 kg
      give 7.5 and 6.0, not the 1.5 and 1.2 of "wood". */
  lemma WoodPalletsExample()
    ensures EmissionFactor("wood pallets") == DefaultEmission
    ensures CalculateCarbonFootprint("wood pallets", 5.0, "kg") == CarbonFootprint(7.5, 6.0)
  {
    assert ToLower("wood pallets") == "wood pallets";
  }

  /** Rounding the unrounded figure is not rounding the rounded one: for
      0.04 kg of an unlisted material the exact emissions are 0.06 (shown
      0.1), and 0.8 of them, 0.048, is shown as 0.0, where 0.8 of the shown
      0.1 would round to 0.1. */
  lemma UpcycledUsesUnroundedWasted()
    ensures var r := CalculateCarbonFootprint("foam", 0.04, "kg");
      r.ifWasted == 0.1 && r.ifUpcycled == 0.0 && RoundTenth(r.ifWasted * UpcyclingEfficiency) == 0.1
  {
    assert ToLower("foam") == "foam";
  }

  // ---------------------------------------------------------------------
  // The lookup as written also reaches the members every JavaScript object
  // inherits. Two of them have all-lower-case names: `constructor` (a
  // function) and `__proto__` (an object). Both are truthy, so `|| 1.5`
  // keeps them, and multiplying either by a number gives NaN.

  /** A JavaScript number as far as this model needs one. */
  datatype JsNumber = Finite(value: real) | NaN

  datatype JsCarbonFootprint = JsCarbonFootprint(ifWasted: JsNumber, ifUpcycled: JsNumber)

  /** Lower-case names of members of `Object.prototype`. */
  const InheritedMembers: set<string> := {"constructor", "__proto__"}

  function TimesNumber(a: JsNumber, b: real): JsNumber
  {
    if a.NaN? then NaN else Finite(a.value * b)
  }

  function RoundTenthJs(x: JsNumber): JsNumber
  {
    if x.NaN? then NaN else Finite(RoundTenth(x.value))
  }

  /** `emissionFactors[material.toLowerCase()] || 1.5` with the inherited
      members: NaN once used in arithmetic. */
  function EmissionFactorAsWritten(material: string): (f: JsNumber)
    ensures f.NaN? <==> ToLower(material) in InheritedMembers
  {
    var key := ToLower(material);
    if key in EmissionFactors then Finite(EmissionFactors[key])
    else if key in InheritedMembers then NaN
    else Finite(DefaultEmission)
  }

  /** `calculateCarbonFootprint` exactly as written. */
  function CalculateCarbonFootprintAsWritten(material: string, quantity: real, unit: string): (r: JsCarbonFootprint)
    ensures r.ifWasted.NaN? <==> ToLower(material) in InheritedMembers
  {
    var ifWasted := TimesNumber(EmissionFactorAsWritten(material), QuantityInKg(quantity, unit));
    var ifUpcycled := TimesNumber(ifWasted, UpcyclingEfficiency);
    JsCarbonFootprint(RoundTenthJs(ifWasted), RoundTenthJs(ifUpcycled))
  }

  /** The material "Constructor" yields NaN for both figures. */
  lemma ConstructorGivesNaN()
    ensures CalculateCarbonFootprintAsWritten("Constructor", 5.0, "kg") == JsCarbonFootprint(NaN, NaN)
  {
    assert ToLower("Constructor") == "constructor";
  }

  /** Away from the inherited names, the code as written and the own-key
      lookup agree. */
  lemma AsWrittenAgreesOffInheritedNames(material: string, quantity: real, unit: string)
    requires ToLower(material) !in InheritedMembers
    ensures var r := CalculateCarbonFootprint(material, quantity, unit);
      CalculateCarbonFootprintAsWritten(material, quantity, unit) == JsCarbonFootprint(Finite(r.ifWasted), Finite(r.ifUpcycled))
  {
    var w := UnroundedWasted(material, quantity, unit);
    assert TimesNumber(EmissionFactorAsWritten(material), QuantityInKg(quantity, unit)) == Finite(w);
  }
}
