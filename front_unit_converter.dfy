/**
 * The frontend copy of the unit converter. Conversion, base unit and
 * compatibility are written out again as in the frontend utility; labels
 * and abbreviations are table lookups without a fallback, and
 * `CalculateCostPerBaseUnit` derives a per-base-unit cost from a purchase.
 */
module FrontUnitConverter {
  import opened Common
  import opened Units
  import Backend = UnitConverter

  function ConvertToBaseUnit(amount: real, fromUnit: UnitType): (r: Result<real, UnitError>)
    ensures r.Failure? <==> !Supported(fromUnit)
    ensures r.Failure? ==> r.error == UnsupportedUnit(TagOf(fromUnit))
    ensures fromUnit == Kilogram ==> r == Success(amount * 1000.0)
    ensures fromUnit in {Gram, Milliliter, Unit} ==> r == Success(amount)
  {
    match fromUnit
    case Kilogram => Success(amount * 1000.0)
    case Gram => Success(amount)
    case Milliliter => Success(amount)
    case Unit => Success(amount)
    case Other(t) => Failure(UnsupportedUnit(t))
  }

  function ConvertFromBaseUnit(baseAmount: real, toUnit: UnitType): (r: Result<real, UnitError>)
    ensures r.Failure? <==> !Supported(toUnit)
    ensures r.Failure? ==> r.error == UnsupportedUnit(TagOf(toUnit))
    ensures toUnit == Kilogram ==> r.Success? && r.value * 1000.0 == baseAmount
    ensures toUnit in {Gram, Milliliter, Unit} ==> r == Success(baseAmount)
  {
    match toUnit
    case Kilogram => Success(baseAmount / 1000.0)
    case Gram => Success(baseAmount)
    case Milliliter => Success(baseAmount)
    case Unit => Success(baseAmount)
    case Other(t) => Failure(UnsupportedUnit(t))
  }

  function GetBaseUnit(unit: UnitType): (r: Result<UnitType, UnitError>)
    ensures r.Failure? <==> !Supported(unit)
    ensures r.Failure? ==> r.error == UnsupportedUnit(TagOf(unit))
    ensures r.Success? ==> r.value in {Gram, Milliliter, Unit}
    ensures unit in {Kilogram, Gram} ==> r == Success(Gram)
    ensures unit == Milliliter ==> r == Success(Milliliter)
    ensures unit == Unit ==> r == Success(Unit)
  {
    match unit
    case Kilogram => Success(Gram)
    case Gram => Success(Gram)
    case Milliliter => Success(Milliliter)
    case Unit => Success(Unit)
    case Other(t) => Failure(UnsupportedUnit(t))
  }

  function AreUnitsCompatible(unit1: UnitType, unit2: UnitType): (r: Result<bool, UnitError>)
    ensures r.Failure? <==> !Supported(unit1) || !Supported(unit2)
    ensures !Supported(unit1) ==> r == Failure(UnsupportedUnit(TagOf(unit1)))
    ensures Supported(unit1) && !Supported(unit2) ==> r == Failure(UnsupportedUnit(TagOf(unit2)))
  {
    var b1 :- GetBaseUnit(unit1);
    var b2 :- GetBaseUnit(unit2);
    Success(b1 == b2)
  }

  /**
   * `labels[unit].plural` or `.singular`. The table covers exactly the four
   * units; for any other tag the lookup yields undefined and reading a
   * property of it throws a TypeError, modelled as None.
   */
  function GetUnitLabel(unit: UnitType, plural: bool): (r: Option<string>)
    ensures r.Some? <==> Supported(unit)
    ensures r.Some? ==> |r.value| > 0
  {
    match unit
    case Kilogram => Some(if plural then "kilogramos" else "kilogramo")
    case Gram => Some(if plural then "gramos" else "gramo")
    case Milliliter => Some(if plural then "mililitros" else "mililitro")
    case Unit => Some(if plural then "unidades" else "unidad")
    case Other(_) => None
  }

  /** `abbreviations[unit]`: None stands for the undefined an unknown tag looks up. */
  function GetUnitAbbreviation(unit: UnitType): (r: Option<string>)
    ensures r.Some? <==> Supported(unit)
    ensures r.Some? ==> r.value in {"kg", "g", "ml", "u"}
  {
    match unit
    case Kilogram => Some("kg")
    case Gram => Some("g")
    case Milliliter => Some("ml")
    case Unit => Some("u")
    case Other(_) => None
  }

  /**
   * Cost of one base unit (gram, millilitre or unit) from a purchase of
   * `quantity` units costing `cost` in total. The source has no zero guard:
   * a zero supported quantity divides by zero, which the caller must avoid.
   */
  function CalculateCostPerBaseUnit(quantity: real, cost: real, unit: UnitType): (r: Result<real, UnitError>)
    requires Supported(unit) ==> quantity != 0.0
    ensures r.Failure? <==> !Supported(unit)
    ensures r.Failure? ==> r.error == UnsupportedUnit(TagOf(unit))
    ensures r.Success? ==> r.value * ConvertToBaseUnit(quantity, unit).value == cost
  {
    var quantityInBaseUnit :- ConvertToBaseUnit(quantity, unit);
    Success(cost / quantityInBaseUnit)
  }

  // ---------------------------------------------------------------------
  // Properties

  lemma RoundTrip(x: real, u: UnitType)
    requires Supported(u)
    ensures ConvertToBaseUnit(x, u).Success?
    ensures ConvertFromBaseUnit(ConvertToBaseUnit(x, u).value, u) == Success(x)
    ensures ConvertFromBaseUnit(x, u).Success?
    ensures ConvertToBaseUnit(ConvertFromBaseUnit(x, u).value, u) == Success(x)
  {
  }

  /** The units fall into the three classes {kilogram, gram}, {millilitre}, {unit}. */
  lemma CompatibilityClasses(a: UnitType, b: UnitType)
    requires Supported(a) && Supported(b)
    ensures AreUnitsCompatible(a, b) == Success(a == b || (a in {Kilogram, Gram} && b in {Kilogram, Gram}))
  {
  }

  /** The frontend converter computes what the backend converter computes. */
  lemma AgreesWithBackend(x: real, u: UnitType, v: UnitType)
    ensures ConvertToBaseUnit(x, u) == Backend.ConvertToBaseUnit(x, u)
    ensures ConvertFromBaseUnit(x, u) == Backend.ConvertFromBaseUnit(x, u)
    ensures GetBaseUnit(u) == Backend.GetBaseUnit(u)
    ensures AreUnitsCompatible(u, v) == Backend.AreUnitsCompatible(u, v)
    ensures Supported(u) ==> GetUnitAbbreviation(u) == Some(Backend.GetUnitAbbreviation(u))
  {
  }

  /** The examples of the cost helper: 8000 for 400 g, and 8000 for 1 kg. */
  lemma CostPerBaseUnitExamples()
    ensures CalculateCostPerBaseUnit(400.0, 8000.0, Gram) == Success(20.0)
    ensures CalculateCostPerBaseUnit(1.0, 8000.0, Kilogram) == Success(8.0)
  {
  }
}
