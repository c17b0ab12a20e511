/**
 * The backend unit converter: conversion between a display unit and its
 * base unit (mass to grams, volume to millilitres, count to units),
 * compatibility of units, and display labels that fall back to the raw tag.
 */
module UnitConverter {
  import opened Common
  import opened Units

  /** Multiplies kilograms by 1000; grams, millilitres and units are already base. */
  function ConvertToBaseUnit(amount: real, fromUnit: UnitType): (r: Result<real, UnitError>)
    ensures r.Failure? <==> !Supported(fromUnit)
    ensures r.Failure? ==> r.error == UnsupportedUnit(TagOf(fromUnit))
    ensures fromUnit == Kilogram ==> r == Success(amount * 1000.0)
    ensures fromUnit in {Gram, Milliliter, Unit} ==> r == Success(amount)
  {
    match fromUnit
    case Kilogram => Success(amount * 1000.0)
    case Gram => Success(amount)
    case Milliliter => Success(amount)
    case Unit => Success(amount)
    case Other(t) => Failure(UnsupportedUnit(t))
  }

  /** Divides by 1000 for kilograms and is the identity on the other supported units. */
  function ConvertFromBaseUnit(baseAmount: real, toUnit: UnitType): (r: Result<real, UnitError>)
    ensures r.Failure? <==> !Supported(toUnit)
    ensures r.Failure? ==> r.error == UnsupportedUnit(TagOf(toUnit))
    ensures toUnit == Kilogram ==> r.Success? && r.value * 1000.0 == baseAmount
    ensures toUnit in {Gram, Milliliter, Unit} ==> r == Success(baseAmount)
  {
    match toUnit
    case Kilogram => Success(baseAmount / 1000.0)
    case Gram => Success(baseAmount)
    case Milliliter => Success(baseAmount)
    case Unit => Success(baseAmount)
    case Other(t) => Failure(UnsupportedUnit(t))
  }

  /** Mass goes to grams, volume to millilitres, count stays units. */
  function GetBaseUnit(unit: UnitType): (r: Result<UnitType, UnitError>)
    ensures r.Failure? <==> !Supported(unit)
    ensures r.Failure? ==> r.error == UnsupportedUnit(TagOf(unit))
    ensures r.Success? ==> r.value in {Gram, Milliliter, Unit}
    ensures unit in {Kilogram, Gram} ==> r == Success(Gram)
    ensures unit == Milliliter ==> r == Success(Milliliter)
    ensures unit == Unit ==> r == Success(Unit)
  {
    match unit
    case Kilogram => Success(Gram)
    case Gram => Success(Gram)
    case Milliliter => Success(Milliliter)
    case Unit => Success(Unit)
    case Other(t) => Failure(UnsupportedUnit(t))
  }

  /**
   * `getBaseUnit(u1) === getBaseUnit(u2)`; the first unsupported unit
   * (left to right) throws.
   */
  function AreUnitsCompatible(unit1: UnitType, unit2: UnitType): (r: Result<bool, UnitError>)
    ensures r.Failure? <==> !Supported(unit1) || !Supported(unit2)
    ensures !Supported(unit1) ==> r == Failure(UnsupportedUnit(TagOf(unit1)))
    ensures Supported(unit1) && !Supported(unit2) ==> r == Failure(UnsupportedUnit(TagOf(unit2)))
  {
    var b1 :- GetBaseUnit(unit1);
    var b2 :- GetBaseUnit(unit2);
    Success(b1 == b2)
  }

  /** Spanish display name; an unknown tag is returned unchanged (`labels[unit] || unit`). */
  function GetUnitLabel(unit: UnitType, plural: bool): (s: string)
    ensures !Supported(unit) ==> s == TagOf(unit)
    ensures Supported(unit) ==> |s| > 0
  {
    match unit
    case Kilogram => if plural then "kilogramos" else "kilogramo"
    case Gram => if plural then "gramos" else "gramo"
    case Milliliter => if plural then "mililitros" else "mililitro"
    case Unit => if plural then "unidades" else "unidad"
    case Other(t) => t
  }

  /** Abbreviation; an unknown tag is returned unchanged. */
  function GetUnitAbbreviation(unit: UnitType): (s: string)
    ensures !Supported(unit) ==> s == TagOf(unit)
    ensures Supported(unit) ==> s in {"kg", "g", "ml", "u"}
  {
    match unit
    case Kilogram => "kg"
    case Gram => "g"
    case Milliliter => "ml"
    case Unit => "u"
    case Other(t) => t
  }

  // ---------------------------------------------------------------------
  // Properties

  /** Converting to the base unit and back gives the original amount, and vice versa. */
  lemma RoundTrip(x: real, u: UnitType)
    requires Supported(u)
    ensures ConvertToBaseUnit(x, u).Success?
    ensures ConvertFromBaseUnit(ConvertToBaseUnit(x, u).value, u) == Success(x)
    ensures ConvertFromBaseUnit(x, u).Success?
    ensures ConvertToBaseUnit(ConvertFromBaseUnit(x, u).value, u) == Success(x)
  {
  }

  /** The base unit of a base unit is itself. */
  lemma BaseUnitIdempotent(u: UnitType)
    requires Supported(u)
    ensures GetBaseUnit(u).Success?
    ensures GetBaseUnit(GetBaseUnit(u).value) == GetBaseUnit(u)
  {
  }

  /** An amount already in the base unit is not converted again. */
  lemma BaseUnitConvertsIdentically(x: real, u: UnitType)
    requires Supported(u)
    ensures GetBaseUnit(u).Success?
    ensures ConvertToBaseUnit(x, GetBaseUnit(u).value) == Success(x)
  {
  }

  /** Compatibility is an equivalence relation on the supported units. */
  lemma CompatibilityIsEquivalence(a: UnitType, b: UnitType, c: UnitType)
    requires Supported(a) && Supported(b) && Supported(c)
    ensures AreUnitsCompatible(a, a) == Success(true)
    ensures AreUnitsCompatible(a, b) == AreUnitsCompatible(b, a)
    ensures AreUnitsCompatible(a, b) == Success(true) && AreUnitsCompatible(b, c) == Success(true)
            ==> AreUnitsCompatible(a, c) == Success(true)
  {
  }

  /** The three dimensions: {kilogram, gram}, {millilitre}, {unit}. */
  lemma CompatibilityClasses(a: UnitType, b: UnitType)
    requires Supported(a) && Supported(b)
    ensures AreUnitsCompatible(a, b) == Success(a == b || (a in {Kilogram, Gram} && b in {Kilogram, Gram}))
  {
  }

  /** Distinct supported units have distinct abbreviations and labels. */
  lemma DisplayNamesDistinguishUnits(a: UnitType, b: UnitType, plural: bool)
    requires Supported(a) && Supported(b) && a != b
    ensures GetUnitAbbreviation(a) != GetUnitAbbreviation(b)
    ensures GetUnitLabel(a, plural) != GetUnitLabel(b, plural)
  {
  }
}
