/**
 * The unit tags of the Prisma `UnitType` enum as they reach the converters.
 * Four tags are supported; any other tag (the frontend's 'LITER', the
 * lowercase values of the ingredient DTO's enum) is carried verbatim in
 * `Other`, so that the `default: throw` branches stay reachable.
 */
module Units {

  datatype UnitCode = Kilogram | Gram | Milliliter | Unit | Other(tag: string)

  const KnownTags: set<string> := {"KILOGRAM", "GRAM", "MILLILITER", "UNIT"}

  /** `Other` never spells one of the four known tags, so each tag has one code. */
  predicate Canonical(u: UnitCode) {
    u.Other? ==> u.tag !in KnownTags
  }

  type UnitType = u: UnitCode | Canonical(u) witness Gram

  predicate Supported(u: UnitType) {
    !u.Other?
  }

  /** The string the source switches on. */
  function TagOf(u: UnitType): (s: string)
    ensures Supported(u) <==> s in KnownTags
  {
    match u
    case Kilogram => "KILOGRAM"
    case Gram => "GRAM"
    case Milliliter => "MILLILITER"
    case Unit => "UNIT"
    case Other(t) => t
  }

  /** Reads a tag string as the source's `switch` does. */
  function FromTag(s: string): (u: UnitType)
    ensures TagOf(u) == s
  {
    if s == "KILOGRAM" then Kilogram
    else if s == "GRAM" then Gram
    else if s == "MILLILITER" then Milliliter
    else if s == "UNIT" then Unit
    else Other(s)
  }

  /** Tags and codes are in one-to-one correspondence. */
  lemma FromTagOfTag(u: UnitType)
    ensures FromTag(TagOf(u)) == u
  {
  }

  /** The error thrown by the `default` branches ("Unidad no soportada"). */
  datatype UnitError = UnsupportedUnit(tag: string)
}
