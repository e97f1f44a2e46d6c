/** The time units token lifetimes are expressed in, and the categories a token can carry. */
module TokenEnum {
  import opened Wrappers

  datatype TTLUnit = Seconds | Minutes | Days

  /** The numeric value of each enum member: the number of seconds in one unit. */
  function UnitSeconds(u: TTLUnit): (n: nat)
    ensures n >= 1
  {
    match u
    case Seconds => 1
    case Minutes => 60
    case Days => 86400
  }

  /** The units nest: a minute is 60 seconds and a day is 1440 minutes. */
  lemma UnitsNest()
    ensures UnitSeconds(Minutes) == 60 * UnitSeconds(Seconds)
    ensures UnitSeconds(Days) == 1440 * UnitSeconds(Minutes)
  {
  }

  /** Every unit is a positive whole number of seconds, and distinct units have distinct values. */
  lemma UnitsDistinctPositive(a: TTLUnit, b: TTLUnit)
    ensures UnitSeconds(a) % UnitSeconds(Seconds) == 0 && UnitSeconds(a) > 0
    ensures a != b ==> UnitSeconds(a) != UnitSeconds(b)
  {
  }

  datatype TokenCategory = Login | Signup

  /** The value of each member of `TokenCategoryEnum`, equal to its key. */
  function CategoryName(c: TokenCategory): (s: string)
    ensures s == "LOGIN" || s == "SIGNUP"
  {
    match c
    case Login => "LOGIN"
    case Signup => "SIGNUP"
  }

  /** The category a string names, if any. */
  function CategoryFromName(s: string): (c: Option<TokenCategory>)
    ensures c.Some? ==> CategoryName(c.value) == s
    ensures c.None? ==> s != "LOGIN" && s != "SIGNUP"
  {
    if s == "LOGIN" then Some(Login)
    else if s == "SIGNUP" then Some(Signup)
    else None
  }

  /** The categories are exactly LOGIN and SIGNUP, with distinct names that read back to them. */
  lemma CategoryRoundTrip(c: TokenCategory)
    ensures CategoryFromName(CategoryName(c)) == Some(c)
  {
  }
}
