/**
 The scorer's overflow policy. The scorer keeps the policy as a plain string
 and compares it against `'truncate'`, `'raise'` and `'nullify'` when it
 tokenizes; any other string is kept as `Other` so that its effect (a failed
 assertion) can be modelled.
 */
module Overflow {

  datatype OverflowStrategy = Truncate | Raise | Nullify | Other(name: string)

  /** The policy a scorer gets when its caller names none. */
  const DefaultName: string := "nullify"

  /** The policy a strategy string selects. */
  function Parse(s: string): (st: OverflowStrategy)
    ensures st.Truncate? <==> s == "truncate"
    ensures st.Raise? <==> s == "raise"
    ensures st.Nullify? <==> s == "nullify"
    ensures st.Other? ==> st.name == s
  {
    if s == "truncate" then Truncate
    else if s == "raise" then Raise
    else if s == "nullify" then Nullify
    else Other(s)
  }

  /** The string a strategy is spelled with. */
  function Name(st: OverflowStrategy): string
  {
    match st
    case Truncate => "truncate"
    case Raise => "raise"
    case Nullify => "nullify"
    case Other(s) => s
  }

  /** An `Other` strategy never spells one of the three recognised names. */
  predicate Canonical(st: OverflowStrategy)
  {
    st.Other? ==> st.name != "truncate" && st.name != "raise" && st.name != "nullify"
  }

  /** Parsing loses nothing: every string comes back from its strategy, and
      every canonical strategy comes back from its name. */
  lemma ParseNameRoundTrip(s: string, st: OverflowStrategy)
    ensures Name(Parse(s)) == s
    ensures Canonical(Parse(s))
    ensures Canonical(st) ==> Parse(Name(st)) == st
  {
  }
}
