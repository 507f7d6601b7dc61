/** Go's `strconv.ParseBool`, which the evaluator and the license-map reader rely on. */
module StrConv {
  import opened Wrappers

  /** The spellings Go accepts for true; matching is exact (case-sensitive). */
  const TrueSpellings: set<string> := {"1", "t", "T", "TRUE", "true", "True"}
  /** The spellings Go accepts for false. */
  const FalseSpellings: set<string> := {"0", "f", "F", "FALSE", "false", "False"}

  /** `strconv.ParseBool`: `Some(b)` for an accepted spelling, `None` for the syntax error. */
  function ParseBool(s: string): (r: Option<bool>)
    ensures r == Some(true) <==> s in TrueSpellings
    ensures r == Some(false) <==> s in FalseSpellings
    ensures r == None <==> s !in TrueSpellings + FalseSpellings
  {
    if s == "1" || s == "t" || s == "T" || s == "TRUE" || s == "true" || s == "True" then Some(true)
    else if s == "0" || s == "f" || s == "F" || s == "FALSE" || s == "false" || s == "False" then Some(false)
    else None
  }

  /** Every spelling has one, four or five characters, so text of any other
      length is never read as a boolean. */
  lemma NoSpellingOfLength(s: string)
    requires |s| != 1 && |s| != 4 && |s| != 5
    ensures s !in TrueSpellings + FalseSpellings && ParseBool(s) == None
  {
  }
}
