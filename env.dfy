/**
 * Environment variables as the configuration callback sees them: a variable
 * is either unset (`undefined`) or a string, and JavaScript's truthiness
 * treats the empty string like an unset variable.
 */
module Env {
  import opened Wrappers

  /** `!!v` for an environment variable: set and not the empty string. */
  predicate Truthy(v: Option<string>)
    ensures v.None? ==> !Truthy(v)
    ensures v == Some("") ==> !Truthy(v)
    ensures v.Some? && v.value != "" ==> Truthy(v)
  {
    v.Some? && v.value != ""
  }

  /** `v || ''`: the variable's text when it is truthy, the empty string otherwise. */
  function OrEmpty(v: Option<string>): (r: string)
    ensures Truthy(v) ==> r == v.value
    ensures r == "" <==> !Truthy(v)
  {
    if Truthy(v) then v.value else ""
  }
}
