/** The two string primitives of Go's `strings` package the proxy relies on. */
module Strings {

  /** `strings.HasPrefix(s, prefix)`: `prefix` is an initial segment of `s`. */
  predicate HasPrefix(s: string, prefix: string) {
    prefix <= s
  }

  /** `strings.TrimPrefix(s, prefix)`: `s` without a leading `prefix`, or `s` itself. */
  function TrimPrefix(s: string, prefix: string): (r: string)
    ensures HasPrefix(s, prefix) ==> prefix + r == s
    ensures !HasPrefix(s, prefix) ==> r == s
  {
    if HasPrefix(s, prefix) then s[|prefix|..] else s
  }

  /** Every extension of a string keeps the prefixes the string had. */
  lemma HasPrefixExtends(s: string, prefix: string, suffix: string)
    requires HasPrefix(s, prefix)
    ensures HasPrefix(s + suffix, prefix)
  {
    assert (s + suffix)[..|prefix|] == s[..|prefix|];
  }
}
