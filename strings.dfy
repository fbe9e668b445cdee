/** Prefix relation on strings. */
module Strings {
  predicate StartsWith(s: string, p: string) {
    |p| <= |s| && s[..|p|] == p
  }
}
