module Strings {
  /** strings.HasPrefix. */
  predicate StartsWith(s: string, p: string) { |p| <= |s| && s[..|p|] == p }
}
