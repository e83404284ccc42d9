/** The regular-expression engine (the `regex` crate) is not modelled: it is a
    pair of functions supplied by the caller, one telling whether a pattern
    compiles and one telling whether a compiled pattern matches a text. */
module Patterns {

  datatype RegexEngine = RegexEngine(compiles: string -> bool, isMatch: (string, string) -> bool)

  /** A compiled pattern (`regex::Regex`), remembering its source text. */
  datatype Regex = Regex(pattern: string)

  /** `Regex::is_match`. */
  predicate Matches(re: RegexEngine, r: Regex, text: string) {
    re.isMatch(r.pattern, text)
  }
}
