/**
 * The content-type acceptance policy as data: a list of literal `type/subtype`
 * strings plus a list of patterns, consumed by one predicate. A media type is
 * accepted when its rendering is one of the literals or some pattern matches it.
 */
module ContentTypeRules {
  import opened MediaTypes
  import SubtypePattern

  /** The patterns the documents allow; the source has exactly one. */
  datatype Pattern = ApplicationJsonSubType {

    /** The pattern as the source declares it, delimiters included. */
    function Source(): (s: string) {
      "/application\\/[a-z]+\\+json/"
    }

    /** What the pattern means, as `preg_match` applies it: an unanchored search. */
    function MatchesString(s: string): (b: bool)
      ensures b <==> SubtypePattern.Matches(s)
    {
      SubtypePattern.MatchesPattern(s)
    }
  }

  datatype RuleSet = RuleSet(literals: seq<string>, patterns: seq<Pattern>)

  /** Whether some pattern of `patterns` matches `s`, tried in order. */
  function AnyPatternMatches(patterns: seq<Pattern>, s: string): (b: bool)
    ensures b <==> exists k :: 0 <= k < |patterns| && patterns[k].MatchesString(s)
  {
    if patterns == [] then false
    else patterns[0].MatchesString(s) || AnyPatternMatches(patterns[1..], s)
  }

  /** The acceptance predicate: literal membership of the rendering, or a pattern match. */
  function Accepts(rules: RuleSet, m: MediaType): (b: bool)
    ensures b <==> (Render(m) in rules.literals
                    || exists k :: 0 <= k < |rules.patterns| && rules.patterns[k].MatchesString(Render(m)))
  {
    Render(m) in rules.literals || AnyPatternMatches(rules.patterns, Render(m))
  }

  /** With at least one pattern (the sub-type pattern is the only one there is), acceptance is literal membership or a substring match. */
  lemma AcceptsWithSubTypePattern(rules: RuleSet, m: MediaType)
    requires rules.patterns != []
    ensures Accepts(rules, m) <==> Render(m) in rules.literals || SubtypePattern.Matches(Render(m))
  {
  }

  /** The exception's fixed code; its numeric value is declared in a class outside this model. */
  datatype ErrorCode = InvalidContentTypeCode

  /** What the source throws when a media type is rejected. */
  datatype InvalidContentType = InvalidContentType(code: ErrorCode, message: string, contentType: MediaType)

  /** The message template `Invalid content type "<type>/<subtype>"`. */
  function InvalidContentTypeMessage(m: MediaType): (msg: string)
    ensures |msg| == 23 + |Render(m)|
    ensures msg[..22] == "Invalid content type \"" && msg[|msg| - 1] == '"'
    ensures msg[22..|msg| - 1] == Render(m)
  {
    "Invalid content type \"" + Render(m) + "\""
  }

  /** The exception raised for a rejected media type: the fixed code, the message, the rejected type. */
  function Reject(m: MediaType): (e: InvalidContentType)
    ensures e.code == InvalidContentTypeCode && e.contentType == m
    ensures e.message == InvalidContentTypeMessage(m)
  {
    InvalidContentType(InvalidContentTypeCode, InvalidContentTypeMessage(m), m)
  }
}
