/** The case-insensitive substring filter shared by method search and pattern
    search: a record matches when the lower-cased query occurs in one of its
    lower-cased fields, and matches keep their dataset order. */
module Matchers {
  import opened Text
  import opened Seqs
  import opened Knowledge

  /** `m.name.toLowerCase().includes(q) || m.description.toLowerCase().includes(q)`. */
  predicate MethodMatches(m: Method, lowerQuery: string)
  {
    Includes(Lower(m.name), lowerQuery) || Includes(Lower(m.description), lowerQuery)
  }

  /** `p.name.toLowerCase().includes(q) || p.code.toLowerCase().includes(q)`. */
  predicate PatternMatches(p: Pattern, lowerQuery: string)
  {
    Includes(Lower(p.name), lowerQuery) || Includes(Lower(p.code), lowerQuery)
  }

  /** The test a method search applies to each method, as a value to filter with. */
  function MethodQuery(query: string): Method -> bool
  {
    m => MethodMatches(m, Lower(query))
  }

  /** The test a pattern search applies to each pattern. */
  function PatternQuery(pattern: string): Pattern -> bool
  {
    p => PatternMatches(p, Lower(pattern))
  }

  /** The methods whose name or description mentions `query`, in order. */
  function MatchingMethods(methods: seq<Method>, query: string): seq<Method>
  {
    Filter(methods, MethodQuery(query))
  }

  /** The patterns whose name or code mentions `pattern`, in order. */
  function MatchingPatterns(patterns: seq<Pattern>, pattern: string): seq<Pattern>
  {
    Filter(patterns, PatternQuery(pattern))
  }

  /** The declarative reading of a method match: the query occurs, ignoring
      case, in the name or in the description. */
  ghost predicate MethodMentions(m: Method, query: string)
  {
    IsSubstring(Lower(query), Lower(m.name)) || IsSubstring(Lower(query), Lower(m.description))
  }

  ghost predicate PatternMentions(p: Pattern, query: string)
  {
    IsSubstring(Lower(query), Lower(p.name)) || IsSubstring(Lower(query), Lower(p.code))
  }

  /** A method is found iff it is in the list and mentions the query. */
  lemma MatchingMethodsExactly(methods: seq<Method>, query: string, m: Method)
    ensures m in MatchingMethods(methods, query) <==> m in methods && MethodMentions(m, query)
  {
    FilterMembership(methods, MethodQuery(query), m);
    IncludesIsSubstring(Lower(m.name), Lower(query));
    IncludesIsSubstring(Lower(m.description), Lower(query));
  }

  /** Found methods appear in dataset order. */
  lemma MatchingMethodsInOrder(methods: seq<Method>, query: string)
    ensures IsSubsequence(MatchingMethods(methods, query), methods)
  {
    FilterIsSubsequence(methods, MethodQuery(query));
  }

  /** A pattern is found iff it is in the list and mentions the query. */
  lemma MatchingPatternsExactly(patterns: seq<Pattern>, query: string, p: Pattern)
    ensures p in MatchingPatterns(patterns, query) <==> p in patterns && PatternMentions(p, query)
  {
    FilterMembership(patterns, PatternQuery(query), p);
    IncludesIsSubstring(Lower(p.name), Lower(query));
    IncludesIsSubstring(Lower(p.code), Lower(query));
  }

  /** Found patterns appear in dataset order. */
  lemma MatchingPatternsInOrder(patterns: seq<Pattern>, query: string)
    ensures IsSubsequence(MatchingPatterns(patterns, query), patterns)
  {
    FilterIsSubsequence(patterns, PatternQuery(query));
  }

  /** Matching ignores case: queries equal up to case find the same methods. */
  lemma MatchingMethodsIgnoresCase(methods: seq<Method>, q1: string, q2: string)
    requires Lower(q1) == Lower(q2)
    ensures MatchingMethods(methods, q1) == MatchingMethods(methods, q2)
  {
  }

  /** Pattern search ignores case in the same way. */
  lemma MatchingPatternsIgnoresCase(patterns: seq<Pattern>, q1: string, q2: string)
    requires Lower(q1) == Lower(q2)
    ensures MatchingPatterns(patterns, q1) == MatchingPatterns(patterns, q2)
  {
  }
}
