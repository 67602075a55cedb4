/**
 * The interface of the pattern matcher that the parser delegates to.
 *
 * The matcher itself (URLMatcher of the URLNavigator library) is not part of
 * this model: it is an abstract function value. What the parser relies on,
 * or what the matcher is documented to do, is stated here as explicit
 * predicates over such a function, to be assumed by the lemmas that need them.
 */
module Matching {
  import opened Wrappers

  /** A successful match: the chosen pattern and the values extracted for its placeholders. */
  datatype Match<V> = Match(pattern: string, values: map<string, V>)

  /** `matcher.match(input, from: candidates)`: the best match among the candidates, or nil. */
  type Matcher<V> = (string, set<string>) -> Option<Match<V>>

  /** The matcher only ever answers with one of the candidate patterns it was given. */
  ghost predicate ReturnsCandidate<V>(matcher: Matcher<V>)
  {
    forall input, candidates ::
      matcher(input, candidates).Some? ==> matcher(input, candidates).value.pattern in candidates
  }

  /** `s` holds the scheme separator "://" starting at index `i`. */
  predicate SeparatorAt(s: string, i: int)
  {
    0 <= i && i + 3 <= |s| && s[i] == ':' && s[i + 1] == '/' && s[i + 2] == '/'
  }

  /**
   * The `scheme://` prefix of a URL or pattern string: everything before the
   * first "://", if there is one. This is the form of every pattern the
   * parser is used with (`myapp://login`); a scheme followed by a bare ':'
   * (`mailto:x`, `tel:123`) is not recognised.
   */
  function SchemeOf(s: string): (r: Option<string>)
    ensures r.Some? ==> |r.value| + 3 <= |s| && s[..|r.value|] == r.value && SeparatorAt(s, |r.value|)
    ensures r.Some? ==> forall i :: 0 <= i < |r.value| ==> !SeparatorAt(s, i)
    ensures r.None? ==> forall i :: !SeparatorAt(s, i)
  {
    if |s| < 3 then
      None
    else if SeparatorAt(s, 0) then
      Some("")
    else
      match SchemeOf(s[1..])
      case None =>
        assert forall i :: SeparatorAt(s, i) ==> i == 0 || SeparatorAt(s[1..], i - 1);
        None
      case Some(rest) =>
        assert forall i :: SeparatorAt(s, i) ==> i == 0 || SeparatorAt(s[1..], i - 1);
        Some([s[0]] + rest)
  }

  /** A string whose first "://" starts at index `k` has the first `k` characters as its scheme. */
  lemma SchemeIsBeforeFirstSeparator(s: string, k: nat)
    requires SeparatorAt(s, k)
    requires forall i :: 0 <= i < k ==> !SeparatorAt(s, i)
    ensures SchemeOf(s) == Some(s[..k])
  {
    var r := SchemeOf(s);
    assert r.Some?;
    assert |r.value| == k;
  }

  /**
   * The matcher only selects a pattern whose scheme is the scheme of the
   * string it was asked to match (a pattern with another scheme, or with a
   * scheme where the input has none, never matches).
   */
  ghost predicate KeepsScheme<V>(matcher: Matcher<V>)
  {
    forall input, candidates ::
      matcher(input, candidates).Some? ==>
        SchemeOf(matcher(input, candidates).value.pattern) == SchemeOf(input)
  }
}
