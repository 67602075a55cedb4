/**
 * URLParser<T>: a table from URL patterns to handlers, and a dispatcher that
 * asks the matcher which registered pattern an incoming URL matches and hands
 * the match to that pattern's handler.
 *
 * Type parameters stand for what the Swift code leaves dynamic or generic:
 *   V  the placeholder values (`Any` in `[String: Any]`),
 *   C  the caller-supplied context (`Any?`),
 *   T  the parser's result type,
 *   U  the type of the URL argument (anything `URLConvertible`).
 */
module UrlParsing {
  import opened Wrappers
  import opened Matching

  /** `MatchHandler`: (pattern, values, context) -> T? */
  type Handler<!V, !C, T> = (string, map<string, V>, C) -> Option<T>

  /** One call `register(pattern, handler:)`. */
  datatype Registration<!V, !C, T> = Registration(pattern: string, handler: Handler<V, C, T>)

  /**
   * The handler table after the given register calls, in order, on a freshly
   * constructed parser: each call overwrites the entry for its pattern.
   * The registered patterns are exactly the patterns of the calls.
   */
  function Registered<V, C, T>(log: seq<Registration<V, C, T>>): (table: map<string, Handler<V, C, T>>)
    ensures table.Keys == set i | 0 <= i < |log| :: log[i].pattern
  {
    if log == [] then
      map[]
    else
      var init, last := log[..|log| - 1], log[|log| - 1];
      assert forall i :: 0 <= i < |init| ==> init[i] == log[i];
      Registered(init)[last.pattern := last.handler]
  }

  /**
   * The result of `parse(url, with: context)` for the handler table `handlers`:
   * nil when the URL has no path, nil when the matcher finds no registered
   * pattern for the path, nil when the matched pattern has no handler, and
   * otherwise exactly what the matched pattern's handler returns.
   */
  function Dispatch<U, V, C, T>(handlers: map<string, Handler<V, C, T>>, matcher: Matcher<V>,
                                urlPath: U -> Option<string>, url: U, context: C): (r: Option<T>)
    ensures urlPath(url).None? ==> r.None?
    ensures urlPath(url).Some? && matcher(urlPath(url).value, handlers.Keys).None? ==> r.None?
    ensures urlPath(url).Some? && matcher(urlPath(url).value, handlers.Keys).Some? ==>
      var m := matcher(urlPath(url).value, handlers.Keys).value;
      r == if m.pattern in handlers then handlers[m.pattern](m.pattern, m.values, context) else None
  {
    match urlPath(url)
    case None => None
    case Some(path) =>
      match matcher(path, handlers.Keys)
      case None => None
      case Some(m) =>
        if m.pattern in handlers then handlers[m.pattern](m.pattern, m.values, context) else None
  }

  /** Last write wins: the handler stored for a pattern is the one of its latest registration. */
  lemma {:induction false} LatestRegistrationWins<V, C, T>(log: seq<Registration<V, C, T>>, i: nat)
    requires i < |log|
    requires forall j :: i < j < |log| ==> log[j].pattern != log[i].pattern
    ensures log[i].pattern in Registered(log)
    ensures Registered(log)[log[i].pattern] == log[i].handler
  {
    if i < |log| - 1 {
      var init := log[..|log| - 1];
      LatestRegistrationWins(init, i);
    }
  }

  /**
   * Registrations of two different patterns may be swapped without changing
   * the table: no order is implied among distinct patterns' handlers.
   */
  lemma {:induction false} DistinctRegistrationsCommute<V, C, T>(
    before: seq<Registration<V, C, T>>, a: Registration<V, C, T>, b: Registration<V, C, T>,
    after: seq<Registration<V, C, T>>)
    requires a.pattern != b.pattern
    ensures Registered(before + [a, b] + after) == Registered(before + [b, a] + after)
  {
    if after == [] {
      assert before + [a, b] + after == (before + [a]) + [b];
      assert before + [b, a] + after == (before + [b]) + [a];
      assert (before + [a] + [b])[..|before| + 1] == before + [a];
      assert (before + [b] + [a])[..|before| + 1] == before + [b];
      assert (before + [a])[..|before|] == before;
      assert (before + [b])[..|before|] == before;
    } else {
      var init, last := after[..|after| - 1], after[|after| - 1];
      DistinctRegistrationsCommute(before, a, b, init);
      assert after == init + [last];
      assert before + [a, b] + after == (before + [a, b] + init) + [last];
      assert before + [b, a] + after == (before + [b, a] + init) + [last];
      assert ((before + [a, b] + init) + [last])[..|before| + 2 + |init|] == before + [a, b] + init;
      assert ((before + [b, a] + init) + [last])[..|before| + 2 + |init|] == before + [b, a] + init;
    }
  }

  /**
   * After any sequence of registrations, `parse` hands a match to the handler
   * of the latest registration of the matched pattern, and returns that
   * handler's answer (a nil from the handler included).
   */
  lemma ParseUsesLatestRegistration<U, V, C, T>(log: seq<Registration<V, C, T>>, matcher: Matcher<V>,
                                                urlPath: U -> Option<string>, url: U, context: C, i: nat)
    requires urlPath(url).Some?
    requires matcher(urlPath(url).value, Registered(log).Keys).Some?
    requires i < |log| && log[i].pattern == matcher(urlPath(url).value, Registered(log).Keys).value.pattern
    requires forall j :: i < j < |log| ==> log[j].pattern != log[i].pattern
    ensures Dispatch(Registered(log), matcher, urlPath, url, context)
         == log[i].handler(log[i].pattern, matcher(urlPath(url).value, Registered(log).Keys).value.values, context)
  {
    LatestRegistrationWins(log, i);
  }

  /**
   * When the matcher only answers with one of the candidates it is given,
   * the missing-handler guard of `parse` never fires: a URL with a path that
   * the matcher matches always reaches the matched pattern's handler.
   */
  lemma MissingHandlerGuardUnreachable<U, V, C, T>(handlers: map<string, Handler<V, C, T>>, matcher: Matcher<V>,
                                                   urlPath: U -> Option<string>, url: U, context: C)
    requires ReturnsCandidate(matcher)
    requires urlPath(url).Some? && matcher(urlPath(url).value, handlers.Keys).Some?
    ensures matcher(urlPath(url).value, handlers.Keys).value.pattern in handlers
    ensures var m := matcher(urlPath(url).value, handlers.Keys).value;
      Dispatch(handlers, matcher, urlPath, url, context) == handlers[m.pattern](m.pattern, m.values, context)
  {
  }

  /**
   * `parse` looks at a URL only through its path, and consults the matcher
   * only with the registered patterns as candidates: two URLs with the same
   * path, and two matchers that agree on that path and those candidates,
   * give the same result.
   */
  lemma DispatchSeesOnlyPathAndRegisteredPatterns<U, V, C, T>(
    handlers: map<string, Handler<V, C, T>>, matcher1: Matcher<V>, matcher2: Matcher<V>,
    urlPath: U -> Option<string>, url1: U, url2: U, context: C)
    requires urlPath(url1) == urlPath(url2)
    requires urlPath(url1).Some? ==>
      matcher1(urlPath(url1).value, handlers.Keys) == matcher2(urlPath(url1).value, handlers.Keys)
    ensures Dispatch(handlers, matcher1, urlPath, url1, context) == Dispatch(handlers, matcher2, urlPath, url2, context)
  {
  }

  /** A parser with no registrations parses nothing, whatever the matcher answers. */
  lemma EmptyTableParsesNothing<U, V, C, T>(matcher: Matcher<V>, urlPath: U -> Option<string>, url: U, context: C)
    ensures Dispatch<U, V, C, T>(map[], matcher, urlPath, url, context) == None
  {
  }

  /**
   * Only the URL's path reaches the matcher. If the matcher keeps schemes
   * apart and every registered pattern carries a scheme, a path without a
   * scheme is never dispatched to any handler.
   */
  lemma SchemelessPathDispatchesNothing<U, V, C, T>(handlers: map<string, Handler<V, C, T>>, matcher: Matcher<V>,
                                                    urlPath: U -> Option<string>, url: U, context: C)
    requires KeepsScheme(matcher)
    requires urlPath(url).Some? && SchemeOf(urlPath(url).value).None?
    requires forall p :: p in handlers ==> SchemeOf(p).Some?
    ensures Dispatch(handlers, matcher, urlPath, url, context) == None
  {
  }

  /** `URLParser<T>`: the handler table, updated in place by `register`. */
  class UrlParser<V, C, T> {
    /** The pattern matcher owned by this parser. */
    const matcher: Matcher<V>
    /** `handlers: [URLPattern: MatchHandler]` */
    var handlers: map<string, Handler<V, C, T>>
    /** The register calls made so far, oldest first. */
    ghost var history: seq<Registration<V, C, T>>

    /** The table is the result of the registrations made so far. */
    ghost predicate Valid()
      reads this
    {
      handlers == Registered(history)
    }

    /** `init()`: no handlers. */
    constructor (matcher: Matcher<V>)
      ensures Valid()
      ensures this.matcher == matcher
      ensures handlers == map[] && history == []
    {
      this.matcher := matcher;
      handlers := map[];
      history := [];
    }

    /** `register(pattern, handler:)`: store `handler` for `pattern`, replacing any earlier one. */
    method Register(pattern: string, handler: Handler<V, C, T>)
      requires Valid()
      modifies this
      ensures Valid()
      ensures history == old(history) + [Registration(pattern, handler)]
      ensures pattern in handlers && handlers[pattern] == handler
      ensures handlers.Keys == old(handlers.Keys) + {pattern}
      ensures forall q :: q in old(handlers) && q != pattern ==> handlers[q] == old(handlers)[q]
    {
      ghost var log := history + [Registration(pattern, handler)];
      assert log[..|log| - 1] == history;
      handlers := handlers[pattern := handler];
      history := log;
    }

    /** `parse(url, with: context)`: reads the table and changes nothing. */
    method Parse<U>(url: U, urlPath: U -> Option<string>, context: C) returns (r: Option<T>)
      ensures r == Dispatch(handlers, matcher, urlPath, url, context)
    {
      var path := urlPath(url);
      if path.None? {
        return None;
      }
      var candidates := handlers.Keys;
      var found := matcher(path.value, candidates);
      if found.None? {
        return None;
      }
      var m := found.value;
      if m.pattern !in handlers {
        return None;
      }
      var handler := handlers[m.pattern];
      r := handler(m.pattern, m.values, context);
    }
  }
}
