# URLParser: a verified model of the deep-link handler registry

`URLParser<T>` keeps a table from URL patterns (strings such as
`myapp://chat/<uuid:chatId>`) to handler closures. `register` stores a handler
for a pattern, replacing any earlier one. `parse` takes a URL and runs a chain
of guards:

1. it takes the URL's path, and gives nil if there is none;
2. it asks the URL matcher which registered pattern the path matches, and
   gives nil if none does;
3. it looks up that pattern's handler, and gives nil if it is missing;
4. otherwise it returns what the handler returns, for the matched pattern,
   the extracted placeholder values and the caller's context.

The model has four modules:

- `Wrappers` (`wrappers.dfy`): `Option`, standing for Swift's optionals.
- `Matching` (`matching.dfy`): the interface of the matcher. The matcher
  belongs to the URLNavigator library and is not part of this model. Here it
  is an abstract function value `Matcher<V> = (string, set<string>) -> Option<Match<V>>`.
  What the parser needs to know about it is written as explicit assumptions:
  - `ReturnsCandidate`: it only answers with one of the candidates it was given;
  - `KeepsScheme`: it only matches a pattern whose `scheme://` prefix is the one of its input.
    `SchemeOf` gives that prefix: the text before the first `://` of a string.
    This is narrower than a URL scheme in general, which ends at the first `:`.
- `UrlParsing` (`url_parser.dfy`): the parser itself.
  - `Dispatch` is the pure meaning of `parse` over a handler table.
  - `Registered` is the table built by a sequence of `register` calls.
  - The lemmas relate the two.
  - The class `UrlParser` has the `handlers` map field, the constructor,
    `Register` (updates the field in place) and `Parse` (reads only). `Parse`
    is proved equal to `Dispatch`. A ghost `history` of the register calls
    made so far is kept, and `Valid()` ties `handlers` to `Registered(history)`.
- `DeepLinks` (`deep_links.dfy`): the usage example from the comment at the
  head of `URLParser.swift`. It builds a parser with a login route and a chat
  route, and the method's contract says what parsing gives for each answer
  the matcher can give.

The model uses type parameters for what the Swift code leaves generic or
dynamic:
- `V` is a placeholder value (`Any` in `[String: Any]`);
- `C` is the context (`Any?`);
- `T` is the result;
- `U` is the URL argument (`URLConvertible`).

Turning a URL into its path is an abstract function `urlPath: U -> Option<string>`.
The code hands only this path to the matcher, not the whole URL, and the model
does the same. `SchemelessPathDispatchesNothing` spells out one consequence.
Suppose the matcher keeps schemes apart and every registered pattern has a
scheme, as `myapp://login` does. Then a path without a scheme never reaches a
handler.

The candidates are `handlers.keys`. Swift passes them to the matcher as an
array in unspecified order; the model passes them as a set.

## Model

| member | source | states |
|---|---|---|
| `Matching.SchemeOf` | Tests/URLParserTests/URLParserSpec.swift:43-46 | The `scheme://` prefix of a string: the text before the first `://`. The result is a prefix of the string, followed by the separator, with no separator earlier. There is none exactly when the string contains no separator. It is what `KeepsScheme` compares when it states the assumption this test expects of the matcher: a pattern with another scheme does not match. |
| `Matching.SchemeIsBeforeFirstSeparator` | Tests/URLParserTests/URLParserSpec.swift:43-46 | If the first `://` of a string starts at index k, its scheme is its first k characters. |
| `UrlParsing.Registered` | Sources/URLParser/URLParser.swift:37-39 | The table built by a sequence of `register` calls on a new parser. Its registered patterns are exactly the patterns of those calls. |
| `UrlParsing.Dispatch` | Sources/URLParser/URLParser.swift:42-48 | The outcome of `parse`; the contract documents the guard chain outcome by outcome. It is nil when the URL has no path, and nil when the matcher finds nothing among the registered patterns. It is nil when the matched pattern has no handler. Otherwise it is exactly the matched handler's answer for the matched pattern, its values and the context. |
| `UrlParsing.LatestRegistrationWins` | Sources/URLParser/URLParser.swift:37-39 | Last write wins. If no later call registers the same pattern, the pattern is in the table. Its handler is the one from that latest registration. |
| `UrlParsing.DistinctRegistrationsCommute` | Sources/URLParser/URLParser.swift:38 | Registrations of two different patterns can be swapped anywhere in a history without changing the table. The keyed store implies no order among patterns. |
| `UrlParsing.ParseUsesLatestRegistration` | Sources/URLParser/URLParser.swift:37-47 | After any history of registrations, a matched URL is handed to the handler of the latest registration of the matched pattern. `parse` returns that handler's answer, a nil included. |
| `UrlParsing.MissingHandlerGuardUnreachable` | Sources/URLParser/URLParser.swift:44-47 | Assume the matcher only returns one of its candidates. Then the matched pattern always has a handler, and `parse` returns that handler's answer. The missing-handler guard never gives the nil. |
| `UrlParsing.DispatchSeesOnlyPathAndRegisteredPatterns` | Sources/URLParser/URLParser.swift:43-45 | Two URLs with the same path give the same result. So do two matchers that agree on that path with the registered patterns as candidates. Only the path and the registered patterns reach the matcher. |
| `UrlParsing.EmptyTableParsesNothing` | Sources/URLParser/URLParser.swift:31-46 | With an empty table, `parse` gives nil for every URL and context, whatever the matcher answers. |
| `UrlParsing.SchemelessPathDispatchesNothing` | Sources/URLParser/URLParser.swift:43-45 | Assume the matcher keeps schemes apart and every registered pattern has a scheme. Then a URL whose path has no scheme gives nil. |
| `UrlParsing.UrlParser.constructor` | Sources/URLParser/URLParser.swift:30-35 | A new parser has an empty handler table and an empty history, and holds the given matcher. |
| `UrlParsing.UrlParser.Register` | Sources/URLParser/URLParser.swift:37-39 | Afterwards the handler for the pattern is the given one. The keys become the old keys plus the pattern. Every other pattern keeps its handler. The call is appended to the history, and the table stays the fold of the history. |
| `UrlParsing.UrlParser.Parse` | Sources/URLParser/URLParser.swift:42-48 | Returns `Dispatch` of the current table, the parser's matcher, the URL and the context. It changes nothing, so two calls with the same arguments give the same result. |
| `DeepLinks.ParseDeepLink` | Sources/URLParser/URLParser.swift:11-24 | Uses a parser with the login and chat routes registered. The login match gives `Login`. The chat match gives `Chat(id)` when `chatId` holds a UUID and otherwise nil, because the handler declines. No path, no match, or an unregistered pattern gives nil. If the matcher keeps schemes apart, a path without a `scheme://` prefix gives nil, since both patterns carry `myapp`. |
| `DeepLinks.MyappScheme` | Sources/URLParser/URLParser.swift:14-18 | Every string that starts with `myapp://` has the scheme `myapp`. |
| `DeepLinks.LoginPatternHasScheme` | Sources/URLParser/URLParser.swift:14 | The login pattern `myapp://login` has the scheme `myapp`. |
| `DeepLinks.ChatPatternHasScheme` | Sources/URLParser/URLParser.swift:18 | The chat pattern `myapp://chat/<uuid:chatId>` has the scheme `myapp`. |

## Left out

- The matcher's algorithm is not modelled. It belongs to the URLNavigator library, whose source is not part of this model. That covers literal and placeholder segments, the `int`, `string`, `uuid`, `float` and custom converters, `<path:…>` capture, query stripping and the choice among several matching patterns. The matcher is an abstract function. What the lemmas need from it is stated as the `ReturnsCandidate` and `KeepsScheme` assumptions.
- Foundation's URL parsing (`url.urlValue?.path`) is a foreign library call. It is the abstract parameter `urlPath`.
- The order of the candidate array is unspecified in the source and is not modelled; candidates are a set. A matcher whose choice depends on that order is not captured.
- Handler closures are pure total functions. Side effects inside a caller's closure, and the closures' own bodies, are outside the model.
- The context is an opaque type parameter. The Swift default of `nil` is the caller's choice of argument.
- `UrlParsing.UrlParser.Parse` takes the URL-to-path conversion as a parameter, and the constructor takes the matcher as a parameter. Swift's `init()` creates a default `URLMatcher()` itself.
- Aliasing and concurrent use of one parser from several threads are not modelled; the model is sequential.
- The test file `Tests/URLParserTests/URLParserSpec.swift` is not a model target. It exercises the matcher, and as written it does not compile. It is used only as evidence of what is assumed of the matcher: the shape of a match result, and that a pattern with another scheme does not match (`:43-46`).
- Matching.SchemeOf: recognises only a `scheme://` prefix. A scheme that ends at a bare `:` (`mailto:x`, `tel:123`, as in section 3.1 of RFC 3986) gives `None`. So `KeepsScheme` assumes the matcher keeps apart only `scheme://`-style schemes.
- UrlParsing.Registered: pattern keys are compared by code-point equality. Swift's `String` equality and hashing merge canonically equivalent Unicode spellings, such as a precomposed `é` and `e` followed by a combining accent. In Swift those spellings are one key of `handlers`; here they are two.
- UrlParsing.LatestRegistrationWins: "the same pattern" means code-point equality. A later registration of a canonically equivalent spelling, which overrides the entry in Swift, is not treated as overriding here.
- UrlParsing.DistinctRegistrationsCommute: `a.pattern != b.pattern` is code-point inequality. Two canonically equivalent spellings are one key in Swift and do not commute there.
- UrlParsing.ParseUsesLatestRegistration: the latest registration of the matched pattern is found by code-point equality, not by Swift's canonical equivalence.
- UrlParsing.UrlParser.Register: `handlers.Keys == old(handlers.Keys) + {pattern}` adds a new key even when a canonically equivalent spelling is already a key. Swift would replace that key's handler instead. Unicode normalisation is not modelled.
- `Example/Sources/AppDelegate.swift` is UIKit wiring (window set-up, presenting and opening URLs, printing) and is not part of this model.
