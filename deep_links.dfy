/**
 * The usage shown in the comment at the head of URLParser.swift: a parser of
 * deep links with a login route and a chat route whose handler needs a UUID.
 */
module DeepLinks {
  import opened Wrappers
  import opened Matching
  import opened UrlParsing

  /** The application's result type. */
  datatype DeepLink = Login | Chat(id: string)

  /**
   * Placeholder values as the matcher's converters produce them. `Uuid`
   * holds the canonical upper-case text (`uuidString`) of a parsed UUID.
   */
  datatype Value = Text(text: string) | Integer(number: int) | Uuid(uuidString: string)

  const LoginPattern: string := "myapp://login"
  const ChatPattern: string := "myapp://chat/<uuid:chatId>"

  /** The login handler recognises every match. */
  function LoginHandler(pattern: string, values: map<string, Value>, context: Option<Value>): Option<DeepLink>
  {
    Some(Login)
  }

  /** The chat handler declines (nil) unless `chatId` holds a UUID. */
  function ChatHandler(pattern: string, values: map<string, Value>, context: Option<Value>): Option<DeepLink>
  {
    if "chatId" in values && values["chatId"].Uuid? then Some(Chat(values["chatId"].uuidString)) else None
  }

  /**
   * Builds the parser, registers both routes and parses `url` with no
   * context. What comes back depends only on which route the matcher picks
   * for the URL's path among the two registered patterns: the login route
   * always yields `Login`; the chat route yields `Chat` with the UUID's text,
   * or nil when the handler declines; no path or no match yields nil.
   * Since only the path reaches the matcher, a path without a `scheme://`
   * prefix yields nil whenever the matcher keeps schemes apart: both
   * registered patterns carry the scheme `myapp`.
   */
  method ParseDeepLink<U>(matcher: Matcher<Value>, urlPath: U -> Option<string>, url: U)
    returns (link: Option<DeepLink>)
    ensures urlPath(url).None? ==> link == None
    ensures urlPath(url).Some? ==>
      var found := matcher(urlPath(url).value, {LoginPattern, ChatPattern});
      && (found.None? ==> link == None)
      && (found.Some? && found.value.pattern == LoginPattern ==> link == Some(Login))
      && (found.Some? && found.value.pattern == ChatPattern ==>
            link == if "chatId" in found.value.values && found.value.values["chatId"].Uuid?
                    then Some(Chat(found.value.values["chatId"].uuidString))
                    else None)
      && (found.Some? && found.value.pattern !in {LoginPattern, ChatPattern} ==> link == None)
    ensures KeepsScheme(matcher) && urlPath(url).Some? && SchemeOf(urlPath(url).value).None? ==> link == None
  {
    var parser := new UrlParser<Value, Option<Value>, DeepLink>(matcher);
    parser.Register(LoginPattern, LoginHandler);
    parser.Register(ChatPattern, ChatHandler);
    assert parser.handlers.Keys == {LoginPattern, ChatPattern};
    link := parser.Parse(url, urlPath, None);
    if KeepsScheme(matcher) && urlPath(url).Some? && SchemeOf(urlPath(url).value).None? {
      LoginPatternHasScheme();
      ChatPatternHasScheme();
      SchemelessPathDispatchesNothing(parser.handlers, matcher, urlPath, url, None);
    }
  }

  /** Every string that starts with `myapp://` has the scheme `myapp`. */
  lemma MyappScheme(rest: string)
    ensures SchemeOf("myapp://" + rest) == Some("myapp")
  {
    var s := "myapp://" + rest;
    assert s[..8] == "myapp://";
    assert !SeparatorAt(s, 0) && !SeparatorAt(s, 1) && !SeparatorAt(s, 2);
    assert !SeparatorAt(s, 3) && !SeparatorAt(s, 4) && SeparatorAt(s, 5);
    SchemeIsBeforeFirstSeparator(s, 5);
    assert s[..5] == "myapp";
  }

  /** The login pattern carries the scheme `myapp`. */
  lemma LoginPatternHasScheme()
    ensures SchemeOf(LoginPattern) == Some("myapp")
  {
    assert LoginPattern == "myapp://" + "login";
    MyappScheme("login");
  }

  /** The chat pattern carries the scheme `myapp`. */
  lemma ChatPatternHasScheme()
    ensures SchemeOf(ChatPattern) == Some("myapp")
  {
    assert ChatPattern == "myapp://" + "chat/<uuid:chatId>";
    MyappScheme("chat/<uuid:chatId>");
  }
}
