/**
 * routematch's `Route`: a `switch` whose cases call the strict `match` on
 * each pattern of the route table in turn, with `get` admitting GET and HEAD.
 */
module RouteMatch {
  import opened Wrappers
  import opened Strings
  import opened Http
  import opened Switch
  import opened Shape
  import opened SplitMatch
  import opened SplitMatchRoutes

  /** The cases of `Route`, in source order. */
  const Cases: seq<Case<string>> := [
    Case("/", AnyMethod, GetOrHead, "home"),
    Case("/contact", AnyMethod, GetOrHead, "contact"),
    Case("/api/widgets", ExactlyGet, GetOrHead, "apiGetWidgets"),
    Case("/api/widgets", AnyMethod, PostOnly, "apiCreateWidget"),
    Case("/api/widgets/%s", AnyMethod, PostOnly, "apiUpdateWidget"),
    Case("/api/widgets/%s/parts", AnyMethod, PostOnly, "apiCreateWidgetPart"),
    Case("/api/widgets/%s/parts/%d/update", AnyMethod, PostOnly, "apiUpdateWidgetPart"),
    Case("/api/widgets/%s/parts/%d/delete", AnyMethod, PostOnly, "apiDeleteWidgetPart"),
    Case("/%s", AnyMethod, GetOrHead, "widget"),
    Case("/%s/admin", AnyMethod, GetOrHead, "widgetAdmin"),
    Case("/%s/image", AnyMethod, PostOnly, "widgetImage")
  ]

  /** This copy of `match` rejects an empty "%s" part. */
  function StrictMatch(): Matcher<string, string>
  {
    (path: string, pattern: string) => Match(path, pattern, true)
  }

  /** `Route(w, r)` for a request with method `verb` and URL path `path`. */
  function Route(verb: string, path: string): Outcome
  {
    Dispatch(Cases, StrictMatch(), verb, path)
  }

  /** The rules `Route` follows: GET and HEAD for `get`, only "GET" picks apiGetWidgets, non-empty slugs, ids above zero. */
  const Rules := Policy(GetOrHead, ExactlyGet, NonEmpty, NonEmpty, Positive, true)

  /** Case `k` of `Route` is case `k` of the route table under routematch's rules. */
  lemma CaseAt(k: nat)
    requires k < 11
    ensures Cases[k] == Case(Pattern(k), RouteTest(Rules, k), RouteAllowed(Rules, k), RouteName(k))
  {
  }

  lemma CasesAgree(path: string)
    ensures SameCases(Cases, StrictMatch(), path, Routes(Rules), ExpectMatcher(Rules), Split(path, '/'))
  {
    forall i | 0 <= i < 11
      ensures StrictMatch()(path, Cases[i].pattern) == ExpectMatcher(Rules)(Split(path, '/'), Routes(Rules)[i].pattern)
      ensures Cases[i].test == Routes(Rules)[i].test && Cases[i].allowed == Routes(Rules)[i].allowed && Cases[i].name == Routes(Rules)[i].name
    {
      CaseAt(i);
      assert Routes(Rules)[i] == Case(i, RouteTest(Rules, i), RouteAllowed(Rules, i), RouteName(i));
      MatchPattern(path, true, Rules, i);
    }
  }

  /** `Route` is the route table's one decision under routematch's rules, for every method and path. */
  lemma RouteIsResolve(verb: string, path: string)
    ensures Route(verb, path) == Resolve(Rules, verb, Split(path, '/'))
  {
    CasesAgree(path);
    DispatchTransfer(Cases, StrictMatch(), path, Routes(Rules), ExpectMatcher(Rules), Split(path, '/'), verb);
    RoutesAreResolve(Rules, verb, Split(path, '/'));
  }

  /**
   * The corrected `Route`: the apiGetWidgets case admits HEAD as well as GET,
   * as `get(apiGetWidgets)` itself does, so HEAD /api/widgets is served like GET.
   */
  const FixedCases: seq<Case<string>> := Cases[2 := Case("/api/widgets", GetOrHeadTest, GetOrHead, "apiGetWidgets")]

  function RouteFixed(verb: string, path: string): Outcome
  {
    Dispatch(FixedCases, StrictMatch(), verb, path)
  }

  /** The corrected rules: as `Rules`, but the apiGetWidgets test admits GET and HEAD. */
  const FixedRules := Rules.(widgetsGet := GetOrHeadTest)

  lemma FixedCasesAgree(path: string)
    ensures SameCases(FixedCases, StrictMatch(), path, Routes(FixedRules), ExpectMatcher(FixedRules), Split(path, '/'))
  {
    forall i | 0 <= i < 11
      ensures StrictMatch()(path, FixedCases[i].pattern) == ExpectMatcher(FixedRules)(Split(path, '/'), Routes(FixedRules)[i].pattern)
      ensures FixedCases[i].test == Routes(FixedRules)[i].test && FixedCases[i].allowed == Routes(FixedRules)[i].allowed && FixedCases[i].name == Routes(FixedRules)[i].name
    {
      CaseAt(i);
      assert Routes(FixedRules)[i] == Case(i, RouteTest(FixedRules, i), RouteAllowed(FixedRules, i), RouteName(i));
      MatchPattern(path, true, FixedRules, i);
    }
  }

  /** The corrected `Route` is the route table's decision under the corrected rules. */
  lemma RouteFixedIsResolve(verb: string, path: string)
    ensures RouteFixed(verb, path) == Resolve(FixedRules, verb, Split(path, '/'))
  {
    FixedCasesAgree(path);
    DispatchTransfer(FixedCases, StrictMatch(), path, Routes(FixedRules), ExpectMatcher(FixedRules), Split(path, '/'), verb);
    RoutesAreResolve(FixedRules, verb, Split(path, '/'));
  }

  /** In the corrected `Route`, HEAD is routed exactly like GET on every path. */
  lemma RouteFixedHeadIsGet(path: string)
    ensures RouteFixed(HEAD, path) == RouteFixed(GET, path)
  {
    RouteFixedIsResolve(HEAD, path);
    RouteFixedIsResolve(GET, path);
    HeadIsGet(FixedRules, Split(path, '/'));
  }

  /**
   * On /api/widgets, `Route` as written sends HEAD past the GET-only case to
   * `post(apiCreateWidget)`: 405 with `Allow: POST`, where GET gets 200.
   */
  lemma HeadWidgetsRefused(path: string)
    requires Split(path, '/') == ["", "api", "widgets"]
    ensures Route(HEAD, path) == NotAllowed(PostOnly)
    ensures Route(GET, path) == Ok(Body("apiGetWidgets", []))
  {
    HeadWidgetsAsWritten(path);
    GetWidgetsAsWritten(path);
  }

  lemma HeadWidgetsAsWritten(path: string)
    requires Split(path, '/') == ["", "api", "widgets"]
    ensures Route(HEAD, path) == NotAllowed(PostOnly)
  {
    RouteIsResolve(HEAD, path);
    WidgetsRouting(Rules, HEAD, Split(path, '/'));
  }

  lemma GetWidgetsAsWritten(path: string)
    requires Split(path, '/') == ["", "api", "widgets"]
    ensures Route(GET, path) == Ok(Body("apiGetWidgets", []))
  {
    RouteIsResolve(GET, path);
    WidgetsRouting(Rules, GET, Split(path, '/'));
  }

  /** The corrected `Route` serves HEAD /api/widgets with apiGetWidgets. */
  lemma HeadWidgetsFixed(path: string)
    requires Split(path, '/') == ["", "api", "widgets"]
    ensures RouteFixed(HEAD, path) == Ok(Body("apiGetWidgets", []))
  {
    RouteFixedIsResolve(HEAD, path);
    WidgetsRouting(FixedRules, HEAD, Split(path, '/'));
  }

  /** HEAD /api/widgets: 405 with `Allow: POST` as written, apiGetWidgets' 200 once corrected. */
  lemma HeadApiWidgets()
    ensures Route(HEAD, "/api/widgets") == NotAllowed(PostOnly)
    ensures RouteFixed(HEAD, "/api/widgets") == Ok(Body("apiGetWidgets", []))
  {
    assert Join(["", "api", "widgets"], "/") == "/api/widgets";
    SplitJoin(["", "api", "widgets"], '/');
    HeadWidgetsAsWritten("/api/widgets");
    HeadWidgetsFixed("/api/widgets");
  }
}
