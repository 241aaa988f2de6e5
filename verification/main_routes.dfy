/**
 * The two routers of main.go: `routeMatch`, a switch over main.go's own copy
 * of `match` (which lets "%s" bind an empty part), and `routeSplit`, a nested
 * switch over the parts of the path after its first '/'. Both guard GET
 * routes with `get` (GET or HEAD) and pick apiGetWidgets with `isGet`.
 */
module MainRoutes {
  import opened Wrappers
  import opened Strings
  import opened Strconv
  import opened Http
  import opened Switch
  import opened Shape
  import opened SplitMatch
  import opened SplitMatchRoutes

  /** `isGet(r)`: the request method is GET or HEAD. */
  predicate IsGet(verb: string)
  {
    verb == GET || verb == HEAD
  }

  /** The cases of `routeMatch`, in source order. */
  const MatchCases: seq<Case<string>> := [
    Case("/", AnyMethod, GetOrHead, "home"),
    Case("/contact", AnyMethod, GetOrHead, "contact"),
    Case("/api/widgets", GetOrHeadTest, GetOrHead, "apiGetWidgets"),
    Case("/api/widgets", AnyMethod, PostOnly, "apiCreateWidget"),
    Case("/api/widgets/%s", AnyMethod, PostOnly, "apiUpdateWidget"),
    Case("/api/widgets/%s/parts", AnyMethod, PostOnly, "apiCreateWidgetPart"),
    Case("/api/widgets/%s/parts/%d/update", AnyMethod, PostOnly, "apiUpdateWidgetPart"),
    Case("/api/widgets/%s/parts/%d/delete", AnyMethod, PostOnly, "apiDeleteWidgetPart"),
    Case("/%s", AnyMethod, GetOrHead, "widget"),
    Case("/%s/admin", AnyMethod, GetOrHead, "widgetAdmin"),
    Case("/%s/image", AnyMethod, PostOnly, "widgetImage")
  ]

  /** main.go's `match`: "%s" binds any part, the empty one included. */
  function LaxMatch(): Matcher<string, string>
  {
    (path: string, pattern: string) => Match(path, pattern, false)
  }

  /** `routeMatch(w, r)` for a request with method `verb` and URL path `path`. */
  function RouteMatch(verb: string, path: string): Outcome
  {
    Dispatch(MatchCases, LaxMatch(), verb, path)
  }

  /** The rules of `routeMatch`: `get` and `isGet` admit GET and HEAD, slugs may be empty, ids are above zero. */
  const MatchRules := Policy(GetOrHead, GetOrHeadTest, AnySlug, AnySlug, Positive, true)

  /** Case `k` of `routeMatch` is case `k` of the route table under main.go's rules. */
  lemma MatchCaseAt(k: nat)
    requires k < 11
    ensures MatchCases[k] == Case(Pattern(k), RouteTest(MatchRules, k), RouteAllowed(MatchRules, k), RouteName(k))
  {
  }

  lemma MatchCasesAgree(path: string)
    ensures SameCases(MatchCases, LaxMatch(), path, Routes(MatchRules), ExpectMatcher(MatchRules), Split(path, '/'))
  {
    forall i | 0 <= i < 11
      ensures LaxMatch()(path, MatchCases[i].pattern) == ExpectMatcher(MatchRules)(Split(path, '/'), Routes(MatchRules)[i].pattern)
      ensures MatchCases[i].test == Routes(MatchRules)[i].test && MatchCases[i].allowed == Routes(MatchRules)[i].allowed &&
              MatchCases[i].name == Routes(MatchRules)[i].name
    {
      MatchCaseAt(i);
      assert Routes(MatchRules)[i] == Case(i, RouteTest(MatchRules, i), RouteAllowed(MatchRules, i), RouteName(i));
      MatchPattern(path, false, MatchRules, i);
    }
  }

  /** `routeMatch` is the route table's one decision under main.go's rules, for every method and path. */
  lemma RouteMatchIsResolve(verb: string, path: string)
    ensures RouteMatch(verb, path) == Resolve(MatchRules, verb, Split(path, '/'))
  {
    MatchCasesAgree(path);
    DispatchTransfer(MatchCases, LaxMatch(), path, Routes(MatchRules), ExpectMatcher(MatchRules), Split(path, '/'), verb);
    RoutesAreResolve(MatchRules, verb, Split(path, '/'));
  }

  function Get(verb: string, name: string, args: seq<Value>): Outcome
  {
    AllowMethod(GetOrHead, verb, Body(name, args))
  }

  function Post(verb: string, name: string, args: seq<Value>): Outcome
  {
    AllowMethod(PostOnly, verb, Body(name, args))
  }

  /**
   * The body of `routeSplit` on `p`, the path split on '/' without its first
   * part. As written (`checkParts` false) the 6-part branch checks the id but
   * not that `p[3]` is "parts"; the correction (`checkParts` true) adds the
   * check that the comment inside that case (main.go:166) gives as the route's
   * shape: "api", "widgets", a slug, "parts", the id and the action.
   */
  function SplitParts(checkParts: bool, verb: string, p: seq<string>): Outcome
  {
    var n := |p|;
    if n == 1 && p[0] == "" then Get(verb, "home", [])
    else if n == 1 && p[0] == "contact" then Get(verb, "contact", [])
    else if n >= 2 && p[0] == "api" && p[1] == "widgets" then (
      if n == 2 && IsGet(verb) then Get(verb, "apiGetWidgets", [])
      else if n == 2 then Post(verb, "apiCreateWidget", [])
      else
        var slug := p[2];
        if n == 3 then Post(verb, "apiUpdateWidget", [Str(slug)])
        else if n == 4 && p[3] == "parts" then Post(verb, "apiCreateWidgetPart", [Str(slug)])
        else if n == 6 && (!checkParts || p[3] == "parts") && IsId(p[4]).Some? then
          var id := IsId(p[4]).value;
          if p[5] == "update" then Post(verb, "apiUpdateWidgetPart", [Str(slug), Int(id)])
          else if p[5] == "delete" then Post(verb, "apiDeleteWidgetPart", [Str(slug), Int(id)])
          else NotFound
        else NotFound)
    else if n >= 1 then (
      var slug := p[0];
      if n == 1 then Get(verb, "widget", [Str(slug)])
      else if n == 2 && p[1] == "admin" then Get(verb, "widgetAdmin", [Str(slug)])
      else if n == 2 && p[1] == "image" then Post(verb, "widgetImage", [Str(slug)])
      else NotFound)
    else NotFound
  }

  /** `routeSplit(w, r)` as written. */
  function RouteSplit(verb: string, path: string): Outcome
  {
    SplitParts(false, verb, Split(path, '/')[1..])
  }

  /** `routeSplit` with the `p[3] == "parts"` check. */
  function RouteSplitFixed(verb: string, path: string): Outcome
  {
    SplitParts(true, verb, Split(path, '/')[1..])
  }

  /** The rules of `routeSplit`: those of `routeMatch`, except that the part before the first '/' is never looked at. */
  const SplitRules := Policy(GetOrHead, GetOrHeadTest, AnySlug, AnySlug, Positive, false)

  /** The corrected `routeSplit` is the route table's one decision, for every method and path. */
  lemma RouteSplitFixedIsResolve(verb: string, path: string)
    ensures RouteSplitFixed(verb, path) == Resolve(SplitRules, verb, Split(path, '/'))
  {
    FixedPartsAreResolve(verb, Split(path, '/'));
  }

  lemma FixedPartsAreResolve(verb: string, a: seq<string>)
    requires |a| >= 1
    ensures SplitParts(true, verb, a[1..]) == Resolve(SplitRules, verb, a)
  {
    var p := a[1..];
    if |p| == 1 {
      FixedPartsAreResolve1(verb, a);
    } else if |p| == 2 {
      FixedPartsAreResolve2(verb, a);
    } else if |p| == 6 {
      FixedPartsAreResolve6(verb, a);
    }
  }

  lemma FixedPartsAreResolve1(verb: string, a: seq<string>)
    requires |a| == 2
    ensures SplitParts(true, verb, a[1..]) == Resolve(SplitRules, verb, a)
  {
  }

  lemma FixedPartsAreResolve2(verb: string, a: seq<string>)
    requires |a| == 3
    ensures SplitParts(true, verb, a[1..]) == Resolve(SplitRules, verb, a)
  {
  }

  lemma FixedPartsAreResolve6(verb: string, a: seq<string>)
    requires |a| == 7
    ensures SplitParts(true, verb, a[1..]) == Resolve(SplitRules, verb, a)
  {
  }

  /** `routeSplit` and its correction differ exactly on 6-part api paths whose fourth part is not "parts". */
  lemma RouteSplitDiffers(verb: string, path: string)
    ensures var p := Split(path, '/')[1..];
      RouteSplit(verb, path) != RouteSplitFixed(verb, path) <==>
        |p| == 6 && p[0] == "api" && p[1] == "widgets" && p[3] != "parts" && IsId(p[4]).Some? &&
        (p[5] == "update" || p[5] == "delete") && RouteSplitFixed(verb, path) == NotFound
  {
    PartsDiffer(verb, Split(path, '/')[1..]);
  }

  lemma PartsDiffer(verb: string, p: seq<string>)
    ensures SplitParts(false, verb, p) != SplitParts(true, verb, p) <==>
      |p| == 6 && p[0] == "api" && p[1] == "widgets" && p[3] != "parts" && IsId(p[4]).Some? &&
      (p[5] == "update" || p[5] == "delete") && SplitParts(true, verb, p) == NotFound
  {
  }

  /** On a path that starts with '/', the corrected `routeSplit` and `routeMatch` agree for every method. */
  lemma RouteSplitFixedIsRouteMatch(verb: string, path: string)
    requires 0 < |path| && path[0] == '/'
    ensures RouteSplitFixed(verb, path) == RouteMatch(verb, path)
  {
    SplitRooted(path, '/');
    RouteSplitFixedIsResolve(verb, path);
    RouteMatchIsResolve(verb, path);
    AnchorIrrelevant(SplitRules, verb, Split(path, '/'));
    assert MatchRules == SplitRules.(anchored := true);
  }

  lemma SplitMisplacedParts()
    ensures Split("/api/widgets/foo/bar/1/update", '/') == ["", "api", "widgets", "foo", "bar", "1", "update"]
  {
    var parts := ["", "api", "widgets", "foo", "bar", "1", "update"];
    JoinMisplacedParts();
    SplitJoin(parts, '/');
  }

  lemma JoinMisplacedParts()
    ensures Join(["", "api", "widgets", "foo", "bar", "1", "update"], "/") == "/api/widgets/foo/bar/1/update"
  {
    var parts := ["", "api", "widgets", "foo", "bar", "1", "update"];
    assert parts[1..] == ["api", "widgets", "foo", "bar", "1", "update"];
    assert parts[2..] == ["widgets", "foo", "bar", "1", "update"];
    assert parts[3..] == ["foo", "bar", "1", "update"];
    assert parts[4..] == ["bar", "1", "update"];
    assert parts[5..] == ["1", "update"];
  }

  /** Any path with the parts of "/api/widgets/foo/bar/1/update" is routed the same way. */
  lemma MisplacedPartsRouting(path: string)
    requires Split(path, '/') == ["", "api", "widgets", "foo", "bar", "1", "update"]
    ensures RouteSplit(POST, path) == Ok("apiUpdateWidgetPart foo 1\n")
    ensures RouteSplitFixed(POST, path) == NotFound
    ensures RouteMatch(POST, path) == NotFound
  {
    var p := Split(path, '/')[1..];
    assert p == ["api", "widgets", "foo", "bar", "1", "update"];
    assert Atoi("1") == Some(1);
    assert Itoa(1) == "1";
    assert [Str("foo"), Int(1)][1..] == [Int(1)];
    assert Params([Int(1)]) == " 1";
    assert Body("apiUpdateWidgetPart", [Str("foo"), Int(1)]) == "apiUpdateWidgetPart foo 1\n";
    RouteSplitFixedIsResolve(POST, path);
    RouteMatchIsResolve(POST, path);
  }

  /**
   * `routeSplit` as written serves a part update on a path whose fourth part
   * is not "parts"; `routeMatch` and the corrected `routeSplit` answer 404.
   */
  lemma RouteSplitAcceptsMisplacedParts()
    ensures RouteSplit(POST, "/api/widgets/foo/bar/1/update") == Ok("apiUpdateWidgetPart foo 1\n")
    ensures RouteSplitFixed(POST, "/api/widgets/foo/bar/1/update") == NotFound
    ensures RouteMatch(POST, "/api/widgets/foo/bar/1/update") == NotFound
  {
    SplitMisplacedParts();
    MisplacedPartsRouting("/api/widgets/foo/bar/1/update");
  }
}
