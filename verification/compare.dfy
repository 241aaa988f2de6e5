/**
 * Where the routers disagree. Each lemma fixes the parts of a request path
 * and states what every router concerned answers on it: HEAD handling, an
 * id of zero, an id too large for an int64, and empty slugs.
 */
module Compare {
  import opened Wrappers
  import opened Strings
  import opened Strconv
  import opened Http
  import opened Shape
  import RouteMatch
  import MainRoutes
  import SplitServe
  import MatchServe
  import Reswitch
  import Retable

  /** HEAD on "/": the `get` of routematch and main.go admits it; split, match and reswitch answer 405 with `Allow: GET`. */
  lemma HeadHome(path: string)
    requires Split(path, '/') == ["", ""]
    ensures RouteMatch.Route(HEAD, path) == Ok(Body("home", []))
    ensures MainRoutes.RouteMatch(HEAD, path) == Ok(Body("home", []))
    ensures SplitServe.Serve(HEAD, path) == NotAllowed(GetOnly)
    ensures MatchServe.Serve(HEAD, path) == NotAllowed(GetOnly)
    ensures Reswitch.Serve(HEAD, path) == NotAllowed(GetOnly)
    ensures Retable.Serve(HEAD, path) == NotAllowed(GetOnly)
  {
    var a := Split(path, '/');
    assert a[1..] == [""];
    RouteMatch.RouteIsResolve(HEAD, path);
    MainRoutes.RouteMatchIsResolve(HEAD, path);
    SplitServe.ServeIsResolve(HEAD, path);
    MatchServe.ServeIsResolve(HEAD, path);
    Reswitch.ServeIsResolve(HEAD, path);
    Retable.HeadHome(path);
  }

  /** The parts of "/api/widgets/:slug/parts/:id/update", where only the slug and the id vary. */
  predicate PartUpdateParts(a: seq<string>, slug: string, id: string)
  {
    a == ["", "api", "widgets", slug, "parts", id, "update"]
  }

  /** On a part update path, the id rule alone decides between the handler and 404. */
  lemma PartUpdateRouting(policy: Policy, a: seq<string>, slug: string, id: string)
    requires PartUpdateParts(a, slug, id) && slug != ""
    ensures IdOf(policy.id, id).None? ==> Resolve(policy, POST, a) == NotFound
    ensures IdOf(policy.id, id).Some? ==>
      Resolve(policy, POST, a) == Ok(Body("apiUpdateWidgetPart", [Str(slug), Int(IdOf(policy.id, id).value)]))
  {
    var p := a[1..];
    assert p[0] == "api" && p[1] == "widgets" && p[2] == slug && p[3] == "parts" && p[4] == id && p[5] == "update";
  }

  /** Atoi reads "0" as zero. */
  lemma AtoiZero()
    ensures Atoi("0") == Some(0)
  {
    assert AllDigits("0");
    assert DigitsValue("0") == 0;
  }

  /** Id 0: match's `+` scanner and reswitch's `([0-9]+)` accept it. */
  lemma IdZeroAccepted(path: string, slug: string)
    requires PartUpdateParts(Split(path, '/'), slug, "0") && slug != ""
    ensures MatchServe.Serve(POST, path) == Ok(Body("apiUpdateWidgetPart", [Str(slug), Int(0)]))
    ensures Reswitch.Serve(POST, path) == Ok(Body("apiUpdateWidgetPart", [Str(slug), Int(0)]))
  {
    AtoiZero();
    assert AllDigits("0");
    MatchServe.ServeIsResolve(POST, path);
    PartUpdateRouting(MatchServe.Rules, Split(path, '/'), slug, "0");
    Reswitch.ServeIsResolve(POST, path);
    PartUpdateRouting(Reswitch.Rules, Split(path, '/'), slug, "0");
  }

  /** Id 0: routematch, split and main.go's `routeMatch` want an id above zero and answer 404. */
  lemma IdZeroRefused(path: string, slug: string)
    requires PartUpdateParts(Split(path, '/'), slug, "0") && slug != ""
    ensures RouteMatch.Route(POST, path) == NotFound
    ensures SplitServe.Serve(POST, path) == NotFound
    ensures MainRoutes.RouteMatch(POST, path) == NotFound
  {
    AtoiZero();
    RouteMatch.RouteIsResolve(POST, path);
    PartUpdateRouting(RouteMatch.Rules, Split(path, '/'), slug, "0");
    SplitServe.ServeIsResolve(POST, path);
    PartUpdateRouting(SplitServe.Rules, Split(path, '/'), slug, "0");
    MainRoutes.RouteMatchIsResolve(POST, path);
    PartUpdateRouting(MainRoutes.MatchRules, Split(path, '/'), slug, "0");
  }

  /**
   * An id of digits beyond the int64 range: reswitch's Atoi fails and the
   * request is not found, while retable drops the error and serves the
   * clamped value.
   */
  lemma OverflowId(path: string, slug: string, id: string)
    requires PartUpdateParts(Split(path, '/'), slug, id) && slug != ""
    requires 0 < |id| && AllDigits(id) && DigitsValue(id) > Int64Max
    ensures Reswitch.Serve(POST, path) == NotFound
    ensures Retable.Serve(POST, path) == Ok(Body("apiUpdateWidgetPart", [Str(slug), Int(Int64Max)]))
  {
    assert Numeral(id) && NumeralValue(id) == DigitsValue(id);
    assert Atoi(id).None?;
    Reswitch.ServeIsResolve(POST, path);
    PartUpdateRouting(Reswitch.Rules, Split(path, '/'), slug, id);
    Retable.OverflowIdClamped(path, slug, id);
  }

  /** On "/api/widgets/:slug/parts", the slug rule alone decides between the handler and 404. */
  lemma CreatePartRouting(policy: Policy, a: seq<string>, slug: string)
    requires a == ["", "api", "widgets", slug, "parts"]
    ensures SlugOk(policy.apiSlug, slug, false) ==> Resolve(policy, POST, a) == Ok(Body("apiCreateWidgetPart", [Str(slug)]))
    ensures !SlugOk(policy.apiSlug, slug, false) ==> Resolve(policy, POST, a) == NotFound
  {
    var p := a[1..];
    assert p[0] == "api" && p[1] == "widgets" && p[2] == slug && p[3] == "parts";
  }

  /**
   * An empty slug in the middle of "/api/widgets//parts": match only checks
   * that a `+` bound at the end of the path is non-empty and main.go's
   * `match` does not check at all, so both serve it.
   */
  lemma EmptyMiddleSlugServed(path: string)
    requires Split(path, '/') == ["", "api", "widgets", "", "parts"]
    ensures MatchServe.Serve(POST, path) == Ok(Body("apiCreateWidgetPart", [Str("")]))
    ensures MainRoutes.RouteMatch(POST, path) == Ok(Body("apiCreateWidgetPart", [Str("")]))
  {
    MatchServe.ServeIsResolve(POST, path);
    CreatePartRouting(MatchServe.Rules, Split(path, '/'), "");
    MainRoutes.RouteMatchIsResolve(POST, path);
    CreatePartRouting(MainRoutes.MatchRules, Split(path, '/'), "");
  }

  /** The other routers want a non-empty slug wherever it stands. */
  lemma EmptyMiddleSlugRefused(path: string)
    requires Split(path, '/') == ["", "api", "widgets", "", "parts"]
    ensures RouteMatch.Route(POST, path) == NotFound
    ensures SplitServe.Serve(POST, path) == NotFound
    ensures Reswitch.Serve(POST, path) == NotFound
  {
    RouteMatch.RouteIsResolve(POST, path);
    CreatePartRouting(RouteMatch.Rules, Split(path, '/'), "");
    SplitServe.ServeIsResolve(POST, path);
    CreatePartRouting(SplitServe.Rules, Split(path, '/'), "");
    Reswitch.ServeIsResolve(POST, path);
    CreatePartRouting(Reswitch.Rules, Split(path, '/'), "");
  }

  /** On "/api/widgets/:slug", the slug rule for a last part alone decides between the handler and 404. */
  lemma UpdateWidgetRouting(policy: Policy, a: seq<string>, slug: string)
    requires a == ["", "api", "widgets", slug]
    ensures SlugOk(policy.apiSlug, slug, true) ==> Resolve(policy, POST, a) == Ok(Body("apiUpdateWidget", [Str(slug)]))
    ensures !SlugOk(policy.apiSlug, slug, true) ==> Resolve(policy, POST, a) == NotFound
  {
    var p := a[1..];
    assert p[0] == "api" && p[1] == "widgets" && p[2] == slug;
  }

  /**
   * "/api/widgets/": an empty last slug is refused by routematch and match,
   * but main.go's `routeMatch` serves apiUpdateWidget with an empty slug.
   */
  lemma EmptyLastSlug(path: string)
    requires Split(path, '/') == ["", "api", "widgets", ""]
    ensures MatchServe.Serve(POST, path) == NotFound
    ensures RouteMatch.Route(POST, path) == NotFound
    ensures MainRoutes.RouteMatch(POST, path) == Ok(Body("apiUpdateWidget", [Str("")]))
  {
    MatchServe.ServeIsResolve(POST, path);
    UpdateWidgetRouting(MatchServe.Rules, Split(path, '/'), "");
    RouteMatch.RouteIsResolve(POST, path);
    UpdateWidgetRouting(RouteMatch.Rules, Split(path, '/'), "");
    MainRoutes.RouteMatchIsResolve(POST, path);
    UpdateWidgetRouting(MainRoutes.MatchRules, Split(path, '/'), "");
  }
}
