/**
 * The route table every hand-written router implements (the comment block
 * at main.go:13-25), as one decision over the '/'-separated parts of the
 * path, parameterised by the few rules on which the routers differ: which
 * methods `get` admits, how `/api/widgets` tells GET from POST, what a slug
 * or an id may be, and whether the part before the first '/' is checked.
 */
module Shape {
  import opened Wrappers
  import opened Strings
  import opened Strconv
  import opened Http
  import opened Switch

  /** What a slug part may be: non-empty, anything, or non-empty only as the last part. */
  datatype SlugRule = NonEmpty | AnySlug | NonEmptyWhenLast

  /** Which id parts are accepted: Atoi with value > 0, Atoi with value >= 0, or digits only that Atoi accepts. */
  datatype IdRule = Positive | NonNegative | DigitsInRange

  datatype Policy = Policy(
    get: seq<string>,        // the methods `get(h)` admits
    widgetsGet: MethodTest,  // the test choosing apiGetWidgets over apiCreateWidget
    apiSlug: SlugRule,       // the slug in /api/widgets/:slug...
    siteSlug: SlugRule,      // the slug in /:slug...
    id: IdRule,              // the id in /api/widgets/:slug/parts/:id/...
    anchored: bool)          // whether the part before the first '/' must be empty

  predicate SlugOk(rule: SlugRule, s: string, last: bool)
  {
    match rule
    case NonEmpty => s != ""
    case AnySlug => true
    case NonEmptyWhenLast => !last || s != ""
  }

  /** The id an id part denotes under `rule`, if it is accepted. */
  function IdOf(rule: IdRule, s: string): (r: Option<int>)
    ensures r.Some? ==> Numeral(s) && r.value == NumeralValue(s) && 0 <= r.value <= Int64Max
    ensures rule == Positive ==> (r.Some? <==> Numeral(s) && 0 < NumeralValue(s) <= Int64Max)
    ensures rule == NonNegative ==> (r.Some? <==> Numeral(s) && 0 <= NumeralValue(s) <= Int64Max)
    ensures rule == DigitsInRange ==> (r.Some? <==> 0 < |s| && AllDigits(s) && DigitsValue(s) <= Int64Max)
  {
    match rule
    case Positive => if Atoi(s).Some? && Atoi(s).value > 0 then Atoi(s) else None
    case NonNegative => if Atoi(s).Some? && Atoi(s).value >= 0 then Atoi(s) else None
    case DigitsInRange =>
      if 0 < |s| && AllDigits(s) then
        assert Unsigned(s) == s;
        Atoi(s)
      else None
  }

  /** `isId(s, &id)` of split and main.go: the id `s` denotes when Atoi accepts it with a value above zero; `id` is written only then. */
  function IsId(s: string): (r: Option<int>)
    ensures r.Some? <==> Numeral(s) && 0 < NumeralValue(s) <= Int64Max
    ensures r.Some? ==> r.value == NumeralValue(s)
  {
    var n := Atoi(s);
    if n.None? || n.value <= 0 then None else n
  }

  /** Every id rule reads the `%d` text of a positive int64 back as that id. */
  lemma IdItoa(n: int)
    requires 0 < n <= Int64Max
    ensures IsId(Itoa(n)) == Some(n)
    ensures forall rule: IdRule :: IdOf(rule, Itoa(n)) == Some(n)
  {
    AtoiItoa(n);
    assert Itoa(n) == NatToString(n);
  }

  /** A guarded handler: `allowed(handler)` serving `verb`. */
  function Handle(allowed: seq<string>, verb: string, name: string, args: seq<Value>): Outcome
  {
    AllowMethod(allowed, verb, Body(name, args))
  }

  /**
   * The route table as a decision over `a`, the parts of the path split on
   * '/', with `p` the parts after the first: the first route whose shape fits
   * runs behind its guard, anything else is 404.
   */
  function Resolve(policy: Policy, verb: string, a: seq<string>): Outcome
  {
    if |a| == 0 || (policy.anchored && a[0] != "") then NotFound
    else
      var p := a[1..];
      var n := |p|;
      var api := n >= 2 && p[0] == "api" && p[1] == "widgets";
      if n == 1 && p[0] == "" then Handle(policy.get, verb, "home", [])
      else if n == 1 && p[0] == "contact" then Handle(policy.get, verb, "contact", [])
      else if n == 2 && api then
        if Passes(policy.widgetsGet, verb) then Handle(policy.get, verb, "apiGetWidgets", [])
        else Handle(PostOnly, verb, "apiCreateWidget", [])
      else if n == 3 && api && SlugOk(policy.apiSlug, p[2], true) then
        Handle(PostOnly, verb, "apiUpdateWidget", [Str(p[2])])
      else if n == 4 && api && SlugOk(policy.apiSlug, p[2], false) && p[3] == "parts" then
        Handle(PostOnly, verb, "apiCreateWidgetPart", [Str(p[2])])
      else if n == 6 && api && SlugOk(policy.apiSlug, p[2], false) && p[3] == "parts" &&
              IdOf(policy.id, p[4]).Some? && p[5] == "update" then
        Handle(PostOnly, verb, "apiUpdateWidgetPart", [Str(p[2]), Int(IdOf(policy.id, p[4]).value)])
      else if n == 6 && api && SlugOk(policy.apiSlug, p[2], false) && p[3] == "parts" &&
              IdOf(policy.id, p[4]).Some? && p[5] == "delete" then
        Handle(PostOnly, verb, "apiDeleteWidgetPart", [Str(p[2]), Int(IdOf(policy.id, p[4]).value)])
      else if n == 1 && SlugOk(policy.siteSlug, p[0], true) then
        Handle(policy.get, verb, "widget", [Str(p[0])])
      else if n == 2 && SlugOk(policy.siteSlug, p[0], false) && p[1] == "admin" then
        Handle(policy.get, verb, "widgetAdmin", [Str(p[0])])
      else if n == 2 && SlugOk(policy.siteSlug, p[0], false) && p[1] == "image" then
        Handle(PostOnly, verb, "widgetImage", [Str(p[0])])
      else NotFound
  }

  /** The handler name of case `k`. */
  function RouteName(k: nat): string
  {
    if k == 0 then "home" else if k == 1 then "contact"
    else if k == 2 then "apiGetWidgets" else if k == 3 then "apiCreateWidget"
    else if k == 4 then "apiUpdateWidget" else if k == 5 then "apiCreateWidgetPart"
    else if k == 6 then "apiUpdateWidgetPart" else if k == 7 then "apiDeleteWidgetPart"
    else if k == 8 then "widget" else if k == 9 then "widgetAdmin" else "widgetImage"
  }

  /** The guard of case `k`: `get` for the GET routes, `post` for the others. */
  function RouteAllowed(policy: Policy, k: nat): seq<string>
  {
    if k <= 2 || k == 8 || k == 9 then policy.get else PostOnly
  }

  /** The method conjunct of case `k`: only the apiGetWidgets case has one. */
  function RouteTest(policy: Policy, k: nat): MethodTest
  {
    if k == 2 then policy.widgetsGet else AnyMethod
  }

  /** The eleven switch cases in source order; the pattern of case `k` is its index. */
  function Routes(policy: Policy): (rs: seq<Case<nat>>)
    ensures |rs| == 11
  {
    seq(11, k requires 0 <= k < 11 => Case(k, RouteTest(policy, k), RouteAllowed(policy, k), RouteName(k)))
  }

  /**
   * What the pattern of case `k` binds on the parts `a` of a rooted path:
   * "/", "/contact", "/api/widgets" (twice), "/api/widgets/:slug",
   * ".../parts", ".../parts/:id/update", ".../parts/:id/delete", "/:slug",
   * "/:slug/admin", "/:slug/image".
   */
  function Expect(policy: Policy, k: nat, a: seq<string>): (r: Option<seq<Value>>)
    ensures r.Some? ==> |a| == Arity(k) && a[0] == ""
  {
    var api := |a| >= 3 && a[0] == "" && a[1] == "api" && a[2] == "widgets";
    if k == 0 then
      if |a| == 2 && a[0] == "" && a[1] == "" then Some([]) else None
    else if k == 1 then
      if |a| == 2 && a[0] == "" && a[1] == "contact" then Some([]) else None
    else if k == 2 || k == 3 then
      if |a| == 3 && api then Some([]) else None
    else if k == 4 then
      if |a| == 4 && api && SlugOk(policy.apiSlug, a[3], true) then Some([Str(a[3])]) else None
    else if k == 5 then
      if |a| == 5 && api && SlugOk(policy.apiSlug, a[3], false) && a[4] == "parts" then Some([Str(a[3])]) else None
    else if k == 6 || k == 7 then
      if |a| == 7 && api && SlugOk(policy.apiSlug, a[3], false) && a[4] == "parts" &&
         IdOf(policy.id, a[5]).Some? && a[6] == (if k == 6 then "update" else "delete")
      then Some([Str(a[3]), Int(IdOf(policy.id, a[5]).value)]) else None
    else if k == 8 then
      if |a| == 2 && a[0] == "" && SlugOk(policy.siteSlug, a[1], true) then Some([Str(a[1])]) else None
    else if k == 9 || k == 10 then
      if |a| == 3 && a[0] == "" && SlugOk(policy.siteSlug, a[1], false) && a[2] == (if k == 9 then "admin" else "image")
      then Some([Str(a[1])]) else None
    else None
  }

  /** The number of parts of the paths case `k`'s pattern can match, the leading empty one included. */
  function Arity(k: nat): nat
  {
    if k <= 1 then 2 else if k <= 3 then 3 else if k == 4 then 4 else if k == 5 then 5
    else if k <= 7 then 7 else if k == 8 then 2 else 3
  }

  function ExpectMatcher(policy: Policy): Matcher<seq<string>, nat>
  {
    (a: seq<string>, k: nat) => Expect(policy, k, a)
  }

  /** One step of the switch: case `k` runs if it fires, otherwise the cases after it decide. */
  lemma StepAt(policy: Policy, verb: string, a: seq<string>, k: nat)
    requires k < 11
    ensures DispatchFrom(Routes(policy), ExpectMatcher(policy), verb, a, k) ==
      if Expect(policy, k, a).Some? && Passes(RouteTest(policy, k), verb)
      then AllowMethod(RouteAllowed(policy, k), verb, Body(RouteName(k), Expect(policy, k, a).value))
      else DispatchFrom(Routes(policy), ExpectMatcher(policy), verb, a, k + 1)
  {
    assert Routes(policy)[k] == Case(k, RouteTest(policy, k), RouteAllowed(policy, k), RouteName(k));
  }

  /** Cases `i` to `j - 1` cannot bind `a`, so from `i` the switch continues at `j`. */
  lemma SkipFrom(policy: Policy, verb: string, a: seq<string>, i: nat, j: nat)
    requires i <= j <= 11
    requires (|a| > 0 && a[0] != "") || forall k :: i <= k < j ==> Arity(k) != |a|
    ensures DispatchFrom(Routes(policy), ExpectMatcher(policy), verb, a, i) == DispatchFrom(Routes(policy), ExpectMatcher(policy), verb, a, j)
  {
    var k := i;
    while k < j
      invariant i <= k <= j
      invariant DispatchFrom(Routes(policy), ExpectMatcher(policy), verb, a, i) == DispatchFrom(Routes(policy), ExpectMatcher(policy), verb, a, k)
    {
      StepAt(policy, verb, a, k);
      k := k + 1;
    }
  }

  /** `Resolve` and the switch agree on the paths of two parts: "/", "/contact" and "/:slug". */
  lemma Resolve2(policy: Policy, verb: string, a: seq<string>)
    requires policy.anchored && |a| == 2 && a[0] == ""
    ensures Dispatch(Routes(policy), ExpectMatcher(policy), verb, a) == Resolve(policy, verb, a)
  {
    var p := a[1..];
    assert p[0] == a[1];
    StepAt(policy, verb, a, 0);
    StepAt(policy, verb, a, 1);
    SkipFrom(policy, verb, a, 2, 8);
    StepAt(policy, verb, a, 8);
    SkipFrom(policy, verb, a, 9, 11);
    assert DispatchFrom(Routes(policy), ExpectMatcher(policy), verb, a, 11) == NotFound;
  }

  /** ... on the paths of three parts: "/api/widgets", "/:slug/admin" and "/:slug/image". */
  lemma Resolve3(policy: Policy, verb: string, a: seq<string>)
    requires policy.anchored && |a| == 3 && a[0] == ""
    ensures Dispatch(Routes(policy), ExpectMatcher(policy), verb, a) == Resolve(policy, verb, a)
  {
    if a[1] == "api" && a[2] == "widgets" {
      Resolve3Api(policy, verb, a);
    } else {
      Resolve3Site(policy, verb, a);
    }
  }

  lemma Resolve3Api(policy: Policy, verb: string, a: seq<string>)
    requires policy.anchored && |a| == 3 && a[0] == "" && a[1] == "api" && a[2] == "widgets"
    ensures Dispatch(Routes(policy), ExpectMatcher(policy), verb, a) == Resolve(policy, verb, a)
  {
    var p := a[1..];
    assert p[0] == a[1] && p[1] == a[2];
    SkipFrom(policy, verb, a, 0, 2);
    StepAt(policy, verb, a, 2);
    StepAt(policy, verb, a, 3);
  }

  lemma Resolve3Site(policy: Policy, verb: string, a: seq<string>)
    requires policy.anchored && |a| == 3 && a[0] == "" && !(a[1] == "api" && a[2] == "widgets")
    ensures Dispatch(Routes(policy), ExpectMatcher(policy), verb, a) == Resolve(policy, verb, a)
  {
    var p := a[1..];
    assert p[0] == a[1] && p[1] == a[2];
    SkipFrom(policy, verb, a, 0, 2);
    StepAt(policy, verb, a, 2);
    StepAt(policy, verb, a, 3);
    SkipFrom(policy, verb, a, 4, 9);
    if a[2] == "admin" {
      Resolve3Admin(policy, verb, a);
    } else {
      StepAt(policy, verb, a, 9);
      Resolve3Image(policy, verb, a);
    }
  }

  lemma Resolve3Admin(policy: Policy, verb: string, a: seq<string>)
    requires policy.anchored && |a| == 3 && a[0] == "" && a[2] == "admin"
    ensures DispatchFrom(Routes(policy), ExpectMatcher(policy), verb, a, 9) == Resolve(policy, verb, a)
  {
    var p := a[1..];
    assert p[0] == a[1] && p[1] == a[2];
    StepAt(policy, verb, a, 9);
    StepAt(policy, verb, a, 10);
    assert DispatchFrom(Routes(policy), ExpectMatcher(policy), verb, a, 11) == NotFound;
  }

  lemma Resolve3Image(policy: Policy, verb: string, a: seq<string>)
    requires policy.anchored && |a| == 3 && a[0] == "" && a[2] != "admin" && !(a[1] == "api" && a[2] == "widgets")
    ensures DispatchFrom(Routes(policy), ExpectMatcher(policy), verb, a, 10) == Resolve(policy, verb, a)
  {
    var p := a[1..];
    assert p[0] == a[1] && p[1] == a[2];
    StepAt(policy, verb, a, 10);
    assert DispatchFrom(Routes(policy), ExpectMatcher(policy), verb, a, 11) == NotFound;
  }

  /** ... on the paths of four parts: "/api/widgets/:slug". */
  lemma Resolve4(policy: Policy, verb: string, a: seq<string>)
    requires policy.anchored && |a| == 4 && a[0] == ""
    ensures Dispatch(Routes(policy), ExpectMatcher(policy), verb, a) == Resolve(policy, verb, a)
  {
    var p := a[1..];
    assert p[0] == a[1] && p[1] == a[2] && p[2] == a[3];
    SkipFrom(policy, verb, a, 0, 4);
    StepAt(policy, verb, a, 4);
    SkipFrom(policy, verb, a, 5, 11);
    assert DispatchFrom(Routes(policy), ExpectMatcher(policy), verb, a, 11) == NotFound;
  }

  /** ... on the paths of five parts: "/api/widgets/:slug/parts". */
  lemma Resolve5(policy: Policy, verb: string, a: seq<string>)
    requires policy.anchored && |a| == 5 && a[0] == ""
    ensures Dispatch(Routes(policy), ExpectMatcher(policy), verb, a) == Resolve(policy, verb, a)
  {
    var p := a[1..];
    assert p[0] == a[1] && p[1] == a[2] && p[2] == a[3] && p[3] == a[4];
    SkipFrom(policy, verb, a, 0, 5);
    StepAt(policy, verb, a, 5);
    SkipFrom(policy, verb, a, 6, 11);
    assert DispatchFrom(Routes(policy), ExpectMatcher(policy), verb, a, 11) == NotFound;
  }

  lemma Resolve7(policy: Policy, verb: string, a: seq<string>)
    requires policy.anchored && |a| == 7 && a[0] == ""
    ensures Dispatch(Routes(policy), ExpectMatcher(policy), verb, a) == Resolve(policy, verb, a)
  {
    var p := a[1..];
    assert p[0] == a[1] && p[1] == a[2] && p[2] == a[3] && p[3] == a[4] && p[4] == a[5] && p[5] == a[6];
    SkipFrom(policy, verb, a, 0, 6);
    StepAt(policy, verb, a, 6);
    StepAt(policy, verb, a, 7);
    SkipFrom(policy, verb, a, 8, 11);
    assert DispatchFrom(Routes(policy), ExpectMatcher(policy), verb, a, 11) == NotFound;
  }

  /** Running the eleven cases in order is the one decision `Resolve`, for every method and path. */
  lemma RoutesAreResolve(policy: Policy, verb: string, a: seq<string>)
    requires policy.anchored
    ensures Dispatch(Routes(policy), ExpectMatcher(policy), verb, a) == Resolve(policy, verb, a)
  {
    if |a| >= 1 && a[0] == "" && |a| == 2 {
      Resolve2(policy, verb, a);
    } else if |a| >= 1 && a[0] == "" && |a| == 3 {
      Resolve3(policy, verb, a);
    } else if |a| >= 1 && a[0] == "" && |a| == 4 {
      Resolve4(policy, verb, a);
    } else if |a| >= 1 && a[0] == "" && |a| == 5 {
      Resolve5(policy, verb, a);
    } else if |a| >= 1 && a[0] == "" && |a| == 7 {
      Resolve7(policy, verb, a);
    } else {
      SkipFrom(policy, verb, a, 0, 11);
      assert DispatchFrom(Routes(policy), ExpectMatcher(policy), verb, a, 11) == NotFound;
    }
  }

  /** Once the first part is empty, checking it or not makes no difference. */
  lemma AnchorIrrelevant(policy: Policy, verb: string, a: seq<string>)
    requires 0 < |a| && a[0] == ""
    ensures Resolve(policy.(anchored := true), verb, a) == Resolve(policy.(anchored := false), verb, a)
  {
  }

  /** Whether a path is routed at all never depends on the method. */
  lemma NotFoundIgnoresMethod(policy: Policy, verb1: string, verb2: string, a: seq<string>)
    ensures Resolve(policy, verb1, a).NotFound? <==> Resolve(policy, verb2, a).NotFound?
  {
  }

  /**
   * A 405 names either the methods `get` admits or POST, never the request's
   * own method; a served request used one of those methods.
   */
  lemma GuardOutcome(policy: Policy, verb: string, a: seq<string>)
    ensures Resolve(policy, verb, a).NotAllowed? ==>
      Resolve(policy, verb, a).allow in {policy.get, PostOnly} && verb !in Resolve(policy, verb, a).allow
    ensures Resolve(policy, verb, a).Ok? ==> verb in policy.get || verb == POST
  {
  }

  /** Where `get` and the apiGetWidgets test both admit GET and HEAD, a HEAD request is routed exactly like a GET. */
  lemma HeadIsGet(policy: Policy, a: seq<string>)
    requires policy.get == GetOrHead && policy.widgetsGet == GetOrHeadTest
    ensures Resolve(policy, HEAD, a) == Resolve(policy, GET, a)
  {
  }

  /** Where `get` admits only GET, HEAD is never served. */
  lemma HeadNeverServed(policy: Policy, a: seq<string>)
    requires policy.get == GetOnly
    ensures !Resolve(policy, HEAD, a).Ok?
  {
  }

  /**
   * With a slug rule that rejects an empty last slug, a path of two or more
   * segments that ends in '/' (such as "/contact/", "/foo/admin/" or
   * "/api/widgets/") is not found.
   */
  lemma TrailingSlashNotFound(policy: Policy, verb: string, a: seq<string>)
    requires |a| >= 3 && a[|a| - 1] == ""
    requires policy.apiSlug != AnySlug
    ensures Resolve(policy, verb, a) == NotFound
  {
  }

  /** An id route needs six parts after the first, "parts" fourth, an accepted id and a known action. */
  lemma IdRouteShape(policy: Policy, verb: string, a: seq<string>)
    requires |a| == 7 && a[1] == "api" && a[2] == "widgets"
    requires a[4] != "parts" || IdOf(policy.id, a[5]).None? || (a[6] != "update" && a[6] != "delete")
    ensures Resolve(policy, verb, a) == NotFound
  {
  }

  /** On the parts of "/api/widgets", the apiGetWidgets test alone picks the handler. */
  lemma WidgetsRouting(policy: Policy, verb: string, a: seq<string>)
    requires |a| == 3 && a[0] == "" && a[1] == "api" && a[2] == "widgets"
    ensures Passes(policy.widgetsGet, verb) ==> Resolve(policy, verb, a) == AllowMethod(policy.get, verb, Body("apiGetWidgets", []))
    ensures !Passes(policy.widgetsGet, verb) ==> Resolve(policy, verb, a) == AllowMethod(PostOnly, verb, Body("apiCreateWidget", []))
  {
    assert a[1..][0] == "api" && a[1..][1] == "widgets";
  }
}
