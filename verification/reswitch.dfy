/**
 * reswitch's `Serve`: a switch whose cases call `match(path, pattern, vars...)`,
 * which matches `^pattern$` and converts the captures into the variables in
 * order, "%d"-style `*int` variables through Atoi with no sign check.
 */
module Reswitch {
  import opened Wrappers
  import opened Strings
  import opened Strconv
  import opened Segments
  import opened SegmentForms
  import opened Http
  import opened Switch
  import opened Shape
  import opened RegexSegs

  /**
   * The `for i, match := range matches[1:]` loop from capture `i` on: a `*string`
   * takes the text, an `*int` takes Atoi of it or the match fails; running out
   * of variables (a panic in the source) is no match.
   */
  function Convert(captures: seq<string>, vars: seq<Kind>, i: nat): Option<seq<Value>>
    requires i <= |captures|
    decreases |captures| - i
  {
    if i == |captures| then Some([])
    else if i >= |vars| then None
    else
      var v := match vars[i]
        case StrVar => Some(Str(captures[i]))
        case IntVar => (var n := Atoi(captures[i]); if n.None? then None else Some(Int(n.value)));
      if v.None? then None
      else
        var rest := Convert(captures, vars, i + 1);
        if rest.None? then None else Some([v.value] + rest.value)
  }

  /** `match(path, pattern, vars...)`: on success, the values written to `vars`. */
  function ReMatch(path: string, re: Regex, vars: seq<Kind>): Option<seq<Value>>
  {
    match FindSubmatch(path, re)
    case None => None
    case Some(captures) => Convert(captures, vars, 0)
  }

  function ReMatcher(): Matcher<string, (Regex, seq<Kind>)>
  {
    (path: string, p: (Regex, seq<Kind>)) => ReMatch(path, p.0, p.1)
  }

  /** The cases of `Serve`, in source order; "/api/widgets/([^/]+)" is written as its segments. */
  const Cases: seq<Case<(Regex, seq<Kind>)>> := [
    Case(([Lit(""), Lit("")], []), AnyMethod, GetOnly, "home"),
    Case(([Lit(""), Lit("contact")], []), AnyMethod, GetOnly, "contact"),
    Case(([Lit(""), Lit("api"), Lit("widgets")], []), ExactlyGet, GetOnly, "apiGetWidgets"),
    Case(([Lit(""), Lit("api"), Lit("widgets")], []), AnyMethod, PostOnly, "apiCreateWidget"),
    Case(([Lit(""), Lit("api"), Lit("widgets"), Param(NotSlash)], [StrVar]), AnyMethod, PostOnly, "apiUpdateWidget"),
    Case(([Lit(""), Lit("api"), Lit("widgets"), Param(NotSlash), Lit("parts")], [StrVar]), AnyMethod, PostOnly, "apiCreateWidgetPart"),
    Case(([Lit(""), Lit("api"), Lit("widgets"), Param(NotSlash), Lit("parts"), Param(Digits), Lit("update")], [StrVar, IntVar]),
         AnyMethod, PostOnly, "apiUpdateWidgetPart"),
    Case(([Lit(""), Lit("api"), Lit("widgets"), Param(NotSlash), Lit("parts"), Param(Digits), Lit("delete")], [StrVar, IntVar]),
         AnyMethod, PostOnly, "apiDeleteWidgetPart"),
    Case(([Lit(""), Param(NotSlash)], [StrVar]), AnyMethod, GetOnly, "widget"),
    Case(([Lit(""), Param(NotSlash), Lit("admin")], [StrVar]), AnyMethod, GetOnly, "widgetAdmin"),
    Case(([Lit(""), Param(NotSlash), Lit("image")], [StrVar]), AnyMethod, PostOnly, "widgetImage")
  ]

  /** `Serve(w, r)` for a request with method `verb` and URL path `path`. */
  function Serve(verb: string, path: string): Outcome
  {
    Dispatch(Cases, ReMatcher(), verb, path)
  }

  /** The rules of reswitch: `get` admits only GET, slugs are non-empty, an id is digits that Atoi accepts. */
  const Rules := Policy(GetOnly, ExactlyGet, NonEmpty, NonEmpty, DigitsInRange, true)

  lemma OneCapture(s: string, kind: Kind)
    ensures Convert([s], [kind], 0) ==
      match kind
      case StrVar => Some([Str(s)])
      case IntVar => if Atoi(s).None? then None else Some([Int(Atoi(s).value)])
  {
    var none: seq<Value> := [];
    assert Convert([s], [kind], 1) == Some(none);
    assert [Str(s)] + none == [Str(s)];
    if Atoi(s).Some? {
      assert [Int(Atoi(s).value)] + none == [Int(Atoi(s).value)];
    }
  }

  lemma TwoCaptures(s: string, t: string)
    ensures Convert([s, t], [StrVar, IntVar], 0) == if Atoi(t).None? then None else Some([Str(s), Int(Atoi(t).value)])
  {
    var none: seq<Value> := [];
    assert Convert([s, t], [StrVar, IntVar], 2) == Some(none);
    if Atoi(t).Some? {
      var v := Int(Atoi(t).value);
      assert [v] + none == [v];
      assert Convert([s, t], [StrVar, IntVar], 1) == Some([v]);
      assert [Str(s)] + [v] == [Str(s), v];
    }
  }

  lemma ReMatchFixed(path: string, k: nat)
    requires k <= 3
    ensures ReMatch(path, Cases[k].pattern.0, Cases[k].pattern.1) == Expect(Rules, k, Split(path, '/'))
  {
    var a := Split(path, '/');
    var re := Cases[k].pattern.0;
    var none: seq<string> := [];
    var noValues: seq<Value> := [];
    assert Convert(none, [], 0) == Some(noValues);
    if k == 0 {
      LitLit(a, re, Capturer(), "", "");
    } else if k == 1 {
      LitLit(a, re, Capturer(), "", "contact");
    } else {
      LitLitLit(a, re, Capturer(), "", "api", "widgets");
    }
  }

  lemma ReMatchApiSlug(path: string, k: nat)
    requires k == 4 || k == 5
    ensures ReMatch(path, Cases[k].pattern.0, Cases[k].pattern.1) == Expect(Rules, k, Split(path, '/'))
  {
    var a := Split(path, '/');
    var re := Cases[k].pattern.0;
    if k == 4 {
      Lit3Param(a, re, Capturer(), "", "api", "widgets", NotSlash);
      if |a| == 4 { OneCapture(a[3], StrVar); }
    } else {
      Lit3ParamLit(a, re, Capturer(), "", "api", "widgets", NotSlash, "parts");
      if |a| == 5 { OneCapture(a[3], StrVar); }
    }
  }

  lemma ReMatchId(path: string, k: nat)
    requires k == 6 || k == 7
    ensures ReMatch(path, Cases[k].pattern.0, Cases[k].pattern.1) == Expect(Rules, k, Split(path, '/'))
  {
    var a := Split(path, '/');
    var re := Cases[k].pattern.0;
    Lit3ParamLitParamLit(a, re, Capturer(), "", "api", "widgets", NotSlash, "parts", Digits,
                         if k == 6 then "update" else "delete");
    if |a| == 7 { TwoCaptures(a[3], a[5]); }
  }

  lemma ReMatchSite(path: string, k: nat)
    requires 8 <= k <= 10
    ensures ReMatch(path, Cases[k].pattern.0, Cases[k].pattern.1) == Expect(Rules, k, Split(path, '/'))
  {
    var a := Split(path, '/');
    var re := Cases[k].pattern.0;
    if k == 8 {
      LitParam(a, re, Capturer(), "", NotSlash);
      if |a| == 2 { OneCapture(a[1], StrVar); }
    } else {
      LitParamLit(a, re, Capturer(), "", NotSlash, if k == 9 then "admin" else "image");
      if |a| == 3 { OneCapture(a[1], StrVar); }
    }
  }

  lemma CasesAgree(path: string)
    ensures SameCases(Cases, ReMatcher(), path, Routes(Rules), ExpectMatcher(Rules), Split(path, '/'))
  {
    forall i | 0 <= i < 11
      ensures ReMatcher()(path, Cases[i].pattern) == ExpectMatcher(Rules)(Split(path, '/'), Routes(Rules)[i].pattern)
      ensures Cases[i].test == Routes(Rules)[i].test && Cases[i].allowed == Routes(Rules)[i].allowed && Cases[i].name == Routes(Rules)[i].name
    {
      assert Routes(Rules)[i] == Case(i, RouteTest(Rules, i), RouteAllowed(Rules, i), RouteName(i));
      if i <= 3 { ReMatchFixed(path, i); }
      else if i <= 5 { ReMatchApiSlug(path, i); }
      else if i <= 7 { ReMatchId(path, i); }
      else { ReMatchSite(path, i); }
    }
  }

  /** `Serve` is the route table's one decision under reswitch's rules, for every method and path. */
  lemma ServeIsResolve(verb: string, path: string)
    ensures Serve(verb, path) == Resolve(Rules, verb, Split(path, '/'))
  {
    CasesAgree(path);
    DispatchTransfer(Cases, ReMatcher(), path, Routes(Rules), ExpectMatcher(Rules), Split(path, '/'), verb);
    RoutesAreResolve(Rules, verb, Split(path, '/'));
  }
}
