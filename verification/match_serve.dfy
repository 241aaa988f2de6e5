/**
 * The match router's `Serve`: a switch over `match(p, pattern, vars...)`
 * with '+' wildcards. The "/api/widgets" case chooses its handler by method
 * inside the case; it is written here as two cases, the first also
 * requiring GET, which fire on exactly the same requests.
 */
module MatchServe {
  import opened Wrappers
  import opened Strings
  import opened Strconv
  import opened Segments
  import opened SegmentForms
  import opened Http
  import opened Switch
  import opened Shape
  import opened PlusMatch

  /** The cases of `Serve`, in source order, with the kinds of their variables. */
  const Cases: seq<Case<(string, seq<Kind>)>> :=
    [Home, Contact, WidgetsGet, WidgetsPost, WidgetUpdate, WidgetParts, PartUpdate, PartDelete, Widget, WidgetAdmin, WidgetImage]

  const Home := Case(("/", []), AnyMethod, GetOnly, "home")
  const Contact := Case(("/contact", []), AnyMethod, GetOnly, "contact")
  const WidgetsGet := Case(("/api/widgets", []), ExactlyGet, GetOnly, "apiGetWidgets")
  const WidgetsPost := Case(("/api/widgets", []), AnyMethod, PostOnly, "apiCreateWidget")
  const WidgetUpdate := Case(("/api/widgets/+", [StrVar]), AnyMethod, PostOnly, "apiUpdateWidget")
  const WidgetParts := Case(("/api/widgets/+/parts", [StrVar]), AnyMethod, PostOnly, "apiCreateWidgetPart")
  const PartUpdate := Case(("/api/widgets/+/parts/+/update", [StrVar, IntVar]), AnyMethod, PostOnly, "apiUpdateWidgetPart")
  const PartDelete := Case(("/api/widgets/+/parts/+/delete", [StrVar, IntVar]), AnyMethod, PostOnly, "apiDeleteWidgetPart")
  const Widget := Case(("/+", [StrVar]), AnyMethod, GetOnly, "widget")
  const WidgetAdmin := Case(("/+/admin", [StrVar]), AnyMethod, GetOnly, "widgetAdmin")
  const WidgetImage := Case(("/+/image", [StrVar]), AnyMethod, PostOnly, "widgetImage")

  /**
   * `match` as the switch calls it. A pattern with more wildcards than
   * variables would make the source panic; no case has one, and such a
   * call is read as no match.
   */
  function PlusMatcher(): Matcher<string, (string, seq<Kind>)>
  {
    (path: string, p: (string, seq<Kind>)) => if Wildcards(p.0) <= |p.1| then Match(path, p.0, p.1) else None
  }

  /** `Serve(w, r)` for a request with method `verb` and URL path `path`. */
  function Serve(verb: string, path: string): Outcome
  {
    Dispatch(Cases, PlusMatcher(), verb, path)
  }

  /**
   * The rules of the match router: `get` admits only GET, a slug may be
   * empty except as the last part, an id is anything Atoi reads as >= 0.
   */
  const Rules := Policy(GetOnly, ExactlyGet, NonEmptyWhenLast, NonEmptyWhenLast, NonNegative, true)

  /** A wildcard's binding is a slug under `NonEmptyWhenLast`, or an id under `NonNegative`. */
  lemma BindMeaning(x: string, last: bool)
    ensures Binder()(x, Wild(StrVar, last)) == if SlugOk(NonEmptyWhenLast, x, last) then Some(Str(x)) else None
    ensures Binder()(x, Wild(IntVar, false)) == if IdOf(NonNegative, x).Some? then Some(Int(IdOf(NonNegative, x).value)) else None
  {
  }

  /** The '/'-separated parts of the pattern of case `k`. */
  function Parts(k: nat): seq<string>
  {
    if k == 0 then ["", ""] else if k == 1 then ["", "contact"]
    else if k <= 3 then ["", "api", "widgets"] else if k == 4 then ["", "api", "widgets", "+"]
    else if k == 5 then ["", "api", "widgets", "+", "parts"]
    else if k == 6 then ["", "api", "widgets", "+", "parts", "+", "update"]
    else if k == 7 then ["", "api", "widgets", "+", "parts", "+", "delete"]
    else if k == 8 then ["", "+"] else if k == 9 then ["", "+", "admin"] else ["", "+", "image"]
  }

  /** Case `k`'s pattern is its parts joined with '/', they are pattern parts, and there is a variable per '+'. */
  predicate WellSplit(k: nat)
    requires k < 11
  {
    var ps := Parts(k);
    |ps| >= 1 && (forall i :: 0 <= i < |ps| ==> PatternPart(ps[i])) &&
    Plusses(ps) == |Cases[k].pattern.1| && Cases[k].pattern.0 == Join(ps, "/")
  }

  /** Case `k`'s pattern text is its parts joined with '/'. */
  lemma Joined(k: nat)
    requires k < 11
    ensures Cases[k].pattern.0 == Join(Parts(k), "/")
  {
    if k <= 3 { JoinedFixed(k); }
    else if k <= 5 { JoinedApiSlug(k); }
    else if k <= 7 { JoinedId(k); }
    else { JoinedSite(k); }
  }

  lemma JoinedFixed(k: nat)
    requires k <= 3
    ensures Cases[k].pattern.0 == Join(Parts(k), "/")
  {
    if k == 0 {
      var ps := ["", ""];
      assert Join(ps, "/") == "/";
    } else if k == 1 {
      var ps := ["", "contact"];
      assert Join(ps, "/") == "/contact";
    } else if k == 2 {
      var ps := ["", "api", "widgets"];
      assert ps[1..] == ["api", "widgets"];
      assert Join(ps, "/") == "/api/widgets";
    } else {
      var ps := ["", "api", "widgets"];
      assert ps[1..] == ["api", "widgets"];
      assert Join(ps, "/") == "/api/widgets";
    }
  }

  lemma JoinedApiSlug(k: nat)
    requires k == 4 || k == 5
    ensures Cases[k].pattern.0 == Join(Parts(k), "/")
  {
    if k == 4 { JoinedWidgetUpdate(); } else { JoinedWidgetParts(); }
  }

  lemma JoinedWidgetUpdate()
    ensures Cases[4].pattern.0 == Join(Parts(4), "/")
  {
    var ps := ["", "api", "widgets", "+"];
    assert ps[1..] == ["api", "widgets", "+"];
    assert ps[2..] == ["widgets", "+"];
    assert Join(ps, "/") == "/api/widgets/+";
  }

  lemma JoinedWidgetParts()
    ensures Cases[5].pattern.0 == Join(Parts(5), "/")
  {
    var ps := ["", "api", "widgets", "+", "parts"];
    assert ps[1..] == ["api", "widgets", "+", "parts"];
    assert ps[2..] == ["widgets", "+", "parts"];
    assert ps[3..] == ["+", "parts"];
    assert Join(ps, "/") == "/api/widgets/+/parts";
  }

  lemma JoinedId(k: nat)
    requires k == 6 || k == 7
    ensures Cases[k].pattern.0 == Join(Parts(k), "/")
  {
    if k == 6 {
      JoinPartUpdate();
      assert Cases[6].pattern.0 == Join(Parts(6), "/");
    } else {
      JoinPartDelete();
      assert Cases[7].pattern.0 == Join(Parts(7), "/");
    }
  }

  lemma JoinedSite(k: nat)
    requires 8 <= k <= 10
    ensures Cases[k].pattern.0 == Join(Parts(k), "/")
  {
    if k == 8 {
      var ps := ["", "+"];
      assert Join(ps, "/") == "/+";
    } else if k == 9 {
      var ps := ["", "+", "admin"];
      assert ps[1..] == ["+", "admin"];
      assert Join(ps, "/") == "/+/admin";
    } else {
      var ps := ["", "+", "image"];
      assert ps[1..] == ["+", "image"];
      assert Join(ps, "/") == "/+/image";
    }
  }

  /** Case `k`'s parts are pattern parts: "+" or text without '+' and '/'. */
  lemma Shaped(k: nat)
    requires k < 11
    ensures forall i :: 0 <= i < |Parts(k)| ==> PatternPart(Parts(k)[i])
  {
  }

  /** Case `k` is well split. */
  lemma IsWellSplit(k: nat)
    requires k < 11
    ensures WellSplit(k)
  {
    Joined(k);
    Shaped(k);
    if k <= 3 { SplitFixed(k); }
    else if k <= 5 { SplitApiSlug(k); }
    else if k <= 7 { SplitId(k); }
    else { SplitSite(k); }
  }

  lemma SplitFixed(k: nat)
    requires k <= 3
    ensures Plusses(Parts(k)) == |Cases[k].pattern.1|
    ensures Specs(Parts(k), Cases[k].pattern.1) ==
      if k == 0 then [Lit(""), Lit("")]
      else if k == 1 then [Lit(""), Lit("contact")]
      else if k == 2 then [Lit(""), Lit("api"), Lit("widgets")]
      else [Lit(""), Lit("api"), Lit("widgets")]
  {
    if k == 0 {
      assert Plusses(Parts(0)) == 0;
      assert Specs(Parts(0), []) == [Lit(""), Lit("")];
    } else if k == 1 {
      assert Plusses(Parts(1)) == 0;
      assert Specs(Parts(1), []) == [Lit(""), Lit("contact")];
    } else if k == 2 {
      assert Plusses(Parts(2)) == 0;
      assert Specs(Parts(2), []) == [Lit(""), Lit("api"), Lit("widgets")];
    } else {
      assert Plusses(Parts(3)) == 0;
      assert Specs(Parts(3), []) == [Lit(""), Lit("api"), Lit("widgets")];
    }
  }

  lemma SplitApiSlug(k: nat)
    requires k == 4 || k == 5
    ensures Plusses(Parts(k)) == |Cases[k].pattern.1|
    ensures Specs(Parts(k), Cases[k].pattern.1) ==
      if k == 4 then [Lit(""), Lit("api"), Lit("widgets"), Param(Wild(StrVar, true))]
      else [Lit(""), Lit("api"), Lit("widgets"), Param(Wild(StrVar, false)), Lit("parts")]
  {
    if k == 4 {
      assert Plusses(Parts(4)) == 1;
      assert Specs(Parts(4), [StrVar]) == [Lit(""), Lit("api"), Lit("widgets"), Param(Wild(StrVar, true))];
    } else {
      assert Plusses(Parts(5)) == 1;
      assert Specs(Parts(5), [StrVar]) == [Lit(""), Lit("api"), Lit("widgets"), Param(Wild(StrVar, false)), Lit("parts")];
    }
  }

  lemma SplitId(k: nat)
    requires k == 6 || k == 7
    ensures Plusses(Parts(k)) == |Cases[k].pattern.1|
    ensures Specs(Parts(k), Cases[k].pattern.1) ==
      if k == 6 then [Lit(""), Lit("api"), Lit("widgets"), Param(Wild(StrVar, false)), Lit("parts"), Param(Wild(IntVar, false)), Lit("update")]
      else [Lit(""), Lit("api"), Lit("widgets"), Param(Wild(StrVar, false)), Lit("parts"), Param(Wild(IntVar, false)), Lit("delete")]
  {
    var ps := Parts(k);
    assert ps[1..] == ["api", "widgets", "+", "parts", "+", ps[6]];
    assert ps[2..] == ["widgets", "+", "parts", "+", ps[6]];
    assert ps[3..] == ["+", "parts", "+", ps[6]];
    assert ps[4..] == ["parts", "+", ps[6]];
    assert ps[5..] == ["+", ps[6]];
    assert ps[6..] == [ps[6]];
    if k == 6 {
      assert Plusses(Parts(6)) == 2;
      assert Specs(Parts(6), [StrVar, IntVar]) == [Lit(""), Lit("api"), Lit("widgets"), Param(Wild(StrVar, false)), Lit("parts"), Param(Wild(IntVar, false)), Lit("update")];
    } else {
      assert Plusses(Parts(7)) == 2;
      assert Specs(Parts(7), [StrVar, IntVar]) == [Lit(""), Lit("api"), Lit("widgets"), Param(Wild(StrVar, false)), Lit("parts"), Param(Wild(IntVar, false)), Lit("delete")];
    }
  }

  lemma SplitSite(k: nat)
    requires 8 <= k <= 10
    ensures Plusses(Parts(k)) == |Cases[k].pattern.1|
    ensures Specs(Parts(k), Cases[k].pattern.1) ==
      if k == 8 then [Lit(""), Param(Wild(StrVar, true))]
      else if k == 9 then [Lit(""), Param(Wild(StrVar, false)), Lit("admin")]
      else [Lit(""), Param(Wild(StrVar, false)), Lit("image")]
  {
    if k == 8 {
      assert Plusses(Parts(8)) == 1;
      assert Specs(Parts(8), [StrVar]) == [Lit(""), Param(Wild(StrVar, true))];
    } else if k == 9 {
      assert Plusses(Parts(9)) == 1;
      assert Specs(Parts(9), [StrVar]) == [Lit(""), Param(Wild(StrVar, false)), Lit("admin")];
    } else {
      assert Plusses(Parts(10)) == 1;
      assert Specs(Parts(10), [StrVar]) == [Lit(""), Param(Wild(StrVar, false)), Lit("image")];
    }
  }

  lemma JoinPartUpdate()
    ensures Join(["", "api", "widgets", "+", "parts", "+", "update"], "/") == "/api/widgets/+/parts/+/update"
  {
    JoinIdPattern("update");
  }

  lemma JoinPartDelete()
    ensures Join(["", "api", "widgets", "+", "parts", "+", "delete"], "/") == "/api/widgets/+/parts/+/delete"
  {
    JoinIdPattern("delete");
  }

  /** The id patterns, joined, for any final action. */
  lemma JoinIdPattern(last: string)
    ensures Join(["", "api", "widgets", "+", "parts", "+", last], "/") == "/api/widgets/+/parts/+/" + last
  {
    var ps := ["", "api", "widgets", "+", "parts", "+", last];
    JoinCons("+", [last], "/");
    assert ps[5..] == ["+"] + [last];
    JoinCons("parts", ps[5..], "/");
    assert ps[4..] == ["parts"] + ps[5..];
    JoinCons("+", ps[4..], "/");
    assert ps[3..] == ["+"] + ps[4..];
    JoinCons("widgets", ps[3..], "/");
    assert ps[2..] == ["widgets"] + ps[3..];
    JoinCons("api", ps[2..], "/");
    assert ps[1..] == ["api"] + ps[2..];
    JoinCons("", ps[1..], "/");
    assert ps == [""] + ps[1..];
  }

  /** The match on case `k`'s pattern, in terms of the path's parts. */
  lemma ScanCase(path: string, k: nat)
    requires k < 11
    ensures WellSplit(k)
    ensures PlusMatcher()(path, Cases[k].pattern) ==
      MatchSegs(Split(path, '/'), Specs(Parts(k), Cases[k].pattern.1), Binder())
  {
    IsWellSplit(k);
    ScanIsSegments(path, Parts(k), Cases[k].pattern.1);
  }

  lemma MatchFixed(path: string, k: nat)
    requires k <= 3
    ensures PlusMatcher()(path, Cases[k].pattern) == Expect(Rules, k, Split(path, '/'))
  {
    var a := Split(path, '/');
    ScanCase(path, k);
    SplitFixed(k);
    var s := Specs(Parts(k), Cases[k].pattern.1);
    if k == 0 {
      LitLit(a, s, Binder(), "", "");
    } else if k == 1 {
      LitLit(a, s, Binder(), "", "contact");
    } else {
      LitLitLit(a, s, Binder(), "", "api", "widgets");
    }
  }

  lemma MatchApiSlug(path: string, k: nat)
    requires k == 4 || k == 5
    ensures PlusMatcher()(path, Cases[k].pattern) == Expect(Rules, k, Split(path, '/'))
  {
    var a := Split(path, '/');
    ScanCase(path, k);
    SplitApiSlug(k);
    var s := Specs(Parts(k), Cases[k].pattern.1);
    if k == 4 {
      Lit3Param(a, s, Binder(), "", "api", "widgets", Wild(StrVar, true));
      if |a| == 4 { BindMeaning(a[3], true); }
    } else {
      Lit3ParamLit(a, s, Binder(), "", "api", "widgets", Wild(StrVar, false), "parts");
      if |a| == 5 { BindMeaning(a[3], false); }
    }
  }

  lemma MatchId(path: string, k: nat)
    requires k == 6 || k == 7
    ensures PlusMatcher()(path, Cases[k].pattern) == Expect(Rules, k, Split(path, '/'))
  {
    var action := if k == 6 then "update" else "delete";
    var a := Split(path, '/');
    ScanId(path, k, action);
    IdSegs(a, action);
    ExpectId(a, k, action);
  }

  lemma ScanId(path: string, k: nat, action: string)
    requires (k == 6 && action == "update") || (k == 7 && action == "delete")
    ensures PlusMatcher()(path, Cases[k].pattern) ==
      MatchSegs(Split(path, '/'), [Lit(""), Lit("api"), Lit("widgets"), Param(Wild(StrVar, false)), Lit("parts"),
                                   Param(Wild(IntVar, false)), Lit(action)], Binder())
  {
    ScanCase(path, k);
    SplitId(k);
  }

  /** Both wildcards of an id pattern are in the middle, so neither is held to the last-part rule. */
  lemma IdSegs(a: seq<string>, action: string)
    ensures MatchSegs(a, [Lit(""), Lit("api"), Lit("widgets"), Param(Wild(StrVar, false)), Lit("parts"),
                          Param(Wild(IntVar, false)), Lit(action)], Binder()) ==
      if |a| == 7 && a[0] == "" && a[1] == "api" && a[2] == "widgets" && SlugOk(NonEmptyWhenLast, a[3], false) &&
         a[4] == "parts" && IdOf(NonNegative, a[5]).Some? && a[6] == action
      then Some([Str(a[3]), Int(IdOf(NonNegative, a[5]).value)]) else None
  {
    var s := [Lit(""), Lit("api"), Lit("widgets"), Param(Wild(StrVar, false)), Lit("parts"), Param(Wild(IntVar, false)), Lit(action)];
    Lit3ParamLitParamLit(a, s, Binder(), "", "api", "widgets", Wild(StrVar, false), "parts", Wild(IntVar, false), action);
    if |a| == 7 {
      BindMeaning(a[3], false);
      BindMeaning(a[5], false);
    }
  }

  lemma ExpectId(a: seq<string>, k: nat, action: string)
    requires (k == 6 && action == "update") || (k == 7 && action == "delete")
    ensures Expect(Rules, k, a) ==
      if |a| == 7 && a[0] == "" && a[1] == "api" && a[2] == "widgets" && SlugOk(NonEmptyWhenLast, a[3], false) &&
         a[4] == "parts" && IdOf(NonNegative, a[5]).Some? && a[6] == action
      then Some([Str(a[3]), Int(IdOf(NonNegative, a[5]).value)]) else None
  {
    assert Rules.apiSlug == NonEmptyWhenLast && Rules.id == NonNegative;
  }

  lemma MatchSite(path: string, k: nat)
    requires 8 <= k <= 10
    ensures PlusMatcher()(path, Cases[k].pattern) == Expect(Rules, k, Split(path, '/'))
  {
    if k == 8 { MatchWidget(path); } else { MatchWidgetSub(path, k); }
  }

  lemma MatchWidget(path: string)
    ensures PlusMatcher()(path, Cases[8].pattern) == Expect(Rules, 8, Split(path, '/'))
  {
    var a := Split(path, '/');
    ScanCase(path, 8);
    SplitSite(8);
    LitParam(a, Specs(Parts(8), Cases[8].pattern.1), Binder(), "", Wild(StrVar, true));
    if |a| == 2 { BindMeaning(a[1], true); }
  }

  lemma MatchWidgetSub(path: string, k: nat)
    requires k == 9 || k == 10
    ensures PlusMatcher()(path, Cases[k].pattern) == Expect(Rules, k, Split(path, '/'))
  {
    if k == 9 { MatchWidgetAction(path, 9, "admin"); } else { MatchWidgetAction(path, 10, "image"); }
  }

  lemma MatchWidgetAction(path: string, k: nat, action: string)
    requires (k == 9 && action == "admin") || (k == 10 && action == "image")
    ensures PlusMatcher()(path, Cases[k].pattern) == Expect(Rules, k, Split(path, '/'))
  {
    var a := Split(path, '/');
    ScanWidgetAction(path, k, action);
    WidgetSubSegs(a, action);
    ExpectWidgetAction(a, k, action);
  }

  lemma ScanWidgetAction(path: string, k: nat, action: string)
    requires (k == 9 && action == "admin") || (k == 10 && action == "image")
    ensures PlusMatcher()(path, Cases[k].pattern) == MatchSegs(Split(path, '/'), [Lit(""), Param(Wild(StrVar, false)), Lit(action)], Binder())
  {
    ScanCase(path, k);
    SplitSite(k);
  }

  lemma ExpectWidgetAction(a: seq<string>, k: nat, action: string)
    requires (k == 9 && action == "admin") || (k == 10 && action == "image")
    ensures Expect(Rules, k, a) ==
      if |a| == 3 && a[0] == "" && SlugOk(NonEmptyWhenLast, a[1], false) && a[2] == action then Some([Str(a[1])]) else None
  {
    assert Rules.siteSlug == NonEmptyWhenLast;
  }

  lemma WidgetSubSegs(a: seq<string>, action: string)
    ensures MatchSegs(a, [Lit(""), Param(Wild(StrVar, false)), Lit(action)], Binder()) ==
      if |a| == 3 && a[0] == "" && SlugOk(NonEmptyWhenLast, a[1], false) && a[2] == action then Some([Str(a[1])]) else None
  {
    LitParamLit(a, [Lit(""), Param(Wild(StrVar, false)), Lit(action)], Binder(), "", Wild(StrVar, false), action);
    if |a| == 3 {
      BindMeaning(a[1], false);
    }
  }

  lemma CasesAgree(path: string)
    ensures SameCases(Cases, PlusMatcher(), path, Routes(Rules), ExpectMatcher(Rules), Split(path, '/'))
  {
    forall i | 0 <= i < 11
      ensures PlusMatcher()(path, Cases[i].pattern) == ExpectMatcher(Rules)(Split(path, '/'), Routes(Rules)[i].pattern)
      ensures Cases[i].test == Routes(Rules)[i].test && Cases[i].allowed == Routes(Rules)[i].allowed && Cases[i].name == Routes(Rules)[i].name
    {
      assert Routes(Rules)[i] == Case(i, RouteTest(Rules, i), RouteAllowed(Rules, i), RouteName(i));
      if i <= 3 { MatchFixed(path, i); }
      else if i <= 5 { MatchApiSlug(path, i); }
      else if i <= 7 { MatchId(path, i); }
      else { MatchSite(path, i); }
    }
  }

  /** `Serve` is the route table's one decision under the match router's rules, for every method and path. */
  lemma ServeIsResolve(verb: string, path: string)
    ensures Serve(verb, path) == Resolve(Rules, verb, Split(path, '/'))
  {
    CasesAgree(path);
    DispatchTransfer(Cases, PlusMatcher(), path, Routes(Rules), ExpectMatcher(Rules), Split(path, '/'), verb);
    RoutesAreResolve(Rules, verb, Split(path, '/'));
  }
}
