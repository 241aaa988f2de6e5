/**
 * The `strings.Split`-based `match(path, pattern, vars...)` of routematch and
 * main.go: both strings are split on '/', the part counts must agree, "%s"
 * binds a path part to a string, "%d" binds a part that Atoi accepts with a
 * value above zero, and every other pattern part must equal its path part.
 * The two copies differ in one rule: only routematch rejects an empty "%s".
 */
module SplitMatch {
  import opened Wrappers
  import opened Strings
  import opened Strconv
  import opened Segments
  import opened Http

  /** How a pattern part is read: "%s" and "%d" are placeholders, anything else is literal text. */
  function CompilePart(part: string): Seg<Kind>
  {
    if part == "%s" then Param(StrVar) else if part == "%d" then Param(IntVar) else Lit(part)
  }

  /** The pattern split on '/', each part read as a segment. */
  function Compile(pattern: string): seq<Seg<Kind>>
  {
    var parts := Split(pattern, '/');
    seq(|parts|, i requires 0 <= i < |parts| => CompilePart(parts[i]))
  }

  /** One placeholder binding; `strictSlug` is routematch's `if pathPart == "" { return false }`. */
  function Bind(strictSlug: bool, part: string, kind: Kind): Option<Value>
  {
    match kind
    case StrVar => if strictSlug && part == "" then None else Some(Str(part))
    case IntVar =>
      var n := Atoi(part);
      if n.None? || n.value <= 0 then None else Some(Int(n.value))
  }

  /** The rule one path part must meet against one pattern part, in the source's own terms. */
  predicate PartOk(strictSlug: bool, pathPart: string, patternPart: string)
  {
    if patternPart == "%s" then !(strictSlug && pathPart == "")
    else if patternPart == "%d" then Atoi(pathPart).Some? && Atoi(pathPart).value > 0
    else pathPart == patternPart
  }

  function Binder(strictSlug: bool): (string, Kind) -> Option<Value>
  {
    (part, kind) => Bind(strictSlug, part, kind)
  }

  /** Accepting a part against a compiled pattern part is exactly `PartOk`. */
  lemma AcceptsIsPartOk(strictSlug: bool, pathPart: string, patternPart: string)
    ensures Accepts(pathPart, CompilePart(patternPart), Binder(strictSlug)) <==> PartOk(strictSlug, pathPart, patternPart)
  {
  }

  /** `match(path, pattern, vars...)`: on success, the values written to `vars`, in order. */
  function Match(path: string, pattern: string, strictSlug: bool): Option<seq<Value>>
  {
    MatchSegs(Split(path, '/'), Compile(pattern), Binder(strictSlug))
  }

  /**
   * `match` fails when path and pattern have different part counts, and
   * otherwise succeeds exactly when every path part meets its pattern part,
   * binding one value per placeholder.
   */
  lemma MatchPartwise(path: string, pattern: string, strictSlug: bool)
    ensures |Split(path, '/')| != |Split(pattern, '/')| ==> Match(path, pattern, strictSlug).None?
    ensures Match(path, pattern, strictSlug).Some? <==>
      |Split(path, '/')| == |Split(pattern, '/')| &&
      forall i :: 0 <= i < |Split(path, '/')| ==> PartOk(strictSlug, Split(path, '/')[i], Split(pattern, '/')[i])
    ensures Match(path, pattern, strictSlug).Some? ==>
      |Match(path, pattern, strictSlug).value| == ParamsBetween(Compile(pattern), 0, |Compile(pattern)|)
  {
    var a := Split(path, '/');
    var b := Split(pattern, '/');
    var specs := Compile(pattern);
    MatchSegsAccepts(a, specs, Binder(strictSlug));
    forall i | 0 <= i < |a| && i < |b|
      ensures Accepts(a[i], specs[i], Binder(strictSlug)) <==> PartOk(strictSlug, a[i], b[i])
    {
      AcceptsIsPartOk(strictSlug, a[i], b[i]);
    }
  }

  /** On success the value at placeholder index `ParamsBetween(.., 0, j)` is the binding of path part `j`. */
  lemma MatchBindsInOrder(path: string, pattern: string, strictSlug: bool, j: nat)
    requires Match(path, pattern, strictSlug).Some?
    requires j < |Split(pattern, '/')| && Split(pattern, '/')[j] in {"%s", "%d"}
    ensures ParamsBetween(Compile(pattern), 0, j) < |Match(path, pattern, strictSlug).value|
    ensures Bind(strictSlug, Split(path, '/')[j], Compile(pattern)[j].tag) ==
      Some(Match(path, pattern, strictSlug).value[ParamsBetween(Compile(pattern), 0, j)])
  {
    MatchSegsBindings(Split(path, '/'), Compile(pattern), Binder(strictSlug), j);
  }
}

/**
 * What `match` does with each pattern of the route table, in the terms of
 * the route table's one decision: every pattern matches exactly the paths
 * `Shape.Expect` gives it, binding the same values.
 */
module SplitMatchRoutes {
  import opened Wrappers
  import opened Strings
  import opened Strconv
  import opened Segments
  import opened SegmentForms
  import opened Http
  import opened Shape
  import opened SplitMatch

  /** The slug rule a copy of `match` implements: routematch's is strict, main.go's accepts "". */
  function SlugRuleOf(strictSlug: bool): SlugRule
  {
    if strictSlug then NonEmpty else AnySlug
  }

  /** `policy` states the rules of this copy of `match`. */
  predicate Implements(strictSlug: bool, policy: Policy)
  {
    policy.apiSlug == SlugRuleOf(strictSlug) && policy.siteSlug == SlugRuleOf(strictSlug) && policy.id == Positive
  }

  /** A "%s" binding is a slug under the copy's rule, a "%d" binding an id under `Positive`. */
  lemma BindMeaning(strictSlug: bool, policy: Policy, x: string)
    requires Implements(strictSlug, policy)
    ensures forall last: bool :: Binder(strictSlug)(x, StrVar) == if SlugOk(policy.apiSlug, x, last) then Some(Str(x)) else None
    ensures forall last: bool :: Binder(strictSlug)(x, StrVar) == if SlugOk(policy.siteSlug, x, last) then Some(Str(x)) else None
    ensures Binder(strictSlug)(x, IntVar) == if IdOf(policy.id, x).Some? then Some(Int(IdOf(policy.id, x).value)) else None
  {
  }

  lemma {:induction false} CompiledAs(pattern: string, parts: seq<string>)
    requires |parts| >= 1 && forall i :: 0 <= i < |parts| ==> '/' !in parts[i]
    requires pattern == Join(parts, "/")
    ensures |Compile(pattern)| == |parts|
    ensures forall i :: 0 <= i < |parts| ==> Compile(pattern)[i] == CompilePart(parts[i])
  {
    SplitJoin(parts, '/');
  }

  /** The compiled form of the pattern of case `k` of the switch, `Shape`'s numbering. */
  predicate CaseForm(k: nat, s: seq<Seg<Kind>>)
  {
    if k == 0 then |s| == 2 && s[0] == Lit("") && s[1] == Lit("")
    else if k == 1 then |s| == 2 && s[0] == Lit("") && s[1] == Lit("contact")
    else if k == 2 || k == 3 then |s| == 3 && s[0] == Lit("") && s[1] == Lit("api") && s[2] == Lit("widgets")
    else if k == 4 then |s| == 4 && s[0] == Lit("") && s[1] == Lit("api") && s[2] == Lit("widgets") && s[3] == Param(StrVar)
    else if k == 5 then
      |s| == 5 && s[0] == Lit("") && s[1] == Lit("api") && s[2] == Lit("widgets") && s[3] == Param(StrVar) && s[4] == Lit("parts")
    else if k == 6 || k == 7 then
      |s| == 7 && s[0] == Lit("") && s[1] == Lit("api") && s[2] == Lit("widgets") && s[3] == Param(StrVar) &&
      s[4] == Lit("parts") && s[5] == Param(IntVar) && s[6] == Lit(if k == 6 then "update" else "delete")
    else if k == 8 then |s| == 2 && s[0] == Lit("") && s[1] == Param(StrVar)
    else if k == 9 || k == 10 then |s| == 3 && s[0] == Lit("") && s[1] == Param(StrVar) && s[2] == Lit(if k == 9 then "admin" else "image")
    else false
  }

  lemma MatchCaseFixed(path: string, pattern: string, strictSlug: bool, policy: Policy, k: nat)
    requires Implements(strictSlug, policy) && k <= 3 && CaseForm(k, Compile(pattern))
    ensures Match(path, pattern, strictSlug) == Expect(policy, k, Split(path, '/'))
  {
    var a := Split(path, '/');
    var s := Compile(pattern);
    if k == 0 {
      LitLit(a, s, Binder(strictSlug), "", "");
    } else if k == 1 {
      LitLit(a, s, Binder(strictSlug), "", "contact");
    } else {
      LitLitLit(a, s, Binder(strictSlug), "", "api", "widgets");
    }
  }

  lemma MatchCaseApiSlug(path: string, pattern: string, strictSlug: bool, policy: Policy, k: nat)
    requires Implements(strictSlug, policy) && (k == 4 || k == 5) && CaseForm(k, Compile(pattern))
    ensures Match(path, pattern, strictSlug) == Expect(policy, k, Split(path, '/'))
  {
    var a := Split(path, '/');
    var s := Compile(pattern);
    if k == 4 {
      Lit3Param(a, s, Binder(strictSlug), "", "api", "widgets", StrVar);
      if |a| == 4 { BindMeaning(strictSlug, policy, a[3]); }
    } else {
      Lit3ParamLit(a, s, Binder(strictSlug), "", "api", "widgets", StrVar, "parts");
      if |a| == 5 { BindMeaning(strictSlug, policy, a[3]); }
    }
  }

  lemma MatchCaseId(path: string, pattern: string, strictSlug: bool, policy: Policy, k: nat)
    requires Implements(strictSlug, policy) && (k == 6 || k == 7) && CaseForm(k, Compile(pattern))
    ensures Match(path, pattern, strictSlug) == Expect(policy, k, Split(path, '/'))
  {
    var a := Split(path, '/');
    var s := Compile(pattern);
    Lit3ParamLitParamLit(a, s, Binder(strictSlug), "", "api", "widgets", StrVar, "parts", IntVar,
                         if k == 6 then "update" else "delete");
    if |a| == 7 { BindMeaning(strictSlug, policy, a[3]); BindMeaning(strictSlug, policy, a[5]); }
  }

  lemma MatchCaseSite(path: string, pattern: string, strictSlug: bool, policy: Policy, k: nat)
    requires Implements(strictSlug, policy) && 8 <= k <= 10 && CaseForm(k, Compile(pattern))
    ensures Match(path, pattern, strictSlug) == Expect(policy, k, Split(path, '/'))
  {
    var a := Split(path, '/');
    var s := Compile(pattern);
    if k == 8 {
      LitParam(a, s, Binder(strictSlug), "", StrVar);
      if |a| == 2 { BindMeaning(strictSlug, policy, a[1]); }
    } else {
      LitParamLit(a, s, Binder(strictSlug), "", StrVar, if k == 9 then "admin" else "image");
      if |a| == 3 { BindMeaning(strictSlug, policy, a[1]); }
    }
  }

  /** Whatever pattern text compiles to case `k`'s form, `match` on it binds exactly what `Expect` says. */
  lemma MatchCase(path: string, pattern: string, strictSlug: bool, policy: Policy, k: nat)
    requires Implements(strictSlug, policy) && k < 11 && CaseForm(k, Compile(pattern))
    ensures Match(path, pattern, strictSlug) == Expect(policy, k, Split(path, '/'))
  {
    if k <= 3 {
      MatchCaseFixed(path, pattern, strictSlug, policy, k);
    } else if k <= 5 {
      MatchCaseApiSlug(path, pattern, strictSlug, policy, k);
    } else if k <= 7 {
      MatchCaseId(path, pattern, strictSlug, policy, k);
    } else {
      MatchCaseSite(path, pattern, strictSlug, policy, k);
    }
  }

  lemma PatternHome()
    ensures CaseForm(0, Compile("/"))
  {
    assert ["", ""][1..] == [""];
    assert Join(["", ""], "/") == "/";
    CompiledAs("/", ["", ""]);
  }

  lemma PatternContact()
    ensures CaseForm(1, Compile("/contact"))
  {
    assert ["", "contact"][1..] == ["contact"];
    assert Join(["", "contact"], "/") == "/contact";
    CompiledAs("/contact", ["", "contact"]);
  }

  lemma PatternWidgets()
    ensures CaseForm(2, Compile("/api/widgets"))
  {
    assert ["", "api", "widgets"][1..] == ["api", "widgets"];
    assert ["api", "widgets"][1..] == ["widgets"];
    assert Join(["", "api", "widgets"], "/") == "/api/widgets";
    CompiledAs("/api/widgets", ["", "api", "widgets"]);
  }

  lemma PatternWidgetUpdate()
    ensures CaseForm(4, Compile("/api/widgets/%s"))
  {
    assert ["", "api", "widgets", "%s"][1..] == ["api", "widgets", "%s"];
    assert ["api", "widgets", "%s"][1..] == ["widgets", "%s"];
    assert ["widgets", "%s"][1..] == ["%s"];
    assert Join(["", "api", "widgets", "%s"], "/") == "/api/widgets/%s";
    CompiledAs("/api/widgets/%s", ["", "api", "widgets", "%s"]);
  }

  lemma PatternWidgetParts()
    ensures CaseForm(5, Compile("/api/widgets/%s/parts"))
  {
    assert ["", "api", "widgets", "%s", "parts"][1..] == ["api", "widgets", "%s", "parts"];
    assert ["api", "widgets", "%s", "parts"][1..] == ["widgets", "%s", "parts"];
    assert ["widgets", "%s", "parts"][1..] == ["%s", "parts"];
    assert ["%s", "parts"][1..] == ["parts"];
    assert Join(["", "api", "widgets", "%s", "parts"], "/") == "/api/widgets/%s/parts";
    CompiledAs("/api/widgets/%s/parts", ["", "api", "widgets", "%s", "parts"]);
  }

  lemma JoinPartUpdate()
    ensures Join(["", "api", "widgets", "%s", "parts", "%d", "update"], "/") == "/api/widgets/%s/parts/%d/update"
  {
    JoinIdPattern("update");
  }

  lemma PatternPartUpdate()
    ensures CaseForm(6, Compile("/api/widgets/%s/parts/%d/update"))
  {
    var parts := ["", "api", "widgets", "%s", "parts", "%d", "update"];
    JoinPartUpdate();
    CompiledAs("/api/widgets/%s/parts/%d/update", parts);
  }

  lemma JoinPartDelete()
    ensures Join(["", "api", "widgets", "%s", "parts", "%d", "delete"], "/") == "/api/widgets/%s/parts/%d/delete"
  {
    JoinIdPattern("delete");
  }

  lemma PatternPartDelete()
    ensures CaseForm(7, Compile("/api/widgets/%s/parts/%d/delete"))
  {
    var parts := ["", "api", "widgets", "%s", "parts", "%d", "delete"];
    JoinPartDelete();
    CompiledAs("/api/widgets/%s/parts/%d/delete", parts);
  }

  /** The id patterns, joined, for any final action. */
  lemma JoinIdPattern(last: string)
    ensures Join(["", "api", "widgets", "%s", "parts", "%d", last], "/") == "/api/widgets/%s/parts/%d/" + last
  {
    var ps := ["", "api", "widgets", "%s", "parts", "%d", last];
    JoinCons("%d", [last], "/");
    assert ps[5..] == ["%d"] + [last];
    JoinCons("parts", ps[5..], "/");
    assert ps[4..] == ["parts"] + ps[5..];
    JoinCons("%s", ps[4..], "/");
    assert ps[3..] == ["%s"] + ps[4..];
    JoinCons("widgets", ps[3..], "/");
    assert ps[2..] == ["widgets"] + ps[3..];
    JoinCons("api", ps[2..], "/");
    assert ps[1..] == ["api"] + ps[2..];
    JoinCons("", ps[1..], "/");
    assert ps == [""] + ps[1..];
  }

  lemma PatternWidget()
    ensures CaseForm(8, Compile("/%s"))
  {
    assert ["", "%s"][1..] == ["%s"];
    assert Join(["", "%s"], "/") == "/%s";
    CompiledAs("/%s", ["", "%s"]);
  }

  lemma PatternWidgetAdmin()
    ensures CaseForm(9, Compile("/%s/admin"))
  {
    assert ["", "%s", "admin"][1..] == ["%s", "admin"];
    assert ["%s", "admin"][1..] == ["admin"];
    assert Join(["", "%s", "admin"], "/") == "/%s/admin";
    CompiledAs("/%s/admin", ["", "%s", "admin"]);
  }

  lemma PatternWidgetImage()
    ensures CaseForm(10, Compile("/%s/image"))
  {
    assert ["", "%s", "image"][1..] == ["%s", "image"];
    assert ["%s", "image"][1..] == ["image"];
    assert Join(["", "%s", "image"], "/") == "/%s/image";
    CompiledAs("/%s/image", ["", "%s", "image"]);
  }

  /** The pattern text of case `k` in the switches of routematch and main.go. */
  function Pattern(k: nat): string
  {
    if k == 0 then "/" else if k == 1 then "/contact"
    else if k <= 3 then "/api/widgets" else if k == 4 then "/api/widgets/%s"
    else if k == 5 then "/api/widgets/%s/parts"
    else if k == 6 then "/api/widgets/%s/parts/%d/update" else if k == 7 then "/api/widgets/%s/parts/%d/delete"
    else if k == 8 then "/%s" else if k == 9 then "/%s/admin" else "/%s/image"
  }

  lemma PatternFormFixed(k: nat)
    requires k <= 3
    ensures CaseForm(k, Compile(Pattern(k)))
  {
    if k == 0 { PatternHome(); }
    else if k == 1 { PatternContact(); }
    else { PatternWidgets(); }
  }

  lemma PatternFormApiSlug(k: nat)
    requires k == 4 || k == 5
    ensures CaseForm(k, Compile(Pattern(k)))
  {
    if k == 4 { PatternWidgetUpdate(); } else { PatternWidgetParts(); }
  }

  lemma PatternFormId(k: nat)
    requires k == 6 || k == 7
    ensures CaseForm(k, Compile(Pattern(k)))
  {
    if k == 6 { PatternPartUpdate(); } else { PatternPartDelete(); }
  }

  lemma PatternFormSite(k: nat)
    requires 8 <= k <= 10
    ensures CaseForm(k, Compile(Pattern(k)))
  {
    if k == 8 { PatternWidget(); }
    else if k == 9 { PatternWidgetAdmin(); }
    else { PatternWidgetImage(); }
  }

  /** Each of the eleven patterns compiles to its case's form. */
  lemma PatternForm(k: nat)
    requires k < 11
    ensures CaseForm(k, Compile(Pattern(k)))
  {
    if k <= 3 { PatternFormFixed(k); }
    else if k <= 5 { PatternFormApiSlug(k); }
    else if k <= 7 { PatternFormId(k); }
    else { PatternFormSite(k); }
  }

  /** `match(p, pattern_k, ...)` binds exactly what `Expect` gives case `k`, for every path. */
  lemma MatchPattern(path: string, strictSlug: bool, policy: Policy, k: nat)
    requires Implements(strictSlug, policy) && k < 11
    ensures Match(path, Pattern(k), strictSlug) == Expect(policy, k, Split(path, '/'))
  {
    PatternForm(k);
    MatchCase(path, Pattern(k), strictSlug, policy, k);
  }
}
