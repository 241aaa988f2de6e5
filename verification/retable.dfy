/**
 * retable's `Serve`: a table of (method, anchored regex, handler) routes
 * tried in order. The first route whose regex matches the whole path and
 * whose method is the request's runs; every route whose regex matched with
 * another method adds that method to `allow`. After the loop, a non-empty
 * `allow` gives 405, an empty one 404.
 */
module Retable {
  import opened Wrappers
  import opened Strings
  import opened Strconv
  import opened Segments
  import opened Http
  import opened RegexSegs
  import SegmentForms

  /** How a handler reads its fields: none, `getField(r, 0)` as the slug, or also `getField(r, 1)` as the id. */
  datatype Handler = Plain(name: string) | WithSlug(name: string) | WithSlugId(name: string)

  /** The number of fields the handler reads. */
  function Fields(h: Handler): nat
  {
    match h
    case Plain(_) => 0
    case WithSlug(_) => 1
    case WithSlugId(_) => 2
  }

  /**
   * What the handler writes given the captures. The id is
   * `id, _ := strconv.Atoi(getField(r, 1))`: the error is dropped, so the
   * value Atoi returns alongside it is used.
   */
  function Run(h: Handler, fields: seq<string>): string
    requires Fields(h) <= |fields|
  {
    match h
    case Plain(name) => Body(name, [])
    case WithSlug(name) => Body(name, [Str(fields[0])])
    case WithSlugId(name) => Body(name, [Str(fields[0]), Int(AtoiValue(fields[1]))])
  }

  datatype Route = Route(httpMethod: string, re: Regex, handler: Handler)

  /** `routes`, in source order. */
  const Table: seq<Route> := [Home, Contact, WidgetsGet, WidgetsPost, WidgetUpdate, WidgetParts, PartUpdate, PartDelete,
                              Widget, WidgetAdmin, WidgetImage]

  const Home := Route(GET, [Lit(""), Lit("")], Plain("home"))
  const Contact := Route(GET, [Lit(""), Lit("contact")], Plain("contact"))
  const WidgetsGet := Route(GET, [Lit(""), Lit("api"), Lit("widgets")], Plain("apiGetWidgets"))
  const WidgetsPost := Route(POST, [Lit(""), Lit("api"), Lit("widgets")], Plain("apiCreateWidget"))
  const WidgetUpdate := Route(POST, [Lit(""), Lit("api"), Lit("widgets"), Param(NotSlash)], WithSlug("apiUpdateWidget"))
  const WidgetParts :=
    Route(POST, [Lit(""), Lit("api"), Lit("widgets"), Param(NotSlash), Lit("parts")], WithSlug("apiCreateWidgetPart"))
  const PartUpdate :=
    Route(POST, [Lit(""), Lit("api"), Lit("widgets"), Param(NotSlash), Lit("parts"), Param(Digits), Lit("update")],
          WithSlugId("apiUpdateWidgetPart"))
  const PartDelete :=
    Route(POST, [Lit(""), Lit("api"), Lit("widgets"), Param(NotSlash), Lit("parts"), Param(Digits), Lit("delete")],
          WithSlugId("apiDeleteWidgetPart"))
  const Widget := Route(GET, [Lit(""), Param(NotSlash)], WithSlug("widget"))
  const WidgetAdmin := Route(GET, [Lit(""), Param(NotSlash), Lit("admin")], WithSlug("widgetAdmin"))
  const WidgetImage := Route(POST, [Lit(""), Param(NotSlash), Lit("image")], WithSlug("widgetImage"))

  /** Every handler reads no more fields than its regex has groups (`getField` would panic otherwise). */
  predicate WellFormed(routes: seq<Route>)
  {
    forall i :: 0 <= i < |routes| ==> Fields(routes[i].handler) <= ParamsBetween(routes[i].re, 0, |routes[i].re|)
  }

  predicate Matches(r: Route, path: string)
  {
    FindSubmatch(path, r.re).Some?
  }

  /** The loop from route `i` on, with `allow` collected so far. */
  function ServeFrom(routes: seq<Route>, verb: string, path: string, i: nat, allow: seq<string>): Outcome
    requires WellFormed(routes) && i <= |routes|
    decreases |routes| - i
  {
    if i == |routes| then
      if |allow| > 0 then NotAllowed(allow) else NotFound
    else if !Matches(routes[i], path) then ServeFrom(routes, verb, path, i + 1, allow)
    else if verb != routes[i].httpMethod then ServeFrom(routes, verb, path, i + 1, allow + [routes[i].httpMethod])
    else
      FindSubmatchMeaning(path, routes[i].re);
      Ok(Run(routes[i].handler, FindSubmatch(path, routes[i].re).value))
  }

  /** `Serve(w, r)` for a request with method `verb` and URL path `path`. */
  function Serve(verb: string, path: string): Outcome
  {
    TableWellFormed();
    ServeFrom(Table, verb, path, 0, [])
  }

  /** Every handler of the table reads only groups its regex has. */
  lemma TableWellFormed()
    ensures WellFormed(Table)
  {
    forall i | 0 <= i < |Table| ensures Fields(Table[i].handler) <= ParamsBetween(Table[i].re, 0, |Table[i].re|) {
      var re := Table[i].re;
      if i == 6 || i == 7 {
        assert ParamsBetween(re, 5, 7) == 1;
        assert ParamsBetween(re, 3, 7) == 2;
      } else if 4 <= i {
        assert ParamsBetween(re, |re| - 2, |re|) >= 1 || ParamsBetween(re, 3, |re|) >= 1;
      }
    }
  }

  /** The methods of the routes among the first `j` whose regex matches `path`, in table order, repeats kept. */
  function AllowList(routes: seq<Route>, path: string, j: nat): seq<string>
    requires j <= |routes|
  {
    if j == 0 then []
    else AllowList(routes, path, j - 1) + (if Matches(routes[j - 1], path) then [routes[j - 1].httpMethod] else [])
  }

  /** Route `j` is the one that runs: it matches with the request's method, and no earlier route does. */
  predicate RunsFirst(routes: seq<Route>, verb: string, path: string, j: nat)
  {
    j < |routes| && Matches(routes[j], path) && routes[j].httpMethod == verb &&
    forall k :: 0 <= k < j ==> !(Matches(routes[k], path) && routes[k].httpMethod == verb)
  }

  /**
   * The reference behaviour: the first route matching with the request's
   * method runs; failing that, 405 with the methods of all matching routes,
   * or 404 when none matched.
   */
  ghost function Expected(routes: seq<Route>, verb: string, path: string): Outcome
    requires WellFormed(routes)
  {
    if exists j: nat :: RunsFirst(routes, verb, path, j) then
      var j: nat :| RunsFirst(routes, verb, path, j);
      FindSubmatchMeaning(path, routes[j].re);
      Ok(Run(routes[j].handler, FindSubmatch(path, routes[j].re).value))
    else if |AllowList(routes, path, |routes|)| > 0 then NotAllowed(AllowList(routes, path, |routes|))
    else NotFound
  }

  /** At most one route runs first. */
  lemma RunsFirstUnique(routes: seq<Route>, verb: string, path: string, j1: nat, j2: nat)
    requires RunsFirst(routes, verb, path, j1) && RunsFirst(routes, verb, path, j2)
    ensures j1 == j2
  {
  }

  /**
   * From route `i` on, with `allow` the methods collected from the first `i`
   * routes and none of them running, the loop gives the reference outcome.
   */
  lemma {:induction false} ServeFromExpected(routes: seq<Route>, verb: string, path: string, i: nat)
    requires WellFormed(routes) && i <= |routes|
    requires forall k :: 0 <= k < i ==> !(Matches(routes[k], path) && routes[k].httpMethod == verb)
    ensures ServeFrom(routes, verb, path, i, AllowList(routes, path, i)) == Expected(routes, verb, path)
    decreases |routes| - i
  {
    if i == |routes| {
      assert !exists j :: RunsFirst(routes, verb, path, j);
    } else if !Matches(routes[i], path) {
      assert AllowList(routes, path, i) + [] == AllowList(routes, path, i);
      ServeFromExpected(routes, verb, path, i + 1);
    } else if verb != routes[i].httpMethod {
      ServeFromExpected(routes, verb, path, i + 1);
    } else {
      assert RunsFirst(routes, verb, path, i);
      var j :| RunsFirst(routes, verb, path, j);
      RunsFirstUnique(routes, verb, path, i, j);
    }
  }

  /** The route-table loop is the reference behaviour, for every table, method and path. */
  lemma ServeExpected(verb: string, path: string)
    ensures WellFormed(Table) && Serve(verb, path) == Expected(Table, verb, path)
  {
    TableWellFormed();
    ServeFromExpected(Table, verb, path, 0);
  }

  /** `Serve` as the source writes it: a `for` loop that appends to `allow`, `continue`s and `return`s. */
  method ServeLoop(routes: seq<Route>, verb: string, path: string) returns (o: Outcome)
    requires WellFormed(routes)
    ensures o == Expected(routes, verb, path)
  {
    var allow: seq<string> := [];
    var i := 0;
    while i < |routes|
      invariant 0 <= i <= |routes|
      invariant allow == AllowList(routes, path, i)
      invariant forall k :: 0 <= k < i ==> !(Matches(routes[k], path) && routes[k].httpMethod == verb)
    {
      var matches := FindSubmatch(path, routes[i].re);
      if matches.Some? {
        if verb != routes[i].httpMethod {
          allow := allow + [routes[i].httpMethod];
          i := i + 1;
          continue;
        }
        FindSubmatchMeaning(path, routes[i].re);
        o := Ok(Run(routes[i].handler, matches.value));
        ServeFromExpected(routes, verb, path, i);
        return;
      }
      i := i + 1;
    }
    if |allow| > 0 {
      o := NotAllowed(allow);
    } else {
      o := NotFound;
    }
    ServeFromExpected(routes, verb, path, i);
  }

  /** When no route from `i` on matches, the loop ends with what `allow` holds. */
  lemma {:induction false} NoneMatchFrom(routes: seq<Route>, verb: string, path: string, i: nat, allow: seq<string>)
    requires WellFormed(routes) && i <= |routes|
    requires forall k :: i <= k < |routes| ==> !Matches(routes[k], path)
    ensures ServeFrom(routes, verb, path, i, allow) == if |allow| > 0 then NotAllowed(allow) else NotFound
    decreases |routes| - i
  {
    if i < |routes| {
      NoneMatchFrom(routes, verb, path, i + 1, allow);
    }
  }

  /** Routes `i` to `j` that do not match are passed over without touching `allow`. */
  lemma {:induction false} SkipTo(routes: seq<Route>, verb: string, path: string, i: nat, j: nat, allow: seq<string>)
    requires WellFormed(routes) && i <= j <= |routes|
    requires forall k :: i <= k < j ==> !Matches(routes[k], path)
    ensures ServeFrom(routes, verb, path, i, allow) == ServeFrom(routes, verb, path, j, allow)
    decreases j - i
  {
    if i < j {
      SkipTo(routes, verb, path, i + 1, j, allow);
    }
  }

  /** Whether route `k` matches, in terms of the path's parts. */
  lemma TableMatches(path: string)
    ensures forall k :: 0 <= k < |Table| ==>
      (Matches(Table[k], path) <==>
         |Split(path, '/')| == |Table[k].re| &&
         forall i :: 0 <= i < |Table[k].re| ==> Accepts(Split(path, '/')[i], Table[k].re[i], Capturer()))
  {
    forall k | 0 <= k < |Table| {
      FindSubmatchMeaning(path, Table[k].re);
    }
  }

  /**
   * A path other than "/" that ends in "/" matches no route: every regex is
   * anchored at the end and its last segment is a non-empty literal or group.
   */
  lemma TrailingSlashNotFound(verb: string, path: string)
    requires |Split(path, '/')| >= 3 && Split(path, '/')[|Split(path, '/')| - 1] == ""
    ensures Serve(verb, path) == NotFound
  {
    TableWellFormed();
    TableMatches(path);
    var a := Split(path, '/');
    forall k | 0 <= k < |Table| ensures !Matches(Table[k], path) {
      if |Table[k].re| == |a| {
        assert !Accepts(a[|a| - 1], Table[k].re[|a| - 1], Capturer());
      }
    }
    NoneMatchFrom(Table, verb, path, 0, []);
  }

  /** Only exact method names are compared: `PUT /api/widgets` matches the GET and the POST route and gets both. */
  lemma WidgetsOtherMethod(verb: string, path: string)
    requires Split(path, '/') == ["", "api", "widgets"] && verb != GET && verb != POST
    ensures Serve(verb, path) == NotAllowed([GET, POST])
  {
    TableWellFormed();
    TableMatches(path);
    assert !Matches(Table[0], path) && !Matches(Table[1], path);
    assert Matches(Table[2], path) && Matches(Table[3], path);
    SkipTo(Table, verb, path, 0, 2, []);
    var none: seq<string> := [];
    assert none + [GET] == [GET];
    assert ServeFrom(Table, verb, path, 2, []) == ServeFrom(Table, verb, path, 3, [GET]);
    assert [GET] + [POST] == [GET, POST];
    assert ServeFrom(Table, verb, path, 3, [GET]) == ServeFrom(Table, verb, path, 4, [GET, POST]);
    NoneMatchFrom(Table, verb, path, 4, [GET, POST]);
  }

  /** `PUT /api/widgets` gives 405 with `Allow: GET, POST`. */
  lemma PutWidgets()
    ensures Serve("PUT", "/api/widgets") == NotAllowed([GET, POST])
  {
    SplitWidgets();
    WidgetsOtherMethod("PUT", "/api/widgets");
  }

  /**
   * `allow` is not deduplicated: "/contact" matches both the contact route
   * and the widget route, so a POST is told `Allow: GET, GET`.
   */
  lemma ContactOtherMethod(verb: string, path: string)
    requires Split(path, '/') == ["", "contact"] && verb != GET
    ensures Serve(verb, path) == NotAllowed([GET, GET])
  {
    TableWellFormed();
    ContactMatches(path);
    var none: seq<string> := [];
    assert none + [GET] == [GET];
    assert ServeFrom(Table, verb, path, 0, []) == ServeFrom(Table, verb, path, 1, []);
    assert ServeFrom(Table, verb, path, 1, []) == ServeFrom(Table, verb, path, 2, [GET]);
    ContactAfterFirst(verb, path);
  }

  /** After the contact route, "/contact" meets only the widget route, which adds a second GET. */
  lemma ContactAfterFirst(verb: string, path: string)
    requires Split(path, '/') == ["", "contact"] && verb != GET
    ensures WellFormed(Table)
    ensures ServeFrom(Table, verb, path, 2, [GET]) == NotAllowed([GET, GET])
  {
    TableWellFormed();
    ContactMatches(path);
    assert [GET] + [GET] == [GET, GET];
    assert ServeFrom(Table, verb, path, 2, [GET]) == ServeFrom(Table, verb, path, 4, [GET]);
    assert ServeFrom(Table, verb, path, 4, [GET]) == ServeFrom(Table, verb, path, 6, [GET]);
    assert ServeFrom(Table, verb, path, 6, [GET]) == ServeFrom(Table, verb, path, 8, [GET]);
    assert ServeFrom(Table, verb, path, 8, [GET]) == ServeFrom(Table, verb, path, 9, [GET, GET]);
    assert ServeFrom(Table, verb, path, 9, [GET, GET]) == ServeFrom(Table, verb, path, 11, [GET, GET]);
  }

  /** "/contact" matches the contact route and the widget route, and no other. */
  lemma ContactMatches(path: string)
    requires Split(path, '/') == ["", "contact"]
    ensures Matches(Contact, path) && Matches(Widget, path)
    ensures !Matches(Home, path) && !Matches(WidgetsGet, path) && !Matches(WidgetsPost, path)
    ensures !Matches(WidgetUpdate, path) && !Matches(WidgetParts, path)
    ensures !Matches(PartUpdate, path) && !Matches(PartDelete, path)
    ensures !Matches(WidgetAdmin, path) && !Matches(WidgetImage, path)
  {
    var a := Split(path, '/');
    FindSubmatchMeaning(path, Home.re);
    assert !Accepts(a[1], Home.re[1], Capturer());
    FindSubmatchMeaning(path, Contact.re);
    FindSubmatchMeaning(path, Widget.re);
    LengthMismatch(path, WidgetsGet);
    LengthMismatch(path, WidgetsPost);
    LengthMismatch(path, WidgetUpdate);
    LengthMismatch(path, WidgetParts);
    LengthMismatch(path, PartUpdate);
    LengthMismatch(path, PartDelete);
    LengthMismatch(path, WidgetAdmin);
    LengthMismatch(path, WidgetImage);
  }

  /** A route whose regex has another number of segments than the path has parts does not match. */
  lemma LengthMismatch(path: string, r: Route)
    requires |Split(path, '/')| != |r.re|
    ensures !Matches(r, path)
  {
    FindSubmatchMeaning(path, r.re);
  }

  lemma SplitContact()
    ensures Split("/contact", '/') == ["", "contact"]
  {
    assert Join(["", "contact"], "/") == "/contact";
    SplitJoin(["", "contact"], '/');
  }

  lemma SplitWidgets()
    ensures Split("/api/widgets", '/') == ["", "api", "widgets"]
  {
    assert Join(["", "api", "widgets"], "/") == "/api/widgets";
    SplitJoin(["", "api", "widgets"], '/');
  }

  /** `POST /contact` gives 405 with `Allow: GET, GET`. */
  lemma PostContact()
    ensures Serve(POST, "/contact") == NotAllowed([GET, GET])
  {
    SplitContact();
    ContactOtherMethod(POST, "/contact");
  }

  /** There is no HEAD alias: HEAD on "/" gives 405 with `Allow: GET`. */
  lemma HeadHome(path: string)
    requires Split(path, '/') == ["", ""]
    ensures Serve(HEAD, path) == NotAllowed([GET])
  {
    TableWellFormed();
    TableMatches(path);
    assert Matches(Table[0], path);
    forall k | 1 <= k < |Table| ensures !Matches(Table[k], path) {
      if k == 1 || k == 8 {
        assert !Accepts(Split(path, '/')[1], Table[k].re[1], Capturer());
      } else {
        assert |Table[k].re| != 2;
      }
    }
    var none: seq<string> := [];
    assert none + [GET] == [GET];
    assert ServeFrom(Table, HEAD, path, 0, []) == ServeFrom(Table, HEAD, path, 1, [GET]);
    NoneMatchFrom(Table, HEAD, path, 1, [GET]);
  }

  /**
   * An id of digits too large for an int64 still matches `([0-9]+)`; the
   * handler drops Atoi's range error and uses the clamped value Atoi returns.
   */
  lemma OverflowIdClamped(path: string, slug: string, id: string)
    requires Split(path, '/') == ["", "api", "widgets", slug, "parts", id, "update"]
    requires slug != "" && 0 < |id| && AllDigits(id) && DigitsValue(id) > Int64Max
    ensures Serve(POST, path) == Ok(Body("apiUpdateWidgetPart", [Str(slug), Int(Int64Max)]))
  {
    TableWellFormed();
    var a := Split(path, '/');
    forall k | 0 <= k < 6 ensures !Matches(Table[k], path) {
      FindSubmatchMeaning(path, Table[k].re);
      assert |Table[k].re| != 7;
    }
    SkipTo(Table, POST, path, 0, 6, []);
    SegmentForms.Lit3ParamLitParamLit(a, Table[6].re, Capturer(), "", "api", "widgets", NotSlash, "parts", Digits, "update");
    assert FindSubmatch(path, Table[6].re) == Some([slug, id]);
    assert Numeral(id) && NumeralValue(id) == DigitsValue(id);
    assert AtoiValue(id) == Int64Max;
  }
}
