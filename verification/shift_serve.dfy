/**
 * shiftpath's router: each level shifts the first name off the cleaned
 * path and switches on it, handing the rest of the path to the next level.
 * `Tree(false, ...)` is the code as written; `Tree(true, ...)` also demands
 * that nothing follows the last name of a route (see `ServeFixed`).
 */
module ShiftServe {
  import opened Wrappers
  import opened Strings
  import opened Strconv
  import opened Http
  import opened Switch
  import opened Shape
  import opened CleanPath

  /** `allowMethod(h, methods...)` around a handler whose outcome may itself be 404. */
  function Guard(methods: seq<string>, verb: string, inner: Outcome): (r: Outcome)
    ensures verb in methods ==> r == inner
    ensures verb !in methods ==> r == NotAllowed(methods)
    ensures inner.Ok? ==> r == AllowMethod(methods, verb, inner.body)
  {
    if Admits(methods, verb, 0) then inner else NotAllowed(methods)
  }

  /** The request path ends in '/' and is not the root. */
  predicate TrailingSlash(path: string)
  {
    path != "/" && 0 < |path| && path[|path| - 1] == '/'
  }

  /** With `exact`, the route ends here only if no name is left after `tail`. */
  predicate Done(exact: bool, tail: string)
  {
    !exact || ShiftPath(tail).0 == ""
  }

  /** `Serve`: 404 for a trailing slash, then the switch on the first name. */
  function Tree(exact: bool, verb: string, path: string): (r: Outcome)
    ensures TrailingSlash(path) ==> r == NotFound
  {
    if TrailingSlash(path) then NotFound
    else
      var (head, tail) := ShiftPath(path);
      if head == "" then Guard(GetOrHead, verb, Ok(Body("home", [])))
      else if head == "api" then Api(exact, verb, tail)
      else if head == "contact" then Guard(GetOrHead, verb, Contact(tail))
      else WidgetRoot(exact, head, verb, tail)
  }

  /** `contact`: 404 when any name follows. */
  function Contact(path: string): Outcome
  {
    if ShiftPath(path).0 != "" then NotFound else Ok(Body("contact", []))
  }

  /** `api`: only "widgets" may follow. */
  function Api(exact: bool, verb: string, path: string): Outcome
  {
    var (head, tail) := ShiftPath(path);
    if head == "widgets" then ApiWidgets(exact, verb, tail) else NotFound
  }

  /** `apiWidgets`: GET reaches apiGetWidgets unguarded; every other method goes through `post`. */
  function ApiWidgets(exact: bool, verb: string, path: string): Outcome
  {
    var (head, tail) := ShiftPath(path);
    if head == "" then
      if verb == GET then Ok(Body("apiGetWidgets", []))
      else Guard(PostOnly, verb, Ok(Body("apiCreateWidget", [])))
    else ApiWidgetRoot(exact, head, verb, tail)
  }

  /** `apiWidget{slug}.root`. */
  function ApiWidgetRoot(exact: bool, slug: string, verb: string, path: string): Outcome
  {
    var (head, tail) := ShiftPath(path);
    if head == "" then Guard(PostOnly, verb, Ok(Body("apiUpdateWidget", [Str(slug)])))
    else if head == "parts" then Parts(exact, slug, verb, tail)
    else NotFound
  }

  /** `apiWidget{slug}.parts`: a name after "parts" must be an id Atoi accepts with a value above zero. */
  function Parts(exact: bool, slug: string, verb: string, path: string): Outcome
  {
    var (head, tail) := ShiftPath(path);
    if head == "" then Guard(PostOnly, verb, Ok(Body("apiCreateWidgetPart", [Str(slug)])))
    else
      var n := Atoi(head);
      if n.None? || n.value <= 0 then NotFound
      else PartRoot(exact, slug, n.value, verb, tail)
  }

  /** `apiWidgetPart{slug, id}.root`. */
  function PartRoot(exact: bool, slug: string, id: int, verb: string, path: string): Outcome
  {
    var (head, tail) := ShiftPath(path);
    if head == "update" && Done(exact, tail) then
      Guard(PostOnly, verb, Ok(Body("apiUpdateWidgetPart", [Str(slug), Int(id)])))
    else if head == "delete" && Done(exact, tail) then
      Guard(PostOnly, verb, Ok(Body("apiDeleteWidgetPart", [Str(slug), Int(id)])))
    else NotFound
  }

  /** `widget{slug}.root`. */
  function WidgetRoot(exact: bool, slug: string, verb: string, path: string): Outcome
  {
    var (head, tail) := ShiftPath(path);
    if head == "" then Guard(GetOrHead, verb, Ok(Body("widget", [Str(slug)])))
    else if head == "admin" && Done(exact, tail) then Guard(GetOrHead, verb, Ok(Body("widgetAdmin", [Str(slug)])))
    else if head == "image" && Done(exact, tail) then Guard(PostOnly, verb, Ok(Body("widgetImage", [Str(slug)])))
    else NotFound
  }

  /** shiftpath's `Serve` as written. */
  function Serve(verb: string, path: string): Outcome
  {
    Tree(false, verb, path)
  }

  /** `Serve` with every leaf route also requiring that no name follows it. */
  function ServeFixed(verb: string, path: string): Outcome
  {
    Tree(true, verb, path)
  }

  /** The rules shiftpath's routes follow, on the names of the cleaned path. */
  const Rules := Policy(GetOrHead, ExactlyGet, NonEmpty, NonEmpty, Positive, true)

  // The same tree on the names of the cleaned path.

  function Head(st: seq<string>): string
  {
    if |st| == 0 then "" else st[0]
  }

  function Tail(st: seq<string>): seq<string>
  {
    if |st| == 0 then [] else st[1..]
  }

  function PartRootAt(exact: bool, slug: string, id: int, verb: string, st: seq<string>): Outcome
  {
    var done := !exact || Head(Tail(st)) == "";
    if Head(st) == "update" && done then
      Guard(PostOnly, verb, Ok(Body("apiUpdateWidgetPart", [Str(slug), Int(id)])))
    else if Head(st) == "delete" && done then
      Guard(PostOnly, verb, Ok(Body("apiDeleteWidgetPart", [Str(slug), Int(id)])))
    else NotFound
  }

  function PartsAt(exact: bool, slug: string, verb: string, st: seq<string>): Outcome
  {
    if Head(st) == "" then Guard(PostOnly, verb, Ok(Body("apiCreateWidgetPart", [Str(slug)])))
    else
      var n := Atoi(Head(st));
      if n.None? || n.value <= 0 then NotFound
      else PartRootAt(exact, slug, n.value, verb, Tail(st))
  }

  function ApiWidgetRootAt(exact: bool, slug: string, verb: string, st: seq<string>): Outcome
  {
    if Head(st) == "" then Guard(PostOnly, verb, Ok(Body("apiUpdateWidget", [Str(slug)])))
    else if Head(st) == "parts" then PartsAt(exact, slug, verb, Tail(st))
    else NotFound
  }

  function ApiWidgetsAt(exact: bool, verb: string, st: seq<string>): Outcome
  {
    if Head(st) == "" then
      if verb == GET then Ok(Body("apiGetWidgets", []))
      else Guard(PostOnly, verb, Ok(Body("apiCreateWidget", [])))
    else ApiWidgetRootAt(exact, Head(st), verb, Tail(st))
  }

  function WidgetRootAt(exact: bool, slug: string, verb: string, st: seq<string>): Outcome
  {
    var done := !exact || Head(Tail(st)) == "";
    if Head(st) == "" then Guard(GetOrHead, verb, Ok(Body("widget", [Str(slug)])))
    else if Head(st) == "admin" && done then Guard(GetOrHead, verb, Ok(Body("widgetAdmin", [Str(slug)])))
    else if Head(st) == "image" && done then Guard(PostOnly, verb, Ok(Body("widgetImage", [Str(slug)])))
    else NotFound
  }

  function TreeAt(exact: bool, verb: string, st: seq<string>): Outcome
  {
    if Head(st) == "" then Guard(GetOrHead, verb, Ok(Body("home", [])))
    else if Head(st) == "api" then
      if Head(Tail(st)) == "widgets" then ApiWidgetsAt(exact, verb, Tail(Tail(st))) else NotFound
    else if Head(st) == "contact" then
      Guard(GetOrHead, verb, if Head(Tail(st)) != "" then NotFound else Ok(Body("contact", [])))
    else WidgetRootAt(exact, Head(st), verb, Tail(st))
  }

  /** One shift in terms of names: head and the names of the tail. */
  lemma ShiftAt(path: string)
    ensures ShiftPath(path).0 == Head(Segs(path))
    ensures Segs(ShiftPath(path).1) == Tail(Segs(path))
  {
    Shift(path);
  }

  lemma PartRootNames(exact: bool, slug: string, id: int, verb: string, path: string)
    ensures PartRoot(exact, slug, id, verb, path) == PartRootAt(exact, slug, id, verb, Segs(path))
  {
    var (head, tail) := ShiftPath(path);
    var st := Segs(path);
    ShiftAt(path);
    ShiftAt(tail);
    var done := Done(exact, tail);
    assert done == (!exact || Head(Tail(st)) == "");
    assert head == Head(st);
    assert PartRoot(exact, slug, id, verb, path) ==
      if head == "update" && done then Guard(PostOnly, verb, Ok(Body("apiUpdateWidgetPart", [Str(slug), Int(id)])))
      else if head == "delete" && done then Guard(PostOnly, verb, Ok(Body("apiDeleteWidgetPart", [Str(slug), Int(id)])))
      else NotFound;
  }

  lemma PartsNames(exact: bool, slug: string, verb: string, path: string)
    ensures Parts(exact, slug, verb, path) == PartsAt(exact, slug, verb, Segs(path))
  {
    var (head, tail) := ShiftPath(path);
    var st := Segs(path);
    ShiftAt(path);
    assert head == Head(st) && Segs(tail) == Tail(st);
    var n := Atoi(head);
    if head != "" && n.Some? && n.value > 0 {
      PartRootNames(exact, slug, n.value, verb, tail);
      assert Parts(exact, slug, verb, path) == PartRoot(exact, slug, n.value, verb, tail);
    }
  }

  lemma ApiWidgetRootNames(exact: bool, slug: string, verb: string, path: string)
    ensures ApiWidgetRoot(exact, slug, verb, path) == ApiWidgetRootAt(exact, slug, verb, Segs(path))
  {
    var (head, tail) := ShiftPath(path);
    var st := Segs(path);
    ShiftAt(path);
    assert head == Head(st) && Segs(tail) == Tail(st);
    if head == "parts" {
      PartsNames(exact, slug, verb, tail);
      assert ApiWidgetRoot(exact, slug, verb, path) == Parts(exact, slug, verb, tail);
    }
  }

  lemma ApiWidgetsNames(exact: bool, verb: string, path: string)
    ensures ApiWidgets(exact, verb, path) == ApiWidgetsAt(exact, verb, Segs(path))
  {
    var (head, tail) := ShiftPath(path);
    var st := Segs(path);
    ShiftAt(path);
    assert head == Head(st) && Segs(tail) == Tail(st);
    if head != "" {
      ApiWidgetRootNames(exact, head, verb, tail);
      assert ApiWidgets(exact, verb, path) == ApiWidgetRoot(exact, head, verb, tail);
    }
  }

  lemma ApiNames(exact: bool, verb: string, path: string)
    ensures Api(exact, verb, path) == (if Head(Segs(path)) == "widgets" then ApiWidgetsAt(exact, verb, Tail(Segs(path))) else NotFound)
  {
    var (head, tail) := ShiftPath(path);
    var st := Segs(path);
    ShiftAt(path);
    assert head == Head(st) && Segs(tail) == Tail(st);
    if head == "widgets" {
      ApiWidgetsNames(exact, verb, tail);
      assert Api(exact, verb, path) == ApiWidgets(exact, verb, tail);
    }
  }

  lemma WidgetRootNames(exact: bool, slug: string, verb: string, path: string)
    ensures WidgetRoot(exact, slug, verb, path) == WidgetRootAt(exact, slug, verb, Segs(path))
  {
    var (head, tail) := ShiftPath(path);
    var st := Segs(path);
    ShiftAt(path);
    ShiftAt(tail);
    var done := Done(exact, tail);
    assert done == (!exact || Head(Tail(st)) == "");
    assert head == Head(st);
    assert WidgetRoot(exact, slug, verb, path) ==
      if head == "" then Guard(GetOrHead, verb, Ok(Body("widget", [Str(slug)])))
      else if head == "admin" && done then Guard(GetOrHead, verb, Ok(Body("widgetAdmin", [Str(slug)])))
      else if head == "image" && done then Guard(PostOnly, verb, Ok(Body("widgetImage", [Str(slug)])))
      else NotFound;
  }

  /** The string-level router and the name-level tree agree on every path without a trailing slash. */
  lemma TreeNames(exact: bool, verb: string, path: string)
    requires !TrailingSlash(path)
    ensures Tree(exact, verb, path) == TreeAt(exact, verb, Segs(path))
  {
    var (head, tail) := ShiftPath(path);
    var st := Segs(path);
    ShiftAt(path);
    ShiftAt(tail);
    assert head == Head(st) && Segs(tail) == Tail(st);
    if head == "" {
    } else if head == "api" {
      ApiNames(exact, verb, tail);
      assert Tree(exact, verb, path) == Api(exact, verb, tail);
    } else if head == "contact" {
      assert Contact(tail) == if Head(Tail(st)) != "" then NotFound else Ok(Body("contact", []));
      assert Tree(exact, verb, path) == Guard(GetOrHead, verb, Contact(tail));
    } else {
      WidgetRootNames(exact, head, verb, tail);
      assert Tree(exact, verb, path) == WidgetRoot(exact, head, verb, tail);
    }
  }

  /** A name left after cleaning is never taken for an absent one. */
  lemma HeadTail(st: seq<string>)
    requires Elements(st)
    ensures Elements(Tail(st))
    ensures Head(st) == "" <==> |st| == 0
  {
  }

  /**
   * The names shiftpath treats before the widget routes: "api" not followed
   * by "widgets", and "contact" followed by anything. The shared route table
   * reads these as widget slugs "api" and "contact".
   */
  predicate Reserved(st: seq<string>)
  {
    (|st| >= 1 && st[0] == "api" && !(|st| >= 2 && st[1] == "widgets")) ||
    (|st| >= 2 && st[0] == "contact")
  }

  /** The parts of the cleaned path as the route table sees them. */
  function Layout(st: seq<string>): seq<string>
  {
    if |st| == 0 then ["", ""] else [""] + st
  }

  lemma LayoutAfterFirst(st: seq<string>)
    requires |st| >= 1
    ensures Layout(st)[1..] == st
  {
    assert ([""] + st)[1..] == st;
  }

  lemma GuardIsHandle(methods: seq<string>, verb: string, name: string, args: seq<Value>)
    ensures Guard(methods, verb, Ok(Body(name, args))) == Handle(methods, verb, name, args)
  {
  }

  lemma TreeAtHome(verb: string)
    ensures TreeAt(true, verb, []) == Resolve(Rules, verb, Layout([]))
  {
    assert ["", ""][1..] == [""];
  }

  lemma TreeAtContact(verb: string)
    ensures TreeAt(true, verb, ["contact"]) == Resolve(Rules, verb, Layout(["contact"]))
  {
    LayoutAfterFirst(["contact"]);
    assert ["contact"][1..] == [];
  }

  /** Below "/api/widgets": the id routes. */
  lemma PartsAtIsResolve(verb: string, st: seq<string>)
    requires Elements(st) && |st| >= 4 && st[0] == "api" && st[1] == "widgets" && st[3] == "parts"
    ensures ApiWidgetRootAt(true, st[2], verb, st[3..]) == Resolve(Rules, verb, Layout(st))
  {
    LayoutAfterFirst(st);
    var rest := st[4..];
    assert Tail(st[3..]) == rest;
    HeadTail(rest);
    if |rest| >= 1 {
      HeadTail(rest[1..]);
      assert Tail(rest) == rest[1..];
      var n := Atoi(rest[0]);
      if n.Some? && n.value > 0 {
        assert IdOf(Positive, st[4]) == n;
        if |rest| >= 2 {
          assert Tail(rest[1..]) == rest[2..];
          HeadTail(rest[2..]);
        }
      }
    }
  }

  lemma ApiAtIsResolve(verb: string, st: seq<string>)
    requires Elements(st) && |st| >= 2 && st[0] == "api" && st[1] == "widgets"
    ensures TreeAt(true, verb, st) == Resolve(Rules, verb, Layout(st))
  {
    LayoutAfterFirst(st);
    assert Tail(st) == st[1..];
    assert Tail(st[1..]) == st[2..];
    var rest := st[2..];
    HeadTail(rest);
    if |rest| >= 1 {
      assert Tail(rest) == st[3..];
      HeadTail(st[3..]);
      if |st| >= 4 && st[3] == "parts" {
        PartsAtIsResolve(verb, st);
      }
    }
  }

  lemma WidgetAtIsResolve(verb: string, st: seq<string>)
    requires Elements(st) && |st| >= 1 && st[0] != "api" && st[0] != "contact"
    ensures TreeAt(true, verb, st) == Resolve(Rules, verb, Layout(st))
  {
    LayoutAfterFirst(st);
    HeadTail(st);
    assert Tail(st) == st[1..];
    HeadTail(st[1..]);
    if |st| >= 2 {
      assert Tail(st[1..]) == st[2..];
      HeadTail(st[2..]);
    }
  }

  /** On names the corrected tree makes the decision of the shared route table, reserved names aside. */
  lemma TreeAtIsResolve(verb: string, st: seq<string>)
    requires Elements(st) && !Reserved(st)
    ensures TreeAt(true, verb, st) == Resolve(Rules, verb, Layout(st))
  {
    if |st| == 0 {
      TreeAtHome(verb);
    } else if st[0] == "api" {
      ApiAtIsResolve(verb, st);
    } else if st[0] == "contact" {
      assert st == ["contact"];
      TreeAtContact(verb);
    } else {
      WidgetAtIsResolve(verb, st);
    }
  }

  /**
   * The corrected router decides every path without a trailing slash as the
   * shared route table decides its cleaned form, except for the reserved
   * first names "api" and "contact" (see `ReservedNames`).
   */
  lemma ServeFixedIsResolve(verb: string, path: string)
    requires !TrailingSlash(path) && !Reserved(Segs(path))
    ensures ServeFixed(verb, path) == Resolve(Rules, verb, Split(Clean("/" + path), '/'))
  {
    var st := Segs(path);
    Shift(path);
    TreeNames(true, verb, path);
    SplitRootedNames(st);
    assert Split(Clean("/" + path), '/') == Layout(st);
    TreeAtIsResolve(verb, st);
  }

  /**
   * "api" not followed by "widgets" is not found; "contact" followed by any
   * name is not found for GET and HEAD and 405 for other methods, since the
   * guard runs before `contact` looks at the rest. Both routers agree here.
   */
  lemma ReservedNames(verb: string, path: string)
    requires !TrailingSlash(path) && Reserved(Segs(path))
    ensures Serve(verb, path) == ServeFixed(verb, path)
    ensures Segs(path)[0] == "api" ==> Serve(verb, path) == NotFound
    ensures Segs(path)[0] == "contact" ==>
      Serve(verb, path) == if verb in GetOrHead then NotFound else NotAllowed(GetOrHead)
  {
    var st := Segs(path);
    Shift(path);
    TreeNames(true, verb, path);
    TreeNames(false, verb, path);
    HeadTail(st);
    HeadTail(st[1..]);
    assert Tail(st) == st[1..];
  }

  /** A first name other than "", "api" and "contact" is taken as a widget slug and the rest of the path goes to `widget{slug}.root`. */
  lemma OtherFirstNameIsWidget(verb: string, path: string)
    requires !TrailingSlash(path)
    requires var h := ShiftPath(path).0; h != "" && h != "api" && h != "contact"
    ensures Segs(path) != [] && Serve(verb, path) == WidgetRoot(false, Segs(path)[0], verb, ShiftPath(path).1)
  {
    ShiftAt(path);
  }

  /** In `parts`, a name that is not an id Atoi accepts above zero is not found, whatever follows it. */
  lemma PartsNeedPositiveId(exact: bool, slug: string, verb: string, path: string)
    requires var h := ShiftPath(path).0; h != "" && (Atoi(h).None? || Atoi(h).value <= 0)
    ensures Parts(exact, slug, verb, path) == NotFound
  {
    ShiftAt(path);
  }

  lemma WidgetsMethodsNames(verb: string)
    ensures TreeAt(false, verb, ["api", "widgets"]) ==
      if verb == GET then Ok("apiGetWidgets\n") else AllowMethod(PostOnly, verb, "apiCreateWidget\n")
  {
    var st := ["api", "widgets"];
    assert Head(st) == "api" && Tail(st) == ["widgets"] && Tail(Tail(st)) == [];
    assert TreeAt(false, verb, st) == ApiWidgetsAt(false, verb, []);
    assert Body("apiGetWidgets", []) == "apiGetWidgets\n";
    assert Body("apiCreateWidget", []) == "apiCreateWidget\n";
  }

  /** On "/api/widgets" only GET reaches apiGetWidgets; HEAD, like any other method, meets the POST guard. */
  lemma WidgetsMethods(verb: string, path: string)
    requires !TrailingSlash(path) && Segs(path) == ["api", "widgets"]
    ensures Serve(verb, path) == if verb == GET then Ok("apiGetWidgets\n") else AllowMethod(PostOnly, verb, "apiCreateWidget\n")
    ensures Serve(HEAD, path) == NotAllowed([POST])
  {
    TreeNames(false, verb, path);
    TreeNames(false, HEAD, path);
    WidgetsMethodsNames(verb);
    WidgetsMethodsNames(HEAD);
  }

  /**
   * As written, `widget{slug}.root` looks only at the next name: "admin" or
   * "image" followed by more names still runs the handler, where the
   * corrected router answers 404.
   */
  lemma ExtraNamesAfterWidgetAction(verb: string, path: string)
    requires !TrailingSlash(path)
    requires var st := Segs(path);
      |st| >= 3 && st[0] != "api" && st[0] != "contact" && (st[1] == "admin" || st[1] == "image")
    ensures Serve(verb, path) == Resolve(Rules, verb, Layout(Segs(path)[..2]))
    ensures ServeFixed(verb, path) == NotFound
  {
    var st := Segs(path);
    Shift(path);
    TreeNames(false, verb, path);
    TreeNames(true, verb, path);
    HeadTail(st);
    assert Tail(st) == st[1..];
    assert Tail(st[1..]) == st[2..];
    HeadTail(st[2..]);
    var short := st[..2];
    assert Elements(short) && !Reserved(short);
    TreeAtIsResolve(verb, short);
    assert Tail(short) == [st[1]] && Tail(Tail(short)) == [];
  }

  /** On names, an id route below "/api/widgets/:slug/parts" is decided by `apiWidgetPart{slug, id}.root`. */
  lemma TreeAtPart(exact: bool, verb: string, st: seq<string>)
    requires Elements(st) && |st| >= 5 && st[0] == "api" && st[1] == "widgets" && st[3] == "parts"
    requires Atoi(st[4]).Some? && Atoi(st[4]).value > 0
    ensures TreeAt(exact, verb, st) == PartRootAt(exact, st[2], Atoi(st[4]).value, verb, st[5..])
  {
    assert Tail(st) == st[1..];
    assert Tail(st[1..]) == st[2..];
    assert Tail(st[2..]) == st[3..];
    assert Tail(st[3..]) == st[4..];
    assert Tail(st[4..]) == st[5..];
  }

  /** On names: after "update" or "delete" the code as written ignores what follows. */
  lemma PartActionNames(verb: string, st: seq<string>)
    requires Elements(st) && |st| >= 7 && st[0] == "api" && st[1] == "widgets" && st[3] == "parts"
    requires Atoi(st[4]).Some? && Atoi(st[4]).value > 0 && (st[5] == "update" || st[5] == "delete")
    ensures TreeAt(false, verb, st) == TreeAt(true, verb, st[..6])
    ensures TreeAt(true, verb, st) == NotFound
  {
    var short := st[..6];
    var id := Atoi(st[4]).value;
    TreeAtPart(false, verb, st);
    TreeAtPart(true, verb, st);
    TreeAtPart(true, verb, short);
    assert short[5..] == [st[5]];
    assert Tail(st[5..]) == st[6..];
    HeadTail(st[6..]);
    assert Tail([st[5]]) == [];
  }

  /** The same for "update" and "delete" under "/api/widgets/:slug/parts/:id". */
  lemma ExtraNamesAfterPartAction(verb: string, path: string)
    requires !TrailingSlash(path)
    requires var st := Segs(path);
      |st| >= 7 && st[0] == "api" && st[1] == "widgets" && st[3] == "parts" &&
      Atoi(st[4]).Some? && Atoi(st[4]).value > 0 && (st[5] == "update" || st[5] == "delete")
    ensures Serve(verb, path) == Resolve(Rules, verb, Layout(Segs(path)[..6]))
    ensures ServeFixed(verb, path) == NotFound
  {
    var st := Segs(path);
    Shift(path);
    TreeNames(false, verb, path);
    TreeNames(true, verb, path);
    PartActionNames(verb, st);
    var short := st[..6];
    assert Elements(short) && !Reserved(short);
    TreeAtIsResolve(verb, short);
  }

  /** The names on which the two trees part: more names after admin/image, or after update/delete. */
  predicate ExtraNames(st: seq<string>)
  {
    (|st| >= 3 && st[0] != "api" && st[0] != "contact" && (st[1] == "admin" || st[1] == "image")) ||
    (|st| >= 7 && st[0] == "api" && st[1] == "widgets" && st[3] == "parts" &&
     Atoi(st[4]).Some? && Atoi(st[4]).value > 0 && (st[5] == "update" || st[5] == "delete"))
  }

  /** On names, the tree as written and the corrected tree differ exactly on `ExtraNames`. */
  lemma TreeAtDiffers(verb: string, st: seq<string>)
    requires Elements(st)
    ensures TreeAt(false, verb, st) != TreeAt(true, verb, st) <==> ExtraNames(st)
  {
    HeadTail(st);
    if |st| >= 1 {
      assert Tail(st) == st[1..];
      HeadTail(st[1..]);
    }
    if |st| >= 2 {
      assert Tail(st[1..]) == st[2..];
      HeadTail(st[2..]);
    }
    if |st| >= 3 {
      assert Tail(st[2..]) == st[3..];
      HeadTail(st[3..]);
    }
    if |st| >= 4 {
      assert Tail(st[3..]) == st[4..];
      HeadTail(st[4..]);
    }
    if |st| >= 5 {
      assert Tail(st[4..]) == st[5..];
      HeadTail(st[5..]);
    }
    if |st| >= 6 {
      assert Tail(st[5..]) == st[6..];
      HeadTail(st[6..]);
    }
  }

  /** shiftpath's `Serve` as written and the corrected one differ exactly on paths whose names are `ExtraNames`. */
  lemma ServeDiffers(verb: string, path: string)
    ensures Serve(verb, path) != ServeFixed(verb, path) <==> !TrailingSlash(path) && ExtraNames(Segs(path))
  {
    if !TrailingSlash(path) {
      Shift(path);
      TreeNames(false, verb, path);
      TreeNames(true, verb, path);
      TreeAtDiffers(verb, Segs(path));
    }
  }

  lemma AdminWithExtraNameNames()
    ensures TreeAt(false, GET, ["foo", "admin", "x"]) == Ok("widgetAdmin foo\n")
    ensures TreeAt(true, GET, ["foo", "admin", "x"]) == NotFound
  {
    var st := ["foo", "admin", "x"];
    var rest := ["admin", "x"];
    assert Head(st) == "foo" && Tail(st) == rest;
    assert |"foo"| == 3;
    assert Head(rest) == "admin" && Tail(rest) == ["x"] && Head(Tail(rest)) == "x";
    assert Body("widgetAdmin", [Str("foo")]) == "widgetAdmin foo\n";
  }

  /** GET on a path whose names are "foo", "admin", "x" runs widgetAdmin for "foo" as written, and is not found once corrected. */
  lemma AdminWithExtraNameAt(path: string)
    requires !TrailingSlash(path) && Segs(path) == ["foo", "admin", "x"]
    ensures Serve(GET, path) == Ok("widgetAdmin foo\n")
    ensures ServeFixed(GET, path) == NotFound
  {
    TreeNames(false, GET, path);
    TreeNames(true, GET, path);
    AdminWithExtraNameNames();
  }

  lemma FooAdminX()
    ensures !TrailingSlash("/foo/admin/x") && Segs("/foo/admin/x") == ["foo", "admin", "x"]
  {
    var st := ["foo", "admin", "x"];
    assert Rooted(st) == "/foo/admin/x" by {
      assert Join(st, "/") == "foo/admin/x";
    }
    SegsRooted(st);
  }

  /** GET "/foo/admin/x": widgetAdmin for "foo" as written, 404 once corrected. */
  lemma AdminWithExtraName()
    ensures Serve(GET, "/foo/admin/x") == Ok("widgetAdmin foo\n")
    ensures ServeFixed(GET, "/foo/admin/x") == NotFound
  {
    FooAdminX();
    AdminWithExtraNameAt("/foo/admin/x");
  }
}
