/**
 * split's `Serve`: one flat switch over `p`, the path split on '/' without
 * its first part, with a single-method `allowMethod` behind `get` (GET only)
 * and `post`.
 */
module SplitServe {
  import opened Wrappers
  import opened Strings
  import opened Strconv
  import opened Http
  import opened Switch
  import opened Shape

  function Get(verb: string, name: string, args: seq<Value>): Outcome
  {
    AllowOne(GET, verb, Body(name, args))
  }

  function Post(verb: string, name: string, args: seq<Value>): Outcome
  {
    AllowOne(POST, verb, Body(name, args))
  }

  /** The switch of `Serve` on the parts `p` after the first '/'. */
  function ServeParts(verb: string, p: seq<string>): Outcome
  {
    var n := |p|;
    if n == 1 && p[0] == "" then Get(verb, "home", [])
    else if n == 1 && p[0] == "contact" then Get(verb, "contact", [])
    else if n == 2 && p[0] == "api" && p[1] == "widgets" && verb == GET then Get(verb, "apiGetWidgets", [])
    else if n == 2 && p[0] == "api" && p[1] == "widgets" then Post(verb, "apiCreateWidget", [])
    else if n == 3 && p[0] == "api" && p[1] == "widgets" && p[2] != "" then Post(verb, "apiUpdateWidget", [Str(p[2])])
    else if n == 4 && p[0] == "api" && p[1] == "widgets" && p[2] != "" && p[3] == "parts" then
      Post(verb, "apiCreateWidgetPart", [Str(p[2])])
    else if n == 6 && p[0] == "api" && p[1] == "widgets" && p[2] != "" && p[3] == "parts" && IsId(p[4]).Some? && p[5] == "update" then
      Post(verb, "apiUpdateWidgetPart", [Str(p[2]), Int(IsId(p[4]).value)])
    else if n == 6 && p[0] == "api" && p[1] == "widgets" && p[2] != "" && p[3] == "parts" && IsId(p[4]).Some? && p[5] == "delete" then
      Post(verb, "apiDeleteWidgetPart", [Str(p[2]), Int(IsId(p[4]).value)])
    else if n == 1 then Get(verb, "widget", [Str(p[0])])
    else if n == 2 && p[1] == "admin" then Get(verb, "widgetAdmin", [Str(p[0])])
    else if n == 2 && p[1] == "image" then Post(verb, "widgetImage", [Str(p[0])])
    else NotFound
  }

  /** `Serve(w, r)`: `p := strings.Split(r.URL.Path, "/")[1:]`, then the switch. */
  function Serve(verb: string, path: string): Outcome
  {
    ServeParts(verb, Split(path, '/')[1..])
  }

  /** The rules of split: `get` admits only GET, api slugs are non-empty, site slugs and the first part are unchecked. */
  const Rules := Policy(GetOnly, ExactlyGet, NonEmpty, AnySlug, Positive, false)

  /** `Serve` is the route table's one decision under split's rules, for every method and path. */
  lemma ServeIsResolve(verb: string, path: string)
    ensures Serve(verb, path) == Resolve(Rules, verb, Split(path, '/'))
  {
    PartsAreResolve(verb, Split(path, '/'));
  }

  /** The switch on the parts after the first decides as the route table does on all the parts. */
  lemma PartsAreResolve(verb: string, a: seq<string>)
    requires |a| >= 1
    ensures ServeParts(verb, a[1..]) == Resolve(Rules, verb, a)
  {
    var p := a[1..];
    if |p| == 1 {
      PartsAreResolve1(verb, a);
    } else if |p| == 2 {
      PartsAreResolve2(verb, a);
    } else if |p| == 6 {
      PartsAreResolve6(verb, a);
    }
  }

  lemma PartsAreResolve1(verb: string, a: seq<string>)
    requires |a| == 2
    ensures ServeParts(verb, a[1..]) == Resolve(Rules, verb, a)
  {
  }

  lemma PartsAreResolve2(verb: string, a: seq<string>)
    requires |a| == 3
    ensures ServeParts(verb, a[1..]) == Resolve(Rules, verb, a)
  {
  }

  lemma PartsAreResolve6(verb: string, a: seq<string>)
    requires |a| == 7
    ensures ServeParts(verb, a[1..]) == Resolve(Rules, verb, a)
  {
  }

  /** Dropping the first part: "/" leaves one empty part, "/foo/bar" leaves "foo" and "bar". */
  lemma PartsAfterFirst()
    ensures Split("/", '/')[1..] == [""]
    ensures Split("/foo/bar", '/')[1..] == ["foo", "bar"]
  {
    assert Join(["", ""], "/") == "/";
    SplitJoin(["", ""], '/');
    assert Join(["", "foo", "bar"], "/") == "/foo/bar";
    SplitJoin(["", "foo", "bar"], '/');
  }

  /** An api path whose slug part is empty is never routed: every api slug case requires `p[2] != ""`. */
  lemma EmptyApiSlugNotFound(verb: string, path: string)
    requires var p := Split(path, '/')[1..]; |p| >= 3 && p[0] == "api" && p[1] == "widgets" && p[2] == ""
    ensures Serve(verb, path) == NotFound
  {
  }

  /** `get` admits only GET, so HEAD is never served. */
  lemma HeadNeverServed(path: string)
    ensures !Serve(HEAD, path).Ok?
  {
    ServeIsResolve(HEAD, path);
    Shape.HeadNeverServed(Rules, Split(path, '/'));
  }
}
