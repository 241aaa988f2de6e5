/**
 * What a routing decision produces, with the ResponseWriter abstracted away:
 * the handler bodies, the `allowMethod` method guard, and how an outcome is
 * written as status, `Allow` header and body.
 */
module Http {
  import opened Wrappers
  import opened Strings
  import opened Strconv

  const GET := "GET"
  const HEAD := "HEAD"
  const POST := "POST"

  /** The methods `get(h)` admits in routematch, shiftpath and main.go. */
  const GetOrHead: seq<string> := [GET, HEAD]
  /** The method `get(h)` admits in split, match and reswitch. */
  const GetOnly: seq<string> := [GET]
  /** The method `post(h)` admits in every variant. */
  const PostOnly: seq<string> := [POST]

  /** Destination of a path parameter: a `*string` or an `*int` variable. */
  datatype Kind = StrVar | IntVar

  /** A bound path parameter as a handler receives it. */
  datatype Value = Str(s: string) | Int(n: int)

  /** `%s` or `%d` formatting of a parameter. */
  function Show(v: Value): string
  {
    match v
    case Str(s) => s
    case Int(n) => Itoa(n)
  }

  function Params(args: seq<Value>): string
  {
    if |args| == 0 then "" else " " + Show(args[0]) + Params(args[1..])
  }

  /** What a handler writes: its name, each parameter after a space, then a newline. */
  function Body(name: string, args: seq<Value>): string
  {
    name + Params(args) + "\n"
  }

  /** The routing decision: the handler ran, 404, or 405 with the methods for `Allow`. */
  datatype Outcome = Ok(body: string) | NotFound | NotAllowed(allow: seq<string>)

  /** The `for _, m := range methods` loop: is `method` among `methods[i..]`? */
  function Admits(methods: seq<string>, verb: string, i: nat): (found: bool)
    requires i <= |methods|
    ensures found <==> verb in methods[i..]
    decreases |methods| - i
  {
    if i == |methods| then false
    else
      assert methods[i..] == [methods[i]] + methods[i + 1..];
      if methods[i] == verb then true else Admits(methods, verb, i + 1)
  }

  /**
   * `allowMethod(h, methods...)`: the handler runs exactly when the request
   * method is one of `methods`; otherwise 405 naming `methods` in the given order.
   */
  function AllowMethod(methods: seq<string>, verb: string, body: string): (r: Outcome)
    ensures r.Ok? <==> verb in methods
    ensures r.Ok? ==> r.body == body
    ensures !r.Ok? ==> r == NotAllowed(methods)
  {
    if Admits(methods, verb, 0) then Ok(body) else NotAllowed(methods)
  }

  /** The single-method `allowMethod(h, method)` of split, match and reswitch: the handler runs only for that one method; otherwise 405 with `Allow` naming that one method. */
  function AllowOne(only: string, verb: string, body: string): (r: Outcome)
    ensures r.Ok? <==> verb == only
    ensures r == AllowMethod([only], verb, body)
  {
    if only != verb then NotAllowed([only]) else Ok(body)
  }

  /** Status line, `Allow` header and body as written to the client. */
  datatype Response = Response(status: int, allow: Option<string>, body: string)

  const NotFoundText := "404 page not found\n"

  /**
   * `http.NotFound`, or `w.Header().Set("Allow", strings.Join(allow, ", "))`
   * followed by `http.Error(w, text, 405)`, or the handler's body with status 200.
   */
  function Render(o: Outcome, notAllowedText: string): (resp: Response)
    ensures resp.status == 200 <==> o.Ok?
    ensures resp.status == 404 <==> o.NotFound?
    ensures resp.status == 405 <==> resp.allow.Some?
    ensures o.Ok? ==> resp.body == o.body && resp.allow.None?
    ensures o.NotFound? ==> resp.body == NotFoundText
    ensures o.NotAllowed? ==> resp.allow == Some(Join(o.allow, ", ")) && resp.body == notAllowedText + "\n"
  {
    match o
    case Ok(b) => Response(200, None, b)
    case NotFound => Response(404, None, NotFoundText)
    case NotAllowed(a) => Response(405, Some(Join(a, ", ")), notAllowedText + "\n")
  }
}
