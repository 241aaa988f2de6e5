# go-routing: the hand-written routers, modelled in Dafny

go-routing implements one small web API several ways: an 11-route table of
method + path routes (the comment block at `main.go:13-25`). The routes are
`GET /`, `GET /contact`, `GET|POST /api/widgets`,
`POST /api/widgets/:slug[/parts[/:id/update|delete]]` and
`GET /:slug`, `GET /:slug/admin`, `POST /:slug/image`.

This project models every hand-written router as a pure function from a
request method and URL path to an `Outcome`. An `Outcome` is one of three
things:

- the handler's body (`name`, each parameter after a space, then `"\n"`);
- 404;
- 405 with the `Allow` list.

The routers modelled are:

- **routematch** `Route`: a `switch` over a split-based `match` with `%s`/`%d` placeholders.
- **main.go**: `routeMatch`, with its own copy of `match`, and the nested `routeSplit`.
- **split** `Serve`: a `switch` on `strings.Split(path, "/")[1:]`.
- **match** `Serve`: a byte-scanning `match` in which `+` stands for one segment.
- **reswitch** `Serve`: a `switch` over anchored regexes with capture groups.
- **retable** `Serve`: an ordered table of regex routes that accumulates `Allow`.
- **shiftpath** `Serve`: a tree that shifts one name at a time off a `path.Clean`ed path.

The method guards (`allowMethod`, `get`, `post`, `isGet`) and the id parsers
(`isId`, `strconv.Atoi` on a 64-bit platform) are modelled too.

## How it is organised

- `strings.dfy`, `strconv.dfy` and `http.dfy` give the Go library behaviour the routers use:
  - `strings.Split`;
  - `strconv.Atoi`, with its int64 range and with the clamped value it returns on a range error;
  - the `allowMethod` guards;
  - the rendering of an outcome as status, `Allow` header and body.
- `shape.dfy` is the reference definition. `Shape.Resolve` is the route table as one decision over the '/'-separated parts of the path. It is parameterised by a `Policy`, which holds the few rules on which the routers differ:
  - which methods `get` admits;
  - how `/api/widgets` tells GET from POST;
  - whether a slug may be empty;
  - which ids are accepted;
  - whether the part before the first '/' is checked.
- Each router lives in its own module and has its own matcher:
  - `route_match.dfy` and `main_routes.dfy`, using `split_match.dfy`;
  - `split_serve.dfy`;
  - `match_serve.dfy`, using `plus_match.dfy`;
  - `reswitch.dfy` and `retable.dfy`, using `regex_segs.dfy`;
  - `shift_serve.dfy`, using `clean_path.dfy`.

  What each module proves about its router differs:
  - routematch's `Route`, main.go's `routeMatch`, split, match and reswitch equal `Resolve` under their own policy, for every method and every path, as written.
  - main.go's `routeSplit` equals `Resolve` only in its corrected form; as written it also serves a path whose fourth name is not "parts" (see Findings).
  - shiftpath's corrected `Serve` equals `Resolve` on the parts of the cleaned path, for paths without a trailing slash whose names are not reserved. Its `Serve` as written differs from the corrected one exactly on the paths whose names `ShiftServe.ExtraNames` describes.
  - retable does not equal `Resolve`. It equals its own declarative `Retable.Expected`: the first matching route wins, and the `Allow` list accumulates without removing duplicates (a POST to /contact gets `Allow: GET, GET`).

  `segments.dfy`, `segment_forms.dfy` and `switch.dfy` hold the generic facts those proofs share.
- `compare.dfy` states where the routers disagree: HEAD, an id of 0, an id beyond int64, and empty slugs.

## Model

| member | source | states |
|---|---|---|
| Strings.Split | routematch/route.go:49-50 | `strings.Split` always yields at least one part, and no part contains the separator |
| Strings.JoinSplit | routematch/route.go:49-50 | joining the parts of a split with the separator gives back the original string |
| Strings.SplitJoin | routematch/route.go:49-50 | splitting a join of separator-free parts gives back exactly those parts |
| Strings.SplitCons | split/route.go:13-15 | a string that starts with a separator-free part and a separator splits into that part followed by the split of the rest |
| Strings.SplitRooted | split/route.go:13-15 | a path starting with '/' splits into an empty first part followed by the split of the rest, which is why routers drop element 0 |
| Strings.IndexOf | match/route.go:61-64 | `strings.IndexByte`: -1 exactly when the byte is absent, otherwise the position of its first occurrence |
| Strconv.Atoi | routematch/route.go:67-70 | Atoi succeeds exactly on an optional sign followed by at least one digit whose value lies in the int64 range, and then returns that numeral's signed decimal value |
| Strconv.AtoiValue | retable/route.go:95 | the int that Atoi returns alongside its error: the value when Atoi succeeds; the int64 bound of the numeral's sign when a numeral is out of range; that bound too when a string of 19 or more bytes has a digit run that passes 2^64-1 before its first non-digit; 0 for every other malformed string |
| Strconv.ParseUint | retable/route.go:95 | the unsigned decimal parse under Atoi's long path: a range error exactly when the leading digits pass 2^64-1, success exactly on a non-empty all-digit string within 2^64-1 (with its decimal value), a syntax error otherwise |
| Strconv.OverflowBeforeSyntax | retable/route.go:95 | a digit run worth more than 2^64-1 followed by a non-digit is an error for Atoi, yet its int is Int64Max, not 0 |
| Strconv.SyntaxBeforeOverflow | retable/route.go:95 | a digit run within 2^64-1 followed by a non-digit is an error for Atoi and its int is 0, however long the string |
| Strconv.AtoiItoa | split/route.go:111-113 | formatting an int64 with `%d` and reading it back with Atoi gives the same value |
| Strconv.NatToString | split/route.go:111-113 | the decimal text of a natural number is a non-empty run of digits denoting that number |
| Http.Admits | routematch/route.go:83-88 | the `for _, m := range methods` loop finds the request method exactly when it is in the list |
| Http.AllowMethod | routematch/route.go:81-92 | the handler runs exactly when the method is listed; otherwise 405 with `Allow` naming the list in the given order |
| Http.AllowOne | split/route.go:50-59 | the single-method guard runs the handler only for that one method and is the multi-method guard on a one-element list |
| Http.Render | retable/route.go:52-57 | 200 with the handler's body; 404 with the body "404 page not found\n"; or 405 whose `Allow` header is the list joined by ", " and whose body is the error text plus a newline |
| Switch.Dispatch | routematch/route.go:18-45 | a `switch` runs the first case whose match (and method test) succeeds and gives 404 exactly when no case fires |
| Switch.DispatchTransfer | routematch/route.go:18-45 | two switches whose cases fire alike and bind alike on a request give the same outcome |
| Shape.IdOf | routematch/route.go:64-71 | an id part is accepted under the positive rule iff it is a decimal numeral whose value lies in 1..2^63-1, under the non-negative rule iff that value lies in 0..2^63-1, and under the digits rule iff it is a non-empty run of digits whose value is at most 2^63-1; an accepted id is the numeral's value |
| Shape.IsId | split/route.go:69-76 | `isId` is true iff the part is a decimal numeral (optional sign, at least one digit) whose value lies in 1..2^63-1, and the id it writes is that value |
| Shape.IdItoa | split/route.go:69-76 | every id rule, and `isId`, reads the `%d` text of a positive int64 back as that same id |
| Shape.RoutesAreResolve | main.go:13-25 | the eleven switch cases in table order decide exactly as the route table's one decision does, under every policy |
| Shape.AnchorIrrelevant | split/route.go:13-15 | once the first part is empty, whether it is checked makes no difference |
| Shape.NotFoundIgnoresMethod | routematch/route.go:18-45 | whether a path is routed at all never depends on the method |
| Shape.GuardOutcome | routematch/route.go:94-100 | a 405 names either the `get` methods or POST and never the request's method; a served request used an admitted method |
| Shape.HeadIsGet | main.go:196-198 | where `get` and the apiGetWidgets test admit GET and HEAD, HEAD is routed exactly like GET on every path |
| Shape.HeadNeverServed | split/route.go:61-63 | where `get` admits only GET, HEAD is never served |
| Shape.TrailingSlashNotFound | routematch/route.go:60-62 | with a slug rule that refuses an empty last slug, any path of two or more segments ending in '/' is 404 |
| Shape.IdRouteShape | split/route.go:33-36 | an id route needs "parts" as the fourth part, an accepted id and the action `update` or `delete`; anything else of that length is 404 |
| Shape.WidgetsRouting | routematch/route.go:23-26 | on /api/widgets the method test alone chooses between `get(apiGetWidgets)` and `post(apiCreateWidget)` |
| SplitMatch.AcceptsIsPartOk | routematch/route.go:56-76 | one pattern part accepts a path part iff it is a literal equal to it, a `%s` with a non-empty (or, for main.go, any) part, or a `%d` that Atoi reads above zero |
| SplitMatch.MatchPartwise | routematch/route.go:48-79 | `match` fails when the part counts differ, and succeeds iff every path part is accepted by the pattern part at its position |
| SplitMatch.MatchBindsInOrder | routematch/route.go:54-71 | on success the value bound for the placeholder at position j is that path part's value, at the placeholder's index among all placeholders |
| SplitMatchRoutes.BindMeaning | main.go:115-126 | a `%s` binding is a slug under the copy's slug rule, and a `%d` binding is an id under the positive rule |
| SplitMatchRoutes.CompiledAs | routematch/route.go:50 | a pattern built from separator-free parts compiles part by part |
| SplitMatchRoutes.MatchPattern | main.go:106-134 | `match` on the pattern of case k binds exactly what the route table expects of case k on the path's parts |
| RouteMatch.CaseAt | routematch/route.go:18-44 | case k of `Route` has the route table's pattern, method test, guard and handler for case k under routematch's rules |
| RouteMatch.CasesAgree | routematch/route.go:18-44 | every case of `Route` fires and binds on a path exactly as the route table's case does on its parts |
| RouteMatch.RouteIsResolve | routematch/route.go:12-46 | `Route` equals the route table's decision with `get` = GET+HEAD, only GET picking apiGetWidgets, non-empty slugs and ids above zero, for every method and path |
| RouteMatch.HeadWidgetsAsWritten | routematch/route.go:23-26 | on /api/widgets, HEAD skips the GET-only case and gets 405 with `Allow: POST` |
| RouteMatch.GetWidgetsAsWritten | routematch/route.go:23-24 | on /api/widgets, GET is served by apiGetWidgets |
| RouteMatch.HeadWidgetsRefused | routematch/route.go:23-26 | on /api/widgets, GET is served while HEAD is refused with `Allow: POST` |
| RouteMatch.HeadApiWidgets | main_test.go:31 | as written HEAD /api/widgets is 405; corrected it is 200 with apiGetWidgets' body, as the test table expects |
| RouteMatch.FixedCasesAgree | routematch/route.go:18-44 | the corrected cases fire and bind like the route table's cases under the corrected rules |
| RouteMatch.RouteFixedIsResolve | routematch/route.go:94-96 | the corrected `Route`, whose apiGetWidgets case admits what its `get` admits, is the route table's decision with HEAD treated as GET |
| RouteMatch.RouteFixedHeadIsGet | main.go:196-198 | in the corrected `Route`, HEAD is answered exactly as GET on every path |
| RouteMatch.HeadWidgetsFixed | main_test.go:30-31 | the corrected `Route` serves HEAD /api/widgets with apiGetWidgets |
| MainRoutes.MatchCaseAt | main.go:76-98 | case k of `routeMatch` has the route table's pattern, `isGet` test, guard and handler for case k |
| MainRoutes.MatchCasesAgree | main.go:106-134 | every case of `routeMatch` fires and binds like the table's case, with a `%s` that may be empty |
| MainRoutes.RouteMatchIsResolve | main.go:70-104 | `routeMatch` equals the route table's decision with GET+HEAD for `get` and for the `isGet` test, any slug and ids above zero |
| MainRoutes.FixedPartsAreResolve | main.go:139-192 | the nested switches of `routeSplit`, with the "parts" check restored, decide as the route table on the parts after the first |
| MainRoutes.RouteSplitFixedIsResolve | main.go:136-194 | the corrected `routeSplit` equals the route table's decision under main.go's rules, without checking the part before the first '/' |
| MainRoutes.RouteSplitFixedIsRouteMatch | main.go:136-194 | on rooted paths the corrected `routeSplit` and `routeMatch` agree on every method |
| MainRoutes.PartsDiffer | main.go:160-173 | `routeSplit` as written differs from the corrected one exactly on six-part api paths whose fourth part is not "parts", with a valid id and a known action, which the corrected one refuses |
| MainRoutes.RouteSplitDiffers | main.go:165-172 | the same if-and-only-if, stated on whole request paths |
| MainRoutes.MisplacedPartsRouting | main.go:165-169 | on the parts of /api/widgets/foo/bar/1/update, `routeSplit` serves apiUpdateWidgetPart while the corrected version and `routeMatch` give 404 |
| MainRoutes.RouteSplitAcceptsMisplacedParts | main.go:165-169 | POST /api/widgets/foo/bar/1/update is served by `routeSplit` as written and is 404 for the corrected version and for `routeMatch` |
| SplitServe.PartsAreResolve | split/route.go:20-46 | the switch on `p` decides as the route table under split's rules on every parts list |
| SplitServe.ServeIsResolve | split/route.go:12-48 | split's `Serve` equals the route table's decision with GET-only `get`, non-empty api slug, any site slug and ids above zero, for every method and path |
| SplitServe.PartsAfterFirst | split/route.go:13-15 | dropping the first split element maps "/" to [""] and "/foo/bar" to ["foo", "bar"] |
| SplitServe.EmptyApiSlugNotFound | split/route.go:29-36 | an api path whose slug part is empty is 404 for every method |
| SplitServe.HeadNeverServed | split/route.go:61-63 | `get` admits only GET, so HEAD is never served on any path |
| PlusMatch.Store | match/route.go:67-78 | a `*string` receives the segment; a `*int` accepts exactly a sign-optional numeral whose value lies in 0..2^63-1 and receives that value; any other segment fails the match |
| PlusMatch.ScanEmpty | match/route.go:87 | against an empty pattern the match holds exactly when the path is empty too |
| PlusMatch.ScanLiteral | match/route.go:80-85 | literal pattern bytes must equal the next path bytes one for one, otherwise the match fails |
| PlusMatch.ScanWildcard | match/route.go:59-79 | a '+' consumes the path up to the next '/' (or its end), stores it in the next variable and continues after it |
| PlusMatch.Bind | match/route.go:57-78 | a wildcard binds a part exactly when it is not an empty part at the end of the pattern (the loop stops on an empty path) and, for an int, the part is a numeral in 0..2^63-1; it binds the text or that numeral's value |
| PlusMatch.ScanIsSegments | match/route.go:56-88 | the byte scan on a pattern of '/'-separated parts equals a segment-wise match of the path's parts, with variables bound left to right |
| PlusMatch.ScanLastWildcard | match/route.go:57-66 | a pattern that is a single '+' matches exactly a non-empty slash-free path and stores it |
| PlusMatch.LiteralThenMore | match/route.go:80-85 | a literal part followed by '/' matches exactly a path beginning with that part and a '/' |
| PlusMatch.WildcardThenMore | match/route.go:59-79 | a '+' followed by '/' binds the path's first segment and continues with the remaining segments |
| MatchServe.BindMeaning | match/route.go:67-75 | a '+' binding is a slug that may be empty except at the end, or an id that Atoi reads as at least zero |
| MatchServe.ScanCase | match/route.go:56-88 | the scan on each case's pattern is a segment-wise match of the path's parts |
| MatchServe.MatchFixed | match/route.go:21-30 | the literal cases "/", "/contact" and "/api/widgets" match exactly the parts the route table expects |
| MatchServe.MatchApiSlug | match/route.go:31-34 | "/api/widgets/+" and ".../+/parts" bind exactly what the route table expects under match's slug rule |
| MatchServe.MatchId | match/route.go:35-38 | the update and delete patterns bind the slug and an id that Atoi reads as at least zero, as the table expects |
| MatchServe.MatchSite | match/route.go:39-44 | "/+", "/+/admin" and "/+/image" bind exactly what the route table expects |
| MatchServe.CasesAgree | match/route.go:20-48 | every case of match's `Serve` fires and binds like the route table's case under match's rules |
| MatchServe.ServeIsResolve | match/route.go:13-50 | match's `Serve` equals the route table's decision with GET-only `get`, slugs non-empty only at the end and ids of zero or more, for every method and path |
| RegexSegs.FindSubmatchMeaning | retable/route.go:28-30 | an anchored regex of literal, `([^/]+)` and `([0-9]+)` segments matches iff the path has as many parts and each is accepted by its segment |
| RegexSegs.CaptureAt | retable/route.go:19-25 | a capture is the path part at its group's position: non-empty, slash-free, and all digits for `([0-9]+)` |
| Reswitch.OneCapture | reswitch/route.go:57-70 | one capture goes to a string as is, or to an int through Atoi, failing the match when Atoi fails |
| Reswitch.TwoCaptures | reswitch/route.go:57-70 | a slug and an id capture convert in group order, failing only when Atoi fails on the id |
| Reswitch.ReMatchFixed | reswitch/route.go:20-27 | the literal regexes match exactly the parts the route table expects |
| Reswitch.ReMatchApiSlug | reswitch/route.go:28-31 | the api slug regexes bind a non-empty slash-free slug as the table expects |
| Reswitch.ReMatchId | reswitch/route.go:32-35 | the id regexes bind the slug and an all-digit id that Atoi accepts, zero included |
| Reswitch.ReMatchSite | reswitch/route.go:36-41 | the site regexes bind a non-empty slug as the table expects |
| Reswitch.CasesAgree | reswitch/route.go:19-45 | every case fires and binds like the route table's case under reswitch's rules |
| Reswitch.ServeIsResolve | reswitch/route.go:13-47 | reswitch's `Serve` equals the route table's decision with GET-only `get`, non-empty slugs and all-digit in-range ids, for every method and path |
| Retable.TableWellFormed | retable/route.go:14-26 | no handler reads a field beyond its regex's capture groups |
| Retable.RunsFirstUnique | retable/route.go:40-50 | at most one route is the first to match with the request's method |
| Retable.ServeFromExpected | retable/route.go:38-58 | the loop from any route on, with the `allow` collected so far, ends in the reference outcome |
| Retable.ServeExpected | retable/route.go:38-58 | `Serve` runs the first route matching with the request's method; failing that it gives 405 listing, in table order and with repeats, the method of every route that matched; otherwise 404 |
| Retable.ServeLoop | retable/route.go:38-58 | the imperative loop with `allow` appended in place computes the reference outcome |
| Retable.NoneMatchFrom | retable/route.go:52-57 | when no later route matches, the result is 405 with the collected `allow`, or 404 when it is empty |
| Retable.TableMatches | retable/route.go:28-30 | a route matches iff the path has its regex's number of parts and each part fits its segment |
| Retable.TrailingSlashNotFound | retable/route.go:28-30 | with anchored regexes a path of two or more segments ending in '/' is 404 |
| Retable.WidgetsOtherMethod | retable/route.go:17-18 | any method other than GET and POST on /api/widgets gives 405 with `Allow: GET, POST` |
| Retable.PutWidgets | retable/route.go:17-18 | PUT /api/widgets gives 405 with `Allow: GET, POST` |
| Retable.ContactMatches | retable/route.go:15-25 | "/contact" matches the contact route and the `/([^/]+)` widget route and no other |
| Retable.ContactOtherMethod | retable/route.go:43-46 | a non-GET request on /contact gives `Allow: GET, GET`, because `allow` is not deduplicated |
| Retable.PostContact | retable/route.go:43-46 | POST /contact gives 405 with `Allow: GET, GET` |
| Retable.HeadHome | retable/route.go:43 | method comparison is exact, so HEAD / gives 405 with `Allow: GET` |
| Retable.OverflowIdClamped | retable/route.go:93-97 | an all-digit id beyond int64 still matches and the handler prints the clamped value Atoi returns with its error |
| CleanPath.Push | shiftpath/route.go:38 | reading one name keeps the stack free of empty, ".", ".." and slash-containing names |
| CleanPath.StackFromElements | shiftpath/route.go:38 | names that are already clean are pushed unchanged |
| CleanPath.NamesRooted | shiftpath/route.go:38 | cleaning a rooted path built from clean names gives back those names |
| CleanPath.CleanIdempotent | shiftpath/route.go:38 | `path.Clean` of a rooted path is rooted and cleaning it again changes nothing |
| CleanPath.Shift | shiftpath/route.go:37-44 | `shiftPath` returns the first clean name (or "" when none) and a tail holding exactly the remaining names |
| CleanPath.ShiftPathShape | shiftpath/route.go:37-44 | the head of `shiftPath` contains no '/' and the tail starts with '/' |
| CleanPath.ShiftRoot | shiftpath/route.go:37-42 | `shiftPath("/")` is ("", "/"), so shifting the root again is a fixed point |
| ShiftServe.Guard | shiftpath/route.go:46-57 | a guard passes the inner outcome through for an admitted method and gives 405 with the list otherwise |
| ShiftServe.Tree | shiftpath/route.go:18-21 | any path other than "/" that ends in '/' is 404 before any dispatch |
| ShiftServe.TreeNames | shiftpath/route.go:23-34 | the tree of `shiftPath` calls decides on the names of the cleaned path, one name per level |
| ShiftServe.TreeAtIsResolve | shiftpath/route.go:14-199 | with every route required to end at its last name, the tree decides as the route table on the cleaned names, except for names under "api" and "contact" |
| ShiftServe.ServeFixedIsResolve | shiftpath/route.go:14-199 | the corrected `Serve` equals the route table's decision on the parts of the cleaned path, for paths without a trailing slash whose names are not reserved |
| ShiftServe.ReservedNames | shiftpath/route.go:81-90 | under "api" only "widgets" continues, and "contact" followed by a name is 404 after the GET/HEAD guard |
| ShiftServe.OtherFirstNameIsWidget | shiftpath/route.go:25-34 | any first name other than "", "api" or "contact" is dispatched as a widget slug |
| ShiftServe.PartsNeedPositiveId | shiftpath/route.go:136-149 | in `parts`, a non-empty head that Atoi rejects or reads as zero or less is 404 |
| ShiftServe.WidgetsMethods | shiftpath/route.go:92-101 | on /api/widgets GET reaches apiGetWidgets with no guard and any other method goes through `post`, so HEAD gets `Allow: POST` |
| ShiftServe.ExtraNamesAfterWidgetAction | shiftpath/route.go:186-199 | as written, names after `admin` or `image` are ignored and the request is routed as if they were absent; the corrected tree gives 404 |
| ShiftServe.ExtraNamesAfterPartAction | shiftpath/route.go:161-172 | as written, names after `update` or `delete` are ignored; the corrected tree gives 404 |
| ShiftServe.TreeAtDiffers | shiftpath/route.go:161-199 | on the cleaned names, the tree as written and the corrected tree decide differently exactly when more names follow `admin`/`image` under a slug, or follow `update`/`delete` under a valid part id |
| ShiftServe.ServeDiffers | shiftpath/route.go:14-199 | shiftpath's `Serve` as written and the corrected one differ on exactly the paths without a trailing slash whose cleaned names carry such extra names; everywhere else they agree |
| ShiftServe.AdminWithExtraName | shiftpath/route.go:186-199 | GET /foo/admin/x is served as widgetAdmin foo as written and is 404 once corrected |
| Compare.HeadHome | main_test.go:20-22 | HEAD / is served by routematch and main.go and refused with `Allow: GET` by split, match, reswitch and retable |
| Compare.IdZeroAccepted | match/route.go:70-75 | id 0 is accepted by match's `+` and by reswitch's `([0-9]+)` |
| Compare.IdZeroRefused | routematch/route.go:64-71 | id 0 is 404 for routematch, split and main.go's `routeMatch` |
| Compare.OverflowId | reswitch/route.go:62-65 | an id beyond int64 is 404 for reswitch and is served with the clamped value by retable |
| Compare.EmptyMiddleSlugServed | main.go:115-118 | /api/widgets//parts is served with an empty slug by match and by main.go's `routeMatch` |
| Compare.EmptyMiddleSlugRefused | routematch/route.go:57-62 | /api/widgets//parts is 404 for routematch, split and reswitch |
| Compare.EmptyLastSlug | main_test.go:35 | POST /api/widgets/ is 404 for routematch and match, but main.go's `routeMatch` serves apiUpdateWidget with an empty slug |

## Left out

- The `http.ResponseWriter`, `http.Error` and `http.NotFound` byte output and the header map. These are abstracted to `Outcome`; `Http.Render` gives status, `Allow` and body.
- `main()`, the `os.Args` handling, `ListenAndServe` and the `routers` map. These are process and network plumbing.
- The regex compile cache and its mutex in reswitch. The regexes are modelled as sequences of segment specs, because every pattern is anchored and made of literal parts, `([^/]+)` and `([0-9]+)`, each filling a whole segment.
- `withURLParams`/`urlParams` in match and `getField` in retable, which pass parameters through the request context. Captures are passed to the handlers directly.
- The panics in match's and reswitch's `match` when `vars` runs short or holds a variable of another type. The model treats such a call as no match; no case of either router triggers it.
- The third-party and standard-library muxes: pat, gorilla, chi, stdlib, muxpatterns. Their matching logic lives in libraries that are not part of this model.
- URL parsing before `r.URL.Path`. The path is taken as given.
- `CleanPath.Clean`: modelled only for rooted inputs. `shiftPath` always cleans "/" + p, so no other input reaches it.
- ShiftServe.ServeFixedIsResolve: stated for paths without a trailing slash whose first names are not reserved. For "api" not followed by "widgets", and for "contact" followed by more names, the tree differs from the table by design; `ShiftServe.ReservedNames` states what it does there.
- Strconv.Atoi: the 64-bit int range is modelled. Go's `strconv.ErrSyntax`/`ErrRange` error values are not; the error is modelled as `None`.
- Strconv.ParseUint: only base 10 with a 64-bit size, the case Atoi's long path uses; other bases, base prefixes and digit underscores are not modelled.
- MatchServe.Serve: the "/api/widgets" case chooses its handler by `r.Method == "GET"` inside the case. It is modelled as two cases, a GET-only one followed by a catch-all. The two fire on exactly the same requests.

## Findings

| source | as written | input that shows it | evidently intended | confidence | as-written member | corrected member |
|---|---|---|---|---|---|---|
| routematch/route.go:23-26 | only `r.Method == "GET"` reaches `get(apiGetWidgets)`, so HEAD falls through to `post(apiCreateWidget)` | HEAD /api/widgets gives 405 `Allow: POST`; main_test.go:31 expects 200 "apiGetWidgets" for the router main.go maps to routematch | the method test admits GET and HEAD, like its own `get` wrapper and like main.go's `isGet` | not executed; high | RouteMatch.HeadApiWidgets | RouteMatch.RouteFixedIsResolve |
| main.go:165 | the six-part api case checks the id and the action but never `p[3] == "parts"` | POST /api/widgets/foo/bar/1/update is served as apiUpdateWidgetPart foo 1 | only /api/widgets/:slug/parts/:id/(update\|delete) is served, as `routeMatch` and the route table do | not executed; high | MainRoutes.RouteSplitAcceptsMisplacedParts | MainRoutes.RouteSplitFixedIsResolve |
| shiftpath/route.go:186-199 | `widget.root` and `apiWidgetPart.root` ignore whatever follows `admin`, `image`, `update` or `delete` | GET /foo/admin/x is served as widgetAdmin foo | names after the last one of a route give 404, as `contact` does for /contact/no | not executed; medium | ShiftServe.AdminWithExtraName | ShiftServe.ServeFixedIsResolve |

shiftpath's `apiWidgets` (shiftpath/route.go:96-101) also sends HEAD /api/widgets to `post`, as `ShiftServe.WidgetsMethods` states.
