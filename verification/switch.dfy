/**
 * The first-match `switch { case match(p, pattern, vars...): h = guard(handler) ... }`
 * shared by routematch, main.go's routeMatch, match and reswitch, over any
 * request representation `I`, pattern representation `P` and matcher.
 */
module Switch {
  import opened Wrappers
  import opened Http

  /** The extra conjunct some cases add to the match: `&& r.Method == "GET"` or `&& isGet(r)`. */
  datatype MethodTest = AnyMethod | ExactlyGet | GetOrHeadTest

  predicate Passes(t: MethodTest, verb: string)
  {
    match t
    case AnyMethod => true
    case ExactlyGet => verb == GET
    case GetOrHeadTest => verb == GET || verb == HEAD
  }

  /** One case: its pattern, its method conjunct, the methods its guard admits, and the handler name. */
  datatype Case<P> = Case(pattern: P, test: MethodTest, allowed: seq<string>, name: string)

  /** A `match` function: the values it binds when the pattern matches the request path. */
  type Matcher<!I, !P> = (I, P) -> Option<seq<Value>>

  /** The case's condition holds: the pattern matches and the method conjunct is true. */
  predicate Fires<I, P>(c: Case<P>, matcher: Matcher<I, P>, verb: string, path: I)
  {
    matcher(path, c.pattern).Some? && Passes(c.test, verb)
  }

  /** `h.ServeHTTP(w, r)` for the chosen case: its guard around its handler. */
  function Run<P>(c: Case<P>, args: seq<Value>, verb: string): Outcome
  {
    AllowMethod(c.allowed, verb, Body(c.name, args))
  }

  /** The switch from case `i` on: the first case whose condition holds runs; when none holds, 404. */
  function DispatchFrom<I, P>(cases: seq<Case<P>>, matcher: Matcher<I, P>, verb: string, path: I, i: nat): Outcome
    requires i <= |cases|
    decreases |cases| - i
  {
    if i == |cases| then NotFound
    else if Fires(cases[i], matcher, verb, path) then
      Run(cases[i], matcher(path, cases[i].pattern).value, verb)
    else
      DispatchFrom(cases, matcher, verb, path, i + 1)
  }

  /** From case `i` on, 404 exactly when no case fires. */
  lemma {:induction false} DispatchFromNotFound<I, P>(cases: seq<Case<P>>, matcher: Matcher<I, P>, verb: string, path: I, i: nat)
    requires i <= |cases|
    ensures DispatchFrom(cases, matcher, verb, path, i).NotFound? <==>
      forall j :: i <= j < |cases| ==> !Fires(cases[j], matcher, verb, path)
    decreases |cases| - i
  {
    if i < |cases| {
      DispatchFromNotFound(cases, matcher, verb, path, i + 1);
      if Fires(cases[i], matcher, verb, path) {
        assert Run(cases[i], matcher(path, cases[i].pattern).value, verb) != NotFound;
      }
    }
  }

  /** From case `i` on, the first case `j` that fires runs. */
  lemma {:induction false} DispatchFromAt<I, P>(cases: seq<Case<P>>, matcher: Matcher<I, P>, verb: string, path: I, i: nat, j: nat)
    requires i <= j < |cases| && Fires(cases[j], matcher, verb, path)
    requires forall k :: i <= k < j ==> !Fires(cases[k], matcher, verb, path)
    ensures DispatchFrom(cases, matcher, verb, path, i) == Run(cases[j], matcher(path, cases[j].pattern).value, verb)
    decreases j - i
  {
    if i < j {
      DispatchFromAt(cases, matcher, verb, path, i + 1, j);
    }
  }

  lemma DispatchFromFirst<I, P>(cases: seq<Case<P>>, matcher: Matcher<I, P>, verb: string, path: I)
    ensures DispatchFrom(cases, matcher, verb, path, 0).NotFound? <==>
      forall j :: 0 <= j < |cases| ==> !Fires(cases[j], matcher, verb, path)
    ensures forall j :: 0 <= j < |cases| && Fires(cases[j], matcher, verb, path) &&
                        (forall k :: 0 <= k < j ==> !Fires(cases[k], matcher, verb, path)) ==>
              DispatchFrom(cases, matcher, verb, path, 0) == Run(cases[j], matcher(path, cases[j].pattern).value, verb)
  {
    DispatchFromNotFound(cases, matcher, verb, path, 0);
    forall j | 0 <= j < |cases| && Fires(cases[j], matcher, verb, path) &&
               (forall k :: 0 <= k < j ==> !Fires(cases[k], matcher, verb, path))
      ensures DispatchFrom(cases, matcher, verb, path, 0) == Run(cases[j], matcher(path, cases[j].pattern).value, verb)
    {
      DispatchFromAt(cases, matcher, verb, path, 0, j);
    }
  }

  /** The whole switch, with the `default: http.NotFound` branch. */
  function Dispatch<I, P>(cases: seq<Case<P>>, matcher: Matcher<I, P>, verb: string, path: I): (r: Outcome)
    ensures r.NotFound? <==> forall j :: 0 <= j < |cases| ==> !Fires(cases[j], matcher, verb, path)
    ensures forall j :: 0 <= j < |cases| && Fires(cases[j], matcher, verb, path) &&
                        (forall k :: 0 <= k < j ==> !Fires(cases[k], matcher, verb, path)) ==>
              r == Run(cases[j], matcher(path, cases[j].pattern).value, verb)
  {
    DispatchFromFirst(cases, matcher, verb, path);
    DispatchFrom(cases, matcher, verb, path, 0)
  }

  /** Two case lists that agree case by case on what the matcher binds and on guard and handler agree as switches. */
  predicate SameCases<I, P, J, Q>(cs1: seq<Case<P>>, m1: Matcher<I, P>, x1: I, cs2: seq<Case<Q>>, m2: Matcher<J, Q>, x2: J)
  {
    |cs1| == |cs2| &&
    forall i :: 0 <= i < |cs1| ==>
      m1(x1, cs1[i].pattern) == m2(x2, cs2[i].pattern) &&
      cs1[i].test == cs2[i].test && cs1[i].allowed == cs2[i].allowed && cs1[i].name == cs2[i].name
  }

  lemma {:induction false} DispatchFromTransfer<I, P, J, Q>(cs1: seq<Case<P>>, m1: Matcher<I, P>, x1: I, cs2: seq<Case<Q>>, m2: Matcher<J, Q>, x2: J, verb: string, i: nat)
    requires SameCases(cs1, m1, x1, cs2, m2, x2) && i <= |cs1|
    ensures DispatchFrom(cs1, m1, verb, x1, i) == DispatchFrom(cs2, m2, verb, x2, i)
    decreases |cs1| - i
  {
    if i < |cs1| {
      DispatchFromTransfer(cs1, m1, x1, cs2, m2, x2, verb, i + 1);
    }
  }

  /** A switch depends only on what each case binds and on its guard and handler, not on how patterns are written. */
  lemma DispatchTransfer<I, P, J, Q>(cs1: seq<Case<P>>, m1: Matcher<I, P>, x1: I, cs2: seq<Case<Q>>, m2: Matcher<J, Q>, x2: J, verb: string)
    requires SameCases(cs1, m1, x1, cs2, m2, x2)
    ensures Dispatch(cs1, m1, verb, x1) == Dispatch(cs2, m2, verb, x2)
  {
    DispatchFromTransfer(cs1, m1, x1, cs2, m2, x2, verb, 0);
  }
}
