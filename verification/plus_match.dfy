/**
 * The byte-scanning `match(path, pattern, vars...)` of the match router: the
 * pattern is a path in which '+' stands for one segment. Every other pattern
 * byte must equal the next path byte; a '+' takes the path up to the next '/'
 * (or its end) and stores it in the next variable, through Atoi for an int.
 */
module PlusMatch {
  import opened Wrappers
  import opened Strings
  import opened Strconv
  import opened Segments
  import opened Http

  /** The number of '+' wildcards in a pattern. */
  function Wildcards(pattern: string): nat
  {
    multiset(pattern)['+']
  }

  /**
   * What the variable of kind `kind` receives for `segment`: the text for a
   * string, and for an int the value of a sign-optional numeral between 0 and
   * 2^63-1, read through Atoi; anything else fails.
   */
  function Store(segment: string, kind: Kind): (r: Option<Value>)
    ensures kind == StrVar ==> r == Some(Str(segment))
    ensures kind == IntVar ==> (r.Some? <==> Numeral(segment) && 0 <= NumeralValue(segment) <= Int64Max)
    ensures kind == IntVar && r.Some? ==> r == Some(Int(NumeralValue(segment)))
  {
    match kind
    case StrVar => Some(Str(segment))
    case IntVar =>
      var n := Atoi(segment);
      if n.None? || n.value < 0 then None else Some(Int(n.value))
  }

  /**
   * The scanning loop, one pattern byte per step, while both strings are
   * non-empty; the match holds when both end together. On success the values
   * stored in `vars`, in order. There must be a variable for every wildcard:
   * the source indexes `vars[0]` without a check.
   */
  function Scan(path: string, pattern: string, vars: seq<Kind>): Option<seq<Value>>
    requires Wildcards(pattern) <= |vars|
    decreases |pattern|
  {
    if pattern == "" || path == "" then
      if path == "" && pattern == "" then Some([]) else None
    else if pattern[0] == '+' then
      assert pattern == [pattern[0]] + pattern[1..];
      var slash := IndexOf(path, '/');
      var cut := if slash < 0 then |path| else slash;
      var v := Store(path[..cut], vars[0]);
      if v.None? then None
      else
        var rest := Scan(path[cut..], pattern[1..], vars[1..]);
        if rest.None? then None else Some([v.value] + rest.value)
    else if pattern[0] == path[0] then
      assert pattern == [pattern[0]] + pattern[1..];
      Scan(path[1..], pattern[1..], vars)
    else None
  }

  /** `match(path, pattern, vars...)` as a boolean, with the values it stores. */
  function Match(path: string, pattern: string, vars: seq<Kind>): Option<seq<Value>>
    requires Wildcards(pattern) <= |vars|
  {
    Scan(path, pattern, vars)
  }

  // ----- Facts about one scan -----

  /** The match holds only when pattern and path run out together. */
  lemma ScanEmpty(path: string, vars: seq<Kind>)
    ensures Scan(path, "", vars) == (if path == "" then Some([]) else None)
  {
  }

  /**
   * A stretch of pattern without '+' must appear byte for byte at the front of
   * the path; the scan then carries on after it. If the path runs out first,
   * or a byte differs, there is no match.
   */
  lemma {:induction false} ScanLiteral(path: string, lit: string, rest: string, vars: seq<Kind>)
    requires '+' !in lit && Wildcards(rest) <= |vars|
    ensures Wildcards(lit + rest) == Wildcards(rest)
    ensures Scan(path, lit + rest, vars) ==
      if |lit| <= |path| && path[..|lit|] == lit then Scan(path[|lit|..], rest, vars) else None
    decreases |lit|
  {
    assert multiset(lit + rest) == multiset(lit) + multiset(rest);
    if lit == "" {
      assert lit + rest == rest;
    } else if path == "" {
    } else {
      var q := lit + rest;
      assert q[0] == lit[0] && q[1..] == lit[1..] + rest;
      assert lit == [lit[0]] + lit[1..];
      if path[0] == lit[0] {
        ScanLiteral(path[1..], lit[1..], rest, vars);
        if |lit| <= |path| && path[..|lit|] == lit {
          assert path[1..][..|lit| - 1] == lit[1..];
          assert path[1..][|lit| - 1..] == path[|lit|..];
        } else if |lit| <= |path| {
          assert path[..|lit|] == [path[0]] + path[1..][..|lit| - 1];
        }
      }
    }
  }

  /** A '+' takes the path up to its next '/', or all of a path without '/'. */
  lemma ScanWildcard(path: string, rest: string, vars: seq<Kind>)
    requires path != "" && 0 < |vars| && Wildcards(rest) < |vars|
    ensures Wildcards("+" + rest) == Wildcards(rest) + 1
    ensures var cut := if '/' in path then IndexOf(path, '/') else |path|;
      Scan(path, "+" + rest, vars) ==
        var v := Store(path[..cut], vars[0]);
        if v.None? then None
        else
          var r := Scan(path[cut..], rest, vars[1..]);
          if r.None? then None else Some([v.value] + r.value)
  {
    assert multiset("+" + rest) == multiset("+") + multiset(rest);
    assert ("+" + rest)[1..] == rest;
  }

  // ----- The scan as a segment match -----

  /** A pattern part: a '+' on its own, or literal text without '+' or '/'. */
  predicate PatternPart(p: string)
  {
    p == "+" || ('+' !in p && '/' !in p)
  }

  /** The number of wildcard parts. */
  function Plusses(ps: seq<string>): nat
  {
    if |ps| == 0 then 0 else (if ps[0] == "+" then 1 else 0) + Plusses(ps[1..])
  }

  /** What a wildcard part becomes: the kind of its variable, and whether it is the last part. */
  datatype Wild = Wild(kind: Kind, last: bool)

  /**
   * The segment form of a pattern split on '/': literal parts stay literal,
   * the j-th '+' part takes the j-th variable.
   */
  function Specs(ps: seq<string>, vars: seq<Kind>): (specs: seq<Seg<Wild>>)
    requires Plusses(ps) <= |vars|
    ensures |specs| == |ps|
  {
    if |ps| == 0 then []
    else if ps[0] == "+" then [Param(Wild(vars[0], |ps| == 1))] + Specs(ps[1..], vars[1..])
    else [Lit(ps[0])] + Specs(ps[1..], vars)
  }

  /**
   * What a '+' segment accepts as a whole path part. The scan stops as soon as
   * the path is empty, so a '+' at the end of the pattern never takes an
   * empty part; one in the middle takes an empty part between two slashes.
   */
  function Bind(part: string, w: Wild): (r: Option<Value>)
    ensures r.Some? <==>
      ((!w.last || part != "") &&
       (w.kind == StrVar || (Numeral(part) && 0 <= NumeralValue(part) <= Int64Max)))
    ensures r.Some? ==>
      (r.value == if w.kind == StrVar then Str(part) else Int(NumeralValue(part)))
  {
    if w.last && part == "" then None else Store(part, w.kind)
  }

  function Binder(): (string, Wild) -> Option<Value>
  {
    (part: string, w: Wild) => Bind(part, w)
  }

  /** The wildcards of a joined pattern are its '+' parts. */
  lemma {:induction false} WildcardsJoin(ps: seq<string>)
    requires |ps| >= 1 && forall i :: 0 <= i < |ps| ==> PatternPart(ps[i])
    ensures Wildcards(Join(ps, "/")) == Plusses(ps)
    decreases |ps|
  {
    if |ps| == 1 {
      assert Join(ps, "/") == ps[0];
      if ps[0] == "+" {
        assert multiset("+")['+'] == 1;
      }
      assert Plusses(ps[1..]) == 0;
    } else {
      WildcardsJoin(ps[1..]);
      assert multiset(ps[0] + "/" + Join(ps[1..], "/")) == multiset(ps[0]) + multiset("/") + multiset(Join(ps[1..], "/"));
    }
  }

  /**
   * The scanner is the segment matcher: matching `path` against the pattern
   * whose '/'-separated parts are `ps` succeeds exactly when the path's parts
   * match `ps` one for one, literal parts identically and each '+' part
   * through its variable, and yields the same values.
   */
  lemma {:induction false} ScanIsSegments(path: string, ps: seq<string>, vars: seq<Kind>)
    requires |ps| >= 1 && forall i :: 0 <= i < |ps| ==> PatternPart(ps[i])
    requires Plusses(ps) == |vars|
    ensures Wildcards(Join(ps, "/")) == |vars|
    ensures Scan(path, Join(ps, "/"), vars) == MatchSegs(Split(path, '/'), Specs(ps, vars), Binder())
    decreases |ps|
  {
    WildcardsJoin(ps);
    if |ps| == 1 {
      OnePart(path, ps, vars);
    } else {
      var q := Join(ps[1..], "/");
      JoinFirst(ps);
      if ps[0] == "+" {
        if path != "" && '/' in path {
          ScanIsSegments(path[IndexOf(path, '/') + 1..], ps[1..], vars[1..]);
        }
        WildcardThenMore(path, q, ps[1..], vars);
      } else {
        var n := |ps[0]| + 1;
        if n <= |path| && path[..n] == ps[0] + "/" {
          ScanIsSegments(path[n..], ps[1..], vars);
        }
        LiteralThenMore(path, ps[0], q, ps[1..], vars);
      }
    }
  }

  /** A pattern of one part: a last wildcard or a last literal. */
  lemma OnePart(path: string, ps: seq<string>, vars: seq<Kind>)
    requires |ps| == 1 && PatternPart(ps[0]) && Plusses(ps) == |vars|
    ensures Wildcards(Join(ps, "/")) == |vars|
    ensures Scan(path, Join(ps, "/"), vars) == MatchSegs(Split(path, '/'), Specs(ps, vars), Binder())
  {
    assert Join(ps, "/") == ps[0];
    assert ps == [ps[0]];
    if ps[0] == "+" {
      LastWildcard(path, vars);
    } else {
      LastLiteral(path, ps[0], vars);
    }
  }

  /** Joining a first part in front of the others. */
  lemma JoinFirst(ps: seq<string>)
    requires |ps| >= 2 && forall i :: 0 <= i < |ps| ==> PatternPart(ps[i])
    ensures Join(ps, "/") == ps[0] + "/" + Join(ps[1..], "/")
    ensures ps == [ps[0]] + ps[1..]
    ensures Wildcards(Join(ps[1..], "/")) == Plusses(ps[1..])
  {
    var rest := ps[1..];
    forall i | 0 <= i < |rest|
      ensures PatternPart(rest[i])
    {
      assert rest[i] == ps[i + 1];
    }
    WildcardsJoin(rest);
  }

  /** What a last wildcard stores: the whole path, which must be non-empty and without '/'. */
  function LastValue(path: string, kind: Kind): Option<seq<Value>>
  {
    if path == "" || '/' in path then None
    else match Store(path, kind) case None => None case Some(v) => Some([v])
  }

  /** A pattern that is one '+': the whole path, which must be non-empty and without '/'. */
  lemma LastWildcard(path: string, vars: seq<Kind>)
    requires |vars| == 1
    ensures Wildcards("+") == 1 && Plusses(["+"]) == 1
    ensures Scan(path, "+", vars) == MatchSegs(Split(path, '/'), Specs(["+"], vars), Binder())
  {
    assert multiset("+")['+'] == 1;
    assert Specs(["+"], vars) == [Param(Wild(vars[0], true))];
    ScanLastWildcard(path, vars);
    SegsLastWildcard(path, vars[0]);
  }

  lemma ScanLastWildcard(path: string, vars: seq<Kind>)
    requires |vars| == 1
    ensures Wildcards("+") == 1
    ensures Scan(path, "+", vars) == LastValue(path, vars[0])
  {
    assert multiset("+")['+'] == 1;
    if path != "" {
      ScanWildcard(path, "", vars);
      assert "+" + "" == "+";
      if '/' !in path {
        assert path[|path|..] == "" && path[..|path|] == path;
        var none: seq<Value> := [];
        assert Scan("", "", vars[1..]) == Some(none);
        var v := Store(path, vars[0]);
        if v.Some? {
          assert [v.value] + none == [v.value];
        }
      }
    }
  }

  lemma SegsLastWildcard(path: string, kind: Kind)
    ensures MatchSegs(Split(path, '/'), [Param(Wild(kind, true))], Binder()) == LastValue(path, kind)
  {
    if '/' in path {
      SplitSlash(path);
    } else {
      SplitSingle(path, path);
      MatchSegsOne(path, Param(Wild(kind, true)), Binder());
    }
  }

  /** A pattern that is one literal part: exactly that path. */
  lemma LastLiteral(path: string, p: string, vars: seq<Kind>)
    requires '+' !in p && '/' !in p && p != "+"
    ensures Wildcards(p) == 0 && Plusses([p]) == 0
    ensures Scan(path, p, vars) == MatchSegs(Split(path, '/'), Specs([p], vars), Binder())
  {
    assert Specs([p], vars) == [Lit(p)];
    ScanLiteral(path, p, "", vars);
    assert p + "" == p;
    var a := Split(path, '/');
    if |a| == 1 {
      assert a == [a[0]];
      MatchSegsOne(a[0], Lit(p), Binder());
      SplitSingle(path, p);
    }
  }

  /** A path with a '/' splits into the text before its first '/' and the parts of the text after it. */
  lemma SplitSlash(path: string)
    requires '/' in path
    ensures var i := IndexOf(path, '/');
      0 <= i && path == path[..i] + "/" + path[i + 1..] && '/' !in path[..i] &&
      Split(path, '/') == [path[..i]] + Split(path[i + 1..], '/')
  {
    var i := IndexOf(path, '/');
    var a, b := path[..i], path[i + 1..];
    assert path == a + "/" + b;
    SplitCons(a, '/', b);
  }

  /** A path splits into the single part `p` (which has no '/') exactly when it is `p`. */
  lemma SplitSingle(path: string, p: string)
    requires '/' !in p
    ensures Split(path, '/') == [p] <==> path == p
  {
    if path == p {
      assert IndexOf(p, '/') == -1;
    }
    if Split(path, '/') == [p] {
      JoinSplit(path, '/');
    }
  }

  /** A path starts with `lit` and a '/' exactly when the text before its first '/' is `lit`. */
  lemma PrefixSlash(path: string, lit: string)
    requires '/' !in lit
    ensures var n := |lit| + 1;
      (n <= |path| && path[..n] == lit + "/") <==> ('/' in path && path[..IndexOf(path, '/')] == lit)
  {
    var n := |lit| + 1;
    if n <= |path| && path[..n] == lit + "/" {
      assert path == lit + "/" + path[n..];
      IndexOfAfter(lit, '/', path[n..]);
    }
    if '/' in path && path[..IndexOf(path, '/')] == lit {
      SplitSlash(path);
    }
  }

  /** Segment side of a leading literal: the path must start with it and a '/', the rest matching the rest. */
  lemma SegsLiteral<V>(path: string, lit: string, specs: seq<Seg<Wild>>, bind: (string, Wild) -> Option<V>)
    requires '/' !in lit && |specs| >= 1
    ensures MatchSegs(Split(path, '/'), [Lit(lit)] + specs, bind) ==
      var n := |lit| + 1;
      if n <= |path| && path[..n] == lit + "/" then MatchSegs(Split(path[n..], '/'), specs, bind) else None
  {
    PrefixSlash(path, lit);
    SegsHead(path, Lit(lit), specs, bind);
    var n := |lit| + 1;
    if n <= |path| && path[..n] == lit + "/" {
      var i := IndexOf(path, '/');
      assert |path[..i]| == |lit| == i;
      var none: seq<V> := [];
      assert Step(path[..i], Lit(lit), bind) == Some(none);
      var tail := MatchSegs(Split(path[n..], '/'), specs, bind);
      if tail.Some? {
        assert none + tail.value == tail.value;
      }
    }
  }

  /** Against a segment followed by more, a path needs a '/'; the text before it meets the segment. */
  lemma SegsHead<V>(path: string, s: Seg<Wild>, specs: seq<Seg<Wild>>, bind: (string, Wild) -> Option<V>)
    requires |specs| >= 1
    ensures MatchSegs(Split(path, '/'), [s] + specs, bind) ==
      if '/' !in path then None
      else
        var i := IndexOf(path, '/');
        var head := Step(path[..i], s, bind);
        var tail := MatchSegs(Split(path[i + 1..], '/'), specs, bind);
        if head.None? || tail.None? then None else Some(head.value + tail.value)
  {
    if '/' in path {
      var i := IndexOf(path, '/');
      SplitSlash(path);
      MatchSegsCons(path[..i], s, Split(path[i + 1..], '/'), specs, bind);
    } else {
      SplitSingle(path, path);
    }
  }

  /** A literal part followed by more parts: the path must start with it and a '/'. */
  lemma LiteralThenMore(path: string, lit: string, q: string, ps: seq<string>, vars: seq<Kind>)
    requires '+' !in lit && '/' !in lit && lit != "+"
    requires Wildcards(q) <= |vars| && Plusses(ps) <= |vars| && |ps| >= 1
    requires var n := |lit| + 1;
      n <= |path| && path[..n] == lit + "/" ==>
        Scan(path[n..], q, vars) == MatchSegs(Split(path[n..], '/'), Specs(ps, vars), Binder())
    ensures Wildcards(lit + "/" + q) == Wildcards(q) && Plusses([lit] + ps) == Plusses(ps)
    ensures Scan(path, lit + "/" + q, vars) == MatchSegs(Split(path, '/'), Specs([lit] + ps, vars), Binder())
  {
    assert ([lit] + ps)[1..] == ps;
    ScanLiteral(path, lit + "/", q, vars);
    assert Specs([lit] + ps, vars) == [Lit(lit)] + Specs(ps, vars);
    SegsLiteral(path, lit, Specs(ps, vars), Binder());
  }

  /** A '+' followed by a '/' in the pattern: the path must hold a '/', and the '+' takes what comes before it. */
  lemma ScanWildcardSlash(path: string, q: string, vars: seq<Kind>)
    requires 0 < |vars| && Wildcards(q) == |vars| - 1
    ensures Wildcards("+" + "/" + q) == |vars|
    ensures Scan(path, "+" + "/" + q, vars) ==
      if '/' !in path then None
      else
        var i := IndexOf(path, '/');
        var v := Store(path[..i], vars[0]);
        var r := Scan(path[i + 1..], q, vars[1..]);
        if v.None? || r.None? then None else Some([v.value] + r.value)
  {
    assert "+" + "/" + q == "+" + ("/" + q);
    assert multiset("+" + ("/" + q)) == multiset("+") + multiset("/") + multiset(q);
    if path != "" {
      ScanWildcard(path, "/" + q, vars);
      if '/' in path {
        var i := IndexOf(path, '/');
        ScanLiteral(path[i..], "/", q, vars[1..]);
        assert path[i..][..1] == "/";
        assert path[i..][1..] == path[i + 1..];
      } else {
        assert path[|path|..] == "";
      }
    }
  }

  /** A '+' part followed by more parts: it takes the path up to the first '/', which must exist. */
  lemma WildcardThenMore(path: string, q: string, ps: seq<string>, vars: seq<Kind>)
    requires 0 < |vars| && Wildcards(q) == |vars| - 1 && Plusses(ps) == |vars| - 1 && |ps| >= 1
    requires path != "" && '/' in path ==>
      var rest := path[IndexOf(path, '/') + 1..];
      Scan(rest, q, vars[1..]) == MatchSegs(Split(rest, '/'), Specs(ps, vars[1..]), Binder())
    ensures Wildcards("+" + "/" + q) == |vars| && Plusses(["+"] + ps) == |vars|
    ensures Scan(path, "+" + "/" + q, vars) == MatchSegs(Split(path, '/'), Specs(["+"] + ps, vars), Binder())
  {
    assert (["+"] + ps)[1..] == ps;
    assert Specs(["+"] + ps, vars) == [Param(Wild(vars[0], false))] + Specs(ps, vars[1..]);
    SegsHead(path, Param(Wild(vars[0], false)), Specs(ps, vars[1..]), Binder());
    ScanWildcardSlash(path, q, vars);
  }
}
