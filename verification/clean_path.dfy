/**
 * Go's `path.Clean` on a rooted path, and shiftpath's `shiftPath`. For a
 * path that starts with '/', Clean keeps a stack of names: empty names and
 * "." are dropped, ".." removes the last name (and is dropped at the root),
 * any other name is pushed; the result is '/' followed by the names joined
 * with '/'.
 */
module CleanPath {
  import opened Strings

  /** A name that survives cleaning. */
  predicate Element(s: string)
  {
    s != "" && s != "." && s != ".." && '/' !in s
  }

  predicate Elements(st: seq<string>)
  {
    forall i :: 0 <= i < |st| ==> Element(st[i])
  }

  /** One name read into the stack. */
  function Push(stack: seq<string>, name: string): (r: seq<string>)
    requires Elements(stack) && '/' !in name
    ensures Elements(r)
  {
    if name == "" || name == "." then stack
    else if name == ".." then (if |stack| == 0 then stack else stack[..|stack| - 1])
    else stack + [name]
  }

  /** The names `names` read into `stack`, left to right. */
  function StackFrom(stack: seq<string>, names: seq<string>): (r: seq<string>)
    requires Elements(stack) && forall i :: 0 <= i < |names| ==> '/' !in names[i]
    ensures Elements(r)
    decreases |names|
  {
    if |names| == 0 then stack else StackFrom(Push(stack, names[0]), names[1..])
  }

  /** The names left after cleaning the rooted path `p`. */
  function Names(p: string): seq<string>
  {
    StackFrom([], Split(p, '/'))
  }

  /** The rooted path with the given names. */
  function Rooted(st: seq<string>): string
  {
    "/" + Join(st, "/")
  }

  /** `path.Clean(p)` for `p` starting with '/'. */
  function Clean(p: string): (c: string)
    requires 0 < |p| && p[0] == '/'
  {
    Rooted(Names(p))
  }

  /** Clean names are pushed unchanged. */
  lemma {:induction false} StackFromElements(stack: seq<string>, st: seq<string>)
    requires Elements(stack) && Elements(st)
    ensures StackFrom(stack, st) == stack + st
    decreases |st|
  {
    if |st| > 0 {
      StackFromElements(stack + [st[0]], st[1..]);
      assert stack + [st[0]] + st[1..] == stack + st;
    }
  }

  /** A rooted path built from clean names splits into an empty first part and those names. */
  lemma SplitRootedNames(st: seq<string>)
    requires Elements(st)
    ensures Split(Rooted(st), '/') == if |st| == 0 then ["", ""] else [""] + st
  {
    if |st| == 0 {
      SplitJoin(["", ""], '/');
      assert Join(["", ""], "/") == "/";
    } else {
      SplitJoin([""] + st, '/');
      assert ([""] + st)[1..] == st;
      assert Join([""] + st, "/") == Rooted(st);
    }
  }

  /** The names of a rooted path built from clean names are those names. */
  lemma NamesRooted(st: seq<string>)
    requires Elements(st)
    ensures Names(Rooted(st)) == st
  {
    SplitRootedNames(st);
    var none: seq<string> := [];
    if |st| == 0 {
      assert StackFrom(none, ["", ""]) == StackFrom(none, [""]) by {
        assert ["", ""][1..] == [""];
      }
      assert StackFrom(none, [""]) == StackFrom(none, []) by {
        assert [""][1..] == [];
      }
    } else {
      assert StackFrom(none, [""] + st) == StackFrom(none, st) by {
        assert ([""] + st)[1..] == st;
      }
      StackFromElements(none, st);
    }
  }

  /** Cleaning is idempotent: a cleaned path is already clean. */
  lemma CleanIdempotent(p: string)
    requires 0 < |p| && p[0] == '/'
    ensures var c := Clean(p); 0 < |c| && c[0] == '/' && Clean(c) == c
  {
    NamesRooted(Names(p));
  }

  /**
   * `shiftPath(p)`: clean "/" + p, then split off the first name. The head is
   * the text between the leading '/' and the next '/', the tail the rest
   * from that '/' on, or "/" when there is no further '/'.
   */
  function ShiftPath(p: string): (string, string)
  {
    var c := Clean("/" + p);
    var i := IndexOf(c[1..], '/') + 1;
    if i <= 0 then (c[1..], "/") else (c[1..i], c[i..])
  }

  /** The names `shiftPath(p)` works on. */
  function Segs(p: string): seq<string>
  {
    Names("/" + p)
  }

  /** The tail of a non-empty stack of names as a rooted path. */
  function Rest(st: seq<string>): string
  {
    if |st| == 0 then "/" else Rooted(st[1..])
  }

  /** The split `shiftPath` makes of an already clean rooted path. */
  function SplitFirst(c: string): (string, string)
    requires 0 < |c|
  {
    var i := IndexOf(c[1..], '/') + 1;
    if i <= 0 then (c[1..], "/") else (c[1..i], c[i..])
  }

  lemma SplitFirstNone()
    ensures SplitFirst(Rooted([])) == ("", "/")
  {
    assert Rooted([]) == "/";
    assert IndexOf("", '/') == -1;
  }

  lemma SplitFirstOne(name: string)
    requires Element(name)
    ensures SplitFirst(Rooted([name])) == (name, "/")
  {
    var c := Rooted([name]);
    assert c[1..] == name;
    assert IndexOf(name, '/') == -1;
  }

  lemma SplitFirstMore(st: seq<string>)
    requires Elements(st) && |st| >= 2
    ensures SplitFirst(Rooted(st)) == (st[0], Rooted(st[1..]))
  {
    var c := Rooted(st);
    var rest := Join(st[1..], "/");
    assert Join(st, "/") == st[0] + "/" + rest;
    assert c[1..] == st[0] + "/" + rest;
    IndexOfAfter(st[0], '/', rest);
    var i := |st[0]| + 1;
    assert c[1..i] == st[0];
    assert c[i..] == "/" + rest;
  }

  lemma ShiftPathNames(p: string)
    ensures var st := Segs(p);
      ShiftPath(p) == (if |st| == 0 then "" else st[0], Rest(st))
  {
    var st := Segs(p);
    assert Clean("/" + p) == Rooted(st);
    assert ShiftPath(p) == SplitFirst(Rooted(st));
    if |st| == 0 {
      SplitFirstNone();
    } else if |st| == 1 {
      assert st == [st[0]];
      SplitFirstOne(st[0]);
      assert st[1..] == [];
      assert Rest(st) == Rooted([]) == "/";
      assert ShiftPath(p) == SplitFirst(Rooted([st[0]]));
    } else {
      SplitFirstMore(st);
    }
  }

  /** An extra leading '/' is dropped by cleaning. */
  lemma NamesSlash(q: string)
    ensures Names("/" + q) == Names(q)
  {
    var s := "/" + q;
    SplitRooted(s, '/');
    assert s[1..] == q;
    var none: seq<string> := [];
    var parts := Split(q, '/');
    assert ([""] + parts)[1..] == parts;
    assert StackFrom(none, [""] + parts) == StackFrom(Push(none, ""), parts);
  }

  /** The tail `shiftPath` leaves has the remaining names. */
  lemma SegsRest(st: seq<string>)
    requires Elements(st)
    ensures Segs(Rest(st)) == if |st| == 0 then [] else st[1..]
  {
    var rest: seq<string> := if |st| == 0 then [] else st[1..];
    assert Elements(rest);
    assert Rest(st) == Rooted(rest);
    NamesSlash(Rooted(rest));
    NamesRooted(rest);
  }

  /** One shift: the head is the first name, and the tail holds the remaining names. */
  lemma Shift(p: string)
    ensures Elements(Segs(p))
    ensures ShiftPath(p).0 == (if |Segs(p)| == 0 then "" else Segs(p)[0])
    ensures Segs(ShiftPath(p).1) == if |Segs(p)| == 0 then [] else Segs(p)[1..]
  {
    ShiftPathNames(p);
    SegsRest(Segs(p));
  }

  /** For a rooted clean path, the head holds no '/' and the tail starts with '/'. */
  lemma ShiftPathShape(p: string)
    ensures '/' !in ShiftPath(p).0
    ensures 0 < |ShiftPath(p).1| && ShiftPath(p).1[0] == '/'
  {
    ShiftPathNames(p);
  }

  /** Shifting the root gives ("", "/"), so shifting it again changes nothing. */
  lemma ShiftRoot()
    ensures ShiftPath("/") == ("", "/")
  {
    var none: seq<string> := [];
    assert Rooted(none) == "/";
    SegsRooted(none);
    ShiftPathNames("/");
  }

  /** `shiftPath` reads back the names of any clean rooted path. */
  lemma SegsRooted(st: seq<string>)
    requires Elements(st)
    ensures Segs(Rooted(st)) == st
  {
    NamesSlash(Rooted(st));
    NamesRooted(st);
  }
}
