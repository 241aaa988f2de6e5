/**
 * What `MatchSegs` computes for the pattern forms the route table uses,
 * for any literals, parameter tags and binding rule: literal positions must
 * be equal, parameter positions must bind, and the result lists the bindings
 * in order. Every matcher of the model reaches its per-route meaning through
 * these.
 */
module SegmentForms {
  import opened Wrappers
  import opened Segments

  /** `/x`-style patterns of two literals, such as "/" and "/contact". */
  lemma LitLit<K, V>(a: seq<string>, s: seq<Seg<K>>, bind: (string, K) -> Option<V>, l0: string, l1: string)
    requires |s| == 2 && s[0] == Lit(l0) && s[1] == Lit(l1)
    ensures MatchSegs(a, s, bind) ==
      if |a| == 2 && a[0] == l0 && a[1] == l1 then Some([]) else None
  {
    MatchSegsAccepts(a, s, bind);
    if |a| == 2 {
      var none: seq<V> := [];
      assert MatchFrom(a, s, bind, 2) == Some(none);
      assert none + none == none;
      assert MatchFrom(a, s, bind, 1) == if a[1] == l1 then Some(none) else None;
    }
  }

  /** Three literals, such as "/api/widgets". */
  lemma LitLitLit<K, V>(a: seq<string>, s: seq<Seg<K>>, bind: (string, K) -> Option<V>, l0: string, l1: string, l2: string)
    requires |s| == 3 && s[0] == Lit(l0) && s[1] == Lit(l1) && s[2] == Lit(l2)
    ensures MatchSegs(a, s, bind) ==
      if |a| == 3 && a[0] == l0 && a[1] == l1 && a[2] == l2 then Some([]) else None
  {
    MatchSegsAccepts(a, s, bind);
    if |a| == 3 {
      var none: seq<V> := [];
      assert MatchFrom(a, s, bind, 3) == Some(none);
      assert none + none == none;
      assert MatchFrom(a, s, bind, 2) == if a[2] == l2 then Some(none) else None;
      assert MatchFrom(a, s, bind, 1) == if a[1] == l1 && a[2] == l2 then Some(none) else None;
    }
  }

  /** A literal then a final parameter, such as "/%s". */
  lemma LitParam<K, V>(a: seq<string>, s: seq<Seg<K>>, bind: (string, K) -> Option<V>, l0: string, k1: K)
    requires |s| == 2 && s[0] == Lit(l0) && s[1] == Param(k1)
    ensures MatchSegs(a, s, bind) ==
      if |a| == 2 && a[0] == l0 && bind(a[1], k1).Some? then Some([bind(a[1], k1).value]) else None
  {
    MatchSegsAccepts(a, s, bind);
    if |a| == 2 && bind(a[1], k1).Some? {
      var none: seq<V> := [];
      assert MatchFrom(a, s, bind, 2) == Some(none);
      assert none + none == none;
      var v := bind(a[1], k1).value;
      assert [v] + none == [v];
      assert none + [v] == [v];
      assert MatchFrom(a, s, bind, 1) == Some([v]);
    }
  }

  /** A literal, a parameter and a literal, such as "/%s/admin". */
  lemma LitParamLit<K, V>(a: seq<string>, s: seq<Seg<K>>, bind: (string, K) -> Option<V>, l0: string, k1: K, l2: string)
    requires |s| == 3 && s[0] == Lit(l0) && s[1] == Param(k1) && s[2] == Lit(l2)
    ensures MatchSegs(a, s, bind) ==
      if |a| == 3 && a[0] == l0 && bind(a[1], k1).Some? && a[2] == l2 then Some([bind(a[1], k1).value]) else None
  {
    MatchSegsAccepts(a, s, bind);
    if |a| == 3 && bind(a[1], k1).Some? && a[2] == l2 {
      var none: seq<V> := [];
      assert MatchFrom(a, s, bind, 3) == Some(none);
      assert none + none == none;
      var v := bind(a[1], k1).value;
      assert MatchFrom(a, s, bind, 2) == Some(none);
      assert none + none == none;
      assert [v] + none == [v];
      assert none + [v] == [v];
      assert MatchFrom(a, s, bind, 1) == Some([v]);
    }
  }

  /** Three literals then a final parameter, such as "/api/widgets/%s". */
  lemma Lit3Param<K, V>(a: seq<string>, s: seq<Seg<K>>, bind: (string, K) -> Option<V>, l0: string, l1: string, l2: string, k3: K)
    requires |s| == 4 && s[0] == Lit(l0) && s[1] == Lit(l1) && s[2] == Lit(l2) && s[3] == Param(k3)
    ensures MatchSegs(a, s, bind) ==
      if |a| == 4 && a[0] == l0 && a[1] == l1 && a[2] == l2 && bind(a[3], k3).Some?
      then Some([bind(a[3], k3).value]) else None
  {
    MatchSegsAccepts(a, s, bind);
    if |a| == 4 && bind(a[3], k3).Some? {
      var none: seq<V> := [];
      assert MatchFrom(a, s, bind, 4) == Some(none);
      assert none + none == none;
      var v := bind(a[3], k3).value;
      assert [v] + none == [v];
      assert none + [v] == [v];
      assert MatchFrom(a, s, bind, 3) == Some([v]);
      assert MatchFrom(a, s, bind, 2) == if a[2] == l2 then Some([v]) else None;
      assert MatchFrom(a, s, bind, 1) == if a[1] == l1 && a[2] == l2 then Some([v]) else None;
    }
  }

  /** Three literals, a parameter and a literal, such as "/api/widgets/%s/parts". */
  lemma Lit3ParamLit<K, V>(a: seq<string>, s: seq<Seg<K>>, bind: (string, K) -> Option<V>, l0: string, l1: string, l2: string, k3: K, l4: string)
    requires |s| == 5 && s[0] == Lit(l0) && s[1] == Lit(l1) && s[2] == Lit(l2) && s[3] == Param(k3) && s[4] == Lit(l4)
    ensures MatchSegs(a, s, bind) ==
      if |a| == 5 && a[0] == l0 && a[1] == l1 && a[2] == l2 && bind(a[3], k3).Some? && a[4] == l4
      then Some([bind(a[3], k3).value]) else None
  {
    MatchSegsAccepts(a, s, bind);
    if |a| == 5 && bind(a[3], k3).Some? && a[4] == l4 {
      var none: seq<V> := [];
      assert MatchFrom(a, s, bind, 5) == Some(none);
      assert none + none == none;
      var v := bind(a[3], k3).value;
      assert MatchFrom(a, s, bind, 4) == Some(none);
      assert none + none == none;
      assert [v] + none == [v];
      assert none + [v] == [v];
      assert MatchFrom(a, s, bind, 3) == Some([v]);
      assert MatchFrom(a, s, bind, 2) == if a[2] == l2 then Some([v]) else None;
      assert MatchFrom(a, s, bind, 1) == if a[1] == l1 && a[2] == l2 then Some([v]) else None;
    }
  }

  /** Three literals, a parameter, a literal, a parameter and a literal, such as "/api/widgets/%s/parts/%d/update". */
  lemma Lit3ParamLitParamLit<K, V>(a: seq<string>, s: seq<Seg<K>>, bind: (string, K) -> Option<V>,
                                   l0: string, l1: string, l2: string, k3: K, l4: string, k5: K, l6: string)
    requires |s| == 7 && s[0] == Lit(l0) && s[1] == Lit(l1) && s[2] == Lit(l2) && s[3] == Param(k3) && s[4] == Lit(l4) && s[5] == Param(k5) && s[6] == Lit(l6)
    ensures MatchSegs(a, s, bind) ==
      if |a| == 7 && a[0] == l0 && a[1] == l1 && a[2] == l2 && bind(a[3], k3).Some? && a[4] == l4 &&
         bind(a[5], k5).Some? && a[6] == l6
      then Some([bind(a[3], k3).value, bind(a[5], k5).value]) else None
  {
    MatchSegsAccepts(a, s, bind);
    if |a| == 7 && bind(a[3], k3).Some? && a[4] == l4 && bind(a[5], k5).Some? && a[6] == l6 {
      var none: seq<V> := [];
      assert MatchFrom(a, s, bind, 7) == Some(none);
      assert none + none == none;
      var v := bind(a[3], k3).value;
      var w := bind(a[5], k5).value;
      assert MatchFrom(a, s, bind, 6) == Some(none);
      assert none + none == none;
      assert [w] + none == [w];
      assert MatchFrom(a, s, bind, 5) == Some([w]);
      assert none + [w] == [w];
      assert MatchFrom(a, s, bind, 4) == Some([w]);
      assert [v] + [w] == [v, w];
      assert MatchFrom(a, s, bind, 3) == Some([v, w]);
      assert none + [v, w] == [v, w];
      assert MatchFrom(a, s, bind, 2) == if a[2] == l2 then Some([v, w]) else None;
      assert MatchFrom(a, s, bind, 1) == if a[1] == l1 && a[2] == l2 then Some([v, w]) else None;
    }
  }
}
