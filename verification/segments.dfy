/**
 * Segment-wise matching, the common shape of every matcher in the model:
 * a path split on '/' is compared part by part with a compiled pattern whose
 * segments are literal text or parameters, and parameters are converted by a
 * matcher-specific `bind` (which may reject the part).
 */
module Segments {
  import opened Wrappers

  /** One slash-separated piece of a compiled pattern: literal text or a parameter tagged `K`. */
  datatype Seg<K> = Lit(text: string) | Param(tag: K)

  /** Number of parameter segments among `specs[i..j]`. */
  function ParamsBetween<K>(specs: seq<Seg<K>>, i: nat, j: nat): nat
    requires i <= j <= |specs|
    decreases j - i
  {
    if i == j then 0 else (if specs[i].Param? then 1 else 0) + ParamsBetween(specs, i + 1, j)
  }

  /** Whether one path part satisfies one pattern segment. */
  predicate Accepts<K, V>(part: string, spec: Seg<K>, bind: (string, K) -> Option<V>)
  {
    match spec
    case Lit(t) => part == t
    case Param(k) => bind(part, k).Some?
  }

  /** What segment `i` contributes on its own: no binding for a literal, one for a parameter. */
  function Step<K, V>(part: string, spec: Seg<K>, bind: (string, K) -> Option<V>): (r: Option<seq<V>>)
    ensures r.Some? <==> Accepts(part, spec, bind)
    ensures r.Some? ==> |r.value| == (if spec.Param? then 1 else 0)
  {
    match spec
    case Lit(t) => if part == t then Some([]) else None
    case Param(k) => (match bind(part, k) case None => None case Some(v) => Some([v]))
  }

  /** Compare `parts[i..]` with `specs[i..]` in order, stopping at the first failure. */
  function MatchFrom<K, V>(parts: seq<string>, specs: seq<Seg<K>>, bind: (string, K) -> Option<V>, i: nat): Option<seq<V>>
    requires |parts| == |specs| && i <= |parts|
    decreases |parts| - i
  {
    if i == |parts| then Some([])
    else
      var head := Step(parts[i], specs[i], bind);
      if head.None? then None
      else
        var tail := MatchFrom(parts, specs, bind, i + 1);
        if tail.None? then None else Some(head.value + tail.value)
  }

  /** From `i` on, the match succeeds exactly when every part satisfies its segment, with one value per parameter. */
  lemma {:induction false} MatchFromAccepts<K, V>(parts: seq<string>, specs: seq<Seg<K>>, bind: (string, K) -> Option<V>, i: nat)
    requires |parts| == |specs| && i <= |parts|
    ensures MatchFrom(parts, specs, bind, i).Some? <==> forall j :: i <= j < |parts| ==> Accepts(parts[j], specs[j], bind)
    ensures MatchFrom(parts, specs, bind, i).Some? ==> |MatchFrom(parts, specs, bind, i).value| == ParamsBetween(specs, i, |specs|)
    decreases |parts| - i
  {
    if i < |parts| {
      MatchFromAccepts(parts, specs, bind, i + 1);
    }
  }

  /**
   * The whole match: part counts must agree, then every part must satisfy its
   * segment; on success the bindings of the parameters, left to right.
   */
  function MatchSegs<K, V>(parts: seq<string>, specs: seq<Seg<K>>, bind: (string, K) -> Option<V>): Option<seq<V>>
  {
    if |parts| != |specs| then None else MatchFrom(parts, specs, bind, 0)
  }

  /** The match succeeds exactly when the counts agree and every part satisfies its segment. */
  lemma MatchSegsAccepts<K, V>(parts: seq<string>, specs: seq<Seg<K>>, bind: (string, K) -> Option<V>)
    ensures MatchSegs(parts, specs, bind).Some? <==> |parts| == |specs| && forall i :: 0 <= i < |parts| ==> Accepts(parts[i], specs[i], bind)
    ensures MatchSegs(parts, specs, bind).Some? ==> |MatchSegs(parts, specs, bind).value| == ParamsBetween(specs, 0, |specs|)
  {
    if |parts| == |specs| {
      MatchFromAccepts(parts, specs, bind, 0);
    }
  }

  /** The binding made at position `j` sits at index `ParamsBetween(specs, i, j)` of the result. */
  lemma {:induction false} MatchFromBindings<K, V>(parts: seq<string>, specs: seq<Seg<K>>, bind: (string, K) -> Option<V>, i: nat, j: nat)
    requires |parts| == |specs| && i <= j < |specs| && specs[j].Param?
    requires MatchFrom(parts, specs, bind, i).Some?
    ensures ParamsBetween(specs, i, j) < |MatchFrom(parts, specs, bind, i).value|
    ensures bind(parts[j], specs[j].tag) == Some(MatchFrom(parts, specs, bind, i).value[ParamsBetween(specs, i, j)])
    decreases j - i
  {
    var head := Step(parts[i], specs[i], bind);
    var tail := MatchFrom(parts, specs, bind, i + 1);
    assert MatchFrom(parts, specs, bind, i).value == head.value + tail.value;
    if i < j {
      MatchFromBindings(parts, specs, bind, i + 1, j);
    }
  }

  /** On success the values bound are exactly `bind` of the path parts at the parameter positions, in order. */
  lemma MatchSegsBindings<K, V>(parts: seq<string>, specs: seq<Seg<K>>, bind: (string, K) -> Option<V>, j: nat)
    requires MatchSegs(parts, specs, bind).Some?
    requires j < |specs| && specs[j].Param?
    ensures ParamsBetween(specs, 0, j) < |MatchSegs(parts, specs, bind).value|
    ensures bind(parts[j], specs[j].tag) == Some(MatchSegs(parts, specs, bind).value[ParamsBetween(specs, 0, j)])
  {
    MatchFromBindings(parts, specs, bind, 0, j);
  }

  /** Prefixing a part and a segment shifts the walk by one position. */
  lemma {:induction false} MatchFromShift<K, V>(x: string, s: Seg<K>, parts: seq<string>, specs: seq<Seg<K>>, bind: (string, K) -> Option<V>, i: nat)
    requires |parts| == |specs| && i <= |parts|
    ensures MatchFrom([x] + parts, [s] + specs, bind, i + 1) == MatchFrom(parts, specs, bind, i)
    decreases |parts| - i
  {
    if i < |parts| {
      assert ([x] + parts)[i + 1] == parts[i] && ([s] + specs)[i + 1] == specs[i];
      MatchFromShift(x, s, parts, specs, bind, i + 1);
    }
  }

  /** Matching a first part against a first segment, then the rest against the rest. */
  lemma MatchSegsCons<K, V>(x: string, s: Seg<K>, parts: seq<string>, specs: seq<Seg<K>>, bind: (string, K) -> Option<V>)
    ensures MatchSegs([x] + parts, [s] + specs, bind) ==
      var head := Step(x, s, bind);
      var tail := MatchSegs(parts, specs, bind);
      if head.None? || tail.None? then None else Some(head.value + tail.value)
  {
    if |parts| == |specs| {
      MatchFromShift(x, s, parts, specs, bind, 0);
    }
  }

  /** A single part against a single segment is that segment's step. */
  lemma MatchSegsOne<K, V>(x: string, s: Seg<K>, bind: (string, K) -> Option<V>)
    ensures MatchSegs([x], [s], bind) == Step(x, s, bind)
  {
    var none: seq<V> := [];
    assert MatchFrom([x], [s], bind, 1) == Some(none);
    if Step(x, s, bind).Some? {
      assert Step(x, s, bind).value + none == Step(x, s, bind).value;
    }
  }
}
