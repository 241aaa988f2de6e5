/**
 * The anchored regular expressions of reswitch and retable. Every pattern
 * there is literal text plus the groups "([^/]+)" and "([0-9]+)", each group
 * filling one whole '/'-separated segment, so `^pattern$` matches a path
 * exactly when the path's parts match the pattern's segments one for one;
 * `FindStringSubmatch` then yields the groups' texts in order.
 */
module RegexSegs {
  import opened Wrappers
  import opened Strings
  import opened Strconv
  import opened Segments

  /** "([^/]+)": one or more characters other than '/'; "([0-9]+)": one or more ASCII digits. */
  datatype Group = NotSlash | Digits

  /** A pattern: literal segments and capture groups, between '^' and '$'. */
  type Regex = seq<Seg<Group>>

  /** A whole path part (which never holds '/') is in the group's language. */
  predicate InGroup(g: Group, part: string)
  {
    match g
    case NotSlash => part != ""
    case Digits => part != "" && AllDigits(part)
  }

  function Capture(part: string, g: Group): Option<string>
  {
    if InGroup(g, part) then Some(part) else None
  }

  function Capturer(): (string, Group) -> Option<string>
  {
    (part: string, g: Group) => Capture(part, g)
  }

  /** `regex.FindStringSubmatch(path)[1:]`: the captured texts, or no match. */
  function FindSubmatch(path: string, re: Regex): Option<seq<string>>
  {
    MatchSegs(Split(path, '/'), re, Capturer())
  }

  /** A match needs as many path parts as segments, each in its segment's language, and yields one capture per group. */
  lemma FindSubmatchMeaning(path: string, re: Regex)
    ensures FindSubmatch(path, re).Some? <==>
      |Split(path, '/')| == |re| &&
      forall i :: 0 <= i < |re| ==> Accepts(Split(path, '/')[i], re[i], Capturer())
    ensures FindSubmatch(path, re).Some? ==> |FindSubmatch(path, re).value| == ParamsBetween(re, 0, |re|)
  {
    MatchSegsAccepts(Split(path, '/'), re, Capturer());
  }

  /** Each capture is the text of the part its group covers, in group order: non-empty, without '/', in the group's language. */
  lemma CaptureAt(path: string, re: Regex, j: nat)
    requires FindSubmatch(path, re).Some? && j < |re| && re[j].Param?
    ensures ParamsBetween(re, 0, j) < |FindSubmatch(path, re).value|
    ensures var c := FindSubmatch(path, re).value[ParamsBetween(re, 0, j)];
      c == Split(path, '/')[j] && c != "" && '/' !in c && InGroup(re[j].tag, c)
  {
    MatchSegsBindings(Split(path, '/'), re, Capturer(), j);
  }
}
