/**
 * Go's `strconv.Atoi` on a 64-bit platform and the `%d` formatting of `fmt`.
 * Atoi accepts an optional '+' or '-' followed by one or more ASCII digits
 * (leading zeros allowed, no underscores in base 10) and reports an error
 * when the value does not fit in a signed 64-bit integer.
 */
module Strconv {
  import opened Wrappers

  const Int64Min: int := -0x8000_0000_0000_0000
  const Int64Max: int := 0x7fff_ffff_ffff_ffff

  predicate IsDigit(c: char) { '0' <= c <= '9' }

  predicate AllDigits(s: string) { forall i :: 0 <= i < |s| ==> IsDigit(s[i]) }

  function DigitValue(c: char): (d: nat)
    requires IsDigit(c)
    ensures d < 10
  {
    c as int - '0' as int
  }

  function DigitChar(d: nat): (c: char)
    requires d < 10
    ensures IsDigit(c) && DigitValue(c) == d
  {
    ('0' as int + d) as char
  }

  /** Decimal value of a digit string, most significant digit first. */
  function DigitsValue(s: string): nat
    requires AllDigits(s)
    decreases |s|
  {
    if |s| == 0 then 0 else 10 * DigitsValue(s[..|s| - 1]) + DigitValue(s[|s| - 1])
  }

  function Pow10(n: nat): nat
  {
    if n == 0 then 1 else 10 * Pow10(n - 1)
  }

  lemma {:induction false} Pow10Add(a: nat, b: nat)
    ensures Pow10(a + b) == Pow10(a) * Pow10(b)
    decreases a
  {
    if a > 0 {
      Pow10Add(a - 1, b);
    }
  }

  lemma {:induction false} Pow10Monotone(a: nat, b: nat)
    requires a <= b
    ensures Pow10(a) <= Pow10(b)
    decreases b
  {
    if a < b {
      Pow10Monotone(a, b - 1);
    }
  }

  /** 10^18 is below the int64 maximum, so 18 digits never overflow. */
  lemma Pow10Of18()
    ensures Pow10(18) == 1_000_000_000_000_000_000 < Int64Max
  {
    assert Pow10(3) == 1000;
    Pow10Add(3, 3);
    Pow10Add(6, 6);
    Pow10Add(12, 6);
  }

  /** A string of k digits is worth less than 10^k. */
  lemma {:induction false} DigitsValueBound(s: string)
    requires AllDigits(s)
    ensures DigitsValue(s) < Pow10(|s|)
    decreases |s|
  {
    if |s| > 0 {
      DigitsValueBound(s[..|s| - 1]);
    }
  }

  /** The digits after an optional leading sign. */
  function Unsigned(s: string): string
  {
    if |s| > 0 && (s[0] == '+' || s[0] == '-') then s[1..] else s
  }

  /** The syntax Atoi accepts: an optional sign, then at least one digit. */
  predicate Numeral(s: string)
  {
    |Unsigned(s)| > 0 && AllDigits(Unsigned(s))
  }

  /** The mathematical value of a numeral, before any range check. */
  function NumeralValue(s: string): int
    requires Numeral(s)
  {
    var d: int := DigitsValue(Unsigned(s));
    if s[0] == '-' then -d else d
  }

  /** `n, err := strconv.Atoi(s)`, read as `Some(n)` when `err == nil`. */
  function Atoi(s: string): (r: Option<int>)
    ensures r.Some? <==> Numeral(s) && Int64Min <= NumeralValue(s) <= Int64Max
    ensures r.Some? ==> Int64Min <= r.value <= Int64Max
    ensures r.Some? ==> 0 < |s| && (r.value < 0 ==> s[0] == '-')
    ensures r.Some? ==> forall i :: 1 <= i < |s| ==> IsDigit(s[i])
    ensures r.Some? ==> r.value == NumeralValue(s)
    ensures 0 < |s| <= 18 && AllDigits(s) ==> r == Some(DigitsValue(s))
  {
    if !Numeral(s) then None
    else
      var n := NumeralValue(s);
      assert |s| <= 18 && AllDigits(s) ==> DigitsValue(s) < Int64Max by {
        if |s| <= 18 && AllDigits(s) {
          DigitsValueBound(s);
          Pow10Monotone(|s|, 18);
          Pow10Of18();
        }
      }
      if Int64Min <= n <= Int64Max then Some(n) else None
  }

  const Uint64Max: int := 0xffff_ffff_ffff_ffff

  /** The length of the leading run of digits of `u`. */
  function DigitCount(u: string): (k: nat)
    ensures k <= |u| && AllDigits(u[..k])
    ensures k < |u| ==> !IsDigit(u[k])
  {
    if |u| == 0 || !IsDigit(u[0]) then 0
    else
      var k := 1 + DigitCount(u[1..]);
      assert u[..k] == [u[0]] + u[1..][..k - 1];
      k
  }

  /** The digits read before any other character are worth more than 2^64-1. */
  predicate LeadingDigitsOverflow(u: string)
  {
    DigitsValue(u[..DigitCount(u)]) > Uint64Max
  }

  /** The outcome of `strconv.ParseUint(u, 10, 64)`. */
  datatype UintResult = UintOk(value: nat) | UintSyntax | UintRange

  /** The leading digit run ends at the first non-digit. */
  lemma DigitCountAt(s: string, j: nat)
    requires j < |s| && AllDigits(s[..j]) && !IsDigit(s[j])
    ensures DigitCount(s) == j
  {
    var k := DigitCount(s);
    forall i | 0 <= i < j ensures IsDigit(s[i]) { assert s[..j][i] == s[i]; }
  }

  /** Dropping the last digit never raises the value. */
  lemma {:induction false} DigitsValuePrefix(p: string, j: nat)
    requires AllDigits(p) && j <= |p|
    ensures AllDigits(p[..j]) && DigitsValue(p[..j]) <= DigitsValue(p)
    decreases |p| - j
  {
    if j < |p| {
      var q := p[..|p| - 1];
      assert q[..j] == p[..j];
      assert DigitsValue(p) == 10 * DigitsValue(q) + DigitValue(p[|p| - 1]);
      DigitsValuePrefix(q, j);
    } else {
      assert p[..j] == p;
    }
  }

  /**
   * ParseUint's loop from byte `i` on, with `n` the value of the digits before
   * it: a non-digit is a syntax error, a digit that takes the value past
   * 2^64-1 is a range error, and the end of a non-empty string is success.
   */
  function ScanUint(u: string, i: nat, n: nat): (r: UintResult)
    requires i <= |u| && AllDigits(u[..i]) && n == DigitsValue(u[..i]) && n <= Uint64Max
    ensures r == UintRange <==> LeadingDigitsOverflow(u)
    ensures r.UintOk? <==> 0 < |u| && AllDigits(u) && DigitsValue(u) <= Uint64Max
    ensures r.UintOk? ==> r.value == DigitsValue(u)
    decreases |u| - i
  {
    var k := DigitCount(u);
    assert i <= k by {
      forall j | 0 <= j < i ensures IsDigit(u[j]) { assert u[..i][j] == u[j]; }
    }
    if i == |u| then
      assert u[..i] == u && u[..k] == u;
      if |u| == 0 then UintSyntax else UintOk(n)
    else if !IsDigit(u[i]) then
      assert u[..k] == u[..i];
      assert !AllDigits(u);
      UintSyntax
    else
      var m := 10 * n + DigitValue(u[i]);
      assert u[..i + 1][..i] == u[..i];
      assert AllDigits(u[..i + 1]) && m == DigitsValue(u[..i + 1]);
      if m > Uint64Max then
        assert u[..k][..i + 1] == u[..i + 1];
        DigitsValuePrefix(u[..k], i + 1);
        assert AllDigits(u) ==> DigitsValue(u) > Uint64Max by {
          if AllDigits(u) { DigitsValuePrefix(u, i + 1); }
        }
        UintRange
      else
        ScanUint(u, i + 1, m)
  }

  /** `strconv.ParseUint(u, 10, 64)`: an empty string is a syntax error. */
  function ParseUint(u: string): (r: UintResult)
    ensures r == UintRange <==> LeadingDigitsOverflow(u)
    ensures r.UintOk? <==> 0 < |u| && AllDigits(u) && DigitsValue(u) <= Uint64Max
    ensures r.UintOk? ==> r.value == DigitsValue(u)
  {
    assert u[..0] == [];
    ScanUint(u, 0, 0)
  }

  /** A sign and at most 17 digits stay below 10^18. */
  lemma ShortNumeral(s: string)
    requires Numeral(s) && |s| <= 18
    ensures -NumeralValue(s) < Pow10(18) && NumeralValue(s) < Pow10(18)
  {
    DigitsValueBound(Unsigned(s));
    Pow10Monotone(|Unsigned(s)|, 18);
  }

  /**
   * The int Atoi returns next to its error. Strings of 1 to 18 bytes take
   * Atoi's own loop, which gives 0 on a syntax error. Longer ones go through
   * `ParseInt`, which strips the sign, calls ParseUint and clamps: a range
   * error from ParseUint, or a magnitude beyond int64, gives the bound of the
   * sign, and a syntax error gives 0.
   */
  function AtoiValue(s: string): (n: int)
    ensures Atoi(s).Some? ==> n == Atoi(s).value
    ensures Numeral(s) && Atoi(s).None? ==> n == (if s[0] == '-' then Int64Min else Int64Max)
    ensures !Numeral(s) && 19 <= |s| && LeadingDigitsOverflow(Unsigned(s)) ==>
      n == (if s[0] == '-' then Int64Min else Int64Max)
    ensures !Numeral(s) && !(19 <= |s| && LeadingDigitsOverflow(Unsigned(s))) ==> n == 0
  {
    if 0 < |s| < 19 then
      if Numeral(s) then
        ShortNumeral(s);
        Pow10Of18();
        NumeralValue(s)
      else 0
    else if |s| == 0 then 0
    else
      var neg := s[0] == '-';
      var u := Unsigned(s);
      assert AllDigits(u) ==> DigitCount(u) == |u| && u[..|u|] == u;
      match ParseUint(u)
      case UintSyntax => 0
      case UintRange => if neg then Int64Min else Int64Max
      case UintOk(un) =>
        if !neg && un > Int64Max then Int64Max
        else if neg && un > -Int64Min then Int64Min
        else if neg then -(un as int) else un
  }

  /**
   * ParseUint reports a range error as soon as the digits overflow, before it
   * reaches a later non-digit: such a string reads as the int64 maximum.
   */
  lemma OverflowBeforeSyntax(p: string, rest: string)
    requires 0 < |p| && AllDigits(p) && DigitsValue(p) > Uint64Max
    requires 0 < |rest| && !IsDigit(rest[0])
    ensures Atoi(p + rest).None?
    ensures AtoiValue(p + rest) == Int64Max
  {
    var s := p + rest;
    assert !IsDigit(s[|p|]);
    assert Unsigned(s) == s;
    assert s[..|p|] == p;
    DigitCountAt(s, |p|);
    DigitsValueBound(p);
    assert Pow10(19) == 10_000_000_000_000_000_000 by { Pow10Of18(); }
    if |p| <= 19 { Pow10Monotone(|p|, 19); }
  }

  /**
   * Without an overflow first, a later non-digit is a syntax error and the
   * string reads as 0, however long it is.
   */
  lemma SyntaxBeforeOverflow(p: string, rest: string)
    requires 0 < |p| && AllDigits(p) && DigitsValue(p) <= Uint64Max
    requires 0 < |rest| && !IsDigit(rest[0])
    ensures Atoi(p + rest).None?
    ensures AtoiValue(p + rest) == 0
  {
    var s := p + rest;
    assert !IsDigit(s[|p|]);
    assert Unsigned(s) == s;
    assert s[..|p|] == p;
    DigitCountAt(s, |p|);
    assert !LeadingDigitsOverflow(s);
    assert !Numeral(s);
  }

  /** Decimal digits of a natural number, without leading zeros. */
  function NatToString(n: nat): (s: string)
    ensures 0 < |s| && AllDigits(s)
    ensures DigitsValue(s) == n
    decreases n
  {
    if n < 10 then [DigitChar(n)]
    else
      var s := NatToString(n / 10) + [DigitChar(n % 10)];
      assert s[..|s| - 1] == NatToString(n / 10);
      s
  }

  /** `fmt.Sprintf("%d", n)`. */
  function Itoa(n: int): string
  {
    if n < 0 then "-" + NatToString(-n) else NatToString(n)
  }

  /** Formatting an int64 with %d and parsing it back with Atoi is the identity. */
  lemma AtoiItoa(n: int)
    requires Int64Min <= n <= Int64Max
    ensures Atoi(Itoa(n)) == Some(n)
  {
    var s := Itoa(n);
    if n < 0 {
      assert Unsigned(s) == NatToString(-n);
    } else {
      assert Unsigned(s) == NatToString(n);
    }
  }
}
