/**
 * The few JavaScript string operations the components rely on:
 * `slice` with a non-negative start or a negative start, ASCII
 * `toLowerCase`, and the decimal rendering of an integer in a
 * template literal.
 */
module Text {
  import opened Wrappers

  /** A truthy JavaScript string: present and not empty. */
  predicate Truthy(s: Option<string>) {
    s.Some? && s.value != ""
  }

  function Min(a: int, b: int): int { if a <= b then a else b }

  /** `s.slice(0, k)`: the first `k` characters, or all of `s` when it is shorter. */
  function SliceHead(s: string, k: nat): (r: string)
    ensures |r| == Min(k, |s|)
  {
    s[..Min(k, |s|)]
  }

  /** `s.slice(-k)` for `k > 0`: the last `k` characters, or all of `s` when it is shorter. */
  function SliceTail(s: string, k: nat): (r: string)
    requires k > 0
    ensures |r| == Min(k, |s|)
  {
    s[|s| - Min(k, |s|)..]
  }

  /** `c.toLowerCase()` restricted to ASCII letters. */
  function LowerChar(c: char): char {
    if 'A' <= c <= 'Z' then (c as int + 32) as char else c
  }

  function Lower(s: string): (r: string)
    ensures |r| == |s|
    ensures forall i :: 0 <= i < |s| ==> r[i] == LowerChar(s[i])
  {
    seq(|s|, i requires 0 <= i < |s| => LowerChar(s[i]))
  }

  /** Lower-casing twice is lower-casing once. */
  lemma LowerIdempotent(s: string)
    ensures Lower(Lower(s)) == Lower(s)
  {
  }

  predicate IsDigits(s: string) {
    forall i :: 0 <= i < |s| ==> '0' <= s[i] <= '9'
  }

  function DigitChar(d: nat): (c: char)
    requires d < 10
    ensures '0' <= c <= '9' && c as int - '0' as int == d
  {
    ('0' as int + d) as char
  }

  /** The decimal digits of `n`, most significant first, without leading zeros. */
  function NatToDecimal(n: nat): (s: string)
    ensures |s| >= 1 && IsDigits(s)
    ensures s[0] == '0' ==> n == 0
    decreases n
  {
    if n < 10 then [DigitChar(n)] else NatToDecimal(n / 10) + [DigitChar(n % 10)]
  }

  /**
   * `${i}` for an integer `i` below 10^21 in magnitude: a minus sign before the
   * digits of a negative number. (JavaScript writes larger Numbers in exponent form.)
   */
  function IntToDecimal(i: int): (s: string)
    ensures |s| >= 1
  {
    if i < 0 then "-" + NatToDecimal(-i) else NatToDecimal(i)
  }

  /** Reads a string of decimal digits back as a number. */
  function ParseDecimal(s: string): nat
    requires IsDigits(s)
    decreases |s|
  {
    if s == [] then 0 else 10 * ParseDecimal(s[..|s| - 1]) + (s[|s| - 1] as int - '0' as int)
  }

  function ParseInt(s: string): int
    requires |s| >= 1
    requires s[0] == '-' ==> IsDigits(s[1..])
    requires s[0] != '-' ==> IsDigits(s)
  {
    if s[0] == '-' then -(ParseDecimal(s[1..]) as int) else ParseDecimal(s)
  }

  lemma {:induction false} DecimalRoundTrip(n: nat)
    ensures ParseDecimal(NatToDecimal(n)) == n
    decreases n
  {
    if n >= 10 {
      var s := NatToDecimal(n);
      assert s[..|s| - 1] == NatToDecimal(n / 10);
      DecimalRoundTrip(n / 10);
    }
  }

  /** Parsing the rendering of any integer gives the integer back. */
  lemma IntRoundTrip(i: int)
    ensures var s := IntToDecimal(i);
            && (s[0] == '-' ==> IsDigits(s[1..]))
            && (s[0] != '-' ==> IsDigits(s))
            && ParseInt(s) == i
  {
    var s := IntToDecimal(i);
    if i < 0 {
      assert s[1..] == NatToDecimal(-i);
      DecimalRoundTrip(-i);
    } else {
      DecimalRoundTrip(i);
    }
  }

  /** Distinct integers render as distinct strings. */
  lemma IntToDecimalInjective(a: int, b: int)
    requires IntToDecimal(a) == IntToDecimal(b)
    ensures a == b
  {
    IntRoundTrip(a);
    IntRoundTrip(b);
  }
}
