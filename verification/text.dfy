/**
 * The two pieces of Python string behaviour the register planner relies on:
 * `str.lower()` on the thermocouple-type and unit keys, and `"{}".format(n)`
 * on an integer channel number.
 */
module Text {

  /** U+212A KELVIN SIGN, the one non-ASCII character that Python lower-cases to an ASCII letter of the lookup tables. */
  const KELVIN_SIGN: char := '\U{212A}'

  function LowerChar(c: char): char {
    if 'A' <= c <= 'Z' then (c as int + 32) as char
    else if c == KELVIN_SIGN then 'k'
    else c
  }

  /** `s.lower()`, character by character. */
  function Lower(s: string): string {
    seq(|s|, i requires 0 <= i < |s| => LowerChar(s[i]))
  }

  /** Lower-casing twice is lower-casing once, so looking up `s.lower()` is case-insensitive. */
  lemma LowerIdempotent(s: string)
    ensures Lower(Lower(s)) == Lower(s)
  {
  }

  function DigitChar(d: nat): (c: char)
    requires d < 10
    ensures '0' <= c <= '9'
  {
    ('0' as int + d) as char
  }

  /** Decimal digits of `n` without leading zeros, as `str(n)` prints them. */
  function NatToString(n: nat): (s: string)
    ensures |s| >= 1
    ensures n >= 10 ==> |s| >= 2
    ensures forall i :: 0 <= i < |s| ==> '0' <= s[i] <= '9'
    decreases n
  {
    if n < 10 then [DigitChar(n)] else NatToString(n / 10) + [DigitChar(n % 10)]
  }

  /** `"{}".format(i)` for a Python int: a minus sign before the digits of a negative number. */
  function IntToString(i: int): (s: string)
    ensures |s| >= 1
    ensures forall k :: 0 <= k < |s| ==> s[k] == '-' || '0' <= s[k] <= '9'
    ensures s[0] == '-' <==> i < 0
  {
    if i < 0 then "-" + NatToString(-i) else NatToString(i)
  }

  /** Different numbers print differently: the last digit fixes `n % 10`, the rest fixes `n / 10`. */
  lemma {:induction false} NatToStringInjective(a: nat, b: nat)
    requires NatToString(a) == NatToString(b)
    ensures a == b
    decreases a
  {
    var s := NatToString(a);
    if a < 10 && b < 10 {
      assert DigitChar(a) == s[0] == DigitChar(b);
    } else if a >= 10 && b >= 10 {
      var n := |s|;
      assert s == NatToString(a / 10) + [DigitChar(a % 10)];
      assert s == NatToString(b / 10) + [DigitChar(b % 10)];
      assert DigitChar(a % 10) == s[n - 1] == DigitChar(b % 10);
      assert NatToString(a / 10) == s[..n - 1] == NatToString(b / 10);
      NatToStringInjective(a / 10, b / 10);
    }
  }

  lemma IntToStringInjective(a: int, b: int)
    requires IntToString(a) == IntToString(b)
    ensures a == b
  {
    var s := IntToString(a);
    if a < 0 {
      assert b < 0;
      assert NatToString(-a) == s[1..] == NatToString(-b);
      NatToStringInjective(-a, -b);
    } else {
      assert b >= 0;
      NatToStringInjective(a, b);
    }
  }

  /** Index of the first `c` in `x`, or `|x|` when there is none. */
  function Find(x: string, c: char): (k: nat)
    ensures k <= |x|
  {
    if |x| == 0 then 0 else if x[0] == c then 0 else 1 + Find(x[1..], c)
  }

  /** In `n + s`, where `s` starts with `c` and `n` has no `c`, the first `c` is where `s` begins. */
  lemma {:induction false} FindAtJoin(n: string, s: string, c: char)
    requires c !in n
    requires |s| > 0 && s[0] == c
    ensures Find(n + s, c) == |n|
    decreases |n|
  {
    if |n| > 0 {
      assert (n + s)[1..] == n[1..] + s;
      FindAtJoin(n[1..], s, c);
    }
  }
}
