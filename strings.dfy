/**
 * String helpers the formatting code relies on: decimal rendering of integers
 * (Python's `str(n)` / f-string `{n}`), `sep.join(parts)`, and substring search
 * (Python's `t in s`).
 */
module Strings {

  predicate IsDigit(c: char) {
    '0' <= c <= '9'
  }

  predicate AllDigits(s: string) {
    forall k :: 0 <= k < |s| ==> IsDigit(s[k])
  }

  function DigitChar(d: nat): (c: char)
    requires d < 10
    ensures IsDigit(c)
  {
    ('0' as int + d) as char
  }

  function DigitValue(c: char): nat
    requires IsDigit(c)
  {
    (c as int - '0' as int) as nat
  }

  /** Decimal digits of `n`, most significant first, without leading zeros. */
  function NatToString(n: nat): (s: string)
    ensures |s| >= 1 && AllDigits(s)
    decreases n
  {
    if n < 10 then [DigitChar(n)] else NatToString(n / 10) + [DigitChar(n % 10)]
  }

  /** The number a string of decimal digits denotes; the reading direction of NatToString. */
  function DigitsValue(s: string): nat
    requires AllDigits(s)
    decreases |s|
  {
    if s == [] then 0 else DigitsValue(s[..|s| - 1]) * 10 + DigitValue(s[|s| - 1])
  }

  lemma {:induction false} NatToStringRoundTrip(n: nat)
    ensures DigitsValue(NatToString(n)) == n
    decreases n
  {
    var s := NatToString(n);
    if n < 10 {
      assert s[..|s| - 1] == [];
    } else {
      assert s[..|s| - 1] == NatToString(n / 10);
      NatToStringRoundTrip(n / 10);
    }
  }

  /** Python's `str(i)` for an int: an optional minus sign, then the digits of |i|. */
  function IntToString(i: int): (s: string)
    ensures |s| >= 1
    ensures (s[0] == '-') <==> i < 0
  {
    if i < 0 then "-" + NatToString(-i) else NatToString(i)
  }

  /** Different naturals have different decimal renderings. */
  lemma NatToStringInjective(m: nat, n: nat)
    requires NatToString(m) == NatToString(n)
    ensures m == n
  {
    NatToStringRoundTrip(m);
    NatToStringRoundTrip(n);
  }

  /** Different numbers are rendered differently, so a rendered number identifies its value. */
  lemma IntToStringInjective(a: int, b: int)
    requires IntToString(a) == IntToString(b)
    ensures a == b
  {
    if a < 0 {
      assert b < 0;
      assert IntToString(a)[1..] == NatToString(-a);
      assert IntToString(b)[1..] == NatToString(-b);
      NatToStringInjective(-a, -b);
    } else {
      assert b >= 0;
      NatToStringInjective(a, b);
    }
  }

  /** Python's `sep.join(parts)`. */
  function Join(parts: seq<string>, sep: string): string
    decreases |parts|
  {
    if |parts| == 0 then ""
    else if |parts| == 1 then parts[0]
    else parts[0] + sep + Join(parts[1..], sep)
  }

  /** Where part `i` starts in `Join(parts, sep)`: every earlier part plus one separator each. */
  function Offset(parts: seq<string>, sep: string, i: nat): nat
    requires i <= |parts|
    decreases i
  {
    if i == 0 then 0 else |parts[0]| + |sep| + Offset(parts[1..], sep, i - 1)
  }

  lemma {:induction false} OffsetStep(parts: seq<string>, sep: string, i: nat)
    requires i < |parts|
    ensures Offset(parts, sep, i + 1) == Offset(parts, sep, i) + |parts[i]| + |sep|
    decreases i
  {
    if i > 0 {
      OffsetStep(parts[1..], sep, i - 1);
    }
  }

  /** Python's `t in s` for strings. */
  ghost predicate Contains(s: string, t: string) {
    exists k :: OccursAt(s, t, k)
  }

  predicate OccursAt(s: string, t: string, k: int) {
    0 <= k && k + |t| <= |s| && s[k..k + |t|] == t
  }

  lemma ContainsMiddle(a: string, t: string, b: string)
    ensures Contains(a + t + b, t)
  {
    var s := a + t + b;
    assert s[|a|..|a| + |t|] == t;
    assert OccursAt(s, t, |a|);
  }

  /** An occurrence in `y` is an occurrence in `x + y`, shifted by `|x|`. */
  lemma OccursAfter(x: string, y: string, t: string, k: int)
    requires OccursAt(y, t, k)
    ensures OccursAt(x + y, t, |x| + k)
  {
    assert (x + y)[|x| + k..|x| + k + |t|] == y[k..k + |t|];
  }

  /**
   * Part `i` of a join sits whole at Offset(i), and the last part ends the
   * string.
   */
  lemma {:induction false} JoinPartAt(parts: seq<string>, sep: string, i: nat)
    requires i < |parts|
    ensures OccursAt(Join(parts, sep), parts[i], Offset(parts, sep, i))
    ensures i + 1 == |parts| ==> Offset(parts, sep, i) + |parts[i]| == |Join(parts, sep)|
    decreases i
  {
    if |parts| == 1 {
      assert Join(parts, sep)[0..|parts[0]|] == parts[0];
    } else {
      var head := parts[0] + sep;
      var rest := parts[1..];
      assert Join(parts, sep) == head + Join(rest, sep);
      if i == 0 {
        assert Join(parts, sep)[0..|parts[0]|] == parts[0];
      } else {
        JoinPartAt(rest, sep, i - 1);
        assert rest[i - 1] == parts[i];
        OccursAfter(head, Join(rest, sep), parts[i], Offset(rest, sep, i - 1));
      }
    }
  }

  /** Exactly one separator follows every part of a join but the last. */
  lemma {:induction false} JoinSeparatorAfter(parts: seq<string>, sep: string, i: nat)
    requires i + 1 < |parts|
    ensures OccursAt(Join(parts, sep), sep, Offset(parts, sep, i) + |parts[i]|)
    decreases i
  {
    var head := parts[0] + sep;
    var rest := parts[1..];
    assert Join(parts, sep) == head + Join(rest, sep);
    if i == 0 {
      assert Join(parts, sep)[|parts[0]|..|parts[0]| + |sep|] == sep;
    } else {
      JoinSeparatorAfter(rest, sep, i - 1);
      assert rest[i - 1] == parts[i];
      OccursAfter(head, Join(rest, sep), sep, Offset(rest, sep, i - 1) + |parts[i]|);
    }
  }
}
