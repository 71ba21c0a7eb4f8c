/**
 * The three JavaScript string built-ins the application relies on, on
 * non-negative integers and character sequences:
 *   - `String(n)` for a non-negative integer n (decimal, no leading zeros),
 *   - `s.padStart(width, fill)` with a one-character fill,
 *   - `s.includes(sub)`.
 * Each comes with an independent description it is proved against.
 */
module Strings {

  predicate IsDigit(c: char) {
    '0' <= c <= '9'
  }

  predicate AllDigits(s: string) {
    forall i :: 0 <= i < |s| ==> IsDigit(s[i])
  }

  function DigitChar(d: nat): (c: char)
    requires d < 10
    ensures IsDigit(c)
    ensures c as int - '0' as int == d
  {
    ('0' as int + d) as char
  }

  function DigitValue(c: char): (d: nat)
    requires IsDigit(c)
    ensures d < 10
  {
    c as int - '0' as int
  }

  /** `String(n)`: the decimal form of n, most significant digit first. */
  function NatToString(n: nat): (s: string)
    ensures 1 <= |s|
    ensures AllDigits(s)
    ensures n < 10 <==> |s| == 1
    ensures |s| > 1 ==> s[0] != '0'
    decreases n
  {
    if n < 10 then [DigitChar(n)] else NatToString(n / 10) + [DigitChar(n % 10)]
  }

  /** The decimal form of n has at most two digits exactly when n < 100. */
  lemma NatToStringShort(n: nat)
    ensures |NatToString(n)| <= 2 <==> n < 100
  {
    if n >= 10 {
      assert |NatToString(n)| == |NatToString(n / 10)| + 1;
    }
  }

  /** The value of a decimal numeral; leading zeros are allowed. */
  function ParseDecimal(s: string): nat
    requires AllDigits(s)
    decreases |s|
  {
    if s == [] then 0 else ParseDecimal(s[..|s| - 1]) * 10 + DigitValue(s[|s| - 1])
  }

  /** Reading back the decimal form of n gives n. */
  lemma {:induction false} ParseNatToString(n: nat)
    ensures ParseDecimal(NatToString(n)) == n
    decreases n
  {
    var s := NatToString(n);
    if n < 10 {
      assert s[..0] == [];
    } else {
      ParseNatToString(n / 10);
      assert s[..|s| - 1] == NatToString(n / 10);
    }
  }

  /** Distinct numbers have distinct decimal forms. */
  lemma NatToStringInjective(m: nat, n: nat)
    requires NatToString(m) == NatToString(n)
    ensures m == n
  {
    ParseNatToString(m);
    ParseNatToString(n);
  }

  /** Zeros in front of a numeral do not change its value. */
  lemma {:induction false} ParseIgnoresLeadingZeros(z: string, s: string)
    requires forall i :: 0 <= i < |z| ==> z[i] == '0'
    requires AllDigits(s)
    ensures AllDigits(z + s)
    ensures ParseDecimal(z + s) == ParseDecimal(s)
    decreases |z| + |s|
  {
    var t := z + s;
    if s == [] {
      assert t == z;
      if z != [] {
        assert t[..|t| - 1] == z[..|z| - 1] + [];
        ParseIgnoresLeadingZeros(z[..|z| - 1], []);
      }
    } else {
      assert t[..|t| - 1] == z + s[..|s| - 1];
      ParseIgnoresLeadingZeros(z, s[..|s| - 1]);
    }
  }

  lemma ConcatAssoc(a: string, b: string, c: string)
    ensures a + b + c == a + (b + c)
  {
  }

  /**
   * `s.padStart(width, fill)`: fill is put in front of s until the result is
   * `width` long; a string already that long or longer comes back unchanged.
   */
  function PadStart(s: string, width: nat, fill: char): (r: string)
    ensures r == Repeat(fill, if |s| >= width then 0 else width - |s|) + s
    decreases width - |s|
  {
    if |s| >= width then s
    else
      var r := PadStart([fill] + s, width, fill);
      ghost var k := width - |s| - 1;
      assert r == Repeat(fill, k) + ([fill] + s);
      ConcatAssoc(Repeat(fill, k), [fill], s);
      r
  }

  /** k copies of c. */
  function Repeat(c: char, k: nat): (r: string)
    ensures |r| == k
    ensures forall i :: 0 <= i < k ==> r[i] == c
  {
    if k == 0 then [] else Repeat(c, k - 1) + [c]
  }

  /** The three parts of a concatenation can be sliced back out of it. */
  lemma SplitThree(a: string, b: string, c: string)
    ensures (a + b + c)[..|a|] == a
    ensures (a + b + c)[|a|..|a| + |b|] == b
    ensures (a + b + c)[|a| + |b|..] == c
  {
    var s := a + b + c;
    assert s[..|a|] == a;
    assert s[|a|..|a| + |b|] == b;
  }

  /** `sub` occurs in `s` starting at position i. */
  predicate OccursAt(s: string, sub: string, i: nat) {
    i + |sub| <= |s| && s[i..i + |sub|] == sub
  }

  /** `s.includes(sub)`, scanning left to right. */
  function Includes(s: string, sub: string): (b: bool)
    ensures b <==> exists i: nat :: OccursAt(s, sub, i)
    decreases |s|
  {
    if |s| < |sub| then false
    else if s[..|sub|] == sub then (assert OccursAt(s, sub, 0); true)
    else
      var rest := Includes(s[1..], sub);
      IncludesShift(s, sub);
      rest
  }

  /** An occurrence in s either starts at 0 or is an occurrence in s[1..] shifted by one. */
  lemma IncludesShift(s: string, sub: string)
    requires |s| >= 1
    ensures (exists i: nat :: OccursAt(s, sub, i)) <==>
            (OccursAt(s, sub, 0) || exists j: nat :: OccursAt(s[1..], sub, j))
  {
    forall i: nat | OccursAt(s, sub, i) && i > 0
      ensures OccursAt(s[1..], sub, i - 1)
    {
      assert s[1..][i - 1..i - 1 + |sub|] == s[i..i + |sub|];
    }
    forall j: nat | OccursAt(s[1..], sub, j)
      ensures OccursAt(s, sub, j + 1)
    {
      assert s[1..][j..j + |sub|] == s[j + 1..j + 1 + |sub|];
    }
  }

  /** An occurrence starting at i lies at or after the end of any prefix whose characters differ from its first. */
  lemma OccurrenceAfterPrefix(s: string, sub: string, i: nat, n: nat)
    requires OccursAt(s, sub, i) && sub != []
    requires n <= |s| && forall k :: 0 <= k < n ==> s[k] != sub[0]
    ensures n <= i
  {
    assert s[i] == s[i..i + |sub|][0];
  }

  /** An occurrence starting at i ends before any suffix whose characters differ from its first. */
  lemma OccurrenceBeforeSuffix(s: string, sub: string, i: nat, n: nat)
    requires OccursAt(s, sub, i) && sub != []
    requires n <= |s| && forall k :: n <= k < |s| ==> s[k] != sub[0]
    ensures i < n
  {
    assert s[i] == s[i..i + |sub|][0];
  }

  /** An occurrence starting at or before position n cannot cover n when s[n] is no character of sub. */
  lemma OccurrenceAvoids(s: string, sub: string, i: nat, n: nat)
    requires OccursAt(s, sub, i)
    requires i <= n < |s| && s[n] !in sub
    ensures i + |sub| <= n
  {
  }
}
