/**
  The parts of .NET string formatting the runner relies on: `int.ToString()`,
  `string.PadLeft`, `string.ToLower` on ASCII text, and substring search.
 */
module Formatting {

  predicate IsDigit(c: char) {
    '0' <= c <= '9'
  }

  predicate AllDigits(s: string) {
    forall i :: 0 <= i < |s| ==> IsDigit(s[i])
  }

  function DigitChar(d: nat): (c: char)
    requires d < 10
    ensures IsDigit(c) && c as int - '0' as int == d
  {
    (('0' as int) + d) as char
  }

  /** The number a string of decimal digits denotes; leading zeros are allowed. */
  function DecimalValue(s: string): nat
    requires AllDigits(s)
  {
    if s == [] then 0 else DecimalValue(s[..|s| - 1]) * 10 + (s[|s| - 1] as int - '0' as int)
  }

  /** `n.ToString()` for a non-negative `n`: shortest decimal digits, no leading zero. */
  function NatToDecimal(n: nat): (s: string)
    ensures |s| >= 1 && AllDigits(s) && DecimalValue(s) == n
    ensures |s| > 1 ==> s[0] != '0'
    decreases n
  {
    if n < 10 then [DigitChar(n)]
    else
      var s := NatToDecimal(n / 10) + [DigitChar(n % 10)];
      assert s[..|s| - 1] == NatToDecimal(n / 10);
      s
  }

  /** `i.ToString()`: a minus sign before the shortest digits of a negative number. */
  function IntToString(i: int): (s: string)
    ensures |s| >= 1
    ensures i < 0 <==> s[0] == '-'
    ensures i < 0 ==> AllDigits(s[1..]) && DecimalValue(s[1..]) == -i
    ensures i >= 0 ==> AllDigits(s) && DecimalValue(s) == i
    ensures var digits := if i < 0 then s[1..] else s;
      |digits| >= 1 && (|digits| > 1 ==> digits[0] != '0')
  {
    if i < 0 then
      var s := "-" + NatToDecimal(-i);
      assert s[1..] == NatToDecimal(-i);
      s
    else NatToDecimal(i)
  }

  function Repeat(c: char, n: nat): (s: string)
    ensures |s| == n && forall i :: 0 <= i < n ==> s[i] == c
  {
    if n == 0 then [] else [c] + Repeat(c, n - 1)
  }

  /**
    `s.PadLeft(totalWidth, c)`: `s` right-aligned in a string of at least
    `totalWidth` characters, filled with `c`; never shortened.
   */
  function PadLeft(s: string, totalWidth: nat, c: char): (r: string)
    ensures |r| == if |s| >= totalWidth then |s| else totalWidth
    ensures r[|r| - |s|..] == s
    ensures forall i :: 0 <= i < |r| - |s| ==> r[i] == c
  {
    if |s| >= totalWidth then s else Repeat(c, totalWidth - |s|) + s
  }

  lemma {:induction false} ZerosValue(k: nat)
    ensures AllDigits(Repeat('0', k)) && DecimalValue(Repeat('0', k)) == 0
  {
    if k > 0 {
      var z := Repeat('0', k);
      assert z[..k - 1] == Repeat('0', k - 1);
      ZerosValue(k - 1);
    }
  }

  /** Leading zeros do not change the value of a decimal string. */
  lemma {:induction false} LeadingZeros(k: nat, s: string)
    requires AllDigits(s)
    ensures AllDigits(Repeat('0', k) + s)
    ensures DecimalValue(Repeat('0', k) + s) == DecimalValue(s)
  {
    var z := Repeat('0', k);
    ZerosValue(k);
    if s == [] {
      assert z + s == z;
    } else {
      var t := z + s;
      assert t[..|t| - 1] == z + s[..|s| - 1];
      assert t[|t| - 1] == s[|s| - 1];
      LeadingZeros(k, s[..|s| - 1]);
    }
  }

  predicate IsUpper(c: char) {
    'A' <= c <= 'Z'
  }

  /** `s.ToLower()` on ASCII letters. */
  function AsciiLower(s: string): (r: string)
    ensures |r| == |s|
    ensures forall i :: 0 <= i < |r| ==> !IsUpper(r[i])
    ensures forall i :: 0 <= i < |s| && IsUpper(s[i]) ==> r[i] as int == s[i] as int + 32
    ensures forall i :: 0 <= i < |s| && !IsUpper(s[i]) ==> r[i] == s[i]
  {
    if s == [] then []
    else
      var c := if IsUpper(s[0]) then (s[0] as int + 32) as char else s[0];
      [c] + AsciiLower(s[1..])
  }

  /** `sub` occurs in `s` starting at index `i`. */
  ghost predicate OccursAt(s: string, sub: string, i: int) {
    0 <= i <= |s| - |sub| && s[i..i + |sub|] == sub
  }

  /** `s.Contains(sub)`. */
  ghost predicate Contains(s: string, sub: string) {
    exists i :: OccursAt(s, sub, i)
  }

  /** A string contains its own suffix. */
  lemma ContainsSuffix(a: string, m: string)
    ensures Contains(a + m, m)
  {
    assert (a + m)[|a|..|a| + |m|] == m;
    assert OccursAt(a + m, m, |a|);
  }

  /** A string contains its own prefix. */
  lemma ContainsPrefix(m: string, a: string)
    ensures Contains(m + a, m)
  {
    assert (m + a)[0..|m|] == m;
    assert OccursAt(m + a, m, 0);
  }

  /** Appending to a string keeps every substring it already had. */
  lemma ContainsExtend(s: string, m: string, t: string)
    requires Contains(s, m)
    ensures Contains(s + t, m)
  {
    var i :| OccursAt(s, m, i);
    assert (s + t)[i..i + |m|] == s[i..i + |m|];
    assert OccursAt(s + t, m, i);
  }

  /** Prepending to a string keeps every substring it already had. */
  lemma ContainsPrepend(s: string, m: string, t: string)
    requires Contains(s, m)
    ensures Contains(t + s, m)
  {
    var i :| OccursAt(s, m, i);
    assert (t + s)[|t| + i..|t| + i + |m|] == s[i..i + |m|];
    assert OccursAt(t + s, m, |t| + i);
  }
}
