/** ASCII decimal digits: reading a digit string as a number, writing a number
    as a (zero-padded) digit string, and measuring runs of digits in a string. */
module Decimal {

  predicate IsDigit(c: char) {
    '0' <= c <= '9'
  }

  predicate AllDigits(s: seq<char>) {
    forall i :: 0 <= i < |s| ==> IsDigit(s[i])
  }

  function DigitValue(c: char): (d: nat)
    requires IsDigit(c)
    ensures d < 10
  {
    c as int - '0' as int
  }

  function DigitChar(d: nat): (c: char)
    requires d < 10
    ensures IsDigit(c) && DigitValue(c) == d
  {
    ('0' as int + d) as char
  }

  /** The number a digit string denotes, as Python's `int()` reads it, leading
      zeros allowed. The empty string reads as 0 by this function's own
      convention; no captured group is ever empty. */
  function Value(s: seq<char>): (v: nat)
    requires AllDigits(s)
    ensures v == 0 <==> forall i :: 0 <= i < |s| ==> s[i] == '0'
  {
    if s == [] then 0
    else
      var init := s[..|s| - 1];
      assert forall i :: 0 <= i < |init| ==> init[i] == s[i];
      Value(init) * 10 + DigitValue(s[|s| - 1])
  }

  /** The decimal spelling of `n` without leading zeros ("0" for zero). */
  function Digits(n: nat): (r: seq<char>)
    ensures |r| >= 1 && AllDigits(r)
    ensures Value(r) == n
    ensures r[0] == '0' ==> n == 0
  {
    if n < 10 then [DigitChar(n)]
    else
      var r := Digits(n / 10) + [DigitChar(n % 10)];
      assert r[..|r| - 1] == Digits(n / 10);
      r
  }

  function Zeros(k: nat): (z: seq<char>)
    ensures |z| == k && AllDigits(z)
    ensures forall i :: 0 <= i < k ==> z[i] == '0'
  {
    if k == 0 then [] else Zeros(k - 1) + ['0']
  }

  /** Python's `f"{n:0w}"` for a non-negative `n`: the decimal spelling of `n`,
      left-padded with zeros to at least `width` characters. */
  function ZeroPad(n: nat, width: nat): (r: seq<char>)
    ensures AllDigits(r) && |r| >= width && |r| >= 1
    ensures |r| == if |Digits(n)| < width then width else |Digits(n)|
    ensures Value(r) == n
  {
    var d := Digits(n);
    var z := Zeros(if |d| < width then width - |d| else 0);
    LeadingZerosValue(z, d);
    z + d
  }

  /** Leading zeros do not change the value of a digit string. */
  lemma {:induction false} LeadingZerosValue(z: seq<char>, s: seq<char>)
    requires forall i :: 0 <= i < |z| ==> z[i] == '0'
    requires AllDigits(s)
    ensures AllDigits(z + s) && Value(z + s) == Value(s)
  {
    if s == [] {
      assert z + s == z;
    } else {
      var t := z + s;
      assert t[..|t| - 1] == z + s[..|s| - 1];
      LeadingZerosValue(z, s[..|s| - 1]);
    }
  }

  /** Length of the maximal run of digits that starts at index `i` of `s`:
      the stretch a greedy `\d+` consumes there. */
  function RunLength(s: seq<char>, i: nat): (k: nat)
    requires i <= |s|
    ensures i + k <= |s|
    ensures AllDigits(s[i..i + k])
    ensures i + k == |s| || !IsDigit(s[i + k])
    decreases |s| - i
  {
    if i < |s| && IsDigit(s[i]) then
      var k := 1 + RunLength(s, i + 1);
      assert s[i..i + k] == [s[i]] + s[i + 1..i + k];
      k
    else 0
  }

  /** A digit run starting at `i` stops at or before the first non-digit
      from `i` on. */
  lemma {:induction false} RunStopsAt(s: seq<char>, i: nat, j: nat)
    requires i <= j < |s| && !IsDigit(s[j])
    ensures i + RunLength(s, i) <= j
    decreases j - i
  {
    if i < j && IsDigit(s[i]) {
      RunStopsAt(s, i + 1, j);
    }
  }

  /** A digit run is determined by where it starts: any all-digit stretch
      starting at `i` that is followed by a non-digit (or the end) is the run. */
  lemma {:induction false} RunLengthUnique(s: seq<char>, i: nat, k: nat)
    requires i + k <= |s|
    requires AllDigits(s[i..i + k])
    requires i + k == |s| || !IsDigit(s[i + k])
    ensures RunLength(s, i) == k
    decreases k
  {
    if k > 0 {
      assert IsDigit(s[i..i + k][0]);
      assert s[i + 1..i + k] == s[i..i + k][1..];
      RunLengthUnique(s, i + 1, k - 1);
    }
  }
}
