/**
 * The two JavaScript string primitives the core relies on:
 * `String.prototype.replace` with a one-character string pattern (which
 * replaces the FIRST occurrence only) and the decimal rendering of an
 * integer in a template literal.
 */
module JsString {

  /** Index of the first occurrence of `c` in `s`, or `|s|` when there is none. */
  function IndexOf(s: string, c: char): (i: nat)
    ensures i <= |s|
    ensures forall k :: 0 <= k < i ==> s[k] != c
    ensures i < |s| ==> s[i] == c
    ensures i == |s| <==> c !in s
  {
    if s == [] then 0
    else if s[0] == c then 0
    else 1 + IndexOf(s[1..], c)
  }

  /** `s.replace(c, rep)` for a one-character pattern `c`. */
  function ReplaceFirst(s: string, c: char, rep: string): (r: string)
    ensures c !in s ==> r == s
    ensures c in s ==> |r| == |s| - 1 + |rep|
    ensures c in s ==>
      exists i :: 0 <= i < |s| && s[i] == c && c !in s[..i] && r == s[..i] + rep + s[i + 1..]
  {
    var i := IndexOf(s, c);
    if i == |s| then s
    else
      assert c !in s[..i];
      s[..i] + rep + s[i + 1..]
  }

  /** With a one-character replacement, only the first occurrence of `c` changes. */
  lemma ReplaceFirstAt(s: string, c: char, x: char, k: nat)
    requires k < |s|
    ensures |ReplaceFirst(s, c, [x])| == |s|
    ensures ReplaceFirst(s, c, [x])[k] == if k == IndexOf(s, c) then x else s[k]
  {
    var i := IndexOf(s, c);
    if i < |s| {
      var r := s[..i] + [x] + s[i + 1..];
      assert ReplaceFirst(s, c, [x]) == r;
      if k < i {
        assert r[k] == s[..i][k];
      } else if k > i {
        assert r[k] == s[i + 1..][k - i - 1];
      }
    }
  }

  /** The decimal digit character for `d`. */
  function DigitChar(d: nat): (ch: char)
    requires d < 10
    ensures '0' <= ch <= '9'
    ensures (ch as int) - ('0' as int) == d
  {
    ('0' as int + d) as char
  }

  predicate IsDigit(ch: char) {
    '0' <= ch <= '9'
  }

  /** The numeric value of a digit character. */
  function DigitValue(ch: char): (d: nat)
    requires IsDigit(ch)
    ensures d < 10
  {
    (ch as int) - ('0' as int)
  }

  /** Decimal rendering of a natural number, without leading zeros. */
  function NatToDecimal(n: nat): (s: string)
    ensures |s| >= 1
    ensures forall k :: 0 <= k < |s| ==> IsDigit(s[k])
    ensures n >= 10 ==> s[0] != '0'
    ensures n < 10 <==> |s| == 1
  {
    if n < 10 then [DigitChar(n)]
    else NatToDecimal(n / 10) + [DigitChar(n % 10)]
  }

  /**
   * Template-literal rendering `${i}` of an integer: its decimal digits,
   * after a minus sign when negative, reading back as the integer.
   */
  function IntToString(i: int): (s: string)
    ensures |s| >= 1
    ensures i >= 0 ==> ReadsAs(s, i)
    ensures i < 0 ==> |s| >= 2 && s[0] == '-' && ReadsAs(s[1..], -i)
  {
    if i < 0 then
      DecimalRoundTrip(-i);
      assert ("-" + NatToDecimal(-i))[1..] == NatToDecimal(-i);
      "-" + NatToDecimal(-i)
    else
      DecimalRoundTrip(i);
      NatToDecimal(i)
  }

  /** The value of a string of decimal digits (the inverse of NatToDecimal). */
  function DecimalValue(s: string): nat
    requires forall k :: 0 <= k < |s| ==> IsDigit(s[k])
  {
    if s == [] then 0
    else DecimalValue(s[..|s| - 1]) * 10 + DigitValue(s[|s| - 1])
  }

  /** `text` is a run of decimal digits whose value is `v`. */
  predicate ReadsAs(text: string, v: nat) {
    (forall k :: 0 <= k < |text| ==> IsDigit(text[k])) && DecimalValue(text) == v
  }

  /** Reading back the rendering of `n` yields `n`. */
  lemma {:induction false} DecimalRoundTrip(n: nat)
    ensures DecimalValue(NatToDecimal(n)) == n
  {
    var s := NatToDecimal(n);
    if n >= 10 {
      DecimalRoundTrip(n / 10);
      assert s[..|s| - 1] == NatToDecimal(n / 10);
    }
  }

  /** Distinct naturals render as distinct strings. */
  lemma NatToDecimalInjective(m: nat, n: nat)
    ensures NatToDecimal(m) == NatToDecimal(n) ==> m == n
  {
    if NatToDecimal(m) == NatToDecimal(n) {
      DecimalRoundTrip(m);
      DecimalRoundTrip(n);
    }
  }
}
