/**
 * The two codes the page issues (src/pages/Index.tsx): the six-digit
 * session code sent to the user, and the lookup code stored with a
 * completed verification. Both come from `Math.random`; the model takes
 * the random part as a parameter.
 */
module Codes {
  import opened Ascii

  /**
   * JavaScript's `String.prototype.substring(start, end)` for non-negative
   * indices: both are clamped to the length and swapped when out of order.
   */
  function Substring(s: string, start: nat, end: nat): (t: string)
    ensures var lo, hi := Min(Min(start, end), |s|), Min(Max(start, end), |s|);
      lo <= hi && t == s[lo..hi]
  {
    var a, b := Min(start, |s|), Min(end, |s|);
    if a <= b then s[a..b] else s[b..a]
  }

  function Min(a: nat, b: nat): nat { if a <= b then a else b }
  function Max(a: nat, b: nat): nat { if a <= b then b else a }

  /**
   * `generateVerificationCode`: characters 2 to 8 of the base-36 rendering
   * `raw` of a random fraction (after its "0."), upper-cased. When `raw`
   * is short, so is the code.
   */
  function LookupCode(raw: string): (c: string)
    ensures |c| <= 6
    ensures |raw| >= 8 ==> |c| == 6
    ensures |raw| <= 2 ==> c == ""
    ensures 2 < |raw| < 8 ==> |c| == |raw| - 2
    ensures forall i :: 0 <= i < |c| ==> c[i] == UpperChar(raw[i + 2])
    ensures NoLower(c)
  {
    Upper(Substring(raw, 2, 8))
  }

  /** The digit character for `d`. */
  function DigitChar(d: nat): (c: char)
    requires d < 10
    ensures IsDigit(c)
  {
    ('0' as int + d) as char
  }

  /** The value of a digit character. */
  function DigitValue(c: char): (d: nat)
    requires IsDigit(c)
    ensures d < 10 && DigitChar(d) == c
  {
    c as int - '0' as int
  }

  /** `Number.prototype.toString()` on a non-negative integer: its decimal digits. */
  function DecimalString(n: nat): (s: string)
    ensures |s| >= 1 && AllDigits(s)
    ensures n > 0 ==> s[0] != '0'
    decreases n
  {
    if n < 10 then [DigitChar(n)] else DecimalString(n / 10) + [DigitChar(n % 10)]
  }

  /** The number a string of decimal digits denotes (most significant first). */
  function DigitsValue(s: string): nat
    requires AllDigits(s)
  {
    if s == [] then 0 else DigitsValue(s[..|s| - 1]) * 10 + DigitValue(s[|s| - 1])
  }

  function Pow10(k: nat): (p: nat)
    ensures p >= 1
  {
    if k == 0 then 1 else 10 * Pow10(k - 1)
  }

  /** Reading back the decimal rendering gives the number. */
  lemma {:induction false} DecimalRoundTrip(n: nat)
    ensures DigitsValue(DecimalString(n)) == n
  {
    var s := DecimalString(n);
    if n >= 10 {
      DecimalRoundTrip(n / 10);
      assert s[..|s| - 1] == DecimalString(n / 10);
      assert DigitValue(s[|s| - 1]) == n % 10;
    } else {
      assert DigitValue(s[0]) == n;
    }
  }

  /** A number with `k + 1` decimal digits renders as exactly `k + 1` characters. */
  lemma {:induction false} DecimalLength(n: nat, k: nat)
    requires Pow10(k) <= n < Pow10(k + 1)
    ensures |DecimalString(n)| == k + 1
  {
    if k > 0 {
      DecimalLength(n / 10, k - 1);
    }
  }

  /** A session code: six decimal digits without a leading zero. */
  predicate IsSessionCode(c: string) {
    |c| == 6 && AllDigits(c) && c[0] != '0'
  }

  /**
   * The session code of `handleContactVerification`:
   * `Math.floor(100000 + Math.random() * 900000).toString()`, where `draw`
   * is the integer part of `Math.random() * 900000`.
   */
  function SessionCode(draw: nat): (c: string)
    requires draw < 900000
    ensures IsSessionCode(c)
    ensures DigitsValue(c) == 100000 + draw
  {
    DecimalLength(100000 + draw, 5);
    DecimalRoundTrip(100000 + draw);
    DecimalString(100000 + draw)
  }

  /** Different draws give different session codes. */
  lemma SessionCodeInjective(d1: nat, d2: nat)
    requires d1 < 900000 && d2 < 900000
    requires SessionCode(d1) == SessionCode(d2)
    ensures d1 == d2
  {
  }

  /** Every six-digit value from 100000 to 999999 is the session code of some draw. */
  lemma SessionCodeReachable(v: nat)
    requires 100000 <= v <= 999999
    ensures DigitsValue(SessionCode(v - 100000)) == v
  {
  }
}
