/**
 * Decimal text of whole numbers, as JavaScript's `String(n)` / `n.toString()`
 * and `String.prototype.padStart` produce it, together with the reading of a
 * digit string back into the number it denotes.  Both the clock display of the
 * test page and the generated test ids are built from these pieces.
 */
module Decimal {

  /** The character of one decimal digit. */
  function DigitChar(d: nat): (c: char)
    requires d < 10
    ensures '0' <= c <= '9'
    ensures c as int - '0' as int == d
  {
    ('0' as int + d) as char
  }

  predicate IsDigit(c: char) {
    '0' <= c <= '9'
  }

  predicate IsDigits(s: string) {
    forall i :: 0 <= i < |s| ==> IsDigit(s[i])
  }

  /** The number a string of decimal digits denotes (leading zeros allowed). */
  function DigitsValue(s: string): nat
    requires IsDigits(s)
  {
    if |s| == 0 then 0
    else DigitsValue(s[..|s| - 1]) * 10 + (s[|s| - 1] as int - '0' as int)
  }

  /**
   * `String(n)` for a non-negative integer: its shortest decimal form, a
   * digit string in which no zero leads unless `n` is zero itself.
   */
  function NatToString(n: nat): (r: string)
    ensures 1 <= |r|
    ensures IsDigits(r)
    ensures r[0] == '0' ==> n == 0
  {
    if n < 10 then [DigitChar(n)] else NatToString(n / 10) + [DigitChar(n % 10)]
  }

  /** Reading the decimal form of `n` back gives `n`. */
  lemma {:induction false} NatToStringValue(n: nat)
    ensures DigitsValue(NatToString(n)) == n
  {
    if n >= 10 {
      var r := NatToString(n);
      assert r[..|r| - 1] == NatToString(n / 10);
      NatToStringValue(n / 10);
    }
  }

  /**
   * `s.padStart(width, c)`: `c` repeated in front of `s` until the result is
   * `width` characters long; a string already that long is left as it is.
   */
  function PadStart(s: string, width: nat, c: char): (r: string)
    ensures |r| == if |s| < width then width else |s|
    ensures r[|r| - |s|..] == s
    ensures forall i :: 0 <= i < |r| - |s| ==> r[i] == c
  {
    if |s| < width then seq(width - |s|, _ => c) + s else s
  }

  /** Zeros in front of a digit string do not change the number it denotes. */
  lemma {:induction false} LeadingZeros(zeros: string, s: string)
    requires forall i :: 0 <= i < |zeros| ==> zeros[i] == '0'
    requires IsDigits(s)
    ensures IsDigits(zeros + s)
    ensures DigitsValue(zeros + s) == DigitsValue(s)
    decreases |zeros| + |s|
  {
    var t := zeros + s;
    assert IsDigits(t) by {
      forall i | 0 <= i < |t| ensures IsDigit(t[i]) {
        if i < |zeros| { assert t[i] == zeros[i]; } else { assert t[i] == s[i - |zeros|]; }
      }
    }
    if |s| == 0 {
      assert t == zeros;
      if |zeros| > 0 {
        var z := zeros[..|zeros| - 1];
        assert t[..|t| - 1] == z + s;
        LeadingZeros(z, s);
      }
    } else {
      var p := s[..|s| - 1];
      assert t[..|t| - 1] == zeros + p;
      assert IsDigits(p);
      LeadingZeros(zeros, p);
    }
  }

  /** Left-padding a number's decimal form with zeros keeps the number it denotes. */
  lemma {:induction false} ZeroPaddedValue(n: nat, width: nat)
    ensures IsDigits(PadStart(NatToString(n), width, '0'))
    ensures DigitsValue(PadStart(NatToString(n), width, '0')) == n
  {
    var s := NatToString(n);
    var r := PadStart(s, width, '0');
    var zeros := r[..|r| - |s|];
    assert r == zeros + s;
    LeadingZeros(zeros, s);
    NatToStringValue(n);
  }

  /** Below 100 a number has at most two digits, so padding to two gives exactly two. */
  lemma TwoDigitsBelowHundred(n: nat)
    ensures n < 100 ==> |PadStart(NatToString(n), 2, '0')| == 2
  {
  }
}
