/** Decimal rendering of numbers, as interpolated into job keys and episode metadata. */
module Decimal {
  import opened Wrappers

  predicate IsDigit(c: char) { '0' <= c <= '9' }

  function DigitChar(d: nat): (c: char)
    requires d < 10
    ensures IsDigit(c)
  {
    '0' + d as char
  }

  function DigitValue(c: char): nat
    requires IsDigit(c)
  {
    (c - '0') as nat
  }

  function Digits(n: nat): (s: string)
    ensures |s| > 0
    ensures forall i :: 0 <= i < |s| ==> IsDigit(s[i])
  {
    if n < 10 then [DigitChar(n)] else Digits(n / 10) + [DigitChar(n % 10)]
  }

  function DigitsValue(s: string): nat
    requires forall i :: 0 <= i < |s| ==> IsDigit(s[i])
  {
    if s == "" then 0 else 10 * DigitsValue(s[..|s| - 1]) + DigitValue(s[|s| - 1])
  }

  /** Reading back a printed natural number gives the number. */
  lemma {:induction false} DigitsRoundTrip(n: nat)
    ensures DigitsValue(Digits(n)) == n
  {
    var s := Digits(n);
    if n < 10 {
      assert s[..0] == "";
    } else {
      assert s[..|s| - 1] == Digits(n / 10);
      DigitsRoundTrip(n / 10);
    }
  }

  function PrintInt(k: int): (s: string) {
    if k < 0 then "-" + Digits(-k) else Digits(k)
  }

  predicate AllDigits(s: string) { s != "" && forall i :: 0 <= i < |s| ==> IsDigit(s[i]) }

  /** The canonical spellings accepted by `int(...)`: digits with an optional minus sign. */
  function ParseInt(s: string): Option<int> {
    var body := if |s| > 0 && s[0] == '-' then s[1..] else s;
    if !AllDigits(body) then None
    else if |s| > 0 && s[0] == '-' then Some(0 - DigitsValue(body))
    else Some(DigitsValue(body))
  }

  lemma NumeralsParse(text: string, digits: string)
    requires AllDigits(digits) && (text == digits || text == "-" + digits)
    ensures ParseInt(text).Some?
  {
    if text == digits {
      assert IsDigit(text[0]);
    } else {
      assert text[1..] == digits;
    }
  }

  /** A text is read as a number exactly when it is a row of digits, with or without a minus sign before it. */
  lemma ParsesExactly(text: string)
    ensures ParseInt(text).Some? <==> AllDigits(text) || exists digits :: AllDigits(digits) && text == "-" + digits
  {
    if text != "" && text[0] == '-' {
      assert text == "-" + text[1..];
    }
    if AllDigits(text) {
      NumeralsParse(text, text);
    } else if digits :| AllDigits(digits) && text == "-" + digits {
      NumeralsParse(text, digits);
    }
  }

  lemma PrintParse(k: int)
    ensures ParseInt(PrintInt(k)) == Some(k)
  {
    DigitsRoundTrip(if k < 0 then -k else k);
    if k < 0 {
      assert PrintInt(k)[1..] == Digits(-k);
    } else {
      assert IsDigit(PrintInt(k)[0]);
    }
  }

  /** A text that ends in a non-digit, followed by digits, splits in one way only. */
  lemma DigitSuffixUnique(a: string, x: string, b: string, y: string)
    requires |a| > 0 && !IsDigit(a[|a| - 1]) && |b| > 0 && !IsDigit(b[|b| - 1])
    requires forall i :: 0 <= i < |x| ==> IsDigit(x[i])
    requires forall i :: 0 <= i < |y| ==> IsDigit(y[i])
    requires a + x == b + y
    ensures a == b && x == y
  {
    var s := a + x;
    assert !IsDigit(s[|a| - 1]) && !IsDigit(s[|b| - 1]);
    assert forall i :: |a| <= i < |s| ==> s[i] == x[i - |a|];
    assert forall i :: |b| <= i < |s| ==> s[i] == y[i - |b|];
    assert |a| == |b|;
    assert a == s[..|a|] && b == s[..|b|];
    assert x == s[|a|..] && y == s[|b|..];
  }
}
