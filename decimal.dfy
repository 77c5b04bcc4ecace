/** Decimal text of non-negative integers: what the firmware's `%d` and `%3d`
    conversions print, and the value the host's parseInt reads back from a run
    of digits. */
module Decimal {

  predicate IsDigit(c: char) {
    '0' <= c <= '9'
  }

  predicate AllDigits(s: string) {
    forall i :: 0 <= i < |s| ==> IsDigit(s[i])
  }

  function DigitChar(d: nat): (c: char)
    requires d < 10
    ensures IsDigit(c) && c as int - '0' as int == d
  {
    ('0' as int + d) as char
  }

  /** `%d` of a non-negative value: no sign, no leading zero. */
  function Digits(n: nat): (s: string)
    ensures 1 <= |s| && AllDigits(s)
    ensures s[0] == '0' <==> n == 0
    decreases n
  {
    if n < 10 then [DigitChar(n)] else Digits(n / 10) + [DigitChar(n % 10)]
  }

  /** The value of a digit string, most significant digit first. */
  function Value(s: string): nat
    requires AllDigits(s)
  {
    if |s| == 0 then 0 else Value(s[..|s| - 1]) * 10 + (s[|s| - 1] as int - '0' as int)
  }

  /** `%<width>d`: the digits, right-aligned in `width` columns with spaces. */
  function Padded(n: nat, width: nat): string {
    var d := Digits(n);
    if |d| < width then seq(width - |d|, _ => ' ') + d else d
  }

  /** `%<width>d` is at least `width` wide, ends in the `%d` digits and has
      only spaces before them. */
  lemma PaddedShape(n: nat, width: nat)
    ensures var s := Padded(n, width);
      && |s| == (if |Digits(n)| < width then width else |Digits(n)|)
      && s[|s| - |Digits(n)|..] == Digits(n)
      && forall i :: 0 <= i < |s| - |Digits(n)| ==> s[i] == ' '
  {
  }

  /** Reading back what `%d` printed gives the printed value. */
  lemma {:induction false} ValueDigits(n: nat)
    ensures Value(Digits(n)) == n
    decreases n
  {
    if n >= 10 {
      var s := Digits(n);
      assert s[..|s| - 1] == Digits(n / 10);
      ValueDigits(n / 10);
    }
  }

  /** A printed value has as many digits as its magnitude needs. */
  lemma {:induction false} DigitsLength(n: nat, k: nat)
    requires n < Pow10(k)
    ensures |Digits(n)| <= (if k == 0 then 1 else k)
    decreases k
  {
    if n >= 10 {
      assert k >= 2;
      DigitsLength(n / 10, k - 1);
    }
  }

  function Pow10(k: nat): (p: nat)
    ensures p >= 1
  {
    if k == 0 then 1 else 10 * Pow10(k - 1)
  }

  /** `%3d` of a value below 1000 is exactly three characters. */
  lemma Padded3(n: nat)
    requires n < 1000
    ensures |Padded(n, 3)| == 3
  {
    DigitsLength(n, 3);
    PaddedShape(n, 3);
  }

  /** `%3d` of a 16-bit value is at most five characters. */
  lemma Padded3Short(n: nat)
    requires n < 65536
    ensures |Padded(n, 3)| <= 5
  {
    DigitsLength(n, 5);
    PaddedShape(n, 3);
  }
}
