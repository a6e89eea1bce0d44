/** ASCII decimal digits, their values, and the zero-padded renderings that
    strftime produces for %Y (four digits) and %m, %d, %H, %M (two digits). */
module Decimal {

  predicate IsDigit(c: char) { '0' <= c <= '9' }

  predicate AllDigits(s: string) { forall i :: 0 <= i < |s| ==> IsDigit(s[i]) }

  function DigitValue(c: char): (v: nat)
    requires IsDigit(c)
    ensures v < 10
  {
    c as int - '0' as int
  }

  function DigitChar(n: nat): (c: char)
    requires n < 10
    ensures IsDigit(c) && DigitValue(c) == n
  {
    ('0' as int + n) as char
  }

  /** The value of a string of digits, most significant digit first. */
  function Number(s: string): (n: nat)
    requires AllDigits(s)
  {
    if s == [] then 0 else 10 * Number(s[..|s| - 1]) + DigitValue(s[|s| - 1])
  }

  /** Two digits, zero-padded. */
  function Pad2(n: nat): (s: string)
    requires n < 100
    ensures |s| == 2 && AllDigits(s) && Number(s) == n
  {
    var s := [DigitChar(n / 10), DigitChar(n % 10)];
    NumberOfPair(s);
    s
  }

  /** Four digits, zero-padded. */
  function Pad4(n: nat): (s: string)
    requires n < 10000
    ensures |s| == 4 && AllDigits(s) && Number(s) == n
  {
    var s := Pad2(n / 100) + Pad2(n % 100);
    NumberConcat2(Pad2(n / 100), Pad2(n % 100));
    s
  }

  lemma NumberSnoc(s: string, c: char)
    requires AllDigits(s) && IsDigit(c)
    ensures AllDigits(s + [c]) && Number(s + [c]) == 10 * Number(s) + DigitValue(c)
  {
    assert (s + [c])[..|s|] == s;
  }

  lemma NumberOfPair(s: string)
    requires |s| == 2 && AllDigits(s)
    ensures Number(s) == 10 * DigitValue(s[0]) + DigitValue(s[1])
  {
    NumberSnoc([], s[0]);
    NumberSnoc([s[0]], s[1]);
    assert [s[0]] + [s[1]] == s;
  }

  lemma NumberConcat2(a: string, b: string)
    requires AllDigits(a) && AllDigits(b) && |b| == 2
    ensures AllDigits(a + b) && Number(a + b) == 100 * Number(a) + Number(b)
  {
    NumberSnoc(a, b[0]);
    NumberSnoc(a + [b[0]], b[1]);
    assert a + [b[0]] + [b[1]] == a + b;
    NumberOfPair(b);
  }

  /** Two digits are the zero-padded rendering of their own value. */
  lemma Pad2OfNumber(s: string)
    requires |s| == 2 && AllDigits(s)
    ensures Number(s) < 100 && Pad2(Number(s)) == s
  {
    NumberOfPair(s);
  }

  /** Four digits are the zero-padded rendering of their own value. */
  lemma Pad4OfNumber(s: string)
    requires |s| == 4 && AllDigits(s)
    ensures Number(s) < 10000 && Pad4(Number(s)) == s
  {
    var hi, lo := s[..2], s[2..];
    assert s == hi + lo;
    NumberConcat2(hi, lo);
    Pad2OfNumber(hi);
    Pad2OfNumber(lo);
    var n := Number(s);
    assert n / 100 == Number(hi) && n % 100 == Number(lo);
  }
}
