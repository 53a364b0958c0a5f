/** Decimal rendering of integers and its inverse. */
module Decimal {

  predicate IsDigit(c: char) { '0' <= c <= '9' }

  predicate AllDigits(s: string) { forall i :: 0 <= i < |s| ==> IsDigit(s[i]) }

  function Digit(d: nat): (c: char)
    requires d < 10
    ensures IsDigit(c) && (c - '0') as int == d
  {
    '0' + d as char
  }

  function DigitValue(c: char): (d: nat)
    requires IsDigit(c)
    ensures d < 10 && Digit(d) == c
  {
    (c - '0') as int
  }

  function Digits(n: nat): (s: string)
    ensures |s| >= 1 && AllDigits(s)
  {
    if n < 10 then [Digit(n)] else Digits(n / 10) + [Digit(n % 10)]
  }

  function Value(s: string): nat
    requires AllDigits(s)
  {
    if s == "" then 0 else 10 * Value(s[..|s| - 1]) + DigitValue(s[|s| - 1])
  }

  lemma {:induction false} ValueDigits(n: nat)
    ensures Value(Digits(n)) == n
  {
    if n >= 10 {
      ValueDigits(n / 10);
      var s := Digits(n);
      assert s[..|s| - 1] == Digits(n / 10);
    } else {
      assert Digits(n)[..0] == "";
    }
  }

  function Pow10(k: nat): (r: nat)
    ensures r >= 1
  {
    if k == 0 then 1 else 10 * Pow10(k - 1)
  }

  lemma ValuePush(s: string, c: char)
    requires AllDigits(s) && IsDigit(c)
    ensures AllDigits(s + [c]) && Value(s + [c]) == 10 * Value(s) + DigitValue(c)
  {
    assert (s + [c])[..|s|] == s;
  }

  lemma PowPush(k: nat)
    ensures Pow10(k + 1) == 10 * Pow10(k)
  {
  }

  lemma Tenfold(a: int, p: int)
    ensures a * (10 * p) == 10 * (a * p)
  {
  }

  lemma ValueNone()
    ensures Value("") == 0 && Pow10(0) == 1
  {
  }

  lemma {:induction false} ValueAppend(s: string, t: string)
    requires AllDigits(s) && AllDigits(t)
    ensures Value(s + t) == Value(s) * Pow10(|t|) + Value(t)
  {
    hide Value, Pow10;
    if |t| == 0 {
      ValueNone();
      assert s + t == s && t == "";
    } else {
      var front, last := t[..|t| - 1], t[|t| - 1];
      ValueAppend(s, front);
      ValuePush(s + front, last);
      ValuePush(front, last);
      assert s + t == (s + front) + [last] && t == front + [last];
      PowPush(|front|);
      Tenfold(Value(s), Pow10(|front|));
    }
  }

  /** `Display` of a signed integer. */
  function IntString(v: int): string {
    if v < 0 then "-" + Digits(-v) else Digits(v)
  }

  lemma IntStringInjective(a: int, b: int)
    requires IntString(a) == IntString(b)
    ensures a == b
  {
    assert (a < 0) == (IntString(a)[0] == '-');
    assert (b < 0) == (IntString(b)[0] == '-');
    if a < 0 {
      assert Digits(-a) == IntString(a)[1..] && Digits(-b) == IntString(b)[1..];
      ValueDigits(-a);
      ValueDigits(-b);
    } else {
      ValueDigits(a);
      ValueDigits(b);
    }
  }
}
