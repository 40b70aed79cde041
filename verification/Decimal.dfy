/** Python's `str(n)` and `int(s)` on the non-negative integers. */
module Decimal {

  predicate IsDigit(c: char) {
    '0' <= c <= '9'
  }

  predicate AllDigits(s: string) {
    forall i :: 0 <= i < |s| ==> IsDigit(s[i])
  }

  function Digit(d: nat): (c: char)
    requires d < 10
    ensures IsDigit(c) && (c - '0') as nat == d && (c == '0' <==> d == 0)
  {
    '0' + d as char
  }

  function DigitValue(c: char): (d: nat)
    requires IsDigit(c)
    ensures d < 10 && Digit(d) == c
  {
    (c - '0') as nat
  }

  function Print(n: nat): (s: string)
    ensures s != "" && AllDigits(s) && (n > 0 ==> s[0] != '0')
    decreases n
  {
    if n < 10 then [Digit(n)] else Print(n / 10) + [Digit(n % 10)]
  }

  function Read(s: string): nat
    requires AllDigits(s)
    decreases |s|
  {
    if s == "" then 0 else Read(s[..|s| - 1]) * 10 + DigitValue(s[|s| - 1])
  }

  /** The pattern `[1-9][0-9]*`. */
  predicate IsPositiveDecimal(s: string) {
    s != "" && s[0] != '0' && AllDigits(s)
  }

  lemma {:induction false} ReadAfterPrint(n: nat)
    ensures Read(Print(n)) == n
    decreases n
  {
    if n < 10 {
      assert Print(n)[..0] == "";
    } else {
      ReadAfterPrint(n / 10);
      assert Print(n)[..|Print(n)| - 1] == Print(n / 10);
    }
  }

  lemma {:induction false} PrintAfterRead(s: string)
    requires IsPositiveDecimal(s)
    ensures Read(s) > 0 && Print(Read(s)) == s
    decreases |s|
  {
    var init, last := s[..|s| - 1], DigitValue(s[|s| - 1]);
    if init != "" {
      PrintAfterRead(init);
      assert Read(s) / 10 == Read(init) && Read(s) % 10 == last;
      assert s == init + [s[|s| - 1]];
    } else {
      assert s == [s[0]];
    }
  }

  lemma PrintIsInjective(a: nat, b: nat)
    ensures Print(a) == Print(b) <==> a == b
  {
    ReadAfterPrint(a);
    ReadAfterPrint(b);
  }
}
