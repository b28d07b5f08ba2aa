/** The `{:?}` rendering of an integer operand: its decimal digits, with a
    leading '-' when negative. The diagnostics of the "assume" macros
    splice this rendering between backticks. */
module DebugFormat {

  predicate IsDigit(c: char) {
    '0' <= c <= '9'
  }

  /** The character that stands for the digit `d`. */
  function DigitChar(d: nat): (c: char)
    requires d < 10
    ensures IsDigit(c)
    ensures c as int - '0' as int == d
  {
    ('0' as int + d) as char
  }

  /** The decimal digits of `n`, most significant first, with no leading zero. */
  function Digits(n: nat): (s: string)
    ensures |s| > 0
    ensures forall i :: 0 <= i < |s| ==> IsDigit(s[i])
    ensures |s| == 1 <==> n < 10
    ensures n >= 10 ==> s[0] != '0'
  {
    if n < 10 then [DigitChar(n)] else Digits(n / 10) + [DigitChar(n % 10)]
  }

  /** `format!("{:?}", n)` for an integer `n`. */
  function Show(n: int): (s: string)
    ensures |s| > 0
    ensures s[0] == '-' <==> n < 0
    ensures '`' !in s
  {
    if n < 0 then "-" + Digits(-n) else Digits(n)
  }

  /** Distinct numbers have distinct digit strings. */
  lemma {:induction false} DigitsInjective(a: nat, b: nat)
    requires Digits(a) == Digits(b)
    ensures a == b
  {
    var s := Digits(a);
    if a < 10 {
      assert b < 10;
      assert DigitChar(a) == s[0] == DigitChar(b);
    } else {
      assert b >= 10;
      var k := |s| - 1;
      assert s[..k] == Digits(a / 10) by { assert s == Digits(a / 10) + [DigitChar(a % 10)]; }
      assert s[..k] == Digits(b / 10) by { assert s == Digits(b / 10) + [DigitChar(b % 10)]; }
      assert DigitChar(a % 10) == s[k] == DigitChar(b % 10);
      DigitsInjective(a / 10, b / 10);
    }
  }

  /** The rendering of an integer determines the integer: distinct operands
      never print alike. */
  lemma ShowInjective(a: int, b: int)
    requires Show(a) == Show(b)
    ensures a == b
  {
    if a < 0 {
      assert Show(a)[1..] == Digits(-a);
      assert Show(b)[1..] == Digits(-b);
      DigitsInjective(-a, -b);
    } else {
      DigitsInjective(a, b);
    }
  }
}
