// Natural numbers as decimal text.

module Decimals {
  import opened Options

  predicate IsDigit(c: char) {
    '0' <= c <= '9'
  }

  function DigitOf(d: nat): (c: char)
    requires d < 10
    ensures IsDigit(c)
  {
    ['0', '1', '2', '3', '4', '5', '6', '7', '8', '9'][d]
  }

  function DigitValue(c: char): (d: nat)
    requires IsDigit(c)
    ensures d < 10
  {
    c as int - '0' as int
  }

  function PrintNat(n: nat): (s: string)
    ensures s != "" && forall i :: 0 <= i < |s| ==> IsDigit(s[i])
  {
    if n < 10 then [DigitOf(n)] else PrintNat(n / 10) + [DigitOf(n % 10)]
  }

  /** The number a run of digits denotes, or None if some character is no digit. */
  function ParseNat(s: string): Option<nat> {
    if s == "" then Some(0)
    else if !IsDigit(s[|s| - 1]) then None
    else match ParseNat(s[..|s| - 1])
      case None => None
      case Some(n) => Some(10 * n + DigitValue(s[|s| - 1]))
  }

  lemma {:induction false} ParsePrintNat(n: nat)
    ensures ParseNat(PrintNat(n)) == Some(n)
  {
    var s := PrintNat(n);
    if n < 10 {
      assert s[..|s| - 1] == "";
    } else {
      assert s[..|s| - 1] == PrintNat(n / 10);
      ParsePrintNat(n / 10);
    }
  }

  /** Different numbers have different text. */
  lemma PrintNatInjective(a: nat, b: nat)
    requires PrintNat(a) == PrintNat(b)
    ensures a == b
  {
    ParsePrintNat(a);
    ParsePrintNat(b);
  }
}
