/** Decimal rendering of a port number, as `"{}".format(port)` prints it in the
    report, together with the parser it is the inverse of. */
module Decimal {

  predicate IsDigit(c: char) {
    '0' <= c <= '9'
  }

  predicate AllDigits(s: string) {
    forall i :: 0 <= i < |s| ==> IsDigit(s[i])
  }

  function DigitChar(d: nat): (c: char)
    requires d < 10
    ensures IsDigit(c)
    ensures c as int - '0' as int == d
  {
    "0123456789"[d]
  }

  function DigitValue(c: char): (d: nat)
    requires IsDigit(c)
    ensures d < 10
  {
    c as int - '0' as int
  }

  /** The canonical decimal text of `n`: digits only, and no leading zero
      unless the number is zero itself. */
  function Text(n: nat): (s: string)
    ensures |s| >= 1
    ensures AllDigits(s)
    ensures s[0] == '0' ==> n == 0
    decreases n
  {
    if n < 10 then [DigitChar(n)] else Text(n / 10) + [DigitChar(n % 10)]
  }

  /** Reads a string of digits back as a number, most significant digit first. */
  function Parse(s: string): (n: nat)
    requires AllDigits(s)
    decreases |s|
  {
    if s == [] then 0 else Parse(s[..|s| - 1]) * 10 + DigitValue(s[|s| - 1])
  }

  /** The text of a number reads back as that number, so distinct ports are
      printed distinctly in the report. */
  lemma {:induction false} ParseText(n: nat)
    ensures Parse(Text(n)) == n
    decreases n
  {
    var s := Text(n);
    if n >= 10 {
      ParseText(n / 10);
      assert s[..|s| - 1] == Text(n / 10);
    }
  }

  lemma TextInjective(m: nat, n: nat)
    requires Text(m) == Text(n)
    ensures m == n
  {
    ParseText(m);
    ParseText(n);
  }
}
