/** Numbers as text, written and read. */
module Digits {
  predicate IsDigit(ch: char) {
    '0' <= ch <= '9'
  }

  /** The digits a text starts with, appended to `n`. */
  function NumberFrom(n: nat, s: string): nat
    decreases |s|
  {
    if |s| == 0 || !IsDigit(s[0]) then n
    else NumberFrom(10 * n + (s[0] as int - '0' as int), s[1..])
  }

  function Digit(n: nat): char
    requires n < 10
  {
    ('0' as int + n) as char
  }

  function Decimal(n: nat): string {
    if n < 10 then [Digit(n)] else Decimal(n / 10) + [Digit(n % 10)]
  }

  lemma {:induction false} NumberThen(n: nat, digits: string, last: char)
    requires IsDigit(last) && forall i :: 0 <= i < |digits| ==> IsDigit(digits[i])
    ensures NumberFrom(n, digits + [last]) == 10 * NumberFrom(n, digits) + (last as int - '0' as int)
    decreases |digits|
  {
    var s := digits + [last];
    if |digits| == 0 {
      assert s[1..] == "";
    } else {
      assert s[1..] == digits[1..] + [last];
      NumberThen(10 * n + (digits[0] as int - '0' as int), digits[1..], last);
    }
  }

  /** A number written out is digits alone, and read back is itself. */
  lemma {:induction false} DecimalReads(n: nat)
    ensures |Decimal(n)| > 0 && forall i :: 0 <= i < |Decimal(n)| ==> IsDigit(Decimal(n)[i])
    ensures NumberFrom(0, Decimal(n)) == n
  {
    if n >= 10 {
      DecimalReads(n / 10);
      NumberThen(0, Decimal(n / 10), Digit(n % 10));
    } else {
      NumberThen(0, "", Digit(n));
      assert "" + [Digit(n)] == Decimal(n);
    }
  }
}
