/** Decimal digits of a number, and the number they spell. */
module Decimals {

  predicate IsDigit(c: char) {
    '0' <= c <= '9'
  }

  predicate AllDigits(s: string) {
    forall i :: 0 <= i < |s| ==> IsDigit(s[i])
  }

  function Digit(d: nat): char
    requires d < 10
  {
    '0' + d as char
  }

  /** No leading zero, except for zero itself. */
  function Decimal(n: nat): (s: string)
    ensures |s| >= 1 && AllDigits(s)
    ensures s[0] == '0' ==> |s| == 1
    ensures n > 0 ==> s[0] != '0'
  {
    if n < 10 then [Digit(n)] else Decimal(n / 10) + [Digit(n % 10)]
  }

  function ValueOf(s: string): (n: nat)
    requires AllDigits(s)
  {
    if s == "" then 0 else 10 * ValueOf(s[..|s| - 1]) + (s[|s| - 1] - '0') as nat
  }

  lemma {:induction false} DecimalIsRead(n: nat)
    ensures ValueOf(Decimal(n)) == n
  {
    var s := Decimal(n);
    if n >= 10 {
      DecimalIsRead(n / 10);
      assert s[..|s| - 1] == Decimal(n / 10);
    } else {
      assert s[..0] == "";
    }
  }

  /** A numeral without a leading zero is the one its value prints. */
  lemma {:induction false} ReadIsDecimal(s: string)
    requires AllDigits(s) && |s| >= 1 && (s[0] == '0' ==> |s| == 1)
    ensures Decimal(ValueOf(s)) == s
  {
    var rest, last := s[..|s| - 1], (s[|s| - 1] - '0') as nat;
    if |s| > 1 {
      ReadIsDecimal(rest);
      PositiveWithoutLeadingZero(rest);
      assert s == rest + [Digit(last)];
    } else {
      assert rest == "" && s == [Digit(last)];
    }
  }

  lemma {:induction false} PositiveWithoutLeadingZero(s: string)
    requires AllDigits(s) && |s| >= 1 && s[0] != '0'
    ensures ValueOf(s) >= 1
  {
    if |s| > 1 {
      PositiveWithoutLeadingZero(s[..|s| - 1]);
    }
  }

  /** The zeros that pad a numeral to a width. */
  function Zeros(width: nat, s: string): (z: string)
    ensures forall i :: 0 <= i < |z| ==> z[i] == '0'
  {
    seq(if |s| < width then width - |s| else 0, _ => '0')
  }

  function Padded(width: nat, n: nat): (s: string)
    ensures AllDigits(s)
  {
    Zeros(width, Decimal(n)) + Decimal(n)
  }

  lemma {:induction false} LeadingZerosAddNothing(z: string, s: string)
    requires forall i :: 0 <= i < |z| ==> z[i] == '0'
    requires AllDigits(s)
    ensures AllDigits(z + s) && ValueOf(z + s) == ValueOf(s)
    decreases |s|, |z|
  {
    if s == "" {
      if z != "" {
        LeadingZerosAddNothing(z[..|z| - 1], "");
        assert (z + s)[..|z + s| - 1] == z[..|z| - 1] + "";
      }
    } else {
      LeadingZerosAddNothing(z, s[..|s| - 1]);
      assert (z + s)[..|z + s| - 1] == z + s[..|s| - 1];
    }
  }

  /** Padding keeps numbers apart, whatever the width. */
  lemma PaddedInjective(width: nat, m: nat, n: nat)
    requires Padded(width, m) == Padded(width, n)
    ensures m == n
  {
    LeadingZerosAddNothing(Zeros(width, Decimal(m)), Decimal(m));
    LeadingZerosAddNothing(Zeros(width, Decimal(n)), Decimal(n));
    DecimalIsRead(m);
    DecimalIsRead(n);
  }
}
