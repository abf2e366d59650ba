/** Natural numbers in decimal, as `String` prints them. */
module Decimals {
  import opened Ordering

  function Digit(d: int): char
    requires 0 <= d < 10
  {
    ['0', '1', '2', '3', '4', '5', '6', '7', '8', '9'][d]
  }

  /** `String(n)` of a natural number. */
  function Decimal(n: nat): string {
    if n < 10 then [Digit(n)] else Decimal(n / 10) + [Digit(n % 10)]
  }

  predicate AllDigits(s: string) { forall i | 0 <= i < |s| :: '0' <= s[i] <= '9' }

  function ParseDecimal(s: string): nat
    requires AllDigits(s)
  {
    if s == "" then 0 else ParseDecimal(s[..|s| - 1]) * 10 + (s[|s| - 1] as int - '0' as int)
  }

  /** The texts that print a number: no leading zero, except in the text of zero itself. */
  predicate Canonical(s: string) { s != "" && AllDigits(s) && (s == "0" || s[0] != '0') }

  lemma {:induction false} DecimalPlain(n: nat)
    ensures Decimal(n) != "" && AllDigits(Decimal(n))
  {
    if n >= 10 { DecimalPlain(n / 10); }
  }

  /** What is printed reads back. */
  lemma {:induction false} DecimalRoundTrip(n: nat)
    ensures AllDigits(Decimal(n)) && ParseDecimal(Decimal(n)) == n
  {
    DecimalPlain(n);
    if n >= 10 {
      DecimalRoundTrip(n / 10);
      var s := Decimal(n);
      assert s[..|s| - 1] == Decimal(n / 10);
    }
  }

  lemma {:induction false} DecimalCanonical(n: nat)
    ensures Canonical(Decimal(n)) && (n > 0 ==> Decimal(n)[0] != '0')
  {
    DecimalPlain(n);
    if n >= 10 {
      DecimalCanonical(n / 10);
      assert Decimal(n)[0] == Decimal(n / 10)[0];
    }
  }

  lemma ShorterCanonical(s: string)
    requires Canonical(s) && |s| > 1
    ensures Canonical(s[..|s| - 1]) && s[..|s| - 1] != "0"
  {
    assert s[..|s| - 1][0] == s[0];
  }

  lemma {:induction false} CanonicalPositive(s: string)
    requires Canonical(s) && s != "0"
    ensures ParseDecimal(s) >= 1
    decreases |s|
  {
    if |s| > 1 {
      ShorterCanonical(s);
      CanonicalPositive(s[..|s| - 1]);
    } else {
      assert s[..0] == "" && s == [s[0]];
    }
  }

  lemma DecimalPush(n: nat, d: int)
    requires n > 0 && 0 <= d < 10
    ensures Decimal(n * 10 + d) == Decimal(n) + [Digit(d)]
  {
    assert (n * 10 + d) / 10 == n && (n * 10 + d) % 10 == d;
  }

  lemma DigitOf(c: char)
    requires '0' <= c <= '9'
    ensures Digit(c as int - '0' as int) == c
  {
  }

  /** What reads as a number and has no leading zero is what that number prints as. */
  lemma {:induction false} CanonicalRoundTrip(s: string)
    requires Canonical(s)
    ensures Decimal(ParseDecimal(s)) == s
    decreases |s|
  {
    var n := |s| - 1;
    var front, last := s[..n], s[n];
    DigitOf(last);
    assert s == front + [last];
    if n > 0 {
      ShorterCanonical(s);
      CanonicalPositive(front);
      CanonicalRoundTrip(front);
      DecimalPush(ParseDecimal(front), last as int - '0' as int);
    }
  }

  /** Texts of one length differ first in their fronts or only in their last characters. */
  lemma {:induction false} LastDecides(s: string, t: string)
    requires |s| == |t| > 0 && CodeUnitLess(s, t)
    ensures var n := |s| - 1; CodeUnitLess(s[..n], t[..n]) || (s[..n] == t[..n] && s[n] < t[n])
    decreases |s|
  {
    var n := |s| - 1;
    if n > 0 && s[0] == t[0] {
      LastDecides(s[1..], t[1..]);
      assert s[1..][..n - 1] == s[..n][1..] && t[1..][..n - 1] == t[..n][1..];
      if s[1..][..n - 1] == t[1..][..n - 1] { assert s[..n] == [s[0]] + s[..n][1..] && t[..n] == [t[0]] + t[..n][1..]; }
    }
  }

  /** Shorter first, and else in dictionary order, is the order of the numbers. */
  lemma {:induction false} NumericOrder(s: string, t: string)
    requires Canonical(s) && Canonical(t) && (|s| < |t| || (|s| == |t| && CodeUnitLess(s, t)))
    ensures ParseDecimal(s) < ParseDecimal(t)
    decreases |t|
  {
    var a, b := s[..|s| - 1], t[..|t| - 1];
    var c, d := s[|s| - 1] as int - '0' as int, t[|t| - 1] as int - '0' as int;
    assert 0 <= c <= 9 && 0 <= d <= 9 && ParseDecimal(s) == ParseDecimal(a) * 10 + c && ParseDecimal(t) == ParseDecimal(b) * 10 + d;
    if |s| == |t| {
      LastDecides(s, t);
      CodeUnitIrreflexive(a);
    }
    if |t| > 1 {
      ShorterCanonical(t);
      CanonicalPositive(b);
      if |s| > 1 {
        ShorterCanonical(s);
        if a != b { NumericOrder(a, b); }
      }
    }
  }
}
