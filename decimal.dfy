/** Decimal rendering of integers, as Swift's string interpolation `"\(n)"`
    prints an `Int`, and the decimal reading that undoes it. */
module Decimal {
  import opened Wrappers

  predicate IsDigit(c: char) {
    '0' <= c <= '9'
  }

  function DigitValue(c: char): (d: nat)
    requires IsDigit(c)
    ensures d < 10
  {
    c as int - '0' as int
  }

  function DigitChar(d: nat): (c: char)
    requires d < 10
    ensures IsDigit(c) && DigitValue(c) == d
  {
    (d + '0' as int) as char
  }

  predicate AllDigits(s: string) {
    forall i :: 0 <= i < |s| ==> IsDigit(s[i])
  }

  /** At least one digit, and no leading zero unless the number is zero. */
  predicate IsCanonicalDigits(s: string) {
    |s| > 0 && AllDigits(s) && (|s| > 1 ==> s[0] != '0')
  }

  /** The canonical decimal text of an integer: canonical digits, or a minus
      sign before canonical digits of a nonzero number (never `-0`). */
  predicate IsCanonical(s: string) {
    IsCanonicalDigits(s) || (|s| > 1 && s[0] == '-' && IsCanonicalDigits(s[1..]) && s[1] != '0')
  }

  /** The digits of `n`, most significant first, with no leading zero. */
  function NatToString(n: nat): (s: string)
    ensures IsCanonicalDigits(s)
    ensures n > 0 ==> s[0] != '0'
    decreases n
  {
    if n < 10 then [DigitChar(n)] else NatToString(n / 10) + [DigitChar(n % 10)]
  }

  /** `"\(n)"`: a minus sign before the digits of a negative number. */
  function IntToString(n: int): (s: string)
    ensures |s| > 0
    ensures n < 0 <==> s[0] == '-'
    ensures n >= 0 ==> AllDigits(s)
    ensures IsCanonical(s)
  {
    if n < 0 then "-" + NatToString(-n) else NatToString(n)
  }

  /** The value of a string of decimal digits. */
  function DigitsValue(s: string): nat
    requires AllDigits(s)
  {
    if s == [] then 0 else DigitsValue(s[..|s| - 1]) * 10 + DigitValue(s[|s| - 1])
  }

  /** Reads an optional minus sign followed by at least one decimal digit. */
  function ParseInt(s: string): (r: Option<int>)
    ensures r.Some? <==> (|s| > 0 && AllDigits(s)) || (|s| > 1 && s[0] == '-' && AllDigits(s[1..]))
  {
    if |s| > 0 && AllDigits(s) then Some(DigitsValue(s) as int)
    else if |s| > 1 && s[0] == '-' && AllDigits(s[1..]) then Some(-(DigitsValue(s[1..]) as int))
    else None
  }

  lemma {:induction false} DigitsOfNat(n: nat)
    ensures DigitsValue(NatToString(n)) == n
    decreases n
  {
    var s := NatToString(n);
    if n >= 10 {
      DigitsOfNat(n / 10);
      assert s[..|s| - 1] == NatToString(n / 10);
    }
  }

  /** Reading back the decimal rendering of an integer gives that integer. */
  lemma IntToStringRoundTrip(n: int)
    ensures ParseInt(IntToString(n)) == Some(n)
  {
    var s := IntToString(n);
    if n < 0 {
      assert s[1..] == NatToString(-n);
      DigitsOfNat(-n);
    } else {
      DigitsOfNat(n);
    }
  }

  /** A string of digits whose first digit is not zero has a positive value. */
  lemma {:induction false} LeadingNonzeroIsPositive(s: string)
    requires |s| > 0 && AllDigits(s) && s[0] != '0'
    ensures DigitsValue(s) > 0
    decreases |s|
  {
    if |s| > 1 {
      LeadingNonzeroIsPositive(s[..|s| - 1]);
    }
  }

  /** Canonical digits are determined by their value. */
  lemma {:induction false} CanonicalDigitsAreUnique(a: string, b: string)
    requires IsCanonicalDigits(a) && IsCanonicalDigits(b)
    requires DigitsValue(a) == DigitsValue(b)
    ensures a == b
    decreases |a|
  {
    var a', b' := a[..|a| - 1], b[..|b| - 1];
    if |a| > 1 {
      LeadingNonzeroIsPositive(a');
    }
    if |b| > 1 {
      LeadingNonzeroIsPositive(b');
    }
    assert DigitValue(a[|a| - 1]) == DigitValue(b[|b| - 1]);
    if |a| > 1 && |b| > 1 {
      CanonicalDigitsAreUnique(a', b');
      assert a == a' + [a[|a| - 1]];
      assert b == b' + [b[|b| - 1]];
    }
  }

  /** Two canonical texts that read as the same integer are the same text,
      so `IntToString(n)` is the only canonical rendering of `n`. */
  lemma CanonicalIsUnique(s: string, t: string)
    requires IsCanonical(s) && IsCanonical(t)
    requires ParseInt(s) == ParseInt(t)
    ensures s == t
  {
    var sNeg, tNeg := !IsCanonicalDigits(s), !IsCanonicalDigits(t);
    if sNeg {
      LeadingNonzeroIsPositive(s[1..]);
    }
    if tNeg {
      LeadingNonzeroIsPositive(t[1..]);
    }
    if !sNeg && !tNeg {
      CanonicalDigitsAreUnique(s, t);
    } else if sNeg && tNeg {
      CanonicalDigitsAreUnique(s[1..], t[1..]);
      assert s == [s[0]] + s[1..] && t == [t[0]] + t[1..];
    }
  }
}
