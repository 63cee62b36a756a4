/**
 * Decimal numerals of natural numbers: how C# interpolates an `int` and how
 * JavaScript names an array index as a property key. Both write the shortest
 * numeral, without a sign and without leading zeros.
 */
module Decimal {
  import opened Wrappers

  predicate IsDigit(c: char) {
    '0' <= c <= '9'
  }

  predicate AllDigits(s: string) {
    forall i :: 0 <= i < |s| ==> IsDigit(s[i])
  }

  /** A numeral as `ToString` writes it: non-empty digits, no leading zero except "0" itself. */
  predicate IsCanonical(s: string) {
    |s| > 0 && AllDigits(s) && (|s| > 1 ==> s[0] != '0')
  }

  function DigitChar(d: nat): (c: char)
    requires d < 10
    ensures IsDigit(c)
  {
    (48 + d) as char
  }

  function DigitValue(c: char): (d: nat)
    requires IsDigit(c)
    ensures d < 10 && DigitChar(d) == c
  {
    c as int - 48
  }

  /** The decimal numeral of `n`, most significant digit first. */
  function Numeral(n: nat): (s: string)
    ensures IsCanonical(s)
    decreases n
  {
    if n < 10 then [DigitChar(n)] else Numeral(n / 10) + [DigitChar(n % 10)]
  }

  /** The number a string of digits denotes. */
  function DigitsValue(s: string): nat
    requires AllDigits(s)
    decreases |s|
  {
    if s == [] then 0 else 10 * DigitsValue(s[..|s| - 1]) + DigitValue(s[|s| - 1])
  }

  /** Reads back a canonical numeral; anything else is not a numeral. */
  function ParseNumeral(s: string): (r: Option<nat>)
    ensures r.Some? <==> IsCanonical(s)
  {
    if IsCanonical(s) then Some(DigitsValue(s)) else None
  }

  /** Writing a number and reading it back gives the number. */
  lemma {:induction false} NumeralRoundTrip(n: nat)
    ensures ParseNumeral(Numeral(n)) == Some(n)
    decreases n
  {
    var s := Numeral(n);
    if n < 10 {
      assert s == [DigitChar(n)] && s[..0] == [];
      assert DigitsValue(s) == n;
    } else {
      NumeralRoundTrip(n / 10);
      assert s[..|s| - 1] == Numeral(n / 10);
      assert DigitValue(s[|s| - 1]) == n % 10;
    }
  }

  lemma {:induction false} LeadingNonZeroIsPositive(s: string)
    requires |s| > 0 && AllDigits(s) && s[0] != '0'
    ensures DigitsValue(s) > 0
    decreases |s|
  {
    if |s| > 1 {
      LeadingNonZeroIsPositive(s[..|s| - 1]);
    }
  }

  /** Every canonical numeral is the numeral of the number it denotes. */
  lemma {:induction false} CanonicalIsNumeral(s: string)
    requires IsCanonical(s)
    ensures Numeral(DigitsValue(s)) == s
    decreases |s|
  {
    if |s| > 1 {
      var p := s[..|s| - 1];
      assert p[0] == s[0];
      LeadingNonZeroIsPositive(p);
      CanonicalIsNumeral(p);
      var v := DigitsValue(s);
      assert v / 10 == DigitsValue(p) && v % 10 == DigitValue(s[|s| - 1]);
      assert s == p + [s[|s| - 1]];
    }
  }

  /** Distinct numbers have distinct numerals. */
  lemma NumeralInjective(m: nat, n: nat)
    ensures Numeral(m) == Numeral(n) ==> m == n
  {
    NumeralRoundTrip(m);
    NumeralRoundTrip(n);
  }

  /** The length of the run of digits that a string starts with. */
  function DigitRunLength(s: string): (k: nat)
    ensures k <= |s|
  {
    if s == [] || !IsDigit(s[0]) then 0 else 1 + DigitRunLength(s[1..])
  }

  lemma {:induction false} DigitRunEndsAtSeparator(d: string, sep: char, t: string)
    requires AllDigits(d) && !IsDigit(sep)
    ensures DigitRunLength(d + [sep] + t) == |d|
    decreases |d|
  {
    var s := d + [sep] + t;
    if d == [] {
      assert s[0] == sep;
    } else {
      assert s[1..] == d[1..] + [sep] + t;
      DigitRunEndsAtSeparator(d[1..], sep, t);
    }
  }

  /**
   * Two digit strings, each followed by the same non-digit, are split at the
   * same place: the digits and the text after the separator agree.
   */
  lemma DigitsBeforeSeparator(d1: string, d2: string, sep: char, t1: string, t2: string)
    requires AllDigits(d1) && AllDigits(d2) && !IsDigit(sep)
    requires d1 + [sep] + t1 == d2 + [sep] + t2
    ensures d1 == d2 && t1 == t2
  {
    var s := d1 + [sep] + t1;
    DigitRunEndsAtSeparator(d1, sep, t1);
    DigitRunEndsAtSeparator(d2, sep, t2);
    assert d1 == s[..|d1|] == d2;
    assert t1 == s[|d1| + 1..] == t2;
  }
}
