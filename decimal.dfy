/**
 * Decimal rendering of unsigned integers, as Rust's `Display` for `u32` and
 * `usize` writes them (`format!("{}", epoch)`, `count.to_string()`): the
 * shortest string of ASCII digits, with no sign and no leading zero.
 */
module Decimal {
  import opened Prelude

  predicate IsDigit(c: char) { '0' <= c <= '9' }

  predicate AllDigits(s: string) { forall i :: 0 <= i < |s| ==> IsDigit(s[i]) }

  /** A digit string as `Display` writes it: nonempty, and "0" is the only one that starts with '0'. */
  predicate Canonical(s: string) { |s| >= 1 && AllDigits(s) && (s[0] == '0' ==> |s| == 1) }

  function DigitChar(d: nat): (c: char)
    requires d < 10
    ensures IsDigit(c) && c as int - '0' as int == d
  {
    ('0' as int + d) as char
  }

  /** The digits of `n`, most significant first. */
  function DecimalString(n: nat): (s: string)
    ensures Canonical(s)
    ensures n == 0 <==> s == "0"
    decreases n
  {
    if n < 10 then [DigitChar(n)] else DecimalString(n / 10) + [DigitChar(n % 10)]
  }

  /** The number a digit string denotes. */
  function DigitsValue(s: string): nat
    requires AllDigits(s)
    decreases |s|
  {
    if s == [] then 0 else DigitsValue(s[..|s| - 1]) * 10 + (s[|s| - 1] as int - '0' as int)
  }

  /** The inverse of `DecimalString`: defined exactly on canonical digit strings. */
  function ParseDecimal(s: string): Option<nat>
  {
    if Canonical(s) then Some(DigitsValue(s)) else None
  }

  lemma {:induction false} DigitsValueOfDecimal(n: nat)
    ensures DigitsValue(DecimalString(n)) == n
    decreases n
  {
    if n >= 10 {
      var p := DecimalString(n / 10);
      assert (p + [DigitChar(n % 10)])[..|p|] == p;
      DigitsValueOfDecimal(n / 10);
    }
  }

  /** A canonical string longer than one digit denotes at least 1. */
  lemma {:induction false} CanonicalValuePositive(s: string)
    requires AllDigits(s) && |s| >= 1 && s[0] != '0'
    ensures DigitsValue(s) >= 1
    decreases |s|
  {
    if |s| > 1 {
      var p := s[..|s| - 1];
      assert p[0] == s[0];
      CanonicalValuePositive(p);
    }
  }

  lemma {:induction false} DecimalOfDigitsValue(s: string)
    requires Canonical(s)
    ensures DecimalString(DigitsValue(s)) == s
    decreases |s|
  {
    if |s| > 1 {
      var p := s[..|s| - 1];
      assert p[0] == s[0];
      CanonicalValuePositive(p);
      DecimalOfDigitsValue(p);
      var v := DigitsValue(s);
      var d := s[|s| - 1] as int - '0' as int;
      assert v == DigitsValue(p) * 10 + d;
      assert v / 10 == DigitsValue(p) && v % 10 == d;
      assert DigitChar(d) == s[|s| - 1];
      assert s == p + [s[|s| - 1]];
    }
  }

  /** `ParseDecimal` reads back every number `DecimalString` writes. */
  lemma {:induction false} DecimalRoundTrip(n: nat)
    ensures ParseDecimal(DecimalString(n)) == Some(n)
  {
    DigitsValueOfDecimal(n);
  }

  /** Every string `ParseDecimal` accepts is what `DecimalString` writes for its value. */
  lemma {:induction false} ParseDecimalRoundTrip(s: string)
    ensures ParseDecimal(s).Some? ==> DecimalString(ParseDecimal(s).value) == s
  {
    if ParseDecimal(s).Some? {
      DecimalOfDigitsValue(s);
    }
  }

  /** Distinct numbers are written differently. */
  lemma {:induction false} DecimalInjective(m: nat, n: nat)
    ensures DecimalString(m) == DecimalString(n) ==> m == n
  {
    DigitsValueOfDecimal(m);
    DigitsValueOfDecimal(n);
  }
}
