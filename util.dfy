/**
 * Decimal rendering and parsing of unsigned numbers, and the byte-size
 * literals ("100K", "2M") accepted by size-valued options.
 */
module Util {
  import opened Wrappers

  predicate IsDigit(c: char) {
    '0' <= c <= '9'
  }

  predicate AllDigits(s: string) {
    forall i :: 0 <= i < |s| ==> IsDigit(s[i])
  }

  function DigitValue(c: char): nat
    requires IsDigit(c)
  {
    c as int - '0' as int
  }

  function DigitChar(d: nat): (c: char)
    requires d < 10
    ensures IsDigit(c) && DigitValue(c) == d
  {
    ('0' as int + d) as char
  }

  /** The number a string of digits denotes, most significant digit first. */
  function DigitsValue(s: string): nat
    requires AllDigits(s)
  {
    if s == [] then 0 else DigitsValue(s[..|s| - 1]) * 10 + DigitValue(s[|s| - 1])
  }

  /** Decimal rendering of a number: digits only, no leading zero. */
  function Itos(n: nat): (r: string)
    ensures |r| > 0 && AllDigits(r)
    ensures |r| > 1 ==> r[0] != '0'
    decreases n
  {
    if n < 10 then [DigitChar(n)] else Itos(n / 10) + [DigitChar(n % 10)]
  }

  /** Parses a non-empty string of decimal digits; anything else is rejected. */
  function ParseUInt(s: string): (r: Option<nat>)
  {
    if |s| > 0 && AllDigits(s) then Some(DigitsValue(s)) else None
  }

  const KILO: nat := 1024
  const MEGA: nat := 1024 * 1024

  /**
   * A byte count: decimal digits, optionally followed by `K` (times 1024)
   * or `M` (times 1048576).
   */
  function GetRealSize(s: string): (r: Option<nat>)
  {
    if |s| > 0 && s[|s| - 1] == 'K' then
      match ParseUInt(s[..|s| - 1])
      case Some(n) => Some(n * KILO)
      case None => None
    else if |s| > 0 && s[|s| - 1] == 'M' then
      match ParseUInt(s[..|s| - 1])
      case Some(n) => Some(n * MEGA)
      case None => None
    else ParseUInt(s)
  }

  /** Rendering a number in decimal and parsing it back gives the number. */
  lemma {:induction false} ItosRoundTrip(n: nat)
    ensures ParseUInt(Itos(n)) == Some(n)
    decreases n
  {
    var r := Itos(n);
    if n >= 10 {
      ItosRoundTrip(n / 10);
      assert r[..|r| - 1] == Itos(n / 10);
    } else {
      assert r == [DigitChar(n)];
      assert r[..0] == [];
      assert DigitsValue(r) == DigitValue(DigitChar(n));
    }
  }

  /** A canonical decimal string (no leading zero) is what Itos renders for its value. */
  lemma {:induction false} ItosCanonical(s: string)
    requires |s| > 0 && AllDigits(s) && (|s| > 1 ==> s[0] != '0')
    ensures Itos(DigitsValue(s)) == s
    decreases |s|
  {
    if |s| == 1 {
      assert DigitsValue(s) == DigitValue(s[0]) by {
        assert s[..0] == [];
      }
    } else {
      var p := s[..|s| - 1];
      assert p[0] == s[0];
      LeadingDigitPositive(p);
      ItosCanonical(p);
      var n := DigitsValue(s);
      assert n / 10 == DigitsValue(p) && n % 10 == DigitValue(s[|s| - 1]);
    }
  }

  /** A digit string of two or more digits without a leading zero denotes at least 10. */
  lemma {:induction false} LeadingDigitPositive(s: string)
    requires |s| > 0 && AllDigits(s) && (|s| > 1 ==> s[0] != '0')
    ensures |s| > 1 ==> DigitsValue(s) >= 10
    ensures DigitsValue(s) >= DigitValue(s[0])
    decreases |s|
  {
    if |s| > 1 {
      var p := s[..|s| - 1];
      assert p[0] == s[0];
      LeadingDigitPositive(p);
      assert DigitsValue(p) >= 1;
    } else {
      assert s[..0] == [];
    }
  }

  /** A size that was stored back in decimal reads as the same byte count. */
  lemma StoredSizeRoundTrip(n: nat)
    ensures GetRealSize(Itos(n)) == Some(n)
  {
    ItosRoundTrip(n);
    var r := Itos(n);
    assert IsDigit(r[|r| - 1]);
  }

  /** The `K` and `M` suffixes scale the decimal part by 1024 and 1048576. */
  lemma SuffixScales(digits: string)
    ensures GetRealSize(digits + "K") == (if |digits| > 0 && AllDigits(digits) then Some(DigitsValue(digits) * 1024) else None)
    ensures GetRealSize(digits + "M") == (if |digits| > 0 && AllDigits(digits) then Some(DigitsValue(digits) * 1048576) else None)
  {
    assert (digits + "K")[..|digits|] == digits;
    assert (digits + "M")[..|digits|] == digits;
  }

  /** A string with a non-digit that is not a trailing `K` or `M` is not a size. */
  lemma RejectsNonDigit(s: string, i: nat)
    requires i < |s| && !IsDigit(s[i])
    requires i == |s| - 1 ==> s[i] != 'K' && s[i] != 'M'
    ensures GetRealSize(s) == None
  {
    if |s| > 0 && (s[|s| - 1] == 'K' || s[|s| - 1] == 'M') {
      assert s[..|s| - 1][i] == s[i];
    }
  }
}
