/**
 * Decimal rendering of integers, as Go's `fmt` verb `%d` writes an `int`:
 * an optional minus sign followed by the digits of the magnitude, with no
 * leading zeros and no plus sign. `Parse` reads back exactly the strings
 * that `FromInt` produces, which the round-trip lemmas below prove.
 */
module Decimal {
  import opened Wrappers

  predicate IsDigit(c: char) {
    '0' <= c <= '9'
  }

  predicate IsDigits(s: string) {
    forall k :: 0 <= k < |s| ==> IsDigit(s[k])
  }

  /** A non-empty digit string without leading zeros ("0" itself is allowed). */
  predicate IsCanonical(s: string) {
    |s| >= 1 && IsDigits(s) && (s[0] == '0' ==> |s| == 1)
  }

  function DigitChar(d: nat): (c: char)
    requires d < 10
    ensures IsDigit(c)
    ensures c == '0' <==> d == 0
  {
    ('0' as int + d) as char
  }

  function DigitValue(c: char): (d: nat)
    requires IsDigit(c)
    ensures d < 10
    ensures DigitChar(d) == c
  {
    c as int - '0' as int
  }

  /** The value of a digit string, most significant digit first. */
  function Value(s: string): nat
    requires IsDigits(s)
  {
    if |s| == 0 then 0 else Value(s[..|s| - 1]) * 10 + DigitValue(s[|s| - 1])
  }

  /** The digits of a natural number. */
  function FromNat(n: nat): (s: string)
    ensures IsCanonical(s)
    ensures s[0] == '0' <==> n == 0
  {
    if n < 10 then [DigitChar(n)] else FromNat(n / 10) + [DigitChar(n % 10)]
  }

  /** `%d` of an `int`: a minus sign exactly for negative values, then the magnitude. */
  function FromInt(i: int): (s: string)
    ensures |s| >= 1
    ensures s[0] == '-' <==> i < 0
  {
    if i < 0 then "-" + FromNat(-i) else FromNat(i)
  }

  /** Reads a string in the form `FromInt` produces; anything else is `None`. */
  function Parse(s: string): Option<int> {
    if |s| >= 2 && s[0] == '-' && s[1] != '0' && IsCanonical(s[1..]) then
      Some(-(Value(s[1..]) as int))
    else if IsCanonical(s) then
      Some(Value(s) as int)
    else
      None
  }

  lemma {:induction false} ValueOfFromNat(n: nat)
    ensures Value(FromNat(n)) == n
  {
    if n >= 10 {
      var s := FromNat(n);
      var prefix := FromNat(n / 10);
      assert s == prefix + [DigitChar(n % 10)];
      assert s[..|s| - 1] == prefix;
      ValueOfFromNat(n / 10);
    }
  }

  /** The leading digit bounds the value from below. */
  lemma {:induction false} ValueAtLeastLeadingDigit(s: string)
    requires |s| >= 1 && IsDigits(s)
    ensures Value(s) >= DigitValue(s[0])
  {
    if |s| > 1 {
      var prefix := s[..|s| - 1];
      assert prefix[0] == s[0];
      ValueAtLeastLeadingDigit(prefix);
    }
  }

  lemma {:induction false} FromNatOfValue(s: string)
    requires IsCanonical(s)
    ensures FromNat(Value(s)) == s
  {
    if |s| > 1 {
      var prefix := s[..|s| - 1];
      var last := s[|s| - 1];
      assert prefix[0] == s[0] && s[0] != '0';
      assert IsCanonical(prefix);
      ValueAtLeastLeadingDigit(prefix);
      FromNatOfValue(prefix);
      var n := Value(s);
      assert n == Value(prefix) * 10 + DigitValue(last);
      assert n / 10 == Value(prefix) && n % 10 == DigitValue(last);
      assert s == prefix + [last];
    }
  }

  /** Every integer's rendering reads back as that integer. */
  lemma ParseFromInt(i: int)
    ensures Parse(FromInt(i)) == Some(i)
  {
    var s := FromInt(i);
    if i < 0 {
      assert s[1..] == FromNat(-i);
      ValueOfFromNat(-i);
    } else {
      ValueOfFromNat(i);
    }
  }

  /** Every string `Parse` accepts is the rendering of the value it reads. */
  lemma FromIntOfParse(s: string, i: int)
    requires Parse(s) == Some(i)
    ensures FromInt(i) == s
  {
    if |s| >= 2 && s[0] == '-' && s[1] != '0' && IsCanonical(s[1..]) {
      var digits := s[1..];
      ValueAtLeastLeadingDigit(digits);
      FromNatOfValue(digits);
      assert s == "-" + digits;
    } else {
      FromNatOfValue(s);
    }
  }
}
