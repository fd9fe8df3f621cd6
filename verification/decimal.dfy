/** Decimal rendering of natural numbers, as Python's `str` writes an int,
    with the parse that undoes it. Used for the default feature names. */
module Decimal {

  function DigitChar(d: nat): char
    requires d < 10
  {
    ('0' as int + d) as char
  }

  function DigitValue(c: char): nat
  {
    if '0' <= c <= '9' then c as int - '0' as int else 0
  }

  /** A numeral as Python's `str` writes a natural number: one or more
      digits, with no leading zero unless the number is 0 itself. */
  predicate Canonical(s: string)
  {
    && |s| > 0
    && (forall i :: 0 <= i < |s| ==> '0' <= s[i] <= '9')
    && (|s| == 1 || s[0] != '0')
  }

  /** The shortest decimal numeral of n: digits only, no leading zero. */
  function NatToString(n: nat): (s: string)
    ensures Canonical(s)
    ensures s[0] == '0' <==> n == 0
    decreases n
  {
    if n < 10 then [DigitChar(n)] else NatToString(n / 10) + [DigitChar(n % 10)]
  }

  /** Reads a string of digits most significant first. */
  function ParseNat(s: string): nat
  {
    if |s| == 0 then 0 else ParseNat(s[..|s| - 1]) * 10 + DigitValue(s[|s| - 1])
  }

  /** Parsing a rendered number gives the number back. */
  lemma {:induction false} ParseNatToString(n: nat)
    ensures ParseNat(NatToString(n)) == n
    decreases n
  {
    var s := NatToString(n);
    if n < 10 {
      assert s[..|s| - 1] == [];
    } else {
      assert s[..|s| - 1] == NatToString(n / 10);
      assert DigitValue(s[|s| - 1]) == n % 10;
      ParseNatToString(n / 10);
    }
  }

  /** Different numbers are rendered differently. */
  lemma NatToStringInjective(m: nat, n: nat)
    requires m != n
    ensures NatToString(m) != NatToString(n)
  {
    ParseNatToString(m);
    ParseNatToString(n);
  }

  /** A numeral that does not start with 0 stands for a positive number. */
  lemma {:induction false} ParseNatPositive(s: string)
    requires Canonical(s) && s[0] != '0'
    ensures ParseNat(s) > 0
    decreases |s|
  {
    if |s| > 1 {
      var init := s[..|s| - 1];
      assert init[0] == s[0];
      ParseNatPositive(init);
    }
  }

  /** A canonical numeral is the rendering of the number it stands for, so
      NatToString(n) is the only canonical numeral that parses to n. */
  lemma {:induction false} CanonicalIsNatToString(s: string)
    requires Canonical(s)
    ensures s == NatToString(ParseNat(s))
    decreases |s|
  {
    var d := DigitValue(s[|s| - 1]);
    assert DigitChar(d) == s[|s| - 1];
    if |s| > 1 {
      var init := s[..|s| - 1];
      assert init[0] == s[0];
      ParseNatPositive(init);
      CanonicalIsNatToString(init);
      var p := ParseNat(init);
      assert ParseNat(s) == p * 10 + d;
      assert ParseNat(s) / 10 == p && ParseNat(s) % 10 == d;
      assert s == init + [s[|s| - 1]];
    }
  }
}
