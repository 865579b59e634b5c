/**
 * Decimal rendering of integers, as a JavaScript template literal renders an
 * integral number (`${n}`), and the readers for literal text and numerals
 * that the round-trip proofs use.
 */
module Text {
  import opened Common

  predicate IsDigit(c: char) { '0' <= c <= '9' }

  predicate AllDigits(s: string) {
    forall i :: 0 <= i < |s| ==> IsDigit(s[i])
  }

  function DigitChar(d: nat): (c: char)
    requires d < 10
    ensures IsDigit(c)
  {
    ('0' as int + d) as char
  }

  function DigitValue(c: char): (d: nat)
    requires IsDigit(c)
    ensures d < 10
  {
    c as int - '0' as int
  }

  /** Shortest decimal numeral of `n`, most significant digit first. */
  function NatToString(n: nat): (s: string)
    ensures |s| > 0 && AllDigits(s)
    ensures n < 10 <==> |s| == 1
  {
    if n < 10 then [DigitChar(n)] else NatToString(n / 10) + [DigitChar(n % 10)]
  }

  /** `${n}` for an integral number: a leading '-' for negative values. */
  function IntToString(n: int): string {
    if n < 0 then "-" + NatToString(-n) else NatToString(n)
  }

  /** Length of the run of digits at the front of `s`. */
  function DigitRun(s: string): (k: nat)
    ensures k <= |s|
    ensures AllDigits(s[..k])
    ensures k < |s| ==> !IsDigit(s[k])
  {
    if |s| > 0 && IsDigit(s[0]) then 1 + DigitRun(s[1..]) else 0
  }

  /** The number a string of digits denotes. */
  function DigitsValue(d: string): nat
    requires AllDigits(d)
  {
    if d == [] then 0 else 10 * DigitsValue(d[..|d| - 1]) + DigitValue(d[|d| - 1])
  }

  /** A numeral in JSON's integer grammar: a lone `0`, or digits not starting with `0`. */
  predicate CanonicalDigits(d: string) {
    AllDigits(d) && d != [] && (|d| == 1 || d[0] != '0')
  }

  /**
   * Reads the longest digit run at the front of `s`; fails when there is
   * none, or when it has a leading zero, which JSON does not allow.
   */
  function ParseNat(s: string): Option<(nat, string)> {
    var k := DigitRun(s);
    if k == 0 || (k > 1 && s[0] == '0') then None else Some((DigitsValue(s[..k]), s[k..]))
  }

  /**
   * Reads an optional '-' followed by a numeral. The numeral `-0` denotes no
   * integer distinct from `0` and is refused.
   */
  function ParseInt(s: string): Option<(int, string)> {
    if |s| > 0 && s[0] == '-' then
      var (n, rest) :- ParseNat(s[1..]);
      if n == 0 then None
      else
        var negated: int := -(n as int);
        Some((negated, rest))
    else
      var (n, rest) :- ParseNat(s);
      Some((n as int, rest))
  }

  /** A string that cannot extend a numeral: empty or starting with a non-digit. */
  predicate StopsNumeral(rest: string) {
    rest == [] || !IsDigit(rest[0])
  }

  lemma {:induction false} DigitsValueOfNatToString(n: nat)
    ensures DigitsValue(NatToString(n)) == n
  {
    if n >= 10 {
      var s := NatToString(n);
      assert s[..|s| - 1] == NatToString(n / 10);
      DigitsValueOfNatToString(n / 10);
    }
  }

  lemma {:induction false} DigitRunOfDigits(d: string, rest: string)
    requires AllDigits(d) && StopsNumeral(rest)
    ensures DigitRun(d + rest) == |d|
  {
    if d != [] {
      assert (d + rest)[1..] == d[1..] + rest;
      DigitRunOfDigits(d[1..], rest);
    }
  }

  /** A numeral of a positive number never starts with `0`. */
  lemma {:induction false} NatToStringNoLeadingZero(n: nat)
    requires n >= 1
    ensures NatToString(n)[0] != '0'
  {
    if n >= 10 {
      NatToStringNoLeadingZero(n / 10);
    }
  }

  /** Digits that do not start with `0` denote a positive number; more than one of them, ten or more. */
  lemma {:induction false} DigitsValuePositive(d: string)
    requires AllDigits(d) && d != [] && d[0] != '0'
    ensures DigitsValue(d) >= 1
    ensures |d| > 1 ==> DigitsValue(d) >= 10
  {
    var init := d[..|d| - 1];
    if |d| > 1 {
      assert init[0] == d[0];
      DigitsValuePositive(init);
    } else {
      assert init == [];
    }
  }

  /** A JSON numeral is the shortest numeral of the number it denotes. */
  lemma {:induction false} NatToStringOfDigits(d: string)
    requires CanonicalDigits(d)
    ensures NatToString(DigitsValue(d)) == d
  {
    var c := d[|d| - 1];
    var init := d[..|d| - 1];
    if |d| == 1 {
      assert init == [];
      assert DigitsValue(d) == DigitValue(c);
      assert [DigitChar(DigitValue(c))] == d;
    } else {
      assert init[0] == d[0];
      DigitsValuePositive(init);
      NatToStringOfDigits(init);
      var v := DigitsValue(d);
      assert v / 10 == DigitsValue(init) && v % 10 == DigitValue(c);
      assert init + [c] == d;
    }
  }

  /** Whatever `ParseNat` reads is a rendered number followed by text that stops it. */
  lemma ParseNatCanonical(s: string)
    requires ParseNat(s).Some?
    ensures s == NatToString(ParseNat(s).value.0) + ParseNat(s).value.1
    ensures StopsNumeral(ParseNat(s).value.1)
  {
    var k := DigitRun(s);
    NatToStringOfDigits(s[..k]);
    assert s == s[..k] + s[k..];
  }

  /** Whatever `ParseInt` reads is a rendered integer followed by text that stops it. */
  lemma ParseIntCanonical(s: string)
    requires ParseInt(s).Some?
    ensures s == IntToString(ParseInt(s).value.0) + ParseInt(s).value.1
    ensures StopsNumeral(ParseInt(s).value.1)
  {
    if |s| > 0 && s[0] == '-' {
      ParseNatCanonical(s[1..]);
      assert s == "-" + s[1..];
    } else {
      ParseNatCanonical(s);
    }
  }

  /** A numeral with a leading zero does not read, as `JSON.parse` refuses `07`. */
  lemma LeadingZeroRejected(d: char, rest: string)
    requires IsDigit(d)
    ensures ParseNat("0" + [d] + rest).None? && ParseInt("0" + [d] + rest).None?
  {
    var s := "0" + [d] + rest;
    assert s[1..][0] == d;
  }

  /** `-0` does not read as an integer, and neither does `-0` followed by more digits. */
  lemma NegativeZeroRejected(rest: string)
    ensures ParseInt("-0" + rest).None?
  {
    var s := "-0" + rest;
    var z := "0" + rest;
    assert s[1..] == z;
    if !StopsNumeral(rest) {
      LeadingZeroRejected(rest[0], rest[1..]);
      assert z == "0" + [rest[0]] + rest[1..];
      return;
    }
    assert z[1..] == rest;
    assert DigitRun(rest) == 0;
    assert DigitRun(z) == 1;
    assert z[..1] == "0";
    assert DigitsValue("0") == 0 by {
      assert "0"[..0] == [];
    }
  }

  /** Reading back a rendered integer yields the integer and leaves the rest untouched. */
  lemma ParseIntRoundTrip(n: int, rest: string)
    requires StopsNumeral(rest)
    ensures ParseInt(IntToString(n) + rest) == Some((n, rest))
  {
    var m: nat := if n < 0 then -n else n;
    var d := NatToString(m);
    DigitRunOfDigits(d, rest);
    if m >= 1 {
      NatToStringNoLeadingZero(m);
    }
    DigitsValueOfNatToString(m);
    assert (d + rest)[..|d|] == d;
    assert (d + rest)[|d|..] == rest;
    if n < 0 {
      assert ("-" + d + rest)[1..] == d + rest;
    } else {
      assert (d + rest)[0] == d[0];
    }
  }

  /** The rest of `s` after the literal `lit`, if `s` starts with it. */
  function Expect(lit: string, s: string): Option<string> {
    if |lit| <= |s| && s[..|lit|] == lit then Some(s[|lit|..]) else None
  }

  lemma ExpectPrefix(lit: string, rest: string)
    ensures Expect(lit, lit + rest) == Some(rest)
  {
    assert (lit + rest)[..|lit|] == lit;
    assert (lit + rest)[|lit|..] == rest;
  }

  lemma ExpectMismatch(lit: string, s: string, i: nat)
    requires i < |lit| && i < |s| && s[i] != lit[i]
    ensures Expect(lit, s) == None
  {
    if |lit| <= |s| {
      assert s[..|lit|][i] != lit[i];
    }
  }

  /** Reads a numeral that follows the literal `lit`. */
  function ParseIntAfter(lit: string, s: string): Option<(int, string)> {
    var body :- Expect(lit, s);
    ParseInt(body)
  }

  /** Whatever `ParseIntAfter` reads is the literal, a rendered integer, and text that stops it. */
  lemma ParseIntAfterCanonical(lit: string, s: string)
    requires ParseIntAfter(lit, s).Some?
    ensures s == lit + IntToString(ParseIntAfter(lit, s).value.0) + ParseIntAfter(lit, s).value.1
    ensures StopsNumeral(ParseIntAfter(lit, s).value.1)
  {
    var body := Expect(lit, s).value;
    assert s == lit + body;
    ParseIntCanonical(body);
  }

  lemma ParseIntAfterRoundTrip(lit: string, n: int, rest: string)
    requires StopsNumeral(rest)
    ensures ParseIntAfter(lit, lit + IntToString(n) + rest) == Some((n, rest))
  {
    var body := IntToString(n) + rest;
    assert lit + IntToString(n) + rest == lit + body;
    ExpectPrefix(lit, body);
    ParseIntRoundTrip(n, rest);
    assert ParseInt(body) == Some((n, rest));
  }
}
