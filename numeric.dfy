/**
  The signed 32-bit integers the source stores counts in, and the decimal
  parser (`str::parse::<i32>`) that turns the API's count strings into them.
 */
module Numeric {
  import opened Wrappers

  const I32Min: int := -0x8000_0000
  const I32Max: int := 0x7fff_ffff

  predicate IsDigit(c: char) {
    '0' <= c <= '9'
  }

  predicate AllDigits(s: string) {
    forall i :: 0 <= i < |s| ==> IsDigit(s[i])
  }

  function DigitValue(c: char): (d: nat)
    requires IsDigit(c)
    ensures d < 10
  {
    (c as int) - ('0' as int)
  }

  function DigitChar(d: nat): (c: char)
    requires d < 10
    ensures IsDigit(c) && DigitValue(c) == d
  {
    ('0' as int + d) as char
  }

  /** The value of a string of decimal digits, most significant first. */
  function DecimalValue(s: string): nat
    requires AllDigits(s)
  {
    if s == [] then 0
    else DecimalValue(s[..|s| - 1]) * 10 + DigitValue(s[|s| - 1])
  }

  /**
    `s.parse::<i32>()`: an optional leading `+` or `-`, then at least one
    decimal digit, and a value that fits in 32 bits; anything else (the empty
    string, a lone sign, a non-digit, an overflow) is an error.
   */
  function ParseI32(s: string): (r: Option<int>)
    ensures r.Some? ==> I32Min <= r.value <= I32Max
    ensures r.Some? ==> |s| > 0
  {
    if s == [] then None
    else
      var negative := s[0] == '-';
      var digits := if s[0] == '-' || s[0] == '+' then s[1..] else s;
      if digits == [] || !AllDigits(digits) then None
      else
        var magnitude: int := DecimalValue(digits);
        var v := if negative then -magnitude else magnitude;
        if I32Min <= v <= I32Max then Some(v) else None
  }

  /** The canonical decimal text of a natural number (what `Display` prints). */
  function DecimalString(n: nat): (s: string)
    ensures |s| > 0 && AllDigits(s)
  {
    if n < 10 then [DigitChar(n)]
    else DecimalString(n / 10) + [DigitChar(n % 10)]
  }

  lemma {:induction false} DecimalValueOfString(n: nat)
    ensures DecimalValue(DecimalString(n)) == n
  {
    var s := DecimalString(n);
    if n < 10 {
      assert s[..|s| - 1] == [];
    } else {
      DecimalValueOfString(n / 10);
      assert s[..|s| - 1] == DecimalString(n / 10);
    }
  }

  /** Parsing the printed form of any non-negative i32 gives it back. */
  lemma ParseDecimalRoundTrip(n: nat)
    requires n <= I32Max
    ensures ParseI32(DecimalString(n)) == Some(n)
  {
    DecimalValueOfString(n);
    var s := DecimalString(n);
    assert s[0] != '-' && s[0] != '+' by { assert IsDigit(s[0]); }
  }

  /** Parsing `-` followed by the printed form of a magnitude up to 2^31 gives the negative value. */
  lemma ParseNegativeRoundTrip(n: nat)
    requires n <= -I32Min
    ensures ParseI32("-" + DecimalString(n)) == Some(-(n as int))
  {
    DecimalValueOfString(n);
    var s := "-" + DecimalString(n);
    assert s[1..] == DecimalString(n);
  }

  /** A string that parses is a sign-free digit string, or a sign followed by at least one digit. */
  lemma ParsedIsNumeral(s: string)
    requires ParseI32(s).Some?
    ensures AllDigits(s) || ((s[0] == '-' || s[0] == '+') && |s| > 1 && AllDigits(s[1..]))
  {
  }

  /** One past the largest i32 does not parse: the parser reports overflow. */
  lemma ParseRejectsOverflow()
    ensures ParseI32(DecimalString(I32Max + 1)) == None
  {
    DecimalValueOfString(I32Max + 1);
    var s := DecimalString(I32Max + 1);
    assert IsDigit(s[0]);
  }
}
