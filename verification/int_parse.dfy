/**
 * Decimal text to 32-bit signed integer, as Rust's `str::parse::<i32>`
 * accepts it: an optional single `+` or `-`, then one or more ASCII digits
 * and nothing else (no whitespace, no second sign), with a value in
 * [-2^31, 2^31 - 1]. Leading zeros are allowed. The empty string and a
 * lone sign are rejected.
 */
module IntParse {
  import opened Wrappers

  const I32Min: int := -0x8000_0000
  const I32Max: int := 0x7fff_ffff

  predicate InI32(v: int) { I32Min <= v <= I32Max }

  predicate IsDigit(c: char) { '0' <= c <= '9' }

  predicate AllDigits(s: string)
  {
    forall i :: 0 <= i < |s| ==> IsDigit(s[i])
  }

  function DigitValue(c: char): (d: nat)
    requires IsDigit(c)
    ensures d < 10
  {
    c as int - '0' as int
  }

  function DigitChar(d: nat): (c: char)
    requires d < 10
    ensures IsDigit(c) && DigitValue(c) == d
  {
    ('0' as int + d) as char
  }

  /** Value of a run of decimal digits, most significant first. */
  function DigitsValue(s: string): nat
    requires AllDigits(s)
  {
    if |s| == 0 then 0
    else 10 * DigitsValue(s[..|s| - 1]) + DigitValue(s[|s| - 1])
  }

  /** True when `s` is an optional sign followed by at least one digit. */
  predicate WellFormed(s: string)
  {
    if |s| > 0 && (s[0] == '+' || s[0] == '-') then |s| > 1 && AllDigits(s[1..])
    else |s| > 0 && AllDigits(s)
  }

  /** The value a well-formed string denotes, before any range check. */
  function Denotation(s: string): int
    requires WellFormed(s)
  {
    if s[0] == '-' then -(DigitsValue(s[1..]) as int)
    else if s[0] == '+' then DigitsValue(s[1..])
    else DigitsValue(s)
  }

  /**
   * Rust's `str::parse::<i32>`: the sign is stripped first (a sign with
   * nothing after it is an error), every remaining character must be an
   * ASCII digit, and the accumulated value must not leave the i32 range.
   * The error kinds Rust distinguishes are collapsed into `None`, since the
   * caller only tests for success.
   */
  function ParseI32(s: string): (r: Option<int>)
    ensures r.Some? <==> WellFormed(s) && InI32(Denotation(s))
    ensures r.Some? ==> r.value == Denotation(s)
  {
    if |s| == 0 then None
    else if (s[0] == '+' || s[0] == '-') && |s| == 1 then None
    else
      var negative := s[0] == '-';
      var digits := if s[0] == '+' || s[0] == '-' then s[1..] else s;
      if !AllDigits(digits) then None
      else
        var v: int := if negative then -(DigitsValue(digits) as int) else DigitsValue(digits);
        if InI32(v) then Some(v) else None
  }

  /** Shortest decimal digits of `n` (no leading zero unless `n` is 0). */
  function NatDigits(n: nat): (s: string)
    ensures |s| >= 1 && AllDigits(s)
    ensures s[0] == '0' ==> n == 0
  {
    if n < 10 then [DigitChar(n)]
    else NatDigits(n / 10) + [DigitChar(n % 10)]
  }

  /** Decimal rendering of `v`, with a `-` in front when negative (Rust's `to_string`). */
  function FormatInt(v: int): (s: string)
    ensures WellFormed(s)
    ensures s[0] != '+'
  {
    if v < 0 then "-" + NatDigits(-v) else NatDigits(v)
  }

  lemma {:induction false} DigitsValueOfNatDigits(n: nat)
    ensures DigitsValue(NatDigits(n)) == n
  {
    var s := NatDigits(n);
    if n >= 10 {
      DigitsValueOfNatDigits(n / 10);
      assert s[..|s| - 1] == NatDigits(n / 10);
    }
  }

  /** Every value in the i32 range survives rendering and parsing back. */
  lemma ParseFormat(v: int)
    requires InI32(v)
    ensures ParseI32(FormatInt(v)) == Some(v)
  {
    var s := FormatInt(v);
    if v < 0 {
      assert s[1..] == NatDigits(-v);
      DigitsValueOfNatDigits(-v);
    } else {
      DigitsValueOfNatDigits(v);
    }
  }

  /**
   * Parsing then rendering gives the text back when it is already in
   * canonical form: no `+`, and no leading zero except in "0" itself.
   */
  lemma FormatParse(s: string, v: int)
    requires ParseI32(s) == Some(v)
    requires s[0] != '+'
    requires s == "0" || (if s[0] == '-' then s[1] != '0' else s[0] != '0')
    ensures FormatInt(v) == s
  {
    if s == "0" {
    } else if s[0] == '-' {
      CanonicalDigits(s[1..]);
      PositiveLeading(s[1..]);
      assert s == "-" + s[1..];
    } else {
      CanonicalDigits(s);
    }
  }

  /** Digits without a leading zero are the rendering of their value. */
  lemma {:induction false} CanonicalDigits(s: string)
    requires |s| >= 1 && AllDigits(s) && s[0] != '0'
    ensures NatDigits(DigitsValue(s)) == s
    decreases |s|
  {
    var p := s[..|s| - 1];
    var d := DigitValue(s[|s| - 1]);
    if |s| == 1 {
      assert DigitChar(d) == s[0];
    } else {
      CanonicalDigits(p);
      PositiveLeading(p);
      assert DigitsValue(s) / 10 == DigitsValue(p);
      assert DigitsValue(s) % 10 == d;
      assert DigitChar(d) == s[|s| - 1];
      assert s == p + [s[|s| - 1]];
    }
  }

  /** Digits with a non-zero leading digit denote a value of at least 1. */
  lemma {:induction false} PositiveLeading(s: string)
    requires |s| >= 1 && AllDigits(s) && s[0] != '0'
    ensures DigitsValue(s) >= 1
    decreases |s|
  {
    if |s| > 1 {
      PositiveLeading(s[..|s| - 1]);
    }
  }

  /** A leading zero does not change the parsed value. */
  lemma {:induction false} LeadingZero(s: string)
    requires |s| >= 1 && AllDigits(s)
    ensures AllDigits("0" + s) && DigitsValue("0" + s) == DigitsValue(s)
    decreases |s|
  {
    var z := "0" + s;
    assert z[..|z| - 1] == "0" + s[..|s| - 1];
    if |s| > 1 {
      LeadingZero(s[..|s| - 1]);
    }
  }

  /** `parse::<i32>` ignores leading zeros and a leading `+` before digits. */
  lemma ParseIgnoresPlusAndZeros(s: string)
    requires |s| >= 1 && AllDigits(s)
    ensures ParseI32("0" + s) == ParseI32(s)
    ensures ParseI32("+" + s) == ParseI32(s)
  {
    LeadingZero(s);
    assert ("+" + s)[1..] == s;
  }

  /** A string holding a character that is neither a digit nor a leading sign is rejected (whitespace included). */
  lemma RejectsStrayCharacter(s: string, i: nat)
    requires i < |s| && !IsDigit(s[i])
    requires i > 0 || (s[0] != '+' && s[0] != '-')
    ensures ParseI32(s) == None
  {
  }
}
