/**
  Decimal text of the unsigned 64-bit counters kept in the settings store.

  Counters are written with the "%llu" conversion (canonical decimal, no
  sign, no leading zeros) and read back with strtoull(s, NULL, 10) as
  described in section 7.22.1.4 of ISO C11: leading white space is skipped,
  an optional sign is accepted, then the longest run of decimal digits is
  converted; no digits means no conversion (0), a magnitude above ULLONG_MAX
  gives ULLONG_MAX, and a minus sign negates in unsigned arithmetic.
 */
module Decimal {

  const U64_MOD: int := 0x1_0000_0000_0000_0000
  const U64_MAX: int := U64_MOD - 1

  /** guint64 / unsigned long long */
  type U64 = x: int | 0 <= x < 0x1_0000_0000_0000_0000

  function Min(a: int, b: int): int { if a <= b then a else b }

  predicate IsDigit(c: char) { '0' <= c <= '9' }

  function DigitValue(c: char): (d: nat)
    requires IsDigit(c)
    ensures d < 10
  {
    (c as int) - ('0' as int)
  }

  function DigitChar(d: nat): (c: char)
    requires d < 10
    ensures IsDigit(c) && DigitValue(c) == d
  {
    (('0' as int) + d) as char
  }

  /** White space as isspace classifies it in the "C" locale. */
  predicate IsSpace(c: char)
  {
    c == ' ' || c == '\t' || c == '\n' || c == '\r' || c as int == 0x0B || c as int == 0x0C
  }

  predicate AllDigits(s: string)
  {
    forall i :: 0 <= i < |s| ==> IsDigit(s[i])
  }

  /** What "%llu" produces: at least one digit, and no leading zero unless the number is 0. */
  predicate Canonical(s: string)
  {
    |s| >= 1 && AllDigits(s) && (s[0] == '0' ==> |s| == 1)
  }

  function Pow10(n: nat): (p: nat)
    ensures p >= 1
  {
    if n == 0 then 1 else 10 * Pow10(n - 1)
  }

  /** The number a string of decimal digits denotes, most significant digit first. */
  function DigitsValue(s: string): (v: nat)
    requires AllDigits(s)
    ensures v < Pow10(|s|)
  {
    if s == [] then 0
    else
      var v' := DigitsValue(s[..|s| - 1]);
      assert v' <= Pow10(|s| - 1) - 1;
      v' * 10 + DigitValue(s[|s| - 1])
  }

  /** The longest prefix of s that consists of decimal digits. */
  function LeadingDigits(s: string): (p: string)
    ensures p <= s && AllDigits(p)
    ensures |p| == |s| || !IsDigit(s[|p|])
  {
    if s != [] && IsDigit(s[0]) then [s[0]] + LeadingDigits(s[1..]) else []
  }

  /** s without its leading white space. */
  function SkipSpaces(s: string): (t: string)
    ensures |t| <= |s| && t == s[|s| - |t|..]
    ensures forall i :: 0 <= i < |s| - |t| ==> IsSpace(s[i])
    ensures t == [] || !IsSpace(t[0])
  {
    if s != [] && IsSpace(s[0]) then SkipSpaces(s[1..]) else s
  }

  /** strtoull(s, NULL, 10) */
  function Strtoull(s: string): (r: U64)
    ensures LeadingDigits(s) != [] ==> r == Min(DigitsValue(LeadingDigits(s)), U64_MAX)
    ensures s == [] || !(IsSpace(s[0]) || IsDigit(s[0]) || s[0] == '+' || s[0] == '-') ==> r == 0
  {
    var t := SkipSpaces(s);
    var negative := t != [] && t[0] == '-';
    var u := if t != [] && (t[0] == '+' || t[0] == '-') then t[1..] else t;
    var digits := LeadingDigits(u);
    if digits == [] then 0
    else
      var m := DigitsValue(digits);
      if m > U64_MAX then U64_MAX
      else if negative then (U64_MOD - m) % U64_MOD
      else m
  }

  /** g_strdup_printf("%llu", n) */
  function FormatDecimal(n: nat): (r: string)
    ensures Canonical(r)
    ensures DigitsValue(r) == n
  {
    if n < 10 then [DigitChar(n)]
    else
      var prefix := FormatDecimal(n / 10);
      var r := prefix + [DigitChar(n % 10)];
      assert r[..|r| - 1] == prefix;
      assert prefix[0] != '0';
      r
  }

  /** A string made only of digits is its own leading digit run. */
  lemma LeadingDigitsOfDigits(s: string)
    requires AllDigits(s)
    ensures LeadingDigits(s) == s
  {
  }

  /** A digit string that does not start with 0 denotes a positive number. */
  lemma {:induction false} LeadingNonZeroPositive(s: string)
    requires AllDigits(s) && |s| >= 1 && s[0] != '0'
    ensures DigitsValue(s) >= 1
  {
    if |s| > 1 {
      LeadingNonZeroPositive(s[..|s| - 1]);
    }
  }

  /** Rendering a canonical decimal string's value gives the string back. */
  lemma {:induction false} FormatOfCanonical(s: string)
    requires Canonical(s)
    ensures FormatDecimal(DigitsValue(s)) == s
  {
    if |s| > 1 {
      var prefix := s[..|s| - 1];
      assert Canonical(prefix);
      LeadingNonZeroPositive(prefix);
      FormatOfCanonical(prefix);
      var n := DigitsValue(s);
      assert n / 10 == DigitsValue(prefix) && n % 10 == DigitValue(s[|s| - 1]);
      assert s == prefix + [s[|s| - 1]];
    }
  }

  /** On a plain digit string below 2^64 strtoull gives the number it denotes. */
  lemma StrtoullOfDigits(s: string)
    requires AllDigits(s) && s != [] && DigitsValue(s) <= U64_MAX
    ensures Strtoull(s) == DigitsValue(s)
  {
    LeadingDigitsOfDigits(s);
  }

  /** strtoull undoes "%llu" on every 64-bit value. */
  lemma ParseFormat(n: U64)
    ensures Strtoull(FormatDecimal(n)) == n
  {
    LeadingDigitsOfDigits(FormatDecimal(n));
  }

  /** "%llu" undoes strtoull on every canonical decimal string below 2^64. */
  lemma FormatParse(s: string)
    requires Canonical(s) && DigitsValue(s) <= U64_MAX
    ensures FormatDecimal(Strtoull(s)) == s
  {
    LeadingDigitsOfDigits(s);
    FormatOfCanonical(s);
  }

  /** Appending digits shifts the value left by their count and adds theirs. */
  lemma {:induction false} DigitsAppend(d: string, e: string)
    requires AllDigits(d) && AllDigits(e)
    ensures AllDigits(d + e)
    ensures DigitsValue(d + e) == DigitsValue(d) * Pow10(|e|) + DigitsValue(e)
  {
    assert AllDigits(d + e) by {
      forall i | 0 <= i < |d + e| ensures IsDigit((d + e)[i]) {
        if i < |d| { assert (d + e)[i] == d[i]; } else { assert (d + e)[i] == e[i - |d|]; }
      }
    }
    if e == [] {
      assert d + e == d;
    } else {
      var e' := e[..|e| - 1];
      var last := DigitValue(e[|e| - 1]);
      DigitsAppend(d, e');
      assert (d + e)[..|d + e| - 1] == d + e';
      assert (d + e)[|d + e| - 1] == e[|e| - 1];
      assert DigitsValue(d + e) == DigitsValue(d + e') * 10 + last;
      assert DigitsValue(e) == DigitsValue(e') * 10 + last;
      ShiftStep(DigitsValue(d), Pow10(|e'|), DigitsValue(e'), last);
    }
  }

  /** A run of zeros denotes 0. */
  lemma {:induction false} ZerosValue(s: string)
    requires forall i :: 0 <= i < |s| ==> s[i] == '0'
    ensures AllDigits(s) && DigitsValue(s) == 0
  {
    if s != [] {
      ZerosValue(s[..|s| - 1]);
    }
  }

  lemma ShiftStep(a: int, p: int, b: int, c: int)
    ensures (a * p + b) * 10 + c == a * (p * 10) + (b * 10 + c)
  {
  }
}
