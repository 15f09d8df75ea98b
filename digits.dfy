/** Decimal digit strings: the `(\d+)` capture of the id routes and the
    `parseInt(text, 10)` the handlers apply to it and to the `userId` query value.
    `parseInt` here reads the longest prefix of decimal digits; a string that does
    not start with one is `NaN`, modelled as `None`. */
module Digits {
  import opened Options

  /** The regular-expression class `\d`: an ASCII decimal digit. */
  predicate IsDigit(c: char) {
    '0' <= c <= '9'
  }

  predicate IsDigits(s: string) {
    forall i :: 0 <= i < |s| ==> IsDigit(s[i])
  }

  /** What `\d+` matches: a non-empty run of digits. */
  predicate IsNumeral(s: string) {
    s != [] && IsDigits(s)
  }

  function DigitValue(c: char): (v: nat)
    requires IsDigit(c)
    ensures v < 10
  {
    c as int - '0' as int
  }

  function DigitChar(v: nat): (c: char)
    requires v < 10
    ensures IsDigit(c) && DigitValue(c) == v
  {
    ('0' as int + v) as char
  }

  /** The number a digit string denotes in base 10 (the empty string denotes 0). */
  function Value(s: string): nat
    requires IsDigits(s)
    decreases |s|
  {
    if s == [] then 0 else Value(s[..|s| - 1]) * 10 + DigitValue(s[|s| - 1])
  }

  /** The longest prefix of `s` made of digits. */
  function LeadingDigits(s: string): (d: string)
    ensures IsDigits(d) && d <= s
    ensures |d| < |s| ==> !IsDigit(s[|d|])
  {
    if s == [] || !IsDigit(s[0]) then [] else [s[0]] + LeadingDigits(s[1..])
  }

  /** `parseInt(s, 10)` without sign or white-space handling: the value of the
      leading digits, or `None` (`NaN`) when `s` does not start with a digit. */
  function ParseInt(s: string): (r: Option<int>)
    ensures r.None? <==> s == [] || !IsDigit(s[0])
    ensures r.Some? ==> 0 <= r.value
  {
    var d := LeadingDigits(s);
    if d == [] then None else Some(Value(d))
  }

  /** The canonical decimal form of `n`: digits only, no leading zero, denoting `n`
      (what JavaScript's `String(n)` writes for integers below 10^21; above that it
      switches to exponent form). */
  function Decimal(n: nat): (s: string)
    ensures IsNumeral(s) && Value(s) == n
    ensures s[0] == '0' ==> s == "0"
  {
    if n < 10 then [DigitChar(n)]
    else
      var s := Decimal(n / 10) + [DigitChar(n % 10)];
      assert s[..|s| - 1] == Decimal(n / 10);
      s
  }

  /** `LeadingDigits` stops exactly at the first non-digit. */
  lemma {:induction false} LeadingDigitsSplit(d: string, rest: string)
    requires IsDigits(d)
    requires rest == [] || !IsDigit(rest[0])
    ensures LeadingDigits(d + rest) == d
  {
    if d == [] {
      assert d + rest == rest;
    } else {
      assert (d + rest)[1..] == d[1..] + rest;
      LeadingDigitsSplit(d[1..], rest);
      assert [d[0]] + d[1..] == d;
    }
  }

  /** `parseInt` of a digit run followed by anything that does not start with a
      digit is the run's value: the trailing text is ignored. */
  lemma ParseIntSplit(d: string, rest: string)
    requires IsNumeral(d)
    requires rest == [] || !IsDigit(rest[0])
    ensures ParseInt(d + rest) == Some(Value(d))
  {
    LeadingDigitsSplit(d, rest);
  }

  /** `parseInt` of a whole numeral is its value. */
  lemma ParseNumeral(d: string)
    requires IsNumeral(d)
    ensures ParseInt(d) == Some(Value(d))
  {
    ParseIntSplit(d, []);
    assert d + [] == d;
  }

  /** Rendering then parsing gives the number back. */
  lemma ParseDecimal(n: nat)
    ensures ParseInt(Decimal(n)) == Some(n)
  {
    ParseNumeral(Decimal(n));
  }

  /** A string of zeros denotes 0. */
  lemma {:induction false} ZerosValue(zs: string)
    requires forall i :: 0 <= i < |zs| ==> zs[i] == '0'
    ensures IsDigits(zs) && Value(zs) == 0
  {
    if zs != [] {
      ZerosValue(zs[..|zs| - 1]);
    }
  }

  /** Leading zeros do not change the value of a digit string. */
  lemma {:induction false} LeadingZerosValue(zs: string, d: string)
    requires forall i :: 0 <= i < |zs| ==> zs[i] == '0'
    requires IsDigits(d)
    ensures IsDigits(zs + d) && Value(zs + d) == Value(d)
  {
    ZerosValue(zs);
    if d == [] {
      assert zs + d == zs;
    } else {
      var s := zs + d;
      assert s[..|s| - 1] == zs + d[..|d| - 1];
      LeadingZerosValue(zs, d[..|d| - 1]);
    }
  }

  /** So `/api/users/007` and `/api/users/7` name the same id. */
  lemma ParseLeadingZeros(zs: string, d: string)
    requires forall i :: 0 <= i < |zs| ==> zs[i] == '0'
    requires IsNumeral(d)
    ensures IsNumeral(zs + d) && ParseInt(zs + d) == ParseInt(d)
  {
    LeadingZerosValue(zs, d);
    ParseNumeral(d);
    ParseNumeral(zs + d);
  }
}
