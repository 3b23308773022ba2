/**
 * The integer and boolean text conversions the coercion engine relies on:
 * base-10 rendering of 64-bit integers (strconv.FormatInt / FormatUint),
 * boolean rendering (strconv.FormatBool), and the parsers the standard
 * integer and boolean flags use to read those renderings back
 * (strconv.ParseInt / ParseUint / ParseBool).
 */
module Decimal {

  const INT64_MIN: int := -0x8000_0000_0000_0000
  const INT64_MAX: int := 0x7fff_ffff_ffff_ffff
  const UINT64_MAX: int := 0xffff_ffff_ffff_ffff
  const TWO_TO_64: int := 0x1_0000_0000_0000_0000

  type int64 = i: int | INT64_MIN <= i <= INT64_MAX
  type uint64 = u: int | 0 <= u <= UINT64_MAX

  predicate IsDigit(c: char) {
    '0' <= c <= '9'
  }

  predicate AllDigits(s: string) {
    forall i :: 0 <= i < |s| ==> IsDigit(s[i])
  }

  /** A non-empty digit string without leading zeros: the only shape FormatUint produces. */
  predicate IsCanonical(s: string) {
    |s| > 0 && AllDigits(s) && (s[0] == '0' ==> |s| == 1)
  }

  function DigitChar(d: nat): (c: char)
    requires d < 10
    ensures IsDigit(c)
  {
    (48 + d) as char
  }

  function DigitValue(c: char): nat
    requires IsDigit(c)
  {
    (c as int) - 48
  }

  /** Base-10 digits of `n`, most significant first. */
  function Digits(n: nat): (s: string)
    ensures IsCanonical(s)
    ensures s[0] == '0' <==> n == 0
    decreases n
  {
    if n < 10 then [DigitChar(n)] else Digits(n / 10) + [DigitChar(n % 10)]
  }

  /** The number a digit string denotes. */
  function ValueOf(s: string): nat
    requires AllDigits(s)
    decreases |s|
  {
    if s == [] then 0 else ValueOf(s[..|s| - 1]) * 10 + DigitValue(s[|s| - 1])
  }

  lemma {:induction false} ValueOfDigits(n: nat)
    ensures ValueOf(Digits(n)) == n
    decreases n
  {
    if n >= 10 {
      var d := Digits(n / 10);
      var s := Digits(n);
      assert s == d + [DigitChar(n % 10)];
      assert s[..|s| - 1] == d;
      ValueOfDigits(n / 10);
    }
  }

  /** strconv.FormatInt(i, 10). */
  function FormatInt(i: int64): string {
    if i < 0 then "-" + Digits(-(i as int)) else Digits(i)
  }

  /** strconv.FormatUint(u, 10). */
  function FormatUint(u: uint64): string {
    Digits(u)
  }

  /** strconv.FormatBool(b). */
  function FormatBool(b: bool): string {
    if b then "true" else "false"
  }

  /** Go's conversion uint64(i) of an int64: the same 64 bits read as unsigned. */
  function ToUint64(i: int64): (u: uint64)
    ensures u == i % TWO_TO_64
    ensures i < 0 <==> u > INT64_MAX
  {
    if i < 0 then i + TWO_TO_64 else i
  }

  /**
   * strconv.ParseInt(s, 0, 64) on plain decimal input: an optional sign and a
   * canonical digit string.  The result is the parsed value and whether the
   * parse succeeded; on a syntax error the value is 0, out of range it is
   * clamped to the nearest bound, as strconv reports it.
   */
  function ParseInt(s: string): (r: (int64, bool))
  {
    if s == [] then (0, false)
    else
      var body := if s[0] == '-' || s[0] == '+' then s[1..] else s;
      if !IsCanonical(body) then (0, false)
      else
        var v := if s[0] == '-' then -(ValueOf(body) as int) else ValueOf(body) as int;
        if v > INT64_MAX then (INT64_MAX, false)
        else if v < INT64_MIN then (INT64_MIN, false)
        else (v, true)
  }

  /**
   * strconv.ParseUint(s, 0, 64) on plain decimal input: a canonical digit
   * string, no sign.  0 on a syntax error, UINT64_MAX when out of range.
   */
  function ParseUint(s: string): (r: (uint64, bool))
  {
    if !IsCanonical(s) then (0, false)
    else
      var v := ValueOf(s);
      if v > UINT64_MAX then (UINT64_MAX, false) else (v, true)
  }

  /** strconv.ParseBool: the accepted spellings of true and false; false on anything else. */
  function ParseBool(s: string): (r: (bool, bool))
    ensures r.1 <==> s in {"1", "t", "T", "TRUE", "true", "True", "0", "f", "F", "FALSE", "false", "False"}
    ensures r.0 ==> r.1
  {
    if s in {"1", "t", "T", "TRUE", "true", "True"} then (true, true)
    else if s in {"0", "f", "F", "FALSE", "false", "False"} then (false, true)
    else (false, false)
  }

  /** Reading back a signed rendering yields the original integer. */
  lemma ParseFormatInt(i: int64)
    ensures ParseInt(FormatInt(i)) == (i, true)
  {
    var s := FormatInt(i);
    if i < 0 {
      var d := Digits(-(i as int));
      assert s == "-" + d && s[0] == '-' && s[1..] == d;
      ValueOfDigits(-(i as int));
      assert -(ValueOf(d) as int) == i;
    } else {
      ValueOfDigits(i);
      assert IsDigit(s[0]);
    }
  }

  /** Reading back an unsigned rendering yields the original integer. */
  lemma ParseFormatUint(u: uint64)
    ensures ParseUint(FormatUint(u)) == (u, true)
  {
    ValueOfDigits(u);
  }

  /** Reading back a boolean rendering yields the original boolean. */
  lemma ParseFormatBool(b: bool)
    ensures ParseBool(FormatBool(b)) == (b, true)
  {
  }
}
