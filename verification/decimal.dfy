/** Decimal integers as Go formats and parses them. */
module Decimal {
  import opened Options

  const MAX_INT64 := 0x7FFF_FFFF_FFFF_FFFF

  predicate IsDigit(c: char) {
    '0' <= c <= '9'
  }

  function DigitValue(c: char): nat
    requires IsDigit(c)
  {
    c as int - '0' as int
  }

  function DigitChar(d: nat): (c: char)
    requires d < 10
    ensures IsDigit(c) && DigitValue(c) == d
  {
    ('0' as int + d) as char
  }

  predicate AllDigits(s: string) {
    forall i :: 0 <= i < |s| ==> IsDigit(s[i])
  }

  /** strconv.FormatUint in base 10. */
  function FormatNat(n: nat): (s: string)
    ensures s != "" && AllDigits(s)
  {
    if n < 10 then [DigitChar(n)] else FormatNat(n / 10) + [DigitChar(n % 10)]
  }

  /** strconv.FormatInt in base 10. */
  function FormatInt(n: int): string {
    if n < 0 then "-" + FormatNat(-n) else FormatNat(n)
  }

  function DigitsValue(s: string): nat
    requires AllDigits(s)
  {
    if s == "" then 0 else DigitsValue(s[..|s| - 1]) * 10 + DigitValue(s[|s| - 1])
  }

  /** strconv.ParseInt in base 10 and 64 bits: an optional sign, then digits, in range. */
  function ParseInt(s: string): Option<int> {
    var negative := s != "" && s[0] == '-';
    var digits := if s != "" && (s[0] == '-' || s[0] == '+') then s[1..] else s;
    if digits == "" || !AllDigits(digits) then None
    else
      var value: int := DigitsValue(digits);
      if negative then (if value <= MAX_INT64 + 1 then Some(-value) else None)
      else if value <= MAX_INT64 then Some(value) else None
  }

  lemma {:induction false} DigitsOfNat(n: nat)
    ensures DigitsValue(FormatNat(n)) == n
  {
    var s := FormatNat(n);
    if n < 10 {
      assert s[..|s| - 1] == "";
    } else {
      DigitsOfNat(n / 10);
      assert s[..|s| - 1] == FormatNat(n / 10);
    }
  }

  lemma ParseDigits(s: string, digits: string, negative: bool)
    requires digits != "" && AllDigits(digits) && s == if negative then "-" + digits else digits
    ensures var value: int := DigitsValue(digits);
      ParseInt(s) == if negative then (if value <= MAX_INT64 + 1 then Some(-value) else None)
        else if value <= MAX_INT64 then Some(value) else None
  {
    if negative {
      assert s[0] == '-' && s[1..] == digits;
    } else {
      assert IsDigit(digits[0]);
    }
  }

  /** Parsing undoes formatting exactly on the 64-bit integers. */
  lemma ParseFormat(n: int)
    ensures ParseInt(FormatInt(n)) == if -MAX_INT64 - 1 <= n <= MAX_INT64 then Some(n) else None
  {
    var size: nat := if n < 0 then -n else n;
    DigitsOfNat(size);
    ParseDigits(FormatInt(n), FormatNat(size), n < 0);
  }
}
