/** Decimal text of numbers, as Rust's `Display` writes it and `FromStr` reads it. */
module Decimal {
  import opened Base

  predicate IsDigit(c: char) { '0' <= c <= '9' }

  function DigitValue(c: char): (d: int)
    requires IsDigit(c)
    ensures 0 <= d < 10
  {
    c as int - '0' as int
  }

  function DigitChar(d: int): (c: char)
    requires 0 <= d < 10
    ensures IsDigit(c) && DigitValue(c) == d
  {
    ('0' as int + d) as char
  }

  function PrintNat(n: nat): string {
    if n < 10 then [DigitChar(n)] else PrintNat(n / 10) + [DigitChar(n % 10)]
  }

  function PrintInt(n: int): string { if n < 0 then "-" + PrintNat(-n) else PrintNat(n) }

  predicate AllDigits(s: string) { forall i :: 0 <= i < |s| ==> IsDigit(s[i]) }

  function Value(s: string): nat
    requires AllDigits(s)
  {
    if s == "" then 0 else Value(s[..|s| - 1]) * 10 + DigitValue(s[|s| - 1])
  }

  /** Digits only, at least one; leading zeros are allowed. */
  function ParseDigits(s: string): Option<nat> { if s != "" && AllDigits(s) then Some(Value(s)) else None }

  const I64_MIN: int := -0x8000_0000_0000_0000
  const I64_MAX: int := 0x7FFF_FFFF_FFFF_FFFF
  const USIZE_MAX: nat := 0xFFFF_FFFF_FFFF_FFFF

  /** `str::parse::<i64>`: one optional sign, digits, and no overflow. */
  function ParseI64(s: string): Option<int> {
    var negative := s != "" && s[0] == '-';
    var digits := if s != "" && (s[0] == '-' || s[0] == '+') then s[1..] else s;
    match ParseDigits(digits)
    case None => None
    case Some(n) =>
      var v: int := if negative then -(n as int) else n;
      if I64_MIN <= v <= I64_MAX then Some(v) else None
  }

  /** `str::parse::<usize>` of 64 bits. */
  function ParseUsize(s: string): Option<nat> {
    var digits := if s != "" && s[0] == '+' then s[1..] else s;
    match ParseDigits(digits)
    case None => None
    case Some(n) => if n <= USIZE_MAX then Some(n) else None
  }

  lemma {:induction false} PrintNatParses(n: nat)
    ensures var s := PrintNat(n); s != "" && AllDigits(s) && Value(s) == n && (n > 0 ==> s[0] != '0')
  {
    if n >= 10 {
      PrintNatParses(n / 10);
      var s := PrintNat(n);
      assert s[..|s| - 1] == PrintNat(n / 10);
    } else {
      var s := PrintNat(n);
      assert s[..|s| - 1] == "";
    }
  }

  lemma SignedParses(negative: bool, digits: string)
    requires digits != "" && AllDigits(digits)
    ensures var v: int := if negative then -(Value(digits) as int) else Value(digits);
            ParseI64(if negative then "-" + digits else digits) == if I64_MIN <= v <= I64_MAX then Some(v) else None
  {
    hide Value;
    assert ("-" + digits)[1..] == digits;
    assert IsDigit(digits[0]);
  }

  /** Reading a printed number gives it back, if it fits. */
  lemma PrintIntParses(n: int)
    ensures ParseI64(PrintInt(n)) == if I64_MIN <= n <= I64_MAX then Some(n) else None
    ensures ',' !in PrintInt(n)
  {
    hide ParseI64, PrintNat, Value;
    var m: nat := if n < 0 then -n else n;
    PrintNatParses(m);
    SignedParses(n < 0, PrintNat(m));
  }
}
