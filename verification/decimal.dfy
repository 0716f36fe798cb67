/** Decimal printing and parsing of 64-bit numbers, as strconv documents them. */
module Decimal {
  import opened Records

  const MAX_UINT64 := 0xFFFF_FFFF_FFFF_FFFF
  const MIN_INT64 := -0x8000_0000_0000_0000
  const MAX_INT64 := 0x7FFF_FFFF_FFFF_FFFF

  predicate IsDigit(c: char) { '0' <= c <= '9' }

  predicate AllDigits(s: string) { forall i :: 0 <= i < |s| ==> IsDigit(s[i]) }

  // The number a digit string stands for.
  function Value(s: string): nat
    requires AllDigits(s)
  {
    if s == "" then 0 else 10 * Value(s[..|s| - 1]) + (s[|s| - 1] - '0') as int
  }

  function FormatUint(n: nat): string {
    if n < 10 then ['0' + n as char] else FormatUint(n / 10) + ['0' + (n % 10) as char]
  }

  function FormatInt(n: int): string {
    if n < 0 then "-" + FormatUint(-n) else FormatUint(n)
  }

  // Base 10, 64 bits: no sign, at least one digit, no overflow.
  function ParseUint(s: string): Option<nat> {
    if s != "" && AllDigits(s) && Value(s) <= MAX_UINT64 then Some(Value(s)) else None
  }

  function ParseInt(s: string): Option<int> {
    if s != "" && (s[0] == '+' || s[0] == '-') then
      match ParseUint(s[1..])
      case None => None
      case Some(n) =>
        var m := if s[0] == '-' then 0 - (n as int) else n as int;
        if MIN_INT64 <= m <= MAX_INT64 then Some(m) else None
    else
      match ParseUint(s)
      case None => None
      case Some(n) => if n <= MAX_INT64 then Some(n) else None
  }

  lemma {:induction false} FormatValue(n: nat)
    ensures FormatUint(n) != "" && AllDigits(FormatUint(n)) && Value(FormatUint(n)) == n
  {
    if n >= 10 {
      FormatValue(n / 10);
      assert FormatUint(n)[..|FormatUint(n)| - 1] == FormatUint(n / 10);
    } else {
      assert FormatUint(n)[..0] == "";
    }
  }

  lemma ParseUintInvertsFormat(n: nat)
    ensures ParseUint(FormatUint(n)) == if n <= MAX_UINT64 then Some(n) else None
  {
    FormatValue(n);
  }

  lemma ParseIntInvertsFormat(n: int)
    ensures ParseInt(FormatInt(n)) == if MIN_INT64 <= n <= MAX_INT64 then Some(n) else None
  {
    if n < 0 {
      hide Value, FormatUint, AllDigits;
      ParseUintInvertsFormat(-n);
      assert FormatInt(n)[1..] == FormatUint(-n);
    } else {
      hide Value, FormatUint;
      ParseUintInvertsFormat(n);
      FormatValue(n);
      assert IsDigit(FormatUint(n)[0]);
    }
  }

  // Different numbers print differently, and no printed number contains a colon.
  lemma FormatIntInjective(m: int, n: int)
    requires FormatInt(m) == FormatInt(n)
    ensures m == n
  {
    FormatIntNoColon(m);
    FormatIntNoColon(n);
    if m < 0 {
      assert FormatInt(m)[1..] == FormatUint(-m);
      FormatValue(-m);
    } else {
      FormatValue(m);
      assert IsDigit(FormatUint(m)[0]);
    }
    if n < 0 {
      assert FormatInt(n)[1..] == FormatUint(-n);
      FormatValue(-n);
    } else {
      FormatValue(n);
      assert IsDigit(FormatUint(n)[0]);
    }
  }

  lemma FormatIntNoColon(n: int)
    ensures FormatInt(n) != "" && ':' !in FormatInt(n)
  {
    FormatValue(if n < 0 then -n else n);
  }
}
