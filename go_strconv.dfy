/**
 * Decimal conversion as Go's `strconv.Atoi` and `strconv.Itoa` perform it
 * for the 64-bit `int` of the platforms the proxy targets.
 */
module GoStrconv {
  import opened Outcomes

  const MinInt: int := -0x8000_0000_0000_0000
  const MaxInt: int := 0x7FFF_FFFF_FFFF_FFFF

  predicate IsDigit(c: char)
  {
    '0' <= c <= '9'
  }

  predicate AllDigits(s: string)
  {
    forall i :: 0 <= i < |s| ==> IsDigit(s[i])
  }

  /** The number a run of decimal digits denotes (leading zeros allowed). */
  function DecimalValue(s: string): nat
    requires AllDigits(s)
  {
    if s == [] then 0
    else 10 * DecimalValue(s[..|s| - 1]) + (s[|s| - 1] as int - '0' as int)
  }

  /**
   * `strconv.Atoi`: an optional sign followed by at least one decimal digit,
   * whose value fits a 64-bit `int`; anything else is an error (`None`).
   */
  function Atoi(s: string): (r: Option<int>)
    ensures r.Some? ==> MinInt <= r.value <= MaxInt
    ensures r.Some? ==> s != [] && (IsDigit(s[0]) || s[0] == '-' || s[0] == '+')
  {
    var signed := s != [] && (s[0] == '-' || s[0] == '+');
    var digits := if signed then s[1..] else s;
    if digits == [] || !AllDigits(digits) then None
    else
      var v: int := if s[0] == '-' then 0 - DecimalValue(digits) else DecimalValue(digits);
      if MinInt <= v <= MaxInt then Some(v) else None
  }

  /** Decimal digits of a natural number, without leading zeros. */
  function FormatNat(n: nat): (s: string)
    ensures s != [] && AllDigits(s)
  {
    if n < 10 then [('0' as int + n) as char]
    else FormatNat(n / 10) + [('0' as int + n % 10) as char]
  }

  /** `strconv.Itoa`: a minus sign for negative numbers, then the digits. */
  function Itoa(n: int): string
  {
    if n < 0 then "-" + FormatNat(-n) else FormatNat(n)
  }

  /** The digits FormatNat produces denote the number back. */
  lemma {:induction false} FormatNatValue(n: nat)
    ensures DecimalValue(FormatNat(n)) == n
  {
    if n >= 10 {
      FormatNatValue(n / 10);
      var s := FormatNat(n);
      assert s[..|s| - 1] == FormatNat(n / 10);
    }
  }

  /** Atoi reads back what Itoa writes, for every 64-bit `int`. */
  lemma AtoiItoa(n: int)
    requires MinInt <= n <= MaxInt
    ensures Atoi(Itoa(n)) == Some(n)
  {
    var m: nat := if n < 0 then -n else n;
    var digits := FormatNat(m);
    FormatNatValue(m);
    assert IsDigit(digits[0]);
    if n < 0 {
      var s := "-" + digits;
      assert s[0] == '-' && s[1..] == digits;
    }
  }
}
