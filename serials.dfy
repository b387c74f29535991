/** Serial numbers: the prefix "KON-C-" followed by the decimal value of a
    process-wide counter that starts at 1 and advances once per container
    construction. */
module Serials {

  const Prefix: string := "KON-C-"

  predicate IsDigit(c: char) {
    '0' <= c <= '9'
  }

  predicate AllDigits(s: string) {
    forall i :: 0 <= i < |s| ==> IsDigit(s[i])
  }

  function DigitChar(d: nat): (c: char)
    requires d < 10
    ensures IsDigit(c) && c as int - '0' as int == d
  {
    ('0' as int + d) as char
  }

  /** The decimal rendering of a natural number, as int.ToString() gives it
      for a non-negative int: no sign, no leading zero except for 0 itself. */
  function Decimal(n: nat): (s: string)
    ensures 1 <= |s| && AllDigits(s)
    ensures |s| > 1 ==> s[0] != '0'
    decreases n
  {
    if n < 10 then [DigitChar(n)] else Decimal(n / 10) + [DigitChar(n % 10)]
  }

  /** Reads a string of decimal digits back as a number; used to show that
      Decimal loses no information. */
  function ParseDecimal(s: string): nat
    requires AllDigits(s)
  {
    if s == [] then 0 else 10 * ParseDecimal(s[..|s| - 1]) + (s[|s| - 1] as int - '0' as int)
  }

  lemma {:induction false} ParseDecimalInvertsDecimal(n: nat)
    ensures ParseDecimal(Decimal(n)) == n
    decreases n
  {
    if n >= 10 {
      var s := Decimal(n);
      assert s[..|s| - 1] == Decimal(n / 10);
      ParseDecimalInvertsDecimal(n / 10);
    }
  }

  /** The serial number of the n-th constructed container. */
  function Serial(n: nat): string {
    Prefix + Decimal(n)
  }

  /** Different counter values give different serial numbers, so containers
      built from one counter never share a serial. */
  lemma SerialInjective(m: nat, n: nat)
    ensures Serial(m) == Serial(n) <==> m == n
  {
    if Serial(m) == Serial(n) {
      assert Decimal(m) == Serial(m)[|Prefix|..];
      assert Decimal(n) == Serial(n)[|Prefix|..];
      ParseDecimalInvertsDecimal(m);
      ParseDecimalInvertsDecimal(n);
    }
  }

  /** The static serialNumberCounter shared by every container class. */
  class SerialCounter {
    var next: nat

    /** The counter as it is when the process starts. */
    constructor ()
      ensures next == 1
    {
      next := 1;
    }
  }
}
