/** Decimal numerals over bytes. */
module Decimals {
  import opened Basics

  const ZERO: Byte := 48
  const PLUS: Byte := 43
  const MINUS: Byte := 45

  predicate IsDigit(c: Byte) {
    ZERO <= c <= ZERO + 9
  }

  predicate AllDigits(text: Bytes) {
    forall i :: 0 <= i < |text| ==> IsDigit(text[i])
  }

  /** A numeral without superfluous leading zeros. */
  predicate IsNumeral(text: Bytes) {
    text != [] && AllDigits(text) && (1 < |text| ==> text[0] != ZERO)
  }

  function DigitsValue(text: Bytes): nat
    requires AllDigits(text)
  {
    if text == [] then 0 else DigitsValue(text[..|text| - 1]) * 10 + (text[|text| - 1] - ZERO)
  }

  function DecimalNat(n: nat): Bytes {
    if n < 10 then [ZERO + n] else DecimalNat(n / 10) + [ZERO + n % 10]
  }

  function Decimal(n: int): Bytes {
    if n < 0 then [MINUS] + DecimalNat(-n) else DecimalNat(n)
  }

  lemma {:induction false} DecimalNatReads(n: nat)
    ensures IsNumeral(DecimalNat(n)) && DigitsValue(DecimalNat(n)) == n
    ensures 0 < n ==> DecimalNat(n)[0] != ZERO
  {
    if n >= 10 {
      DecimalNatReads(n / 10);
      var init := DecimalNat(n / 10);
      assert DecimalNat(n)[..|init|] == init;
      assert DecimalNat(n)[0] == init[0];
    } else {
      assert DecimalNat(n)[..0] == [];
    }
  }

  lemma {:induction false} NumeralIsDecimal(text: Bytes)
    requires IsNumeral(text)
    ensures DecimalNat(DigitsValue(text)) == text
    ensures 1 < |text| ==> 10 <= DigitsValue(text)
    ensures text[0] != ZERO ==> 0 < DigitsValue(text)
  {
    var init := text[..|text| - 1];
    var last := text[|text| - 1] - ZERO;
    assert IsDigit(text[|text| - 1]);
    assert text == init + [text[|text| - 1]];
    if init == [] {
      assert DigitsValue(init) == 0;
    } else {
      assert init[0] == text[0];
      NumeralIsDecimal(init);
      assert (DigitsValue(init) * 10 + last) / 10 == DigitsValue(init);
      assert (DigitsValue(init) * 10 + last) % 10 == last;
    }
  }

  lemma DecimalNatInjective(a: nat, b: nat)
    requires DecimalNat(a) == DecimalNat(b)
    ensures a == b
  {
    DecimalNatReads(a);
    DecimalNatReads(b);
  }

  /** The 64-bit integer a decimal text denotes: an optional sign and at least one digit. */
  function ParseInt(text: Bytes): Option<int> {
    if text == [] then None
    else
      var signed := text[0] == PLUS || text[0] == MINUS;
      var digits: Bytes := if signed then text[1..] else text;
      if digits == [] || !AllDigits(digits) then None
      else if text[0] == MINUS then
        if DigitsValue(digits) <= -INT64_MIN then Some(-(DigitsValue(digits) as int)) else None
      else if DigitsValue(digits) <= INT64_MAX then Some(DigitsValue(digits))
      else None
  }

  /** A 64-bit number written in decimal is read back. */
  lemma DecimalParses(n: int)
    requires INT64_MIN <= n <= INT64_MAX
    ensures ParseInt(Decimal(n)) == Some(n)
  {
    if n < 0 {
      DecimalNatReads(-n);
      assert Decimal(n)[1..] == DecimalNat(-n);
    } else {
      DecimalNatReads(n);
      assert IsDigit(Decimal(n)[0]);
    }
  }
}
