/** Hexadecimal digits, by the code of the character. */
module Hex {
  import opened Options

  function LowerDigit(n: nat): nat
    requires n < 16
  {
    if n < 10 then 48 + n else 87 + n
  }

  function UpperDigit(n: nat): nat
    requires n < 16
  {
    if n < 10 then 48 + n else 55 + n
  }

  /** The value of a digit in either case. */
  function HexValue(code: nat): Option<nat> {
    if 48 <= code <= 57 then Some(code - 48)
    else if 65 <= code <= 70 then Some(code - 55)
    else if 97 <= code <= 102 then Some(code - 87)
    else None
  }

  lemma DigitValue(n: nat)
    requires n < 16
    ensures HexValue(LowerDigit(n)) == Some(n) && HexValue(UpperDigit(n)) == Some(n)
  {
  }
}
