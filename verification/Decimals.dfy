/** Integers in decimal, as Go's fmt prints them with %d. */
module Decimals {
  function Digits(n: nat): string {
    (if n < 10 then [] else Digits(n / 10)) + ['0' + (n % 10) as char]
  }

  function Decimal(n: int): string {
    if n < 0 then "-" + Digits(-n) else Digits(n)
  }

  function ParseDigits(s: string): int {
    if s == [] then 0 else 10 * ParseDigits(s[..|s| - 1]) + (s[|s| - 1] as int - '0' as int)
  }

  lemma {:induction false} DigitsParse(n: nat)
    ensures |Digits(n)| > 0 && '0' <= Digits(n)[0] <= '9' && ParseDigits(Digits(n)) == n
  {
    var last := ['0' + (n % 10) as char];
    if n < 10 {
      assert Digits(n) == last && last[..0] == [];
      assert ParseDigits(last) == 10 * ParseDigits(last[..0]) + n;
    } else {
      DigitsParse(n / 10);
      assert Digits(n) == Digits(n / 10) + last;
      assert Digits(n)[..|Digits(n)| - 1] == Digits(n / 10);
    }
  }

  /** Different integers print differently. */
  lemma DecimalIsInjective(m: int, n: int)
    requires Decimal(m) == Decimal(n)
    ensures m == n
  {
    DigitsParse(if m < 0 then -m else m);
    DigitsParse(if n < 0 then -n else n);
    if m < 0 && n < 0 {
      assert Decimal(m)[1..] == Digits(-m) && Decimal(n)[1..] == Digits(-n);
    }
  }

  /** Digits have no hyphen in them. */
  lemma {:induction false} DigitsAreDigits(n: nat)
    ensures forall i :: 0 <= i < |Digits(n)| ==> '0' <= Digits(n)[i] <= '9'
  {
    if n >= 10 {
      DigitsAreDigits(n / 10);
    }
  }
}
