/** Decimal digits of natural numbers, as text. */
module Decimal {
  import opened Utf16

  const ZERO: Unit := 48

  predicate IsDigit(u: int) {
    48 <= u <= 57
  }

  predicate AllDigits(s: seq<int>) {
    forall i :: 0 <= i < |s| ==> IsDigit(s[i])
  }

  /** `int(s)`. */
  function Value(s: seq<int>): nat
    requires AllDigits(s)
  {
    if s == [] then 0 else 10 * Value(s[..|s| - 1]) + (s[|s| - 1] - 48)
  }

  /** `str(n)`. */
  function Digits(n: nat): (s: Text)
    ensures s != [] && AllDigits(s) && (s[0] == ZERO ==> s == [ZERO])
  {
    if n < 10 then [48 + n] else Digits(n / 10) + [48 + n % 10]
  }

  lemma {:induction false} DigitsValue(n: nat)
    ensures Value(Digits(n)) == n
  {
    if n < 10 {
      assert Digits(n)[..0] == [];
    } else {
      DigitsValue(n / 10);
      var s := Digits(n);
      assert s[..|s| - 1] == Digits(n / 10);
    }
  }
}
