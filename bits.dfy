/** Shifts and bitwise OR on non-negative integers, as the C++ operators
    `>>` and `|` act on unsigned values.
 */
module Bits {

  function Pow2(n: nat): (r: nat)
    ensures r >= 1
  {
    if n == 0 then 1 else 2 * Pow2(n - 1)
  }

  /** Bitwise OR of two non-negative integers, one binary digit at a time. */
  function BitOr(a: nat, b: nat): nat
    decreases a + b
  {
    if a == 0 then b
    else if b == 0 then a
    else 2 * BitOr(a / 2, b / 2) + (if a % 2 == 1 || b % 2 == 1 then 1 else 0)
  }

  /** OR never sets a bit above the width of its operands. */
  lemma {:induction false} BitOrBound(a: nat, b: nat, n: nat)
    requires a < Pow2(n) && b < Pow2(n)
    ensures BitOr(a, b) < Pow2(n)
    decreases n
  {
    if a != 0 && b != 0 {
      BitOrBound(a / 2, b / 2, n - 1);
    }
  }

  /** OR of a multiple of 2^n and a number below 2^n is their sum. */
  lemma {:induction false} BitOrDisjoint(k: nat, b: nat, n: nat)
    requires b < Pow2(n)
    ensures BitOr(Pow2(n) * k, b) == Pow2(n) * k + b
    decreases n
  {
    var a := Pow2(n) * k;
    if a != 0 && b != 0 {
      var m := Pow2(n - 1) * k;
      assert a == 2 * m;
      BitOrDisjoint(k, b / 2, n - 1);
      assert BitOr(m, b / 2) == m + b / 2;
    }
  }
}
