/** Facts about multiplication and division of integers that the solver
    does not find by itself. */
module Arith {

  /** Division of a non-negative number, with the property that defines it. */
  function DivFloor(a: nat, b: int): (q: nat)
    requires 0 < b
    ensures q * b <= a < (q + 1) * b
  {
    var q := a / b;
    assert a == q * b + a % b;
    q
  }

  lemma MulMonotone(a: int, b: int, c: int)
    requires a <= b && 0 <= c
    ensures a * c <= b * c
  {
    assert b * c - a * c == (b - a) * c;
  }

  /** a * c < b * c with c > 0 gives a < b. */
  lemma LessByFactor(a: int, b: int, c: int)
    requires 0 < c && a * c < b * c
    ensures a < b
  {
    if b <= a {
      MulMonotone(b, a, c);
    }
  }

  /** a * c <= b * c with c > 0 gives a <= b. */
  lemma AtMostByFactor(a: int, b: int, c: int)
    requires 0 < c && a * c <= b * c
    ensures a <= b
  {
    if b < a {
      MulMonotone(b + 1, a, c);
    }
  }
}
