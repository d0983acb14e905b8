/** Facts about integer division by a positive divisor that the solver does not find on
    its own when the divisor is a variable. */
module Arith {

  lemma DivModUnique(d: int, small: int, q: int, r: int)
    requires small > 0 && 0 <= r < small && d == q * small + r
    ensures d % small == r
  {
    var q0 := d / small;
    var r0 := d % small;
    assert d == q0 * small + r0 && 0 <= r0 < small;
    MulSucc(q0, small);
    MulSucc(q, small);
    if q0 < q {
      MulMonotone(q0 + 1, q, small);
    } else if q0 > q {
      MulMonotone(q + 1, q0, small);
    }
  }

  lemma MulMonotone(a: int, b: int, c: int)
    requires a <= b && c > 0
    ensures a * c <= b * c
  {
    assert b * c - a * c == (b - a) * c;
  }

  lemma MulSucc(a: int, c: int)
    ensures (a + 1) * c == a * c + c
  {
  }
}
