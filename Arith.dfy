/** Facts about multiplication by a variable, stated once so that the layout
    and partition proofs need only linear reasoning on top of them. */
module Arith {

  /** Multiplying one more time adds one more copy. */
  lemma MulSucc(a: int, c: int)
    ensures (a + 1) * c == a * c + c
  {
  }

  /** Multiplication by a natural number is monotone. */
  lemma {:induction false} MulMonotone(a: nat, b: nat, c: nat)
    requires a <= b
    ensures a * c <= b * c
  {
    if a < b {
      MulMonotone(a, b - 1, c);
      MulSucc(b - 1, c);
    }
  }

  /** Quotient and remainder are the only q, r with k == q * d + r and r < d. */
  lemma DivModUnique(k: nat, d: nat, q: nat, r: nat)
    requires 0 < d && r < d && k == q * d + r
    ensures k / d == q && k % d == r
  {
    var q', r' := k / d, k % d;
    assert k == q' * d + r';
    if q' < q {
      MulMonotone(q' + 1, q, d);
      MulSucc(q', d);
    } else if q < q' {
      MulMonotone(q + 1, q', d);
      MulSucc(q, d);
    }
  }
}
