/** Index-order folds over a sequence of integer elements: the values that the
    accumulator loops of the numeric vector (total, norm, product) build up. */
module Sums {

  /** Sum of s, accumulated from index 0 upwards (the last element is added last). */
  function Sum(s: seq<int>): (total: int)
  {
    if |s| == 0 then 0 else Sum(s[..|s| - 1]) + s[|s| - 1]
  }

  function Abs(x: int): (r: int)
    ensures r >= 0 && (r == x || r == -x)
  {
    if x < 0 then -x else x
  }

  /** Sum of the absolute values of s, in index order; never negative. */
  function AbsSum(s: seq<int>): (r: int)
    ensures r >= 0
  {
    if |s| == 0 then 0 else AbsSum(s[..|s| - 1]) + Abs(s[|s| - 1])
  }

  /** Sum of the pairwise products a[i] * b[i], in index order. */
  function Dot(a: seq<int>, b: seq<int>): (product: int)
    requires |a| == |b|
  {
    if |a| == 0 then 0 else Dot(a[..|a| - 1], b[..|b| - 1]) + a[|a| - 1] * b[|b| - 1]
  }

  /** Summing a concatenation is summing the parts: the fold may be regrouped. */
  lemma {:induction false} SumConcat(a: seq<int>, b: seq<int>)
    ensures Sum(a + b) == Sum(a) + Sum(b)
  {
    if |b| == 0 {
      assert a + b == a;
    } else {
      assert (a + b)[..|a + b| - 1] == a + b[..|b| - 1];
      SumConcat(a, b[..|b| - 1]);
    }
  }

  /** Extending the summed prefix of s by one element adds that element. */
  lemma SumPrefixStep(s: seq<int>, i: nat, j: nat)
    requires i <= j < |s|
    ensures Sum(s[i..j + 1]) == Sum(s[i..j]) + s[j]
  {
    assert s[i..j + 1][..j - i] == s[i..j];
  }

  /** A sequence of n copies of v sums to n * v. */
  lemma {:induction false} SumConstant(n: nat, v: int)
    ensures Sum(seq(n, _ => v)) == n * v
  {
    if n > 0 {
      assert seq(n, _ => v)[..n - 1] == seq(n - 1, _ => v);
      SumConstant(n - 1, v);
    }
  }

  /** The Manhattan norm bounds the sum on both sides. */
  lemma {:induction false} SumBoundedByAbsSum(s: seq<int>)
    ensures -AbsSum(s) <= Sum(s) <= AbsSum(s)
  {
    if |s| > 0 {
      SumBoundedByAbsSum(s[..|s| - 1]);
    }
  }

  /** The Manhattan norm is zero exactly for the all-zero sequence. */
  lemma {:induction false} AbsSumZero(s: seq<int>)
    ensures AbsSum(s) == 0 <==> forall i :: 0 <= i < |s| ==> s[i] == 0
  {
    if |s| > 0 {
      AbsSumZero(s[..|s| - 1]);
      assert forall i :: 0 <= i < |s| - 1 ==> s[..|s| - 1][i] == s[i];
    }
  }

  /** The scalar product is symmetric in its operands. */
  lemma {:induction false} DotSymmetric(a: seq<int>, b: seq<int>)
    requires |a| == |b|
    ensures Dot(a, b) == Dot(b, a)
  {
    if |a| > 0 {
      DotSymmetric(a[..|a| - 1], b[..|b| - 1]);
    }
  }

  /** The scalar product of a sequence with itself is never negative. */
  lemma {:induction false} DotSelfNonNegative(a: seq<int>)
    ensures Dot(a, a) >= 0
  {
    if |a| > 0 {
      DotSelfNonNegative(a[..|a| - 1]);
    }
  }

  /** The scalar product with an all-ones sequence is the plain sum. */
  lemma {:induction false} DotOnesIsSum(a: seq<int>)
    ensures Dot(a, seq(|a|, _ => 1)) == Sum(a)
  {
    if |a| > 0 {
      assert seq(|a|, _ => 1)[..|a| - 1] == seq(|a| - 1, _ => 1);
      DotOnesIsSum(a[..|a| - 1]);
    }
  }
}
