/** The split of the index range [0, n) into k contiguous chunks that the
    parallel sum hands to its workers: every chunk but the last holds n / k
    indices, and the last one runs to n. */
module Chunks {
  import Arith
  import Sums

  function ChunkSize(n: nat, k: nat): (size: nat)
    requires k >= 1
  {
    n / k
  }

  /** k * (n / k) never exceeds n. */
  lemma WholeChunksFit(n: nat, k: nat)
    requires k >= 1
    ensures k * ChunkSize(n, k) <= n
  {
    assert n == k * (n / k) + n % k;
  }

  /** First index of chunk t. */
  function ChunkStart(n: nat, k: nat, t: nat): (start: nat)
    requires 1 <= k && t < k
    ensures start <= n
  {
    Arith.MulMonotone(t, k, ChunkSize(n, k));
    WholeChunksFit(n, k);
    t * ChunkSize(n, k)
  }

  /** One past the last index of chunk t. */
  function ChunkEnd(n: nat, k: nat, t: nat): (end: nat)
    requires 1 <= k && t < k
    ensures ChunkStart(n, k, t) <= end <= n
  {
    if t == k - 1 then n
    else
      Arith.MulMonotone(t + 1, k, ChunkSize(n, k));
      WholeChunksFit(n, k);
      ChunkStart(n, k, t) + ChunkSize(n, k)
  }

  /** Index i lies in chunk t. */
  predicate InChunk(n: nat, k: nat, t: nat, i: nat)
    requires 1 <= k && t < k
  {
    ChunkStart(n, k, t) <= i < ChunkEnd(n, k, t)
  }

  /** The chunks follow each other without a gap, from 0 up to n. */
  lemma ChunksContiguous(n: nat, k: nat)
    requires k >= 1
    ensures ChunkStart(n, k, 0) == 0
    ensures ChunkEnd(n, k, k - 1) == n
    ensures forall t :: 0 <= t < k - 1 ==> ChunkEnd(n, k, t) == ChunkStart(n, k, t + 1)
  {
    forall t | 0 <= t < k - 1
      ensures ChunkEnd(n, k, t) == ChunkStart(n, k, t + 1)
    {
      assert (t + 1) * ChunkSize(n, k) == t * ChunkSize(n, k) + ChunkSize(n, k);
    }
  }

  /** The first k - 1 chunks hold n / k indices each; the last holds the rest. */
  lemma ChunkLengths(n: nat, k: nat, t: nat)
    requires 1 <= k && t < k
    ensures t < k - 1 ==> ChunkEnd(n, k, t) - ChunkStart(n, k, t) == n / k
    ensures t == k - 1 ==> ChunkEnd(n, k, t) - ChunkStart(n, k, t) == n - (k - 1) * (n / k)
  {
  }

  /** A chunk ends no later than any later chunk starts: chunks do not overlap. */
  lemma ChunksOrdered(n: nat, k: nat, t: nat, u: nat)
    requires 1 <= k && t < u < k
    ensures ChunkEnd(n, k, t) <= ChunkStart(n, k, u)
  {
    Arith.MulMonotone(t + 1, u, ChunkSize(n, k));
    assert (t + 1) * ChunkSize(n, k) == t * ChunkSize(n, k) + ChunkSize(n, k);
  }

  /** The chunk that holds index i. */
  function ChunkOf(n: nat, k: nat, i: nat): (t: nat)
    requires 1 <= k && i < n
    ensures t < k && InChunk(n, k, t, i)
  {
    var cs := ChunkSize(n, k);
    if cs == 0 then k - 1
    else if i / cs >= k - 1 then
      Arith.MulMonotone(k - 1, i / cs, cs);
      assert i == (i / cs) * cs + i % cs;
      k - 1
    else
      assert i == (i / cs) * cs + i % cs;
      assert (i / cs + 1) * cs == (i / cs) * cs + cs;
      i / cs
  }

  /** Every index of [0, n) lies in exactly one chunk, and every chunk lies inside [0, n). */
  lemma ChunksPartition(n: nat, k: nat, i: nat)
    requires k >= 1
    ensures i < n <==> exists t :: 0 <= t < k && InChunk(n, k, t, i)
    ensures forall t, u :: 0 <= t < k && 0 <= u < k && InChunk(n, k, t, i) && InChunk(n, k, u, i) ==> t == u
  {
    if i < n {
      var t := ChunkOf(n, k, i);
      assert InChunk(n, k, t, i);
    }
    forall t, u | 0 <= t < k && 0 <= u < k && InChunk(n, k, t, i) && InChunk(n, k, u, i)
      ensures t == u
    {
      if t < u {
        ChunksOrdered(n, k, t, u);
      } else if u < t {
        ChunksOrdered(n, k, u, t);
      }
    }
  }

  /** The sum that worker t accumulates: its chunk of s, and nothing else. */
  function ChunkSum(s: seq<int>, k: nat, t: nat): (total: int)
    requires 1 <= k && t < k
  {
    Sums.Sum(s[ChunkStart(|s|, k, t)..ChunkEnd(|s|, k, t)])
  }

  /** The k per-worker partial sums of s, slot t holding chunk t's sum. */
  function PartialSums(s: seq<int>, k: nat): (p: seq<int>)
    requires k >= 1
    ensures |p| == k
  {
    seq(k, t requires 0 <= t < k => ChunkSum(s, k, t))
  }

  /** Where the first t chunks end: the start of chunk t, or n once all k are taken. */
  function Boundary(n: nat, k: nat, t: nat): (b: nat)
    requires 1 <= k && t <= k
  {
    if t < k then ChunkStart(n, k, t) else n
  }

  /** Adding the first t partial sums gives the sum of the indices the first t chunks cover. */
  lemma {:induction false} PartialSumsPrefix(s: seq<int>, k: nat, t: nat)
    requires 1 <= k && t <= k
    ensures Boundary(|s|, k, t) <= |s|
    ensures Sums.Sum(PartialSums(s, k)[..t]) == Sums.Sum(s[..Boundary(|s|, k, t)])
  {
    var p := PartialSums(s, k);
    var n := |s|;
    ChunksContiguous(n, k);
    if t > 0 {
      PartialSumsPrefix(s, k, t - 1);
      var a, b := Boundary(n, k, t - 1), Boundary(n, k, t);
      assert a == ChunkStart(n, k, t - 1);
      assert b == ChunkEnd(n, k, t - 1);
      assert p[..t][..t - 1] == p[..t - 1];
      assert s[..a] + s[a..b] == s[..b];
      Sums.SumConcat(s[..a], s[a..b]);
    }
  }

  /** Folding the k partial sums in worker order gives the sequential sum. */
  lemma PartialSumsTotal(s: seq<int>, k: nat)
    requires k >= 1
    ensures Sums.Sum(PartialSums(s, k)) == Sums.Sum(s)
  {
    PartialSumsPrefix(s, k, k);
    assert PartialSums(s, k)[..k] == PartialSums(s, k);
    assert s[..|s|] == s;
  }

  /** Ten elements of value 2 over three workers: chunks of 3, 3 and 4 indices,
      partial sums 6, 6 and 8, adding up to the sequential sum 20. */
  lemma TenTwosOverThreeWorkers()
    ensures ChunkEnd(10, 3, 0) - ChunkStart(10, 3, 0) == 3
    ensures ChunkEnd(10, 3, 1) - ChunkStart(10, 3, 1) == 3
    ensures ChunkEnd(10, 3, 2) - ChunkStart(10, 3, 2) == 4
    ensures PartialSums(seq(10, _ => 2), 3) == [6, 6, 8]
    ensures Sums.Sum(seq(10, _ => 2)) == 20
  {
    var s := seq(10, _ => 2);
    assert s[0..3] == seq(3, _ => 2) && s[3..6] == seq(3, _ => 2) && s[6..10] == seq(4, _ => 2);
    Sums.SumConstant(3, 2);
    Sums.SumConstant(4, 2);
    Sums.SumConstant(10, 2);
  }
}
