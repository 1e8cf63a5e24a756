/** The numeric vector of the third exercise, with int elements: a fixed-length
    owned buffer, an initialisation flag, sequential statistics and a parallel
    sum whose workers are run here one chunk after another. */
module NumericVector {
  import Sums
  import Chunks

  class Vector {
    /** The element buffer, allocated once with the vector's length. */
    const data: array<int>
    /** Set by an initialiser; every statistic answers 0 until then. */
    var isInitialized: bool

    /** A vector of `size` default-valued (zero) elements, not yet initialised. */
    constructor (size: nat)
      ensures fresh(data) && data.Length == size
      ensures forall i :: 0 <= i < size ==> data[i] == 0
      ensures !isInitialized
    {
      data := new int[size];
      isInitialized := false;
      new;
      for i := 0 to size
        invariant !isInitialized
        invariant forall j :: 0 <= j < i ==> data[j] == 0
      {
        data[i] := 0;
      }
    }

    /** Overwrites every element with `value` and marks the vector initialised. */
    method InitializeWithConstant(value: int)
      modifies this, data
      ensures isInitialized
      ensures data[..] == seq(data.Length, _ => value)
    {
      for i := 0 to data.Length
        invariant forall j :: 0 <= j < i ==> data[j] == value
      {
        data[i] := value;
      }
      isInitialized := true;
    }

    /** The smallest element and the lowest index holding it; (0, 0) when uninitialised. */
    method FindMin() returns (minVal: int, minIndex: nat)
      requires !isInitialized || data.Length > 0
      ensures !isInitialized ==> minVal == 0 && minIndex == 0
      ensures isInitialized ==> minIndex < data.Length && minVal == data[minIndex]
      ensures isInitialized ==> forall i :: 0 <= i < data.Length ==> minVal <= data[i]
      ensures isInitialized ==> forall i :: 0 <= i < minIndex ==> minVal < data[i]
    {
      if !isInitialized {
        return 0, 0;
      }
      minVal, minIndex := data[0], 0;
      for i := 1 to data.Length
        invariant minIndex < i && minVal == data[minIndex]
        invariant forall j :: 0 <= j < i ==> minVal <= data[j]
        invariant forall j :: 0 <= j < minIndex ==> minVal < data[j]
      {
        if data[i] < minVal {
          minVal, minIndex := data[i], i;
        }
      }
    }

    /** The greatest element and the lowest index holding it; (0, 0) when uninitialised. */
    method FindMax() returns (maxVal: int, maxIndex: nat)
      requires !isInitialized || data.Length > 0
      ensures !isInitialized ==> maxVal == 0 && maxIndex == 0
      ensures isInitialized ==> maxIndex < data.Length && maxVal == data[maxIndex]
      ensures isInitialized ==> forall i :: 0 <= i < data.Length ==> data[i] <= maxVal
      ensures isInitialized ==> forall i :: 0 <= i < maxIndex ==> data[i] < maxVal
    {
      if !isInitialized {
        return 0, 0;
      }
      maxVal, maxIndex := data[0], 0;
      for i := 1 to data.Length
        invariant maxIndex < i && maxVal == data[maxIndex]
        invariant forall j :: 0 <= j < i ==> data[j] <= maxVal
        invariant forall j :: 0 <= j < maxIndex ==> data[j] < maxVal
      {
        if data[i] > maxVal {
          maxVal, maxIndex := data[i], i;
        }
      }
    }

    /** The index-order sum of the elements; 0 when uninitialised. */
    method Sum() returns (total: int)
      ensures total == if isInitialized then Sums.Sum(data[..]) else 0
    {
      if !isInitialized {
        return 0;
      }
      total := 0;
      for i := 0 to data.Length
        invariant total == Sums.Sum(data[..i])
      {
        Sums.SumPrefixStep(data[..], 0, i);
        assert data[..][0..i] == data[..i] && data[..][0..i + 1] == data[..i + 1];
        total := total + data[i];
      }
      assert data[..data.Length] == data[..];
    }

    /** The sum of the absolute values of the elements, never negative; 0 when uninitialised. */
    method ManhattanNorm() returns (norm: int)
      ensures norm >= 0
      ensures norm == if isInitialized then Sums.AbsSum(data[..]) else 0
    {
      if !isInitialized {
        return 0;
      }
      norm := 0;
      for i := 0 to data.Length
        invariant norm == Sums.AbsSum(data[..i])
      {
        assert data[..i + 1][..i] == data[..i];
        norm := norm + Sums.Abs(data[i]);
      }
      assert data[..data.Length] == data[..];
    }

    /** Sum of a[i] * b[i]; 0 when either vector is uninitialised or the lengths differ. */
    static method ScalarProduct(a: Vector, b: Vector) returns (product: int)
      ensures !a.isInitialized || !b.isInitialized || a.data.Length != b.data.Length ==> product == 0
      ensures a.isInitialized && b.isInitialized && a.data.Length == b.data.Length ==>
                product == Sums.Dot(a.data[..], b.data[..])
    {
      if !a.isInitialized || !b.isInitialized {
        return 0;
      }
      if a.data.Length != b.data.Length {
        return 0;
      }
      product := 0;
      for i := 0 to a.data.Length
        invariant product == Sums.Dot(a.data[..i], b.data[..i])
      {
        assert a.data[..i + 1][..i] == a.data[..i];
        assert b.data[..i + 1][..i] == b.data[..i];
        product := product + a.data[i] * b.data[i];
      }
      assert a.data[..a.data.Length] == a.data[..];
      assert b.data[..b.data.Length] == b.data[..];
    }

    /** One worker: adds data[start..end] into slot t of partialSums, touching no other slot. */
    method AccumulateChunk(partialSums: array<int>, t: nat, start: nat, end: nat)
      requires partialSums != data
      requires t < partialSums.Length && start <= end <= data.Length
      modifies partialSums
      ensures partialSums[t] == old(partialSums[t]) + Sums.Sum(data[start..end])
      ensures forall u :: 0 <= u < partialSums.Length && u != t ==> partialSums[u] == old(partialSums[u])
    {
      for i := start to end
        invariant partialSums[t] == old(partialSums[t]) + Sums.Sum(data[start..i])
        invariant forall u :: 0 <= u < partialSums.Length && u != t ==> partialSums[u] == old(partialSums[u])
      {
        Sums.SumPrefixStep(data[..], start, i);
        assert data[..][start..i] == data[start..i] && data[..][start..i + 1] == data[start..i + 1];
        partialSums[t] := partialSums[t] + data[i];
      }
    }

    /** The sum computed by numThreads workers over contiguous chunks, one private
        slot each, folded in worker order: equal to the sequential sum. */
    method ParallelSum(numThreads: nat) returns (result: int)
      requires !isInitialized || numThreads >= 1
      ensures result == if isInitialized then Sums.Sum(data[..]) else 0
    {
      if !isInitialized {
        return 0;
      }
      result := 0;
      var chunkSize := data.Length / numThreads;
      var partialSums := new int[numThreads](_ => 0);
      for t := 0 to numThreads
        invariant forall u :: 0 <= u < t ==> partialSums[u] == Chunks.ChunkSum(data[..], numThreads, u)
        invariant forall u :: t <= u < numThreads ==> partialSums[u] == 0
      {
        var start := t * chunkSize;
        var end := if t == numThreads - 1 then data.Length else start + chunkSize;
        assert start == Chunks.ChunkStart(data.Length, numThreads, t);
        assert end == Chunks.ChunkEnd(data.Length, numThreads, t);
        AccumulateChunk(partialSums, t, start, end);
        assert data[start..end] == data[..][start..end];
      }
      assert partialSums[..] == Chunks.PartialSums(data[..], numThreads);
      for t := 0 to numThreads
        invariant result == Sums.Sum(partialSums[..t])
      {
        assert partialSums[..t + 1][..t] == partialSums[..t];
        result := result + partialSums[t];
      }
      assert partialSums[..numThreads] == partialSums[..];
      Chunks.PartialSumsTotal(data[..], numThreads);
    }
  }
}
