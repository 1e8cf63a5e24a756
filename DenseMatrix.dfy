/** The dense matrix of the second exercise, with int elements: m rows of n
    columns stored row-major in one buffer, bounds-checked cell access,
    element-wise addition and scaling. Errors the source throws are values. */
module DenseMatrix {
  import Arith
  import RowMajor

  /** The exceptions the source throws: std::out_of_range and std::invalid_argument. */
  datatype MatrixError = OutOfRange | InvalidArgument

  datatype Result<T> = Ok(value: T) | Err(error: MatrixError)

  datatype Outcome = Pass | Fail(error: MatrixError)

  /** The bounds check of both `operator()` overloads: row below m, column below n. */
  predicate InBounds(m: nat, n: nat, i: nat, j: nat)
  {
    !(i >= m || j >= n)
  }

  /** The buffer length the source asks for: `_m * _n` in 32-bit unsigned arithmetic. */
  function UnsignedCellCount(m: nat, n: nat): (c: nat)
    ensures c < 0x1_0000_0000
    ensures m * n < 0x1_0000_0000 ==> c == m * n
  {
    (m * n) % 0x1_0000_0000
  }

  /** With 65536 rows of 65536 columns the 32-bit product wraps to 0, so the buffer
      has no cells although cell (0, 0) passes the bounds check. */
  lemma WrappedCellCountMissesCells()
    ensures UnsignedCellCount(0x1_0000, 0x1_0000) == 0
    ensures InBounds(0x1_0000, 0x1_0000, 0, 0) && !(RowMajor.Offset(0x1_0000, 0, 0) < UnsignedCellCount(0x1_0000, 0x1_0000))
  {
    assert 0x1_0000 * 0x1_0000 == 0x1_0000_0000;
  }

  class MatrixDense {
    /** Number of rows (`_m`). */
    const m: nat
    /** Number of columns (`_n`). */
    const n: nat
    /** Row-major cell buffer (`_data`). */
    const data: array<int>

    /** The buffer holds exactly one cell per (row, column) pair. */
    ghost predicate Valid()
    {
      data.Length == m * n
    }

    /** `MatrixDense(n, m)`: the first argument is the column count, the second the
        row count; every cell starts at zero. */
    constructor (n: nat, m: nat)
      ensures this.m == m && this.n == n
      ensures Valid() && fresh(data)
      ensures forall k :: 0 <= k < data.Length ==> data[k] == 0
      ensures forall i: nat, j: nat :: i < m && j < n ==> Get(i, j) == Ok(0)
    {
      this.m, this.n := m, n;
      data := new int[m * n];
      new;
      for k := 0 to m * n
        invariant forall l :: 0 <= l < k ==> data[l] == 0
      {
        data[k] := 0;
      }
    }

    /** Reading cell (i, j): out-of-range unless i < m and j < n. */
    function Get(i: nat, j: nat): (r: Result<int>)
      requires Valid()
      reads data
      ensures r.Ok? <==> i < m && j < n
      ensures r.Err? ==> r.error == OutOfRange
      ensures r.Ok? ==> RowMajor.Offset(n, i, j) < data.Length && r.value == data[RowMajor.Offset(n, i, j)]
    {
      if !InBounds(m, n, i, j) then Err(OutOfRange)
      else
        RowMajor.OffsetInBounds(m, n, i, j);
        Ok(data[RowMajor.Offset(n, i, j)])
    }

    /** Writing v through the reference to cell (i, j): out-of-range unless i < m and
        j < n; on success that cell holds v and every other cell is as before. */
    method Set(i: nat, j: nat, v: int) returns (r: Outcome)
      requires Valid()
      modifies data
      ensures r.Pass? <==> i < m && j < n
      ensures r.Fail? ==> r.error == OutOfRange && data[..] == old(data[..])
      ensures r.Pass? ==> forall i2: nat, j2: nat :: i2 < m && j2 < n ==>
                Get(i2, j2) == if i2 == i && j2 == j then Ok(v) else old(Get(i2, j2))
    {
      if !InBounds(m, n, i, j) {
        return Fail(OutOfRange);
      }
      ghost var before := data[..];
      RowMajor.OffsetInBounds(m, n, i, j);
      data[RowMajor.Offset(n, i, j)] := v;
      r := Pass;
      forall i2: nat, j2: nat | i2 < m && j2 < n
        ensures Get(i2, j2) == if i2 == i && j2 == j then Ok(v) else old(Get(i2, j2))
      {
        RowMajor.WriteTouchesOneCell(before, m, n, i, j, v, i2, j2);
        assert data[..] == before[RowMajor.Offset(n, i, j) := v];
      }
    }

    /** `*this + other`: invalid-argument unless both dimensions agree; otherwise a fresh
        matrix of the same shape whose every cell is the sum of the two cells. */
    method Add(other: MatrixDense) returns (r: Result<MatrixDense>)
      requires Valid() && other.Valid()
      ensures r.Err? <==> m != other.m || n != other.n
      ensures r.Err? ==> r.error == InvalidArgument
      ensures r.Ok? ==> fresh(r.value) && fresh(r.value.data) && r.value.Valid()
      ensures r.Ok? ==> r.value.m == m && r.value.n == n
      ensures r.Ok? ==> forall i: nat, j: nat :: i < m && j < n ==>
                r.value.Get(i, j) == Ok(Get(i, j).value + other.Get(i, j).value)
    {
      if m != other.m || n != other.n {
        return Err(InvalidArgument);
      }
      var result := new MatrixDense(n, m);
      for i := 0 to m
        invariant result.Valid() && result.m == m && result.n == n
        invariant forall i2: nat, j2: nat :: i2 < i && j2 < n ==>
                    result.Get(i2, j2) == Ok(Get(i2, j2).value + other.Get(i2, j2).value)
      {
        for j := 0 to n
          invariant forall i2: nat, j2: nat :: (i2 < i || (i2 == i && j2 < j)) && j2 < n ==>
                      result.Get(i2, j2) == Ok(Get(i2, j2).value + other.Get(i2, j2).value)
        {
          var x := Get(i, j).value + other.Get(i, j).value;
          var _ := result.Set(i, j, x);
        }
      }
      r := Ok(result);
    }

    /** `*this * scalar`: a fresh matrix of the same shape whose every cell is the cell
        times the scalar; scaling by 1 copies, scaling by 0 clears. */
    method Scale(scalar: int) returns (r: MatrixDense)
      requires Valid()
      ensures fresh(r) && fresh(r.data) && r.Valid()
      ensures r.m == m && r.n == n
      ensures forall i: nat, j: nat :: i < m && j < n ==> r.Get(i, j) == Ok(Get(i, j).value * scalar)
      ensures scalar == 1 ==> forall i: nat, j: nat :: i < m && j < n ==> r.Get(i, j) == Get(i, j)
      ensures scalar == 0 ==> forall i: nat, j: nat :: i < m && j < n ==> r.Get(i, j) == Ok(0)
    {
      var result := new MatrixDense(n, m);
      for i := 0 to m
        invariant result.Valid() && result.m == m && result.n == n
        invariant forall i2: nat, j2: nat :: i2 < i && j2 < n ==>
                    result.Get(i2, j2) == Ok(Get(i2, j2).value * scalar)
      {
        for j := 0 to n
          invariant forall i2: nat, j2: nat :: (i2 < i || (i2 == i && j2 < j)) && j2 < n ==>
                      result.Get(i2, j2) == Ok(Get(i2, j2).value * scalar)
        {
          var x := Get(i, j).value * scalar;
          var _ := result.Set(i, j, x);
        }
      }
      r := result;
    }
  }
}
