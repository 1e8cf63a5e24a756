/** Row-major layout of an m x n matrix in a flat buffer of m * n cells:
    cell (i, j) lives at offset i * n + j. */
module RowMajor {
  import Arith

  /** Offset of cell (i, j) in a buffer with `cols` cells per row. */
  function Offset(cols: nat, i: nat, j: nat): (k: nat)
  {
    i * cols + j
  }

  /** Every in-bounds cell maps into the buffer. */
  lemma OffsetInBounds(rows: nat, cols: nat, i: nat, j: nat)
    requires i < rows && j < cols
    ensures Offset(cols, i, j) < rows * cols
  {
    Arith.MulSucc(i, cols);
    Arith.MulMonotone(i + 1, rows, cols);
  }

  /** Row and column can be read back from the offset: row k / cols, column k % cols. */
  lemma OffsetRoundTrip(cols: nat, i: nat, j: nat)
    requires j < cols
    ensures Offset(cols, i, j) / cols == i && Offset(cols, i, j) % cols == j
  {
    Arith.DivModUnique(Offset(cols, i, j), cols, i, j);
  }

  /** Two in-bounds cells share an offset only when they are the same cell. */
  lemma OffsetInjective(cols: nat, i1: nat, j1: nat, i2: nat, j2: nat)
    requires j1 < cols && j2 < cols
    requires Offset(cols, i1, j1) == Offset(cols, i2, j2)
    ensures i1 == i2 && j1 == j2
  {
    OffsetRoundTrip(cols, i1, j1);
    OffsetRoundTrip(cols, i2, j2);
  }

  /** Every offset of the buffer holds some in-bounds cell. */
  lemma OffsetOnto(rows: nat, cols: nat, k: nat)
    requires k < rows * cols
    ensures cols > 0 && k / cols < rows && k % cols < cols
    ensures Offset(cols, k / cols, k % cols) == k
  {
    if k / cols >= rows {
      Arith.MulMonotone(rows, k / cols, cols);
    }
  }

  /** Writing v at the offset of cell (i, j) changes that cell only. */
  lemma WriteTouchesOneCell(s: seq<int>, rows: nat, cols: nat, i: nat, j: nat, v: int, i2: nat, j2: nat)
    requires |s| == rows * cols
    requires i < rows && j < cols && i2 < rows && j2 < cols
    ensures Offset(cols, i, j) < |s| && Offset(cols, i2, j2) < |s|
    ensures s[Offset(cols, i, j) := v][Offset(cols, i2, j2)] ==
              if i2 == i && j2 == j then v else s[Offset(cols, i2, j2)]
  {
    OffsetInBounds(rows, cols, i, j);
    OffsetInBounds(rows, cols, i2, j2);
    if Offset(cols, i, j) == Offset(cols, i2, j2) {
      OffsetInjective(cols, i, j, i2, j2);
    }
  }
}
