# Parallels-LABS: numeric vector and dense matrix, in Dafny

This project models two sequential containers from the repository's
exercises. Both take `int` elements, so every sum and product is exact.

- **`Vector<T>`** (third exercise, `Lab3/Lab3/Lab3.cpp`) is a fixed-length
  owned buffer with an `is_initialized` flag. It provides a constant
  initialiser, first-occurrence minimum and maximum scans, the sum, the
  Manhattan norm, the scalar product and `parallel_sum`.
  - `parallel_sum(k)` splits `[0, n)` into `k` contiguous chunks. Each of the
    first `k - 1` chunks holds `n / k` indices and the last one runs to `n`.
  - Each worker adds its chunk into a private slot of `partial_sums`. The
    slots are then added in worker order.
  - The model runs the workers one after another. Each one is a call to
    `AccumulateChunk`, which changes only its own slot. The model proves that
    the chunks tile `[0, n)` and that the result equals `sum()`.
- **`MatrixDense<T>`** (second exercise, `Lab2/Lab2/Lab2.cpp`) stores `m`
  rows of `n` columns row-major in one buffer. It provides bounds-checked
  `(i, j)` access at offset `i * n + j`, element-wise `+` and scaling by a
  scalar.
  - The constructor is `MatrixDense(n, m)`: the first argument is the column
    count.
  - `+` and `*` build their result with `MatrixDense(_n, _m)`, which passes
    the swapped order back in, so the result has the operand's shape.
  - The thrown `std::out_of_range` and `std::invalid_argument` become
    `MatrixError` values.

Files:
- `Arith.dfy`: facts about multiplication and division used by the proofs.
- `Sums.dfy`: index-order folds (sum, sum of absolute values, dot product) and their laws.
- `Chunks.dfy`: the chunk partition of `parallel_sum` and the proof that the partial sums add up to the sum.
- `Vector.dfy`: the `Vector` class.
- `RowMajor.dfy`: the row-major offset map (bounds, injectivity, surjectivity).
- `DenseMatrix.dfy`: the `MatrixDense` class.

Edge cases of the code that the model keeps:
- `parallel_sum` accepts any worker count `>= 1`, including counts above `n`.
  Then `chunk_size == 0` and the last chunk is all of `[0, n)`.
- `Vector(0)` is accepted.
- On an uninitialised vector `parallel_sum` returns 0 before it divides, so
  any worker count, 0 included, is fine there. On an initialised vector a
  count of 0 divides by zero at `Lab3/Lab3/Lab3.cpp:210`, so `ParallelSum`
  requires a count of at least 1 only in that case.

## Model

| member | source | states |
|---|---|---|
| `NumericVector.Vector.constructor` | Lab3/Lab3/Lab3.cpp:21-28 | the buffer has `size` slots, every slot is the default value 0, and the vector is not initialised |
| `NumericVector.Vector.InitializeWithConstant` | Lab3/Lab3/Lab3.cpp:39-44 | every slot holds `value`, the length is unchanged (the buffer is the same array), and the vector is initialised |
| `NumericVector.Vector.FindMin` | Lab3/Lab3/Lab3.cpp:95-110 | initialised: the returned value sits at the returned index, it is `<=` every element, and every earlier element is strictly greater, so the index is the first occurrence; uninitialised: `(0, 0)` |
| `NumericVector.Vector.FindMax` | Lab3/Lab3/Lab3.cpp:113-128 | the same for the greatest element at its lowest index; `(0, 0)` when uninitialised |
| `NumericVector.Vector.Sum` | Lab3/Lab3/Lab3.cpp:131-142 | the index-order sum of all elements when initialised, 0 otherwise |
| `NumericVector.Vector.ManhattanNorm` | Lab3/Lab3/Lab3.cpp:169-180 | the sum of the absolute values when initialised, 0 otherwise; never negative |
| `NumericVector.Vector.ScalarProduct` | Lab3/Lab3/Lab3.cpp:183-199 | 0 when either vector is uninitialised or the lengths differ; otherwise the sum of `a[i] * b[i]` |
| `NumericVector.Vector.AccumulateChunk` | Lab3/Lab3/Lab3.cpp:214-220 | one worker: its slot grows by exactly the sum of its chunk, and every other slot is unchanged |
| `NumericVector.Vector.ParallelSum` | Lab3/Lab3/Lab3.cpp:202-232 | on an initialised vector and for every worker count `>= 1`, the chunked, slot-wise, worker-order sum equals the sequential sum; 0 when uninitialised, for any worker count |
| `Chunks.WholeChunksFit` | Lab3/Lab3/Lab3.cpp:210 | `k` whole chunks of `n / k` indices fit in `n` |
| `Chunks.ChunkStart` | Lab3/Lab3/Lab3.cpp:215 | chunk `t` starts at `t * (n / k)`, which is within `[0, n]` |
| `Chunks.ChunkEnd` | Lab3/Lab3/Lab3.cpp:216 | chunk `t` ends at or after its start and no later than `n`; the last chunk ends at `n` |
| `Chunks.ChunksContiguous` | Lab3/Lab3/Lab3.cpp:210-216 | the first chunk starts at 0, the last ends at `n`, and each chunk ends where the next one starts |
| `Chunks.ChunkLengths` | Lab3/Lab3/Lab3.cpp:210-216 | the first `k - 1` chunks hold `n / k` indices each, and the last holds `n - (k - 1) * (n / k)` |
| `Chunks.ChunksOrdered` | Lab3/Lab3/Lab3.cpp:210-216 | an earlier chunk ends no later than a later chunk starts, so no two chunks overlap |
| `Chunks.ChunkOf` | Lab3/Lab3/Lab3.cpp:210-216 | every index below `n` lies in some chunk, including when `k > n` |
| `Chunks.ChunksPartition` | Lab3/Lab3/Lab3.cpp:210-216 | an index lies in some chunk if and only if it is below `n`, and it lies in at most one chunk |
| `Chunks.PartialSums` | Lab3/Lab3/Lab3.cpp:211-220 | there is one slot per worker, and slot `t` holds the sum of chunk `t` only |
| `Chunks.PartialSumsPrefix` | Lab3/Lab3/Lab3.cpp:227-229 | adding the first `t` slots gives the sum of the indices that the first `t` chunks cover |
| `Chunks.PartialSumsTotal` | Lab3/Lab3/Lab3.cpp:227-229 | adding all `k` slots in worker order gives exactly the sequential sum |
| `Chunks.TenTwosOverThreeWorkers` | Lab3/Lab3/Lab3.cpp:202-232 | ten 2s over three workers: chunks of 3, 3 and 4, partial sums `[6, 6, 8]`, total 20 |
| `Sums.SumConcat` | Lab3/Lab3/Lab3.cpp:137-140 | the index-order sum splits over a concatenation, so the additions may be regrouped |
| `Sums.SumPrefixStep` | Lab3/Lab3/Lab3.cpp:138-140 | extending a summed range by one index adds that element |
| `Sums.SumConstant` | Lab3/Lab3/Lab3.cpp:39-44 | after a constant fill with `v`, the `n` elements sum to `n * v` |
| `Sums.AbsSum` | Lab3/Lab3/Lab3.cpp:175-179 | the Manhattan norm is never negative |
| `Sums.SumBoundedByAbsSum` | Lab3/Lab3/Lab3.cpp:169-180 | the Manhattan norm bounds the sum from above and below |
| `Sums.AbsSumZero` | Lab3/Lab3/Lab3.cpp:169-180 | the Manhattan norm is 0 exactly when every element is 0 |
| `Sums.DotSymmetric` | Lab3/Lab3/Lab3.cpp:194-197 | the scalar product does not depend on the order of its operands |
| `Sums.DotSelfNonNegative` | Lab3/Lab3/Lab3.cpp:194-197 | the scalar product of a vector with itself is never negative |
| `Sums.DotOnesIsSum` | Lab3/Lab3/Lab3.cpp:194-197 | the scalar product with an all-ones vector is the plain sum |
| `DenseMatrix.MatrixDense.constructor` | Lab2/Lab2/Lab2.cpp:25-30 | `MatrixDense(n, m)` has `m` rows and `n` columns, one buffer cell per pair, and every cell reads 0 |
| `DenseMatrix.MatrixDense.Get` | Lab2/Lab2/Lab2.cpp:44-50 | the read succeeds if and only if `i < m` and `j < n`, otherwise it is out-of-range; when it succeeds, it returns the buffer cell at `i * n + j`, which lies inside the buffer |
| `DenseMatrix.MatrixDense.Set` | Lab2/Lab2/Lab2.cpp:36-42 | the write through the reference succeeds if and only if `(i, j)` is in bounds; that cell then reads `v` and every other cell reads as before; an out-of-range write changes nothing |
| `DenseMatrix.MatrixDense.Add` | Lab2/Lab2/Lab2.cpp:52-64 | invalid-argument if and only if the row or column counts differ; otherwise a fresh matrix of the same shape with `result(i, j) == A(i, j) + B(i, j)` in every cell |
| `DenseMatrix.MatrixDense.Scale` | Lab2/Lab2/Lab2.cpp:66-74 | a fresh matrix of the same shape with `result(i, j) == A(i, j) * s` in every cell; `A * 1` equals `A` cell by cell, and `A * 0` is all zeros |
| `RowMajor.OffsetInBounds` | Lab2/Lab2/Lab2.cpp:36-42 | every in-bounds `(i, j)` maps below `m * n` |
| `RowMajor.OffsetRoundTrip` | Lab2/Lab2/Lab2.cpp:41 | the row and column come back from the offset as `k / n` and `k % n` |
| `RowMajor.OffsetInjective` | Lab2/Lab2/Lab2.cpp:41 | two in-bounds cells with the same offset are the same cell |
| `RowMajor.OffsetOnto` | Lab2/Lab2/Lab2.cpp:26-29 | every offset below `m * n` is the offset of the in-bounds cell `(k / n, k % n)`, so no buffer cell is unreachable |
| `RowMajor.WriteTouchesOneCell` | Lab2/Lab2/Lab2.cpp:36-42 | writing at the offset of `(i, j)` changes that cell and no other |
| `DenseMatrix.UnsignedCellCount` | Lab2/Lab2/Lab2.cpp:26 | the buffer length as written is `m * n` reduced modulo 2^32, and it is the true product only when the product fits in 32 bits |
| `DenseMatrix.WrappedCellCountMissesCells` | Lab2/Lab2/Lab2.cpp:26-41 | for 65536 x 65536 the written buffer length is 0, yet cell `(0, 0)` passes the bounds check |

## Left out

- Threads, `join` and the unused `std::mutex`: the workers run one after another. No worker reads or writes another worker's slot, and none writes the data. Interleavings are therefore not modelled.
- `mean`, `euclidean_norm` and `initialize_with_random`: they use floating point, `sqrt` and a random generator. The `double` demonstration in `main` is left out for the same reason.
- `export_to_file` and `import_from_file` (Lab3), and `exportToFile` and `importFromFile` (Lab2): file I/O with stream number formatting. The export/import round trip is therefore not modelled.
- Console diagnostics and Lab2's `print`: the diagnostic paths are modelled as sentinel return values or `MatrixError` values.
- `new[]`, `delete[]` and the destructors: the buffers are Dafny arrays. `operator+` and `operator*` return by value, and `MatrixDense` has no copy constructor; the model assumes the returned matrix owns its own buffer (copy elision), so a shared buffer deleted with the local `result` is not modelled.
- `Lab1/Lab1/Lab1.cpp` and Lab2's abstract `Matrix` base class: neither holds an algorithm. The base class only shares the print and file interface.
- Element overflow: elements are mathematical integers, so `T`'s native wrap-around or overflow in `sum`, `manhattan_norm`, `scalar_product` and `parallel_sum`, and in `MatrixDense`'s `operator+` and `operator*` (`Add`, `Scale`), is not modelled. `size_t` index arithmetic cannot overflow here, because `t * chunk_size <= n`.
- NumericVector.Vector.FindMin: requires a non-empty buffer when the vector is initialised. The source reads `data[0]` unconditionally, which is undefined for a length-0 vector.
- NumericVector.Vector.FindMax: the same precondition, for the same reason.
- DenseMatrix.MatrixDense.constructor: allocates exactly `m * n` cells. The 32-bit wrap-around of `_m * _n` is modelled separately, in `UnsignedCellCount` (see Findings).
- Dimension types: the dimensions and indices are unbounded `nat` values, not 32-bit `unsigned`.

## Findings

| source | as written | input that shows it | evidently intended | confidence | as-written member | corrected member |
|---|---|---|---|---|---|---|
| Lab2/Lab2/Lab2.cpp:26 | the buffer length `_m * _n` is computed in 32-bit `unsigned` and wraps | `MatrixDense(65536, 65536)` allocates 0 cells, yet `(0, 0)` passes the bounds check at line 37 and is written at offset 0 | a buffer of the full `m * n` cells, so that every in-bounds cell has a slot | not executed | `DenseMatrix.WrappedCellCountMissesCells` | `RowMajor.OffsetInBounds` |
