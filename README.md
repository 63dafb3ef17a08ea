# Generic dense matrix, modelled in Dafny

This project models `Matrix<T>` from the Rust crate `generic-matrix-impl`. A matrix
there is a row-major `Vec<Vec<T>>`. It also keeps a row count, a column count and a
redundant `dimension` pair. The crate provides:

- the constructors `from_data`, `from_constant`, `default_from_dimension`,
  `default_from_rows_and_columns`, `diagonal_from_constant`, `default_diagonal` and
  `Matrix::default()`;
- `transpose`;
- the operators `+` and `-`, which panic when the dimensions differ;
- the operator `*`, a naive triple loop that panics when `lhs.columns != rhs.rows`.

Files:

- `matrix.dfy`, module `MatrixOperations`: the `Matrix` datatype and its predicates
  `Consistent`, `Readable` and `Valid`. It has the pure constructors as functions.
  The loop-based operations (`DiagonalFromConstant`, `Transpose`, `Add`, `Sub`, `Mul`)
  are methods. Each of them fills a local matrix cell by cell, as the Rust code does,
  and is proved equal to a specification function (`Diagonal`, `Transposed`, `Sum`,
  `Difference`, `Product`).
- `laws.dfy`, module `MatrixLaws`: laws about those specification functions.
  Transpose is an involution, and it reverses a product. Subtraction undoes
  addition. A matrix minus itself is all-default. Constant matrices add and multiply
  as expected. The diagonal matrix of ones is a left and a right identity. The matrix
  built by `default_diagonal`, as either the left or the right operand, makes every
  product the all-default matrix.
- `tests.dfy`, module `MatrixTests`: the crate's four unit tests, stated as lemmas.
  It also holds one extra lemma showing that `default_diagonal` is not a unit, and two
  lemmas showing that `*` accepts a ragged operand when the product has no cells.

Modelling decisions:

- The scalar `T` is `int` (`Scalar`), and `T::default()` is `Zero` (0).
- A cell of a product is the left fold `Dot(a, b, i, j, n)`. It starts from `Zero`
  and adds `a[i][k] * b[k][j]` for `k = 0, 1, …, n-1`, in the same order as the inner
  loop.
- `Consistent(m)` says that `dimension` equals `(rows, columns)` and that there is one
  row per row count. Every constructor establishes it.
- `Valid(m)` also says that every row has exactly `columns` cells.
- `Readable(m)` is the weaker condition under which the loops index in bounds: every
  row is at least `columns` long. For `transpose`, `+` and `-` it is exactly the
  non-panicking condition, so these operations and their specification functions
  require only `Readable`.
- `*` reads cells only when the result has at least one cell. `Multipliable(a, b)`
  and the requires of `Mul` therefore ask for `Readable` operands only when
  `a.rows > 0` and `b.columns > 0`. With no rows on the left or no columns on the
  right, either operand may be ragged, as in the library.
- Each panic of an operator is a `requires` clause.
- `from_data` requires a non-empty input, because `data.get(0).unwrap()` panics on an
  empty vector. It does not require rectangular input: the code performs no such
  check. Its contract instead states that the result is `Valid` exactly when the
  input is rectangular.
- `default_diagonal` is documented as building a unit matrix. It actually fills the
  diagonal with `T::default()`, so for integers it is the all-zero matrix. The model
  proves this (`DefaultDiagonal`, `ProductWithDefaultDiagonal`, `ProductWithDefaultDiagonalLeft`,
  `DefaultDiagonalIsNoUnit`). The true identity is `Diagonal((n, n), 1)`
  (`MatrixLaws.Unit`).

## Model

The predicates (`Rectangular`, `Consistent`, `Readable`, `Valid`, `Multipliable`)
model the fields and invariants of the struct at src/lib.rs:22-27. They, `Min`
(`std::cmp::min`, src/lib.rs:59) and `MatrixLaws.Unit` (the diagonal matrix of ones)
carry no contract of their own and are described in the prose above. `Dot`, the
accumulator of src/lib.rs:159-163, has no contract either. What it computes is stated
by `Product`, by `Mul` and by the `Dot…` lemmas below.

| member | source | states |
|---|---|---|
| `MatrixOperations.SameCells` | src/lib.rs:21-27 | two valid matrices of one dimension that agree on every cell are equal (the derived structural `PartialEq`) |
| `MatrixOperations.SetCell` | src/lib.rs:62 | the indexed assignment `m.data[i][j] = v` (also at src/lib.rs:109, 133, 161 and 187): it requires the cell to exist, sets that cell to `v`, and leaves the dimension, every row length and every other cell unchanged |
| `MatrixOperations.DataFromConstant` | src/lib.rs:96-98 | `r` rows, each of exactly `c` cells, and every cell is `v` |
| `MatrixOperations.DataFromZeroes` | src/lib.rs:92-94 | `r` rows, each of exactly `c` cells, and every cell is `T::default()` |
| `MatrixOperations.FromData` | src/lib.rs:34-44 | requires a non-empty input (the `unwrap` panics otherwise); rows = number of rows, columns = length of the first row, data unchanged, the cache is consistent, and the result is valid if and only if every row has the first row's length |
| `MatrixOperations.FromConstant` | src/lib.rs:47-54 | valid, dimension `d`, every cell equals the constant |
| `MatrixOperations.DefaultFromDimension` | src/lib.rs:74-81 | valid, dimension `d`, every cell is `T::default()` |
| `MatrixOperations.DefaultFromRowsAndColumns` | src/lib.rs:83-90 | valid, dimension `(rows, columns)`, every cell is `T::default()`; the same matrix as `default_from_dimension((rows, columns))` |
| `MatrixOperations.Default` | src/lib.rs:195-207 | `Matrix::default()` is a valid 3 × 3 matrix with every cell `T::default()`, equal to `default_from_dimension((3, 3))` |
| `MatrixOperations.Diagonal` | src/lib.rs:57-66 | valid with dimension `d`; cell `(i, i)` is the constant for every `i < min(d.0, d.1)`; every off-diagonal cell is `T::default()`, also for non-square `d` |
| `MatrixOperations.DiagonalFromConstant` | src/lib.rs:57-66 | the loop that overwrites cells `(i, i)`, `i < min(rows, columns)`, of an all-default matrix yields exactly `Diagonal(d, v)` |
| `MatrixOperations.DiagonalOfDefault` | src/lib.rs:68-71 | a diagonal of `T::default()` is the all-default matrix of that dimension |
| `MatrixOperations.DefaultDiagonal` | src/lib.rs:68-71 | `default_diagonal(d)` equals `diagonal_from_constant(d, T::default())` and equals `default_from_dimension(d)` |
| `MatrixOperations.Transposed` | src/lib.rs:101-114 | valid with dimension `(columns, rows)`, and output cell `(j, i)` equals input cell `(i, j)` for all `i < rows`, `j < columns` |
| `MatrixOperations.Transpose` | src/lib.rs:101-114 | the double loop that copies `self.data[i][j]` into cell `(j, i)` of an all-default `columns × rows` matrix yields exactly `Transposed(m)` |
| `MatrixOperations.Sum` | src/lib.rs:123-138 | for operands of equal dimension: valid, same dimension, and cell `(i, j)` is `a[i][j] + b[i][j]` |
| `MatrixOperations.Add` | src/lib.rs:123-138 | `a + b` requires equal dimensions (panics otherwise), and its double loop over an all-default result yields exactly `Sum(a, b)` |
| `MatrixOperations.Difference` | src/lib.rs:177-192 | for operands of equal dimension: valid, same dimension, and cell `(i, j)` is `a[i][j] - b[i][j]` |
| `MatrixOperations.Sub` | src/lib.rs:177-192 | `a - b` requires equal dimensions (panics otherwise), and its double loop yields exactly `Difference(a, b)` |
| `MatrixOperations.Product` | src/lib.rs:147-168 | for `a.columns == b.rows`, with the cells read by the loops existing: valid with dimension `(a.rows, b.columns)`, and cell `(i, j)` is the left fold `((default + a[i][0]*b[0][j]) + a[i][1]*b[1][j]) + …` over `k < a.columns` |
| `MatrixOperations.Mul` | src/lib.rs:147-168 | `a * b` requires `a.columns == b.rows` (panics otherwise), and readable operands only when the result has a cell. Its triple loop, accumulating into an all-default result in row, column, inner-index order, yields exactly `Product(a, b)` |
| `MatrixLaws.TransposeInvolution` | src/lib.rs:101-114 | `transpose(transpose(M)) == M` for every valid `M` |
| `MatrixLaws.SumThenDifference` | src/lib.rs:177-192 | `(a + b) - b == a` for valid operands of equal dimension |
| `MatrixLaws.DifferenceWithItself` | src/lib.rs:177-192 | `M - M == default_from_dimension(M.dimension)` |
| `MatrixLaws.SumWithDefault` | src/lib.rs:123-138 | adding the all-default matrix of the same dimension leaves a valid matrix unchanged |
| `MatrixLaws.SumOfConstants` | src/lib.rs:123-138 | `from_constant(d, u) + from_constant(d, v) == from_constant(d, u + v)` |
| `MatrixLaws.DotOfConstants` | src/lib.rs:159-163 | after `k` inner steps over two constant matrices, the accumulator is `k * (u * v)` |
| `MatrixLaws.ProductOfConstants` | src/lib.rs:147-168 | `from_constant((r, n), u) * from_constant((n, c), v) == from_constant((r, c), n * u * v)` |
| `MatrixLaws.DotWithUnitRight` | src/lib.rs:159-163 | after `k` inner steps against the unit matrix on the right, the accumulator is `m[i][j]` once `k > j` and `T::default()` before |
| `MatrixLaws.ProductWithUnitRight` | src/lib.rs:147-168 | `M * diagonal_from_constant((M.columns, M.columns), 1) == M` |
| `MatrixLaws.DotWithUnitLeft` | src/lib.rs:159-163 | after `k` inner steps with the unit matrix on the left, the accumulator is `m[i][j]` once `k > i` and `T::default()` before |
| `MatrixLaws.ProductWithUnitLeft` | src/lib.rs:147-168 | `diagonal_from_constant((M.rows, M.rows), 1) * M == M` |
| `MatrixLaws.DotWithDefault` | src/lib.rs:159-163 | every partial fold against an all-default right operand is `T::default()` |
| `MatrixLaws.ProductWithDefaultDiagonal` | src/lib.rs:68-71 | as a right operand: `M * default_diagonal((M.columns, M.columns))` is the all-default matrix, so the "unit matrix" of the doc comment is not a unit |
| `MatrixLaws.DotWithDefaultLeft` | src/lib.rs:159-163 | every partial fold with an all-default left operand is `T::default()` |
| `MatrixLaws.ProductWithDefaultDiagonalLeft` | src/lib.rs:68-71 | `default_diagonal((M.rows, M.rows)) * M` is the all-default matrix as well |
| `MatrixLaws.DotTransposed` | src/lib.rs:159-163 | the partial fold of `b^T * a^T` at `(j, i)` equals that of `a * b` at `(i, j)` |
| `MatrixLaws.TransposeOfProduct` | src/lib.rs:147-168 | `transpose(a * b) == transpose(b) * transpose(a)` |
| `MatrixTests.Addition` | src/lib.rs:215-221 | the 3 × 3 matrix of ones plus itself is the 3 × 3 matrix of twos |
| `MatrixTests.Multiplication` | src/lib.rs:224-231 | the 5 × 5 matrix of tens times the 5 × 5 matrix of ones is the 5 × 5 matrix of fifties |
| `MatrixTests.Subtraction` | src/lib.rs:234-240 | the 3 × 3 matrix of ones minus itself is `default_from_dimension((3, 3))` |
| `MatrixTests.DiagonalMatrixInitialization` | src/lib.rs:243-248 | the 5 × 5 matrix of tens times `diagonal_from_constant((5, 5), 1)` is itself, stated for integers |
| `MatrixTests.DefaultDiagonalIsNoUnit` | src/lib.rs:68-71 | a 1 × 1 matrix of one times `default_diagonal((1, 1))` is not that matrix |
| `MatrixTests.RaggedRightOperandOfEmptyProduct` | src/lib.rs:147-168 | a 0 × 2 matrix times the ragged `from_data([[1, 2], [3]])` is accepted and is the empty 0 × 2 matrix |
| `MatrixTests.RaggedLeftOperandOfEmptyProduct` | src/lib.rs:147-168 | the ragged `from_data([[1, 2], [3]])` times a 2 × 0 matrix is accepted and is the 2 × 0 matrix |

## Left out

- Machine widths: the `u32` fields and casts are not modelled. Dimensions are `nat`, so
  the truncation of `from_data`'s `data.len() as u32` on lengths of 2^32 or more is not
  modelled either.
- Scalar arithmetic is mathematical integer arithmetic. Overflow of a fixed-width `T`
  (such as `i32`) and floating-point rounding are not modelled; the `f32` test is stated
  for integers (`MatrixTests.DiagonalMatrixInitialization`). The fold order of `*` is
  modelled, but with integers the order cannot change the result.
- Genericity over `T`: only the integer instance is modelled.
- Panic messages and the panics themselves: each panic is a `requires` clause of its
  operator instead. No fallible-result variant of the operators is modelled; the
  library has none.
- Ownership: `self` and `rhs` are consumed in Rust. Dafny values have value semantics,
  so moves, `Clone` and the in-place mutation of the local result matrix appear only as
  reassignment of a local value.
- `Debug`, the derived `Clone` and the crate-level lint attributes: they carry no
  behaviour.
- Out-of-bounds indexing on ragged matrices: the operators require the cells they
  read to exist instead of modelling the index panic.
