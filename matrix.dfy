/**
 * The generic dense matrix `Matrix<T>`: a row-major nested sequence of cells
 * together with its row count, column count and a cached `dimension` pair,
 * the family of constructors, `transpose`, and the operators `+`, `-` and `*`.
 *
 * The operations that the library writes as loops over a mutable result
 * (diagonal fill, transpose, add, sub, mul) are methods here; each is proved
 * equal to a specification function, and the properties of the operations
 * are stated on those functions.
 */
module MatrixOperations {

  /** The scalar type `T`. The model instantiates it with mathematical integers;
      `Zero` is `T::default()`, the additive identity. */
  type Scalar = int

  const Zero: Scalar := 0

  /** A `(rows, columns)` pair. */
  type Dimension = (nat, nat)

  datatype Matrix = Matrix(rows: nat, columns: nat, dimension: Dimension, data: seq<seq<Scalar>>)

  /** Every row of `data` has exactly `columns` cells. */
  predicate Rectangular(data: seq<seq<Scalar>>, columns: nat) {
    forall i :: 0 <= i < |data| ==> |data[i]| == columns
  }

  /** The cached `dimension` agrees with `rows` and `columns`, and there is one
      entry of `data` per row. Every constructor establishes this. */
  predicate Consistent(m: Matrix) {
    m.dimension == (m.rows, m.columns) && |m.data| == m.rows
  }

  /** Every cell `(i, j)` with `i < rows` and `j < columns` exists, so that the
      operators' loops index in bounds. Longer rows are tolerated. */
  predicate Readable(m: Matrix) {
    Consistent(m) && forall i :: 0 <= i < m.rows ==> m.columns <= |m.data[i]|
  }

  /** A well-formed matrix: consistent and rectangular. */
  predicate Valid(m: Matrix) {
    Consistent(m) && Rectangular(m.data, m.columns)
  }

  /** `std::cmp::min`. */
  function Min(x: nat, y: nat): nat {
    if x <= y then x else y
  }

  /** Two valid matrices of one dimension that agree on every cell are equal. */
  lemma SameCells(x: Matrix, y: Matrix)
    requires Valid(x) && Valid(y) && x.dimension == y.dimension
    requires forall i, j :: 0 <= i < x.rows && 0 <= j < x.columns ==> x.data[i][j] == y.data[i][j]
    ensures x == y
  {
    forall i | 0 <= i < x.rows
      ensures x.data[i] == y.data[i]
    {
      assert forall j :: 0 <= j < x.columns ==> x.data[i][j] == y.data[i][j];
    }
  }

  // ---------------------------------------------------------------------------
  // Construction

  /** `vec![vec![v; c]; r]`: `r` rows of `c` copies of `v`. */
  function DataFromConstant(r: nat, c: nat, v: Scalar): (data: seq<seq<Scalar>>)
    ensures |data| == r && Rectangular(data, c)
    ensures forall i, j :: 0 <= i < r && 0 <= j < c ==> data[i][j] == v
  {
    seq(r, _ => seq(c, _ => v))
  }

  /** `vec![vec![T::default(); c]; r]`. */
  function DataFromZeroes(r: nat, c: nat): (data: seq<seq<Scalar>>)
    ensures |data| == r && Rectangular(data, c)
    ensures forall i, j :: 0 <= i < r && 0 <= j < c ==> data[i][j] == Zero
  {
    seq(r, _ => seq(c, _ => Zero))
  }

  /** Wraps the given rows; the row count is the number of rows and the column
      count is the length of the first row. The first-row lookup fails on an
      empty vector. Later rows are not checked, so the result is well-formed
      exactly when the input is rectangular. */
  function FromData(data: seq<seq<Scalar>>): (m: Matrix)
    requires |data| > 0
    ensures Consistent(m) && m.data == data
    ensures m.rows == |data| && m.columns == |data[0]|
    ensures Valid(m) <==> Rectangular(data, |data[0]|)
  {
    var rows := |data|;
    var columns := |data[0]|;
    Matrix(rows, columns, (rows, columns), data)
  }

  /** A `d.0 × d.1` matrix whose every cell is `v`. */
  function FromConstant(d: Dimension, v: Scalar): (m: Matrix)
    ensures Valid(m) && m.dimension == d
    ensures forall i, j :: 0 <= i < d.0 && 0 <= j < d.1 ==> m.data[i][j] == v
  {
    Matrix(d.0, d.1, d, DataFromConstant(d.0, d.1, v))
  }

  /** A `d.0 × d.1` matrix whose every cell is `T::default()`. */
  function DefaultFromDimension(d: Dimension): (m: Matrix)
    ensures Valid(m) && m.dimension == d
    ensures forall i, j :: 0 <= i < d.0 && 0 <= j < d.1 ==> m.data[i][j] == Zero
  {
    Matrix(d.0, d.1, d, DataFromZeroes(d.0, d.1))
  }

  /** Same as `DefaultFromDimension`, with the dimension given as two numbers. */
  function DefaultFromRowsAndColumns(rows: nat, columns: nat): (m: Matrix)
    ensures Valid(m) && m.dimension == (rows, columns)
    ensures forall i, j :: 0 <= i < rows && 0 <= j < columns ==> m.data[i][j] == Zero
    ensures m == DefaultFromDimension((rows, columns))
  {
    Matrix(rows, columns, (rows, columns), DataFromZeroes(rows, columns))
  }

  /** `Matrix::default()`: the fixed 3 × 3 all-default matrix. */
  function Default(): (m: Matrix)
    ensures Valid(m) && m.rows == 3 && m.columns == 3 && m.dimension == (3, 3)
    ensures forall i, j :: 0 <= i < 3 && 0 <= j < 3 ==> m.data[i][j] == Zero
    ensures m == DefaultFromDimension((3, 3))
  {
    Matrix(3, 3, (3, 3), DataFromZeroes(3, 3))
  }

  /** The assignment `m.data[i][j] = v`: one cell changes, nothing else does. */
  function SetCell(m: Matrix, i: nat, j: nat, v: Scalar): (r: Matrix)
    requires i < |m.data| && j < |m.data[i]|
    ensures r.rows == m.rows && r.columns == m.columns && r.dimension == m.dimension
    ensures |r.data| == |m.data| && forall p :: 0 <= p < |m.data| ==> |r.data[p]| == |m.data[p]|
    ensures r.data[i][j] == v
    ensures forall p, q :: 0 <= p < |m.data| && 0 <= q < |m.data[p]| && (p != i || q != j) ==> r.data[p][q] == m.data[p][q]
  {
    m.(data := m.data[i := m.data[i][j := v]])
  }

  /** The `d.0 × d.1` matrix with `v` on the principal diagonal, up to the
      shorter side, and `T::default()` everywhere else. */
  function Diagonal(d: Dimension, v: Scalar): (m: Matrix)
    ensures Valid(m) && m.dimension == d
    ensures forall i :: 0 <= i < Min(d.0, d.1) ==> m.data[i][i] == v
    ensures forall i, j :: 0 <= i < d.0 && 0 <= j < d.1 && i != j ==> m.data[i][j] == Zero
  {
    Matrix(d.0, d.1, d, seq(d.0, i => seq(d.1, j => if i == j then v else Zero)))
  }

  /** `diagonal_from_constant`: start from the all-default matrix and overwrite
      cell `(i, i)` for every `i < min(rows, columns)`. */
  method DiagonalFromConstant(d: Dimension, v: Scalar) returns (m: Matrix)
    ensures m == Diagonal(d, v)
  {
    m := DefaultFromDimension(d);
    var minDim := Min(d.0, d.1);
    for i := 0 to minDim
      invariant Valid(m) && m.dimension == d
      invariant forall p, q :: 0 <= p < d.0 && 0 <= q < d.1 ==>
        m.data[p][q] == if p == q && p < i then v else Zero
    {
      m := SetCell(m, i, i, v);
    }
    SameCells(m, Diagonal(d, v));
  }

  /** A diagonal of `T::default()` is the all-default matrix. */
  lemma DiagonalOfDefault(d: Dimension)
    ensures Diagonal(d, Zero) == DefaultFromDimension(d)
  {
    SameCells(Diagonal(d, Zero), DefaultFromDimension(d));
  }

  /** `default_diagonal`: the diagonal filled with `T::default()`. Although
      documented as a unit matrix, for integers it is the all-zero matrix. */
  method DefaultDiagonal(d: Dimension) returns (m: Matrix)
    ensures m == Diagonal(d, Zero)
    ensures m == DefaultFromDimension(d)
  {
    m := DiagonalFromConstant(d, Zero);
    DiagonalOfDefault(d);
  }

  // ---------------------------------------------------------------------------
  // Transpose

  /** `M^T`: a `columns × rows` matrix holding cell `(i, j)` of `m` at `(j, i)`. */
  function Transposed(m: Matrix): (t: Matrix)
    requires Readable(m)
    ensures Valid(t) && t.dimension == (m.columns, m.rows)
    ensures forall i, j :: 0 <= i < m.rows && 0 <= j < m.columns ==> t.data[j][i] == m.data[i][j]
  {
    Matrix(m.columns, m.rows, (m.columns, m.rows), seq(m.columns, j requires 0 <= j < m.columns =>
      seq(m.rows, i requires 0 <= i < m.rows => m.data[i][j])))
  }

  /** `transpose`: fill an all-default `columns × rows` matrix cell by cell. */
  method Transpose(m: Matrix) returns (t: Matrix)
    requires Readable(m)
    ensures t == Transposed(m)
  {
    t := DefaultFromDimension((m.columns, m.rows));
    for i := 0 to m.rows
      invariant Valid(t) && t.dimension == (m.columns, m.rows)
      invariant forall p, q {:trigger t.data[q][p]} :: 0 <= p < m.rows && 0 <= q < m.columns ==>
        t.data[q][p] == if p < i then m.data[p][q] else Zero
    {
      for j := 0 to m.columns
        invariant Valid(t) && t.dimension == (m.columns, m.rows)
        invariant forall p, q {:trigger t.data[q][p]} :: 0 <= p < m.rows && 0 <= q < m.columns ==>
          t.data[q][p] == if p < i || (p == i && q < j) then m.data[p][q] else Zero
      {
        t := SetCell(t, j, i, m.data[i][j]);
      }
    }
    SameCells(t, Transposed(m));
  }

  // ---------------------------------------------------------------------------
  // Addition and subtraction

  /** The element-wise sum of two matrices of one dimension. */
  function Sum(a: Matrix, b: Matrix): (s: Matrix)
    requires Readable(a) && Readable(b) && a.dimension == b.dimension
    ensures Valid(s) && s.dimension == a.dimension
    ensures forall i, j :: 0 <= i < a.rows && 0 <= j < a.columns ==> s.data[i][j] == a.data[i][j] + b.data[i][j]
  {
    Matrix(a.rows, a.columns, a.dimension, seq(a.rows, i requires 0 <= i < a.rows =>
      seq(a.columns, j requires 0 <= j < a.columns => a.data[i][j] + b.data[i][j])))
  }

  /** `a + b`; the operator panics unless the dimensions agree. */
  method Add(a: Matrix, b: Matrix) returns (s: Matrix)
    requires Readable(a) && Readable(b)
    requires a.dimension == b.dimension
    ensures s == Sum(a, b)
  {
    s := DefaultFromDimension(a.dimension);
    for i := 0 to a.rows
      invariant Valid(s) && s.dimension == a.dimension
      invariant forall p, q :: 0 <= p < a.rows && 0 <= q < a.columns ==>
        s.data[p][q] == if p < i then a.data[p][q] + b.data[p][q] else Zero
    {
      for j := 0 to a.columns
        invariant Valid(s) && s.dimension == a.dimension
        invariant forall p, q :: 0 <= p < a.rows && 0 <= q < a.columns ==>
          s.data[p][q] == if p < i || (p == i && q < j) then a.data[p][q] + b.data[p][q] else Zero
      {
        s := SetCell(s, i, j, a.data[i][j] + b.data[i][j]);
      }
    }
    SameCells(s, Sum(a, b));
  }

  /** The element-wise difference of two matrices of one dimension. */
  function Difference(a: Matrix, b: Matrix): (s: Matrix)
    requires Readable(a) && Readable(b) && a.dimension == b.dimension
    ensures Valid(s) && s.dimension == a.dimension
    ensures forall i, j :: 0 <= i < a.rows && 0 <= j < a.columns ==> s.data[i][j] == a.data[i][j] - b.data[i][j]
  {
    Matrix(a.rows, a.columns, a.dimension, seq(a.rows, i requires 0 <= i < a.rows =>
      seq(a.columns, j requires 0 <= j < a.columns => a.data[i][j] - b.data[i][j])))
  }

  /** `a - b`; the operator panics unless the dimensions agree. */
  method Sub(a: Matrix, b: Matrix) returns (s: Matrix)
    requires Readable(a) && Readable(b)
    requires a.dimension == b.dimension
    ensures s == Difference(a, b)
  {
    s := DefaultFromDimension(a.dimension);
    for i := 0 to a.rows
      invariant Valid(s) && s.dimension == a.dimension
      invariant forall p, q :: 0 <= p < a.rows && 0 <= q < a.columns ==>
        s.data[p][q] == if p < i then a.data[p][q] - b.data[p][q] else Zero
    {
      for j := 0 to a.columns
        invariant Valid(s) && s.dimension == a.dimension
        invariant forall p, q :: 0 <= p < a.rows && 0 <= q < a.columns ==>
          s.data[p][q] == if p < i || (p == i && q < j) then a.data[p][q] - b.data[p][q] else Zero
      {
        s := SetCell(s, i, j, a.data[i][j] - b.data[i][j]);
      }
    }
    SameCells(s, Difference(a, b));
  }

  // ---------------------------------------------------------------------------
  // Multiplication

  /** The accumulator of cell `(i, j)` after the first `n` steps of the inner
      loop: `((default + a[i][0]*b[0][j]) + a[i][1]*b[1][j]) + ...`, a left fold
      over `k < n`. */
  function Dot(a: Matrix, b: Matrix, i: nat, j: nat, n: nat): Scalar
    requires Readable(a) && Readable(b) && a.columns == b.rows
    requires i < a.rows && j < b.columns && n <= a.columns
  {
    if n == 0 then Zero else Dot(a, b, i, j, n - 1) + a.data[i][n - 1] * b.data[n - 1][j]
  }

  /** The cells that `a * b` reads exist. The loops read row cells of `a` and
      column cells of `b` only when the result has at least one cell, so an
      operand may be ragged when `a` has no rows or `b` has no columns. */
  predicate Multipliable(a: Matrix, b: Matrix) {
    Consistent(a) && Consistent(b) && a.columns == b.rows &&
    (a.rows == 0 || b.columns == 0 || (Readable(a) && Readable(b)))
  }

  /** The matrix product: an `a.rows × b.columns` matrix whose cell `(i, j)` is
      the full fold `Dot(a, b, i, j, a.columns)`. */
  function Product(a: Matrix, b: Matrix): (p: Matrix)
    requires Multipliable(a, b)
    ensures Valid(p) && p.dimension == (a.rows, b.columns)
    ensures forall i, j :: 0 <= i < a.rows && 0 <= j < b.columns ==> p.data[i][j] == Dot(a, b, i, j, a.columns)
  {
    Matrix(a.rows, b.columns, (a.rows, b.columns),
           seq(a.rows, i requires 0 <= i < a.rows =>
             seq(b.columns, j requires 0 <= j < b.columns => Dot(a, b, i, j, a.columns))))
  }

  /** `a * b`: the naive triple loop, accumulating into an all-default
      result in row, column, inner-index order. The operator panics unless
      `a.columns == b.rows`. */
  method Mul(a: Matrix, b: Matrix) returns (r: Matrix)
    requires Consistent(a) && Consistent(b)
    requires a.columns == b.rows
    requires a.rows == 0 || b.columns == 0 || (Readable(a) && Readable(b))
    ensures r == Product(a, b)
  {
    r := DefaultFromRowsAndColumns(a.rows, b.columns);
    for i := 0 to a.rows
      invariant Valid(r) && r.dimension == (a.rows, b.columns)
      invariant forall p, q :: 0 <= p < a.rows && 0 <= q < b.columns ==>
        r.data[p][q] == if p < i then Dot(a, b, p, q, a.columns) else Zero
    {
      for j := 0 to b.columns
        invariant Valid(r) && r.dimension == (a.rows, b.columns)
        invariant forall p, q :: 0 <= p < a.rows && 0 <= q < b.columns ==>
          r.data[p][q] == if p < i || (p == i && q < j) then Dot(a, b, p, q, a.columns) else Zero
      {
        for k := 0 to a.columns
          invariant Valid(r) && r.dimension == (a.rows, b.columns)
          invariant r.data[i][j] == Dot(a, b, i, j, k)
          invariant forall p, q :: 0 <= p < a.rows && 0 <= q < b.columns && (p != i || q != j) ==>
            r.data[p][q] == if p < i || (p == i && q < j) then Dot(a, b, p, q, a.columns) else Zero
        {
          r := SetCell(r, i, j, r.data[i][j] + a.data[i][k] * b.data[k][j]);
        }
      }
    }
    SameCells(r, Product(a, b));
  }
}
