/**
 * Algebraic laws of the matrix operations, stated on the specification
 * functions that the loop-based methods are proved equal to.
 */
module MatrixLaws {
  import opened MatrixOperations

  /** The square matrix with `1` on the diagonal and `0` elsewhere. */
  function Unit(n: nat): Matrix {
    Diagonal((n, n), 1)
  }

  // ---------------------------------------------------------------------------
  // Transpose

  /** Transposing twice gives back the matrix. */
  lemma TransposeInvolution(m: Matrix)
    requires Valid(m)
    ensures Transposed(Transposed(m)) == m
  {
    SameCells(Transposed(Transposed(m)), m);
  }

  // ---------------------------------------------------------------------------
  // Addition and subtraction

  /** Subtracting the second operand undoes the addition. */
  lemma SumThenDifference(a: Matrix, b: Matrix)
    requires Valid(a) && Valid(b) && a.dimension == b.dimension
    ensures Difference(Sum(a, b), b) == a
  {
    SameCells(Difference(Sum(a, b), b), a);
  }

  /** A matrix minus itself is the all-default matrix of its dimension. */
  lemma DifferenceWithItself(m: Matrix)
    requires Readable(m)
    ensures Difference(m, m) == DefaultFromDimension(m.dimension)
  {
    SameCells(Difference(m, m), DefaultFromDimension(m.dimension));
  }

  /** Adding the all-default matrix changes nothing. */
  lemma SumWithDefault(m: Matrix)
    requires Valid(m)
    ensures Sum(m, DefaultFromDimension(m.dimension)) == m
  {
    SameCells(Sum(m, DefaultFromDimension(m.dimension)), m);
  }

  /** Two constant matrices add up to the constant matrix of the summed value. */
  lemma SumOfConstants(d: Dimension, u: Scalar, v: Scalar)
    ensures Sum(FromConstant(d, u), FromConstant(d, v)) == FromConstant(d, u + v)
  {
    SameCells(Sum(FromConstant(d, u), FromConstant(d, v)), FromConstant(d, u + v));
  }

  // ---------------------------------------------------------------------------
  // Multiplication

  /** A fold over `k` constant terms `u * v` is `k * (u * v)`. */
  lemma {:induction false} DotOfConstants(r: nat, n: nat, c: nat, u: Scalar, v: Scalar, i: nat, j: nat, k: nat)
    requires i < r && j < c && k <= n
    ensures Dot(FromConstant((r, n), u), FromConstant((n, c), v), i, j, k) == k * (u * v)
  {
    if k > 0 {
      DotOfConstants(r, n, c, u, v, i, j, k - 1);
      assert k * (u * v) == (k - 1) * (u * v) + u * v;
    }
  }

  /** An `r × n` matrix of `u` times an `n × c` matrix of `v` is the `r × c`
      matrix of `n * (u * v)`. */
  lemma ProductOfConstants(r: nat, n: nat, c: nat, u: Scalar, v: Scalar)
    ensures Product(FromConstant((r, n), u), FromConstant((n, c), v)) == FromConstant((r, c), n * (u * v))
  {
    var p := Product(FromConstant((r, n), u), FromConstant((n, c), v));
    forall i, j | 0 <= i < r && 0 <= j < c
      ensures p.data[i][j] == n * (u * v)
    {
      DotOfConstants(r, n, c, u, v, i, j, n);
    }
    SameCells(p, FromConstant((r, c), n * (u * v)));
  }

  /** Folding the first `k` terms of row `i` of `m` against column `j` of the
      unit matrix picks out `m[i][j]` once `k` has passed `j`. */
  lemma {:induction false} DotWithUnitRight(m: Matrix, i: nat, j: nat, k: nat)
    requires Readable(m) && i < m.rows && j < m.columns && k <= m.columns
    ensures Dot(m, Unit(m.columns), i, j, k) == if j < k then m.data[i][j] else Zero
  {
    if k > 0 {
      DotWithUnitRight(m, i, j, k - 1);
    }
  }

  /** The unit matrix is a right identity of the product. */
  lemma ProductWithUnitRight(m: Matrix)
    requires Valid(m)
    ensures Product(m, Unit(m.columns)) == m
  {
    var p := Product(m, Unit(m.columns));
    forall i, j | 0 <= i < m.rows && 0 <= j < m.columns
      ensures p.data[i][j] == m.data[i][j]
    {
      DotWithUnitRight(m, i, j, m.columns);
    }
    SameCells(p, m);
  }

  /** Folding the first `k` terms of row `i` of the unit matrix against column
      `j` of `m` picks out `m[i][j]` once `k` has passed `i`. */
  lemma {:induction false} DotWithUnitLeft(m: Matrix, i: nat, j: nat, k: nat)
    requires Readable(m) && i < m.rows && j < m.columns && k <= m.rows
    ensures Dot(Unit(m.rows), m, i, j, k) == if i < k then m.data[i][j] else Zero
  {
    if k > 0 {
      DotWithUnitLeft(m, i, j, k - 1);
    }
  }

  /** The unit matrix is a left identity of the product. */
  lemma ProductWithUnitLeft(m: Matrix)
    requires Valid(m)
    ensures Product(Unit(m.rows), m) == m
  {
    var p := Product(Unit(m.rows), m);
    forall i, j | 0 <= i < m.rows && 0 <= j < m.columns
      ensures p.data[i][j] == m.data[i][j]
    {
      DotWithUnitLeft(m, i, j, m.rows);
    }
    SameCells(p, m);
  }

  /** Every partial fold against an all-default right operand is `Zero`. */
  lemma {:induction false} DotWithDefault(m: Matrix, c: nat, i: nat, j: nat, k: nat)
    requires Readable(m) && i < m.rows && j < c && k <= m.columns
    ensures Dot(m, DefaultFromDimension((m.columns, c)), i, j, k) == Zero
  {
    if k > 0 {
      DotWithDefault(m, c, i, j, k - 1);
    }
  }

  /** Multiplying on the right by the matrix that `default_diagonal` builds
      gives the all-default matrix: it is not a unit matrix. */
  lemma ProductWithDefaultDiagonal(m: Matrix)
    requires Readable(m)
    ensures Product(m, Diagonal((m.columns, m.columns), Zero)) == DefaultFromDimension((m.rows, m.columns))
  {
    DiagonalOfDefault((m.columns, m.columns));
    var p := Product(m, DefaultFromDimension((m.columns, m.columns)));
    forall i, j | 0 <= i < m.rows && 0 <= j < m.columns
      ensures p.data[i][j] == Zero
    {
      DotWithDefault(m, m.columns, i, j, m.columns);
    }
    SameCells(p, DefaultFromDimension((m.rows, m.columns)));
  }

  /** Every partial fold with an all-default left operand is `Zero`. */
  lemma {:induction false} DotWithDefaultLeft(m: Matrix, r: nat, i: nat, j: nat, k: nat)
    requires Readable(m) && i < r && j < m.columns && k <= m.rows
    ensures Dot(DefaultFromDimension((r, m.rows)), m, i, j, k) == Zero
  {
    if k > 0 {
      DotWithDefaultLeft(m, r, i, j, k - 1);
    }
  }

  /** The matrix that `default_diagonal` builds, as a left operand, also makes
      every product the all-default matrix. */
  lemma ProductWithDefaultDiagonalLeft(m: Matrix)
    requires Readable(m)
    ensures Product(Diagonal((m.rows, m.rows), Zero), m) == DefaultFromDimension((m.rows, m.columns))
  {
    DiagonalOfDefault((m.rows, m.rows));
    var p := Product(DefaultFromDimension((m.rows, m.rows)), m);
    forall i, j | 0 <= i < m.rows && 0 <= j < m.columns
      ensures p.data[i][j] == Zero
    {
      DotWithDefaultLeft(m, m.rows, i, j, m.rows);
    }
    SameCells(p, DefaultFromDimension((m.rows, m.columns)));
  }

  /** The partial folds of `b^T * a^T` at `(j, i)` and of `a * b` at `(i, j)`
      agree term by term. */
  lemma {:induction false} DotTransposed(a: Matrix, b: Matrix, i: nat, j: nat, k: nat)
    requires Readable(a) && Readable(b) && a.columns == b.rows
    requires i < a.rows && j < b.columns && k <= a.columns
    ensures Dot(Transposed(b), Transposed(a), j, i, k) == Dot(a, b, i, j, k)
  {
    if k > 0 {
      DotTransposed(a, b, i, j, k - 1);
      assert Transposed(b).data[j][k - 1] == b.data[k - 1][j];
      assert Transposed(a).data[k - 1][i] == a.data[i][k - 1];
    }
  }

  /** `(a * b)^T == b^T * a^T`. */
  lemma TransposeOfProduct(a: Matrix, b: Matrix)
    requires Readable(a) && Readable(b) && a.columns == b.rows
    ensures Transposed(Product(a, b)) == Product(Transposed(b), Transposed(a))
  {
    var l := Transposed(Product(a, b));
    var r := Product(Transposed(b), Transposed(a));
    forall j, i | 0 <= j < b.columns && 0 <= i < a.rows
      ensures l.data[j][i] == r.data[j][i]
    {
      DotTransposed(a, b, i, j, a.columns);
    }
    SameCells(l, r);
  }
}
