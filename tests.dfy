/**
 * The library's unit tests, stated as lemmas about the specification
 * functions of the operators they exercise.
 */
module MatrixTests {
  import opened MatrixOperations
  import MatrixLaws

  /** Two 3 × 3 matrices of ones add up to the 3 × 3 matrix of twos. */
  lemma Addition()
    ensures Sum(FromConstant((3, 3), 1), FromConstant((3, 3), 1)) == FromConstant((3, 3), 2)
  {
    MatrixLaws.SumOfConstants((3, 3), 1, 1);
  }

  /** The 5 × 5 matrix of tens times the 5 × 5 matrix of ones is the 5 × 5
      matrix of fifties. */
  lemma Multiplication()
    ensures Product(FromConstant((5, 5), 10), FromConstant((5, 5), 1)) == FromConstant((5, 5), 50)
  {
    MatrixLaws.ProductOfConstants(5, 5, 5, 10, 1);
  }

  /** The 3 × 3 matrix of ones minus itself is the 3 × 3 all-default matrix. */
  lemma Subtraction()
    ensures Difference(FromConstant((3, 3), 1), FromConstant((3, 3), 1)) == DefaultFromDimension((3, 3))
  {
    MatrixLaws.DifferenceWithItself(FromConstant((3, 3), 1));
  }

  /** The 5 × 5 matrix of tens times the diagonal matrix of ones is unchanged
      (the library states this for 32-bit floats; here for integers). */
  lemma DiagonalMatrixInitialization()
    ensures Product(FromConstant((5, 5), 10), Diagonal((5, 5), 1)) == FromConstant((5, 5), 10)
  {
    MatrixLaws.ProductWithUnitRight(FromConstant((5, 5), 10));
  }

  /** The matrix `default_diagonal` builds is no unit: a 1 × 1 matrix of one
      times it is not the matrix itself. */
  lemma DefaultDiagonalIsNoUnit()
    ensures Product(FromConstant((1, 1), 1), Diagonal((1, 1), Zero)) != FromConstant((1, 1), 1)
  {
    MatrixLaws.ProductWithDefaultDiagonal(FromConstant((1, 1), 1));
    assert DefaultFromDimension((1, 1)).data[0][0] != FromConstant((1, 1), 1).data[0][0];
  }

  /** With no rows on the left, `*` reads no cell of the right operand, which
      may then be ragged; the product is the empty 0 × 2 matrix. */
  lemma RaggedRightOperandOfEmptyProduct()
    ensures Product(FromConstant((0, 2), 1), FromData([[1, 2], [3]])) == DefaultFromDimension((0, 2))
  {
  }

  /** With no columns on the right, `*` reads no cell of the left operand, which
      may then be ragged; the product is the 2 × 0 matrix of empty rows. */
  lemma RaggedLeftOperandOfEmptyProduct()
    ensures Product(FromData([[1, 2], [3]]), FromConstant((2, 0), 1)) == DefaultFromDimension((2, 0))
  {
  }
}
