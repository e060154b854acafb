/** The active cases of test/test_tvector.cpp and test/test_tmatrix.cpp,
    replayed against the model, one method per case and named after it.
    Each method builds the objects its case builds, with the same sizes, and
    asserts what the case expects; an expected exception is the Failure or
    Fail value of the corresponding operation. The one-argument vector
    constructor TVector(s) is TVector.Sized(s), or Create(s, 0) where the
    case expects it to throw. */
module Scenarios {
  import opened Errors
  import opened Vectors
  import opened Matrices

  // ---------------------------------------------------------------------
  // TVector

  method CanCreateVectorWithPositiveLength() {
    var v := TVector.Create(5, 0);
    assert v.Success?;
  }

  method CantCreateTooLargeVector() {
    var v := TVector.Create(MAX_VECTOR_SIZE + 1, 0);
    assert v == Failure(InvalidSize);
  }

  method ThrowsWhenCreateVectorWithNegativeLength() {
    var v := TVector.Create(-5, 0);
    assert v == Failure(InvalidSize);
  }

  method ThrowsWhenCreateVectorWithNegativeStartIndex() {
    var v := TVector.Create(5, -2);
    assert v == Failure(InvalidStartIndex);
  }

  method CanCreateCopiedVector() {
    var v := new TVector.Sized(10);
    var v1 := new TVector.Copy(v);
    assert v1.SameAs(v);
  }

  method CopiedVectorIsEqualToSourceOne() {
    var v := new TVector.Sized(3);
    var w := v.Set(0, 1);
    var v1 := new TVector.Copy(v);
    var same := v.Equals(v1);
    assert same;
  }

  method CopiedVectorHasItsOwnMemory() {
    var v := new TVector.Sized(5);
    var w := v.Set(0, 1);
    var v1 := new TVector.Copy(v);
    w := v.Set(1, 2);
    var a := v.Get(1);
    var b := v1.Get(1);
    assert a == Success(2) && b == Success(0);
  }

  method CanGetSize() {
    var v := new TVector.Sized(4);
    assert v.size == 4;
  }

  method CanGetStartIndex() {
    var v := new TVector(4, 2);
    assert v.startIndex == 2;
  }

  method CanSetAndGetElement() {
    var v := new TVector.Sized(4);
    var w := v.Set(0, 4);
    var r := v.Get(0);
    assert w == Pass && r == Success(4);
  }

  method ThrowsWhenSetElementWithNegativeIndex() {
    var v := new TVector.Default();
    var r := v.Get(-2);
    var w := v.Set(-2, 0);
    assert r == Failure(IndexOutOfRange) && w == Fail(IndexOutOfRange);
  }

  method ThrowsWhenSetElementWithTooLargeIndex() {
    var v := new TVector(4, 2);
    var r := v.Get(5);
    var w := v.Set(5, 0);
    assert r == Failure(IndexOutOfRange) && w == Fail(IndexOutOfRange);
  }

  method CanAssignVectorToItself() {
    var v := new TVector.Sized(2);
    var w := v.Set(0, 5);
    w := v.Set(1, 1);
    v.Assign(v);
    var a := v.Get(0);
    var b := v.Get(1);
    assert a == Success(5) && b == Success(1);
  }

  /** TVector<int> v1 = v is a copy construction. */
  method CanAssignVectorsOfEqualSize() {
    var v := new TVector.Sized(5);
    var w := v.Set(2, 5);
    w := v.Set(1, 1);
    var v1 := new TVector.Copy(v);
    var same := v.Equals(v1);
    assert same;
  }

  method AssignOperatorChangeVectorSize() {
    var v := new TVector.Sized(5);
    var six := new TVector.Sized(6);
    v.Assign(six);
    assert v.size == 6;
  }

  method CanAssignVectorsOfDifferentSize() {
    var v := new TVector.Sized(5);
    var v1 := new TVector.Sized(7);
    v1.Assign(v);
    var same := v.Equals(v1);
    assert same;
  }

  method CompareEqualVectorsReturnTrue() {
    var v1 := new TVector.Default();
    var v2 := new TVector.Default();
    v2.Assign(v1);
    var same := v1.Equals(v2);
    assert same;
  }

  method CompareVectorWithItselfReturnTrue() {
    var v := new TVector.Default();
    var same := v.Equals(v);
    assert same;
  }

  method VectorsWithDifferentSizeAreNotEqual() {
    var v1 := new TVector(5, 1);
    var v2 := new TVector(2, 1);
    var same := v1.Equals(v2);
    assert !same;
  }

  /** The vector [a, b, c] of size 3. */
  method Triple(a: int, b: int, c: int) returns (v: TVector)
    ensures fresh(v) && fresh(v.data) && v.Valid()
    ensures v.size == 3 && v.startIndex == 0 && v.Elements() == [a, b, c]
  {
    v := new TVector.Sized(3);
    var w := v.Set(0, a);
    w := v.Set(1, b);
    w := v.Set(2, c);
  }

  /** The vector [a, b] of size 2. */
  method Pair(a: int, b: int) returns (v: TVector)
    ensures fresh(v) && fresh(v.data) && v.Valid()
    ensures v.size == 2 && v.startIndex == 0 && v.Elements() == [a, b]
  {
    v := new TVector.Sized(2);
    var w := v.Set(0, a);
    w := v.Set(1, b);
  }

  method CanAddScalarToVector() {
    var v := Triple(1, 2, 3);
    var v1 := new TVector.Sized(3);
    var plus := v.AddScalarTo(1);
    v1.Assign(plus);
    var v2 := Triple(2, 3, 4);
    assert v1.Elements() == [2, 3, 4];
    var same := v2.Equals(v1);
    assert same;
  }

  method CanSubtractScalarFromVector() {
    var v := Triple(1, 2, 3);
    var v1 := new TVector.Sized(3);
    var minus := v.SubScalarFrom(1);
    v1.Assign(minus);
    var v2 := Triple(0, 1, 2);
    assert v1.Elements() == [0, 1, 2];
    var same := v2.Equals(v1);
    assert same;
  }

  method CanMultiplyScalarByVector() {
    var v := Triple(1, 2, 3);
    var v1 := new TVector.Sized(3);
    var times := v.MulScalarBy(2);
    v1.Assign(times);
    var v2 := Triple(2, 4, 6);
    assert v1.Elements() == [2, 4, 6];
    var same := v2.Equals(v1);
    assert same;
  }

  method CanAddVectorsWithEqualSize() {
    var v := Triple(1, 2, 3);
    var v1 := Triple(4, 5, 6);
    var res := Triple(5, 7, 9);
    var sum := v.Add(v1);
    assert sum.Success? && sum.value.Elements() == [5, 7, 9];
    var same := res.Equals(sum.value);
    assert same;
  }

  method CantAddVectorsWithNotEqualSize() {
    var v := new TVector.Sized(2);
    var v1 := new TVector.Sized(3);
    var sum := v.Add(v1);
    assert sum == Failure(SizeMismatch);
  }

  method CanSubtractVectorsWithEqualSize() {
    var v := Triple(1, 2, 3);
    var v1 := Triple(4, 5, 6);
    var res := Triple(3, 3, 3);
    var diff := v1.Sub(v);
    assert diff.Success? && diff.value.Elements() == [3, 3, 3];
    var same := res.Equals(diff.value);
    assert same;
  }

  method CantSubtractVectorsWithNotEqualSize() {
    var v := new TVector.Sized(2);
    var v1 := new TVector.Sized(3);
    var diff := v.Sub(v1);
    assert diff == Failure(SizeMismatch);
  }

  method CanMultiplyVectorsWithEqualSize() {
    var v := Pair(1, 2);
    var v1 := Pair(3, 4);
    var dot := v1.Dot(v);
    assert DotProduct([3, 4], [1, 2]) == 11 by {
      assert [3, 4][..1] == [3] && [1, 2][..1] == [1];
      assert [3][..0] == [] && [1][..0] == [];
    }
    assert dot == Success(11);
  }

  method CantMultiplyVectorsWithNotEqualSize() {
    var v := new TVector.Sized(2);
    var v1 := new TVector.Sized(3);
    var dot := v.Dot(v1);
    assert dot == Failure(SizeMismatch);
  }

  // ---------------------------------------------------------------------
  // TMatrix

  method CanCreateMatrixWithPositiveLength() {
    var m := TMatrix.Create(5);
    assert m.Success?;
  }

  method CantCreateTooLargeMatrix() {
    var m := TMatrix.Create(MAX_MATRIX_SIZE + 1);
    assert m == Failure(InvalidSize);
  }

  method ThrowsWhenCreateMatrixWithNegativeLength() {
    var m := TMatrix.Create(-5);
    assert m == Failure(InvalidSize);
  }

  method CanCreateCopiedMatrix() {
    var m := new TMatrix(5);
    var m1 := new TMatrix.Copy(m);
    assert m1.size == 5 && m1.Contents == m.Contents;
  }

  method CopiedMatrixIsEqualToSourceOne() {
    var m := new TMatrix(3);
    var w := m.Set(0, 0, 1);
    var m1 := new TMatrix.Copy(m);
    var same := m.Equals(m1);
    assert same;
  }

  /** A dimension-n matrix with entry (0, 0) set to x. */
  method OriginSet(n: int, x: int) returns (m: TMatrix)
    requires 1 <= n <= MAX_MATRIX_SIZE
    ensures fresh(m.Repr) && m.Valid() && m.size == n && At(m.Contents, 0, 0) == x
  {
    m := new TMatrix(n);
    var w := m.Set(0, 0, x);
  }

  method CopiedMatrixHasItsOwnMemory() {
    var m := OriginSet(5, 1);
    var m1 := new TMatrix.Copy(m);
    var w := m.Set(0, 0, 2);
    var a := m.Get(0, 0);
    var b := m1.Get(0, 0);
    assert a == Success(2) && b == Success(1);
  }

  method CanGetMatrixSize() {
    var m := new TMatrix(4);
    assert m.size == 4;
  }

  method CanSetAndGetMatrixElement() {
    var m := new TMatrix(4);
    var w := m.Set(0, 1, 4);
    var r := m.Get(0, 1);
    assert w == Pass && r == Success(4);
  }

  /** m[-2][1] throws at the row index. */
  method ThrowsWhenSetMatrixElementWithNegativeIndex() {
    var m := new TMatrix(4);
    var row := m.Row(-2);
    var r := m.Get(-2, 1);
    var w := m.Set(-2, 1, 0);
    assert row == Failure(IndexOutOfRange);
    assert r == Failure(IndexOutOfRange) && w == Fail(IndexOutOfRange);
  }

  /** v[5][1] throws at the row index. */
  method ThrowsWhenSetMatrixElementWithTooLargeIndex() {
    var v := new TMatrix(4);
    var row := v.Row(5);
    var r := v.Get(5, 1);
    var w := v.Set(5, 1, 0);
    assert row == Failure(IndexOutOfRange);
    assert r == Failure(IndexOutOfRange) && w == Fail(IndexOutOfRange);
  }

  /** Writes a and b into the first row of a zero dimension-2 matrix. */
  method FillFirstRow(m: TMatrix, a: int, b: int)
    requires m.Valid() && m.size == 2 && m.Contents == [[0, 0], [0]]
    modifies m.Repr
    ensures m.Valid() && m.Repr == old(m.Repr) && m.size == 2
    ensures m.Contents == [[a, b], [0]]
  {
    var w := m.Set(0, 0, a);
    assert [0, 0][0 := a] == [a, 0];
    w := m.Set(0, 1, b);
    assert [a, 0][1 := b] == [a, b];
  }

  /** The dimension-2 matrix with entries (0,0), (0,1), (1,1) set to a, b, c. */
  method TwoByTwo(a: int, b: int, c: int) returns (m: TMatrix)
    ensures fresh(m.Repr) && m.Valid()
    ensures m.size == 2 && m.Contents == [[a, b], [c]]
  {
    m := new TMatrix(2);
    assert ZeroMatrix(2) == [[0, 0], [0]] by {
      assert Zeros(2) == [0, 0] && Zeros(1) == [0];
    }
    FillFirstRow(m, a, b);
    var w := m.Set(1, 1, c);
    assert [0][0 := c] == [c];
  }

  /** A dimension-n matrix with entries (0,0), (0,1), (1,1) set to 1, 2, 3. */
  method OneTwoThreeMatrix(n: int) returns (m: TMatrix)
    requires 2 <= n <= MAX_MATRIX_SIZE
    ensures fresh(m.Repr) && m.Valid() && m.size == n
    ensures At(m.Contents, 0, 0) == 1 && At(m.Contents, 0, 1) == 2 && At(m.Contents, 1, 1) == 3
  {
    m := new TMatrix(n);
    var w := m.Set(0, 0, 1);
    w := m.Set(0, 1, 2);
    assert At(m.Contents, 0, 0) == 1;
    w := m.Set(1, 1, 3);
  }

  method CanAssignMatrixToItself() {
    var m := TwoByTwo(1, 2, 3);
    m.Assign(m);
    var a := m.Get(0, 0);
    var b := m.Get(0, 1);
    var c := m.Get(1, 1);
    assert a == Success(1) && b == Success(2) && c == Success(3);
  }

  method CanAssignMatricesOfEqualSize() {
    var m := OneTwoThreeMatrix(5);
    var m1 := new TMatrix(5);
    m1.Assign(m);
    var same := m.Equals(m1);
    assert same;
  }

  method AssignOperatorChangeMatrixSize() {
    var m := new TMatrix(5);
    var six := new TMatrix(6);
    m.Assign(six);
    assert m.size == 6;
  }

  method CanAssignMatricesOfDifferentSize() {
    var m := OneTwoThreeMatrix(5);
    var m1 := new TMatrix(7);
    m1.Assign(m);
    var same := m.Equals(m1);
    assert same;
  }

  method CompareEqualMatricesReturnTrue() {
    var m1 := TwoByTwo(1, 2, 3);
    var m2 := new TMatrix(2);
    m2.Assign(m1);
    var same := m1.Equals(m2);
    assert same;
  }

  method CompareMatrixWithItselfReturnTrue() {
    var m := TwoByTwo(1, 2, 3);
    var same := m.Equals(m);
    assert same;
  }

  method MatricesWithDifferentSizeAreNotEqual() {
    var m1 := new TMatrix(5);
    var m2 := new TMatrix(2);
    var same := m1.Equals(m2);
    assert !same;
  }

  /** [[1,2],[·,3]] + [[3,4],[·,5]] = [[4,6],[·,8]] */
  lemma SumOfExample()
    ensures MatAdd([[1, 2], [3]], [[3, 4], [5]]) == [[4, 6], [8]]
  {
    assert AddElems([1, 2], [3, 4]) == [4, 6] && AddElems([3], [5]) == [8];
  }

  /** [[3,4],[·,5]] - [[1,2],[·,3]] = [[2,2],[·,2]] */
  lemma DifferenceOfExample()
    ensures MatSub([[3, 4], [5]], [[1, 2], [3]]) == [[2, 2], [2]]
  {
    assert SubElems([3, 4], [1, 2]) == [2, 2] && SubElems([5], [3]) == [2];
  }

  /** [[1,2],[·,3]] * [[3,4],[·,5]] = [[3,14],[·,15]] */
  lemma ProductOfExample()
    ensures Product([[1, 2], [3]], [[3, 4], [5]]) == [[3, 14], [15]]
  {
    var A, B := [[1, 2], [3]], [[3, 4], [5]];
    var P := Product(A, B);
    assert At(A, 0, 0) == 1 && At(A, 0, 1) == 2 && At(A, 1, 1) == 3;
    assert At(B, 0, 0) == 3 && At(B, 0, 1) == 4 && At(B, 1, 1) == 5;
    assert P[0][0] == ProductSum(A, B, 0, 0, 0, 1) == 1 * 3;
    assert P[0][1] == ProductSum(A, B, 0, 1, 0, 2) == 1 * 4 + 2 * 5;
    assert P[1][0] == ProductSum(A, B, 1, 1, 1, 2) == 3 * 5;
    assert P[0] == [3, 14] && P[1] == [15];
  }

  method CanAddMatricesWithEqualSize() {
    var m := TwoByTwo(1, 2, 3);
    var m1 := TwoByTwo(3, 4, 5);
    var res := TwoByTwo(4, 6, 8);
    var sum := m.Add(m1);
    SumOfExample();
    var same := res.Equals(sum.value);
    assert same;
  }

  method CantAddMatricesWithNotEqualSize() {
    var m := new TMatrix(2);
    var m1 := new TMatrix(3);
    var sum := m.Add(m1);
    assert sum == Failure(SizeMismatch);
  }

  method CanSubtractMatricesWithEqualSize() {
    var m := TwoByTwo(1, 2, 3);
    var m1 := TwoByTwo(3, 4, 5);
    var res := TwoByTwo(2, 2, 2);
    var diff := m1.Sub(m);
    DifferenceOfExample();
    var same := res.Equals(diff.value);
    assert same;
  }

  method CantSubtractMatricesWithNotEqualSize() {
    var m := new TMatrix(2);
    var m1 := new TMatrix(3);
    var diff := m.Sub(m1);
    assert diff == Failure(SizeMismatch);
  }

  method CanMultiplyMatricesWithEqualSize() {
    var m := TwoByTwo(1, 2, 3);
    var m1 := TwoByTwo(3, 4, 5);
    var res := TwoByTwo(3, 14, 15);
    var product := m.Mul(m1);
    ProductOfExample();
    var same := res.Equals(product.value);
    assert same;
  }

  method CantMultiplyMatricesWithNotEqualSize() {
    var m := new TMatrix(2);
    var m1 := new TMatrix(3);
    var product := m.Mul(m1);
    assert product == Failure(SizeMismatch);
  }
}
