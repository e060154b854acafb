/** TMatrix: a square upper-triangular integer matrix stored as rows of
    TVector. Row i of a dimension-n matrix is the vector built (n, i): it
    addresses the columns i..n-1 and stores the n - i entries
    (i, i), (i, i+1), ..., (i, n-1). Entries below the diagonal are not
    stored and cannot be addressed. */
module Matrices {
  import opened Errors
  import opened Vectors

  /** Dimension limit of a matrix. The header that fixes it is not part of
      this model; the value is a placeholder, chosen no larger than
      MAX_VECTOR_SIZE so that every row of an accepted matrix is an accepted
      vector. */
  const MAX_MATRIX_SIZE: int := 10000

  // ---------------------------------------------------------------------
  // Matrices as values: row i of a dimension-n value holds n - i entries.

  ghost predicate Triangular(M: seq<seq<int>>) {
    forall i :: 0 <= i < |M| ==> |M[i]| == |M| - i
  }

  /** Entry (i, j) of the square matrix a triangular value stands for:
      the stored entry on and above the diagonal, zero elsewhere. */
  function At(M: seq<seq<int>>, i: int, j: int): int {
    if 0 <= i < |M| && i <= j && j - i < |M[i]| then M[i][j - i] else 0
  }

  function ZeroMatrix(n: nat): seq<seq<int>> {
    seq(n, i requires 0 <= i < n => Zeros(n - i))
  }

  function Identity(n: nat): seq<seq<int>> {
    seq(n, i requires 0 <= i < n => seq(n - i, d => if d == 0 then 1 else 0))
  }

  function MatAdd(A: seq<seq<int>>, B: seq<seq<int>>): seq<seq<int>>
    requires |A| == |B| && Triangular(A) && Triangular(B)
  {
    seq(|A|, i requires 0 <= i < |A| => AddElems(A[i], B[i]))
  }

  function MatSub(A: seq<seq<int>>, B: seq<seq<int>>): seq<seq<int>>
    requires |A| == |B| && Triangular(A) && Triangular(B)
  {
    seq(|A|, i requires 0 <= i < |A| => SubElems(A[i], B[i]))
  }

  /** The k-th term of entry (i, j) of the product A * B. */
  function Term(A: seq<seq<int>>, B: seq<seq<int>>, i: int, j: int, k: int): int {
    At(A, i, k) * At(B, k, j)
  }

  /** Term(A, B, i, j, k) summed over lo <= k < hi. */
  function ProductSum(A: seq<seq<int>>, B: seq<seq<int>>, i: int, j: int, lo: int, hi: int): int
    decreases hi - lo
  {
    if hi <= lo then 0 else ProductSum(A, B, i, j, lo, hi - 1) + Term(A, B, i, j, hi - 1)
  }

  /** The product as the triangular storage computes it: entry (i, j), for
      i <= j, sums over i <= k <= j only. */
  function Product(A: seq<seq<int>>, B: seq<seq<int>>): seq<seq<int>>
    requires |A| == |B|
  {
    var n := |A|;
    seq(n, i requires 0 <= i < n =>
      seq(n - i, d requires 0 <= d < n - i => ProductSum(A, B, i, i + d, i, i + d + 1)))
  }

  // ---------------------------------------------------------------------
  // Laws of the value operations.

  lemma {:induction false} SumSplit(A: seq<seq<int>>, B: seq<seq<int>>, i: int, j: int, lo: int, mid: int, hi: int)
    requires lo <= mid <= hi
    ensures ProductSum(A, B, i, j, lo, hi) == ProductSum(A, B, i, j, lo, mid) + ProductSum(A, B, i, j, mid, hi)
    decreases hi - mid
  {
    if hi > mid {
      SumSplit(A, B, i, j, lo, mid, hi - 1);
    }
  }

  lemma {:induction false} SumOfZeros(A: seq<seq<int>>, B: seq<seq<int>>, i: int, j: int, lo: int, hi: int)
    requires forall k :: lo <= k < hi ==> Term(A, B, i, j, k) == 0
    ensures ProductSum(A, B, i, j, lo, hi) == 0
    decreases hi - lo
  {
    if hi > lo {
      SumOfZeros(A, B, i, j, lo, hi - 1);
    }
  }

  /** Restricting the sum to i <= k <= j loses nothing: every other term of
      the full sum over 0 <= k < n has a factor below the diagonal. For
      j < i the restricted range is empty and the full sum is zero. */
  lemma {:induction false} RestrictedSumIsFullSum(A: seq<seq<int>>, B: seq<seq<int>>, i: int, j: int)
    requires |A| == |B|
    requires 0 <= i < |A| && 0 <= j < |A|
    ensures ProductSum(A, B, i, j, i, j + 1) == ProductSum(A, B, i, j, 0, |A|)
  {
    var n := |A|;
    if i <= j {
      SumSplit(A, B, i, j, 0, i, n);
      SumSplit(A, B, i, j, i, j + 1, n);
      SumOfZeros(A, B, i, j, 0, i);
      SumOfZeros(A, B, i, j, j + 1, n);
    } else {
      SumOfZeros(A, B, i, j, 0, n);
    }
  }

  /** The triangular product is the ordinary matrix product of the square
      matrices the two operands stand for: every entry, on, above and below
      the diagonal, is the full sum over 0 <= k < n. */
  lemma {:induction false} ProductIsSquareProduct(A: seq<seq<int>>, B: seq<seq<int>>, i: int, j: int)
    requires |A| == |B|
    requires 0 <= i < |A| && 0 <= j < |A|
    ensures At(Product(A, B), i, j) == ProductSum(A, B, i, j, 0, |A|)
  {
    RestrictedSumIsFullSum(A, B, i, j);
  }

  /** The identity matrix has ones on the diagonal and zeros elsewhere. */
  lemma IdentityAt(n: nat, i: int, k: int)
    ensures At(Identity(n), i, k) == if 0 <= i < n && i == k then 1 else 0
  {
  }

  /** A left factor whose row i is the i-th unit row leaves entry (i, j) of
      the right factor unchanged: only the term k = i survives. */
  lemma {:induction false} LeftUnitRowSum(I: seq<seq<int>>, B: seq<seq<int>>, i: int, j: int)
    requires i <= j && At(I, i, i) == 1
    requires forall k :: i < k <= j ==> At(I, i, k) == 0
    ensures ProductSum(I, B, i, j, i, j + 1) == At(B, i, j)
  {
    SumSplit(I, B, i, j, i, i + 1, j + 1);
    forall k | i + 1 <= k < j + 1
      ensures Term(I, B, i, j, k) == 0
    {
    }
    SumOfZeros(I, B, i, j, i + 1, j + 1);
  }

  /** Entry (i, i + d) of I * B is entry (i, i + d) of B. */
  lemma {:induction false} IdentityLeftEntry(B: seq<seq<int>>, i: int, d: int)
    requires Triangular(B) && 0 <= i < |B| && 0 <= d < |B| - i
    ensures ProductSum(Identity(|B|), B, i, i + d, i, i + d + 1) == B[i][d]
  {
    var I, j := Identity(|B|), i + d;
    forall k | i < k <= j
      ensures At(I, i, k) == 0
    {
      IdentityAt(|B|, i, k);
    }
    IdentityAt(|B|, i, i);
    LeftUnitRowSum(I, B, i, j);
  }

  /** The identity matrix is a left unit of the product. */
  lemma IdentityLeftUnit(B: seq<seq<int>>)
    requires Triangular(B)
    ensures Product(Identity(|B|), B) == B
  {
    var n := |B|;
    forall i | 0 <= i < n
      ensures Product(Identity(n), B)[i] == B[i]
    {
      forall d | 0 <= d < n - i
        ensures Product(Identity(n), B)[i][d] == B[i][d]
      {
        IdentityLeftEntry(B, i, d);
      }
    }
  }

  /** A right factor whose column j is the j-th unit column leaves entry
      (i, j) of the left factor unchanged: only the term k = j survives. */
  lemma {:induction false} RightUnitColumnSum(A: seq<seq<int>>, I: seq<seq<int>>, i: int, j: int)
    requires i <= j && At(I, j, j) == 1
    requires forall k :: i <= k < j ==> At(I, k, j) == 0
    ensures ProductSum(A, I, i, j, i, j + 1) == At(A, i, j)
  {
    forall k | i <= k < j
      ensures Term(A, I, i, j, k) == 0
    {
    }
    SumOfZeros(A, I, i, j, i, j);
  }

  /** Entry (i, i + d) of A * I is entry (i, i + d) of A. */
  lemma {:induction false} IdentityRightEntry(A: seq<seq<int>>, i: int, d: int)
    requires Triangular(A) && 0 <= i < |A| && 0 <= d < |A| - i
    ensures ProductSum(A, Identity(|A|), i, i + d, i, i + d + 1) == A[i][d]
  {
    var I, j := Identity(|A|), i + d;
    forall k | i <= k < j
      ensures At(I, k, j) == 0
    {
      IdentityAt(|A|, k, j);
    }
    IdentityAt(|A|, j, j);
    RightUnitColumnSum(A, I, i, j);
  }

  /** The identity matrix is a right unit of the product. */
  lemma IdentityRightUnit(A: seq<seq<int>>)
    requires Triangular(A)
    ensures Product(A, Identity(|A|)) == A
  {
    var n := |A|;
    forall i | 0 <= i < n
      ensures Product(A, Identity(n))[i] == A[i]
    {
      forall d | 0 <= d < n - i
        ensures Product(A, Identity(n))[i][d] == A[i][d]
      {
        IdentityRightEntry(A, i, d);
      }
    }
  }

  /** Subtracting the matrix that was added gives the first operand back. */
  lemma MatAddSubInverse(A: seq<seq<int>>, B: seq<seq<int>>)
    requires |A| == |B| && Triangular(A) && Triangular(B)
    ensures Triangular(MatAdd(A, B))
    ensures MatSub(MatAdd(A, B), B) == A
  {
    forall i | 0 <= i < |A|
      ensures MatSub(MatAdd(A, B), B)[i] == A[i]
    {
      AddSubInverse(A[i], B[i]);
    }
  }

  /** Addition acts entry by entry on the square matrices the operands
      stand for. */
  lemma MatAddEntrywise(A: seq<seq<int>>, B: seq<seq<int>>, i: int, j: int)
    requires |A| == |B| && Triangular(A) && Triangular(B)
    ensures At(MatAdd(A, B), i, j) == At(A, i, j) + At(B, i, j)
  {
  }

  /** Subtraction acts entry by entry on the square matrices the operands
      stand for. */
  lemma MatSubEntrywise(A: seq<seq<int>>, B: seq<seq<int>>, i: int, j: int)
    requires |A| == |B| && Triangular(A) && Triangular(B)
    ensures At(MatSub(A, B), i, j) == At(A, i, j) - At(B, i, j)
  {
  }

  // ---------------------------------------------------------------------
  // The object.

  /** rs are the first |rs| rows of a dimension-n matrix whose stored
      entries are cs. Row k stores n - k entries, so no two rows can share
      their storage (RowStorageIsDistinct). */
  ghost predicate RowsOf(rs: seq<TVector>, n: int, cs: seq<seq<int>>)
    reads rs, set r | r in rs :: r.data
  {
    |rs| == |cs| <= n &&
    forall k :: 0 <= k < |rs| ==>
      rs[k].Valid() && rs[k].size == n && rs[k].startIndex == k && rs[k].Elements() == cs[k]
  }

  /** Two different rows never share storage: their lengths differ. */
  lemma RowStorageIsDistinct(rs: seq<TVector>, n: int, cs: seq<seq<int>>, k: int, m: int)
    requires RowsOf(rs, n, cs) && 0 <= k < |rs| && 0 <= m < |rs| && k != m
    ensures rs[k] != rs[m] && rs[k].data != rs[m].data
  {
  }

  /** Appending a row built (n, |rs|) extends the rows of a dimension-n
      matrix by one. */
  lemma RowsOfAppend(rs: seq<TVector>, n: int, cs: seq<seq<int>>, row: TVector)
    requires RowsOf(rs, n, cs) && |rs| < n
    requires row.Valid() && row.size == n && row.startIndex == |rs|
    ensures RowsOf(rs + [row], n, cs + [row.Elements()])
  {
  }

  class TMatrix {
    var size: int
    var rows: seq<TVector>
    ghost var Contents: seq<seq<int>>  // Contents[i][d] is entry (i, i + d)
    ghost var Repr: set<object>

    ghost predicate Valid()
      reads this, Repr
      ensures Valid() ==> this in Repr && |Contents| == size && Triangular(Contents)
    {
      this in Repr &&
      0 <= size <= MAX_MATRIX_SIZE && |rows| == size &&
      (forall k :: 0 <= k < size ==> rows[k] in Repr && rows[k].data in Repr) &&
      RowsOf(rows, size, Contents)
    }

    /** Whether entry (i, j) is addressable: the row index is in range and
        the column is on or above the diagonal. */
    predicate InRange(i: int, j: int)
      reads this
    {
      0 <= i <= j < size
    }

    /** TMatrix(s), for dimensions the constructor accepts: row i is a fresh
        zero vector built (s, i). */
    constructor (s: int)
      requires 0 <= s <= MAX_MATRIX_SIZE
      ensures Valid() && fresh(Repr)
      ensures size == s && Contents == ZeroMatrix(s)
    {
      var rs, objs := ZeroRows(s);
      size, rows, Contents := s, rs, ZeroMatrix(s);
      new;
      Repr := {this} + objs;
    }

    /** Fresh zero rows of a dimension-s matrix: row i is built (s, i). */
    static method ZeroRows(s: int) returns (rs: seq<TVector>, ghost objs: set<object>)
      requires 0 <= s <= MAX_MATRIX_SIZE
      ensures |rs| == s && RowsOf(rs, s, ZeroMatrix(s))
      ensures fresh(objs) && forall k :: 0 <= k < |rs| ==> rs[k] in objs && rs[k].data in objs
    {
      rs, objs := [], {};
      ghost var cs: seq<seq<int>> := [];
      for i := 0 to s
        invariant |rs| == i && RowsOf(rs, s, cs) && cs == ZeroMatrix(s)[..i]
        invariant fresh(objs) && forall k :: 0 <= k < i ==> rs[k] in objs && rs[k].data in objs
      {
        var row := new TVector(s, i);
        RowsOfAppend(rs, s, cs, row);
        rs, cs, objs := rs + [row], cs + [row.Elements()], objs + {row, row.data};
      }
      assert cs == ZeroMatrix(s);
    }

    /** Deep copies of the rows of m. */
    static method CopyRows(m: TMatrix) returns (rs: seq<TVector>, ghost objs: set<object>)
      requires m.Valid()
      ensures |rs| == m.size && RowsOf(rs, m.size, m.Contents)
      ensures fresh(objs) && forall k :: 0 <= k < |rs| ==> rs[k] in objs && rs[k].data in objs
    {
      rs, objs := [], {};
      ghost var cs: seq<seq<int>> := [];
      for i := 0 to m.size
        invariant |rs| == i && RowsOf(rs, m.size, cs) && cs == m.Contents[..i]
        invariant fresh(objs) && forall k :: 0 <= k < i ==> rs[k] in objs && rs[k].data in objs
      {
        var row := new TVector.Copy(m.rows[i]);
        RowsOfAppend(rs, m.size, cs, row);
        rs, cs, objs := rs + [row], cs + [row.Elements()], objs + {row, row.data};
      }
      assert cs == m.Contents;
    }

    /** The matrix whose rows are rs. */
    constructor FromRows(rs: seq<TVector>, ghost cs: seq<seq<int>>, ghost objs: set<object>)
      requires |rs| <= MAX_MATRIX_SIZE && RowsOf(rs, |rs|, cs)
      requires forall k :: 0 <= k < |rs| ==> rs[k] in objs && rs[k].data in objs
      ensures Valid() && Repr == {this} + objs
      ensures size == |rs| && rows == rs && Contents == cs
    {
      size, rows, Contents := |rs|, rs, cs;
      new;
      Repr := {this} + objs;
    }

    /** The checked construction TMatrix(s): a dimension below zero or above
        the limit is InvalidSize. */
    static method Create(s: int) returns (r: Result<TMatrix>)
      ensures (s < 0 || s > MAX_MATRIX_SIZE) ==> r == Failure(InvalidSize)
      ensures 0 <= s <= MAX_MATRIX_SIZE ==>
                r.Success? && fresh(r.value.Repr) && r.value.Valid() &&
                r.value.size == s && r.value.Contents == ZeroMatrix(s)
    {
      if s < 0 || s > MAX_MATRIX_SIZE {
        return Failure(InvalidSize);
      }
      var m := new TMatrix(s);
      return Success(m);
    }

    /** The copy constructor: the same entries, row by row in storage of
        its own. */
    constructor Copy(m: TMatrix)
      requires m.Valid()
      ensures Valid() && fresh(Repr)
      ensures size == m.size && Contents == m.Contents
    {
      var rs, objs := CopyRows(m);
      size, rows, Contents := m.size, rs, m.Contents;
      new;
      Repr := {this} + objs;
    }

    /** m[i]: a reference to row i; a row index outside 0..size-1 is
        IndexOutOfRange. */
    method Row(i: int) returns (r: Result<TVector>)
      requires Valid()
      ensures r.Success? <==> 0 <= i < size
      ensures r.Failure? ==> r.error == IndexOutOfRange
      ensures r.Success? ==>
                r.value == rows[i] && r.value.Valid() &&
                r.value.size == size && r.value.startIndex == i && r.value.Elements() == Contents[i]
    {
      if i < 0 || i >= size {
        return Failure(IndexOutOfRange);
      }
      return Success(rows[i]);
    }

    /** Reading m[i][j]: the row index is checked by the matrix, the column
        by the row, so (i, j) must satisfy 0 <= i <= j < size. */
    method Get(i: int, j: int) returns (r: Result<int>)
      requires Valid()
      ensures r.Success? <==> InRange(i, j)
      ensures r.Failure? ==> r.error == IndexOutOfRange
      ensures r.Success? ==> r.value == At(Contents, i, j)
    {
      if i < 0 || i >= size {
        return Failure(IndexOutOfRange);
      }
      r := rows[i].Get(j);
    }

    /** Writing m[i][j] = x: the same two checks as reading; on success only
        entry (i, j) changes. */
    method Set(i: int, j: int, x: int) returns (r: Outcome)
      requires Valid()
      modifies Repr
      ensures Valid() && Repr == old(Repr) && size == old(size)
      ensures r == if InRange(i, j) then Pass else Fail(IndexOutOfRange)
      ensures Contents == if InRange(i, j) then old(Contents)[i := old(Contents)[i][j - i := x]]
                          else old(Contents)
    {
      if i < 0 || i >= size {
        return Fail(IndexOutOfRange);
      }
      var row := rows[i];
      r := row.Set(j, x);
      Contents := Contents[i := row.Elements()];
    }

    /** m == other: the same dimension and the same entries. */
    method Equals(other: TMatrix) returns (b: bool)
      requires Valid() && other.Valid()
      ensures b <==> size == other.size && Contents == other.Contents
    {
      if size != other.size {
        return false;
      }
      for i := 0 to size
        invariant Contents[..i] == other.Contents[..i]
      {
        var same := rows[i].Equals(other.rows[i]);
        if !same {
          assert Contents[i] != other.Contents[i];
          return false;
        }
        assert Contents[..i + 1] == Contents[..i] + [Contents[i]];
        assert other.Contents[..i + 1] == other.Contents[..i] + [other.Contents[i]];
      }
      assert Contents == Contents[..size];
      assert other.Contents == other.Contents[..size];
      return true;
    }

    /** m = src. Assigning a matrix to itself changes nothing; otherwise the
        dimension and the rows are replaced by deep copies of src's. */
    method Assign(src: TMatrix)
      requires Valid() && src.Valid()
      modifies this
      ensures Valid()
      ensures size == old(src.size) && Contents == old(src.Contents)
      ensures src == this ==> Repr == old(Repr)
      ensures src != this ==> fresh(Repr - {this})
    {
      if src == this {
        return;
      }
      var rs, objs := CopyRows(src);
      size, rows, Contents, Repr := src.size, rs, src.Contents, {this} + objs;
    }

    /** Row-wise sums of m and other, each in fresh storage. */
    static method SumRows(m: TMatrix, other: TMatrix) returns (rs: seq<TVector>, ghost objs: set<object>)
      requires m.Valid() && other.Valid() && m.size == other.size
      ensures |rs| == m.size && RowsOf(rs, m.size, MatAdd(m.Contents, other.Contents))
      ensures fresh(objs) && forall k :: 0 <= k < |rs| ==> rs[k] in objs && rs[k].data in objs
    {
      rs, objs := [], {};
      ghost var cs: seq<seq<int>> := [];
      for i := 0 to m.size
        invariant |rs| == i && RowsOf(rs, m.size, cs) && cs == MatAdd(m.Contents, other.Contents)[..i]
        invariant fresh(objs) && forall k :: 0 <= k < i ==> rs[k] in objs && rs[k].data in objs
      {
        var sum := m.rows[i].Add(other.rows[i]);
        var row := sum.value;
        RowsOfAppend(rs, m.size, cs, row);
        rs, cs, objs := rs + [row], cs + [row.Elements()], objs + {row, row.data};
      }
      assert cs == MatAdd(m.Contents, other.Contents);
    }

    /** m + other, row by row; matrices of different dimension are a
        SizeMismatch. */
    method Add(other: TMatrix) returns (r: Result<TMatrix>)
      requires Valid() && other.Valid()
      ensures size != other.size ==> r == Failure(SizeMismatch)
      ensures size == other.size ==>
                r.Success? && fresh(r.value.Repr) && r.value.Valid() &&
                r.value.size == size && r.value.Contents == MatAdd(Contents, other.Contents)
    {
      if size != other.size {
        return Failure(SizeMismatch);
      }
      var rs, objs := SumRows(this, other);
      var res := new TMatrix.FromRows(rs, MatAdd(Contents, other.Contents), objs);
      return Success(res);
    }

    /** Row-wise differences of m and other, each in fresh storage. */
    static method DifferenceRows(m: TMatrix, other: TMatrix) returns (rs: seq<TVector>, ghost objs: set<object>)
      requires m.Valid() && other.Valid() && m.size == other.size
      ensures |rs| == m.size && RowsOf(rs, m.size, MatSub(m.Contents, other.Contents))
      ensures fresh(objs) && forall k :: 0 <= k < |rs| ==> rs[k] in objs && rs[k].data in objs
    {
      rs, objs := [], {};
      ghost var cs: seq<seq<int>> := [];
      for i := 0 to m.size
        invariant |rs| == i && RowsOf(rs, m.size, cs) && cs == MatSub(m.Contents, other.Contents)[..i]
        invariant fresh(objs) && forall k :: 0 <= k < i ==> rs[k] in objs && rs[k].data in objs
      {
        var diff := m.rows[i].Sub(other.rows[i]);
        var row := diff.value;
        RowsOfAppend(rs, m.size, cs, row);
        rs, cs, objs := rs + [row], cs + [row.Elements()], objs + {row, row.data};
      }
      assert cs == MatSub(m.Contents, other.Contents);
    }

    /** m - other, row by row; matrices of different dimension are a
        SizeMismatch. */
    method Sub(other: TMatrix) returns (r: Result<TMatrix>)
      requires Valid() && other.Valid()
      ensures size != other.size ==> r == Failure(SizeMismatch)
      ensures size == other.size ==>
                r.Success? && fresh(r.value.Repr) && r.value.Valid() &&
                r.value.size == size && r.value.Contents == MatSub(Contents, other.Contents)
    {
      if size != other.size {
        return Failure(SizeMismatch);
      }
      var rs, objs := DifferenceRows(this, other);
      var res := new TMatrix.FromRows(rs, MatSub(Contents, other.Contents), objs);
      return Success(res);
    }

    /** Entry (i, j) of m * other for i <= j: the terms m(i, k) * other(k, j)
        accumulated over i <= k <= j, the only k for which both factors are
        stored. */
    method EntryOfProduct(other: TMatrix, i: int, j: int) returns (acc: int)
      requires Valid() && other.Valid() && size == other.size
      requires 0 <= i <= j < size
      ensures acc == ProductSum(Contents, other.Contents, i, j, 0, size)
      ensures acc == Product(Contents, other.Contents)[i][j - i]
    {
      acc := 0;
      for k := i to j + 1
        invariant acc == ProductSum(Contents, other.Contents, i, j, i, k)
      {
        acc := acc + rows[i].data[k - i] * other.rows[k].data[j - k];
      }
      RestrictedSumIsFullSum(Contents, other.Contents, i, j);
    }

    /** Writes row i of m * other into a, an array outside both footprints. */
    method FillProductRow(other: TMatrix, i: int, a: array<int>)
      requires Valid() && other.Valid() && size == other.size && 0 <= i < size
      requires a.Length == size - i && a !in Repr && a !in other.Repr
      modifies a
      ensures a[..] == Product(Contents, other.Contents)[i]
    {
      ghost var P := Product(Contents, other.Contents);
      for j := i to size
        invariant forall d :: 0 <= d < j - i ==> a[d] == P[i][d]
      {
        var entry := EntryOfProduct(other, i, j);
        a[j - i] := entry;
      }
      assert a[..] == P[i];
    }

    /** Row i of m * other, as a fresh vector built (size, i). */
    method ProductRow(other: TMatrix, i: int) returns (row: TVector)
      requires Valid() && other.Valid() && size == other.size && 0 <= i < size
      ensures fresh(row) && fresh(row.data) && row.Valid()
      ensures row.size == size && row.startIndex == i
      ensures row.Elements() == Product(Contents, other.Contents)[i]
    {
      row := new TVector(size, i);
      FillProductRow(other, i, row.data);
    }

    /** The rows of m * other, each in fresh storage. */
    static method ProductRows(m: TMatrix, other: TMatrix) returns (rs: seq<TVector>, ghost objs: set<object>)
      requires m.Valid() && other.Valid() && m.size == other.size
      ensures |rs| == m.size && RowsOf(rs, m.size, Product(m.Contents, other.Contents))
      ensures fresh(objs) && forall k :: 0 <= k < |rs| ==> rs[k] in objs && rs[k].data in objs
    {
      rs, objs := [], {};
      ghost var cs: seq<seq<int>> := [];
      for i := 0 to m.size
        invariant |rs| == i && RowsOf(rs, m.size, cs) && cs == Product(m.Contents, other.Contents)[..i]
        invariant fresh(objs) && forall k :: 0 <= k < i ==> rs[k] in objs && rs[k].data in objs
      {
        var row := m.ProductRow(other, i);
        RowsOfAppend(rs, m.size, cs, row);
        rs, cs, objs := rs + [row], cs + [row.Elements()], objs + {row, row.data};
      }
      assert cs == Product(m.Contents, other.Contents);
    }

    /** m * other: entry (i, j), i <= j, is the sum of m(i, k) * other(k, j)
        over i <= k <= j; matrices of different dimension are a
        SizeMismatch. */
    method Mul(other: TMatrix) returns (r: Result<TMatrix>)
      requires Valid() && other.Valid()
      ensures size != other.size ==> r == Failure(SizeMismatch)
      ensures size == other.size ==>
                r.Success? && fresh(r.value.Repr) && r.value.Valid() &&
                r.value.size == size && r.value.Contents == Product(Contents, other.Contents)
    {
      if size != other.size {
        return Failure(SizeMismatch);
      }
      var rs, objs := ProductRows(this, other);
      var res := new TMatrix.FromRows(rs, Product(Contents, other.Contents), objs);
      return Success(res);
    }
  }
}
