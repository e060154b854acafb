# Upper-triangular matrix library (TVector / TMatrix), modelled in Dafny

The library has two containers. `TVector` is a bounded vector with a start
index. `TMatrix` is a square upper-triangular matrix. It is stored as one
`TVector` per row, and row `i` holds only the entries on and above the
diagonal. The header that implements them (`utmatrix.h`) is not part of this
model. The behaviour modelled here is the one the two test files pin down:
`test/test_tvector.cpp` and `test/test_tmatrix.cpp`.

Files:

- `Errors.dfy`: the four error kinds (`InvalidSize`, `InvalidStartIndex`,
  `IndexOutOfRange`, `SizeMismatch`). It also has the `Result`/`Outcome`
  values that carry an error back in place of a C++ exception.
- `Vectors.dfy`: the vector arithmetic as functions on `seq<int>`, the laws
  of that arithmetic, and `class TVector`. The class has the fields `size`,
  `startIndex` and `data: array<int>`. Element writes and `operator=`
  change the object in place. `+`, `-`, `*` and `==` return new values.
- `Matrices.dfy`: triangular matrices as values (`seq<seq<int>>`, where row
  `i` has `n - i` entries), the product sum and its laws, and
  `class TMatrix`. The class holds a `seq<TVector>` of rows, a ghost
  `Contents` and a ghost `Repr` footprint.
- `Scenarios.dfy`: every active test case, replayed as a method named after
  it. Each method builds the objects its case builds, with the same sizes,
  and asserts what the case expects.

**Indexing rule.** A vector built `TVector(s, si)` has size `s` and start
index `si`. It addresses the external indices `si <= i < s` and stores
`s - si` elements. Row `i` of a dimension-`n` matrix is the vector built
`(n, i)`, so it addresses the columns `i..n-1`. This rule fits both test
files:

- a `(4, 2)` vector rejects index 5 (`test/test_tvector.cpp:82-83`);
- a dimension-2 matrix accepts `m[1][1]` (`test/test_tmatrix.cpp:83,87`).

It is not the only rule that does. A vector that addresses `0 <= i < s`,
stores `s` elements and only reports its start index passes the same
cases. The rule "valid iff `si <= i < si + s`" does not fit, because it
would accept index 5 on `(4, 2)`. Three behaviours of the model follow
from the chosen rule, and the tests do not pin them down (see "Left out"):

- A start index larger than the size would need negative storage, so
  `Create` rejects it with `InvalidStartIndex`, as it does a negative one.
- Equality compares the size, the start index and the stored elements.
- The binary operations `+`, `-` and the scalar product need both operands
  to have the same size and start index, and report `SizeMismatch`
  otherwise.

**Matrix product.** `Product` computes entry `(i, j)`, for `i <= j`, as the
sum of `A(i,k)·B(k,j)` over `i <= k <= j`. `ProductIsSquareProduct` proves
that this restricted sum equals the full sum over `0 <= k < n` of the square
matrices the two operands stand for, with zero below the diagonal. It also
proves that every entry below the diagonal of that full product is zero. So
the triangular product is exactly the ordinary matrix product.

## Model

| member | source | states |
|---|---|---|
| `Vectors.TVector.constructor` | test/test_tvector.cpp:5-8 | a vector built (s, si) with accepted arguments has size s and start index si, and all s - si elements are zero, in fresh storage |
| `Vectors.TVector.Sized` | test/test_tvector.cpp:5-8 | the one-argument constructor TVector(s) gives size s, start index 0 and s zero elements, in fresh storage |
| `Vectors.TVector.Default` | test/test_tvector.cpp:73-78 | the default constructor gives a zero vector of the default size with start index 0 |
| `Vectors.TVector.Create` | test/test_tvector.cpp:5-23 | construction fails with InvalidSize for a negative size or one above MAX_VECTOR_SIZE, and with InvalidStartIndex for a negative start index; it succeeds exactly when 0 <= si <= s <= MAX_VECTOR_SIZE, and the new vector reports size s and start index si |
| `Vectors.TVector.Copy` | test/test_tvector.cpp:25-49 | the copy has the source's size, start index and elements, in freshly allocated storage, so a later write to the source does not reach it |
| `Vectors.TVector.Get` | test/test_tvector.cpp:65-85 | reading v[i] succeeds exactly when si <= i < s and then yields the stored element; every other index, including -2 and 5 on (4, 2), is IndexOutOfRange |
| `Vectors.TVector.Set` | test/test_tvector.cpp:65-85 | writing v[i] = x has the same bounds check as reading; on success only the element at i changes and now holds x; on failure nothing changes |
| `Vectors.TVector.Equals` | test/test_tvector.cpp:139-159 | v == w holds exactly when size, start index and every element agree, so it is reflexive and vectors of different size are never equal |
| `Vectors.TVector.Assign` | test/test_tvector.cpp:87-136 | after v = w the vector has w's size, start index and elements; self-assignment keeps the same storage and elements; otherwise the storage is fresh and not shared with w, and the size may change (5 becomes 6) |
| `Vectors.TVector.AddScalarTo` | test/test_tvector.cpp:161-176 | v + c is a new vector of the same shape whose element k is v's element k plus c; v is unchanged |
| `Vectors.TVector.SubScalarFrom` | test/test_tvector.cpp:178-193 | v - c is a new vector of the same shape whose element k is v's element k minus c |
| `Vectors.TVector.MulScalarBy` | test/test_tvector.cpp:195-210 | v * c is a new vector of the same shape whose element k is v's element k times c |
| `Vectors.TVector.Add` | test/test_tvector.cpp:212-236 | v + w fails with SizeMismatch when the shapes differ; otherwise it is a new vector of the same shape holding the element-wise sums |
| `Vectors.TVector.Sub` | test/test_tvector.cpp:238-262 | v - w fails with SizeMismatch when the shapes differ; otherwise it is a new vector holding the element-wise differences |
| `Vectors.TVector.Dot` | test/test_tvector.cpp:264-282 | v * w fails with SizeMismatch when the shapes differ; otherwise it returns the scalar product of the stored elements, accumulated by a loop proved against the recursive definition |
| `Vectors.ScalarAddSubInverse` | test/test_tvector.cpp:161-193 | subtracting the scalar that was added gives the vector back, and the other way round |
| `Vectors.AddSubInverse` | test/test_tvector.cpp:212-255 | element-wise subtraction undoes element-wise addition, and the other way round |
| `Vectors.AddElemsCommutes` | test/test_tvector.cpp:212-229 | element-wise addition does not depend on the order of its operands |
| `Vectors.DotSymmetric` | test/test_tvector.cpp:264-275 | the scalar product is symmetric, so v1 * v and v * v1 agree |
| `Vectors.DotAddLeft` | test/test_tvector.cpp:264-275 | the scalar product distributes over element-wise addition |
| `Vectors.DotScalarLeft` | test/test_tvector.cpp:264-275 | multiplying one operand by a scalar multiplies the scalar product by it |
| `Matrices.TMatrix.constructor` | test/test_tmatrix.cpp:5-8 | a matrix of accepted dimension s has s rows, row i built (s, i) with s - i zero entries, each row in storage of its own |
| `Matrices.TMatrix.ZeroRows` | test/test_tmatrix.cpp:5-8 | builds s fresh rows, row i built (s, i) and holding s - i zeros |
| `Matrices.TMatrix.Create` | test/test_tmatrix.cpp:5-18 | construction fails with InvalidSize for a negative dimension or one above MAX_MATRIX_SIZE and otherwise gives the zero matrix of that dimension |
| `Matrices.TMatrix.Copy` | test/test_tmatrix.cpp:20-44 | the copy has the source's dimension and entries in a fresh footprint, so writing m[0][0] = 2 afterwards leaves the copy unchanged |
| `Matrices.TMatrix.Row` | test/test_tmatrix.cpp:63-75 | m[i] succeeds exactly when 0 <= i < size and then returns row i itself, a vector built (size, i); rows -2 and 5 of a dimension-4 matrix are IndexOutOfRange |
| `Matrices.TMatrix.Get` | test/test_tmatrix.cpp:54-75 | reading m[i][j] succeeds exactly when 0 <= i <= j < size and yields entry (i, j); every other pair is IndexOutOfRange |
| `Matrices.TMatrix.Set` | test/test_tmatrix.cpp:54-61 | writing m[i][j] = x has the same two checks as reading; on success only entry (i, j) changes and now holds x |
| `Matrices.TMatrix.Equals` | test/test_tmatrix.cpp:121-147 | m == w holds exactly when the dimensions and all entries agree, so it is reflexive and matrices of different dimension are never equal |
| `Matrices.TMatrix.Assign` | test/test_tmatrix.cpp:78-119 | after m = w the matrix has w's dimension and entries; self-assignment keeps everything; otherwise every row is a fresh deep copy, and the dimension may change (5 becomes 6) |
| `Matrices.TMatrix.Add` | test/test_tmatrix.cpp:149-173 | m + w fails with SizeMismatch for different dimensions; otherwise it is a new matrix whose row i is the element-wise sum of the two rows i |
| `Matrices.TMatrix.Sub` | test/test_tmatrix.cpp:175-199 | m - w fails with SizeMismatch for different dimensions; otherwise it is a new matrix whose row i is the element-wise difference of the two rows i |
| `Matrices.TMatrix.EntryOfProduct` | test/test_tmatrix.cpp:201-218 | the loop over i <= k <= j computes entry (i, j) of the product, and that value equals the full sum over 0 <= k < n |
| `Matrices.TMatrix.FillProductRow` | test/test_tmatrix.cpp:201-218 | the loop over j = i..n-1 writes entry (i, j) of the product at offset j - i, so the array ends up holding exactly row i of the product |
| `Matrices.TMatrix.ProductRow` | test/test_tmatrix.cpp:201-218 | returns a fresh vector built (size, i) whose elements are row i of the product |
| `Matrices.TMatrix.ProductRows` | test/test_tmatrix.cpp:201-225 | builds all rows of the product, row i built (size, i) in storage of its own |
| `Matrices.TMatrix.SumRows` | test/test_tmatrix.cpp:149-173 | builds all rows of the sum, row i the element-wise sum of the two rows i, in storage of its own |
| `Matrices.TMatrix.DifferenceRows` | test/test_tmatrix.cpp:175-199 | builds all rows of the difference, row i the element-wise difference of the two rows i, in storage of its own |
| `Matrices.TMatrix.Mul` | test/test_tmatrix.cpp:201-225 | m * w fails with SizeMismatch for different dimensions; otherwise it is a new matrix whose entry (i, j) is the sum of m(i,k)·w(k,j) over i <= k <= j |
| `Matrices.RestrictedSumIsFullSum` | test/test_tmatrix.cpp:201-218 | the product sum over i <= k <= j equals the sum over all 0 <= k < n, because every other term has a factor below the diagonal; for j < i that full sum is zero |
| `Matrices.ProductIsSquareProduct` | test/test_tmatrix.cpp:201-218 | every entry of the triangular product, on, above or below the diagonal, is the ordinary matrix product of the two square matrices |
| `Matrices.RowStorageIsDistinct` | test/test_tmatrix.cpp:36-44 | two different rows of a matrix are different objects with different storage, because row k stores n - k entries; so a write to one row never reaches another |
| `Matrices.IdentityAt` | test/test_tmatrix.cpp:201-218 | the identity matrix has ones on the diagonal and zeros everywhere else |
| `Matrices.LeftUnitRowSum` | test/test_tmatrix.cpp:201-218 | if row i of the left factor is the i-th unit row, entry (i, j) of the product is entry (i, j) of the right factor |
| `Matrices.RightUnitColumnSum` | test/test_tmatrix.cpp:201-218 | if column j of the right factor is the j-th unit column, entry (i, j) of the product is entry (i, j) of the left factor |
| `Matrices.IdentityLeftUnit` | test/test_tmatrix.cpp:201-218 | the identity matrix times B is B |
| `Matrices.IdentityRightUnit` | test/test_tmatrix.cpp:201-218 | A times the identity matrix is A |
| `Matrices.MatAddSubInverse` | test/test_tmatrix.cpp:149-192 | the sum of two triangular matrices is triangular, and subtracting the matrix that was added gives the first operand back |
| `Matrices.MatAddEntrywise` | test/test_tmatrix.cpp:149-166 | entry (i, j) of a sum is the sum of the entries (i, j), for every i and j |
| `Matrices.MatSubEntrywise` | test/test_tmatrix.cpp:175-192 | entry (i, j) of a difference is the difference of the entries (i, j), for every i and j |
| `Scenarios.SumOfExample` | test/test_tmatrix.cpp:149-166 | the sum of the two dimension-2 matrices of the addition test is the expected matrix [[4,6],[·,8]] |
| `Scenarios.DifferenceOfExample` | test/test_tmatrix.cpp:175-192 | the difference of the two dimension-2 matrices of the subtraction test is the expected matrix [[2,2],[·,2]] |
| `Scenarios.ProductOfExample` | test/test_tmatrix.cpp:201-218 | the product of the two dimension-2 matrices of the multiplication test is the expected matrix [[3,14],[·,15]] |

The methods of `Scenarios.dfy` replay the active test cases. Among them are
`[1,2,3] + 1 = [2,3,4]`, `- 1 = [0,1,2]`, `* 2 = [2,4,6]`, `[3,4]·[1,2] = 11`,
`[[1,2],[·,3]] + [[3,4],[·,5]] = [[4,6],[·,8]]`, the difference
`[[2,2],[·,2]]` and the product `[[3,14],[·,15]]`. Where a case expects a
value equal to a vector or matrix it builds, the replay builds that object
too and compares with `Equals`.

## Left out

- `utmatrix.h` is not part of this model. The values of `MAX_VECTOR_SIZE`,
  `MAX_MATRIX_SIZE` and the default vector size are placeholders. No
  property depends on them beyond two facts: they exceed the sizes the tests
  build, and `MAX_MATRIX_SIZE <= MAX_VECTOR_SIZE`.
- The generic element type is modelled as unbounded `int`. Overflow of a
  machine integer is not modelled.
- The stream operators `<<` and `>>` are not modelled, because they are
  text I/O.
- The destructor and `delete[]` are not modelled, because Dafny has no
  manual freeing. Freshly allocated storage in the contracts stands in for
  "no storage is shared".
- `GetSize` and `GetStartIndex` are the fields `size` and `startIndex`.
  `operator!=` is the negation of `Equals`.
- `Matrices.TMatrix.Row` returns the row object itself, like `m[i]`. A
  write made directly through that reference is not reflected in the
  matrix's ghost `Contents`. Two-index writes go through `TMatrix.Set`,
  which does both bounds checks.
- Which error a vector constructor reports first when both arguments are
  bad is not visible in the tests. The model checks the size first.
- The commented-out cases at `test/test_tvector.cpp:106-121` are not
  modelled, because they assert nothing.
- The indexing rule is a modelling choice. Other rules also fit every
  active test case, so three behaviours are the model's own and are not
  confirmed by the tests:
  - `Vectors.TVector.Create` rejects a start index larger than the size.
  - `Vectors.TVector.Equals` compares the start index.
  - `Vectors.TVector.Add`, `Vectors.TVector.Sub` and `Vectors.TVector.Dot`
    report `SizeMismatch` for operands of equal size but different start
    index.
