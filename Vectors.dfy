/** TVector: a bounded integer vector with a start index.

    Indexing rule. A vector built TVector(s, si) has size s and start index
    si; it addresses the external indices si <= i < s and stores the s - si
    elements at the local offsets i - si. It is a rule under which a vector
    built (4, 2) rejects index 5 (test/test_tvector.cpp:82-83) while row i of
    a dimension-n matrix, built (n, i), accepts every column i..n-1
    (test/test_tmatrix.cpp:83,87); other rules fit those cases too. */
module Vectors {
  import opened Errors

  /** Capacity limit of a vector. The header that fixes it is not part of
      this model; the value is a placeholder, and no property below depends
      on it beyond its being above the sizes the tests construct. */
  const MAX_VECTOR_SIZE: int := 100000000

  /** Size of a vector made by the default constructor TVector(); a
      placeholder in the same sense. */
  const DEFAULT_VECTOR_SIZE: int := 10

  /** The arguments (s, si) the constructor accepts. */
  predicate ValidShape(s: int, si: int) {
    0 <= si <= s <= MAX_VECTOR_SIZE
  }

  function Zeros(n: nat): seq<int> {
    seq(n, _ => 0)
  }

  // ---------------------------------------------------------------------
  // The arithmetic on the stored elements, as values.

  function AddScalar(s: seq<int>, c: int): seq<int> {
    seq(|s|, k requires 0 <= k < |s| => s[k] + c)
  }

  function SubScalar(s: seq<int>, c: int): seq<int> {
    seq(|s|, k requires 0 <= k < |s| => s[k] - c)
  }

  function MulScalar(s: seq<int>, c: int): seq<int> {
    seq(|s|, k requires 0 <= k < |s| => s[k] * c)
  }

  function AddElems(a: seq<int>, b: seq<int>): seq<int>
    requires |a| == |b|
  {
    seq(|a|, k requires 0 <= k < |a| => a[k] + b[k])
  }

  function SubElems(a: seq<int>, b: seq<int>): seq<int>
    requires |a| == |b|
  {
    seq(|a|, k requires 0 <= k < |a| => a[k] - b[k])
  }

  /** The scalar product, accumulated from the first element to the last. */
  function DotProduct(a: seq<int>, b: seq<int>): int
    requires |a| == |b|
    decreases |a|
  {
    if |a| == 0 then 0
    else DotProduct(a[..|a| - 1], b[..|b| - 1]) + a[|a| - 1] * b[|b| - 1]
  }

  // ---------------------------------------------------------------------
  // Laws of that arithmetic.

  /** Subtracting the scalar that was added gives the vector back, and the
      other way round. */
  lemma ScalarAddSubInverse(s: seq<int>, c: int)
    ensures SubScalar(AddScalar(s, c), c) == s
    ensures AddScalar(SubScalar(s, c), c) == s
  {
    assert forall k :: 0 <= k < |s| ==> SubScalar(AddScalar(s, c), c)[k] == s[k];
    assert forall k :: 0 <= k < |s| ==> AddScalar(SubScalar(s, c), c)[k] == s[k];
  }

  /** Element-wise subtraction undoes element-wise addition. */
  lemma AddSubInverse(a: seq<int>, b: seq<int>)
    requires |a| == |b|
    ensures SubElems(AddElems(a, b), b) == a
    ensures AddElems(SubElems(a, b), b) == a
  {
    assert forall k :: 0 <= k < |a| ==> SubElems(AddElems(a, b), b)[k] == a[k];
    assert forall k :: 0 <= k < |a| ==> AddElems(SubElems(a, b), b)[k] == a[k];
  }

  /** Element-wise addition is commutative. */
  lemma AddElemsCommutes(a: seq<int>, b: seq<int>)
    requires |a| == |b|
    ensures AddElems(a, b) == AddElems(b, a)
  {
    assert forall k :: 0 <= k < |a| ==> AddElems(a, b)[k] == AddElems(b, a)[k];
  }

  /** The scalar product does not depend on the order of its operands. */
  lemma {:induction false} DotSymmetric(a: seq<int>, b: seq<int>)
    requires |a| == |b|
    ensures DotProduct(a, b) == DotProduct(b, a)
    decreases |a|
  {
    if |a| > 0 {
      DotSymmetric(a[..|a| - 1], b[..|b| - 1]);
    }
  }

  /** The scalar product distributes over element-wise addition. */
  lemma {:induction false} DotAddLeft(a: seq<int>, b: seq<int>, c: seq<int>)
    requires |a| == |b| == |c|
    ensures DotProduct(AddElems(a, b), c) == DotProduct(a, c) + DotProduct(b, c)
    decreases |a|
  {
    if |a| > 0 {
      var n := |a| - 1;
      assert AddElems(a, b)[..n] == AddElems(a[..n], b[..n]);
      DotAddLeft(a[..n], b[..n], c[..n]);
    }
  }

  /** Scaling one operand scales the scalar product. */
  lemma {:induction false} DotScalarLeft(a: seq<int>, b: seq<int>, c: int)
    requires |a| == |b|
    ensures DotProduct(MulScalar(a, c), b) == c * DotProduct(a, b)
    decreases |a|
  {
    if |a| > 0 {
      var n := |a| - 1;
      assert MulScalar(a, c)[..n] == MulScalar(a[..n], c);
      DotScalarLeft(a[..n], b[..n], c);
      calc {
        DotProduct(MulScalar(a, c), b);
        c * DotProduct(a[..n], b[..n]) + (a[n] * c) * b[n];
        { assert (a[n] * c) * b[n] == c * (a[n] * b[n]); }
        c * (DotProduct(a[..n], b[..n]) + a[n] * b[n]);
      }
    }
  }

  // ---------------------------------------------------------------------
  // The object.

  class TVector {
    var size: int
    var startIndex: int
    var data: array<int>

    ghost predicate Valid()
      reads this
    {
      ValidShape(size, startIndex) && data.Length == size - startIndex
    }

    /** The stored elements; external index i lives at Elements()[i - startIndex]. */
    ghost function Elements(): seq<int>
      reads this, data
    {
      data[..]
    }

    /** Whether the external index i is addressable. */
    predicate InRange(i: int)
      reads this
    {
      startIndex <= i < size
    }

    /** Same size, same start index and the same elements. */
    ghost predicate SameAs(other: TVector)
      reads this, data, other, other.data
    {
      size == other.size && startIndex == other.startIndex && Elements() == other.Elements()
    }

    /** TVector(s, si), for arguments the constructor accepts: every element
        starts at zero. */
    constructor (s: int, si: int)
      requires ValidShape(s, si)
      ensures Valid() && fresh(data)
      ensures size == s && startIndex == si
      ensures Elements() == Zeros(s - si)
    {
      size, startIndex := s, si;
      data := new int[s - si](_ => 0);
    }

    /** TVector(s): the start index defaults to 0, so all s elements are
        stored. */
    constructor Sized(s: int)
      requires 0 <= s <= MAX_VECTOR_SIZE
      ensures Valid() && fresh(data)
      ensures size == s && startIndex == 0
      ensures Elements() == Zeros(s)
    {
      size, startIndex := s, 0;
      data := new int[s](_ => 0);
    }

    /** TVector(): the default size and start index 0. */
    constructor Default()
      ensures Valid() && fresh(data)
      ensures size == DEFAULT_VECTOR_SIZE && startIndex == 0
      ensures Elements() == Zeros(DEFAULT_VECTOR_SIZE)
    {
      size, startIndex := DEFAULT_VECTOR_SIZE, 0;
      data := new int[DEFAULT_VECTOR_SIZE](_ => 0);
    }

    /** The checked construction TVector(s, si): a size below zero or above
        the limit is InvalidSize, otherwise a start index below zero or past
        the size is InvalidStartIndex. */
    static method Create(s: int, si: int) returns (r: Result<TVector>)
      ensures (s < 0 || s > MAX_VECTOR_SIZE) ==> r == Failure(InvalidSize)
      ensures 0 <= s <= MAX_VECTOR_SIZE && (si < 0 || si > s) ==> r == Failure(InvalidStartIndex)
      ensures ValidShape(s, si) ==>
                r.Success? && fresh(r.value) && fresh(r.value.data) && r.value.Valid() &&
                r.value.size == s && r.value.startIndex == si &&
                r.value.Elements() == Zeros(s - si)
    {
      if s < 0 || s > MAX_VECTOR_SIZE {
        return Failure(InvalidSize);
      }
      if si < 0 || si > s {
        return Failure(InvalidStartIndex);
      }
      var v := new TVector(s, si);
      return Success(v);
    }

    /** The copy constructor: same shape and elements in storage of its own. */
    constructor Copy(v: TVector)
      requires v.Valid()
      ensures Valid() && fresh(data)
      ensures SameAs(v)
    {
      var n := v.data.Length;
      var copy := new int[n];
      for k := 0 to n
        invariant forall m :: 0 <= m < k ==> copy[m] == v.data[m]
      {
        copy[k] := v.data[k];
      }
      assert copy[..] == v.data[..];
      size, startIndex, data := v.size, v.startIndex, copy;
    }

    /** Reading v[i]: an index outside si..s-1 is IndexOutOfRange. */
    method Get(i: int) returns (r: Result<int>)
      requires Valid()
      ensures r.Success? <==> InRange(i)
      ensures r.Failure? ==> r.error == IndexOutOfRange
      ensures r.Success? ==> r.value == Elements()[i - startIndex]
    {
      if i < startIndex || i >= size {
        return Failure(IndexOutOfRange);
      }
      return Success(data[i - startIndex]);
    }

    /** Writing v[i] = x: the same bounds check as reading; on success only
        the element at i changes. */
    method Set(i: int, x: int) returns (r: Outcome)
      requires Valid()
      modifies data
      ensures Valid()
      ensures r == if InRange(i) then Pass else Fail(IndexOutOfRange)
      ensures Elements() == if InRange(i) then old(Elements())[i - startIndex := x] else old(Elements())
    {
      if i < startIndex || i >= size {
        return Fail(IndexOutOfRange);
      }
      data[i - startIndex] := x;
      return Pass;
    }

    /** v == other. Vectors of different size are never equal. */
    method Equals(other: TVector) returns (b: bool)
      requires Valid() && other.Valid()
      ensures b <==> SameAs(other)
    {
      if size != other.size || startIndex != other.startIndex {
        return false;
      }
      var k := 0;
      while k < data.Length
        invariant 0 <= k <= data.Length
        invariant data[..k] == other.data[..k]
      {
        if data[k] != other.data[k] {
          assert data[..][k] != other.data[..][k];
          return false;
        }
        k := k + 1;
      }
      assert data[..] == data[..k];
      return true;
    }

    /** v = src. Assigning a vector to itself changes nothing; otherwise the
        size, start index and elements are replaced by copies of src's, in
        storage not shared with src. */
    method Assign(src: TVector)
      requires Valid() && src.Valid()
      modifies this
      ensures Valid()
      ensures size == old(src.size) && startIndex == old(src.startIndex)
      ensures Elements() == old(src.Elements())
      ensures src == this ==> data == old(data)
      ensures src != this ==> fresh(data)
    {
      if src == this {
        return;
      }
      var n := src.data.Length;
      var copy := new int[n];
      for k := 0 to n
        invariant forall m :: 0 <= m < k ==> copy[m] == src.data[m]
      {
        copy[k] := src.data[k];
      }
      size, startIndex, data := src.size, src.startIndex, copy;
      assert data[..] == src.data[..];
    }

    /** v + c: a new vector of the same shape, c added to every element. */
    method AddScalarTo(c: int) returns (r: TVector)
      requires Valid()
      ensures fresh(r) && fresh(r.data) && r.Valid()
      ensures r.size == size && r.startIndex == startIndex
      ensures r.Elements() == AddScalar(Elements(), c)
    {
      r := new TVector(size, startIndex);
      for k := 0 to data.Length
        invariant fresh(r.data) && r.Valid() && r.size == size && r.startIndex == startIndex
        invariant forall m :: 0 <= m < k ==> r.data[m] == data[m] + c
      {
        r.data[k] := data[k] + c;
      }
    }

    /** v - c: a new vector of the same shape, c subtracted from every element. */
    method SubScalarFrom(c: int) returns (r: TVector)
      requires Valid()
      ensures fresh(r) && fresh(r.data) && r.Valid()
      ensures r.size == size && r.startIndex == startIndex
      ensures r.Elements() == SubScalar(Elements(), c)
    {
      r := new TVector(size, startIndex);
      for k := 0 to data.Length
        invariant fresh(r.data) && r.Valid() && r.size == size && r.startIndex == startIndex
        invariant forall m :: 0 <= m < k ==> r.data[m] == data[m] - c
      {
        r.data[k] := data[k] - c;
      }
    }

    /** v * c: a new vector of the same shape, every element multiplied by c. */
    method MulScalarBy(c: int) returns (r: TVector)
      requires Valid()
      ensures fresh(r) && fresh(r.data) && r.Valid()
      ensures r.size == size && r.startIndex == startIndex
      ensures r.Elements() == MulScalar(Elements(), c)
    {
      r := new TVector(size, startIndex);
      for k := 0 to data.Length
        invariant fresh(r.data) && r.Valid() && r.size == size && r.startIndex == startIndex
        invariant forall m :: 0 <= m < k ==> r.data[m] == data[m] * c
      {
        r.data[k] := data[k] * c;
      }
    }

    /** Whether a binary operation accepts the two operands. */
    predicate SameShape(other: TVector)
      reads this, other
    {
      size == other.size && startIndex == other.startIndex
    }

    /** v + other, element by element; operands of different shape are a
        SizeMismatch. */
    method Add(other: TVector) returns (r: Result<TVector>)
      requires Valid() && other.Valid()
      ensures !SameShape(other) ==> r == Failure(SizeMismatch)
      ensures SameShape(other) ==>
                r.Success? && fresh(r.value) && fresh(r.value.data) && r.value.Valid() &&
                r.value.size == size && r.value.startIndex == startIndex &&
                r.value.Elements() == AddElems(Elements(), other.Elements())
    {
      if size != other.size || startIndex != other.startIndex {
        return Failure(SizeMismatch);
      }
      var v := new TVector(size, startIndex);
      for k := 0 to data.Length
        invariant fresh(v.data) && v.Valid() && v.size == size && v.startIndex == startIndex
        invariant forall m :: 0 <= m < k ==> v.data[m] == data[m] + other.data[m]
      {
        v.data[k] := data[k] + other.data[k];
      }
      return Success(v);
    }

    /** v - other, element by element; operands of different shape are a
        SizeMismatch. */
    method Sub(other: TVector) returns (r: Result<TVector>)
      requires Valid() && other.Valid()
      ensures !SameShape(other) ==> r == Failure(SizeMismatch)
      ensures SameShape(other) ==>
                r.Success? && fresh(r.value) && fresh(r.value.data) && r.value.Valid() &&
                r.value.size == size && r.value.startIndex == startIndex &&
                r.value.Elements() == SubElems(Elements(), other.Elements())
    {
      if size != other.size || startIndex != other.startIndex {
        return Failure(SizeMismatch);
      }
      var v := new TVector(size, startIndex);
      for k := 0 to data.Length
        invariant fresh(v.data) && v.Valid() && v.size == size && v.startIndex == startIndex
        invariant forall m :: 0 <= m < k ==> v.data[m] == data[m] - other.data[m]
      {
        v.data[k] := data[k] - other.data[k];
      }
      return Success(v);
    }

    /** v * other, the scalar product; operands of different shape are a
        SizeMismatch. */
    method Dot(other: TVector) returns (r: Result<int>)
      requires Valid() && other.Valid()
      ensures !SameShape(other) ==> r == Failure(SizeMismatch)
      ensures SameShape(other) ==> r == Success(DotProduct(Elements(), other.Elements()))
    {
      if size != other.size || startIndex != other.startIndex {
        return Failure(SizeMismatch);
      }
      var acc := 0;
      for k := 0 to data.Length
        invariant acc == DotProduct(data[..k], other.data[..k])
      {
        assert data[..k + 1][..k] == data[..k];
        assert other.data[..k + 1][..k] == other.data[..k];
        acc := acc + data[k] * other.data[k];
      }
      assert data[..] == data[..data.Length];
      assert other.data[..] == other.data[..data.Length];
      return Success(acc);
    }
  }
}
