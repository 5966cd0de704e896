// The small dense matrix class of the DCT sample: a square matrix of
// row_size by row_size entries stored row-major in one buffer, entry (i, j)
// at RowMajor(n, i, j) = i * n + j. Entries are single-precision floats in
// the program; here they are exact reals.

module DctMatrix {
  import opened Arith

  // ---------------------------------------------------------------------
  // Matrices as flat sequences

  /** a holds at least an n by n matrix. */
  predicate Holds(a: seq<real>, n: nat)
  {
    RowMajor(n, n, 0) <= |a|
  }

  /** Entry (i, j) of the n by n matrix held in a. */
  function At(a: seq<real>, n: nat, i: nat, j: nat): real
    requires Holds(a, n) && i < n && j < n
  {
    RowMajorInside(n, n, i, j);
    a[RowMajor(n, i, j)]
  }

  /** The first k terms of the dot product of row i of a with column j of b. */
  function Dot(a: seq<real>, b: seq<real>, n: nat, i: nat, j: nat, k: nat): real
    requires Holds(a, n) && Holds(b, n) && i < n && j < n && k <= n
  {
    if k == 0 then 0.0 else Dot(a, b, n, i, j, k - 1) + At(a, n, i, k - 1) * At(b, n, k - 1, j)
  }

  /** c holds the product of the matrices held in a and b. */
  ghost predicate IsProduct(c: seq<real>, a: seq<real>, b: seq<real>, n: nat)
    requires Holds(c, n) && Holds(a, n) && Holds(b, n)
  {
    forall i: nat, j: nat :: i < n && j < n ==> At(c, n, i, j) == Dot(a, b, n, i, j, n)
  }

  /** t holds the transpose of the matrix held in a. */
  ghost predicate IsTranspose(t: seq<real>, a: seq<real>, n: nat)
    requires Holds(t, n) && Holds(a, n)
  {
    forall i: nat, j: nat :: i < n && j < n ==> At(t, n, j, i) == At(a, n, i, j)
  }

  /** e holds the identity matrix. */
  ghost predicate IsIdentity(e: seq<real>, n: nat)
    requires Holds(e, n)
  {
    forall i: nat, j: nat :: i < n && j < n ==> At(e, n, i, j) == if i == j then 1.0 else 0.0
  }

  /** a and b hold the same n by n matrix. */
  ghost predicate SameMatrix(a: seq<real>, b: seq<real>, n: nat)
    requires Holds(a, n) && Holds(b, n)
  {
    forall i: nat, j: nat :: i < n && j < n ==> At(a, n, i, j) == At(b, n, i, j)
  }

  // ---------------------------------------------------------------------
  // The class

  class MatrixSerial {
    var ptr: array<real>
    var rowSize: int

    /** The buffer holds at least row_size by row_size entries. */
    predicate Valid()
      reads this
    {
      rowSize >= 0 && RowMajor(rowSize, rowSize, 0) <= ptr.Length
    }

    /** matrix_serial(size): a fresh zeroed buffer of size * size entries. */
    constructor (size: int)
      requires size >= 0
      ensures rowSize == size && fresh(ptr) && ptr.Length == RowMajor(size, size, 0)
      ensures forall p :: 0 <= p < ptr.Length ==> ptr[p] == 0.0
      ensures Valid()
    {
      ptr := new real[RowMajor(size, size, 0)](_ => 0.0);
      rowSize := size;
    }

    /** The copy constructor: the same row_size and entries in a fresh
        buffer, so later writes to one matrix never reach the other. */
    constructor Copy(m: MatrixSerial)
      requires m.Valid()
      ensures rowSize == m.rowSize && fresh(ptr) && ptr.Length == RowMajor(m.rowSize, m.rowSize, 0)
      ensures ptr[..] == m.ptr[..ptr.Length]
      ensures Valid()
    {
      var len := RowMajor(m.rowSize, m.rowSize, 0);
      ptr := new real[len];
      rowSize := m.rowSize;
      new;
      forall p | 0 <= p < len {
        ptr[p] := m.ptr[p];
      }
    }

    /** create_identity: sets the diagonal to 1 and leaves every other
        entry as it was. */
    method CreateIdentity()
      requires Valid()
      modifies ptr
      ensures Valid()
      ensures forall i: nat :: i < rowSize ==> At(ptr[..], rowSize, i, i) == 1.0
      ensures forall p :: 0 <= p < ptr.Length && !OnDiagonal(rowSize, p) ==> ptr[p] == old(ptr[p])
    {
      var n := rowSize;
      for i := 0 to n
        invariant forall i': nat :: i' < i ==> At(ptr[..], n, i', i') == 1.0
        invariant forall p :: 0 <= p < ptr.Length && !OnDiagonalBelow(n, p, i) ==> ptr[p] == old(ptr[p])
      {
        ghost var before := ptr[..];
        RowMajorInside(n, n, i, i);
        ptr[RowMajor(n, i, i)] := 1.0;
        forall i': nat | i' < i
          ensures At(ptr[..], n, i', i') == 1.0
        {
          assert At(before, n, i', i') == 1.0;
          RowMajorInside(n, n, i', i');
          if RowMajor(n, i', i') == RowMajor(n, i, i) {
            RowMajorUnique(n, i', i', i, i);
          }
        }
      }
    }

    /** operator*: the product of this matrix and y, both read as
        y.row_size by y.row_size matrices, in a fresh matrix. Neither
        operand changes. */
    method Multiply(y: MatrixSerial) returns (temp: MatrixSerial)
      requires y.Valid() && RowMajor(y.rowSize, y.rowSize, 0) <= ptr.Length
      ensures fresh(temp) && fresh(temp.ptr) && temp.Valid() && temp.rowSize == y.rowSize
      ensures IsProduct(temp.ptr[..], ptr[..], y.ptr[..], y.rowSize)
    {
      var size := y.rowSize;
      temp := new MatrixSerial(size);
      var out := temp.ptr;
      for i := 0 to size
        invariant temp.ptr == out && temp.rowSize == size
        invariant ProductUpTo(out[..], ptr[..], y.ptr[..], size, i, 0)
      {
        for j := 0 to size
          invariant temp.ptr == out && temp.rowSize == size
          invariant ProductUpTo(out[..], ptr[..], y.ptr[..], size, i, j)
        {
          ghost var before := out[..];
          DotInto(out, ptr, y.ptr, size, i, j);
          CellDone(before, out[..], ptr[..], y.ptr[..], size, i, j);
        }
      }
    }

    /** operator=: copies temp's row_size * row_size entries into this
        buffer and returns this matrix; row_size itself is not updated. */
    method Assign(temp: MatrixSerial) returns (r: MatrixSerial)
      requires temp.Valid() && RowMajor(temp.rowSize, temp.rowSize, 0) <= ptr.Length
      modifies ptr
      ensures r == this && rowSize == old(rowSize)
      ensures forall p :: 0 <= p < RowMajor(temp.rowSize, temp.rowSize, 0) ==> ptr[p] == old(temp.ptr[p])
      ensures forall p :: RowMajor(temp.rowSize, temp.rowSize, 0) <= p < ptr.Length ==> ptr[p] == old(ptr[p])
    {
      var len := RowMajor(temp.rowSize, temp.rowSize, 0);
      forall p | 0 <= p < len {
        ptr[p] := temp.ptr[p];
      }
      r := this;
    }

    /** operator-(num): a fresh matrix of the same size, zero-initialised
        and then decremented by num entry by entry, so every entry is -num.
        This matrix does not change. */
    method Minus(num: int) returns (temp: MatrixSerial)
      requires Valid()
      ensures fresh(temp) && fresh(temp.ptr) && temp.Valid() && temp.rowSize == rowSize
      ensures forall p :: 0 <= p < temp.ptr.Length ==> temp.ptr[p] == -(num as real)
    {
      temp := new MatrixSerial(rowSize);
      var out := temp.ptr;
      var size := RowMajor(rowSize, rowSize, 0);
      for i := 0 to size
        invariant temp.ptr == out && temp.rowSize == rowSize
        invariant forall p :: 0 <= p < i ==> out[p] == -(num as real)
        invariant forall p :: i <= p < size ==> out[p] == 0.0
      {
        out[i] := out[i] - num as real;
      }
    }

    /** transpose(output): writes the transpose of this row_size by row_size
        matrix into output; the rest of output's buffer is left as it was. */
    method Transpose(output: MatrixSerial)
      requires Valid() && RowMajor(rowSize, rowSize, 0) <= output.ptr.Length
      requires output.ptr != ptr
      modifies output.ptr
      ensures IsTranspose(output.ptr[..], ptr[..], rowSize)
      ensures forall p :: RowMajor(rowSize, rowSize, 0) <= p < output.ptr.Length ==> output.ptr[p] == old(output.ptr[p])
    {
      var size := rowSize;
      var out := output.ptr;
      for i := 0 to size
        invariant TransposeUpTo(out[..], ptr[..], size, i, 0)
        invariant forall p :: RowMajor(size, size, 0) <= p < out.Length ==> out[p] == old(out[p])
      {
        for j := 0 to size
          invariant TransposeUpTo(out[..], ptr[..], size, i, j)
          invariant forall p :: RowMajor(size, size, 0) <= p < out.Length ==> out[p] == old(out[p])
        {
          ghost var before := out[..];
          RowMajorInside(size, size, i, j);
          RowMajorInside(size, size, j, i);
          out[RowMajor(size, j, i)] := ptr[RowMajor(size, i, j)];
          TransposeCellDone(before, out[..], ptr[..], size, i, j);
        }
      }
    }
  }

  /** The innermost loop of operator*: entry (i, j) of out is set to zero
      and then accumulates row i of a times column j of b. */
  method DotInto(out: array<real>, a: array<real>, b: array<real>, n: nat, i: nat, j: nat)
    requires out != a && out != b && i < n && j < n
    requires Holds(out[..], n) && Holds(a[..], n) && Holds(b[..], n)
    modifies out
    ensures At(out[..], n, i, j) == Dot(a[..], b[..], n, i, j, n)
    ensures forall p :: 0 <= p < out.Length && p != RowMajor(n, i, j) ==> out[p] == old(out[p])
  {
    RowMajorInside(n, n, i, j);
    var idx := RowMajor(n, i, j);
    out[idx] := 0.0;
    for k := 0 to n
      invariant out[idx] == Dot(a[..], b[..], n, i, j, k)
      invariant forall p :: 0 <= p < out.Length && p != idx ==> out[p] == old(out[p])
    {
      RowMajorInside(n, n, i, k);
      RowMajorInside(n, n, k, j);
      out[idx] := out[idx] + a[RowMajor(n, i, k)] * b[RowMajor(n, k, j)];
    }
  }

  /** Every entry (i', j') before (i, j) in row-major order is its product entry. */
  ghost predicate ProductUpTo(c: seq<real>, a: seq<real>, b: seq<real>, n: nat, i: nat, j: nat)
    requires Holds(c, n) && Holds(a, n) && Holds(b, n)
  {
    forall i': nat, j': nat :: i' < n && j' < n && (i' < i || (i' == i && j' < j)) ==>
      At(c, n, i', j') == Dot(a, b, n, i', j', n)
  }

  lemma CellDone(before: seq<real>, after: seq<real>, a: seq<real>, b: seq<real>, n: nat, i: nat, j: nat)
    requires Holds(before, n) && Holds(a, n) && Holds(b, n) && |after| == |before|
    requires i < n && j < n && ProductUpTo(before, a, b, n, i, j)
    requires At(after, n, i, j) == Dot(a, b, n, i, j, n)
    requires forall p :: 0 <= p < |after| && p != RowMajor(n, i, j) ==> after[p] == before[p]
    ensures ProductUpTo(after, a, b, n, i, j + 1)
  {
    forall i': nat, j': nat | i' < n && j' < n && (i' < i || (i' == i && j' < j + 1))
      ensures At(after, n, i', j') == Dot(a, b, n, i', j', n)
    {
      if i' != i || j' != j {
        RowMajorInside(n, n, i', j');
        if RowMajor(n, i', j') == RowMajor(n, i, j) {
          RowMajorUnique(n, i', j', i, j);
        }
      }
    }
  }

  /** Every entry (i', j') before (i, j) in row-major order has been transposed. */
  ghost predicate TransposeUpTo(t: seq<real>, a: seq<real>, n: nat, i: nat, j: nat)
    requires Holds(t, n) && Holds(a, n)
  {
    forall i': nat, j': nat :: i' < n && j' < n && (i' < i || (i' == i && j' < j)) ==>
      At(t, n, j', i') == At(a, n, i', j')
  }

  lemma TransposeCellDone(before: seq<real>, after: seq<real>, a: seq<real>, n: nat, i: nat, j: nat)
    requires Holds(before, n) && Holds(a, n) && |after| == |before|
    requires i < n && j < n && TransposeUpTo(before, a, n, i, j)
    requires At(after, n, j, i) == At(a, n, i, j)
    requires forall p :: 0 <= p < |after| && p != RowMajor(n, j, i) ==> after[p] == before[p]
    ensures TransposeUpTo(after, a, n, i, j + 1)
  {
    forall i': nat, j': nat | i' < n && j' < n && (i' < i || (i' == i && j' < j + 1))
      ensures At(after, n, j', i') == At(a, n, i', j')
    {
      if i' != i || j' != j {
        RowMajorInside(n, n, j', i');
        if RowMajor(n, j', i') == RowMajor(n, j, i) {
          RowMajorUnique(n, j', i', j, i);
        }
      }
    }
  }

  /** p is the address of a diagonal entry (i, i) with i < k. */
  predicate OnDiagonalBelow(n: nat, p: int, k: int)
  {
    exists i: nat :: i < k && p == RowMajor(n, i, i)
  }

  /** p is the address of a diagonal entry of the n by n matrix. */
  predicate OnDiagonal(n: int, p: int)
  {
    n >= 0 && OnDiagonalBelow(n, p, n)
  }

  // ---------------------------------------------------------------------
  // Properties

  /** A freshly constructed (all zero) matrix after create_identity holds
      the identity. */
  lemma ZeroThenIdentity(zero: seq<real>, e: seq<real>, n: nat)
    requires |e| == |zero| && Holds(zero, n)
    requires forall p :: 0 <= p < |zero| ==> zero[p] == 0.0
    requires forall i: nat :: i < n ==> At(e, n, i, i) == 1.0
    requires forall p :: 0 <= p < |e| && !OnDiagonal(n, p) ==> e[p] == zero[p]
    ensures IsIdentity(e, n)
  {
    forall i: nat, j: nat | i < n && j < n && i != j
      ensures At(e, n, i, j) == 0.0
    {
      RowMajorInside(n, n, i, j);
      if OnDiagonal(n, RowMajor(n, i, j)) {
        var d: nat :| d < n && RowMajor(n, i, j) == RowMajor(n, d, d);
        RowMajorUnique(n, i, j, d, d);
      }
    }
  }

  /** Multiplying by the identity on the left: the first k terms of row i
      of the identity times column j of b pick out b's entry (i, j) once
      k has passed i. */
  lemma {:induction false} DotIdentityLeft(e: seq<real>, b: seq<real>, n: nat, i: nat, j: nat, k: nat)
    requires Holds(e, n) && Holds(b, n) && i < n && j < n && k <= n && IsIdentity(e, n)
    ensures Dot(e, b, n, i, j, k) == if i < k then At(b, n, i, j) else 0.0
  {
    if k > 0 {
      DotIdentityLeft(e, b, n, i, j, k - 1);
    }
  }

  lemma {:induction false} DotIdentityRight(a: seq<real>, e: seq<real>, n: nat, i: nat, j: nat, k: nat)
    requires Holds(a, n) && Holds(e, n) && i < n && j < n && k <= n && IsIdentity(e, n)
    ensures Dot(a, e, n, i, j, k) == if j < k then At(a, n, i, j) else 0.0
  {
    if k > 0 {
      DotIdentityRight(a, e, n, i, j, k - 1);
    }
  }

  /** The identity is a two-sided unit of operator*. */
  lemma IdentityUnit(e: seq<real>, b: seq<real>, c: seq<real>, d: seq<real>, n: nat)
    requires Holds(e, n) && Holds(b, n) && Holds(c, n) && Holds(d, n) && IsIdentity(e, n)
    requires IsProduct(c, e, b, n) && IsProduct(d, b, e, n)
    ensures SameMatrix(c, b, n) && SameMatrix(d, b, n)
  {
    forall i: nat, j: nat | i < n && j < n
      ensures At(c, n, i, j) == At(b, n, i, j) && At(d, n, i, j) == At(b, n, i, j)
    {
      DotIdentityLeft(e, b, n, i, j, n);
      DotIdentityRight(b, e, n, i, j, n);
    }
  }

  /** Transposing twice gives back the original matrix. */
  lemma TransposeTwice(a: seq<real>, t: seq<real>, u: seq<real>, n: nat)
    requires Holds(a, n) && Holds(t, n) && Holds(u, n)
    requires IsTranspose(t, a, n) && IsTranspose(u, t, n)
    ensures SameMatrix(u, a, n)
  {
    forall i: nat, j: nat | i < n && j < n
      ensures At(u, n, i, j) == At(a, n, i, j)
    {
      assert At(u, n, i, j) == At(t, n, j, i);
    }
  }

  /** The dot product read off the transposes, in the other order. */
  lemma {:induction false} DotTranspose(a: seq<real>, b: seq<real>, at: seq<real>, bt: seq<real>, n: nat, i: nat, j: nat, k: nat)
    requires Holds(a, n) && Holds(b, n) && Holds(at, n) && Holds(bt, n)
    requires IsTranspose(at, a, n) && IsTranspose(bt, b, n)
    requires i < n && j < n && k <= n
    ensures Dot(bt, at, n, j, i, k) == Dot(a, b, n, i, j, k)
  {
    if k > 0 {
      DotTranspose(a, b, at, bt, n, i, j, k - 1);
      assert At(bt, n, j, k - 1) == At(b, n, k - 1, j);
      assert At(at, n, k - 1, i) == At(a, n, i, k - 1);
    }
  }

  /** The transpose of a product is the product of the transposes in the
      other order. */
  lemma TransposeOfProduct(a: seq<real>, b: seq<real>, c: seq<real>, at: seq<real>, bt: seq<real>, ct: seq<real>, n: nat)
    requires Holds(a, n) && Holds(b, n) && Holds(c, n) && Holds(at, n) && Holds(bt, n) && Holds(ct, n)
    requires IsProduct(c, a, b, n)
    requires IsTranspose(at, a, n) && IsTranspose(bt, b, n) && IsTranspose(ct, c, n)
    ensures IsProduct(ct, bt, at, n)
  {
    forall j: nat, i: nat | j < n && i < n
      ensures At(ct, n, j, i) == Dot(bt, at, n, j, i, n)
    {
      DotTranspose(a, b, at, bt, n, i, j, n);
    }
  }
}
