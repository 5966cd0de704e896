/** Row-major matrices stored in flat buffers with an explicit row width, the
    layout both cilk5/strassen.c (ELEM) and the blocks of cilk5/lu.c use, and
    the matrix product they are all measured against. */
module Strided {
  import opened Arith

  /** A window into a flat buffer: element (i, j) lives at off + i*stride + j.
      A source pointer `A` with row width `an` is View(offset of A, an). */
  datatype View = View(off: int, stride: int)
  {
    function At(i: int, j: int): int
    {
      off + i * stride + j
    }

    /** The (qi, qj) quadrant of a window of side 2h: the pointer
        A + qi*h*RowWidth + qj*h, with the same row width. */
    function Quad(qi: int, qj: int, h: int): View
    {
      View(off + qi * h * stride + qj * h, stride)
    }
  }

  /** Reading a buffer; positions outside it read as 0 so that the
      specification functions need no preconditions. */
  function Get(s: seq<int>, p: int): int
  {
    if 0 <= p < |s| then s[p] else 0
  }

  /** The m-by-n window v lies inside a buffer of length len and its rows do
      not overlap (the row width is at least n). */
  predicate FitsRect(v: View, m: nat, n: nat, len: int)
  {
    v.off >= 0 && v.stride >= n && (m > 0 && n > 0 ==> v.At(m - 1, n - 1) < len)
  }

  predicate Fits(v: View, n: nat, len: int)
  {
    FitsRect(v, n, n, len)
  }

  /** Position p belongs to the n-by-n window v. */
  predicate InWindow(v: View, n: nat, p: int)
  {
    n > 0 && v.stride > 0 && p >= v.off && (p - v.off) / v.stride < n && (p - v.off) % v.stride < n
  }

  /** Every element of a fitting window is inside the buffer. */
  lemma AtInBoundsRect(v: View, m: nat, n: nat, len: int, i: int, j: int)
    requires FitsRect(v, m, n, len) && 0 <= i < m && 0 <= j < n
    ensures 0 <= v.At(i, j) < len
  {
    MulMonotone(i, m - 1, v.stride);
    assert i * v.stride >= 0 by { MulMonotone(0, i, v.stride); }
  }

  /** Every element of a fitting square window is inside the buffer and inside the window. */
  lemma AtInBounds(v: View, n: nat, len: int, i: int, j: int)
    requires Fits(v, n, len) && 0 <= i < n && 0 <= j < n
    ensures 0 <= v.At(i, j) < len && InWindow(v, n, v.At(i, j))
  {
    AtInBoundsRect(v, n, n, len, i, j);
    AtInWindow(v, n, i, j);
  }

  lemma AtInWindow(v: View, n: nat, i: int, j: int)
    requires v.stride >= n && 0 <= i < n && 0 <= j < n
    ensures InWindow(v, n, v.At(i, j))
  {
    DivMod(i, v.stride, j);
  }

  /** One row down is one row width further on. */
  lemma NextRow(v: View, i: int, j: int)
    ensures v.At(i, j) + v.stride == v.At(i + 1, j)
  {
    assert (i + 1) * v.stride == i * v.stride + v.stride;
  }

  /** Element (i, j) of quadrant (qi, qj) is element (qi*h + i, qj*h + j) of the whole. */
  lemma QuadAt(v: View, qi: int, qj: int, h: int, i: int, j: int)
    ensures v.Quad(qi, qj, h).At(i, j) == v.At(qi * h + i, qj * h + j)
  {
    assert (qi * h + i) * v.stride == qi * h * v.stride + i * v.stride;
  }

  /** A position of a window is the element at its quotient and remainder. */
  lemma WindowAt(v: View, n: nat, p: int) returns (i: int, j: int)
    requires InWindow(v, n, p)
    ensures 0 <= i < n && 0 <= j < n && p == v.At(i, j)
  {
    i, j := (p - v.off) / v.stride, (p - v.off) % v.stride;
  }

  /** Distinct elements of a window whose rows do not overlap sit at distinct positions. */
  lemma AtInjective(v: View, i: int, j: int, i': int, j': int)
    requires 0 <= j < v.stride && 0 <= j' < v.stride && v.At(i, j) == v.At(i', j')
    ensures i == i' && j == j'
  {
    DivMod(i, v.stride, j);
    DivMod(i', v.stride, j');
  }

  /** The positions v.At(i, j0) .. v.At(i, j0) + w - 1 are exactly the
      elements j0 .. j0 + w - 1 of row i. */
  lemma AtSegment(v: View, i: int, j0: int, w: int, i': int, j': int)
    requires 0 <= j0 && j0 + w <= v.stride && 0 <= j' < v.stride
    ensures v.At(i, j0) <= v.At(i', j') < v.At(i, j0) + w <==> i' == i && j0 <= j' < j0 + w
  {
    var d := v.At(i', j') - v.At(i, j0);
    if 0 <= d < w {
      assert v.At(i', j') == v.At(i, j0 + d);
      AtInjective(v, i', j', i, j0 + d);
    }
  }

  /** A quadrant of a fitting window of side 2h fits, and its window lies
      inside the whole window. */
  lemma QuadFits(v: View, h: nat, len: int, qi: int, qj: int)
    requires Fits(v, 2 * h, len) && 0 <= qi <= 1 && 0 <= qj <= 1
    ensures Fits(v.Quad(qi, qj, h), h, len)
    ensures forall p :: InWindow(v.Quad(qi, qj, h), h, p) ==> InWindow(v, 2 * h, p)
  {
    var q := v.Quad(qi, qj, h);
    if h > 0 {
      QuadAt(v, qi, qj, h, h - 1, h - 1);
      AtInBounds(v, 2 * h, len, qi * h + h - 1, qj * h + h - 1);
      assert q.off >= 0 by { MulMonotone(0, qi * h, v.stride); }
    }
    forall p | InWindow(q, h, p)
      ensures InWindow(v, 2 * h, p)
    {
      var i, j := WindowAt(q, h, p);
      QuadAt(v, qi, qj, h, i, j);
      QuadInner(v, h, len, qi, qj, i, j);
    }
  }

  /** Row or column i of quadrant q (0 or 1) of a side-2h window is inside the window. */
  lemma HalfIndex(q: int, h: nat, i: int)
    requires 0 <= q <= 1 && 0 <= i < h
    ensures 0 <= q * h + i < 2 * h
  {
    if q == 0 {
      assert q * h == 0;
    } else {
      assert q * h == h;
    }
  }

  lemma QuadInner(v: View, h: nat, len: int, qi: int, qj: int, i: int, j: int)
    requires Fits(v, 2 * h, len) && 0 <= qi <= 1 && 0 <= qj <= 1 && 0 <= i < h && 0 <= j < h
    ensures InWindow(v, 2 * h, v.At(qi * h + i, qj * h + j))
  {
    assert 0 <= qi * h + i < 2 * h && 0 <= qj * h + j < 2 * h by {
      if qi == 0 { } else { }
      if qj == 0 { } else { }
    }
    AtInBounds(v, 2 * h, len, qi * h + i, qj * h + j);
  }

  /** Distinct quadrants of a window of side 2h (row width at least 2h) share
      no position. */
  lemma QuadDisjoint(v: View, h: nat, qi: int, qj: int, ri: int, rj: int, i: int, j: int)
    requires v.stride >= 2 * h && 0 <= qi <= 1 && 0 <= qj <= 1 && 0 <= ri <= 1 && 0 <= rj <= 1
    requires (qi, qj) != (ri, rj) && 0 <= i < h && 0 <= j < h
    ensures !InWindow(v.Quad(ri, rj, h), h, v.Quad(qi, qj, h).At(i, j))
  {
    var p := v.Quad(qi, qj, h).At(i, j);
    if InWindow(v.Quad(ri, rj, h), h, p) {
      var i', j' := WindowAt(v.Quad(ri, rj, h), h, p);
      QuadAt(v, qi, qj, h, i, j);
      QuadAt(v, ri, rj, h, i', j');
      HalfIndex(qj, h, j);
      HalfIndex(rj, h, j');
      AtInjective(v, qi * h + i, qj * h + j, ri * h + i', rj * h + j');
      HalfOf(h, qi, i, ri, i');
      HalfOf(h, qj, j, rj, j');
      assert false;
    }
  }

  /** Index qi*h + i of a side of length 2h, for qi in {0, 1} and i < h,
      determines its half qi. */
  lemma HalfOf(h: int, qi: int, i: int, ri: int, r: int)
    requires 0 <= qi <= 1 && 0 <= ri <= 1 && 0 <= i < h && 0 <= r < h
    ensures qi * h + i == ri * h + r ==> qi == ri
  {
    if qi == 0 { } else { }
    if ri == 0 { } else { }
  }

  /** Sum over t < k of A[i][t] * B[t][j]: the (i, j) entry of the product of
      the first k columns of A with the first k rows of B, accumulated in the
      order the kernels accumulate it. */
  function Prod(A: seq<int>, av: View, B: seq<int>, bv: View, i: int, j: int, k: nat): int
  {
    if k == 0 then 0
    else Prod(A, av, B, bv, i, j, k - 1) + Get(A, av.At(i, k - 1)) * Get(B, bv.At(k - 1, j))
  }

  /** A product only depends on the entries it reads: two products whose
      factors agree entry by entry are equal (frames and re-indexing). */
  lemma {:induction false} ProdCongruent(A1: seq<int>, v1: View, B1: seq<int>, w1: View, i1: int, j1: int,
                                         A2: seq<int>, v2: View, B2: seq<int>, w2: View, i2: int, j2: int, k: nat)
    requires forall t :: 0 <= t < k ==> Get(A1, v1.At(i1, t)) == Get(A2, v2.At(i2, t))
    requires forall t :: 0 <= t < k ==> Get(B1, w1.At(t, j1)) == Get(B2, w2.At(t, j2))
    ensures Prod(A1, v1, B1, w1, i1, j1, k) == Prod(A2, v2, B2, w2, i2, j2, k)
  {
    if k > 0 {
      ProdCongruent(A1, v1, B1, w1, i1, j1, A2, v2, B2, w2, i2, j2, k - 1);
    }
  }

  /** Splitting the inner dimension at h: the last k terms form the product of
      columns h.. of A with rows h.. of B. */
  lemma {:induction false} ProdSplit(A: seq<int>, av: View, B: seq<int>, bv: View, i: int, j: int, h: nat, k: nat)
    ensures Prod(A, av, B, bv, i, j, h + k)
         == Prod(A, av, B, bv, i, j, h)
          + Prod(A, View(av.off + h, av.stride), B, View(bv.off + h * bv.stride, bv.stride), i, j, k)
  {
    if k > 0 {
      ProdSplit(A, av, B, bv, i, j, h, k - 1);
      var bv' := View(bv.off + h * bv.stride, bv.stride);
      assert bv.At(h + k - 1, j) == bv'.At(k - 1, j) by {
        assert (h + k - 1) * bv.stride == h * bv.stride + (k - 1) * bv.stride;
      }
    }
  }

  /** Block multiplication: entry (qi*h + i, qj*h + j) of the product of two
      windows of side 2h is the sum of the two quadrant products
      A_{qi,0} * B_{0,qj} + A_{qi,1} * B_{1,qj} at (i, j). */
  lemma BlockProd(A: seq<int>, av: View, B: seq<int>, bv: View, h: nat, qi: int, qj: int, i: int, j: int)
    ensures Prod(A, av, B, bv, qi * h + i, qj * h + j, 2 * h)
         == Prod(A, av.Quad(qi, 0, h), B, bv.Quad(0, qj, h), i, j, h)
          + Prod(A, av.Quad(qi, 1, h), B, bv.Quad(1, qj, h), i, j, h)
  {
    ProdSplit(A, av, B, bv, qi * h + i, qj * h + j, h, h);
    forall t | 0 <= t < h
      ensures Get(A, av.At(qi * h + i, t)) == Get(A, av.Quad(qi, 0, h).At(i, t))
      ensures Get(B, bv.At(t, qj * h + j)) == Get(B, bv.Quad(0, qj, h).At(t, j))
      ensures Get(A, View(av.off + h, av.stride).At(qi * h + i, t)) == Get(A, av.Quad(qi, 1, h).At(i, t))
      ensures Get(B, View(bv.off + h * bv.stride, bv.stride).At(t, qj * h + j)) == Get(B, bv.Quad(1, qj, h).At(t, j))
    {
      BlockProdTerm(av, bv, h, qi, qj, i, j, t);
    }
    ProdCongruent(A, av, B, bv, qi * h + i, qj * h + j, A, av.Quad(qi, 0, h), B, bv.Quad(0, qj, h), i, j, h);
    ProdCongruent(A, View(av.off + h, av.stride), B, View(bv.off + h * bv.stride, bv.stride), qi * h + i, qj * h + j,
                  A, av.Quad(qi, 1, h), B, bv.Quad(1, qj, h), i, j, h);
  }

  lemma BlockProdTerm(av: View, bv: View, h: int, qi: int, qj: int, i: int, j: int, t: int)
    ensures av.At(qi * h + i, t) == av.Quad(qi, 0, h).At(i, t)
    ensures bv.At(t, qj * h + j) == bv.Quad(0, qj, h).At(t, j)
    ensures View(av.off + h, av.stride).At(qi * h + i, t) == av.Quad(qi, 1, h).At(i, t)
    ensures View(bv.off + h * bv.stride, bv.stride).At(t, qj * h + j) == bv.Quad(1, qj, h).At(t, j)
  {
    QuadAt(av, qi, 0, h, i, t);
    QuadAt(bv, 0, qj, h, t, j);
    QuadAt(av, qi, 1, h, i, t);
    QuadAt(bv, 1, qj, h, t, j);
    assert (1 * h + t) * bv.stride == h * bv.stride + t * bv.stride;
  }

  /** The product is linear in its left factor: if row i of X is row i of Y
      plus (sign = 1) or minus (sign = -1) row i of Z, so is the product. */
  lemma {:induction false} ProdLinearLeft(X: seq<int>, xv: View, Y: seq<int>, yv: View, Z: seq<int>, zv: View,
                                          sign: int, B: seq<int>, bv: View, i: int, j: int, k: nat)
    requires sign == 1 || sign == -1
    requires forall t :: 0 <= t < k ==> Get(X, xv.At(i, t)) == Get(Y, yv.At(i, t)) + sign * Get(Z, zv.At(i, t))
    ensures Prod(X, xv, B, bv, i, j, k) == Prod(Y, yv, B, bv, i, j, k) + sign * Prod(Z, zv, B, bv, i, j, k)
  {
    if k > 0 {
      ProdLinearLeft(X, xv, Y, yv, Z, zv, sign, B, bv, i, j, k - 1);
      var y, z, b := Get(Y, yv.At(i, k - 1)), Get(Z, zv.At(i, k - 1)), Get(B, bv.At(k - 1, j));
      if sign == 1 {
        assert (y + z) * b == y * b + z * b;
      } else {
        assert (y - z) * b == y * b - z * b;
      }
    }
  }

  /** The product is linear in its right factor. */
  lemma {:induction false} ProdLinearRight(A: seq<int>, av: View, X: seq<int>, xv: View, Y: seq<int>, yv: View,
                                           Z: seq<int>, zv: View, sign: int, i: int, j: int, k: nat)
    requires sign == 1 || sign == -1
    requires forall t :: 0 <= t < k ==> Get(X, xv.At(t, j)) == Get(Y, yv.At(t, j)) + sign * Get(Z, zv.At(t, j))
    ensures Prod(A, av, X, xv, i, j, k) == Prod(A, av, Y, yv, i, j, k) + sign * Prod(A, av, Z, zv, i, j, k)
  {
    if k > 0 {
      ProdLinearRight(A, av, X, xv, Y, yv, Z, zv, sign, i, j, k - 1);
      var a, y, z := Get(A, av.At(i, k - 1)), Get(Y, yv.At(k - 1, j)), Get(Z, zv.At(k - 1, j));
      if sign == 1 {
        assert a * (y + z) == a * y + a * z;
      } else {
        assert a * (y - z) == a * y - a * z;
      }
    }
  }

  /** The value a multiply kernel leaves at cell (i, j) of the n-by-n window
      cv: (in accumulate mode, the old value plus) the product A x B. */
  function Target(C0: seq<int>, cv: View, A: seq<int>, av: View, B: seq<int>, bv: View,
                  n: nat, add: bool, i: int, j: int): int
  {
    (if add then Get(C0, cv.At(i, j)) else 0) + Prod(A, av, B, bv, i, j, n)
  }

  /** Cell (i, j) comes before cell (row, col) in row-major order. */
  predicate Before(i: int, j: int, row: int, col: int)
  {
    i < row || (i == row && j < col)
  }

  /** A row-major multiply kernel has reached cell (row, col): C equals C0
      outside the window cv, holds the Target at every cell before (row, col)
      and still holds C0 at the others. */
  ghost predicate MulProgress(C: seq<int>, C0: seq<int>, cv: View, A: seq<int>, av: View, B: seq<int>, bv: View,
                              n: nat, add: bool, row: int, col: int)
  {
    |C| == |C0|
    && (forall p :: 0 <= p < |C| && !InWindow(cv, n, p) ==> C[p] == C0[p])
    && (forall i, j :: 0 <= i < n && 0 <= j < n ==>
          Get(C, cv.At(i, j)) == if Before(i, j, row, col) then Target(C0, cv, A, av, B, bv, n, add, i, j)
                                 else Get(C0, cv.At(i, j)))
  }

  /** The kernel's postcondition: every cell of the window done, nothing else touched. */
  ghost predicate Multiplied(C: seq<int>, C0: seq<int>, cv: View, A: seq<int>, av: View, B: seq<int>, bv: View,
                             n: nat, add: bool)
  {
    MulProgress(C, C0, cv, A, av, B, bv, n, add, n, 0)
  }

  /** Storing the targets of cells (row, col) .. (row, col + w - 1), which are
      consecutive in the buffer, advances the progress by w cells. */
  lemma MulProgressStore(C: seq<int>, C': seq<int>, C0: seq<int>, cv: View, A: seq<int>, av: View, B: seq<int>, bv: View,
                         n: nat, add: bool, row: int, col: int, w: nat)
    requires MulProgress(C, C0, cv, A, av, B, bv, n, add, row, col)
    requires cv.stride >= n && 0 <= row < n && 0 <= col && col + w <= n
    requires |C'| == |C|
    requires forall p :: 0 <= p < |C| && !(cv.At(row, col) <= p < cv.At(row, col) + w) ==> C'[p] == C[p]
    requires forall j :: col <= j < col + w ==> Get(C', cv.At(row, j)) == Target(C0, cv, A, av, B, bv, n, add, row, j)
    ensures MulProgress(C', C0, cv, A, av, B, bv, n, add, row, col + w)
  {
    var c := cv.At(row, col);
    forall p | 0 <= p < |C'| && !InWindow(cv, n, p)
      ensures C'[p] == C0[p]
    {
      if c <= p < c + w {
        assert p == cv.At(row, col + (p - c));
        AtInWindow(cv, n, row, col + (p - c));
        assert false;
      }
    }
    forall i, j | 0 <= i < n && 0 <= j < n
      ensures Get(C', cv.At(i, j)) == if Before(i, j, row, col + w) then Target(C0, cv, A, av, B, bv, n, add, i, j)
                                      else Get(C0, cv.At(i, j))
    {
      if !(i == row && col <= j < col + w) {
        AtSegment(cv, row, col, w, i, j);
        assert Get(C', cv.At(i, j)) == Get(C, cv.At(i, j));
        assert Before(i, j, row, col + w) == Before(i, j, row, col);
      }
    }
  }

  /** Finishing a row moves the progress to the start of the next one. */
  lemma MulProgressNextRow(C: seq<int>, C0: seq<int>, cv: View, A: seq<int>, av: View, B: seq<int>, bv: View,
                           n: nat, add: bool, row: int)
    requires MulProgress(C, C0, cv, A, av, B, bv, n, add, row, n)
    ensures MulProgress(C, C0, cv, A, av, B, bv, n, add, row + 1, 0)
  {
    forall i, j | 0 <= i < n && 0 <= j < n
      ensures Before(i, j, row, n) == Before(i, j, row + 1, 0)
    {
    }
  }

  /** C' differs from C only inside the n-by-n window v. */
  ghost predicate Framed(C': seq<int>, C: seq<int>, v: View, n: nat)
  {
    |C'| == |C| && forall p :: 0 <= p < |C| && !InWindow(v, n, p) ==> C'[p] == C[p]
  }

  /** Helper: a multiply kernel changes nothing outside its window. */
  lemma MultipliedFramed(C: seq<int>, C0: seq<int>, cv: View, A: seq<int>, av: View, B: seq<int>, bv: View, n: nat, add: bool)
    requires Multiplied(C, C0, cv, A, av, B, bv, n, add)
    ensures Framed(C, C0, cv, n)
  {
  }

  /** A write confined to quadrant (ri, rj) of a window of side 2q leaves
      every cell of another quadrant (qi, qj) as it was. */
  lemma Kept(C': seq<int>, C: seq<int>, cv: View, q: nat, ri: int, rj: int, qi: int, qj: int, i: int, j: int)
    requires cv.stride >= 2 * q && Framed(C', C, cv.Quad(ri, rj, q), q)
    requires 0 <= qi <= 1 && 0 <= qj <= 1 && 0 <= ri <= 1 && 0 <= rj <= 1 && (qi, qj) != (ri, rj)
    requires 0 <= i < q && 0 <= j < q
    ensures Get(C', cv.Quad(qi, qj, q).At(i, j)) == Get(C, cv.Quad(qi, qj, q).At(i, j))
  {
    QuadDisjoint(cv, q, qi, qj, ri, rj, i, j);
  }

  /** Outside a window of side 2q, a write confined to one of its quadrants changes nothing. */
  lemma KeptOutside(C': seq<int>, C: seq<int>, cv: View, q: nat, len: int, ri: int, rj: int)
    requires Fits(cv, 2 * q, len) && 0 <= ri <= 1 && 0 <= rj <= 1 && Framed(C', C, cv.Quad(ri, rj, q), q)
    ensures Framed(C', C, cv, 2 * q)
  {
    QuadFits(cv, q, len, ri, rj);
  }

  /** S = X + sign * Y on every cell of a q-by-q window. */
  ghost predicate IsSum(S: seq<int>, sv: View, X: seq<int>, xv: View, sign: int, Y: seq<int>, yv: View, q: nat)
  {
    forall i, j :: 0 <= i < q && 0 <= j < q ==> Get(S, sv.At(i, j)) == Get(X, xv.At(i, j)) + sign * Get(Y, yv.At(i, j))
  }

  /** (X + sign * Y) x B = X x B + sign * (Y x B), at one cell. */
  lemma SumLeft(S: seq<int>, sv: View, X: seq<int>, xv: View, sign: int, Y: seq<int>, yv: View, q: nat,
                B: seq<int>, bv: View, i: int, j: int)
    requires IsSum(S, sv, X, xv, sign, Y, yv, q) && (sign == 1 || sign == -1) && 0 <= i < q
    ensures Prod(S, sv, B, bv, i, j, q) == Prod(X, xv, B, bv, i, j, q) + sign * Prod(Y, yv, B, bv, i, j, q)
  {
    ProdLinearLeft(S, sv, X, xv, Y, yv, sign, B, bv, i, j, q);
  }

  /** A x (X + sign * Y) = A x X + sign * (A x Y), at one cell. */
  lemma SumRight(A: seq<int>, av: View, S: seq<int>, sv: View, X: seq<int>, xv: View, sign: int, Y: seq<int>, yv: View,
                 q: nat, i: int, j: int)
    requires IsSum(S, sv, X, xv, sign, Y, yv, q) && (sign == 1 || sign == -1) && 0 <= j < q
    ensures Prod(A, av, S, sv, i, j, q) == Prod(A, av, X, xv, i, j, q) + sign * Prod(A, av, Y, yv, i, j, q)
  {
    ProdLinearRight(A, av, S, sv, X, xv, Y, yv, sign, i, j, q);
  }
}
