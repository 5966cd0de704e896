/** cilk5/strassen.c over the integers: the reference product, the unrolled
    naive kernels, the quadrant recursion, Strassen's seven-product recursion,
    the matrix-vector product used by the randomised check, the LCG and the
    size check of `main`. A matrix is a View into a flat array (ELEM). */
module Strassen {
  import opened Arith
  import opened Strided

  /** SizeAtWhichDivideAndConquerIsMoreEfficient */
  const DivideAndConquerSize := 64
  /** SizeAtWhichNaiveAlgorithmIsMoreEfficient */
  const NaiveSize := 16

  /** The naive reference: C[i][j] = sum over k of A[i][k] * B[k][j] (matrixmul). */
  method MatrixMul(n: nat, A: array<int>, av: View, B: array<int>, bv: View, C: array<int>, cv: View)
    requires C != A && C != B
    requires Fits(av, n, A.Length) && Fits(bv, n, B.Length) && Fits(cv, n, C.Length)
    modifies C
    ensures Multiplied(C[..], old(C[..]), cv, A[..], av, B[..], bv, n, false)
  {
    ghost var C0, As, Bs := C[..], A[..], B[..];
    var i := 0;
    while i < n
      invariant 0 <= i <= n
      invariant MulProgress(C[..], C0, cv, As, av, Bs, bv, n, false, i, 0)
    {
      var j := 0;
      while j < n
        invariant 0 <= j <= n
        invariant MulProgress(C[..], C0, cv, As, av, Bs, bv, n, false, i, j)
      {
        var s := 0;
        var k := 0;
        while k < n
          invariant 0 <= k <= n
          invariant s == Prod(As, av, Bs, bv, i, j, k)
          modifies {}
        {
          AtInBounds(av, n, A.Length, i, k);
          AtInBounds(bv, n, B.Length, k, j);
          s := s + A[av.At(i, k)] * B[bv.At(k, j)];
          k := k + 1;
        }
        AtInBounds(cv, n, C.Length, i, j);
        ghost var before := C[..];
        C[cv.At(i, j)] := s;

        MulProgressStore(before, C[..], C0, cv, As, av, Bs, bv, n, false, i, j, 1);
        j := j + 1;
      }
      MulProgressNextRow(C[..], C0, cv, As, av, Bs, bv, n, false, i);
      i := i + 1;
    }
  }

  /** The eight entries of row `row`, columns col .. col + 7, of a fitting window. */
  lemma EightInBounds(v: View, n: nat, len: int, row: int, col: int)
    requires Fits(v, n, len) && 0 <= row < n && 0 <= col && col + 8 <= n
    ensures 0 <= v.At(row, col) && v.At(row, col) + 8 <= len
  {
    AtInBounds(v, n, len, row, col);
    AtInBounds(v, n, len, row, col + 7);
  }

  /** The product loop of both naive kernels: walks row `row` of A from
      column `from` on, and rows from.. of B at columns col .. col + 7, adding
      A[row][k] * B[k][col + c] into running sum c (Sum0 .. Sum7). */
  method AccumulateEight(A: array<int>, av: View, B: array<int>, bv: View, n: nat,
                         row: nat, col: nat, from: nat, sums0: seq<int>) returns (sums: seq<int>)
    requires Fits(av, n, A.Length) && Fits(bv, n, B.Length)
    requires row < n && col + 8 <= n && from <= n && |sums0| == 8
    ensures |sums| == 8
    ensures forall c :: 0 <= c < 8 ==>
      sums[c] + Prod(A[..], av, B[..], bv, row, col + c, from) == sums0[c] + Prod(A[..], av, B[..], bv, row, col + c, n)
  {
    var aRowStart := av.At(row, from);
    var bColumnStart := bv.At(from, col);
    sums := sums0;
    var products := from;
    while products < n
      invariant from <= products <= n
      invariant aRowStart == av.At(row, products) && bColumnStart == bv.At(products, col)
      invariant |sums| == 8
      invariant forall c :: 0 <= c < 8 ==>
        sums[c] + Prod(A[..], av, B[..], bv, row, col + c, from) == sums0[c] + Prod(A[..], av, B[..], bv, row, col + c, products)
    {
      AtInBounds(av, n, A.Length, row, products);
      EightInBounds(bv, n, B.Length, products, col);
      var aRowValue := A[aRowStart];
      aRowStart := aRowStart + 1;
      var bRow := B[bColumnStart..bColumnStart + 8];
      assert forall c :: 0 <= c < 8 ==> bRow[c] == Get(B[..], bv.At(products, col + c));
      sums := seq(8, c requires 0 <= c < 8 => sums[c] + aRowValue * bRow[c]);
      NextRow(bv, products, col);
      bColumnStart := bColumnStart + bv.stride;
      products := products + 1;
    }
  }

  /** A cell at or after (row, col) still holds its initial value. */
  lemma NotYetWritten(C: seq<int>, C0: seq<int>, cv: View, As: seq<int>, av: View, Bs: seq<int>, bv: View,
                      n: nat, add: bool, row: int, col: int, k: nat)
    requires MulProgress(C, C0, cv, As, av, Bs, bv, n, add, row, col)
    requires 0 <= row < n && 0 <= col && col + k < n
    ensures Get(C, cv.At(row, col + k)) == Get(C0, cv.At(row, col + k))
  {
    assert !Before(row, col + k, row, col);
  }

  /** Below a multiple of 8, a multiple of 8 has eight more places before it. */
  lemma EightMore(n: nat, horizontal: nat)
    requires n % 8 == 0 && horizontal % 8 == 0 && horizontal < n
    ensures horizontal + 8 <= n && (horizontal + 8) % 8 == 0
  {
    assert horizontal == 8 * (horizontal / 8) && n == 8 * (n / 8);
  }

  /** The stores at the end of both naive kernels' inner loop: eight
      finished cells of row `row`, columns col .. col + 7, written to C at c. */
  method StoreEight(C: array<int>, cv: View, c: int, n: nat, row: nat, col: nat, sums: seq<int>,
                    ghost C0: seq<int>, ghost As: seq<int>, av: View, ghost Bs: seq<int>, bv: View, add: bool)
    requires Fits(cv, n, C.Length) && row < n && col + 8 <= n && c == cv.At(row, col) && |sums| == 8
    requires MulProgress(C[..], C0, cv, As, av, Bs, bv, n, add, row, col)
    requires forall k :: 0 <= k < 8 ==> sums[k] == Target(C0, cv, As, av, Bs, bv, n, add, row, col + k)
    modifies C
    ensures MulProgress(C[..], C0, cv, As, av, Bs, bv, n, add, row, col + 8)
  {
    EightInBounds(cv, n, C.Length, row, col);
    ghost var before := C[..];
    forall k | 0 <= k < 8 {
      C[c + k] := sums[k];
    }
    forall j | col <= j < col + 8
      ensures Get(C[..], cv.At(row, j)) == Target(C0, cv, As, av, Bs, bv, n, add, row, j)
    {
      assert cv.At(row, j) == c + (j - col);
      assert sums[j - col] == Target(C0, cv, As, av, Bs, bv, n, add, row, col + (j - col));
    }
    MulProgressStore(before, C[..], C0, cv, As, av, Bs, bv, n, add, row, col, 8);
  }

  /** C = A x B on n-by-n windows, eight columns of C per pass over a row of
      A; n must be a multiple of 8 (FastNaiveMatrixMultiply). */
  method FastNaive(C: array<int>, cv: View, A: array<int>, av: View, B: array<int>, bv: View, n: nat)
    requires C != A && C != B && n % 8 == 0
    requires Fits(av, n, A.Length) && Fits(bv, n, B.Length) && Fits(cv, n, C.Length)
    modifies C
    ensures Multiplied(C[..], old(C[..]), cv, A[..], av, B[..], bv, n, false)
  {
    ghost var C0, As, Bs := C[..], A[..], B[..];
    assert n == 8 * (n / 8);
    var aRowStart := av.off;
    var c := cv.off;
    var vertical := 0;
    while vertical < n
      invariant 0 <= vertical <= n
      invariant aRowStart == av.At(vertical, 0) && c == cv.At(vertical, 0)
      invariant MulProgress(C[..], C0, cv, As, av, Bs, bv, n, false, vertical, 0)
    {
      var horizontal := 0;
      while horizontal < n
        invariant 0 <= horizontal <= n && horizontal % 8 == 0
        invariant c == cv.At(vertical, horizontal)
        invariant MulProgress(C[..], C0, cv, As, av, Bs, bv, n, false, vertical, horizontal)
      {
        EightMore(n, horizontal);
        var bColumnStart := bv.At(0, horizontal);
        AtInBounds(av, n, A.Length, vertical, 0);
        EightInBounds(bv, n, B.Length, 0, horizontal);
        var firstARowValue := A[aRowStart];
        var bRow := B[bColumnStart..bColumnStart + 8];
        var first := seq(8, k requires 0 <= k < 8 => firstARowValue * bRow[k]);
        assert forall k :: 0 <= k < 8 ==> first[k] == Prod(As, av, Bs, bv, vertical, horizontal + k, 1);
        var sums := AccumulateEight(A, av, B, bv, n, vertical, horizontal, 1, first);
        StoreEight(C, cv, c, n, vertical, horizontal, sums, C0, As, av, Bs, bv, false);
        c := c + 8;
        horizontal := horizontal + 8;
      }
      MulProgressNextRow(C[..], C0, cv, As, av, Bs, bv, n, false, vertical);
      NextRow(av, vertical, 0);
      NextRow(cv, vertical, 0);
      aRowStart := aRowStart + av.stride;
      c := c + (cv.stride - n);
      vertical := vertical + 1;
    }
  }

  /** C = C + A x B on n-by-n windows, with the same access pattern
      (FastAdditiveNaiveMatrixMultiply). */
  method FastAdditiveNaive(C: array<int>, cv: View, A: array<int>, av: View, B: array<int>, bv: View, n: nat)
    requires C != A && C != B && n % 8 == 0
    requires Fits(av, n, A.Length) && Fits(bv, n, B.Length) && Fits(cv, n, C.Length)
    modifies C
    ensures Multiplied(C[..], old(C[..]), cv, A[..], av, B[..], bv, n, true)
  {
    ghost var C0, As, Bs := C[..], A[..], B[..];
    assert n == 8 * (n / 8);
    var c := cv.off;
    var vertical := 0;
    while vertical < n
      invariant 0 <= vertical <= n
      invariant c == cv.At(vertical, 0)
      invariant MulProgress(C[..], C0, cv, As, av, Bs, bv, n, true, vertical, 0)
    {
      var horizontal := 0;
      while horizontal < n
        invariant 0 <= horizontal <= n && horizontal % 8 == 0
        invariant c == cv.At(vertical, horizontal)
        invariant MulProgress(C[..], C0, cv, As, av, Bs, bv, n, true, vertical, horizontal)
      {
        EightMore(n, horizontal);
        EightInBounds(cv, n, C.Length, vertical, horizontal);
        var initial := C[c..c + 8];
        var sums := AccumulateEight(A, av, B, bv, n, vertical, horizontal, 0, initial);
        forall k | 0 <= k < 8
          ensures sums[k] == Target(C0, cv, As, av, Bs, bv, n, true, vertical, horizontal + k)
        {
          assert cv.At(vertical, horizontal + k) == c + k;
          NotYetWritten(C[..], C0, cv, As, av, Bs, bv, n, true, vertical, horizontal, k);
        }
        StoreEight(C, cv, c, n, vertical, horizontal, sums, C0, As, av, Bs, bv, true);
        c := c + 8;
        horizontal := horizontal + 8;
      }
      MulProgressNextRow(C[..], C0, cv, As, av, Bs, bv, n, true, vertical);
      NextRow(cv, vertical, 0);
      c := c + (cv.stride - n);
      vertical := vertical + 1;
    }
  }

  /** The sizes the quadrant recursion works for: 0, or 16 times a power of two. */
  predicate ValidSize(n: int)
  {
    n == 0 || (IsPow2(n) && n >= 16)
  }

  /** Three writes to quadrants other than (qi, qj) leave its cells alone. */
  lemma KeptAcross(C0: seq<int>, C1: seq<int>, C2: seq<int>, C3: seq<int>, cv: View, q: nat,
                   r1: (int, int), r2: (int, int), r3: (int, int), qi: int, qj: int)
    requires cv.stride >= 2 * q && 0 <= qi <= 1 && 0 <= qj <= 1
    requires forall r :: r in {r1, r2, r3} ==> 0 <= r.0 <= 1 && 0 <= r.1 <= 1 && r != (qi, qj)
    requires Framed(C1, C0, cv.Quad(r1.0, r1.1, q), q)
    requires Framed(C2, C1, cv.Quad(r2.0, r2.1, q), q)
    requires Framed(C3, C2, cv.Quad(r3.0, r3.1, q), q)
    ensures forall i, j :: 0 <= i < q && 0 <= j < q ==>
      Get(C3, cv.Quad(qi, qj, q).At(i, j)) == Get(C0, cv.Quad(qi, qj, q).At(i, j))
  {
    forall i, j | 0 <= i < q && 0 <= j < q
      ensures Get(C3, cv.Quad(qi, qj, q).At(i, j)) == Get(C0, cv.Quad(qi, qj, q).At(i, j))
    {
      Kept(C1, C0, cv, q, r1.0, r1.1, qi, qj, i, j);
      Kept(C2, C1, cv, q, r2.0, r2.1, qi, qj, i, j);
      Kept(C3, C2, cv, q, r3.0, r3.1, qi, qj, i, j);
    }
  }

  /** One output quadrant of the recursion: its cells are kept from Cs to Ca,
      receive (or gain) the first product from Ca to Cb, are kept to Cc, gain
      the second product from Cc to Cd and are kept to Ce. */
  lemma QuadrantResult(Cs: seq<int>, Ca: seq<int>, Cb: seq<int>, Cc: seq<int>, Cd: seq<int>, Ce: seq<int>,
                       cv: View, As: seq<int>, av: View, Bs: seq<int>, bv: View, q: nat, additive: bool, qi: int, qj: int)
    requires cv.stride >= 2 * q && 0 <= qi <= 1 && 0 <= qj <= 1
    requires forall i, j :: 0 <= i < q && 0 <= j < q ==>
      Get(Ca, cv.Quad(qi, qj, q).At(i, j)) == Get(Cs, cv.Quad(qi, qj, q).At(i, j))
    requires Multiplied(Cb, Ca, cv.Quad(qi, qj, q), As, av.Quad(qi, 0, q), Bs, bv.Quad(0, qj, q), q, additive)
    requires forall i, j :: 0 <= i < q && 0 <= j < q ==>
      Get(Cc, cv.Quad(qi, qj, q).At(i, j)) == Get(Cb, cv.Quad(qi, qj, q).At(i, j))
    requires Multiplied(Cd, Cc, cv.Quad(qi, qj, q), As, av.Quad(qi, 1, q), Bs, bv.Quad(1, qj, q), q, true)
    requires forall i, j :: 0 <= i < q && 0 <= j < q ==>
      Get(Ce, cv.Quad(qi, qj, q).At(i, j)) == Get(Cd, cv.Quad(qi, qj, q).At(i, j))
    ensures QuadrantSum(Ce, Cs, cv, As, av, Bs, bv, q, additive, qi, qj)
  {
  }

  /** Quadrant (qi, qj) of Ce holds (in additive mode, Cs plus) the sum of
      the two half-size products A_qi0 x B_0qj and A_qi1 x B_1qj. */
  ghost predicate QuadrantSum(Ce: seq<int>, Cs: seq<int>, cv: View, As: seq<int>, av: View, Bs: seq<int>, bv: View,
                              q: nat, additive: bool, qi: int, qj: int)
  {
    forall i, j :: 0 <= i < q && 0 <= j < q ==>
      Get(Ce, cv.Quad(qi, qj, q).At(i, j))
        == (if additive then Get(Cs, cv.Quad(qi, qj, q).At(i, j)) else 0)
         + Prod(As, av.Quad(qi, 0, q), Bs, bv.Quad(0, qj, q), i, j, q)
         + Prod(As, av.Quad(qi, 1, q), Bs, bv.Quad(1, qj, q), i, j, q)
  }

  /** The eight quadrant products of MultiplyByDivideAndConquer, in the
      source's order, compose to the product of the whole: C00, C01, C11 and
      C10 first receive (or, in additive mode, gain) A_i0 x B_0j, then each
      gains A_i1 x B_1j. */
  lemma DivideAndConquerCombine(C0: seq<int>, C1: seq<int>, C2: seq<int>, C3: seq<int>, C4: seq<int>,
                                C5: seq<int>, C6: seq<int>, C7: seq<int>, C8: seq<int>,
                                cv: View, As: seq<int>, av: View, Bs: seq<int>, bv: View, q: nat, additive: bool)
    requires Fits(cv, 2 * q, |C0|)
    requires Multiplied(C1, C0, cv.Quad(0, 0, q), As, av.Quad(0, 0, q), Bs, bv.Quad(0, 0, q), q, additive)
    requires Multiplied(C2, C1, cv.Quad(0, 1, q), As, av.Quad(0, 0, q), Bs, bv.Quad(0, 1, q), q, additive)
    requires Multiplied(C3, C2, cv.Quad(1, 1, q), As, av.Quad(1, 0, q), Bs, bv.Quad(0, 1, q), q, additive)
    requires Multiplied(C4, C3, cv.Quad(1, 0, q), As, av.Quad(1, 0, q), Bs, bv.Quad(0, 0, q), q, additive)
    requires Multiplied(C5, C4, cv.Quad(0, 0, q), As, av.Quad(0, 1, q), Bs, bv.Quad(1, 0, q), q, true)
    requires Multiplied(C6, C5, cv.Quad(0, 1, q), As, av.Quad(0, 1, q), Bs, bv.Quad(1, 1, q), q, true)
    requires Multiplied(C7, C6, cv.Quad(1, 1, q), As, av.Quad(1, 1, q), Bs, bv.Quad(1, 1, q), q, true)
    requires Multiplied(C8, C7, cv.Quad(1, 0, q), As, av.Quad(1, 1, q), Bs, bv.Quad(1, 0, q), q, true)
    ensures Multiplied(C8, C0, cv, As, av, Bs, bv, 2 * q, additive)
  {
    var len := |C0|;
    MultipliedFramed(C1, C0, cv.Quad(0, 0, q), As, av.Quad(0, 0, q), Bs, bv.Quad(0, 0, q), q, additive);
    MultipliedFramed(C2, C1, cv.Quad(0, 1, q), As, av.Quad(0, 0, q), Bs, bv.Quad(0, 1, q), q, additive);
    MultipliedFramed(C3, C2, cv.Quad(1, 1, q), As, av.Quad(1, 0, q), Bs, bv.Quad(0, 1, q), q, additive);
    MultipliedFramed(C4, C3, cv.Quad(1, 0, q), As, av.Quad(1, 0, q), Bs, bv.Quad(0, 0, q), q, additive);
    MultipliedFramed(C5, C4, cv.Quad(0, 0, q), As, av.Quad(0, 1, q), Bs, bv.Quad(1, 0, q), q, true);
    MultipliedFramed(C6, C5, cv.Quad(0, 1, q), As, av.Quad(0, 1, q), Bs, bv.Quad(1, 1, q), q, true);
    MultipliedFramed(C7, C6, cv.Quad(1, 1, q), As, av.Quad(1, 1, q), Bs, bv.Quad(1, 1, q), q, true);
    MultipliedFramed(C8, C7, cv.Quad(1, 0, q), As, av.Quad(1, 1, q), Bs, bv.Quad(1, 0, q), q, true);
    KeptOutside(C1, C0, cv, q, len, 0, 0);
    KeptOutside(C2, C1, cv, q, len, 0, 1);
    KeptOutside(C3, C2, cv, q, len, 1, 1);
    KeptOutside(C4, C3, cv, q, len, 1, 0);
    KeptOutside(C5, C4, cv, q, len, 0, 0);
    KeptOutside(C6, C5, cv, q, len, 0, 1);
    KeptOutside(C7, C6, cv, q, len, 1, 1);
    KeptOutside(C8, C7, cv, q, len, 1, 0);
    DivideAndConquerQuadrants(C0, C1, C2, C3, C4, C5, C6, C7, C8, cv, As, av, Bs, bv, q, additive);
    QuadrantsAssemble(C8, C0, cv, As, av, Bs, bv, q, additive);
  }

  /** Four quadrants that each hold the sum of their two half-size
      products make the whole product. */
  lemma QuadrantsAssemble(C8: seq<int>, C0: seq<int>, cv: View, As: seq<int>, av: View, Bs: seq<int>, bv: View,
                          q: nat, additive: bool)
    requires cv.stride >= 2 * q
    requires QuadrantSum(C8, C0, cv, As, av, Bs, bv, q, additive, 0, 0)
    requires QuadrantSum(C8, C0, cv, As, av, Bs, bv, q, additive, 0, 1)
    requires QuadrantSum(C8, C0, cv, As, av, Bs, bv, q, additive, 1, 0)
    requires QuadrantSum(C8, C0, cv, As, av, Bs, bv, q, additive, 1, 1)
    ensures forall I, J :: 0 <= I < 2 * q && 0 <= J < 2 * q ==>
      Get(C8, cv.At(I, J)) == Target(C0, cv, As, av, Bs, bv, 2 * q, additive, I, J)
  {
    forall I, J | 0 <= I < 2 * q && 0 <= J < 2 * q
      ensures Get(C8, cv.At(I, J)) == Target(C0, cv, As, av, Bs, bv, 2 * q, additive, I, J)
    {
      if I < q && J < q {
        AssembleCell(C8, C0, cv, As, av, Bs, bv, q, additive, 0, 0, I, J);
      } else if I < q {
        AssembleCell(C8, C0, cv, As, av, Bs, bv, q, additive, 0, 1, I, J - q);
      } else if J < q {
        AssembleCell(C8, C0, cv, As, av, Bs, bv, q, additive, 1, 0, I - q, J);
      } else {
        AssembleCell(C8, C0, cv, As, av, Bs, bv, q, additive, 1, 1, I - q, J - q);
      }
    }
  }

  /** One cell of QuadrantsAssemble: cell (i, j) of quadrant (qi, qj). */
  lemma AssembleCell(C8: seq<int>, C0: seq<int>, cv: View, As: seq<int>, av: View, Bs: seq<int>, bv: View,
                     q: nat, additive: bool, qi: int, qj: int, i: int, j: int)
    requires 0 <= qi <= 1 && 0 <= qj <= 1 && 0 <= i < q && 0 <= j < q
    requires QuadrantSum(C8, C0, cv, As, av, Bs, bv, q, additive, qi, qj)
    ensures Get(C8, cv.At(qi * q + i, qj * q + j))
         == Target(C0, cv, As, av, Bs, bv, 2 * q, additive, qi * q + i, qj * q + j)
  {
    QuadAt(cv, qi, qj, q, i, j);
    BlockProd(As, av, Bs, bv, q, qi, qj, i, j);
  }

  /** The quadrant half of DivideAndConquerCombine: every quadrant of C8
      holds the sum of its two half-size products. */
  lemma DivideAndConquerQuadrants(C0: seq<int>, C1: seq<int>, C2: seq<int>, C3: seq<int>, C4: seq<int>,
                                  C5: seq<int>, C6: seq<int>, C7: seq<int>, C8: seq<int>,
                                  cv: View, As: seq<int>, av: View, Bs: seq<int>, bv: View, q: nat, additive: bool)
    requires Fits(cv, 2 * q, |C0|)
    requires Multiplied(C1, C0, cv.Quad(0, 0, q), As, av.Quad(0, 0, q), Bs, bv.Quad(0, 0, q), q, additive)
    requires Multiplied(C2, C1, cv.Quad(0, 1, q), As, av.Quad(0, 0, q), Bs, bv.Quad(0, 1, q), q, additive)
    requires Multiplied(C3, C2, cv.Quad(1, 1, q), As, av.Quad(1, 0, q), Bs, bv.Quad(0, 1, q), q, additive)
    requires Multiplied(C4, C3, cv.Quad(1, 0, q), As, av.Quad(1, 0, q), Bs, bv.Quad(0, 0, q), q, additive)
    requires Multiplied(C5, C4, cv.Quad(0, 0, q), As, av.Quad(0, 1, q), Bs, bv.Quad(1, 0, q), q, true)
    requires Multiplied(C6, C5, cv.Quad(0, 1, q), As, av.Quad(0, 1, q), Bs, bv.Quad(1, 1, q), q, true)
    requires Multiplied(C7, C6, cv.Quad(1, 1, q), As, av.Quad(1, 1, q), Bs, bv.Quad(1, 1, q), q, true)
    requires Multiplied(C8, C7, cv.Quad(1, 0, q), As, av.Quad(1, 1, q), Bs, bv.Quad(1, 0, q), q, true)
    ensures QuadrantSum(C8, C0, cv, As, av, Bs, bv, q, additive, 0, 0)
    ensures QuadrantSum(C8, C0, cv, As, av, Bs, bv, q, additive, 0, 1)
    ensures QuadrantSum(C8, C0, cv, As, av, Bs, bv, q, additive, 1, 0)
    ensures QuadrantSum(C8, C0, cv, As, av, Bs, bv, q, additive, 1, 1)
  {
    MultipliedFramed(C1, C0, cv.Quad(0, 0, q), As, av.Quad(0, 0, q), Bs, bv.Quad(0, 0, q), q, additive);
    MultipliedFramed(C2, C1, cv.Quad(0, 1, q), As, av.Quad(0, 0, q), Bs, bv.Quad(0, 1, q), q, additive);
    MultipliedFramed(C3, C2, cv.Quad(1, 1, q), As, av.Quad(1, 0, q), Bs, bv.Quad(0, 1, q), q, additive);
    MultipliedFramed(C4, C3, cv.Quad(1, 0, q), As, av.Quad(1, 0, q), Bs, bv.Quad(0, 0, q), q, additive);
    MultipliedFramed(C5, C4, cv.Quad(0, 0, q), As, av.Quad(0, 1, q), Bs, bv.Quad(1, 0, q), q, true);
    MultipliedFramed(C6, C5, cv.Quad(0, 1, q), As, av.Quad(0, 1, q), Bs, bv.Quad(1, 1, q), q, true);
    MultipliedFramed(C7, C6, cv.Quad(1, 1, q), As, av.Quad(1, 1, q), Bs, bv.Quad(1, 1, q), q, true);
    MultipliedFramed(C8, C7, cv.Quad(1, 0, q), As, av.Quad(1, 1, q), Bs, bv.Quad(1, 0, q), q, true);
    // C00: written at steps 1 and 5
    assert QuadrantSum(C8, C0, cv, As, av, Bs, bv, q, additive, 0, 0) by {
      KeptAcross(C1, C2, C3, C4, cv, q, (0, 1), (1, 1), (1, 0), 0, 0);
      KeptAcross(C5, C6, C7, C8, cv, q, (0, 1), (1, 1), (1, 0), 0, 0);
      QuadrantResult(C0, C0, C1, C4, C5, C8, cv, As, av, Bs, bv, q, additive, 0, 0);
    }
    // C01: written at steps 2 and 6
    assert QuadrantSum(C8, C0, cv, As, av, Bs, bv, q, additive, 0, 1) by {
      KeptAcross(C0, C1, C1, C1, cv, q, (0, 0), (0, 0), (0, 0), 0, 1);
      KeptAcross(C2, C3, C4, C5, cv, q, (1, 1), (1, 0), (0, 0), 0, 1);
      KeptAcross(C6, C7, C8, C8, cv, q, (1, 1), (1, 0), (1, 0), 0, 1);
      QuadrantResult(C0, C1, C2, C5, C6, C8, cv, As, av, Bs, bv, q, additive, 0, 1);
    }
    // C11: written at steps 3 and 7
    assert QuadrantSum(C8, C0, cv, As, av, Bs, bv, q, additive, 1, 1) by {
      KeptAcross(C0, C1, C2, C2, cv, q, (0, 0), (0, 1), (0, 1), 1, 1);
      KeptAcross(C3, C4, C5, C6, cv, q, (1, 0), (0, 0), (0, 1), 1, 1);
      KeptAcross(C7, C8, C8, C8, cv, q, (1, 0), (1, 0), (1, 0), 1, 1);
      QuadrantResult(C0, C2, C3, C6, C7, C8, cv, As, av, Bs, bv, q, additive, 1, 1);
    }
    // C10: written at steps 4 and 8
    assert QuadrantSum(C8, C0, cv, As, av, Bs, bv, q, additive, 1, 0) by {
      KeptAcross(C0, C1, C2, C3, cv, q, (0, 0), (0, 1), (1, 1), 1, 0);
      KeptAcross(C4, C5, C6, C7, cv, q, (0, 0), (0, 1), (1, 1), 1, 0);
      QuadrantResult(C0, C3, C4, C7, C8, C8, cv, As, av, Bs, bv, q, additive, 1, 0);
    }
  }

  /** Every quadrant of three fitting windows of side 2q fits. */
  lemma QuadrantsFit(av: View, alen: int, bv: View, blen: int, cv: View, clen: int, q: nat)
    requires Fits(av, 2 * q, alen) && Fits(bv, 2 * q, blen) && Fits(cv, 2 * q, clen)
    ensures forall qi, qj :: 0 <= qi <= 1 && 0 <= qj <= 1 ==>
      Fits(av.Quad(qi, qj, q), q, alen) && Fits(bv.Quad(qi, qj, q), q, blen) && Fits(cv.Quad(qi, qj, q), q, clen)
  {
    forall qi, qj | 0 <= qi <= 1 && 0 <= qj <= 1
      ensures Fits(av.Quad(qi, qj, q), q, alen) && Fits(bv.Quad(qi, qj, q), q, blen) && Fits(cv.Quad(qi, qj, q), q, clen)
    {
      QuadFits(av, q, alen, qi, qj);
      QuadFits(bv, q, blen, qi, qj);
      QuadFits(cv, q, clen, qi, qj);
    }
  }

  /** Halving a valid size: the quadrant is again a valid size when it is
      above the naive threshold, and a multiple of 8 otherwise. */
  lemma HalveValidSize(n: nat)
    requires ValidSize(n)
    ensures n % 2 == 0
    ensures n / 2 > NaiveSize ==> ValidSize(n / 2)
    ensures (n / 2) % 8 == 0 && (n / 2) % 4 == 0
  {
    if n > 0 {
      HalfOfPow2(n);
      Pow2MultipleOf16(n);
      assert n / 2 == 8 * (n / 16);
    }
  }

  /** C = A x B (additive false) or C = C + A x B (additive true) by eight
      quadrant products, switching to the naive kernels once the quadrants are
      at most 16 wide (MultiplyByDivideAndConquer). */
  method DivideAndConquer(C: array<int>, cv: View, A: array<int>, av: View, B: array<int>, bv: View,
                          n: nat, additive: bool)
    requires C != A && C != B && ValidSize(n)
    requires Fits(av, n, A.Length) && Fits(bv, n, B.Length) && Fits(cv, n, C.Length)
    modifies C
    ensures Multiplied(C[..], old(C[..]), cv, A[..], av, B[..], bv, n, additive)
    decreases n
  {
    HalveValidSize(n);
    var q := n / 2;
    QuadrantsFit(av, A.Length, bv, B.Length, cv, C.Length, q);
    var a00, a01, a10, a11 := av, av.Quad(0, 1, q), av.Quad(1, 0, q), av.Quad(1, 1, q);
    var b00, b01, b10, b11 := bv, bv.Quad(0, 1, q), bv.Quad(1, 0, q), bv.Quad(1, 1, q);
    var c00, c01, c10, c11 := cv, cv.Quad(0, 1, q), cv.Quad(1, 0, q), cv.Quad(1, 1, q);
    assert av.Quad(0, 0, q) == a00 && bv.Quad(0, 0, q) == b00 && cv.Quad(0, 0, q) == c00;
    ghost var C0 := C[..];
    ghost var C1, C2, C3, C4;
    if q > NaiveSize {
      DivideAndConquer(C, c00, A, a00, B, b00, q, additive);
      C1 := C[..];
      DivideAndConquer(C, c01, A, a00, B, b01, q, additive);
      C2 := C[..];
      DivideAndConquer(C, c11, A, a10, B, b01, q, additive);
      C3 := C[..];
      DivideAndConquer(C, c10, A, a10, B, b00, q, additive);
      C4 := C[..];
      DivideAndConquer(C, c00, A, a01, B, b10, q, true);
      ghost var C5 := C[..];
      DivideAndConquer(C, c01, A, a01, B, b11, q, true);
      ghost var C6 := C[..];
      DivideAndConquer(C, c11, A, a11, B, b11, q, true);
      ghost var C7 := C[..];
      DivideAndConquer(C, c10, A, a11, B, b10, q, true);
      DivideAndConquerCombine(C0, C1, C2, C3, C4, C5, C6, C7, C[..], cv, A[..], av, B[..], bv, q, additive);
    } else {
      if additive {
        FastAdditiveNaive(C, c00, A, a00, B, b00, q);
        C1 := C[..];
        FastAdditiveNaive(C, c01, A, a00, B, b01, q);
        C2 := C[..];
        FastAdditiveNaive(C, c11, A, a10, B, b01, q);
        C3 := C[..];
        FastAdditiveNaive(C, c10, A, a10, B, b00, q);
        C4 := C[..];
      } else {
        FastNaive(C, c00, A, a00, B, b00, q);
        C1 := C[..];
        FastNaive(C, c01, A, a00, B, b01, q);
        C2 := C[..];
        FastNaive(C, c11, A, a10, B, b01, q);
        C3 := C[..];
        FastNaive(C, c10, A, a10, B, b00, q);
        C4 := C[..];
      }
      FastAdditiveNaive(C, c00, A, a01, B, b10, q);
      ghost var C5 := C[..];
      FastAdditiveNaive(C, c01, A, a01, B, b11, q);
      ghost var C6 := C[..];
      FastAdditiveNaive(C, c11, A, a11, B, b11, q);
      ghost var C7 := C[..];
      FastAdditiveNaive(C, c10, A, a11, B, b10, q);
      DivideAndConquerCombine(C0, C1, C2, C3, C4, C5, C6, C7, C[..], cv, A[..], av, B[..], bv, q, additive);
    }
  }

  /** The scratch matrices of OptimizedStrassenMultiply are q-by-q with row width q. */
  function TempView(q: nat): View
  {
    View(0, q)
  }

  /** What the pre-pass leaves in S1 .. S8, with A11 .. A22 and B11 .. B22 the
      quadrants of A and B (A11 top left, A12 top right):
      S1 = A21 + A22, S2 = S1 - A11, S3 = A11 - A21, S4 = A12 - S2,
      S5 = B12 - B11, S6 = B22 - S5, S7 = B22 - B12, S8 = S6 - B21. */
  ghost predicate StrassenSums(S1: seq<int>, S2: seq<int>, S3: seq<int>, S4: seq<int>,
                               S5: seq<int>, S6: seq<int>, S7: seq<int>, S8: seq<int>,
                               As: seq<int>, av: View, Bs: seq<int>, bv: View, q: nat)
  {
    var tv := TempView(q);
    IsSum(S1, tv, As, av.Quad(1, 0, q), 1, As, av.Quad(1, 1, q), q)
    && IsSum(S2, tv, S1, tv, -1, As, av.Quad(0, 0, q), q)
    && IsSum(S3, tv, As, av.Quad(0, 0, q), -1, As, av.Quad(1, 0, q), q)
    && IsSum(S4, tv, As, av.Quad(0, 1, q), -1, S2, tv, q)
    && IsSum(S5, tv, Bs, bv.Quad(0, 1, q), -1, Bs, bv.Quad(0, 0, q), q)
    && IsSum(S6, tv, Bs, bv.Quad(1, 1, q), -1, S5, tv, q)
    && IsSum(S7, tv, Bs, bv.Quad(1, 1, q), -1, Bs, bv.Quad(0, 1, q), q)
    && IsSum(S8, tv, S6, tv, -1, Bs, bv.Quad(1, 0, q), q)
  }

  /** Strassen's identity at one cell: with M2 = A11 B11, M5 = S1 S5,
      T1 = S2 S6 + M2 and T2 = S3 S7 + T1, the combination pass yields
      C12 = S4 B22 + M5 + T1 = A11 B12 + A12 B22,
      C22 = M5 + T2 = A21 B12 + A22 B22 and
      C21 = -(A22 S8) + T2 = A21 B11 + A22 B21
      (C11 = A12 B21 + M2 needs no identity). */
  lemma StrassenIdentity(S1: seq<int>, S2: seq<int>, S3: seq<int>, S4: seq<int>,
                         S5: seq<int>, S6: seq<int>, S7: seq<int>, S8: seq<int>,
                         As: seq<int>, av: View, Bs: seq<int>, bv: View, q: nat, i: int, j: int)
    requires StrassenSums(S1, S2, S3, S4, S5, S6, S7, S8, As, av, Bs, bv, q)
    requires 0 <= i < q && 0 <= j < q
    ensures Prod(S4, TempView(q), Bs, bv.Quad(1, 1, q), i, j, q) + Prod(S1, TempView(q), S5, TempView(q), i, j, q)
          + Prod(S2, TempView(q), S6, TempView(q), i, j, q) + Prod(As, av.Quad(0, 0, q), Bs, bv.Quad(0, 0, q), i, j, q)
         == Prod(As, av.Quad(0, 0, q), Bs, bv.Quad(0, 1, q), i, j, q) + Prod(As, av.Quad(0, 1, q), Bs, bv.Quad(1, 1, q), i, j, q)
    ensures Prod(S1, TempView(q), S5, TempView(q), i, j, q) + Prod(S3, TempView(q), S7, TempView(q), i, j, q)
          + Prod(S2, TempView(q), S6, TempView(q), i, j, q) + Prod(As, av.Quad(0, 0, q), Bs, bv.Quad(0, 0, q), i, j, q)
         == Prod(As, av.Quad(1, 0, q), Bs, bv.Quad(0, 1, q), i, j, q) + Prod(As, av.Quad(1, 1, q), Bs, bv.Quad(1, 1, q), i, j, q)
    ensures -Prod(As, av.Quad(1, 1, q), S8, TempView(q), i, j, q) + Prod(S3, TempView(q), S7, TempView(q), i, j, q)
          + Prod(S2, TempView(q), S6, TempView(q), i, j, q) + Prod(As, av.Quad(0, 0, q), Bs, bv.Quad(0, 0, q), i, j, q)
         == Prod(As, av.Quad(1, 0, q), Bs, bv.Quad(0, 0, q), i, j, q) + Prod(As, av.Quad(1, 1, q), Bs, bv.Quad(1, 0, q), i, j, q)
  {
    var tv := TempView(q);
    var a11, a12, a21, a22 := av.Quad(0, 0, q), av.Quad(0, 1, q), av.Quad(1, 0, q), av.Quad(1, 1, q);
    var b11, b12, b21, b22 := bv.Quad(0, 0, q), bv.Quad(0, 1, q), bv.Quad(1, 0, q), bv.Quad(1, 1, q);
    // S1 S5
    SumLeft(S1, tv, As, a21, 1, As, a22, q, S5, tv, i, j);
    SumRight(As, a21, S5, tv, Bs, b12, -1, Bs, b11, q, i, j);
    SumRight(As, a22, S5, tv, Bs, b12, -1, Bs, b11, q, i, j);
    // S2 S6
    SumLeft(S2, tv, S1, tv, -1, As, a11, q, S6, tv, i, j);
    SumLeft(S1, tv, As, a21, 1, As, a22, q, S6, tv, i, j);
    SumRight(As, a21, S6, tv, Bs, b22, -1, S5, tv, q, i, j);
    SumRight(As, a22, S6, tv, Bs, b22, -1, S5, tv, q, i, j);
    SumRight(As, a11, S6, tv, Bs, b22, -1, S5, tv, q, i, j);
    SumRight(As, a11, S5, tv, Bs, b12, -1, Bs, b11, q, i, j);
    // S3 S7
    SumLeft(S3, tv, As, a11, -1, As, a21, q, S7, tv, i, j);
    SumRight(As, a11, S7, tv, Bs, b22, -1, Bs, b12, q, i, j);
    SumRight(As, a21, S7, tv, Bs, b22, -1, Bs, b12, q, i, j);
    // S4 B22
    SumLeft(S4, tv, As, a12, -1, S2, tv, q, Bs, b22, i, j);
    SumLeft(S2, tv, S1, tv, -1, As, a11, q, Bs, b22, i, j);
    SumLeft(S1, tv, As, a21, 1, As, a22, q, Bs, b22, i, j);
    // A22 S8
    SumRight(As, a22, S8, tv, S6, tv, -1, Bs, b21, q, i, j);
  }

  /** The pre-pass relations at one cell (i, j). */
  ghost predicate PrepassCell(S1: seq<int>, S2: seq<int>, S3: seq<int>, S4: seq<int>,
                              S5: seq<int>, S6: seq<int>, S7: seq<int>, S8: seq<int>,
                              As: seq<int>, av: View, Bs: seq<int>, bv: View, q: nat, i: int, j: int)
  {
    var t := TempView(q).At(i, j);
    Get(S1, t) == Get(As, av.Quad(1, 0, q).At(i, j)) + 1 * Get(As, av.Quad(1, 1, q).At(i, j))
    && Get(S2, t) == Get(S1, t) + -1 * Get(As, av.Quad(0, 0, q).At(i, j))
    && Get(S3, t) == Get(As, av.Quad(0, 0, q).At(i, j)) + -1 * Get(As, av.Quad(1, 0, q).At(i, j))
    && Get(S4, t) == Get(As, av.Quad(0, 1, q).At(i, j)) + -1 * Get(S2, t)
    && Get(S5, t) == Get(Bs, bv.Quad(0, 1, q).At(i, j)) + -1 * Get(Bs, bv.Quad(0, 0, q).At(i, j))
    && Get(S6, t) == Get(Bs, bv.Quad(1, 1, q).At(i, j)) + -1 * Get(S5, t)
    && Get(S7, t) == Get(Bs, bv.Quad(1, 1, q).At(i, j)) + -1 * Get(Bs, bv.Quad(0, 1, q).At(i, j))
    && Get(S8, t) == Get(S6, t) + -1 * Get(Bs, bv.Quad(1, 0, q).At(i, j))
  }

  /** Once every cell satisfies the pre-pass relations, the whole S1 .. S8
      hold the Strassen sums. */
  lemma PrepassComplete(S1: seq<int>, S2: seq<int>, S3: seq<int>, S4: seq<int>,
                        S5: seq<int>, S6: seq<int>, S7: seq<int>, S8: seq<int>,
                        As: seq<int>, av: View, Bs: seq<int>, bv: View, q: nat)
    requires PrepassUpTo(S1, S2, S3, S4, S5, S6, S7, S8, As, av, Bs, bv, q, q, 0)
    ensures StrassenSums(S1, S2, S3, S4, S5, S6, S7, S8, As, av, Bs, bv, q)
  {
    var tv, a11, a12, a21, a22 := TempView(q), av.Quad(0, 0, q), av.Quad(0, 1, q), av.Quad(1, 0, q), av.Quad(1, 1, q);
    var b11, b12, b21, b22 := bv.Quad(0, 0, q), bv.Quad(0, 1, q), bv.Quad(1, 0, q), bv.Quad(1, 1, q);
    forall i, j | 0 <= i < q && 0 <= j < q
      ensures Get(S1, tv.At(i, j)) == Get(As, a21.At(i, j)) + 1 * Get(As, a22.At(i, j))
      ensures Get(S2, tv.At(i, j)) == Get(S1, tv.At(i, j)) + -1 * Get(As, a11.At(i, j))
      ensures Get(S3, tv.At(i, j)) == Get(As, a11.At(i, j)) + -1 * Get(As, a21.At(i, j))
      ensures Get(S4, tv.At(i, j)) == Get(As, a12.At(i, j)) + -1 * Get(S2, tv.At(i, j))
      ensures Get(S5, tv.At(i, j)) == Get(Bs, b12.At(i, j)) + -1 * Get(Bs, b11.At(i, j))
      ensures Get(S6, tv.At(i, j)) == Get(Bs, b22.At(i, j)) + -1 * Get(S5, tv.At(i, j))
      ensures Get(S7, tv.At(i, j)) == Get(Bs, b22.At(i, j)) + -1 * Get(Bs, b12.At(i, j))
      ensures Get(S8, tv.At(i, j)) == Get(S6, tv.At(i, j)) + -1 * Get(Bs, b21.At(i, j))
    {
      assert PrepassCell(S1, S2, S3, S4, S5, S6, S7, S8, As, av, Bs, bv, q, i, j);
    }
  }

  /** A cell's pre-pass relations survive stores that leave its scratch
      entries alone. */
  lemma PrepassCellKept(S1: seq<int>, S2: seq<int>, S3: seq<int>, S4: seq<int>,
                        S5: seq<int>, S6: seq<int>, S7: seq<int>, S8: seq<int>,
                        T1: seq<int>, T2: seq<int>, T3: seq<int>, T4: seq<int>,
                        T5: seq<int>, T6: seq<int>, T7: seq<int>, T8: seq<int>,
                        As: seq<int>, av: View, Bs: seq<int>, bv: View, q: nat, i: int, j: int)
    requires PrepassCell(S1, S2, S3, S4, S5, S6, S7, S8, As, av, Bs, bv, q, i, j)
    requires var t := TempView(q).At(i, j);
      Get(T1, t) == Get(S1, t) && Get(T2, t) == Get(S2, t) && Get(T3, t) == Get(S3, t) && Get(T4, t) == Get(S4, t)
      && Get(T5, t) == Get(S5, t) && Get(T6, t) == Get(S6, t) && Get(T7, t) == Get(S7, t) && Get(T8, t) == Get(S8, t)
    ensures PrepassCell(T1, T2, T3, T4, T5, T6, T7, T8, As, av, Bs, bv, q, i, j)
  {
  }

  /** A q-by-q scratch matrix fits an array of q*q entries. */
  lemma TempFits(q: nat)
    ensures Fits(TempView(q), q, q * q)
  {
    if q > 0 {
      assert (q - 1) * q + q - 1 == q * q - 1;
    }
  }

  /** Four consecutive cells of a row of a scratch matrix lie inside it. */
  lemma TempLane(q: nat, row: int, column: int)
    requires 0 <= row < q && 0 <= column && column + 4 <= q
    ensures 0 <= TempView(q).At(row, column) && TempView(q).At(row, column) + 4 <= q * q
  {
    MulMonotone(row, q - 1, q);
    assert (q - 1) * q + q == q * q;
  }

  /** The four quadrant addresses of cell (row, column), as the pre-pass
      computes them: quadrant base plus the running offset. */
  lemma QuadrantAddresses(v: View, q: int, row: int, column: int, off: int)
    requires off == v.At(row, column) - v.off
    ensures v.off + off == v.Quad(0, 0, q).At(row, column)
    ensures v.off + q + off == v.Quad(0, 1, q).At(row, column)
    ensures v.off + v.stride * q + off == v.Quad(1, 0, q).At(row, column)
    ensures v.off + v.stride * q + q + off == v.Quad(1, 1, q).At(row, column)
  {
    assert 1 * q * v.stride == v.stride * q;
  }

  /** The eight values the pre-pass computes for cell (i, j). */
  ghost predicate CellValues(s1: int, s2: int, s3: int, s4: int, s5: int, s6: int, s7: int, s8: int,
                             As: seq<int>, av: View, Bs: seq<int>, bv: View, q: nat, i: int, j: int)
  {
    s1 == Get(As, av.Quad(1, 0, q).At(i, j)) + 1 * Get(As, av.Quad(1, 1, q).At(i, j))
    && s2 == s1 + -1 * Get(As, av.Quad(0, 0, q).At(i, j))
    && s3 == Get(As, av.Quad(0, 0, q).At(i, j)) + -1 * Get(As, av.Quad(1, 0, q).At(i, j))
    && s4 == Get(As, av.Quad(0, 1, q).At(i, j)) + -1 * s2
    && s5 == Get(Bs, bv.Quad(0, 1, q).At(i, j)) + -1 * Get(Bs, bv.Quad(0, 0, q).At(i, j))
    && s6 == Get(Bs, bv.Quad(1, 1, q).At(i, j)) + -1 * s5
    && s7 == Get(Bs, bv.Quad(1, 1, q).At(i, j)) + -1 * Get(Bs, bv.Quad(0, 1, q).At(i, j))
    && s8 == s6 + -1 * Get(Bs, bv.Quad(1, 0, q).At(i, j))
  }

  /** One cell's relations from the values stored there. */
  lemma PrepassCellFrom(S1: seq<int>, S2: seq<int>, S3: seq<int>, S4: seq<int>,
                        S5: seq<int>, S6: seq<int>, S7: seq<int>, S8: seq<int>,
                        As: seq<int>, av: View, Bs: seq<int>, bv: View, q: nat, i: int, j: int,
                        s1: int, s2: int, s3: int, s4: int, s5: int, s6: int, s7: int, s8: int)
    requires CellValues(s1, s2, s3, s4, s5, s6, s7, s8, As, av, Bs, bv, q, i, j)
    requires var t := TempView(q).At(i, j);
      Get(S1, t) == s1 && Get(S2, t) == s2 && Get(S3, t) == s3 && Get(S4, t) == s4
      && Get(S5, t) == s5 && Get(S6, t) == s6 && Get(S7, t) == s7 && Get(S8, t) == s8
    ensures PrepassCell(S1, S2, S3, S4, S5, S6, S7, S8, As, av, Bs, bv, q, i, j)
  {
  }

  /** The body of the pre-pass for one cell: reads the four quadrants of A and
      of B at offsets offA and offB from their bases and forms S1 .. S8. */
  method ComputeCell(A: array<int>, av: View, B: array<int>, bv: View, q: nat, row: nat, column: nat,
                     offA: int, offB: int)
    returns (s1: int, s2: int, s3: int, s4: int, s5: int, s6: int, s7: int, s8: int)
    requires row < q && column < q && Fits(av, 2 * q, A.Length) && Fits(bv, 2 * q, B.Length)
    requires offA == av.At(row, column) - av.off && offB == bv.At(row, column) - bv.off
    ensures CellValues(s1, s2, s3, s4, s5, s6, s7, s8, A[..], av, B[..], bv, q, row, column)
  {
    QuadrantsFit(av, A.Length, bv, B.Length, av, A.Length, q);
    AtInBounds(av.Quad(0, 0, q), q, A.Length, row, column);
    AtInBounds(av.Quad(0, 1, q), q, A.Length, row, column);
    AtInBounds(av.Quad(1, 0, q), q, A.Length, row, column);
    AtInBounds(av.Quad(1, 1, q), q, A.Length, row, column);
    AtInBounds(bv.Quad(0, 0, q), q, B.Length, row, column);
    AtInBounds(bv.Quad(0, 1, q), q, B.Length, row, column);
    AtInBounds(bv.Quad(1, 0, q), q, B.Length, row, column);
    AtInBounds(bv.Quad(1, 1, q), q, B.Length, row, column);
    QuadrantAddresses(av, q, row, column, offA);
    QuadrantAddresses(bv, q, row, column, offB);
    var a11, a12, a21, a22 := av.off, av.off + q, av.off + av.stride * q, av.off + av.stride * q + q;
    var b11, b12, b21, b22 := bv.off, bv.off + q, bv.off + bv.stride * q, bv.off + bv.stride * q + q;
    // S4 = A12 - (S2 = (S1 = A21 + A22) - A11)
    s1 := A[a21 + offA] + A[a22 + offA];
    s2 := s1 - A[a11 + offA];
    s4 := A[a12 + offA] - s2;
    // S8 = (S6 = B22 - (S5 = B12 - B11)) - B21
    s5 := B[b12 + offB] - B[b11 + offB];
    s6 := B[b22 + offB] - s5;
    s8 := s6 - B[b21 + offB];
    // S3 = A11 - A21
    s3 := A[a11 + offA] - A[a21 + offA];
    // S7 = B22 - B12
    s7 := B[b22 + offB] - B[b12 + offB];
  }

  /** One step of the pre-pass: storing the values of cell (row, column)
      extends the relations from the cells before it to the cells up to it. */
  lemma PrepassStep(S1: seq<int>, S2: seq<int>, S3: seq<int>, S4: seq<int>,
                    S5: seq<int>, S6: seq<int>, S7: seq<int>, S8: seq<int>,
                    T1: seq<int>, T2: seq<int>, T3: seq<int>, T4: seq<int>,
                    T5: seq<int>, T6: seq<int>, T7: seq<int>, T8: seq<int>,
                    As: seq<int>, av: View, Bs: seq<int>, bv: View, q: nat, row: nat, column: nat, t: int,
                    s1: int, s2: int, s3: int, s4: int, s5: int, s6: int, s7: int, s8: int)
    requires t == TempView(q).At(row, column)
    requires row < q && column < q && |S1| == |S2| == |S3| == |S4| == |S5| == |S6| == |S7| == |S8| == q * q
    requires PrepassUpTo(S1, S2, S3, S4, S5, S6, S7, S8, As, av, Bs, bv, q, row, column)
    requires CellValues(s1, s2, s3, s4, s5, s6, s7, s8, As, av, Bs, bv, q, row, column)
    requires 0 <= t < q * q ==>
      T1 == S1[t := s1] && T2 == S2[t := s2] && T3 == S3[t := s3] && T4 == S4[t := s4]
      && T5 == S5[t := s5] && T6 == S6[t := s6] && T7 == S7[t := s7] && T8 == S8[t := s8]
    ensures 0 <= t < q * q
    ensures PrepassUpTo(T1, T2, T3, T4, T5, T6, T7, T8, As, av, Bs, bv, q, row, column + 1)
  {
    var tv := TempView(q);
    TempFits(q);
    AtInBounds(tv, q, q * q, row, column);
    PrepassCellFrom(T1, T2, T3, T4, T5, T6, T7, T8, As, av, Bs, bv, q, row, column, s1, s2, s3, s4, s5, s6, s7, s8);
    forall i, j | 0 <= i < q && 0 <= j < q && Before(i, j, row, column + 1)
      ensures PrepassCell(T1, T2, T3, T4, T5, T6, T7, T8, As, av, Bs, bv, q, i, j)
    {
      if (i, j) != (row, column) {
        if tv.At(i, j) == t {
          AtInjective(tv, i, j, row, column);
          assert false;
        }
        PrepassCellKept(S1, S2, S3, S4, S5, S6, S7, S8, T1, T2, T3, T4, T5, T6, T7, T8, As, av, Bs, bv, q, i, j);
      }
    }
  }

  /** Every cell (i, j) before (row, column) in row-major order is done. */
  ghost predicate PrepassUpTo(S1: seq<int>, S2: seq<int>, S3: seq<int>, S4: seq<int>,
                              S5: seq<int>, S6: seq<int>, S7: seq<int>, S8: seq<int>,
                              As: seq<int>, av: View, Bs: seq<int>, bv: View, q: nat, row: int, column: int)
  {
    forall i, j :: 0 <= i < q && 0 <= j < q && Before(i, j, row, column) ==>
      PrepassCell(S1, S2, S3, S4, S5, S6, S7, S8, As, av, Bs, bv, q, i, j)
  }

  lemma PrepassNextRow(S1: seq<int>, S2: seq<int>, S3: seq<int>, S4: seq<int>,
                       S5: seq<int>, S6: seq<int>, S7: seq<int>, S8: seq<int>,
                       As: seq<int>, av: View, Bs: seq<int>, bv: View, q: nat, row: int)
    requires PrepassUpTo(S1, S2, S3, S4, S5, S6, S7, S8, As, av, Bs, bv, q, row, q)
    ensures PrepassUpTo(S1, S2, S3, S4, S5, S6, S7, S8, As, av, Bs, bv, q, row + 1, 0)
  {
  }

  /** S1 .. S8 are eight different arrays, none of them A or B. */
  predicate Separate(A: array<int>, B: array<int>, S1: array<int>, S2: array<int>, S3: array<int>, S4: array<int>,
                     S5: array<int>, S6: array<int>, S7: array<int>, S8: array<int>)
  {
    S1 != S2 && S1 != S3 && S1 != S4 && S1 != S5 && S1 != S6 && S1 != S7 && S1 != S8
    && S2 != S3 && S2 != S4 && S2 != S5 && S2 != S6 && S2 != S7 && S2 != S8
    && S3 != S4 && S3 != S5 && S3 != S6 && S3 != S7 && S3 != S8
    && S4 != S5 && S4 != S6 && S4 != S7 && S4 != S8
    && S5 != S6 && S5 != S7 && S5 != S8
    && S6 != S7 && S6 != S8
    && S7 != S8
    && A != S1 && A != S2 && A != S3 && A != S4 && A != S5 && A != S6 && A != S7 && A != S8
    && B != S1 && B != S2 && B != S3 && B != S4 && B != S5 && B != S6 && B != S7 && B != S8
  }

  /** The inner loop of the prepass: every cell of row `row`. */
  method PrepassRow(A: array<int>, av: View, B: array<int>, bv: View, q: nat, row: nat,
                    tmp0: int, offA0: int, offB0: int,
                    S1: array<int>, S2: array<int>, S3: array<int>, S4: array<int>,
                    S5: array<int>, S6: array<int>, S7: array<int>, S8: array<int>)
    returns (tmp: int, offA: int, offB: int)
    requires Separate(A, B, S1, S2, S3, S4, S5, S6, S7, S8)
    requires Fits(av, 2 * q, A.Length) && Fits(bv, 2 * q, B.Length) && row < q
    requires S1.Length == S2.Length == S3.Length == S4.Length == q * q
    requires S5.Length == S6.Length == S7.Length == S8.Length == q * q
    requires tmp0 == TempView(q).At(row, 0)
    requires offA0 == av.At(row, 0) - av.off && offB0 == bv.At(row, 0) - bv.off
    requires PrepassUpTo(S1[..], S2[..], S3[..], S4[..], S5[..], S6[..], S7[..], S8[..], A[..], av, B[..], bv, q, row, 0)
    modifies S1, S2, S3, S4, S5, S6, S7, S8
    ensures tmp == tmp0 + q && offA == offA0 + q && offB == offB0 + q
    ensures PrepassUpTo(S1[..], S2[..], S3[..], S4[..], S5[..], S6[..], S7[..], S8[..], A[..], av, B[..], bv, q, row + 1, 0)
  {
    tmp, offA, offB := tmp0, offA0, offB0;
    var column := 0;
    while column < q
      invariant 0 <= column <= q
      invariant tmp == TempView(q).At(row, column) && offA == av.At(row, column) - av.off && offB == bv.At(row, column) - bv.off
      invariant tmp == tmp0 + column && offA == offA0 + column && offB == offB0 + column
      invariant PrepassUpTo(S1[..], S2[..], S3[..], S4[..], S5[..], S6[..], S7[..], S8[..], A[..], av, B[..], bv, q, row, column)
    {
      PrepassCellStep(A, av, B, bv, q, row, column, tmp, offA, offB, S1, S2, S3, S4, S5, S6, S7, S8);
      tmp, offA, offB := tmp + 1, offA + 1, offB + 1;
      column := column + 1;
    }
    PrepassNextRow(S1[..], S2[..], S3[..], S4[..], S5[..], S6[..], S7[..], S8[..], A[..], av, B[..], bv, q, row);
  }

  /** The body of the prepass loop: computes cell (row, column) of S1 .. S8
      and stores it at tmp. */
  method PrepassCellStep(A: array<int>, av: View, B: array<int>, bv: View, q: nat, row: nat, column: nat,
                         tmp: int, offA: int, offB: int,
                         S1: array<int>, S2: array<int>, S3: array<int>, S4: array<int>,
                         S5: array<int>, S6: array<int>, S7: array<int>, S8: array<int>)
    requires Separate(A, B, S1, S2, S3, S4, S5, S6, S7, S8)
    requires Fits(av, 2 * q, A.Length) && Fits(bv, 2 * q, B.Length) && row < q && column < q
    requires S1.Length == S2.Length == S3.Length == S4.Length == q * q
    requires S5.Length == S6.Length == S7.Length == S8.Length == q * q
    requires tmp == TempView(q).At(row, column)
    requires offA == av.At(row, column) - av.off && offB == bv.At(row, column) - bv.off
    requires PrepassUpTo(S1[..], S2[..], S3[..], S4[..], S5[..], S6[..], S7[..], S8[..], A[..], av, B[..], bv, q, row, column)
    modifies S1, S2, S3, S4, S5, S6, S7, S8
    ensures PrepassUpTo(S1[..], S2[..], S3[..], S4[..], S5[..], S6[..], S7[..], S8[..], A[..], av, B[..], bv, q, row, column + 1)
  {
    TempFits(q);
    AtInBounds(TempView(q), q, q * q, row, column);
    ghost var old1, old2, old3, old4 := S1[..], S2[..], S3[..], S4[..];
    ghost var old5, old6, old7, old8 := S5[..], S6[..], S7[..], S8[..];
    var s1, s2, s3, s4, s5, s6, s7, s8 := ComputeCell(A, av, B, bv, q, row, column, offA, offB);
    PrepassStep(old1, old2, old3, old4, old5, old6, old7, old8,
                old1[tmp := s1], old2[tmp := s2], old3[tmp := s3], old4[tmp := s4],
                old5[tmp := s5], old6[tmp := s6], old7[tmp := s7], old8[tmp := s8], A[..], av, B[..], bv, q, row, column, tmp,
                s1, s2, s3, s4, s5, s6, s7, s8);
    StoreCell(S1, S2, S3, S4, S5, S6, S7, S8, tmp, s1, s2, s3, s4, s5, s6, s7, s8);
  }

  /** Stores one cell of each of S1 .. S8. */
  method StoreCell(S1: array<int>, S2: array<int>, S3: array<int>, S4: array<int>,
                   S5: array<int>, S6: array<int>, S7: array<int>, S8: array<int>, t: int,
                   s1: int, s2: int, s3: int, s4: int, s5: int, s6: int, s7: int, s8: int)
    requires S1 != S2 && S1 != S3 && S1 != S4 && S1 != S5 && S1 != S6 && S1 != S7 && S1 != S8
    requires S2 != S3 && S2 != S4 && S2 != S5 && S2 != S6 && S2 != S7 && S2 != S8
    requires S3 != S4 && S3 != S5 && S3 != S6 && S3 != S7 && S3 != S8
    requires S4 != S5 && S4 != S6 && S4 != S7 && S4 != S8
    requires S5 != S6 && S5 != S7 && S5 != S8
    requires S6 != S7 && S6 != S8
    requires S7 != S8
    requires 0 <= t < S1.Length && t < S2.Length && t < S3.Length && t < S4.Length
    requires t < S5.Length && t < S6.Length && t < S7.Length && t < S8.Length
    modifies S1, S2, S3, S4, S5, S6, S7, S8
    ensures S1[..] == old(S1[..])[t := s1] && S2[..] == old(S2[..])[t := s2]
    ensures S3[..] == old(S3[..])[t := s3] && S4[..] == old(S4[..])[t := s4]
    ensures S5[..] == old(S5[..])[t := s5] && S6[..] == old(S6[..])[t := s6]
    ensures S7[..] == old(S7[..])[t := s7] && S8[..] == old(S8[..])[t := s8]
  {
    S1[t] := s1;
    S2[t] := s2;
    S4[t] := s4;
    S5[t] := s5;
    S6[t] := s6;
    S8[t] := s8;
    S3[t] := s3;
    S7[t] := s7;
  }

  /** The pre-pass of OptimizedStrassenMultiply: allocates the scratch
      matrices and fills S1 .. S8 from the quadrants of A and B, one cell at
      a time, reusing each S value as the source's chained assignments do. */
  method StrassenPrepass(A: array<int>, av: View, B: array<int>, bv: View, q: nat)
    returns (S1: array<int>, S2: array<int>, S3: array<int>, S4: array<int>,
             S5: array<int>, S6: array<int>, S7: array<int>, S8: array<int>)
    requires Fits(av, 2 * q, A.Length) && Fits(bv, 2 * q, B.Length)
    ensures fresh(S1) && fresh(S2) && fresh(S3) && fresh(S4) && fresh(S5) && fresh(S6) && fresh(S7) && fresh(S8)
    ensures S1.Length == S2.Length == S3.Length == S4.Length == q * q
    ensures S5.Length == S6.Length == S7.Length == S8.Length == q * q
    ensures StrassenSums(S1[..], S2[..], S3[..], S4[..], S5[..], S6[..], S7[..], S8[..], A[..], av, B[..], bv, q)
  {
    S1, S2, S3, S4 := new int[q * q], new int[q * q], new int[q * q], new int[q * q];
    S5, S6, S7, S8 := new int[q * q], new int[q * q], new int[q * q], new int[q * q];
    TempFits(q);
    QuadrantsFit(av, A.Length, bv, B.Length, av, A.Length, q);
    var tv := TempView(q);
    ghost var As, Bs := A[..], B[..];
    var tmp, offA, offB := 0, 0, 0;
    var row := 0;
    while row < q
      invariant 0 <= row <= q
      invariant tmp == tv.At(row, 0) && offA == av.At(row, 0) - av.off && offB == bv.At(row, 0) - bv.off
      invariant PrepassUpTo(S1[..], S2[..], S3[..], S4[..], S5[..], S6[..], S7[..], S8[..], As, av, Bs, bv, q, row, 0)
    {
      tmp, offA, offB := PrepassRow(A, av, B, bv, q, row, tmp, offA, offB, S1, S2, S3, S4, S5, S6, S7, S8);
      NextRow(tv, row, 0);
      NextRow(av, row, 0);
      NextRow(bv, row, 0);
      // the row increments: RowWidth - QuadrantSize, and 0 for the scratch matrices
      offA, offB := offA + (av.stride - q), offB + (bv.stride - q);
      row := row + 1;
    }
    PrepassComplete(S1[..], S2[..], S3[..], S4[..], S5[..], S6[..], S7[..], S8[..], As, av, Bs, bv, q);
  }

  /** The value the combination pass leaves in cell (i, j) of quadrant
      (qi, qj) of C, given C0, the content of C after the seven products:
      T1 = T1s + M2 and T2 = C22 + T1, then C11 += M2, C12 += M5 + T1,
      C22 = M5 + T2 and C21 = -C21 + T2. */
  ghost function CombineTarget(C0: seq<int>, cv: View, M2: seq<int>, M5: seq<int>, T1s: seq<int>, q: nat,
                               qi: int, qj: int, i: int, j: int): int
  {
    var t := TempView(q).At(i, j);
    var t1 := Get(T1s, t) + Get(M2, t);
    var t2 := Get(C0, cv.Quad(1, 1, q).At(i, j)) + t1;
    var c := Get(C0, cv.Quad(qi, qj, q).At(i, j));
    if qi == 0 && qj == 0 then c + Get(M2, t)
    else if qi == 0 then c + (Get(M5, t) + t1)
    else if qj == 1 then Get(M5, t) + t2
    else -c + t2
  }

  /** The combination pass has finished every cell before (row, col) in all
      four quadrants, left the others as they were, and touched nothing
      outside the 2q-by-2q window. */
  ghost predicate CombineProgress(C: seq<int>, C0: seq<int>, cv: View, M2: seq<int>, M5: seq<int>, T1s: seq<int>,
                                  q: nat, row: int, col: int)
  {
    Framed(C, C0, cv, 2 * q)
    && forall qi, qj, i, j :: 0 <= qi <= 1 && 0 <= qj <= 1 && 0 <= i < q && 0 <= j < q ==>
         Get(C, cv.Quad(qi, qj, q).At(i, j)) ==
           if Before(i, j, row, col) then CombineTarget(C0, cv, M2, M5, T1s, q, qi, qj, i, j)
           else Get(C0, cv.Quad(qi, qj, q).At(i, j))
  }

  /** p is one of the four cells (row, col) .. (row, col + 3) of some quadrant. */
  predicate InLane(cv: View, q: int, row: int, col: int, p: int)
  {
    var c11, c12 := cv.Quad(0, 0, q).At(row, col), cv.Quad(0, 1, q).At(row, col);
    var c21, c22 := cv.Quad(1, 0, q).At(row, col), cv.Quad(1, 1, q).At(row, col);
    (c11 <= p < c11 + 4) || (c12 <= p < c12 + 4) || (c21 <= p < c21 + 4) || (c22 <= p < c22 + 4)
  }

  /** Row qi*q + i of a window of side 2q, for qi in {0, 1} and 0 <= i < q. */
  lemma QuadRow(q: int, qi: int, i: int, ri: int, r: int)
    requires 0 <= qi <= 1 && 0 <= ri <= 1 && 0 <= i < q && 0 <= r < q
    ensures 0 <= qi * q + i < 2 * q
    ensures qi * q + i == ri * q + r <==> qi == ri && i == r
  {
    if qi == 0 { } else { }
    if ri == 0 { } else { }
  }

  /** The four lane segments lie in order, four apart, inside C. */
  lemma LaneOrder(cv: View, q: nat, len: int, row: int, col: int)
    requires Fits(cv, 2 * q, len) && 0 <= row < q && 0 <= col && col + 4 <= q
    ensures 0 <= cv.Quad(0, 0, q).At(row, col)
    ensures cv.Quad(0, 0, q).At(row, col) + 4 <= cv.Quad(0, 1, q).At(row, col)
    ensures cv.Quad(0, 1, q).At(row, col) + 4 <= cv.Quad(1, 0, q).At(row, col)
    ensures cv.Quad(1, 0, q).At(row, col) + 4 <= cv.Quad(1, 1, q).At(row, col)
    ensures cv.Quad(1, 1, q).At(row, col) + 4 <= len
    ensures cv.Quad(0, 1, q).At(row, col) == cv.Quad(0, 0, q).At(row, col) + q
    ensures cv.Quad(1, 0, q).At(row, col) == cv.Quad(0, 0, q).At(row, col) + cv.stride * q
    ensures cv.Quad(1, 1, q).At(row, col) == cv.Quad(0, 0, q).At(row, col) + cv.stride * q + q
  {
    var base := cv.At(row, col);
    assert cv.Quad(0, 0, q).At(row, col) == base;
    assert cv.Quad(0, 1, q).At(row, col) == base + q;
    assert cv.Quad(1, 0, q).At(row, col) == base + q * cv.stride;
    assert cv.Quad(1, 1, q).At(row, col) == base + q * cv.stride + q;
    MulMonotone(2 * q, cv.stride, q);
    MulMonotone(2, q, q);
    assert q * cv.stride >= 2 * q * q >= 2 * q;
    QuadAt(cv, 1, 1, q, row, col + 3);
    AtInBounds(cv, 2 * q, len, q + row, q + col + 3);
    AtInBounds(cv, 2 * q, len, row, col);
  }

  /** A cell that is not in the lane of its own quadrant is in no lane at all. */
  lemma LaneMiss(cv: View, q: nat, row: int, col: int, qi: int, qj: int, i: int, j: int)
    requires cv.stride >= 2 * q && 0 <= row < q && 0 <= col && col + 4 <= q
    requires 0 <= qi <= 1 && 0 <= qj <= 1 && 0 <= i < q && 0 <= j < q
    requires !(i == row && col <= j < col + 4)
    ensures !InLane(cv, q, row, col, cv.Quad(qi, qj, q).At(i, j))
  {
    QuadAt(cv, qi, qj, q, i, j);
    QuadRow(q, qj, j, 0, 0);
    forall ri, rj | 0 <= ri <= 1 && 0 <= rj <= 1
      ensures !(cv.Quad(ri, rj, q).At(row, col) <= cv.Quad(qi, qj, q).At(i, j) < cv.Quad(ri, rj, q).At(row, col) + 4)
    {
      QuadAt(cv, ri, rj, q, row, col);
      QuadRow(q, qi, i, ri, row);
      QuadRow(q, rj, col, 0, 0);
      AtSegment(cv, ri * q + row, rj * q + col, 4, qi * q + i, qj * q + j);
      if qj == rj { } else if qj == 0 { } else { }
    }
  }

  /** Storing one lane advances the combination pass by four columns. */
  lemma CombineStep(C: seq<int>, C': seq<int>, C0: seq<int>, cv: View, M2: seq<int>, M5: seq<int>, T1s: seq<int>,
                    q: nat, row: int, col: int)
    requires Fits(cv, 2 * q, |C|) && 0 <= row < q && 0 <= col && col + 4 <= q
    requires CombineProgress(C, C0, cv, M2, M5, T1s, q, row, col)
    requires |C'| == |C|
    requires forall p :: 0 <= p < |C| && !InLane(cv, q, row, col, p) ==> C'[p] == C[p]
    requires forall qi, qj, j :: 0 <= qi <= 1 && 0 <= qj <= 1 && col <= j < col + 4 ==>
      Get(C', cv.Quad(qi, qj, q).At(row, j)) == CombineTarget(C, cv, M2, M5, T1s, q, qi, qj, row, j)
    ensures CombineProgress(C', C0, cv, M2, M5, T1s, q, row, col + 4)
  {
    LaneFramed(C, C', C0, cv, q, row, col);
    forall qi, qj, i, j | 0 <= qi <= 1 && 0 <= qj <= 1 && 0 <= i < q && 0 <= j < q
      ensures Get(C', cv.Quad(qi, qj, q).At(i, j)) ==
           if Before(i, j, row, col + 4) then CombineTarget(C0, cv, M2, M5, T1s, q, qi, qj, i, j)
           else Get(C0, cv.Quad(qi, qj, q).At(i, j))
    {
      if i == row && col <= j < col + 4 {
        LaneCell(C, C', C0, cv, M2, M5, T1s, q, row, col, qi, qj, j);
      } else {
        OffLaneCell(C, C', cv, q, row, col, qi, qj, i, j);
        assert Before(i, j, row, col + 4) == Before(i, j, row, col);
      }
    }
  }

  /** Storing one lane keeps everything outside the window as it was. */
  lemma LaneFramed(C: seq<int>, C': seq<int>, C0: seq<int>, cv: View, q: nat, row: int, col: int)
    requires Fits(cv, 2 * q, |C|) && 0 <= row < q && 0 <= col && col + 4 <= q
    requires Framed(C, C0, cv, 2 * q) && |C'| == |C|
    requires forall p :: 0 <= p < |C| && !InLane(cv, q, row, col, p) ==> C'[p] == C[p]
    ensures Framed(C', C0, cv, 2 * q)
  {
    forall p | 0 <= p < |C'| && !InWindow(cv, 2 * q, p)
      ensures C'[p] == C0[p]
    {
      if InLane(cv, q, row, col, p) {
        LaneInWindow(cv, q, |C|, row, col, p);
      }
    }
  }

  /** A lane cell, not yet combined in C, holds its combination target in C'. */
  lemma LaneCell(C: seq<int>, C': seq<int>, C0: seq<int>, cv: View, M2: seq<int>, M5: seq<int>, T1s: seq<int>,
                 q: nat, row: int, col: int, qi: int, qj: int, j: int)
    requires 0 <= row < q && 0 <= col && col + 4 <= q
    requires 0 <= qi <= 1 && 0 <= qj <= 1 && col <= j < col + 4
    requires CombineProgress(C, C0, cv, M2, M5, T1s, q, row, col)
    requires Get(C', cv.Quad(qi, qj, q).At(row, j)) == CombineTarget(C, cv, M2, M5, T1s, q, qi, qj, row, j)
    ensures Get(C', cv.Quad(qi, qj, q).At(row, j)) == CombineTarget(C0, cv, M2, M5, T1s, q, qi, qj, row, j)
  {
    assert !Before(row, j, row, col);
    assert Get(C, cv.Quad(1, 1, q).At(row, j)) == Get(C0, cv.Quad(1, 1, q).At(row, j));
    assert Get(C, cv.Quad(qi, qj, q).At(row, j)) == Get(C0, cv.Quad(qi, qj, q).At(row, j));
  }

  /** A quadrant cell off the lane keeps its value. */
  lemma OffLaneCell(C: seq<int>, C': seq<int>, cv: View, q: nat, row: int, col: int, qi: int, qj: int, i: int, j: int)
    requires Fits(cv, 2 * q, |C|) && 0 <= row < q && 0 <= col && col + 4 <= q
    requires 0 <= qi <= 1 && 0 <= qj <= 1 && 0 <= i < q && 0 <= j < q
    requires !(i == row && col <= j < col + 4)
    requires |C'| == |C|
    requires forall p :: 0 <= p < |C| && !InLane(cv, q, row, col, p) ==> C'[p] == C[p]
    ensures Get(C', cv.Quad(qi, qj, q).At(i, j)) == Get(C, cv.Quad(qi, qj, q).At(i, j))
  {
    LaneMiss(cv, q, row, col, qi, qj, i, j);
    QuadFits(cv, q, |C|, qi, qj);
    AtInBounds(cv.Quad(qi, qj, q), q, |C|, i, j);
  }

  /** Every lane cell lies inside the 2q-by-2q window. */
  lemma LaneInWindow(cv: View, q: nat, len: int, row: int, col: int, p: int)
    requires Fits(cv, 2 * q, len) && 0 <= row < q && 0 <= col && col + 4 <= q
    requires InLane(cv, q, row, col, p)
    ensures InWindow(cv, 2 * q, p)
  {
    forall qi, qj | 0 <= qi <= 1 && 0 <= qj <= 1 && cv.Quad(qi, qj, q).At(row, col) <= p < cv.Quad(qi, qj, q).At(row, col) + 4
      ensures InWindow(cv, 2 * q, p)
    {
      var j := col + (p - cv.Quad(qi, qj, q).At(row, col));
      assert p == cv.Quad(qi, qj, q).At(row, j);
      QuadFits(cv, q, len, qi, qj);
      AtInBounds(cv.Quad(qi, qj, q), q, len, row, j);
    }
    if cv.Quad(0, 0, q).At(row, col) <= p < cv.Quad(0, 0, q).At(row, col) + 4 {
    } else if cv.Quad(0, 1, q).At(row, col) <= p < cv.Quad(0, 1, q).At(row, col) + 4 {
    } else if cv.Quad(1, 0, q).At(row, col) <= p < cv.Quad(1, 0, q).At(row, col) + 4 {
    } else {
    }
  }

  /** Moving k columns right moves k positions on. */
  lemma ColumnShift(v: View, i: int, j: int, k: int)
    ensures v.At(i, j + k) == v.At(i, j) + k
  {
  }

  /** The lane's four stores, stated on the buffers, are the combination
      targets of its cells. */
  lemma LaneTargets(C0: seq<int>, C: seq<int>, cv: View, M2: seq<int>, M5: seq<int>, T1s: seq<int>, q: nat, len: int,
                    row: nat, col: nat, t: int, c11: int, c12: int, c21: int, c22: int)
    requires |C0| == |C| == len && t == TempView(q).At(row, col)
    requires c11 == cv.Quad(0, 0, q).At(row, col) && c12 == cv.Quad(0, 1, q).At(row, col)
    requires c21 == cv.Quad(1, 0, q).At(row, col) && c22 == cv.Quad(1, 1, q).At(row, col)
    requires 0 <= t && t + 4 <= |M2| && t + 4 <= |M5| && t + 4 <= |T1s|
    requires 0 <= c11 && c11 + 4 <= c12 && c12 + 4 <= c21 && c21 + 4 <= c22 && c22 + 4 <= len
    requires forall k :: 0 <= k < 4 ==> LaneRelation(C, C0, M2, M5, T1s, t, c11, c12, c21, c22, k)
    ensures forall qi, qj, j :: 0 <= qi <= 1 && 0 <= qj <= 1 && col <= j < col + 4 ==>
      Get(C, cv.Quad(qi, qj, q).At(row, j)) == CombineTarget(C0, cv, M2, M5, T1s, q, qi, qj, row, j)
  {
    forall qi, qj, j | 0 <= qi <= 1 && 0 <= qj <= 1 && col <= j < col + 4
      ensures Get(C, cv.Quad(qi, qj, q).At(row, j)) == CombineTarget(C0, cv, M2, M5, T1s, q, qi, qj, row, j)
    {
      var k := j - col;
      LaneTarget(C0, C, cv, M2, M5, T1s, q, row, col, t, c11, c12, c21, c22, qi, qj, k);
    }
  }

  /** What one lane of the combination pass stores at offset k: with
      T1 = T1s + M2 and T2 = C22 + T1, C11 gains M2, C12 gains M5 + T1,
      C22 becomes M5 + T2 and C21 becomes T2 - C21. */
  ghost predicate LaneRelation(C: seq<int>, C0: seq<int>, M2: seq<int>, M5: seq<int>, T1s: seq<int>,
                               t: int, c11: int, c12: int, c21: int, c22: int, k: int)
  {
    var m2, m5, t1s := Get(M2, t + k), Get(M5, t + k), Get(T1s, t + k);
    Get(C, c11 + k) == Get(C0, c11 + k) + m2
    && Get(C, c12 + k) == Get(C0, c12 + k) + (m5 + (t1s + m2))
    && Get(C, c22 + k) == m5 + (Get(C0, c22 + k) + (t1s + m2))
    && Get(C, c21 + k) == -Get(C0, c21 + k) + (Get(C0, c22 + k) + (t1s + m2))
  }

  /** One cell of LaneTargets: column j = col + k of quadrant (qi, qj),
      given the four stores' relations at offset k. */
  lemma LaneTarget(C0: seq<int>, C: seq<int>, cv: View, M2: seq<int>, M5: seq<int>, T1s: seq<int>, q: nat,
                   row: nat, col: nat, t: int, c11: int, c12: int, c21: int, c22: int,
                   qi: int, qj: int, k: int)
    requires t == TempView(q).At(row, col)
    requires c11 == cv.Quad(0, 0, q).At(row, col) && c12 == cv.Quad(0, 1, q).At(row, col)
    requires c21 == cv.Quad(1, 0, q).At(row, col) && c22 == cv.Quad(1, 1, q).At(row, col)
    requires 0 <= qi <= 1 && 0 <= qj <= 1
    requires LaneRelation(C, C0, M2, M5, T1s, t, c11, c12, c21, c22, k)
    ensures Get(C, cv.Quad(qi, qj, q).At(row, col + k)) == CombineTarget(C0, cv, M2, M5, T1s, q, qi, qj, row, col + k)
  {
    ColumnShift(TempView(q), row, col, k);
    ColumnShift(cv.Quad(1, 1, q), row, col, k);
    ColumnShift(cv.Quad(qi, qj, q), row, col, k);
  }

  /** The lane relations at each of the four offsets. */
  lemma LaneValues(C0: seq<int>, C: seq<int>, M2: seq<int>, M5: seq<int>, T1s: seq<int>,
                   t: int, c11: int, c12: int, c21: int, c22: int)
    requires 0 <= t && t + 4 <= |M2| && t + 4 <= |M5| && t + 4 <= |T1s|
    requires 0 <= c11 && c11 + 4 <= c12 && c12 + 4 <= c21 && c21 + 4 <= c22 && c22 + 4 <= |C| == |C0|
    requires C[c11] == C0[c11] + M2[t] && C[c11 + 1] == C0[c11 + 1] + M2[t + 1]
    requires C[c11 + 2] == C0[c11 + 2] + M2[t + 2] && C[c11 + 3] == C0[c11 + 3] + M2[t + 3]
    requires C[c12] == C0[c12] + (M5[t] + (T1s[t] + M2[t])) && C[c12 + 1] == C0[c12 + 1] + (M5[t + 1] + (T1s[t + 1] + M2[t + 1]))
    requires C[c12 + 2] == C0[c12 + 2] + (M5[t + 2] + (T1s[t + 2] + M2[t + 2]))
    requires C[c12 + 3] == C0[c12 + 3] + (M5[t + 3] + (T1s[t + 3] + M2[t + 3]))
    requires C[c22] == M5[t] + (C0[c22] + (T1s[t] + M2[t])) && C[c22 + 1] == M5[t + 1] + (C0[c22 + 1] + (T1s[t + 1] + M2[t + 1]))
    requires C[c22 + 2] == M5[t + 2] + (C0[c22 + 2] + (T1s[t + 2] + M2[t + 2]))
    requires C[c22 + 3] == M5[t + 3] + (C0[c22 + 3] + (T1s[t + 3] + M2[t + 3]))
    requires C[c21] == -C0[c21] + (C0[c22] + (T1s[t] + M2[t])) && C[c21 + 1] == -C0[c21 + 1] + (C0[c22 + 1] + (T1s[t + 1] + M2[t + 1]))
    requires C[c21 + 2] == -C0[c21 + 2] + (C0[c22 + 2] + (T1s[t + 2] + M2[t + 2]))
    requires C[c21 + 3] == -C0[c21 + 3] + (C0[c22 + 3] + (T1s[t + 3] + M2[t + 3]))
    ensures forall k :: 0 <= k < 4 ==> LaneRelation(C, C0, M2, M5, T1s, t, c11, c12, c21, c22, k)
  {
    forall k | 0 <= k < 4
      ensures LaneRelation(C, C0, M2, M5, T1s, t, c11, c12, c21, c22, k)
    {
      if k == 0 { } else if k == 1 { } else if k == 2 { } else { }
    }
  }

  /** Stores four consecutive entries of C from p on, as one line of the
      unrolled loop body does. */
  method Store4(C: array<int>, p: int, v0: int, v1: int, v2: int, v3: int)
    requires 0 <= p && p + 4 <= C.Length
    modifies C
    ensures C[p] == v0 && C[p + 1] == v1 && C[p + 2] == v2 && C[p + 3] == v3
    ensures forall r :: 0 <= r < C.Length && !(p <= r < p + 4) ==> C[r] == old(C[r])
  {
    C[p] := v0;
    C[p + 1] := v1;
    C[p + 2] := v2;
    C[p + 3] := v3;
  }

  /** One iteration of the combination loop: four consecutive cells of each
      quadrant of C, at c11, c12, c21 and c22, combined with the four scratch
      entries of M5, M2 and T1s at t. */
  method CombineLane(C: array<int>, M2: array<int>, M5: array<int>, T1s: array<int>,
                     t: int, c11: int, c12: int, c21: int, c22: int)
    requires C != M2 && C != M5 && C != T1s
    requires 0 <= t && t + 4 <= M2.Length && t + 4 <= M5.Length && t + 4 <= T1s.Length
    requires 0 <= c11 && c11 + 4 <= c12 && c12 + 4 <= c21 && c21 + 4 <= c22 && c22 + 4 <= C.Length
    modifies C
    ensures forall p :: 0 <= p < C.Length && !(c11 <= p < c11 + 4 || c12 <= p < c12 + 4 || c21 <= p < c21 + 4 || c22 <= p < c22 + 4) ==>
      C[p] == old(C[p])
    ensures forall k :: 0 <= k < 4 ==> LaneRelation(C[..], old(C[..]), M2[..], M5[..], T1s[..], t, c11, c12, c21, c22, k)
  {
    ghost var C0 := C[..];
    var m5_0, m5_1, m5_2, m5_3 := M5[t], M5[t + 1], M5[t + 2], M5[t + 3];
    var m2_0, m2_1, m2_2, m2_3 := M2[t], M2[t + 1], M2[t + 2], M2[t + 3];
    var t1_0, t1_1, t1_2, t1_3 := T1s[t] + m2_0, T1s[t + 1] + m2_1, T1s[t + 2] + m2_2, T1s[t + 3] + m2_3;
    var t2_0, t2_1, t2_2, t2_3 := C[c22] + t1_0, C[c22 + 1] + t1_1, C[c22 + 2] + t1_2, C[c22 + 3] + t1_3;
    Store4(C, c11, C[c11] + m2_0, C[c11 + 1] + m2_1, C[c11 + 2] + m2_2, C[c11 + 3] + m2_3);
    Store4(C, c12, C[c12] + (m5_0 + t1_0), C[c12 + 1] + (m5_1 + t1_1), C[c12 + 2] + (m5_2 + t1_2), C[c12 + 3] + (m5_3 + t1_3));
    Store4(C, c22, m5_0 + t2_0, m5_1 + t2_1, m5_2 + t2_2, m5_3 + t2_3);
    Store4(C, c21, -C[c21] + t2_0, -C[c21 + 1] + t2_1, -C[c21 + 2] + t2_2, -C[c21 + 3] + t2_3);
    LaneValues(C0, C[..], M2[..], M5[..], T1s[..], t, c11, c12, c21, c22);
  }

  /** Finishing a row of the combination pass moves it to the next row. */
  lemma CombineNextRow(C: seq<int>, C0: seq<int>, cv: View, M2: seq<int>, M5: seq<int>, T1s: seq<int>, q: nat, row: int)
    requires CombineProgress(C, C0, cv, M2, M5, T1s, q, row, q)
    ensures CombineProgress(C, C0, cv, M2, M5, T1s, q, row + 1, 0)
  {
    forall qi, qj, i, j | 0 <= qi <= 1 && 0 <= qj <= 1 && 0 <= i < q && 0 <= j < q
      ensures Get(C, cv.Quad(qi, qj, q).At(i, j)) ==
           if Before(i, j, row + 1, 0) then CombineTarget(C0, cv, M2, M5, T1s, q, qi, qj, i, j)
           else Get(C0, cv.Quad(qi, qj, q).At(i, j))
    {
      assert Before(i, j, row, q) == Before(i, j, row + 1, 0);
    }
  }

  /** The combination pass of OptimizedStrassenMultiply, row by row and four
      columns at a time, with the source's running pointers into C and the
      scratch matrices. */
  method StrassenCombine(C: array<int>, cv: View, M2: array<int>, M5: array<int>, T1s: array<int>, q: nat)
    requires C != M2 && C != M5 && C != T1s
    requires Fits(cv, 2 * q, C.Length) && M2.Length == q * q && M5.Length == q * q && T1s.Length == q * q
    requires q % 4 == 0
    modifies C
    ensures CombineProgress(C[..], old(C[..]), cv, M2[..], M5[..], T1s[..], q, q, 0)
  {
    ghost var C0 := C[..];
    TempFits(q);
    var tv := TempView(q);
    var tmp := 0;
    var c11, c12 := cv.off, cv.off + q;
    var c21, c22 := cv.off + cv.stride * q, cv.off + cv.stride * q + q;
    assert c21 == cv.Quad(1, 0, q).At(0, 0) && c22 == cv.Quad(1, 1, q).At(0, 0) by {
      assert 1 * q * cv.stride == cv.stride * q;
    }
    var row := 0;
    while row < q
      invariant 0 <= row <= q
      invariant tmp == tv.At(row, 0)
      invariant c11 == cv.Quad(0, 0, q).At(row, 0) && c12 == cv.Quad(0, 1, q).At(row, 0)
      invariant c21 == cv.Quad(1, 0, q).At(row, 0) && c22 == cv.Quad(1, 1, q).At(row, 0)
      invariant CombineProgress(C[..], C0, cv, M2[..], M5[..], T1s[..], q, row, 0)
    {
      tmp, c11, c12, c21, c22 := CombineRow(C, cv, M2, M5, T1s, q, C0, row, tmp, c11, c12, c21, c22);
      CombineNextRow(C[..], C0, cv, M2[..], M5[..], T1s[..], q, row);
      NextRow(tv, row, 0);
      NextRow(cv.Quad(0, 0, q), row, 0);
      NextRow(cv.Quad(0, 1, q), row, 0);
      NextRow(cv.Quad(1, 0, q), row, 0);
      NextRow(cv.Quad(1, 1, q), row, 0);
      // RowIncrementC = RowWidthC - QuadrantSize
      c11, c12, c21, c22 := c11 + (cv.stride - q), c12 + (cv.stride - q), c21 + (cv.stride - q), c22 + (cv.stride - q);
      row := row + 1;
    }
  }

  /** The inner loop of the combine pass: row `row` of the four quadrants,
      four columns at a time, with the five pointers advancing by 4. */
  method CombineRow(C: array<int>, cv: View, M2: array<int>, M5: array<int>, T1s: array<int>, q: nat,
                    ghost C0: seq<int>, row: int, tmp0: int, c11_0: int, c12_0: int, c21_0: int, c22_0: int)
    returns (tmp: int, c11: int, c12: int, c21: int, c22: int)
    requires C != M2 && C != M5 && C != T1s
    requires Fits(cv, 2 * q, C.Length) && M2.Length == q * q && M5.Length == q * q && T1s.Length == q * q
    requires q % 4 == 0 && 0 <= row < q
    requires tmp0 == TempView(q).At(row, 0)
    requires c11_0 == cv.Quad(0, 0, q).At(row, 0) && c12_0 == cv.Quad(0, 1, q).At(row, 0)
    requires c21_0 == cv.Quad(1, 0, q).At(row, 0) && c22_0 == cv.Quad(1, 1, q).At(row, 0)
    requires CombineProgress(C[..], C0, cv, M2[..], M5[..], T1s[..], q, row, 0)
    modifies C
    ensures tmp == TempView(q).At(row, q)
    ensures c11 == cv.Quad(0, 0, q).At(row, q) && c12 == cv.Quad(0, 1, q).At(row, q)
    ensures c21 == cv.Quad(1, 0, q).At(row, q) && c22 == cv.Quad(1, 1, q).At(row, q)
    ensures CombineProgress(C[..], C0, cv, M2[..], M5[..], T1s[..], q, row, q)
  {
    TempFits(q);
    var tv := TempView(q);
    tmp, c11, c12, c21, c22 := tmp0, c11_0, c12_0, c21_0, c22_0;
    var column := 0;
    while column < q
      invariant 0 <= column <= q && column % 4 == 0
      invariant tmp == tv.At(row, column)
      invariant c11 == cv.Quad(0, 0, q).At(row, column) && c12 == cv.Quad(0, 1, q).At(row, column)
      invariant c21 == cv.Quad(1, 0, q).At(row, column) && c22 == cv.Quad(1, 1, q).At(row, column)
      invariant CombineProgress(C[..], C0, cv, M2[..], M5[..], T1s[..], q, row, column)
    {
      NextMultipleOfFour(column, q);
      CombineFour(C, cv, M2, M5, T1s, q, C0, row, column, tmp, c11, c12, c21, c22);
      tmp, c11, c12, c21, c22 := tmp + 4, c11 + 4, c12 + 4, c21 + 4, c22 + 4;
      column := column + 4;
    }
  }

  /** Multiples of 4 below a multiple of 4 stay at least 4 below it. */
  lemma NextMultipleOfFour(column: int, q: int)
    requires 0 <= column < q && column % 4 == 0 && q % 4 == 0
    ensures column + 4 <= q && (column + 4) % 4 == 0
  {
    assert column == 4 * (column / 4) && q == 4 * (q / 4);
  }

  /** One turn of the combine loop: columns column .. column + 3 of row
      `row` of the four quadrants. */
  method CombineFour(C: array<int>, cv: View, M2: array<int>, M5: array<int>, T1s: array<int>, q: nat,
                     ghost C0: seq<int>, row: int, column: int, tmp: int, c11: int, c12: int, c21: int, c22: int)
    requires C != M2 && C != M5 && C != T1s
    requires Fits(cv, 2 * q, C.Length) && M2.Length == q * q && M5.Length == q * q && T1s.Length == q * q
    requires 0 <= row < q && 0 <= column && column + 4 <= q
    requires tmp == TempView(q).At(row, column)
    requires c11 == cv.Quad(0, 0, q).At(row, column) && c12 == cv.Quad(0, 1, q).At(row, column)
    requires c21 == cv.Quad(1, 0, q).At(row, column) && c22 == cv.Quad(1, 1, q).At(row, column)
    requires CombineProgress(C[..], C0, cv, M2[..], M5[..], T1s[..], q, row, column)
    modifies C
    ensures CombineProgress(C[..], C0, cv, M2[..], M5[..], T1s[..], q, row, column + 4)
  {
    LaneOrder(cv, q, C.Length, row, column);
    TempLane(q, row, column);
    ghost var Cb := C[..];
    CombineLane(C, M2, M5, T1s, tmp, c11, c12, c21, c22);
    LaneTargets(Cb, C[..], cv, M2[..], M5[..], T1s[..], q, C.Length, row, column, tmp, c11, c12, c21, c22);
    CombineStep(Cb, C[..], C0, cv, M2[..], M5[..], T1s[..], q, row, column);
  }

  /** C = A x B by Strassen's seven-product scheme (OptimizedStrassenMultiply):
      at most 64 wide it hands over to the quadrant recursion; otherwise it
      forms S1 .. S8, makes the seven half-size products (three into scratch
      matrices of row width q, four straight into the quadrants of C) and
      combines them in one pass over C. */
  method OptimizedStrassen(C: array<int>, cv: View, A: array<int>, av: View, B: array<int>, bv: View, n: nat)
    requires C != A && C != B && ValidSize(n)
    requires Fits(av, n, A.Length) && Fits(bv, n, B.Length) && Fits(cv, n, C.Length)
    modifies C
    ensures Multiplied(C[..], old(C[..]), cv, A[..], av, B[..], bv, n, false)
    decreases n, 1
  {
    if n <= DivideAndConquerSize {
      DivideAndConquer(C, cv, A, av, B, bv, n, false);
      return;
    }
    HalveValidSize(n);
    var q := n / 2;
    QuadrantsFit(av, A.Length, bv, B.Length, cv, C.Length, q);
    TempFits(q);
    var tv := TempView(q);
    var a11, a12, a22 := av, av.Quad(0, 1, q), av.Quad(1, 1, q);
    var b11, b21, b22 := bv, bv.Quad(1, 0, q), bv.Quad(1, 1, q);
    var c11, c12, c21, c22 := cv, cv.Quad(0, 1, q), cv.Quad(1, 0, q), cv.Quad(1, 1, q);
    assert av.Quad(0, 0, q) == a11 && bv.Quad(0, 0, q) == b11 && cv.Quad(0, 0, q) == c11;
    ghost var As, Bs := A[..], B[..];
    var S1, S2, S3, S4, S5, S6, S7, S8 := StrassenPrepass(A, av, B, bv, q);
    ghost var S1s, S2s, S3s, S4s := S1[..], S2[..], S3[..], S4[..];
    ghost var S5s, S6s, S7s, S8s := S5[..], S6[..], S7[..], S8[..];
    var M2, M5, T1s := ScratchProducts(A, av, B, bv, S1, S2, S5, S6, q);
    ghost var M2s, M5s, T1f := M2[..], M5[..], T1s[..];
    ghost var C0 := C[..];
    QuadrantProducts(C, cv, A, av, B, bv, S3, S4, S7, S8, q);
    ghost var C4 := C[..];
    StrassenCombine(C, cv, M2, M5, T1s, q);
    assert M2[..] == M2s && M5[..] == M5s && T1s[..] == T1f;
    assert A[..] == As && B[..] == Bs;
    StrassenCombineCorrect(C0, C4, C[..], cv, As, av, Bs, bv, q,
                           S1s, S2s, S3s, S4s, S5s, S6s, S7s, S8s, M2s, M5s, T1f);
  }

  /** The three products Strassen's scheme keeps in scratch matrices of row
      width q: M2 = A11 x B11, M5 = S1 x S5 and T1s = S2 x S6. */
  method ScratchProducts(A: array<int>, av: View, B: array<int>, bv: View,
                         S1: array<int>, S2: array<int>, S5: array<int>, S6: array<int>, q: nat)
    returns (M2: array<int>, M5: array<int>, T1s: array<int>)
    requires q > 0 && ValidSize(q) && Fits(av, 2 * q, A.Length) && Fits(bv, 2 * q, B.Length)
    requires S1.Length == S2.Length == S5.Length == S6.Length == q * q
    ensures fresh(M2) && fresh(M5) && fresh(T1s)
    ensures M2.Length == M5.Length == T1s.Length == q * q
    ensures ScratchHeld(M2[..], M5[..], T1s[..], A[..], av, B[..], bv, q, S1[..], S2[..], S5[..], S6[..])
    decreases 2 * q, 0
  {
    QuadrantsFit(av, A.Length, bv, B.Length, av, A.Length, q);
    TempFits(q);
    var tv := TempView(q);
    assert av.Quad(0, 0, q) == av && bv.Quad(0, 0, q) == bv;
    M2 := new int[q * q];
    M5 := new int[q * q];
    T1s := new int[q * q];
    ghost var M2i, M5i, T1i := M2[..], M5[..], T1s[..];
    // M2 = A11 x B11
    OptimizedStrassen(M2, tv, A, av, B, bv, q);
    ghost var M2s := M2[..];
    // M5 = S1 x S5
    OptimizedStrassen(M5, tv, S1, tv, S5, tv, q);
    ghost var M5s := M5[..];
    // step 1 of T1 = S2 x S6 + M2
    OptimizedStrassen(T1s, tv, S2, tv, S6, tv, q);
    ProductHeld(M2s, M2i, tv, A[..], av, B[..], bv, q);
    ProductHeld(M5s, M5i, tv, S1[..], tv, S5[..], tv, q);
    ProductHeld(T1s[..], T1i, tv, S2[..], tv, S6[..], tv, q);
  }

  /** The four products Strassen's scheme writes straight into the quadrants
      of C, before the combination pass: C22 = S3 x S7, C11 = A12 x B21,
      C12 = S4 x B22 and C21 = A22 x S8. */
  method QuadrantProducts(C: array<int>, cv: View, A: array<int>, av: View, B: array<int>, bv: View,
                          S3: array<int>, S4: array<int>, S7: array<int>, S8: array<int>, q: nat)
    requires C != A && C != B && C != S3 && C != S4 && C != S7 && C != S8
    requires q > 0 && ValidSize(q)
    requires Fits(av, 2 * q, A.Length) && Fits(bv, 2 * q, B.Length) && Fits(cv, 2 * q, C.Length)
    requires S3.Length == S4.Length == S7.Length == S8.Length == q * q
    modifies C
    ensures QuadrantsHeld(C[..], old(C[..]), cv, A[..], av, B[..], bv, q, S3[..], S4[..], S7[..], S8[..])
    decreases 2 * q, 0
  {
    QuadrantsFit(av, A.Length, bv, B.Length, cv, C.Length, q);
    TempFits(q);
    var tv := TempView(q);
    assert cv.Quad(0, 0, q) == cv;
    ghost var C0 := C[..];
    // step 1 of T2 = T1 + S3 x S7
    OptimizedStrassen(C, cv.Quad(1, 1, q), S3, tv, S7, tv, q);
    ghost var C1 := C[..];
    // step 1 of C11 = M2 + A12 x B21
    OptimizedStrassen(C, cv, A, av.Quad(0, 1, q), B, bv.Quad(1, 0, q), q);
    ghost var C2 := C[..];
    // step 1 of C12 = S4 x B22 + T1 + M5
    OptimizedStrassen(C, cv.Quad(0, 1, q), S4, tv, B, bv.Quad(1, 1, q), q);
    ghost var C3 := C[..];
    // step 1 of C21 = T2 - A22 x S8
    OptimizedStrassen(C, cv.Quad(1, 0, q), A, av.Quad(1, 1, q), S8, tv, q);
    FourProducts(C0, C1, C2, C3, C[..], cv, A[..], av, B[..], bv, q, S3[..], S4[..], S7[..], S8[..]);
  }

  /** M2, M5 and T1s hold their products. */
  ghost predicate ScratchHeld(M2: seq<int>, M5: seq<int>, T1s: seq<int>, As: seq<int>, av: View, Bs: seq<int>, bv: View, q: nat,
                              S1: seq<int>, S2: seq<int>, S5: seq<int>, S6: seq<int>)
  {
    forall i, j :: 0 <= i < q && 0 <= j < q ==>
      Get(M2, TempView(q).At(i, j)) == Prod(As, av.Quad(0, 0, q), Bs, bv.Quad(0, 0, q), i, j, q)
      && Get(M5, TempView(q).At(i, j)) == Prod(S1, TempView(q), S5, TempView(q), i, j, q)
      && Get(T1s, TempView(q).At(i, j)) == Prod(S2, TempView(q), S6, TempView(q), i, j, q)
  }

  /** Each quadrant of C holds the product written into it, and nothing
      outside the 2q-window of C has changed. */
  ghost predicate QuadrantsHeld(C: seq<int>, C0: seq<int>, cv: View, As: seq<int>, av: View, Bs: seq<int>, bv: View, q: nat,
                                S3: seq<int>, S4: seq<int>, S7: seq<int>, S8: seq<int>)
  {
    Framed(C, C0, cv, 2 * q) && QuadrantValues(C, cv, As, av, Bs, bv, q, S3, S4, S7, S8)
  }

  /** Each quadrant of C holds the product written into it. */
  ghost predicate QuadrantValues(C: seq<int>, cv: View, As: seq<int>, av: View, Bs: seq<int>, bv: View, q: nat,
                                 S3: seq<int>, S4: seq<int>, S7: seq<int>, S8: seq<int>)
  {
    forall i, j :: 0 <= i < q && 0 <= j < q ==>
      Get(C, cv.Quad(1, 1, q).At(i, j)) == Prod(S3, TempView(q), S7, TempView(q), i, j, q)
      && Get(C, cv.Quad(0, 0, q).At(i, j)) == Prod(As, av.Quad(0, 1, q), Bs, bv.Quad(1, 0, q), i, j, q)
      && Get(C, cv.Quad(0, 1, q).At(i, j)) == Prod(S4, TempView(q), Bs, bv.Quad(1, 1, q), i, j, q)
      && Get(C, cv.Quad(1, 0, q).At(i, j)) == Prod(As, av.Quad(1, 1, q), S8, TempView(q), i, j, q)
  }

  /** The results of one level of Strassen's algorithm, in the source's
      order: the seven products (three into scratch matrices, four straight
      into the quadrants of C) and the combination pass leave C holding the
      product A x B. */
  lemma StrassenCombineCorrect(C0: seq<int>, C4: seq<int>, C5: seq<int>,
                               cv: View, As: seq<int>, av: View, Bs: seq<int>, bv: View, q: nat,
                               S1: seq<int>, S2: seq<int>, S3: seq<int>, S4: seq<int>,
                               S5: seq<int>, S6: seq<int>, S7: seq<int>, S8: seq<int>,
                               M2: seq<int>, M5: seq<int>, T1s: seq<int>)
    requires StrassenSums(S1, S2, S3, S4, S5, S6, S7, S8, As, av, Bs, bv, q)
    requires ScratchHeld(M2, M5, T1s, As, av, Bs, bv, q, S1, S2, S5, S6)
    requires QuadrantsHeld(C4, C0, cv, As, av, Bs, bv, q, S3, S4, S7, S8)
    requires CombineProgress(C5, C4, cv, M2, M5, T1s, q, q, 0)
    ensures Multiplied(C5, C0, cv, As, av, Bs, bv, 2 * q, false)
  {
    forall qi, qj | 0 <= qi <= 1 && 0 <= qj <= 1
      ensures forall i, j :: 0 <= i < q && 0 <= j < q ==>
        Get(C5, cv.Quad(qi, qj, q).At(i, j))
          == Prod(As, av.Quad(qi, 0, q), Bs, bv.Quad(0, qj, q), i, j, q)
           + Prod(As, av.Quad(qi, 1, q), Bs, bv.Quad(1, qj, q), i, j, q)
    {
      StrassenQuadrant(C4, C5, cv, As, av, Bs, bv, q, S1, S2, S3, S4, S5, S6, S7, S8, M2, M5, T1s, qi, qj);
    }
    assert Framed(C5, C0, cv, 2 * q);
    AssembleQuadrants(C5, C0, cv, As, av, Bs, bv, q);
  }

  /** C holds A x B once each of its quadrants holds the sum of the two
      block products that make it up. */
  lemma AssembleQuadrants(C: seq<int>, C0: seq<int>, cv: View, As: seq<int>, av: View, Bs: seq<int>, bv: View, q: nat)
    requires Framed(C, C0, cv, 2 * q)
    requires forall qi, qj, i, j :: 0 <= qi <= 1 && 0 <= qj <= 1 && 0 <= i < q && 0 <= j < q ==>
      Get(C, cv.Quad(qi, qj, q).At(i, j))
        == Prod(As, av.Quad(qi, 0, q), Bs, bv.Quad(0, qj, q), i, j, q)
         + Prod(As, av.Quad(qi, 1, q), Bs, bv.Quad(1, qj, q), i, j, q)
    ensures Multiplied(C, C0, cv, As, av, Bs, bv, 2 * q, false)
  {
    forall I, J | 0 <= I < 2 * q && 0 <= J < 2 * q
      ensures Get(C, cv.At(I, J)) == Target(C0, cv, As, av, Bs, bv, 2 * q, false, I, J)
    {
      var qi, qj := if I < q then 0 else 1, if J < q then 0 else 1;
      var i, j := I - qi * q, J - qj * q;
      QuadAt(cv, qi, qj, q, i, j);
      BlockProd(As, av, Bs, bv, q, qi, qj, i, j);
    }
  }

  /** A finished product, read back cell by cell. */
  lemma ProductHeld(C: seq<int>, C0: seq<int>, v: View, A: seq<int>, av: View, B: seq<int>, bv: View, n: nat)
    requires Multiplied(C, C0, v, A, av, B, bv, n, false)
    ensures forall i, j :: 0 <= i < n && 0 <= j < n ==> Get(C, v.At(i, j)) == Prod(A, av, B, bv, i, j, n)
  {
    forall i, j | 0 <= i < n && 0 <= j < n
      ensures Get(C, v.At(i, j)) == Prod(A, av, B, bv, i, j, n)
    {
      assert Before(i, j, n, 0);
    }
  }

  /** The four products written straight into the quadrants of C, one
      after another: each quadrant keeps its own, and nothing outside the
      2q-window changes. */
  lemma FourProducts(C0: seq<int>, C1: seq<int>, C2: seq<int>, C3: seq<int>, C4: seq<int>,
                     cv: View, As: seq<int>, av: View, Bs: seq<int>, bv: View, q: nat,
                     S3: seq<int>, S4: seq<int>, S7: seq<int>, S8: seq<int>)
    requires Fits(cv, 2 * q, |C0|)
    requires Multiplied(C1, C0, cv.Quad(1, 1, q), S3, TempView(q), S7, TempView(q), q, false)
    requires Multiplied(C2, C1, cv.Quad(0, 0, q), As, av.Quad(0, 1, q), Bs, bv.Quad(1, 0, q), q, false)
    requires Multiplied(C3, C2, cv.Quad(0, 1, q), S4, TempView(q), Bs, bv.Quad(1, 1, q), q, false)
    requires Multiplied(C4, C3, cv.Quad(1, 0, q), As, av.Quad(1, 1, q), S8, TempView(q), q, false)
    ensures QuadrantsHeld(C4, C0, cv, As, av, Bs, bv, q, S3, S4, S7, S8)
  {
    var len, tv := |C0|, TempView(q);
    MultipliedFramed(C1, C0, cv.Quad(1, 1, q), S3, tv, S7, tv, q, false);
    MultipliedFramed(C2, C1, cv.Quad(0, 0, q), As, av.Quad(0, 1, q), Bs, bv.Quad(1, 0, q), q, false);
    MultipliedFramed(C3, C2, cv.Quad(0, 1, q), S4, tv, Bs, bv.Quad(1, 1, q), q, false);
    MultipliedFramed(C4, C3, cv.Quad(1, 0, q), As, av.Quad(1, 1, q), S8, tv, q, false);
    KeptOutside(C1, C0, cv, q, len, 1, 1);
    KeptOutside(C2, C1, cv, q, len, 0, 0);
    KeptOutside(C3, C2, cv, q, len, 0, 1);
    KeptOutside(C4, C3, cv, q, len, 1, 0);
    ProductHeld(C1, C0, cv.Quad(1, 1, q), S3, tv, S7, tv, q);
    ProductHeld(C2, C1, cv.Quad(0, 0, q), As, av.Quad(0, 1, q), Bs, bv.Quad(1, 0, q), q);
    ProductHeld(C3, C2, cv.Quad(0, 1, q), S4, tv, Bs, bv.Quad(1, 1, q), q);
    ProductHeld(C4, C3, cv.Quad(1, 0, q), As, av.Quad(1, 1, q), S8, tv, q);
    KeptAcross(C1, C2, C3, C4, cv, q, (0, 0), (0, 1), (1, 0), 1, 1);
    KeptAcross(C2, C3, C4, C4, cv, q, (0, 1), (1, 0), (1, 0), 0, 0);
    KeptAcross(C3, C4, C4, C4, cv, q, (1, 0), (1, 0), (1, 0), 0, 1);
  }

  /** Every cell of quadrant (qi, qj) after the combination pass. */
  lemma StrassenQuadrant(C4: seq<int>, C5: seq<int>, cv: View, As: seq<int>, av: View, Bs: seq<int>, bv: View, q: nat,
                         S1: seq<int>, S2: seq<int>, S3: seq<int>, S4: seq<int>,
                         S5: seq<int>, S6: seq<int>, S7: seq<int>, S8: seq<int>,
                         M2: seq<int>, M5: seq<int>, T1s: seq<int>, qi: int, qj: int)
    requires 0 <= qi <= 1 && 0 <= qj <= 1
    requires StrassenSums(S1, S2, S3, S4, S5, S6, S7, S8, As, av, Bs, bv, q)
    requires ScratchHeld(M2, M5, T1s, As, av, Bs, bv, q, S1, S2, S5, S6)
    requires QuadrantValues(C4, cv, As, av, Bs, bv, q, S3, S4, S7, S8)
    requires CombineProgress(C5, C4, cv, M2, M5, T1s, q, q, 0)
    ensures forall i, j :: 0 <= i < q && 0 <= j < q ==>
      Get(C5, cv.Quad(qi, qj, q).At(i, j))
        == Prod(As, av.Quad(qi, 0, q), Bs, bv.Quad(0, qj, q), i, j, q)
         + Prod(As, av.Quad(qi, 1, q), Bs, bv.Quad(1, qj, q), i, j, q)
  {
    forall i, j | 0 <= i < q && 0 <= j < q
      ensures Get(C5, cv.Quad(qi, qj, q).At(i, j))
        == Prod(As, av.Quad(qi, 0, q), Bs, bv.Quad(0, qj, q), i, j, q)
         + Prod(As, av.Quad(qi, 1, q), Bs, bv.Quad(1, qj, q), i, j, q)
    {
      assert Before(i, j, q, 0);
      StrassenCell(C4, C5, cv, As, av, Bs, bv, q, S1, S2, S3, S4, S5, S6, S7, S8, M2, M5, T1s, qi, qj, i, j);
    }
  }

  /** One cell of the combination pass, by Strassen's identity. */
  lemma StrassenCell(C4: seq<int>, C5: seq<int>, cv: View, As: seq<int>, av: View, Bs: seq<int>, bv: View, q: nat,
                     S1: seq<int>, S2: seq<int>, S3: seq<int>, S4: seq<int>,
                     S5: seq<int>, S6: seq<int>, S7: seq<int>, S8: seq<int>,
                     M2: seq<int>, M5: seq<int>, T1s: seq<int>, qi: int, qj: int, i: int, j: int)
    requires 0 <= qi <= 1 && 0 <= qj <= 1 && 0 <= i < q && 0 <= j < q
    requires StrassenSums(S1, S2, S3, S4, S5, S6, S7, S8, As, av, Bs, bv, q)
    requires Get(M2, TempView(q).At(i, j)) == Prod(As, av.Quad(0, 0, q), Bs, bv.Quad(0, 0, q), i, j, q)
    requires Get(M5, TempView(q).At(i, j)) == Prod(S1, TempView(q), S5, TempView(q), i, j, q)
    requires Get(T1s, TempView(q).At(i, j)) == Prod(S2, TempView(q), S6, TempView(q), i, j, q)
    requires Get(C4, cv.Quad(1, 1, q).At(i, j)) == Prod(S3, TempView(q), S7, TempView(q), i, j, q)
    requires Get(C4, cv.Quad(0, 0, q).At(i, j)) == Prod(As, av.Quad(0, 1, q), Bs, bv.Quad(1, 0, q), i, j, q)
    requires Get(C4, cv.Quad(0, 1, q).At(i, j)) == Prod(S4, TempView(q), Bs, bv.Quad(1, 1, q), i, j, q)
    requires Get(C4, cv.Quad(1, 0, q).At(i, j)) == Prod(As, av.Quad(1, 1, q), S8, TempView(q), i, j, q)
    requires Get(C5, cv.Quad(qi, qj, q).At(i, j)) == CombineTarget(C4, cv, M2, M5, T1s, q, qi, qj, i, j)
    ensures Get(C5, cv.Quad(qi, qj, q).At(i, j))
         == Prod(As, av.Quad(qi, 0, q), Bs, bv.Quad(0, qj, q), i, j, q)
          + Prod(As, av.Quad(qi, 1, q), Bs, bv.Quad(1, qj, q), i, j, q)
  {
    StrassenIdentity(S1, S2, S3, S4, S5, S6, S7, S8, As, av, Bs, bv, q, i, j);
    var t := TempView(q).At(i, j);
    var m2, m5, t1 := Get(M2, t), Get(M5, t), Get(T1s, t) + Get(M2, t);
    var t2 := Get(C4, cv.Quad(1, 1, q).At(i, j)) + t1;
    if qi == 0 && qj == 0 {
      assert CombineTarget(C4, cv, M2, M5, T1s, q, qi, qj, i, j) == Get(C4, cv.Quad(0, 0, q).At(i, j)) + m2;
    } else if qi == 0 {
      assert qj == 1;
      assert CombineTarget(C4, cv, M2, M5, T1s, q, qi, qj, i, j) == Get(C4, cv.Quad(0, 1, q).At(i, j)) + (m5 + t1);
    } else if qj == 1 {
      assert qi == 1;
      assert CombineTarget(C4, cv, M2, M5, T1s, q, qi, qj, i, j) == m5 + t2;
    } else {
      assert qi == 1 && qj == 0;
      assert CombineTarget(C4, cv, M2, M5, T1s, q, qi, qj, i, j) == -Get(C4, cv.Quad(1, 0, q).At(i, j)) + t2;
    }
  }

  // ---------------------------------------------------------------------
  // mat_vec_mul: P = A V (or P += A V) by halving the longer dimension.

  /** Sum over t < k of A[i][t] * V[t], accumulated left to right as the
      base case of mat_vec_mul does. */
  function Dot(A: seq<int>, av: View, V: seq<int>, v0: int, i: int, k: nat): int
  {
    if k == 0 then 0 else Dot(A, av, V, v0, i, k - 1) + Get(A, av.At(i, k - 1)) * Get(V, v0 + k - 1)
  }

  /** Cutting the columns at h: the tail is the dot product of the
      sub-matrix starting at column h with V + h. */
  lemma {:induction false} DotSplit(A: seq<int>, av: View, V: seq<int>, v0: int, i: int, h: nat, k: nat)
    ensures Dot(A, av, V, v0, i, h + k) == Dot(A, av, V, v0, i, h) + Dot(A, View(av.off + h, av.stride), V, v0 + h, i, k)
  {
    if k > 0 {
      DotSplit(A, av, V, v0, i, h, k - 1);
    }
  }

  /** Row i of the sub-matrix starting at row h is row h + i of the whole. */
  lemma {:induction false} DotRowShift(A: seq<int>, av: View, V: seq<int>, v0: int, h: int, i: int, k: nat)
    ensures Dot(A, View(av.off + h * av.stride, av.stride), V, v0, i, k) == Dot(A, av, V, v0, h + i, k)
  {
    if k > 0 {
      DotRowShift(A, av, V, v0, h, i, k - 1);
      assert (h + i) * av.stride == h * av.stride + i * av.stride;
    }
  }

  /** The inner loop of the base case: c = sum over j < n of A[i][j] * V[j]. */
  method RowDot(A: array<int>, av: View, V: array<int>, v0: nat, m: nat, n: nat, i: nat) returns (c: int)
    requires FitsRect(av, m, n, A.Length) && v0 + n <= V.Length && i < m
    ensures c == Dot(A[..], av, V[..], v0, i, n)
  {
    c := 0;
    var j := 0;
    while j < n
      invariant 0 <= j <= n
      invariant c == Dot(A[..], av, V[..], v0, i, j)
    {
      AtInBoundsRect(av, m, n, A.Length, i, j);
      c := c + A[av.At(i, j)] * V[v0 + j];
      j := j + 1;
    }
  }

  /** The base case of mat_vec_mul (m + n <= 64): one dot product per row. */
  method MatVecBase(m: nat, n: nat, A: array<int>, av: View, V: array<int>, v0: nat, P: array<int>, p0: nat, add: bool)
    requires P != A && P != V
    requires FitsRect(av, m, n, A.Length) && v0 + n <= V.Length && p0 + m <= P.Length
    modifies P
    ensures forall i :: 0 <= i < m ==> P[p0 + i] == (if add then old(P[p0 + i]) else 0) + Dot(A[..], av, V[..], v0, i, n)
    ensures forall p :: 0 <= p < P.Length && !(p0 <= p < p0 + m) ==> P[p] == old(P[p])
  {
    var i := 0;
    while i < m
      invariant 0 <= i <= m
      invariant forall k :: 0 <= k < i ==> P[p0 + k] == (if add then old(P[p0 + k]) else 0) + Dot(A[..], av, V[..], v0, k, n)
      invariant forall p :: 0 <= p < P.Length && !(p0 <= p < p0 + i) ==> P[p] == old(P[p])
    {
      var c := RowDot(A, av, V, v0, m, n, i);
      if add {
        P[p0 + i] := P[p0 + i] + c;
      } else {
        P[p0 + i] := c;
      }
      i := i + 1;
    }
  }

  /** mat_vec_mul: for the m-by-n matrix A (row width av.stride), vector V
      (starting at v0) and result P (starting at p0), sets P[i] to row i of
      A V, or adds it to P[i] when `add` holds; nothing else in P changes. */
  method MatVecMul(m: nat, n: nat, A: array<int>, av: View, V: array<int>, v0: nat, P: array<int>, p0: nat, add: bool)
    requires P != A && P != V
    requires FitsRect(av, m, n, A.Length) && v0 + n <= V.Length && p0 + m <= P.Length
    modifies P
    ensures forall i :: 0 <= i < m ==> P[p0 + i] == (if add then old(P[p0 + i]) else 0) + Dot(A[..], av, V[..], v0, i, n)
    ensures forall p :: 0 <= p < P.Length && !(p0 <= p < p0 + m) ==> P[p] == old(P[p])
    decreases m + n, 1
  {
    if m + n <= 64 {
      MatVecBase(m, n, A, av, V, v0, P, p0, add);
    } else if m >= n {
      MatVecRows(m, n, A, av, V, v0, P, p0, add);
    } else {
      MatVecColumns(m, n, A, av, V, v0, P, p0, add);
    }
  }

  /** mat_vec_mul when m >= n: the top m/2 rows, then the rest from row m/2. */
  method MatVecRows(m: nat, n: nat, A: array<int>, av: View, V: array<int>, v0: nat, P: array<int>, p0: nat, add: bool)
    requires P != A && P != V
    requires FitsRect(av, m, n, A.Length) && v0 + n <= V.Length && p0 + m <= P.Length
    requires m + n > 64 && m >= n
    modifies P
    ensures forall i :: 0 <= i < m ==> P[p0 + i] == (if add then old(P[p0 + i]) else 0) + Dot(A[..], av, V[..], v0, i, n)
    ensures forall p :: 0 <= p < P.Length && !(p0 <= p < p0 + m) ==> P[p] == old(P[p])
    decreases m + n, 0
  {
    var m1 := m / 2;
    var av' := View(av.off + m1 * av.stride, av.stride);
    assert FitsRect(av', m - m1, n, A.Length) by {
      if n > 0 {
        assert av'.At(m - m1 - 1, n - 1) == av.At(m - 1, n - 1) by {
          assert (m - 1) * av.stride == m1 * av.stride + (m - m1 - 1) * av.stride;
        }
        MulMonotone(0, m1, av.stride);
      }
    }
    assert FitsRect(av, m1, n, A.Length) by {
      if n > 0 && m1 > 0 {
        MulMonotone(m1 - 1, m - 1, av.stride);
      }
    }
    ghost var P0 := P[..];
    MatVecMul(m1, n, A, av, V, v0, P, p0, add);
    ghost var P1 := P[..];
    MatVecMul(m - m1, n, A, av', V, v0, P, p0 + m1, add);
    forall i | 0 <= i < m
      ensures P[p0 + i] == (if add then P0[p0 + i] else 0) + Dot(A[..], av, V[..], v0, i, n)
    {
      if i >= m1 {
        DotRowShift(A[..], av, V[..], v0, m1, i - m1, n);
      }
    }
  }

  /** mat_vec_mul when m < n: the left n/2 columns, then the rest added on top. */
  method MatVecColumns(m: nat, n: nat, A: array<int>, av: View, V: array<int>, v0: nat, P: array<int>, p0: nat, add: bool)
    requires P != A && P != V
    requires FitsRect(av, m, n, A.Length) && v0 + n <= V.Length && p0 + m <= P.Length
    requires m + n > 64 && m < n
    modifies P
    ensures forall i :: 0 <= i < m ==> P[p0 + i] == (if add then old(P[p0 + i]) else 0) + Dot(A[..], av, V[..], v0, i, n)
    ensures forall p :: 0 <= p < P.Length && !(p0 <= p < p0 + m) ==> P[p] == old(P[p])
    decreases m + n, 0
  {
    var n1 := n / 2;
    var av' := View(av.off + n1, av.stride);
    ghost var P0 := P[..];
    MatVecMul(m, n1, A, av, V, v0, P, p0, add);
    MatVecMul(m, n - n1, A, av', V, v0 + n1, P, p0, true);
    forall i | 0 <= i < m
      ensures P[p0 + i] == (if add then P0[p0 + i] else 0) + Dot(A[..], av, V[..], v0, i, n)
    {
      DotSplit(A[..], av, V[..], v0, i, n1, n - n1);
    }
  }

  // ---------------------------------------------------------------------
  // cilk_rand: a linear congruential generator over unsigned long.

  /** 2^64: unsigned long wraps at this modulus. */
  const ULongModulus: nat := 0x1_0000_0000_0000_0000

  /** One step of the generator, wrapping at 64 bits. */
  function LcgNext(x: nat): (y: nat)
    ensures y < ULongModulus
  {
    (x * 1103515245 + 12345) % ULongModulus
  }

  /** The value cilk_rand returns for state x: bits 16 and up, reduced
      modulo RAND_MAX + 1. */
  function RandOutput(x: nat, randMax: nat): (r: nat)
    ensures r <= randMax
  {
    (x / 0x1_0000) % (randMax + 1)
  }

  /** The generator's lowest bit alternates (multiplier and increment are
      both odd), which is why cilk_rand drops the low 16 bits. */
  lemma LcgLowBitAlternates(x: nat)
    ensures LcgNext(x) % 2 != x % 2
  {
    var y := x * 1103515245 + 12345;
    var k, h, r := x * 551757622 + 6172, (x + 1) / 2, (x + 1) % 2;
    assert y == 2 * (k + h) + r;
    DivMod(k + h, 2, r);
    var d := 0x8000_0000_0000_0000;
    assert ULongModulus == 2 * d;
    ModDouble(y, d);
    DivMod((y / 2) % d, 2, r);
    assert LcgNext(x) % 2 == r;
  }

  /** The global `rand_nxt` and the function that advances it. */
  class Rand {
    var next: nat

    ghost predicate Valid()
      reads this
    {
      next < ULongModulus
    }

    /** rand_nxt starts at 0. */
    constructor ()
      ensures Valid() && next == 0
    {
      next := 0;
    }

    /** cilk_rand: advances the state by one LCG step and returns a value in
        [0, RAND_MAX]. RAND_MAX is an int, so RAND_MAX + 1 does not wrap. */
    method CilkRand(randMax: nat) returns (r: int)
      requires Valid() && randMax < 0x8000_0000
      modifies this
      ensures Valid() && next == LcgNext(old(next))
      ensures r == RandOutput(next, randMax) && 0 <= r <= randMax
    {
      next := (next * 1103515245 + 12345) % ULongModulus;
      r := (next / 0x1_0000) % (randMax + 1);
    }
  }

  // ---------------------------------------------------------------------
  // The size check of main.

  /** `(n & (n - 1)) != 0 || (n % 16) != 0` rejects n; for n = 0, n - 1 is
      all ones in two's complement and 0 & -1 == 0. */
  function SizeAccepted(n: nat): bool
  {
    (n == 0 || BitAnd(n, n - 1) == 0) && n % 16 == 0
  }

  /** main accepts exactly the sizes the recursions are proved for: 0 and
      the powers of two that are multiples of 16. */
  lemma MainAcceptsSize(n: nat)
    ensures SizeAccepted(n) <==> ValidSize(n)
  {
    if n > 0 {
      PowerOfTwoTest(n);
      if IsPow2(n) {
        Pow2MultipleOf16(n);
      }
    }
  }

  // ---------------------------------------------------------------------
  // The strassen(n, A, an, B, bn, C, cn) entry macro.

  /** The macro as written: it expands to
      OptimizedStrassenMultiply(C, A, B, n, cn, bn, an), so A is read with
      B's row width and B with A's. */
  method StrassenMacroAsWritten(n: nat, A: array<int>, an: nat, B: array<int>, bn: nat, C: array<int>, cn: nat)
    requires C != A && C != B && ValidSize(n)
    requires Fits(View(0, bn), n, A.Length) && Fits(View(0, an), n, B.Length) && Fits(View(0, cn), n, C.Length)
    modifies C
    ensures Multiplied(C[..], old(C[..]), View(0, cn), A[..], View(0, bn), B[..], View(0, an), n, false)
  {
    OptimizedStrassen(C, View(0, cn), A, View(0, bn), B, View(0, an), n);
  }

  /** The macro with the row widths in their documented places: C = A x B
      for A of row width an and B of row width bn. */
  method StrassenMacro(n: nat, A: array<int>, an: nat, B: array<int>, bn: nat, C: array<int>, cn: nat)
    requires C != A && C != B && ValidSize(n)
    requires Fits(View(0, an), n, A.Length) && Fits(View(0, bn), n, B.Length) && Fits(View(0, cn), n, C.Length)
    modifies C
    ensures Multiplied(C[..], old(C[..]), View(0, cn), A[..], View(0, an), B[..], View(0, bn), n, false)
  {
    OptimizedStrassen(C, View(0, cn), A, View(0, an), B, View(0, bn), n);
  }

  /** A product whose row i of A is zero from column 1 on is its first term. */
  lemma {:induction false} ProdFirstTerm(A: seq<int>, av: View, B: seq<int>, bv: View, i: int, j: int, k: nat)
    requires k >= 1 && forall t :: 1 <= t < k ==> Get(A, av.At(i, t)) == 0
    ensures Prod(A, av, B, bv, i, j, k) == Get(A, av.At(i, 0)) * Get(B, bv.At(0, j))
  {
    if k > 1 {
      ProdFirstTerm(A, av, B, bv, i, j, k - 1);
    }
  }

  /** With an = n and bn = n + 1 (say n = 16, bn = 17), an A whose only
      non-zero entry is A[1][0] = 1 (position n) and a B whose only non-zero
      entry is B[0][0] = 1, entry (1, 0) of A x B is 1, but the macro as
      written computes 0 there: it reads row 1 of A from position n + 1
      onwards, past the entry at n. */
  lemma SwappedRowWidths(A: seq<int>, B: seq<int>, n: nat)
    requires n >= 2 && |A| > n && A[n] == 1 && forall p :: 0 <= p < |A| && p != n ==> A[p] == 0
    requires |B| > 0 && B[0] == 1 && forall p :: 0 < p < |B| ==> B[p] == 0
    ensures Prod(A, View(0, n), B, View(0, n + 1), 1, 0, n) == 1
    ensures Prod(A, View(0, n + 1), B, View(0, n), 1, 0, n) == 0
  {
    ProdFirstTerm(A, View(0, n), B, View(0, n + 1), 1, 0, n);
    ProdFirstTerm(A, View(0, n + 1), B, View(0, n), 1, 0, n);
  }
}
