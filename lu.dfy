/** The blocked LU kernels of cilk5/lu.c over one flat buffer of ints: a
    Matrix is an array of 16-by-16 Blocks, block (I, J) of a matrix at block
    index m is block m + I*nBlocks + J (MATRIX), and element (i, j) of block
    b is buffer position b*256 + i*16 + j. All sub-matrices the kernels
    receive (M00, V10, L11, ...) are windows of that one buffer. */
module Lu {
  import opened Arith
  import opened Strided

  /** BLOCK_SIZE. */
  const BlockSize: int := 16
  /** Number of elements in a Block. */
  const BlockElems: int := 256

  /** Block b as a window of the buffer: row width BLOCK_SIZE. */
  function BlockView(b: int): View
  {
    View(b * 256, 16)
  }

  /** Buffer position of element (i, j) of block b (BLOCK(B, i, j)). */
  function Elem(b: int, i: int, j: int): int
  {
    BlockView(b).At(i, j)
  }

  /** Block b lies inside a buffer of len elements. */
  predicate ValidBlock(len: int, b: int)
  {
    0 <= b && (b + 1) * BlockElems <= len
  }

  /** The block a buffer position belongs to. */
  function BlockOf(p: int): int
  {
    p / 256
  }

  lemma ElemFacts(len: int, b: int, i: int, j: int)
    requires ValidBlock(len, b) && 0 <= i < BlockSize && 0 <= j < BlockSize
    ensures 0 <= Elem(b, i, j) < len && BlockOf(Elem(b, i, j)) == b
    ensures Elem(b, i, 0) + j == Elem(b, i, j)
    ensures b * 256 <= Elem(b, i, j) < b * 256 + 256
  {
    DivMod(b, BlockElems, i * BlockSize + j);
  }

  /** Rows of two different blocks are disjoint stretches of the buffer. */
  lemma RowsApart(len: int, b: int, i: int, c: int, k: int)
    requires ValidBlock(len, b) && ValidBlock(len, c) && b != c && 0 <= i < BlockSize && 0 <= k < BlockSize
    ensures Elem(c, k, 0) + BlockSize <= Elem(b, i, 0) || Elem(b, i, 0) + BlockSize <= Elem(c, k, 0)
  {
    ElemFacts(len, b, i, 0);
    ElemFacts(len, b, i, BlockSize - 1);
    ElemFacts(len, c, k, 0);
    ElemFacts(len, c, k, BlockSize - 1);
  }

  /** The arguments elem_daxmy(_, &BLOCK(C, k, 0), &BLOCK(B, i, 0), BLOCK_SIZE)
      meets its precondition with when B and C are different blocks. */
  lemma RowArguments(len: int, b: int, i: int, c: int, k: int)
    requires ValidBlock(len, b) && ValidBlock(len, c) && b != c && 0 <= i < BlockSize && 0 <= k < BlockSize
    ensures 0 <= Elem(c, k, 0) && 0 <= Elem(b, i, 0)
    ensures Elem(c, k, 0) + BlockSize <= len && Elem(b, i, 0) + BlockSize <= len
    ensures Elem(c, k, 0) <= Elem(b, i, 0) || Elem(b, i, 0) + BlockSize <= Elem(c, k, 0)
  {
    ElemFacts(len, b, i, BlockSize - 1);
    ElemFacts(len, c, k, BlockSize - 1);
    RowsApart(len, b, i, c, k);
  }

  /** s' differs from s at most inside block b. */
  ghost predicate BlockFramed(s': seq<int>, s: seq<int>, b: int)
  {
    |s'| == |s| && forall p :: 0 <= p < |s| && BlockOf(p) != b ==> s'[p] == s[p]
  }

  // ---------------------------------------------------------------------
  // elem_daxmy

  /** elem_daxmy(a, x, y, n): y[t] := y[t] - a*x[t] for t = n-1 down to 0,
      with x and y positions of the buffer. Running downwards, it reads the
      original x[t] whenever x does not start inside (y, y + n); the kernels
      only pass disjoint rows. Everything outside y[0..n) is unchanged. */
  method ElemDaxmy(mem: array<int>, a: int, x: int, y: int, n: int)
    requires 0 <= x && 0 <= y && x + n <= mem.Length && y + n <= mem.Length
    requires x <= y || y + n <= x
    modifies mem
    ensures Daxmied(mem[..], old(mem[..]), a, x, y, 0, n)
  {
    ghost var s0 := mem[..];
    var k := n - 1;
    while k >= 0
      invariant k < n && (k >= -1 || k == n - 1)
      invariant Daxmied(mem[..], s0, a, x, y, k + 1, n)
    {
      mem[y + k] := mem[y + k] - a * mem[x + k];
      k := k - 1;
    }
  }

  /** y[lo..n) of s' is y - a*x over s, and the rest of s' is s. */
  ghost predicate Daxmied(s': seq<int>, s: seq<int>, a: int, x: int, y: int, lo: int, n: int)
  {
    |s'| == |s|
    && forall p :: 0 <= p < |s| ==> s'[p] == if y + lo <= p < y + n then s[p] - a * Get(s, p - y + x) else s[p]
  }

  // ---------------------------------------------------------------------
  // block_schur

  /** How many terms of row r a row-by-row kernel has applied when it is at
      term k of row i. */
  function RowDepth(r: int, i: int, k: nat): nat
  {
    if r < i then BlockSize else if r == i then k else 0
  }

  /** block_schur has finished the rows before i and the first k terms of
      row i: B = B0 - (A x C) truncated accordingly; A and C are read from
      the original buffer s0. */
  ghost predicate BlockSchurProgress(s: seq<int>, s0: seq<int>, b: int, a: int, c: int, i: int, k: nat)
  {
    BlockFramed(s, s0, b)
    && forall i', j :: 0 <= i' < BlockSize && 0 <= j < BlockSize ==>
         Get(s, Elem(b, i', j)) == Get(s0, Elem(b, i', j))
           - Prod(s0, BlockView(a), s0, BlockView(c), i', j, RowDepth(i', i, k))
  }

  /** The rows elem_daxmy(_, _, &BLOCK(B, i, 0), BLOCK_SIZE) writes: exactly row i of block b. */
  ghost predicate RowUpdate(s': seq<int>, s: seq<int>, b: int, i: int, a: int, x: int)
  {
    |s'| == |s|
    && (forall p :: 0 <= p < |s| && !(Elem(b, i, 0) <= p < Elem(b, i, 0) + BlockSize) ==> s'[p] == s[p])
    && (forall j :: 0 <= j < BlockSize ==> Get(s', Elem(b, i, j)) == Get(s, Elem(b, i, j)) - a * Get(s, x + j))
  }

  /** What ElemDaxmy says about one whole row of a block, in terms of RowUpdate. */
  lemma DaxmyRow(s': seq<int>, s: seq<int>, b: int, i: int, x: int, a: int)
    requires ValidBlock(|s|, b) && 0 <= i < BlockSize && 0 <= x && x + BlockSize <= |s| && |s'| == |s|
    requires Daxmied(s', s, a, x, Elem(b, i, 0), 0, BlockSize)
    ensures RowUpdate(s', s, b, i, a, x)
    ensures BlockFramed(s', s, b)
  {
    DaxmyRowValues(s', s, b, i, x, a);
    DaxmyRowFrame(s', s, b, i, x, a);
  }

  /** The row itself: y[j] - a*x[j] at each column j. */
  lemma DaxmyRowValues(s': seq<int>, s: seq<int>, b: int, i: int, x: int, a: int)
    requires ValidBlock(|s|, b) && 0 <= i < BlockSize && 0 <= x && x + BlockSize <= |s| && |s'| == |s|
    requires Daxmied(s', s, a, x, Elem(b, i, 0), 0, BlockSize)
    ensures forall j :: 0 <= j < BlockSize ==> Get(s', Elem(b, i, j)) == Get(s, Elem(b, i, j)) - a * Get(s, x + j)
  {
    var y := Elem(b, i, 0);
    forall j | 0 <= j < BlockSize
      ensures Get(s', Elem(b, i, j)) == Get(s, Elem(b, i, j)) - a * Get(s, x + j)
    {
      ElemFacts(|s|, b, i, j);
      var p := Elem(b, i, j);
      assert p - y + x == x + j;
      assert s'[p] == s[p] - a * Get(s, x + j);
    }
  }

  /** Outside the row, and so outside block b, nothing changes. */
  lemma DaxmyRowFrame(s': seq<int>, s: seq<int>, b: int, i: int, x: int, a: int)
    requires ValidBlock(|s|, b) && 0 <= i < BlockSize && 0 <= x && x + BlockSize <= |s| && |s'| == |s|
    requires Daxmied(s', s, a, x, Elem(b, i, 0), 0, BlockSize)
    ensures forall p :: 0 <= p < |s| && !(Elem(b, i, 0) <= p < Elem(b, i, 0) + BlockSize) ==> s'[p] == s[p]
    ensures BlockFramed(s', s, b)
  {
    var y := Elem(b, i, 0);
    forall p | 0 <= p < |s| && BlockOf(p) != b
      ensures s'[p] == s[p]
    {
      ElemFacts(|s|, b, i, 0);
      assert !(y <= p < y + BlockSize) by {
        assert p / 256 != b;
      }
    }
  }

  /** One elem_daxmy of block_schur: row i of B loses A[i][k] times row k of C. */
  lemma BlockSchurStep(s: seq<int>, s': seq<int>, s0: seq<int>, b: int, a: int, c: int, i: int, k: int)
    requires ValidBlock(|s|, b) && ValidBlock(|s|, a) && ValidBlock(|s|, c) && b != a && b != c
    requires 0 <= i < BlockSize && 0 <= k < BlockSize
    requires BlockSchurProgress(s, s0, b, a, c, i, k)
    requires RowUpdate(s', s, b, i, Get(s, Elem(a, i, k)), Elem(c, k, 0))
    requires BlockFramed(s', s, b)
    ensures BlockSchurProgress(s', s0, b, a, c, i, k + 1)
  {
    forall i', j | 0 <= i' < BlockSize && 0 <= j < BlockSize
      ensures Get(s', Elem(b, i', j)) == Get(s0, Elem(b, i', j))
           - Prod(s0, BlockView(a), s0, BlockView(c), i', j, RowDepth(i', i, k + 1))
    {
      if i' == i {
        BlockSchurCell(s, s', s0, b, a, c, i, k, j);
      } else {
        ElemFacts(|s|, b, i', j);
        AtSegment(BlockView(b), i, 0, BlockSize, i', j);
      }
    }
  }

  lemma BlockSchurCell(s: seq<int>, s': seq<int>, s0: seq<int>, b: int, a: int, c: int, i: int, k: int, j: int)
    requires ValidBlock(|s|, b) && ValidBlock(|s|, a) && ValidBlock(|s|, c) && b != a && b != c
    requires 0 <= i < BlockSize && 0 <= k < BlockSize && 0 <= j < BlockSize
    requires BlockFramed(s, s0, b)
    requires Get(s, Elem(b, i, j)) == Get(s0, Elem(b, i, j)) - Prod(s0, BlockView(a), s0, BlockView(c), i, j, k)
    requires Get(s', Elem(b, i, j)) == Get(s, Elem(b, i, j)) - Get(s, Elem(a, i, k)) * Get(s, Elem(c, k, 0) + j)
    ensures Get(s', Elem(b, i, j)) == Get(s0, Elem(b, i, j)) - Prod(s0, BlockView(a), s0, BlockView(c), i, j, k + 1)
  {
    ElemFacts(|s|, a, i, k);
    ElemFacts(|s|, c, k, j);
    assert Get(s, Elem(a, i, k)) == Get(s0, BlockView(a).At(i, k));
    assert Get(s, Elem(c, k, 0) + j) == Get(s0, BlockView(c).At(k, j));
  }

  lemma BlockSchurStart(s0: seq<int>, b: int, a: int, c: int)
    ensures BlockSchurProgress(s0, s0, b, a, c, 0, 0)
  {

  }

  lemma BlockSchurNextRow(s: seq<int>, s0: seq<int>, b: int, a: int, c: int, i: int)
    requires BlockSchurProgress(s, s0, b, a, c, i, BlockSize)
    ensures BlockSchurProgress(s, s0, b, a, c, i + 1, 0)
  {
  }

  /** The body of block_schur's inner loop:
      elem_daxmy(A[i][k], &C[k][0], &B[i][0], BLOCK_SIZE). */
  method BlockSchurTerm(mem: array<int>, b: int, a: int, c: int, i: int, k: int, ghost s0: seq<int>)
    requires ValidBlock(mem.Length, b) && ValidBlock(mem.Length, a) && ValidBlock(mem.Length, c)
    requires b != a && b != c && 0 <= i < BlockSize && 0 <= k < BlockSize
    requires BlockSchurProgress(mem[..], s0, b, a, c, i, k)
    modifies mem
    ensures BlockSchurProgress(mem[..], s0, b, a, c, i, k + 1)
  {
    ghost var s := mem[..];
    RowArguments(mem.Length, b, i, c, k);
    ElemFacts(mem.Length, a, i, k);
    ElemDaxmy(mem, mem[Elem(a, i, k)], Elem(c, k, 0), Elem(b, i, 0), BlockSize);
    DaxmyRow(mem[..], s, b, i, Elem(c, k, 0), s[Elem(a, i, k)]);
    BlockSchurStep(s, mem[..], s0, b, a, c, i, k);
  }

  /** block_schur(B, A, C): B := B - A x C on one block; only B changes. */
  method BlockSchur(mem: array<int>, b: int, a: int, c: int)
    requires ValidBlock(mem.Length, b) && ValidBlock(mem.Length, a) && ValidBlock(mem.Length, c)
    requires b != a && b != c
    modifies mem
    ensures BlockFramed(mem[..], old(mem[..]), b)
    ensures forall i, j :: 0 <= i < BlockSize && 0 <= j < BlockSize ==>
      Get(mem[..], Elem(b, i, j)) == Get(old(mem[..]), Elem(b, i, j))
        - Prod(old(mem[..]), BlockView(a), old(mem[..]), BlockView(c), i, j, BlockSize)
  {
    ghost var s0 := mem[..];
    BlockSchurStart(s0, b, a, c);
    for i := 0 to BlockSize
      invariant BlockSchurProgress(mem[..], s0, b, a, c, i, 0)
    {
      BlockSchurRow(mem, b, a, c, i, s0);
    }
    BlockSchurDone(mem[..], s0, b, a, c);
  }

  /** The inner loop of block_schur: the BLOCK_SIZE elem_daxmy calls on row i of B. */
  method BlockSchurRow(mem: array<int>, b: int, a: int, c: int, i: int, ghost s0: seq<int>)
    requires ValidBlock(mem.Length, b) && ValidBlock(mem.Length, a) && ValidBlock(mem.Length, c)
    requires b != a && b != c && 0 <= i < BlockSize
    requires BlockSchurProgress(mem[..], s0, b, a, c, i, 0)
    modifies mem
    ensures BlockSchurProgress(mem[..], s0, b, a, c, i + 1, 0)
  {
    for k := 0 to BlockSize
      invariant BlockSchurProgress(mem[..], s0, b, a, c, i, k)
    {
      BlockSchurTerm(mem, b, a, c, i, k, s0);
    }
    BlockSchurNextRow(mem[..], s0, b, a, c, i);
  }

  /** All rows done: B = B0 - A x C, and nothing outside B changed. */
  lemma BlockSchurDone(s: seq<int>, s0: seq<int>, b: int, a: int, c: int)
    requires BlockSchurProgress(s, s0, b, a, c, BlockSize, 0)
    ensures BlockFramed(s, s0, b)
    ensures forall i, j :: 0 <= i < BlockSize && 0 <= j < BlockSize ==>
      Get(s, Elem(b, i, j)) == Get(s0, Elem(b, i, j)) - Prod(s0, BlockView(a), s0, BlockView(c), i, j, BlockSize)
  {
    forall i, j | 0 <= i < BlockSize && 0 <= j < BlockSize
      ensures Get(s, Elem(b, i, j)) == Get(s0, Elem(b, i, j)) - Prod(s0, BlockView(a), s0, BlockView(c), i, j, BlockSize)
    {
      assert RowDepth(i, BlockSize, 0) == BlockSize;
    }
  }

  // ---------------------------------------------------------------------
  // block_lower_solve

  /** Row r of block b solves the unit lower system with the strict lower
      part of block l: B'[r][j] + sum over t < r of L[r][t]*B'[t][j] = B0[r][j]. */
  ghost predicate LowerRowSolved(s: seq<int>, s0: seq<int>, b: int, l: int, r: nat, j: int)
  {
    Get(s, Elem(b, r, j)) + Prod(s, BlockView(l), s, BlockView(b), r, j, r) == Get(s0, Elem(b, r, j))
  }

  /** All rows of block b solved: L_unit x B' = B0. */
  ghost predicate LowerSolved(s: seq<int>, s0: seq<int>, b: int, l: int)
  {
    forall r, j :: 0 <= r < BlockSize && 0 <= j < BlockSize ==> LowerRowSolved(s, s0, b, l, r, j)
  }

  /** Forward substitution has solved the rows before i and subtracted the
      first k terms from row i; later rows are untouched. */
  ghost predicate LowerProgress(s: seq<int>, s0: seq<int>, b: int, l: int, i: int, k: nat)
  {
    BlockFramed(s, s0, b)
    && (forall r, j :: 0 <= r < i && r < BlockSize && 0 <= j < BlockSize ==> LowerRowSolved(s, s0, b, l, r, j))
    && (forall j :: 0 <= j < BlockSize && i < BlockSize ==>
          Get(s, Elem(b, i, j)) == Get(s0, Elem(b, i, j)) - Prod(s, BlockView(l), s, BlockView(b), i, j, k))
    && (forall r, j :: i < r < BlockSize && 0 <= j < BlockSize ==> Get(s, Elem(b, r, j)) == Get(s0, Elem(b, r, j)))
  }

  lemma LowerStart(s0: seq<int>, b: int, l: int)
    ensures LowerProgress(s0, s0, b, l, 1, 0)
  {
    forall j | 0 <= j < BlockSize
      ensures LowerRowSolved(s0, s0, b, l, 0, j)
    {
    }
  }

  /** A change confined to row i of block b (not block l) leaves the sums of
      rows before and at i up to term k <= i unchanged. */
  lemma LowerProdKept(s: seq<int>, s': seq<int>, b: int, l: int, i: int, r: int, j: int, k: nat)
    requires ValidBlock(|s|, b) && ValidBlock(|s|, l) && b != l && 0 <= i < BlockSize && 0 <= r < BlockSize
    requires 0 <= j < BlockSize && k <= i && k <= r
    requires BlockFramed(s', s, b)
    requires forall p :: 0 <= p < |s| && !(Elem(b, i, 0) <= p < Elem(b, i, 0) + BlockSize) ==> s'[p] == s[p]
    ensures Prod(s', BlockView(l), s', BlockView(b), r, j, k) == Prod(s, BlockView(l), s, BlockView(b), r, j, k)
  {
    forall t | 0 <= t < k
      ensures Get(s', BlockView(l).At(r, t)) == Get(s, BlockView(l).At(r, t))
      ensures Get(s', BlockView(b).At(t, j)) == Get(s, BlockView(b).At(t, j))
    {
      ElemFacts(|s|, l, r, t);
      ElemFacts(|s|, b, t, j);
      AtSegment(BlockView(b), i, 0, BlockSize, t, j);
    }
    ProdCongruent(s', BlockView(l), s', BlockView(b), r, j, s, BlockView(l), s, BlockView(b), r, j, k);
  }

  /** One elem_daxmy of block_lower_solve: row i of B loses L[i][k] times
      the already solved row k. */
  lemma LowerStep(s: seq<int>, s': seq<int>, s0: seq<int>, b: int, l: int, i: int, k: nat)
    requires ValidBlock(|s|, b) && ValidBlock(|s|, l) && b != l && 0 <= k < i < BlockSize
    requires LowerProgress(s, s0, b, l, i, k)
    requires RowUpdate(s', s, b, i, Get(s, Elem(l, i, k)), Elem(b, k, 0))
    requires BlockFramed(s', s, b)
    ensures LowerProgress(s', s0, b, l, i, k + 1)
  {
    forall r, j | 0 <= r < i && 0 <= j < BlockSize
      ensures LowerRowSolved(s', s0, b, l, r, j)
    {
      LowerProdKept(s, s', b, l, i, r, j, r);
      ElemFacts(|s|, b, r, j);
      AtSegment(BlockView(b), i, 0, BlockSize, r, j);
      assert LowerRowSolved(s, s0, b, l, r, j);
      assert Get(s', Elem(b, r, j)) == Get(s, Elem(b, r, j));
    }
    forall j | 0 <= j < BlockSize
      ensures Get(s', Elem(b, i, j)) == Get(s0, Elem(b, i, j)) - Prod(s', BlockView(l), s', BlockView(b), i, j, k + 1)
    {
      LowerProdKept(s, s', b, l, i, i, j, k);
      LowerCell(s, s', s0, b, l, i, k, j);
    }
    forall r, j | i < r < BlockSize && 0 <= j < BlockSize
      ensures Get(s', Elem(b, r, j)) == Get(s0, Elem(b, r, j))
    {
      ElemFacts(|s|, b, r, j);
      AtSegment(BlockView(b), i, 0, BlockSize, r, j);
    }
  }

  lemma LowerCell(s: seq<int>, s': seq<int>, s0: seq<int>, b: int, l: int, i: int, k: nat, j: int)
    requires ValidBlock(|s|, b) && ValidBlock(|s|, l) && b != l && 0 <= k < i < BlockSize && 0 <= j < BlockSize
    requires BlockFramed(s', s, b)
    requires forall p :: 0 <= p < |s| && !(Elem(b, i, 0) <= p < Elem(b, i, 0) + BlockSize) ==> s'[p] == s[p]
    requires Get(s, Elem(b, i, j)) == Get(s0, Elem(b, i, j)) - Prod(s, BlockView(l), s, BlockView(b), i, j, k)
    requires Get(s', Elem(b, i, j)) == Get(s, Elem(b, i, j)) - Get(s, Elem(l, i, k)) * Get(s, Elem(b, k, 0) + j)
    requires Prod(s', BlockView(l), s', BlockView(b), i, j, k) == Prod(s, BlockView(l), s, BlockView(b), i, j, k)
    ensures Get(s', Elem(b, i, j)) == Get(s0, Elem(b, i, j)) - Prod(s', BlockView(l), s', BlockView(b), i, j, k + 1)
  {
    ElemFacts(|s|, l, i, k);
    ElemFacts(|s|, b, k, j);
    AtSegment(BlockView(b), i, 0, BlockSize, k, j);
    assert Get(s', Elem(l, i, k)) == Get(s, Elem(l, i, k));
    assert Get(s', Elem(b, k, j)) == Get(s, Elem(b, k, 0) + j);
  }

  lemma LowerNextRow(s: seq<int>, s0: seq<int>, b: int, l: int, i: int)
    requires ValidBlock(|s|, b) && 0 < i < BlockSize && LowerProgress(s, s0, b, l, i, i)
    ensures LowerProgress(s, s0, b, l, i + 1, 0)
  {
    forall j | 0 <= j < BlockSize
      ensures LowerRowSolved(s, s0, b, l, i, j)
    {
    }
  }

  /** block_lower_solve(B, L): forward substitution with the unit lower
      triangle of L, leaving B' with L_unit x B' = B; only B changes and
      only the strict lower part of L enters the equation. */
  method BlockLowerSolve(mem: array<int>, b: int, l: int)
    requires ValidBlock(mem.Length, b) && ValidBlock(mem.Length, l) && b != l
    modifies mem
    ensures BlockFramed(mem[..], old(mem[..]), b)
    ensures LowerSolved(mem[..], old(mem[..]), b, l)
  {
    ghost var s0 := mem[..];
    LowerStart(s0, b, l);
    for i := 1 to BlockSize
      invariant LowerProgress(mem[..], s0, b, l, i, 0)
    {
      for k := 0 to i
        invariant LowerProgress(mem[..], s0, b, l, i, k)
      {
        LowerSolveTerm(mem, b, l, i, k, s0);
      }
      LowerNextRow(mem[..], s0, b, l, i);
    }
  }

  /** The body of block_lower_solve's inner loop:
      elem_daxmy(L[i][k], &B[k][0], &B[i][0], BLOCK_SIZE). */
  method LowerSolveTerm(mem: array<int>, b: int, l: int, i: int, k: int, ghost s0: seq<int>)
    requires ValidBlock(mem.Length, b) && ValidBlock(mem.Length, l) && b != l && 0 <= k < i < BlockSize
    requires LowerProgress(mem[..], s0, b, l, i, k)
    modifies mem
    ensures LowerProgress(mem[..], s0, b, l, i, k + 1)
  {
    ghost var s := mem[..];
    SameBlockRows(mem.Length, b, i, k);
    ElemFacts(mem.Length, l, i, k);
    ElemDaxmy(mem, mem[Elem(l, i, k)], Elem(b, k, 0), Elem(b, i, 0), BlockSize);
    DaxmyRow(mem[..], s, b, i, Elem(b, k, 0), s[Elem(l, i, k)]);
    LowerStep(s, mem[..], s0, b, l, i, k);
  }

  /** Rows k < i of one block: the arguments of the elem_daxmy in
      block_lower_solve. */
  lemma SameBlockRows(len: int, b: int, i: int, k: int)
    requires ValidBlock(len, b) && 0 <= k < i < BlockSize
    ensures 0 <= Elem(b, k, 0) && Elem(b, k, 0) + BlockSize <= Elem(b, i, 0) && Elem(b, i, 0) + BlockSize <= len
  {
    ElemFacts(len, b, k, 0);
    ElemFacts(len, b, i, BlockSize - 1);
  }

  /** The equation block_lower_solve establishes determines its result, and
      only through the strict lower part of L: two buffers that both solve
      L_unit x B' = B0, with L agreeing below the diagonal, hold the same B'. */
  lemma LowerSolutionUnique(s1: seq<int>, s2: seq<int>, s0: seq<int>, b: int, l: int)
    requires |s2| == |s1| && ValidBlock(|s1|, b) && ValidBlock(|s1|, l) && b != l
    requires LowerSolved(s1, s0, b, l) && LowerSolved(s2, s0, b, l)
    requires forall r, t :: 0 <= t < r < BlockSize ==> Get(s1, Elem(l, r, t)) == Get(s2, Elem(l, r, t))
    ensures forall r, j :: 0 <= r < BlockSize && 0 <= j < BlockSize ==> Get(s1, Elem(b, r, j)) == Get(s2, Elem(b, r, j))
  {
    LowerRowsUnique(s1, s2, s0, b, l, BlockSize);
  }

  lemma {:induction false} LowerRowsUnique(s1: seq<int>, s2: seq<int>, s0: seq<int>, b: int, l: int, n: nat)
    requires n <= BlockSize
    requires LowerSolved(s1, s0, b, l) && LowerSolved(s2, s0, b, l)
    requires forall r, t :: 0 <= t < r < BlockSize ==> Get(s1, Elem(l, r, t)) == Get(s2, Elem(l, r, t))
    ensures forall r, j :: 0 <= r < n && 0 <= j < BlockSize ==> Get(s1, Elem(b, r, j)) == Get(s2, Elem(b, r, j))
  {
    if n > 0 {
      LowerRowsUnique(s1, s2, s0, b, l, n - 1);
      var r := n - 1;
      forall j | 0 <= j < BlockSize
        ensures Get(s1, Elem(b, r, j)) == Get(s2, Elem(b, r, j))
      {
        assert LowerRowSolved(s1, s0, b, l, r, j) && LowerRowSolved(s2, s0, b, l, r, j);
        forall t | 0 <= t < r
          ensures Get(s1, BlockView(l).At(r, t)) == Get(s2, BlockView(l).At(r, t))
          ensures Get(s1, BlockView(b).At(t, j)) == Get(s2, BlockView(b).At(t, j))
        {
          assert Elem(l, r, t) == BlockView(l).At(r, t) && Elem(b, t, j) == BlockView(b).At(t, j);
        }
        ProdCongruent(s1, BlockView(l), s1, BlockView(b), r, j, s2, BlockView(l), s2, BlockView(b), r, j, r);
      }
    }
  }

  // ---------------------------------------------------------------------
  // Matrices of blocks

  /** Element (i, j) of block (I, J) of the block matrix mv, that is
      BLOCK(MATRIX(M, I, J), i, j) with mv.off the block index of M and
      mv.stride = nBlocks. */
  function MatElem(mv: View, I: int, J: int, i: int, j: int): int
  {
    Elem(mv.At(I, J), i, j)
  }

  /** The nb-by-nb block matrix mv lies inside a buffer of len elements. */
  predicate MatrixFits(mv: View, nb: nat, len: int)
  {
    Fits(mv, nb, len / BlockElems)
  }

  lemma MatBlockValid(mv: View, nb: nat, len: int, I: int, J: int)
    requires MatrixFits(mv, nb, len) && 0 <= I < nb && 0 <= J < nb
    ensures ValidBlock(len, mv.At(I, J)) && InWindow(mv, nb, mv.At(I, J))
  {
    AtInBounds(mv, nb, len / BlockElems, I, J);
    MulMonotone(mv.At(I, J) + 1, len / BlockElems, BlockElems);
  }

  /** No block of the n-by-n matrix vv is one of the blocks of the m-by-m
      matrix mv. */
  ghost predicate Apart(mv: View, m: nat, vv: View, n: nat)
  {
    forall I, J :: 0 <= I < n && 0 <= J < n ==> !InWindow(mv, m, vv.At(I, J))
  }

  /** s' differs from s at most in the blocks of the nb-by-nb matrix mv. */
  ghost predicate RegionFramed(s': seq<int>, s: seq<int>, mv: View, nb: nat)
  {
    |s'| == |s| && forall p :: 0 <= p < |s| && !InWindow(mv, nb, BlockOf(p)) ==> s'[p] == s[p]
  }

  /** Every element of block b reads the same in s1 and s2. */
  ghost predicate BlockAgree(s1: seq<int>, s2: seq<int>, b: int)
  {
    forall x, y :: 0 <= x < BlockSize && 0 <= y < BlockSize ==> Get(s1, Elem(b, x, y)) == Get(s2, Elem(b, x, y))
  }

  lemma OutsideAgree(s1: seq<int>, s2: seq<int>, mv: View, nb: nat, b: int)
    requires RegionFramed(s1, s2, mv, nb) && !InWindow(mv, nb, b)
    ensures BlockAgree(s1, s2, b)
  {
    forall x, y | 0 <= x < BlockSize && 0 <= y < BlockSize
      ensures Get(s1, Elem(b, x, y)) == Get(s2, Elem(b, x, y))
    {
      DivMod(b, BlockElems, x * BlockSize + y);
    }
  }

  lemma ProdAgree(s1: seq<int>, s2: seq<int>, a: int, c: int, i: int, j: int, k: nat)
    requires BlockAgree(s1, s2, a) && BlockAgree(s1, s2, c) && 0 <= i < BlockSize && 0 <= j < BlockSize && k <= BlockSize
    ensures Prod(s1, BlockView(a), s1, BlockView(c), i, j, k) == Prod(s2, BlockView(a), s2, BlockView(c), i, j, k)
  {
    forall t | 0 <= t < k
      ensures Get(s1, BlockView(a).At(i, t)) == Get(s2, BlockView(a).At(i, t))
      ensures Get(s1, BlockView(c).At(t, j)) == Get(s2, BlockView(c).At(t, j))
    {
      assert Elem(a, i, t) == BlockView(a).At(i, t) && Elem(c, t, j) == BlockView(c).At(t, j);
    }
    ProdCongruent(s1, BlockView(a), s1, BlockView(c), i, j, s2, BlockView(a), s2, BlockView(c), i, j, k);
  }

  /** Element (i, j) of block (I, J) of V x W, summed over the first K
      block columns of V (block rows of W): the amount schur subtracts. */
  function SchurSum(s: seq<int>, vv: View, wv: View, I: int, J: int, i: int, j: int, K: nat): int
  {
    if K == 0 then 0
    else
      SchurSum(s, vv, wv, I, J, i, j, K - 1)
      + Prod(s, BlockView(vv.At(I, K - 1)), s, BlockView(wv.At(K - 1, J)), i, j, BlockSize)
  }

  /** A sum depends only on the blocks it reads. */
  lemma {:induction false} SchurSumAgree(s1: seq<int>, s2: seq<int>, vv: View, wv: View, I: int, J: int, i: int, j: int, K: nat)
    requires 0 <= i < BlockSize && 0 <= j < BlockSize
    requires forall t :: 0 <= t < K ==> BlockAgree(s1, s2, vv.At(I, t)) && BlockAgree(s1, s2, wv.At(t, J))
    ensures SchurSum(s1, vv, wv, I, J, i, j, K) == SchurSum(s2, vv, wv, I, J, i, j, K)
  {
    if K > 0 {
      SchurSumAgree(s1, s2, vv, wv, I, J, i, j, K - 1);
      ProdAgree(s1, s2, vv.At(I, K - 1), wv.At(K - 1, J), i, j, BlockSize);
    }
  }

  /** A sum depends only on which blocks it reads, not on how they are named. */
  lemma {:induction false} SchurSumReindex(s: seq<int>, v1: View, w1: View, I1: int, J1: int,
                                           v2: View, w2: View, I2: int, J2: int, i: int, j: int, K: nat)
    requires forall t :: 0 <= t < K ==> v1.At(I1, t) == v2.At(I2, t) && w1.At(t, J1) == w2.At(t, J2)
    ensures SchurSum(s, v1, w1, I1, J1, i, j, K) == SchurSum(s, v2, w2, I2, J2, i, j, K)
  {
    if K > 0 {
      SchurSumReindex(s, v1, w1, I1, J1, v2, w2, I2, J2, i, j, K - 1);
    }
  }

  /** Splitting the block columns of V at h. */
  lemma SchurSumSplit(s: seq<int>, vv: View, wv: View, I: int, J: int, i: int, j: int, h: nat, k: nat)
    ensures SchurSum(s, vv, wv, I, J, i, j, h + k)
         == SchurSum(s, vv, wv, I, J, i, j, h)
          + SchurSum(s, View(vv.off + h, vv.stride), View(wv.off + h * wv.stride, wv.stride), I, J, i, j, k)
  {
    var vv', wv' := View(vv.off + h, vv.stride), View(wv.off + h * wv.stride, wv.stride);
    forall t | 0 <= t < k
      ensures vv'.At(I, t) == vv.At(I, h + t) && wv'.At(t, J) == wv.At(h + t, J)
    {
      ShiftedRows(wv, h, t, J);
    }
    SchurSumShift(s, vv, wv, vv', wv', I, J, i, j, h, k);
  }

  /** The same split, for any views vv', wv' that read, at index t, the
      blocks vv and wv read at index h + t. */
  lemma {:induction false} SchurSumShift(s: seq<int>, vv: View, wv: View, vv': View, wv': View,
                                         I: int, J: int, i: int, j: int, h: nat, k: nat)
    requires forall t :: 0 <= t < k ==> vv'.At(I, t) == vv.At(I, h + t) && wv'.At(t, J) == wv.At(h + t, J)
    ensures SchurSum(s, vv, wv, I, J, i, j, h + k)
         == SchurSum(s, vv, wv, I, J, i, j, h) + SchurSum(s, vv', wv', I, J, i, j, k)
  {
    if k > 0 {
      SchurSumShift(s, vv, wv, vv', wv', I, J, i, j, h, k - 1);
      assert vv'.At(I, k - 1) == vv.At(I, h + k - 1) && wv'.At(k - 1, J) == wv.At(h + k - 1, J);
    }
  }

  /** Row h + t of wv is row t of wv moved down by h rows. */
  lemma ShiftedRows(wv: View, h: int, t: int, J: int)
    ensures wv.At(h + t, J) == View(wv.off + h * wv.stride, wv.stride).At(t, J)
  {
    assert (h + t) * wv.stride == h * wv.stride + t * wv.stride;
  }

  /** Block (qi*h + I, qj*h + J) of V x W for matrices of side 2h is
      V_{qi,0} x W_{0,qj} + V_{qi,1} x W_{1,qj} at block (I, J). */
  lemma SchurSumBlock(s: seq<int>, vv: View, wv: View, h: nat, qi: int, qj: int, I: int, J: int, i: int, j: int)
    ensures SchurSum(s, vv, wv, qi * h + I, qj * h + J, i, j, 2 * h)
         == SchurSum(s, vv.Quad(qi, 0, h), wv.Quad(0, qj, h), I, J, i, j, h)
          + SchurSum(s, vv.Quad(qi, 1, h), wv.Quad(1, qj, h), I, J, i, j, h)
  {
    var R, C := qi * h + I, qj * h + J;
    var vv', wv' := View(vv.off + h, vv.stride), View(wv.off + h * wv.stride, wv.stride);
    var whole := SchurSum(s, vv, wv, R, C, i, j, 2 * h);
    var left := SchurSum(s, vv, wv, R, C, i, j, h);
    var right := SchurSum(s, vv', wv', R, C, i, j, h);
    assert whole == left + right by {
      SchurSumSplit(s, vv, wv, R, C, i, j, h, h);
    }
    assert left == SchurSum(s, vv.Quad(qi, 0, h), wv.Quad(0, qj, h), I, J, i, j, h) by {
      BlockLeftReindex(s, vv, wv, h, qi, qj, I, J, i, j);
    }
    assert right == SchurSum(s, vv.Quad(qi, 1, h), wv.Quad(1, qj, h), I, J, i, j, h) by {
      BlockRightReindex(s, vv, wv, h, qi, qj, I, J, i, j);
    }
  }

  /** The first h block columns of block row qi*h + I of V, against block
      column qj*h + J of W, are those of V_{qi,0} and W_{0,qj}. */
  lemma BlockLeftReindex(s: seq<int>, vv: View, wv: View, h: nat, qi: int, qj: int, I: int, J: int, i: int, j: int)
    ensures SchurSum(s, vv, wv, qi * h + I, qj * h + J, i, j, h)
         == SchurSum(s, vv.Quad(qi, 0, h), wv.Quad(0, qj, h), I, J, i, j, h)
  {
    forall t | 0 <= t < h
      ensures vv.At(qi * h + I, t) == vv.Quad(qi, 0, h).At(I, t)
      ensures wv.At(t, qj * h + J) == wv.Quad(0, qj, h).At(t, J)
    {
      BlockProdTerm(vv, wv, h, qi, qj, I, J, t);
    }
    SchurSumReindex(s, vv, wv, qi * h + I, qj * h + J, vv.Quad(qi, 0, h), wv.Quad(0, qj, h), I, J, i, j, h);
  }

  /** The last h block columns of that row, against that column, are those
      of V_{qi,1} and W_{1,qj}. */
  lemma BlockRightReindex(s: seq<int>, vv: View, wv: View, h: nat, qi: int, qj: int, I: int, J: int, i: int, j: int)
    ensures SchurSum(s, View(vv.off + h, vv.stride), View(wv.off + h * wv.stride, wv.stride), qi * h + I, qj * h + J, i, j, h)
         == SchurSum(s, vv.Quad(qi, 1, h), wv.Quad(1, qj, h), I, J, i, j, h)
  {
    var vv', wv' := View(vv.off + h, vv.stride), View(wv.off + h * wv.stride, wv.stride);
    forall t | 0 <= t < h
      ensures vv'.At(qi * h + I, t) == vv.Quad(qi, 1, h).At(I, t)
      ensures wv'.At(t, qj * h + J) == wv.Quad(1, qj, h).At(t, J)
    {
      BlockProdTerm(vv, wv, h, qi, qj, I, J, t);
    }
    SchurSumReindex(s, vv', wv', qi * h + I, qj * h + J, vv.Quad(qi, 1, h), wv.Quad(1, qj, h), I, J, i, j, h);
  }


  // ---------------------------------------------------------------------
  // schur

  /** What schur(M, V, W, nb) leaves: M = M0 - V x W on the nb-by-nb block
      matrix mv, and nothing outside mv's blocks changed. */
  ghost predicate Schurred(s': seq<int>, s: seq<int>, mv: View, vv: View, wv: View, nb: nat)
  {
    RegionFramed(s', s, mv, nb)
    && forall I, J, i, j :: 0 <= I < nb && 0 <= J < nb && 0 <= i < BlockSize && 0 <= j < BlockSize ==>
         Get(s', MatElem(mv, I, J, i, j)) == Get(s, MatElem(mv, I, J, i, j)) - SchurSum(s, vv, wv, I, J, i, j, nb)
  }

  /** For nb = 1, schur is block_schur on the one block. */
  lemma SchurBase(s': seq<int>, s: seq<int>, mv: View, vv: View, wv: View)
    requires mv.stride >= 1 && BlockFramed(s', s, mv.off)
    requires forall i, j :: 0 <= i < BlockSize && 0 <= j < BlockSize ==>
      Get(s', Elem(mv.off, i, j)) == Get(s, Elem(mv.off, i, j))
        - Prod(s, BlockView(vv.off), s, BlockView(wv.off), i, j, BlockSize)
    ensures Schurred(s', s, mv, vv, wv, 1)
  {
    forall p | 0 <= p < |s| && BlockOf(p) == mv.off
      ensures InWindow(mv, 1, BlockOf(p))
    {
    }
    forall I, J, i, j | 0 <= I < 1 && 0 <= J < 1 && 0 <= i < BlockSize && 0 <= j < BlockSize
      ensures Get(s', MatElem(mv, I, J, i, j)) == Get(s, MatElem(mv, I, J, i, j)) - SchurSum(s, vv, wv, I, J, i, j, 1)
    {
      assert mv.At(I, J) == mv.off && vv.At(I, 0) == vv.off && wv.At(0, J) == wv.off;
    }
  }

  /** The arguments of the one block_schur call in the base case are valid,
      and M's block is neither V's nor W's. */
  lemma SchurBaseArgs(len: int, mv: View, vv: View, wv: View)
    requires MatrixFits(mv, 1, len) && MatrixFits(vv, 1, len) && MatrixFits(wv, 1, len)
    requires Apart(mv, 1, vv, 1) && Apart(mv, 1, wv, 1)
    ensures ValidBlock(len, mv.off) && ValidBlock(len, vv.off) && ValidBlock(len, wv.off)
    ensures mv.off != vv.off && mv.off != wv.off && mv.stride >= 1
  {
    MatBlockValid(mv, 1, len, 0, 0);
    MatBlockValid(vv, 1, len, 0, 0);
    MatBlockValid(wv, 1, len, 0, 0);
    assert !InWindow(mv, 1, vv.At(0, 0)) && !InWindow(mv, 1, wv.At(0, 0));
  }

  /** Quadrants of fitting, apart matrices fit and are apart. */
  lemma QuadrantArgs(len: int, mv: View, vv: View, h: nat, qi: int, qj: int, ri: int, rj: int)
    requires MatrixFits(mv, 2 * h, len) && MatrixFits(vv, 2 * h, len) && Apart(mv, 2 * h, vv, 2 * h)
    requires 0 <= qi <= 1 && 0 <= qj <= 1 && 0 <= ri <= 1 && 0 <= rj <= 1
    ensures MatrixFits(mv.Quad(qi, qj, h), h, len) && MatrixFits(vv.Quad(ri, rj, h), h, len)
    ensures Apart(mv.Quad(qi, qj, h), h, vv.Quad(ri, rj, h), h)
  {
    QuadFits(mv, h, len / BlockElems, qi, qj);
    QuadFits(vv, h, len / BlockElems, ri, rj);
    forall I, J | 0 <= I < h && 0 <= J < h
      ensures !InWindow(mv.Quad(qi, qj, h), h, vv.Quad(ri, rj, h).At(I, J))
    {
      QuadAt(vv, ri, rj, h, I, J);
      assert !InWindow(mv, 2 * h, vv.At(ri * h + I, rj * h + J));
    }
  }

  /** Quadrant (qi, qj) of mv reads the same in S' and S. */
  ghost predicate QuadKept(S': seq<int>, S: seq<int>, mv: View, h: nat, qi: int, qj: int)
  {
    forall I, J, i, j :: 0 <= I < h && 0 <= J < h && 0 <= i < BlockSize && 0 <= j < BlockSize ==>
      Get(S', MatElem(mv.Quad(qi, qj, h), I, J, i, j)) == Get(S, MatElem(mv.Quad(qi, qj, h), I, J, i, j))
  }

  /** Quadrant (qi, qj) of mv holds S's value minus V_{qi,c} x W_{c,qj}:
      one of the two recursive products of schur has been applied to it. */
  ghost predicate QuadHeld(S': seq<int>, S: seq<int>, mv: View, vv: View, wv: View, h: nat, qi: int, qj: int, c: int)
  {
    forall I, J, i, j :: 0 <= I < h && 0 <= J < h && 0 <= i < BlockSize && 0 <= j < BlockSize ==>
      Get(S', MatElem(mv.Quad(qi, qj, h), I, J, i, j))
        == Get(S, MatElem(mv.Quad(qi, qj, h), I, J, i, j)) - SchurSum(S, vv.Quad(qi, c, h), wv.Quad(c, qj, h), I, J, i, j, h)
  }

  /** A recursive call on quadrant (ri, rj) leaves every other quadrant alone. */
  lemma CallKeepsOther(S': seq<int>, S: seq<int>, mv: View, h: nat, ri: int, rj: int, qi: int, qj: int)
    requires mv.stride >= 2 * h && RegionFramed(S', S, mv.Quad(ri, rj, h), h)
    requires 0 <= qi <= 1 && 0 <= qj <= 1 && 0 <= ri <= 1 && 0 <= rj <= 1 && (qi, qj) != (ri, rj)
    ensures QuadKept(S', S, mv, h, qi, qj)
  {
    forall I, J, i, j | 0 <= I < h && 0 <= J < h && 0 <= i < BlockSize && 0 <= j < BlockSize
      ensures Get(S', MatElem(mv.Quad(qi, qj, h), I, J, i, j)) == Get(S, MatElem(mv.Quad(qi, qj, h), I, J, i, j))
    {
      QuadDisjoint(mv, h, qi, qj, ri, rj, I, J);
      OutsideAgree(S', S, mv.Quad(ri, rj, h), h, mv.Quad(qi, qj, h).At(I, J));
    }
  }

  /** A change confined to a quadrant is confined to the whole matrix. */
  lemma FramedInQuad(S': seq<int>, S: seq<int>, mv: View, h: nat, len: int, qi: int, qj: int)
    requires MatrixFits(mv, 2 * h, len) && 0 <= qi <= 1 && 0 <= qj <= 1 && RegionFramed(S', S, mv.Quad(qi, qj, h), h)
    ensures RegionFramed(S', S, mv, 2 * h)
  {
    QuadFits(mv, h, len / BlockElems, qi, qj);
  }

  /** The recursive call on quadrant (qi, qj), made when that quadrant still
      holds its value from S0, applies V_{qi,c} x W_{c,qj} as read in S0:
      V and W lie outside M, which is all that changed since S0. */
  lemma QuadCall(Sa: seq<int>, Sb: seq<int>, S0: seq<int>, mv: View, vv: View, wv: View, h: nat, qi: int, qj: int, c: int)
    requires Apart(mv, 2 * h, vv, 2 * h) && Apart(mv, 2 * h, wv, 2 * h)
    requires 0 <= qi <= 1 && 0 <= qj <= 1 && 0 <= c <= 1
    requires RegionFramed(Sa, S0, mv, 2 * h) && QuadKept(Sa, S0, mv, h, qi, qj)
    requires Schurred(Sb, Sa, mv.Quad(qi, qj, h), vv.Quad(qi, c, h), wv.Quad(c, qj, h), h)
    ensures QuadHeld(Sb, S0, mv, vv, wv, h, qi, qj, c)
  {
    forall I, J, i, j | 0 <= I < h && 0 <= J < h && 0 <= i < BlockSize && 0 <= j < BlockSize
      ensures SchurSum(Sa, vv.Quad(qi, c, h), wv.Quad(c, qj, h), I, J, i, j, h)
           == SchurSum(S0, vv.Quad(qi, c, h), wv.Quad(c, qj, h), I, J, i, j, h)
    {
      forall t | 0 <= t < h
        ensures BlockAgree(Sa, S0, vv.Quad(qi, c, h).At(I, t)) && BlockAgree(Sa, S0, wv.Quad(c, qj, h).At(t, J))
      {
        QuadAt(vv, qi, c, h, I, t);
        QuadAt(wv, c, qj, h, t, J);
        assert !InWindow(mv, 2 * h, vv.At(qi * h + I, c * h + t));
        assert !InWindow(mv, 2 * h, wv.At(c * h + t, qj * h + J));
        OutsideAgree(Sa, S0, mv, 2 * h, vv.Quad(qi, c, h).At(I, t));
        OutsideAgree(Sa, S0, mv, 2 * h, wv.Quad(c, qj, h).At(t, J));
      }
      SchurSumAgree(Sa, S0, vv.Quad(qi, c, h), wv.Quad(c, qj, h), I, J, i, j, h);
    }
  }

  /** Helper: a quadrant that holds its product stays so while it is kept. */
  lemma HeldKept(S2: seq<int>, S1: seq<int>, S0: seq<int>, mv: View, vv: View, wv: View, h: nat, qi: int, qj: int, c: int)
    requires QuadHeld(S1, S0, mv, vv, wv, h, qi, qj, c) && QuadKept(S2, S1, mv, h, qi, qj)
    ensures QuadHeld(S2, S0, mv, vv, wv, h, qi, qj, c)
  {
  }

  /** Helper: keeping a quadrant is transitive. */
  lemma KeptKept(S2: seq<int>, S1: seq<int>, S0: seq<int>, mv: View, h: nat, qi: int, qj: int)
    requires QuadKept(S1, S0, mv, h, qi, qj) && QuadKept(S2, S1, mv, h, qi, qj)
    ensures QuadKept(S2, S0, mv, h, qi, qj)
  {
  }

  /** Helper: framing to the region of M is transitive. */
  lemma FramedTrans(S2: seq<int>, S1: seq<int>, S0: seq<int>, mv: View, nb: nat)
    requires RegionFramed(S1, S0, mv, nb) && RegionFramed(S2, S1, mv, nb)
    ensures RegionFramed(S2, S0, mv, nb)
  {
  }

  /** One phase of schur: the four calls on quadrants (0,0), (0,1), (1,0),
      (1,1) with V_{qi,c} and W_{c,qj}, in the source's order. */
  lemma SchurPhase(S0: seq<int>, S1: seq<int>, S2: seq<int>, S3: seq<int>, S4: seq<int>,
                   mv: View, vv: View, wv: View, h: nat, c: int, len: int)
    requires MatrixFits(mv, 2 * h, len) && Apart(mv, 2 * h, vv, 2 * h) && Apart(mv, 2 * h, wv, 2 * h) && 0 <= c <= 1
    requires Schurred(S1, S0, mv.Quad(0, 0, h), vv.Quad(0, c, h), wv.Quad(c, 0, h), h)
    requires Schurred(S2, S1, mv.Quad(0, 1, h), vv.Quad(0, c, h), wv.Quad(c, 1, h), h)
    requires Schurred(S3, S2, mv.Quad(1, 0, h), vv.Quad(1, c, h), wv.Quad(c, 0, h), h)
    requires Schurred(S4, S3, mv.Quad(1, 1, h), vv.Quad(1, c, h), wv.Quad(c, 1, h), h)
    ensures RegionFramed(S4, S0, mv, 2 * h)
    ensures QuadHeld(S4, S0, mv, vv, wv, h, 0, 0, c) && QuadHeld(S4, S0, mv, vv, wv, h, 0, 1, c)
    ensures QuadHeld(S4, S0, mv, vv, wv, h, 1, 0, c) && QuadHeld(S4, S0, mv, vv, wv, h, 1, 1, c)
  {
    FramedInQuad(S1, S0, mv, h, len, 0, 0);
    FramedInQuad(S2, S1, mv, h, len, 0, 1);
    FramedInQuad(S3, S2, mv, h, len, 1, 0);
    FramedInQuad(S4, S3, mv, h, len, 1, 1);
    FramedTrans(S2, S1, S0, mv, 2 * h);
    FramedTrans(S3, S2, S0, mv, 2 * h);
    FramedTrans(S4, S3, S0, mv, 2 * h);
    assert QuadKept(S0, S0, mv, h, 0, 0);
    QuadCall(S0, S1, S0, mv, vv, wv, h, 0, 0, c);
    CallKeepsOther(S2, S1, mv, h, 0, 1, 0, 0);
    CallKeepsOther(S3, S2, mv, h, 1, 0, 0, 0);
    CallKeepsOther(S4, S3, mv, h, 1, 1, 0, 0);
    HeldKept(S2, S1, S0, mv, vv, wv, h, 0, 0, c);
    HeldKept(S3, S2, S0, mv, vv, wv, h, 0, 0, c);
    HeldKept(S4, S3, S0, mv, vv, wv, h, 0, 0, c);

    CallKeepsOther(S1, S0, mv, h, 0, 0, 0, 1);
    QuadCall(S1, S2, S0, mv, vv, wv, h, 0, 1, c);
    CallKeepsOther(S3, S2, mv, h, 1, 0, 0, 1);
    CallKeepsOther(S4, S3, mv, h, 1, 1, 0, 1);
    HeldKept(S3, S2, S0, mv, vv, wv, h, 0, 1, c);
    HeldKept(S4, S3, S0, mv, vv, wv, h, 0, 1, c);

    CallKeepsOther(S1, S0, mv, h, 0, 0, 1, 0);
    CallKeepsOther(S2, S1, mv, h, 0, 1, 1, 0);
    KeptKept(S2, S1, S0, mv, h, 1, 0);
    QuadCall(S2, S3, S0, mv, vv, wv, h, 1, 0, c);
    CallKeepsOther(S4, S3, mv, h, 1, 1, 1, 0);
    HeldKept(S4, S3, S0, mv, vv, wv, h, 1, 0, c);

    CallKeepsOther(S1, S0, mv, h, 0, 0, 1, 1);
    CallKeepsOther(S2, S1, mv, h, 0, 1, 1, 1);
    CallKeepsOther(S3, S2, mv, h, 1, 0, 1, 1);
    KeptKept(S2, S1, S0, mv, h, 1, 1);
    KeptKept(S3, S2, S0, mv, h, 1, 1);
    QuadCall(S3, S4, S0, mv, vv, wv, h, 1, 1, c);
  }

  /** Both phases together: each quadrant lost V_{qi,0} x W_{0,qj} and then
      V_{qi,1} x W_{1,qj}, which is block (qi, qj) of V x W. */
  lemma SchurTwoPhases(S0: seq<int>, S4: seq<int>, S8: seq<int>, mv: View, vv: View, wv: View, h: nat)
    requires mv.stride >= 2 * h && Apart(mv, 2 * h, vv, 2 * h) && Apart(mv, 2 * h, wv, 2 * h)
    requires RegionFramed(S4, S0, mv, 2 * h) && RegionFramed(S8, S4, mv, 2 * h)
    requires QuadHeld(S4, S0, mv, vv, wv, h, 0, 0, 0) && QuadHeld(S4, S0, mv, vv, wv, h, 0, 1, 0)
    requires QuadHeld(S4, S0, mv, vv, wv, h, 1, 0, 0) && QuadHeld(S4, S0, mv, vv, wv, h, 1, 1, 0)
    requires QuadHeld(S8, S4, mv, vv, wv, h, 0, 0, 1) && QuadHeld(S8, S4, mv, vv, wv, h, 0, 1, 1)
    requires QuadHeld(S8, S4, mv, vv, wv, h, 1, 0, 1) && QuadHeld(S8, S4, mv, vv, wv, h, 1, 1, 1)
    ensures Schurred(S8, S0, mv, vv, wv, 2 * h)
  {
    FramedTrans(S8, S4, S0, mv, 2 * h);
    forall I, J, i, j | 0 <= I < 2 * h && 0 <= J < 2 * h && 0 <= i < BlockSize && 0 <= j < BlockSize
      ensures Get(S8, MatElem(mv, I, J, i, j)) == Get(S0, MatElem(mv, I, J, i, j)) - SchurSum(S0, vv, wv, I, J, i, j, 2 * h)
    {
      SchurTwoPhasesAt(S0, S4, S8, mv, vv, wv, h, I, J, i, j);
    }
  }

  lemma SchurTwoPhasesAt(S0: seq<int>, S4: seq<int>, S8: seq<int>, mv: View, vv: View, wv: View, h: nat,
                         I: int, J: int, i: int, j: int)
    requires Apart(mv, 2 * h, vv, 2 * h) && Apart(mv, 2 * h, wv, 2 * h) && RegionFramed(S4, S0, mv, 2 * h)
    requires 0 <= I < 2 * h && 0 <= J < 2 * h && 0 <= i < BlockSize && 0 <= j < BlockSize
    requires QuadHeld(S4, S0, mv, vv, wv, h, 0, 0, 0) && QuadHeld(S4, S0, mv, vv, wv, h, 0, 1, 0)
    requires QuadHeld(S4, S0, mv, vv, wv, h, 1, 0, 0) && QuadHeld(S4, S0, mv, vv, wv, h, 1, 1, 0)
    requires QuadHeld(S8, S4, mv, vv, wv, h, 0, 0, 1) && QuadHeld(S8, S4, mv, vv, wv, h, 0, 1, 1)
    requires QuadHeld(S8, S4, mv, vv, wv, h, 1, 0, 1) && QuadHeld(S8, S4, mv, vv, wv, h, 1, 1, 1)
    ensures Get(S8, MatElem(mv, I, J, i, j)) == Get(S0, MatElem(mv, I, J, i, j)) - SchurSum(S0, vv, wv, I, J, i, j, 2 * h)
  {
    if I < h && J < h {
      SchurTwoPhasesCell(S0, S4, S8, mv, vv, wv, h, 0, 0, 0, 0, I, J, i, j);
    } else if I < h {
      SchurTwoPhasesCell(S0, S4, S8, mv, vv, wv, h, 0, 1, 0, h, I, J, i, j);
    } else if J < h {
      SchurTwoPhasesCell(S0, S4, S8, mv, vv, wv, h, 1, 0, h, 0, I, J, i, j);
    } else {
      SchurTwoPhasesCell(S0, S4, S8, mv, vv, wv, h, 1, 1, h, h, I, J, i, j);
    }
  }

  /** Element (I, J) lies in quadrant (qi, qj), whose first block is at
      (oi, oj) = (qi * h, qj * h). */
  lemma SchurTwoPhasesCell(S0: seq<int>, S4: seq<int>, S8: seq<int>, mv: View, vv: View, wv: View, h: nat,
                           qi: int, qj: int, oi: int, oj: int, I: int, J: int, i: int, j: int)
    requires Apart(mv, 2 * h, vv, 2 * h) && Apart(mv, 2 * h, wv, 2 * h) && RegionFramed(S4, S0, mv, 2 * h)
    requires 0 <= qi <= 1 && 0 <= qj <= 1 && oi == qi * h && oj == qj * h
    requires oi <= I < oi + h && oj <= J < oj + h && 0 <= i < BlockSize && 0 <= j < BlockSize
    requires QuadHeld(S4, S0, mv, vv, wv, h, qi, qj, 0) && QuadHeld(S8, S4, mv, vv, wv, h, qi, qj, 1)
    ensures Get(S8, MatElem(mv, I, J, i, j)) == Get(S0, MatElem(mv, I, J, i, j)) - SchurSum(S0, vv, wv, I, J, i, j, 2 * h)
  {
    var I', J' := I - oi, J - oj;
    QuadOffsets(mv, vv, wv, S0, h, qi, qj, oi, oj, I, J, I', J', i, j);
    SecondPhaseReads(S0, S4, mv, vv, wv, h, qi, qj, I', J', i, j);
  }

  /** Element (I, J) of a 2h-by-2h matrix is element (I', J') of its
      quadrant (qi, qj), and its sum splits into the quadrant's two. */
  lemma QuadOffsets(mv: View, vv: View, wv: View, s: seq<int>, h: nat, qi: int, qj: int, oi: int, oj: int,
                    I: int, J: int, I': int, J': int, i: int, j: int)
    requires oi == qi * h && oj == qj * h && I' == I - oi && J' == J - oj
    ensures MatElem(mv.Quad(qi, qj, h), I', J', i, j) == MatElem(mv, I, J, i, j)
    ensures SchurSum(s, vv, wv, I, J, i, j, 2 * h)
         == SchurSum(s, vv.Quad(qi, 0, h), wv.Quad(0, qj, h), I', J', i, j, h)
          + SchurSum(s, vv.Quad(qi, 1, h), wv.Quad(1, qj, h), I', J', i, j, h)
  {
    QuadAt(mv, qi, qj, h, I', J');
    SchurSumBlock(s, vv, wv, h, qi, qj, I', J', i, j);
  }

  /** The second phase reads V_{qi,1} and W_{1,qj} as they were at the start. */
  lemma SecondPhaseReads(S0: seq<int>, S4: seq<int>, mv: View, vv: View, wv: View, h: nat,
                         qi: int, qj: int, I: int, J: int, i: int, j: int)
    requires Apart(mv, 2 * h, vv, 2 * h) && Apart(mv, 2 * h, wv, 2 * h) && RegionFramed(S4, S0, mv, 2 * h)
    requires 0 <= qi <= 1 && 0 <= qj <= 1 && 0 <= I < h && 0 <= J < h && 0 <= i < BlockSize && 0 <= j < BlockSize
    ensures SchurSum(S4, vv.Quad(qi, 1, h), wv.Quad(1, qj, h), I, J, i, j, h)
         == SchurSum(S0, vv.Quad(qi, 1, h), wv.Quad(1, qj, h), I, J, i, j, h)
  {
    forall t | 0 <= t < h
      ensures BlockAgree(S4, S0, vv.Quad(qi, 1, h).At(I, t)) && BlockAgree(S4, S0, wv.Quad(1, qj, h).At(t, J))
    {
      QuadAt(vv, qi, 1, h, I, t);
      QuadAt(wv, 1, qj, h, t, J);
      assert !InWindow(mv, 2 * h, vv.At(qi * h + I, 1 * h + t));
      assert !InWindow(mv, 2 * h, wv.At(1 * h + t, qj * h + J));
      OutsideAgree(S4, S0, mv, 2 * h, vv.Quad(qi, 1, h).At(I, t));
      OutsideAgree(S4, S0, mv, 2 * h, wv.Quad(1, qj, h).At(t, J));
    }
    SchurSumAgree(S4, S0, vv.Quad(qi, 1, h), wv.Quad(1, qj, h), I, J, i, j, h);
  }

  /** The recursive call of schur on quadrant (qi, qj) of M with V_{qi,c}
      and W_{c,qj} meets schur's precondition. */
  lemma SchurCallArgs(len: int, mv: View, vv: View, wv: View, h: nat, qi: int, qj: int, c: int)
    requires MatrixFits(mv, 2 * h, len) && MatrixFits(vv, 2 * h, len) && MatrixFits(wv, 2 * h, len)
    requires Apart(mv, 2 * h, vv, 2 * h) && Apart(mv, 2 * h, wv, 2 * h)
    requires 0 <= qi <= 1 && 0 <= qj <= 1 && 0 <= c <= 1
    ensures MatrixFits(mv.Quad(qi, qj, h), h, len) && MatrixFits(vv.Quad(qi, c, h), h, len) && MatrixFits(wv.Quad(c, qj, h), h, len)
    ensures Apart(mv.Quad(qi, qj, h), h, vv.Quad(qi, c, h), h) && Apart(mv.Quad(qi, qj, h), h, wv.Quad(c, qj, h), h)
  {
    QuadrantArgs(len, mv, vv, h, qi, qj, qi, c);
    QuadrantArgs(len, mv, wv, h, qi, qj, c, qj);
  }

  /** schur(M, V, W, nb): M := M - V x W on nb-by-nb block matrices, nb a
      power of two, by two phases of four recursive calls on quadrants;
      only M's blocks change. */
  method Schur(mem: array<int>, mv: View, vv: View, wv: View, nb: nat)
    requires IsPow2(nb)
    requires MatrixFits(mv, nb, mem.Length) && MatrixFits(vv, nb, mem.Length) && MatrixFits(wv, nb, mem.Length)
    requires Apart(mv, nb, vv, nb) && Apart(mv, nb, wv, nb)
    modifies mem
    ensures Schurred(mem[..], old(mem[..]), mv, vv, wv, nb)
    decreases nb
  {
    if nb == 1 {
      SchurBaseArgs(mem.Length, mv, vv, wv);
      BlockSchur(mem, mv.off, vv.off, wv.off);
      SchurBase(mem[..], old(mem[..]), mv, vv, wv);
      return;
    }
    HalfOfPow2(nb);
    var hnb := nb / 2;
    var m00, m01, m10, m11 := mv.Quad(0, 0, hnb), mv.Quad(0, 1, hnb), mv.Quad(1, 0, hnb), mv.Quad(1, 1, hnb);
    var v00, v01, v10, v11 := vv.Quad(0, 0, hnb), vv.Quad(0, 1, hnb), vv.Quad(1, 0, hnb), vv.Quad(1, 1, hnb);
    var w00, w01, w10, w11 := wv.Quad(0, 0, hnb), wv.Quad(0, 1, hnb), wv.Quad(1, 0, hnb), wv.Quad(1, 1, hnb);
    ghost var S0 := mem[..];
    SchurCallArgs(mem.Length, mv, vv, wv, hnb, 0, 0, 0);
    Schur(mem, m00, v00, w00, hnb);
    ghost var S1 := mem[..];
    SchurCallArgs(mem.Length, mv, vv, wv, hnb, 0, 1, 0);
    Schur(mem, m01, v00, w01, hnb);
    ghost var S2 := mem[..];
    SchurCallArgs(mem.Length, mv, vv, wv, hnb, 1, 0, 0);
    Schur(mem, m10, v10, w00, hnb);
    ghost var S3 := mem[..];
    SchurCallArgs(mem.Length, mv, vv, wv, hnb, 1, 1, 0);
    Schur(mem, m11, v10, w01, hnb);
    ghost var S4 := mem[..];
    SchurPhase(S0, S1, S2, S3, S4, mv, vv, wv, hnb, 0, mem.Length);
    SchurCallArgs(mem.Length, mv, vv, wv, hnb, 0, 0, 1);
    Schur(mem, m00, v01, w10, hnb);
    ghost var S5 := mem[..];
    SchurCallArgs(mem.Length, mv, vv, wv, hnb, 0, 1, 1);
    Schur(mem, m01, v01, w11, hnb);
    ghost var S6 := mem[..];
    SchurCallArgs(mem.Length, mv, vv, wv, hnb, 1, 0, 1);
    Schur(mem, m10, v11, w10, hnb);
    ghost var S7 := mem[..];
    SchurCallArgs(mem.Length, mv, vv, wv, hnb, 1, 1, 1);
    Schur(mem, m11, v11, w11, hnb);
    SchurPhase(S4, S5, S6, S7, mem[..], mv, vv, wv, hnb, 1, mem.Length);
    SchurTwoPhases(S0, S4, mem[..], mv, vv, wv, hnb);
  }

  // ---------------------------------------------------------------------
  // lower_solve and aux_lower_solve

  /** Every block of the n-by-n block matrix mv reads the same in s1 and s2. */
  ghost predicate MatAgree(s1: seq<int>, s2: seq<int>, mv: View, n: nat)
  {
    forall I, J :: 0 <= I < n && 0 <= J < n ==> BlockAgree(s1, s2, mv.At(I, J))
  }

  lemma FramedAgree(s': seq<int>, s: seq<int>, mv: View, m: nat, vv: View, n: nat)
    requires RegionFramed(s', s, mv, m) && Apart(mv, m, vv, n)
    ensures MatAgree(s', s, vv, n)
  {
    forall I, J | 0 <= I < n && 0 <= J < n
      ensures BlockAgree(s', s, vv.At(I, J))
    {
      OutsideAgree(s', s, mv, m, vv.At(I, J));
    }
  }

  lemma MatAgreeQuad(s1: seq<int>, s2: seq<int>, mv: View, h: nat, qi: int, qj: int)
    requires MatAgree(s1, s2, mv, 2 * h) && 0 <= qi <= 1 && 0 <= qj <= 1
    ensures MatAgree(s1, s2, mv.Quad(qi, qj, h), h)
  {
    forall I, J | 0 <= I < h && 0 <= J < h
      ensures BlockAgree(s1, s2, mv.Quad(qi, qj, h).At(I, J))
    {
      QuadAt(mv, qi, qj, h, I, J);
      HalfIndex(qi, h, I);
      HalfIndex(qj, h, J);
      assert BlockAgree(s1, s2, mv.At(qi * h + I, qj * h + J));
    }
  }

  /** A matrix apart from all of vv is apart from each quadrant of vv. */
  lemma ApartFromQuad(mv: View, m: nat, vv: View, h: nat, ri: int, rj: int)
    requires Apart(mv, m, vv, 2 * h) && 0 <= ri <= 1 && 0 <= rj <= 1
    ensures Apart(mv, m, vv.Quad(ri, rj, h), h)
  {
    forall I, J | 0 <= I < h && 0 <= J < h
      ensures !InWindow(mv, m, vv.Quad(ri, rj, h).At(I, J))
    {
      QuadAt(vv, ri, rj, h, I, J);
      HalfIndex(ri, h, I);
      HalfIndex(rj, h, J);
      assert !InWindow(mv, m, vv.At(ri * h + I, rj * h + J));
    }
  }

  /** A quadrant of a matrix apart from vv is apart from vv. */
  lemma QuadApartFrom(mv: View, h: nat, len: int, qi: int, qj: int, vv: View, n: nat)
    requires MatrixFits(mv, 2 * h, len) && Apart(mv, 2 * h, vv, n) && 0 <= qi <= 1 && 0 <= qj <= 1
    ensures Apart(mv.Quad(qi, qj, h), h, vv, n)
  {
    QuadFits(mv, h, len / BlockElems, qi, qj);
  }

  /** Two different quadrants of one matrix are apart. */
  lemma QuadsApart(mv: View, h: nat, qi: int, qj: int, ri: int, rj: int)
    requires mv.stride >= 2 * h && 0 <= qi <= 1 && 0 <= qj <= 1 && 0 <= ri <= 1 && 0 <= rj <= 1 && (qi, qj) != (ri, rj)
    ensures Apart(mv.Quad(ri, rj, h), h, mv.Quad(qi, qj, h), h)
  {
    forall I, J | 0 <= I < h && 0 <= J < h
      ensures !InWindow(mv.Quad(ri, rj, h), h, mv.Quad(qi, qj, h).At(I, J))
    {
      QuadDisjoint(mv, h, qi, qj, ri, rj, I, J);
    }
  }

  /** Row (I, i) of the unit lower triangular matrix taken from lv, times
      column (J, j) of mv, as read in s: the blocks left of the diagonal
      in full, and on the diagonal block only the part strictly below its
      diagonal plus the implicit 1. */
  function LowerLhs(s: seq<int>, lv: View, mv: View, I: nat, J: int, i: nat, j: int): int
  {
    Get(s, MatElem(mv, I, J, i, j)) + SchurSum(s, lv, mv, I, J, i, j, I)
    + Prod(s, BlockView(lv.At(I, I)), s, BlockView(mv.At(I, J)), i, j, i)
  }

  lemma LowerLhsAgree(s1: seq<int>, s2: seq<int>, lv: View, mv: View, n: nat, I: nat, J: int, i: nat, j: int)
    requires MatAgree(s1, s2, lv, n) && MatAgree(s1, s2, mv, n)
    requires I < n && 0 <= J < n && i < BlockSize && 0 <= j < BlockSize
    ensures LowerLhs(s1, lv, mv, I, J, i, j) == LowerLhs(s2, lv, mv, I, J, i, j)
  {
    assert BlockAgree(s1, s2, mv.At(I, J)) && BlockAgree(s1, s2, lv.At(I, I));
    forall t | 0 <= t < I
      ensures BlockAgree(s1, s2, lv.At(I, t)) && BlockAgree(s1, s2, mv.At(t, J))
    {
    }
    SchurSumAgree(s1, s2, lv, mv, I, J, i, j, I);
    ProdAgree(s1, s2, lv.At(I, I), mv.At(I, J), i, j, i);
  }

  /** What lower_solve(M, L, nb) leaves: L' M = M0 with L' the unit lower
      triangular matrix taken from L, and nothing outside M changed. */
  ghost predicate MatLowerSolved(s: seq<int>, s0: seq<int>, mv: View, lv: View, nb: nat)
  {
    RegionFramed(s, s0, mv, nb)
    && forall I: nat, J, i: nat, j :: I < nb && 0 <= J < nb && i < BlockSize && 0 <= j < BlockSize ==>
         LowerLhs(s, lv, mv, I, J, i, j) == Get(s0, MatElem(mv, I, J, i, j))
  }

  /** For nb = 1, lower_solve is block_lower_solve on the one block. */
  lemma LowerBase(s: seq<int>, s0: seq<int>, mv: View, lv: View)
    requires mv.stride >= 1 && BlockFramed(s, s0, mv.off) && LowerSolved(s, s0, mv.off, lv.off)
    ensures MatLowerSolved(s, s0, mv, lv, 1)
  {
    forall p | 0 <= p < |s0| && BlockOf(p) == mv.off
      ensures InWindow(mv, 1, BlockOf(p))
    {
    }
    forall I: nat, J, i: nat, j | I < 1 && 0 <= J < 1 && i < BlockSize && 0 <= j < BlockSize
      ensures LowerLhs(s, lv, mv, I, J, i, j) == Get(s0, MatElem(mv, I, J, i, j))
    {
      assert mv.At(I, J) == mv.off && lv.At(I, I) == lv.off;
      assert LowerRowSolved(s, s0, mv.off, lv.off, i, j);
    }
  }

  /** s' differs from s at most in the blocks of ma and of mb. */
  ghost predicate AuxFramed(s': seq<int>, s: seq<int>, ma: View, mb: View, h: nat)
  {
    |s'| == |s|
    && forall p :: 0 <= p < |s| && !InWindow(ma, h, BlockOf(p)) && !InWindow(mb, h, BlockOf(p)) ==> s'[p] == s[p]
  }

  lemma AuxFramedAgree(s': seq<int>, s: seq<int>, ma: View, mb: View, h: nat, vv: View, n: nat)
    requires AuxFramed(s', s, ma, mb, h) && Apart(ma, h, vv, n) && Apart(mb, h, vv, n)
    ensures MatAgree(s', s, vv, n)
  {
    forall I, J, x, y | 0 <= I < n && 0 <= J < n && 0 <= x < BlockSize && 0 <= y < BlockSize
      ensures Get(s', Elem(vv.At(I, J), x, y)) == Get(s, Elem(vv.At(I, J), x, y))
    {
      DivMod(vv.At(I, J), BlockElems, x * BlockSize + y);
    }
  }

  /** The equations aux_lower_solve(Ma, Mb, L, h) establishes, read in s
      against the original values in t0: with L split into quadrants,
      L00' Ma = Ma0 and L10 Ma + L11' Mb = Mb0. */
  ghost predicate AuxHolds(s: seq<int>, t0: seq<int>, ma: View, mb: View, lv: View, h: nat)
  {
    (forall I: nat, J, i: nat, j :: I < h && 0 <= J < h && i < BlockSize && 0 <= j < BlockSize ==>
       LowerLhs(s, lv.Quad(0, 0, h), ma, I, J, i, j) == Get(t0, MatElem(ma, I, J, i, j)))
    && (forall I: nat, J, i: nat, j :: I < h && 0 <= J < h && i < BlockSize && 0 <= j < BlockSize ==>
       LowerLhs(s, lv.Quad(1, 1, h), mb, I, J, i, j) + SchurSum(s, lv.Quad(1, 0, h), ma, I, J, i, j, h)
         == Get(t0, MatElem(mb, I, J, i, j)))
  }

  ghost predicate AuxSolved(s: seq<int>, s0: seq<int>, ma: View, mb: View, lv: View, h: nat)
  {
    AuxFramed(s, s0, ma, mb, h) && AuxHolds(s, s0, ma, mb, lv, h)
  }

  /** The equations survive any change that leaves Ma, Mb and L alone. */
  lemma AuxHoldsAgree(s: seq<int>, s': seq<int>, t0: seq<int>, ma: View, mb: View, lv: View, h: nat)
    requires AuxHolds(s, t0, ma, mb, lv, h)
    requires MatAgree(s, s', ma, h) && MatAgree(s, s', mb, h) && MatAgree(s, s', lv, 2 * h)
    ensures AuxHolds(s', t0, ma, mb, lv, h)
  {
    MatAgreeQuad(s, s', lv, h, 0, 0);
    MatAgreeQuad(s, s', lv, h, 1, 0);
    MatAgreeQuad(s, s', lv, h, 1, 1);
    forall I: nat, J, i: nat, j | I < h && 0 <= J < h && i < BlockSize && 0 <= j < BlockSize
      ensures LowerLhs(s', lv.Quad(0, 0, h), ma, I, J, i, j) == Get(t0, MatElem(ma, I, J, i, j))
      ensures LowerLhs(s', lv.Quad(1, 1, h), mb, I, J, i, j) + SchurSum(s', lv.Quad(1, 0, h), ma, I, J, i, j, h)
           == Get(t0, MatElem(mb, I, J, i, j))
    {
      LowerLhsAgree(s, s', lv.Quad(0, 0, h), ma, h, I, J, i, j);
      LowerLhsAgree(s, s', lv.Quad(1, 1, h), mb, h, I, J, i, j);
      forall t | 0 <= t < h
        ensures BlockAgree(s, s', lv.Quad(1, 0, h).At(I, t)) && BlockAgree(s, s', ma.At(t, J))
      {
      }
      SchurSumAgree(s, s', lv.Quad(1, 0, h), ma, I, J, i, j, h);
    }
  }

  /** The original values may be read from any state that agrees on Ma and Mb. */
  lemma AuxHoldsRetarget(s: seq<int>, t1: seq<int>, t0: seq<int>, ma: View, mb: View, lv: View, h: nat)
    requires AuxHolds(s, t1, ma, mb, lv, h) && MatAgree(t1, t0, ma, h) && MatAgree(t1, t0, mb, h)
    ensures AuxHolds(s, t0, ma, mb, lv, h)
  {
    forall I: nat, J, i: nat, j | I < h && 0 <= J < h && i < BlockSize && 0 <= j < BlockSize
      ensures Get(t1, MatElem(ma, I, J, i, j)) == Get(t0, MatElem(ma, I, J, i, j))
      ensures Get(t1, MatElem(mb, I, J, i, j)) == Get(t0, MatElem(mb, I, J, i, j))
    {
      assert BlockAgree(t1, t0, ma.At(I, J)) && BlockAgree(t1, t0, mb.At(I, J));
    }
  }

  /** The three steps of aux_lower_solve: solve Ma against L00, subtract
      L10 x Ma from Mb, solve Mb against L11. */
  lemma AuxSteps(S0: seq<int>, S1: seq<int>, S2: seq<int>, S3: seq<int>, ma: View, mb: View, lv: View, h: nat)
    requires Apart(ma, h, lv, 2 * h) && Apart(mb, h, lv, 2 * h) && Apart(ma, h, mb, h) && Apart(mb, h, ma, h)
    requires MatLowerSolved(S1, S0, ma, lv.Quad(0, 0, h), h)
    requires Schurred(S2, S1, mb, lv.Quad(1, 0, h), ma, h)
    requires MatLowerSolved(S3, S2, mb, lv.Quad(1, 1, h), h)
    ensures AuxSolved(S3, S0, ma, mb, lv, h)
  {
    FramedTrans(S3, S2, S1, mb, h);
    FramedAgree(S3, S1, mb, h, ma, h);
    FramedAgree(S3, S1, mb, h, lv, 2 * h);
    FramedAgree(S1, S0, ma, h, mb, h);
    MatAgreeQuad(S3, S1, lv, h, 0, 0);
    MatAgreeQuad(S3, S1, lv, h, 1, 0);
    forall I: nat, J, i: nat, j | I < h && 0 <= J < h && i < BlockSize && 0 <= j < BlockSize
      ensures LowerLhs(S3, lv.Quad(0, 0, h), ma, I, J, i, j) == Get(S0, MatElem(ma, I, J, i, j))
      ensures LowerLhs(S3, lv.Quad(1, 1, h), mb, I, J, i, j) + SchurSum(S3, lv.Quad(1, 0, h), ma, I, J, i, j, h)
           == Get(S0, MatElem(mb, I, J, i, j))
    {
      LowerLhsAgree(S1, S3, lv.Quad(0, 0, h), ma, h, I, J, i, j);
      forall t | 0 <= t < h
        ensures BlockAgree(S3, S1, lv.Quad(1, 0, h).At(I, t)) && BlockAgree(S3, S1, ma.At(t, J))
      {
      }
      SchurSumAgree(S3, S1, lv.Quad(1, 0, h), ma, I, J, i, j, h);
      assert BlockAgree(S1, S0, mb.At(I, J));
    }
  }

  /** The equations of the two aux_lower_solve calls on column half qj of
      M are the equations of lower_solve on that half: block rows above h. */
  lemma LowerTopCell(s: seq<int>, s0: seq<int>, mv: View, lv: View, h: nat, qj: int, I: nat, J: int, i: nat, j: int)
    requires AuxHolds(s, s0, mv.Quad(0, qj, h), mv.Quad(1, qj, h), lv, h)
    requires 0 <= qj <= 1 && I < h && 0 <= J < h && i < BlockSize && 0 <= j < BlockSize
    ensures LowerLhs(s, lv, mv, I, qj * h + J, i, j) == Get(s0, MatElem(mv, I, qj * h + J, i, j))
  {
    forall t | 0 <= t < I
      ensures lv.At(I, t) == lv.Quad(0, 0, h).At(I, t) && mv.At(t, qj * h + J) == mv.Quad(0, qj, h).At(t, J)
    {
      QuadAt(lv, 0, 0, h, I, t);
      QuadAt(mv, 0, qj, h, t, J);
    }
    SchurSumReindex(s, lv, mv, I, qj * h + J, lv.Quad(0, 0, h), mv.Quad(0, qj, h), I, J, i, j, I);
    QuadAt(lv, 0, 0, h, I, I);
    QuadAt(mv, 0, qj, h, I, J);
    assert LowerLhs(s, lv.Quad(0, 0, h), mv.Quad(0, qj, h), I, J, i, j) == Get(s0, MatElem(mv.Quad(0, qj, h), I, J, i, j));
  }

  /** The same for block row h + I: the L10 x Ma term is the first h block
      columns of the row's sum, L11' Mb the rest. */
  lemma LowerBottomCell(s: seq<int>, s0: seq<int>, mv: View, lv: View, h: nat, qj: int, I: nat, J: int, i: nat, j: int)
    requires AuxHolds(s, s0, mv.Quad(0, qj, h), mv.Quad(1, qj, h), lv, h)
    requires 0 <= qj <= 1 && I < h && 0 <= J < h && i < BlockSize && 0 <= j < BlockSize
    ensures LowerLhs(s, lv, mv, h + I, qj * h + J, i, j) == Get(s0, MatElem(mv, h + I, qj * h + J, i, j))
  {
    var L10, L11, M0, M1 := lv.Quad(1, 0, h), lv.Quad(1, 1, h), mv.Quad(0, qj, h), mv.Quad(1, qj, h);
    LowerBottomSum(s, mv, lv, h, qj, I, J, i, j);
    QuadAt(lv, 1, 1, h, I, I);
    QuadAt(mv, 1, qj, h, I, J);
    assert LowerLhs(s, L11, M1, I, J, i, j) + SchurSum(s, L10, M0, I, J, i, j, h) == Get(s0, MatElem(M1, I, J, i, j));
  }

  lemma LowerBottomSum(s: seq<int>, mv: View, lv: View, h: nat, qj: int, I: nat, J: int, i: nat, j: int)
    ensures SchurSum(s, lv, mv, h + I, qj * h + J, i, j, h + I)
         == SchurSum(s, lv.Quad(1, 0, h), mv.Quad(0, qj, h), I, J, i, j, h)
          + SchurSum(s, lv.Quad(1, 1, h), mv.Quad(1, qj, h), I, J, i, j, I)
  {
    var C := qj * h + J;
    var lv', mv' := View(lv.off + h, lv.stride), View(mv.off + h * mv.stride, mv.stride);
    var whole := SchurSum(s, lv, mv, h + I, C, i, j, h + I);
    var left := SchurSum(s, lv, mv, h + I, C, i, j, h);
    var right := SchurSum(s, lv', mv', h + I, C, i, j, I);
    assert whole == left + right by {
      SchurSumSplit(s, lv, mv, h + I, C, i, j, h, I);
    }
    assert left == SchurSum(s, lv.Quad(1, 0, h), mv.Quad(0, qj, h), I, J, i, j, h) by {
      BottomLeftReindex(s, mv, lv, h, qj, I, J, i, j);
    }
    assert right == SchurSum(s, lv.Quad(1, 1, h), mv.Quad(1, qj, h), I, J, i, j, I) by {
      BottomRightReindex(s, mv, lv, h, qj, I, J, i, j);
    }
  }

  /** The first h block columns of row h + I of L, against block column
      qj*h + J of M, are those of quadrants L10 and M0. */
  lemma BottomLeftReindex(s: seq<int>, mv: View, lv: View, h: nat, qj: int, I: nat, J: int, i: nat, j: int)
    ensures SchurSum(s, lv, mv, h + I, qj * h + J, i, j, h)
         == SchurSum(s, lv.Quad(1, 0, h), mv.Quad(0, qj, h), I, J, i, j, h)
  {
    var L10, M0 := lv.Quad(1, 0, h), mv.Quad(0, qj, h);
    forall t | 0 <= t < h
      ensures lv.At(h + I, t) == L10.At(I, t) && mv.At(t, qj * h + J) == M0.At(t, J)
    {
      QuadAt(lv, 1, 0, h, I, t);
      QuadAt(mv, 0, qj, h, t, J);
    }
    SchurSumReindex(s, lv, mv, h + I, qj * h + J, L10, M0, I, J, i, j, h);
  }

  /** The block columns h .. h + I - 1 of row h + I of L, against block
      column qj*h + J of M, are the first I of quadrants L11 and M1. */
  lemma BottomRightReindex(s: seq<int>, mv: View, lv: View, h: nat, qj: int, I: nat, J: int, i: nat, j: int)
    ensures SchurSum(s, View(lv.off + h, lv.stride), View(mv.off + h * mv.stride, mv.stride), h + I, qj * h + J, i, j, I)
         == SchurSum(s, lv.Quad(1, 1, h), mv.Quad(1, qj, h), I, J, i, j, I)
  {
    var L11, M1 := lv.Quad(1, 1, h), mv.Quad(1, qj, h);
    forall t | 0 <= t < I
      ensures View(lv.off + h, lv.stride).At(h + I, t) == L11.At(I, t)
      ensures View(mv.off + h * mv.stride, mv.stride).At(t, qj * h + J) == M1.At(t, J)
    {
      assert (h + I) * lv.stride == h * lv.stride + I * lv.stride;
      assert (h + t) * mv.stride == h * mv.stride + t * mv.stride;
      QuadAt(lv, 1, 1, h, I, t);
      QuadAt(mv, 1, qj, h, t, J);
    }
    SchurSumReindex(s, View(lv.off + h, lv.stride), View(mv.off + h * mv.stride, mv.stride), h + I, qj * h + J,
                    L11, M1, I, J, i, j, I);
  }

  /** After both aux_lower_solve calls, the left half's equations still hold:
      the second call touched only the right half. */
  lemma LeftHalfKept(S0: seq<int>, S1: seq<int>, S2: seq<int>, mv: View, lv: View, h: nat)
    requires mv.stride >= 2 * h && Apart(mv, 2 * h, lv, 2 * h) && RegionFramed(S2, S1, mv, 2 * h)
    requires AuxSolved(S1, S0, mv.Quad(0, 0, h), mv.Quad(1, 0, h), lv, h)
    requires AuxFramed(S2, S1, mv.Quad(0, 1, h), mv.Quad(1, 1, h), h)
    ensures AuxHolds(S2, S0, mv.Quad(0, 0, h), mv.Quad(1, 0, h), lv, h)
  {
    FramedAgree(S2, S1, mv, 2 * h, lv, 2 * h);
    QuadsApart(mv, h, 0, 0, 0, 1);
    QuadsApart(mv, h, 0, 0, 1, 1);
    QuadsApart(mv, h, 1, 0, 0, 1);
    QuadsApart(mv, h, 1, 0, 1, 1);
    AuxFramedAgree(S2, S1, mv.Quad(0, 1, h), mv.Quad(1, 1, h), h, mv.Quad(0, 0, h), h);
    AuxFramedAgree(S2, S1, mv.Quad(0, 1, h), mv.Quad(1, 1, h), h, mv.Quad(1, 0, h), h);
    AuxHoldsAgree(S1, S2, S0, mv.Quad(0, 0, h), mv.Quad(1, 0, h), lv, h);
  }

  /** The right half's original values are those before the first call,
      which touched only the left half. */
  lemma RightHalfFromStart(S0: seq<int>, S1: seq<int>, S2: seq<int>, mv: View, lv: View, h: nat)
    requires mv.stride >= 2 * h
    requires AuxFramed(S1, S0, mv.Quad(0, 0, h), mv.Quad(1, 0, h), h)
    requires AuxHolds(S2, S1, mv.Quad(0, 1, h), mv.Quad(1, 1, h), lv, h)
    ensures AuxHolds(S2, S0, mv.Quad(0, 1, h), mv.Quad(1, 1, h), lv, h)
  {
    QuadsApart(mv, h, 0, 1, 0, 0);
    QuadsApart(mv, h, 0, 1, 1, 0);
    QuadsApart(mv, h, 1, 1, 0, 0);
    QuadsApart(mv, h, 1, 1, 1, 0);
    AuxFramedAgree(S1, S0, mv.Quad(0, 0, h), mv.Quad(1, 0, h), h, mv.Quad(0, 1, h), h);
    AuxFramedAgree(S1, S0, mv.Quad(0, 0, h), mv.Quad(1, 0, h), h, mv.Quad(1, 1, h), h);
    AuxHoldsRetarget(S2, S1, S0, mv.Quad(0, 1, h), mv.Quad(1, 1, h), lv, h);
  }

  /** The two aux_lower_solve calls of lower_solve, on the left and the
      right column half of M, together solve all of M. */
  lemma LowerHalves(S0: seq<int>, S1: seq<int>, S2: seq<int>, mv: View, lv: View, h: nat, len: int)
    requires MatrixFits(mv, 2 * h, len) && Apart(mv, 2 * h, lv, 2 * h)
    requires AuxSolved(S1, S0, mv.Quad(0, 0, h), mv.Quad(1, 0, h), lv, h)
    requires AuxSolved(S2, S1, mv.Quad(0, 1, h), mv.Quad(1, 1, h), lv, h)
    ensures MatLowerSolved(S2, S0, mv, lv, 2 * h)
  {
    HalvesFramed(S0, S1, S2, mv, h, len);
    LeftHalfKept(S0, S1, S2, mv, lv, h);
    RightHalfFromStart(S0, S1, S2, mv, lv, h);
    LowerAllCells(S2, S0, mv, lv, h);
  }

  lemma LowerAllCells(s: seq<int>, s0: seq<int>, mv: View, lv: View, h: nat)
    requires AuxHolds(s, s0, mv.Quad(0, 0, h), mv.Quad(1, 0, h), lv, h)
    requires AuxHolds(s, s0, mv.Quad(0, 1, h), mv.Quad(1, 1, h), lv, h)
    ensures forall I: nat, J, i: nat, j :: I < 2 * h && 0 <= J < 2 * h && i < BlockSize && 0 <= j < BlockSize ==>
      LowerLhs(s, lv, mv, I, J, i, j) == Get(s0, MatElem(mv, I, J, i, j))
  {
    forall I: nat, J, i: nat, j | I < 2 * h && 0 <= J < 2 * h && i < BlockSize && 0 <= j < BlockSize
      ensures LowerLhs(s, lv, mv, I, J, i, j) == Get(s0, MatElem(mv, I, J, i, j))
    {
      if J < h {
        if I < h {
          LowerTopCell(s, s0, mv, lv, h, 0, I, J, i, j);
        } else {
          LowerBottomCell(s, s0, mv, lv, h, 0, I - h, J, i, j);
        }
      } else {
        if I < h {
          LowerTopCell(s, s0, mv, lv, h, 1, I, J - h, i, j);
        } else {
          LowerBottomCell(s, s0, mv, lv, h, 1, I - h, J - h, i, j);
        }
      }
    }
  }

  /** Each aux_lower_solve call changes only its half of M. */
  lemma HalvesFramed(S0: seq<int>, S1: seq<int>, S2: seq<int>, mv: View, h: nat, len: int)
    requires MatrixFits(mv, 2 * h, len)
    requires AuxFramed(S1, S0, mv.Quad(0, 0, h), mv.Quad(1, 0, h), h)
    requires AuxFramed(S2, S1, mv.Quad(0, 1, h), mv.Quad(1, 1, h), h)
    ensures RegionFramed(S1, S0, mv, 2 * h) && RegionFramed(S2, S1, mv, 2 * h) && RegionFramed(S2, S0, mv, 2 * h)
  {
    QuadFits(mv, h, len / BlockElems, 0, 0);
    QuadFits(mv, h, len / BlockElems, 0, 1);
    QuadFits(mv, h, len / BlockElems, 1, 0);
    QuadFits(mv, h, len / BlockElems, 1, 1);
  }

  /** lower_solve(M, L, nb): solves L' M' = M for M' in place, L' the unit
      lower triangular matrix taken from the nb-by-nb block matrix L. */
  method LowerSolve(mem: array<int>, mv: View, lv: View, nb: nat)
    requires IsPow2(nb) && MatrixFits(mv, nb, mem.Length) && MatrixFits(lv, nb, mem.Length) && Apart(mv, nb, lv, nb)
    modifies mem
    ensures MatLowerSolved(mem[..], old(mem[..]), mv, lv, nb)
    decreases nb, 1
  {
    if nb == 1 {
      MatBlockValid(mv, 1, mem.Length, 0, 0);
      MatBlockValid(lv, 1, mem.Length, 0, 0);
      assert !InWindow(mv, 1, lv.At(0, 0));
      BlockLowerSolve(mem, mv.off, lv.off);
      LowerBase(mem[..], old(mem[..]), mv, lv);
      return;
    }
    HalfOfPow2(nb);
    var hnb := nb / 2;
    var m00, m01, m10, m11 := mv.Quad(0, 0, hnb), mv.Quad(0, 1, hnb), mv.Quad(1, 0, hnb), mv.Quad(1, 1, hnb);
    AuxArgs(mem.Length, mv, lv, hnb, 0);
    AuxArgs(mem.Length, mv, lv, hnb, 1);
    ghost var S0 := mem[..];
    AuxLowerSolve(mem, m00, m10, lv, hnb);
    ghost var S1 := mem[..];
    AuxLowerSolve(mem, m01, m11, lv, hnb);
    LowerHalves(S0, S1, mem[..], mv, lv, hnb, mem.Length);
  }

  /** The column half qj of M meets aux_lower_solve's precondition. */
  lemma AuxArgs(len: int, mv: View, lv: View, h: nat, qj: int)
    requires MatrixFits(mv, 2 * h, len) && MatrixFits(lv, 2 * h, len) && Apart(mv, 2 * h, lv, 2 * h) && 0 <= qj <= 1
    ensures MatrixFits(mv.Quad(0, qj, h), h, len) && MatrixFits(mv.Quad(1, qj, h), h, len)
    ensures Apart(mv.Quad(0, qj, h), h, lv, 2 * h) && Apart(mv.Quad(1, qj, h), h, lv, 2 * h)
    ensures Apart(mv.Quad(0, qj, h), h, mv.Quad(1, qj, h), h) && Apart(mv.Quad(1, qj, h), h, mv.Quad(0, qj, h), h)
  {
    QuadFits(mv, h, len / BlockElems, 0, qj);
    QuadFits(mv, h, len / BlockElems, 1, qj);
    QuadsApart(mv, h, 0, qj, 1, qj);
    QuadsApart(mv, h, 1, qj, 0, qj);
  }

  /** aux_lower_solve(Ma, Mb, L, h): with L a 2h-by-2h block matrix and
      (Ma over Mb) a column of M, solves L00' Ma' = Ma, then
      L11' Mb' = Mb - L10 Ma'. */
  method AuxLowerSolve(mem: array<int>, ma: View, mb: View, lv: View, h: nat)
    requires IsPow2(h) && MatrixFits(ma, h, mem.Length) && MatrixFits(mb, h, mem.Length) && MatrixFits(lv, 2 * h, mem.Length)
    requires Apart(ma, h, lv, 2 * h) && Apart(mb, h, lv, 2 * h) && Apart(ma, h, mb, h) && Apart(mb, h, ma, h)
    modifies mem
    ensures AuxSolved(mem[..], old(mem[..]), ma, mb, lv, h)
    decreases 2 * h, 0
  {
    var l00, l10, l11 := lv.Quad(0, 0, h), lv.Quad(1, 0, h), lv.Quad(1, 1, h);
    QuadFits(lv, h, mem.Length / BlockElems, 0, 0);
    QuadFits(lv, h, mem.Length / BlockElems, 1, 0);
    QuadFits(lv, h, mem.Length / BlockElems, 1, 1);
    ApartFromQuad(ma, h, lv, h, 0, 0);
    ApartFromQuad(mb, h, lv, h, 1, 0);
    ApartFromQuad(mb, h, lv, h, 1, 1);
    ghost var S0 := mem[..];
    LowerSolve(mem, ma, l00, h);
    ghost var S1 := mem[..];
    Schur(mem, mb, l10, ma, h);
    ghost var S2 := mem[..];
    LowerSolve(mem, mb, l11, h);
    AuxSteps(S0, S1, S2, mem[..], ma, mb, lv, h);
  }

  // ---------------------------------------------------------------------
  // Input check

  /** invalid_input(n): 1 (after printing the usage text) when n is smaller
      than a block or not a power of two, 0 otherwise. */
  method InvalidInput(n: int) returns (r: int)
    ensures r == 0 || r == 1
    ensures r == 0 <==> n >= BlockSize && IsPow2(n)
  {
    var v := n;
    if n < BlockSize {
      return 1;
    }
    while v % 2 == 0
      invariant v >= 1 && (IsPow2(v) <==> IsPow2(n))
      decreases v
    {
      v := v / 2;
    }
    if v != 1 {
      return 1;
    }
    return 0;
  }

  /** An accepted n gives nBlocks = n / BLOCK_SIZE, a power of two, and the
      whole n-by-n matrix, block row after block row, fills n * n elements:
      what schur and lower_solve require of the top-level matrix. */
  lemma AcceptedSize(n: int)
    requires n >= BlockSize && IsPow2(n)
    ensures n == BlockSize * (n / BlockSize) && IsPow2(n / BlockSize)
    ensures MatrixFits(View(0, n / BlockSize), n / BlockSize, n * n)
  {
    AcceptedBlocks(n);
    SquareFits(n / BlockSize);
  }

  lemma AcceptedBlocks(n: int)
    requires n >= BlockSize && IsPow2(n)
    ensures n == BlockSize * (n / BlockSize) && IsPow2(n / BlockSize)
  {
    var a := HalvePow2(n, 8);
    var b := HalvePow2(a, 4);
    var c := HalvePow2(b, 2);
    var d := HalvePow2(c, 1);
    assert n == d * BlockSize;
    assert n / BlockSize == d by {
      DivMod(d, BlockSize, 0);
    }
  }

  /** A power of two x >= 2 lo is twice the power of two x / 2 >= lo. */
  lemma HalvePow2(x: int, lo: int) returns (y: int)
    requires IsPow2(x) && lo >= 1 && x >= 2 * lo
    ensures y == x / 2 && x == 2 * y && IsPow2(y) && y >= lo
  {
    HalfOfPow2(x);
    y := x / 2;
  }

  /** A square matrix of d-by-d blocks stored row after row fills exactly
      (16 d)^2 elements. */
  lemma SquareFits(d: nat)
    ensures MatrixFits(View(0, d), d, (BlockSize * d) * (BlockSize * d))
  {
    SquareOfBlocks(d);
    DivMod(d * d, BlockElems, 0);
    assert View(0, d).At(d - 1, d - 1) == d * d - 1 by {
      assert (d - 1) * d == d * d - d;
    }
  }

  lemma SquareOfBlocks(d: int)
    ensures (BlockSize * d) * (BlockSize * d) == BlockElems * (d * d)
  {
    calc {
      (BlockSize * d) * (BlockSize * d);
      BlockSize * (d * (BlockSize * d));
      BlockSize * (BlockSize * (d * d));
    }
  }
}
