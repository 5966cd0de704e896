/** Integer helpers shared by the kernels: powers of two, the bitwise AND of
    C on non-negative integers, and the uniqueness of quotient and remainder
    that every strided index computation relies on. */
module Arith {

  /** 2^k */
  function Pow2(k: nat): (r: nat)
    ensures r >= 1
  {
    if k == 0 then 1 else 2 * Pow2(k - 1)
  }

  /** n is a positive power of two */
  predicate IsPow2(n: int)
    decreases if n > 0 then n else 0
  {
    n == 1 || (n >= 2 && n % 2 == 0 && IsPow2(n / 2))
  }

  lemma {:induction false} IsPow2IsPow2Of(n: int)
    requires IsPow2(n)
    ensures exists k: nat :: Pow2(k) == n
  {
    if n == 1 {
      assert Pow2(0) == 1;
    } else {
      IsPow2IsPow2Of(n / 2);
      var k: nat :| Pow2(k) == n / 2;
      assert Pow2(k + 1) == n;
    }
  }

  lemma {:induction false} Pow2IsPow2(k: nat)
    ensures IsPow2(Pow2(k))
  {
    if k > 0 {
      Pow2IsPow2(k - 1);
    }
  }

  /** Helper: a power of two that is at least 2 is even and its half is a power of two. */
  lemma HalfOfPow2(n: int)
    requires IsPow2(n) && n >= 2
    ensures n % 2 == 0 && IsPow2(n / 2) && n / 2 >= 1
  {
  }

  lemma {:induction false} Pow2Add(k: nat, j: nat)
    ensures Pow2(k + j) == Pow2(k) * Pow2(j)
  {
    if k > 0 {
      Pow2Add(k - 1, j);
    }
  }

  /** A power of two that is at least 16 is a multiple of 16, and a power of
      two that is a multiple of 16 is at least 16. */
  lemma Pow2MultipleOf16(n: int)
    requires IsPow2(n)
    ensures n % 16 == 0 <==> n >= 16
  {
    IsPow2IsPow2Of(n);
    var k: nat :| Pow2(k) == n;
    if k >= 4 {
      Pow2Add(4, k - 4);
      assert n == 16 * Pow2(k - 4);
    } else {
      assert k == 0 || k == 1 || k == 2 || k == 3;
      assert n == 1 || n == 2 || n == 4 || n == 8;
    }
  }

  /** The bitwise AND of two non-negative integers, bit by bit from the least
      significant end. */
  function BitAnd(a: nat, b: nat): nat
  {
    if a == 0 || b == 0 then 0
    else 2 * BitAnd(a / 2, b / 2) + (if a % 2 == 1 && b % 2 == 1 then 1 else 0)
  }

  /** Quotient and remainder are unique: q*d + r with 0 <= r < d divides back
      into q and r. */
  lemma DivMod(q: int, d: int, r: int)
    requires d > 0 && 0 <= r < d
    ensures (q * d + r) / d == q && (q * d + r) % d == r
  {
    var n := q * d + r;
    var q', r' := n / d, n % d;
    assert n == q' * d + r';
    if q' < q {
      MulMonotone(q' + 1, q, d);
      assert false;
    }
    if q' > q {
      MulMonotone(q + 1, q', d);
      assert false;
    }
  }

  lemma MulMonotone(a: int, b: int, d: int)
    requires a <= b && d >= 0
    ensures a * d <= b * d
  {
    assert b * d - a * d == (b - a) * d;
  }

  /** n mod 2d splits into its lowest bit and (n/2) mod d. */
  lemma ModDouble(n: nat, d: nat)
    requires d > 0
    ensures n % (2 * d) == 2 * ((n / 2) % d) + n % 2
  {
    var q, u := (n / 2) / d, (n / 2) % d;
    assert n / 2 == q * d + u;
    assert n == q * (2 * d) + (2 * u + n % 2);
    DivMod(q, 2 * d, 2 * u + n % 2);
  }

  /** AND with a mask of k low one-bits is the remainder modulo 2^k: this is
      how `(n & 15) == 0` reads as `n % 16 == 0`. */
  lemma {:induction false} BitAndLowMask(n: nat, k: nat)
    ensures BitAnd(n, Pow2(k) - 1) == n % Pow2(k)
  {
    if k > 0 {
      BitAndLowMask(n / 2, k - 1);
      BitAndOddMask(n, Pow2(k - 1));
    }
  }

  /** One step of BitAndLowMask: the mask 2p - 1 ends in a one-bit. */
  lemma BitAndOddMask(n: nat, p: nat)
    requires p >= 1 && BitAnd(n / 2, p - 1) == (n / 2) % p
    ensures BitAnd(n, 2 * p - 1) == n % (2 * p)
  {
    ModDouble(n, p);
    if n > 0 {
      BitAndOddUnfold(n, p);
    }
  }

  lemma BitAndOddUnfold(n: nat, p: nat)
    requires p >= 1 && n > 0
    ensures BitAnd(n, 2 * p - 1) == 2 * BitAnd(n / 2, p - 1) + n % 2
  {
    var m := 2 * p - 1;
    assert m / 2 == p - 1 && m % 2 == 1;
    assert BitAnd(n, m) == 2 * BitAnd(n / 2, m / 2) + (if n % 2 == 1 && m % 2 == 1 then 1 else 0);
  }

  /** Helper: a & a == a. */
  lemma BitAndSelf(a: nat)
    ensures BitAnd(a, a) == a
  {
  }

  /** n & (n - 1) clears the lowest set bit; it is zero exactly for powers of two. */
  lemma {:induction false} PowerOfTwoTest(n: nat)
    requires n >= 1
    ensures BitAnd(n, n - 1) == 0 <==> IsPow2(n)
  {
    if n == 1 {
    } else if n % 2 == 0 {
      assert (n - 1) / 2 == n / 2 - 1 && (n - 1) % 2 == 1;
      PowerOfTwoTest(n / 2);
    } else {
      assert (n - 1) / 2 == n / 2 && (n - 1) % 2 == 0;
      BitAndSelf(n / 2);
    }
  }

  /** Two numbers that both have bit k as their highest bit share that bit. */
  lemma {:induction false} BitAndHighBit(a: nat, b: nat, k: nat)
    requires Pow2(k) <= a < 2 * Pow2(k) && Pow2(k) <= b < 2 * Pow2(k)
    ensures BitAnd(a, b) >= Pow2(k)
  {
    if k > 0 {
      BitAndHighBit(a / 2, b / 2, k - 1);
    }
  }

  /** Row-major addressing: cell (r, c) of a rows-by-d grid lies inside the
      rows * d cells. */
  lemma GridIndex(d: int, rows: int, r: int, c: int)
    requires 0 <= r < rows && 0 <= c < d
    ensures 0 <= r * d + c < rows * d
  {
    MulMonotone(0, r, d);
    MulMonotone(r + 1, rows, d);
  }

  /** Row-major addressing is one-to-one. */
  lemma GridUnique(d: int, r: int, c: int, r': int, c': int)
    requires 0 <= c < d && 0 <= c' < d && r * d + c == r' * d + c'
    ensures r == r' && c == c'
  {
    DivMod(r, d, c);
    DivMod(r', d, c');
  }

  /** The row-major address r * d + c, built up one row of d cells at a time
      so that it stays linear for the solver. */
  function RowMajor(d: nat, r: nat, c: int): (a: int)
    ensures a >= c
  {
    if r == 0 then c else RowMajor(d, r - 1, c) + d
  }

  lemma {:induction false} RowMajorIs(d: nat, r: nat, c: int)
    ensures RowMajor(d, r, c) == r * d + c
  {
    if r > 0 {
      RowMajorIs(d, r - 1, c);
    }
  }

  /** Cell (r, c) of a rows-by-d grid has an address below rows * d. */
  lemma RowMajorInside(d: nat, rows: nat, r: nat, c: int)
    requires r < rows && 0 <= c < d
    ensures 0 <= RowMajor(d, r, c) < RowMajor(d, rows, 0)
  {
    RowMajorIs(d, r, c);
    RowMajorIs(d, rows, 0);
    GridIndex(d, rows, r, c);
  }

  /** Distinct cells have distinct addresses. */
  lemma RowMajorUnique(d: nat, r: nat, c: int, r': nat, c': int)
    requires 0 <= c < d && 0 <= c' < d && RowMajor(d, r, c) == RowMajor(d, r', c')
    ensures r == r' && c == c'
  {
    RowMajorIs(d, r, c);
    RowMajorIs(d, r', c');
    GridUnique(d, r, c, r', c');
  }

  /** The address of (r, c) is c cells past the start of row r. */
  lemma RowMajorColumn(d: nat, r: nat, c: int)
    ensures RowMajor(d, r, c) == RowMajor(d, r, 0) + c
  {
    RowMajorIs(d, r, c);
    RowMajorIs(d, r, 0);
  }

  /** Every cell of a rows-by-d grid has an address below rows * d. */
  lemma GridBounds(d: nat, rows: nat)
    ensures forall r: nat, c :: r < rows && 0 <= c < d ==> 0 <= RowMajor(d, r, c) < RowMajor(d, rows, 0)
  {
    forall r: nat, c | r < rows && 0 <= c < d
      ensures 0 <= RowMajor(d, r, c) < RowMajor(d, rows, 0)
    {
      RowMajorInside(d, rows, r, c);
    }
  }
}
