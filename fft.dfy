/** The integer and data-movement core of cilk5/fft.c: choosing the radix of
    each level (factor and the factor loop of cilk_fft), which slots of the
    twiddle table compute_w_coefficients fills, the stride permutations
    (unshuffle and its unrolled variants), the twiddle-index walk of
    fft_twiddle_gen1, and the add/subtract-only 2- and 4-point butterflies.
    Complex values are pairs of reals; the butterflies are exact over them. */
module Fft {
  import opened Arith

  datatype Complex = Complex(re: real, im: real)

  function Add(x: Complex, y: Complex): Complex
  {
    Complex(x.re + y.re, x.im + y.im)
  }

  function Sub(x: Complex, y: Complex): Complex
  {
    Complex(x.re - y.re, x.im - y.im)
  }

  // ---------------------------------------------------------------------
  // factor and the factor loop of cilk_fft

  /** The sizes for which factor prefers radix 8 over radix 16. */
  predicate RadixEightSize(n: int)
  {
    n == 64 || n == 128 || n == 256 || n == 1024 || n == 2048 || n == 4096
  }

  /** f is the least divisor of n that is at least 2. */
  predicate LeastDivisor(n: int, f: int)
  {
    2 <= f <= n && n % f == 0 && forall d :: 2 <= d < f ==> n % d != 0
  }

  predicate IsPrime(p: int)
  {
    p >= 2 && forall d :: 2 <= d < p ==> p % d != 0
  }

  /** For a non-negative n, n & (2^k - 1) tests divisibility by 2^k. */
  lemma LowBitsTest(n: nat, k: nat)
    ensures BitAnd(n, Pow2(k) - 1) == 0 <==> n % Pow2(k) == 0
  {
    BitAndLowMask(n, k);
  }

  /** An odd number has no even divisor. */
  lemma OddNoEvenDivisor(n: int, d: int)
    requires n % 2 == 1 && d >= 2 && d % 2 == 0
    ensures n % d != 0
  {
    var q, r, h := n / d, n % d, d / 2;
    assert n == 2 * (h * q) + r;
    assert r % 2 == 1;
  }

  /** The bit tests of factor: n & 15, n & 7, n & 3 and n & 1 are zero
      exactly when 16, 8, 4 and 2 divide n. */
  lemma RadixTests(n: nat)
    ensures BitAnd(n, 15) == 0 <==> n % 16 == 0
    ensures BitAnd(n, 7) == 0 <==> n % 8 == 0
    ensures BitAnd(n, 3) == 0 <==> n % 4 == 0
    ensures BitAnd(n, 1) == 0 <==> n % 2 == 0
  {
    assert Pow2(4) == 16 && Pow2(3) == 8 && Pow2(2) == 4 && Pow2(1) == 2;
    LowBitsTest(n, 4);
    LowBitsTest(n, 3);
    LowBitsTest(n, 2);
    LowBitsTest(n, 1);
  }

  /** The radix tests nest, and a positive multiple of d is at least d. */
  lemma RadixChain(n: int)
    requires n >= 2
    ensures n % 16 == 0 ==> n % 8 == 0 && n >= 16
    ensures n % 8 == 0 ==> n % 4 == 0 && n >= 8
    ensures n % 4 == 0 ==> n % 2 == 0 && n >= 4
  {
    if n % 16 == 0 {
      var q := n / 16;
      assert n == 16 * q && q >= 1;
      DivMod(2 * q, 8, 0);
    }
    if n % 8 == 0 {
      var q := n / 8;
      assert n == 8 * q && q >= 1;
      DivMod(2 * q, 4, 0);
    }
    if n % 4 == 0 {
      var q := n / 4;
      assert n == 4 * q && q >= 1;
      DivMod(2 * q, 2, 0);
    }
  }

  /** factor: 1 below 2; radix 8 for the listed sizes; otherwise 16, 8, 4
      or 2 for the first power of two dividing n; otherwise the least odd
      divisor of n (n itself when n is prime). */
  method Factor(n: int) returns (f: int)
    ensures n < 2 ==> f == 1
    ensures n >= 2 ==> 2 <= f <= n && n % f == 0
    ensures n >= 2 && RadixEightSize(n) ==> f == 8
    ensures n >= 2 && !RadixEightSize(n) ==>
      (n % 16 == 0 ==> f == 16)
      && (n % 16 != 0 && n % 8 == 0 ==> f == 8)
      && (n % 8 != 0 && n % 4 == 0 ==> f == 4)
      && (n % 4 != 0 && n % 2 == 0 ==> f == 2)
    ensures n >= 2 && n % 2 == 1 ==> LeastDivisor(n, f)
  {
    if n < 2 {
      return 1;
    }
    if RadixEightSize(n) {
      return 8;
    }
    RadixTests(n);
    RadixChain(n);
    if BitAnd(n, 15) == 0 {
      return 16;
    }
    if BitAnd(n, 7) == 0 {
      return 8;
    }
    if BitAnd(n, 3) == 0 {
      return 4;
    }
    if BitAnd(n, 1) == 0 {
      return 2;
    }
    f := SmallestOddDivisor(n);
  }

  /** The odd search of factor: try r = 3, 5, ... below n and return the
      first that divides n, or n itself. */
  method SmallestOddDivisor(n: int) returns (f: int)
    requires n >= 2 && n % 2 == 1
    ensures LeastDivisor(n, f)
  {
    var r := 3;
    while r < n
      invariant 3 <= r <= n + 1 && r % 2 == 1
      invariant forall d :: 2 <= d < r ==> n % d != 0
    {
      if n % r == 0 {
        return r;
      }
      forall d | 2 <= d < r + 2
        ensures n % d != 0
      {
        if d == r + 1 {
          OddNoEvenDivisor(n, d);
        }
      }
      r := r + 2;
    }
    // n is prime
    return n;
  }

  /** The least divisor of n above 1 is prime, and it is n exactly when n is
      prime: the odd branch of factor returns the smallest prime factor. */
  lemma LeastDivisorIsPrime(n: int, f: int)
    requires LeastDivisor(n, f)
    ensures IsPrime(f)
    ensures f == n <==> IsPrime(n)
  {
    forall d | 2 <= d < f
      ensures f % d != 0
    {
      if f % d == 0 {
        DividesTransitive(d, f, n);
      }
    }
  }

  /** d | f and f | n give d | n. */
  lemma DividesTransitive(d: int, f: int, n: int)
    requires d > 0 && f > 0 && f % d == 0 && n % f == 0
    ensures n % d == 0
  {
    var k, l := n / f, f / d;
    assert f == d * l;
    assert n == f * k;
    assert n == d * (l * k);
    DivMod(l * k, d, 0);
  }

  function Product(s: seq<int>): int
  {
    if |s| == 0 then 1 else s[0] * Product(s[1..])
  }

  lemma ProductAppend(s: seq<int>, x: int)
    ensures Product(s + [x]) == Product(s) * x
  {
    if |s| > 0 {
      assert (s + [x])[1..] == s[1..] + [x];
      ProductAppend(s[1..], x);
    }
  }

  /** The do-while loop of cilk_fft: record factor(l) and divide it out of l
      until l is 1. The factors multiply to n, each is at least 2 (for
      n >= 2), and a 32-bit n needs at most 30 of the 40 slots. */
  method CollectFactors(n: int) returns (factors: seq<int>)
    requires n < 0x8000_0000
    ensures 1 <= |factors| <= 40
    ensures n >= 1 ==> Product(factors) == n
    ensures n >= 2 ==> forall k :: 0 <= k < |factors| ==> factors[k] >= 2
  {
    var l := n;
    factors := [];
    while true
      invariant Collecting(factors, l, n)
      decreases l
    {
      var r := Factor(l);
      ghost var before, l0 := factors, l;
      factors := factors + [r];
      l := l / r;
      if l <= 1 {
        CollectDone(before, l0, r, n);
        break;
      }
      CollectContinue(before, l0, r, n);
    }
  }

  /** The loop invariant of CollectFactors: the recorded factors times what is
      left of l make n, and each factor at least halved l. */
  ghost predicate Collecting(factors: seq<int>, l: int, n: int)
  {
    && (n >= 1 ==> l >= 1 && Product(factors) * l == n)
    && (n >= 2 ==> l >= 2 && forall k :: 0 <= k < |factors| ==> factors[k] >= 2)
    && (n >= 2 ==> Pow2(|factors|) * l <= n)
    && (n < 2 ==> factors == [] && l == n)
  }

  /** A turn of the factor loop that leaves l above 1 keeps the invariant
      with a smaller l. */
  lemma CollectContinue(factors: seq<int>, l: int, r: int, n: int)
    requires Collecting(factors, l, n)
    requires l < 2 ==> r == 1
    requires l >= 2 ==> 2 <= r <= l && l % r == 0
    requires l / r > 1
    ensures l / r < l && Collecting(factors + [r], l / r, n)
  {
    var f, l' := factors + [r], l / r;
    assert n >= 2 && l >= 2;
    FactorStep(factors, l, r, n);
    FactorCountStep(|factors|, l, r, n);
    assert |f| == |factors| + 1;
    assert forall k :: 0 <= k < |f| ==> f[k] >= 2 by {
      assert forall k :: 0 <= k < |factors| ==> f[k] == factors[k];
    }
  }

  /** The turn of the factor loop that brings l down to 1 completes the
      factors: at most 40 of them, multiplying to n, each at least 2. */
  lemma CollectDone(factors: seq<int>, l: int, r: int, n: int)
    requires n < 0x8000_0000 && Collecting(factors, l, n)
    requires l < 2 ==> r == 1
    requires l >= 2 ==> 2 <= r <= l && l % r == 0
    requires l / r <= 1
    ensures 1 <= |factors + [r]| <= 40
    ensures n >= 1 ==> Product(factors + [r]) == n
    ensures n >= 2 ==> forall k :: 0 <= k < |factors + [r]| ==> (factors + [r])[k] >= 2
  {
    var f := factors + [r];
    assert |f| == |factors| + 1;
    if n < 2 {
      assert factors == [] && r == 1;
      if n == 1 {
        ProductAppend([], 1);
      }
    } else {
      FactorStep(factors, l, r, n);
      var P, l' := Product(f), l / r;
      assert l' == 1 && P * l' == n;
      assert P == n;
      FactorCountStep(|factors|, l, r, n);
      assert Pow2(|f|) * l' <= n;
      FactorCountBound(|f|, n);
      assert forall k :: 0 <= k < |f| ==> f[k] >= 2 by {
        assert forall k :: 0 <= k < |factors| ==> f[k] == factors[k];
      }
    }
  }

  /** One turn of the factor loop keeps the product of factors times l. */
  lemma FactorStep(factors: seq<int>, l: int, r: int, n: int)
    requires n >= 1 ==> l >= 1 && Product(factors) * l == n
    requires l < 2 ==> r == 1
    requires l >= 2 ==> 2 <= r <= l && l % r == 0
    ensures n >= 1 ==> l / r >= 1 && Product(factors + [r]) * (l / r) == n
    ensures l >= 2 ==> l / r < l
  {
    var P := Product(factors);
    ProductAppend(factors, r);
    if l < 2 {
      assert r == 1 && l / r == l;
    } else {
      var l' := l / r;
      assert l == r * l';
      assert l' >= 1 by {
        if l' <= 0 {
          MulMonotone(l', 0, r);
        }
      }
      assert l' < l by {
        MulMonotone(2, r, l');
      }
      if n >= 1 {
        assert (P * r) * l' == P * l by {
          MulAssoc(P, r, l');
        }
      }
    }
  }

  /** One turn of the factor loop keeps 2^(number of factors) * l <= n. */
  lemma FactorCountStep(k: nat, l: int, r: int, n: int)
    requires Pow2(k) * l <= n
    requires l >= 2 && 2 <= r <= l && l % r == 0
    ensures Pow2(k + 1) * (l / r) <= n
  {
    var l', w := l / r, Pow2(k);
    assert l == r * l';
    assert l' >= 0 by {
      if l' < 0 {
        MulMonotone(l', 0, r);
      }
    }
    assert Pow2(k + 1) == 2 * w;
    MulAssoc(2, w, l');
    MulMonotone(2, r, l');
    MulMonotone(2 * l', l, w);
  }

  lemma MulAssoc(a: int, b: int, c: int)
    ensures (a * b) * c == a * (b * c) && a * b == b * a
  {
  }

  lemma Pow2Monotone(j: nat, k: nat)
    requires j <= k
    ensures Pow2(j) <= Pow2(k)
  {
    Pow2Add(j, k - j);
    MulMonotone(1, Pow2(k - j), Pow2(j));
  }

  lemma Pow2Of31()
    ensures Pow2(31) == 0x8000_0000
  {
    Pow2Add(1, 1);
    Pow2Add(2, 2);
    Pow2Add(4, 4);
    Pow2Add(8, 8);
    Pow2Add(16, 8);
    Pow2Add(24, 4);
    Pow2Add(28, 2);
    Pow2Add(30, 1);
  }

  /** 2^k <= n < 2^31 forces k <= 30. */
  lemma FactorCountBound(k: nat, n: int)
    requires Pow2(k) <= n < 0x8000_0000
    ensures k <= 30
  {
    if k >= 31 {
      Pow2Monotone(31, k);
      Pow2Of31();
    }
  }

  // ---------------------------------------------------------------------
  // compute_w_coefficients: the twiddle table W[0..n]

  /** What compute_w_coefficients(n, a, b, W) leaves in W[x], for a range
      [a, b] inside [0, n/2]; cosine(k) and sine(k) stand for the library
      values cos(2 pi k / n) and sin(2 pi k / n). Slot n - k is written
      after slot k in each step, so it wins when the two coincide. */
  function WEntry(W0: seq<Complex>, n: int, a: int, b: int, x: int, cosine: int -> real, sine: int -> real): Complex
  {
    if a <= n - x <= b then Complex(cosine(n - x), sine(n - x))
    else if a <= x <= b then Complex(cosine(x), -sine(x))
    else if 0 <= x < |W0| then W0[x]
    else Complex(0.0, 0.0)
  }

  /** Filling [a, ab] and then [ab + 1, b] is filling [a, b]. */
  lemma WEntrySplit(W0: seq<Complex>, W1: seq<Complex>, n: int, a: int, ab: int, b: int, x: int,
                    cosine: int -> real, sine: int -> real)
    requires 0 <= a <= ab < b <= n / 2 && 0 <= x < |W0| == |W1|
    requires forall y :: 0 <= y < |W1| ==> W1[y] == WEntry(W0, n, a, ab, y, cosine, sine)
    ensures WEntry(W1, n, ab + 1, b, x, cosine, sine) == WEntry(W0, n, a, b, x, cosine, sine)
  {
  }

  /** compute_w_coefficients: fills the slots k and n - k for every k in
      [a, b] (directly below 128 entries, otherwise by halving the range);
      every other entry of W is left alone. */
  method ComputeWCoefficients(n: int, a: int, b: int, W: array<Complex>, cosine: int -> real, sine: int -> real)
    requires 0 <= a && b <= n / 2 && n + 1 <= W.Length
    modifies W
    ensures forall x :: 0 <= x < W.Length ==> W[x] == WEntry(old(W[..]), n, a, b, x, cosine, sine)
    decreases b - a
  {
    if b - a < 128 {
      ghost var W0 := W[..];
      var k := a;
      while k <= b
        invariant a <= k && (k <= b + 1 || k == a)
        invariant forall x :: 0 <= x < W.Length ==> W[x] == WEntry(W0, n, a, k - 1, x, cosine, sine)
      {
        var c := cosine(k);
        W[k] := W[k].(re := c);
        W[n - k] := W[n - k].(re := c);
        var s := sine(k);
        W[k] := W[k].(im := -s);
        W[n - k] := W[n - k].(im := s);
        k := k + 1;
      }
      assert forall x :: 0 <= x < W.Length ==> WEntry(W0, n, a, k - 1, x, cosine, sine) == WEntry(W0, n, a, b, x, cosine, sine);
      return;
    }
    var ab := (a + b) / 2;
    ghost var W0 := W[..];
    ComputeWCoefficients(n, a, ab, W, cosine, sine);
    ghost var W1 := W[..];
    ComputeWCoefficients(n, ab + 1, b, W, cosine, sine);
    forall x | 0 <= x < W.Length
      ensures W[x] == WEntry(W0, n, a, b, x, cosine, sine)
    {
      WEntrySplit(W0, W1, n, a, ab, b, x, cosine, sine);
    }
  }

  /** The table cilk_fft builds with compute_w_coefficients(n, 0, n/2, W):
      every slot 0..n is written, W[x] and W[n - x] share their real part,
      and their imaginary parts are opposite except at x = n/2 for even n,
      where slot n - x is written last. */
  lemma WTable(W0: seq<Complex>, n: int, x: int, cosine: int -> real, sine: int -> real)
    requires n >= 1 && 0 <= x <= n
    ensures 0 <= n - x <= n / 2 || 0 <= x <= n / 2
    ensures WEntry(W0, n, 0, n / 2, x, cosine, sine).re == WEntry(W0, n, 0, n / 2, n - x, cosine, sine).re
    ensures 2 * x != n ==>
      WEntry(W0, n, 0, n / 2, x, cosine, sine).im == -WEntry(W0, n, 0, n / 2, n - x, cosine, sine).im
  {
  }

  // ---------------------------------------------------------------------
  // unshuffle: out[i + j*m] = in[i*r + j] for a <= i < b, j < r

  function GetC(s: seq<Complex>, p: int): Complex
  {
    if 0 <= p < |s| then s[p] else Complex(0.0, 0.0)
  }

  /** Output position p = i + j*m (i = p % m, j = p / m) has been filled
      once the kernel has passed element (i, j) of its row-major walk over
      rows a.. and columns ..r. */
  predicate Moved(p: int, m: int, r: int, a: int, i: int, j: int)
  {
    m > 0 && p >= 0 && a <= p % m && p / m < r && (p % m < i || (p % m == i && p / m < j))
  }

  /** The unshuffle walk has reached element (i, j): the moved positions
      hold their input element, every other position its old value. */
  ghost predicate UnshuffleProgress(out: seq<Complex>, out0: seq<Complex>, inp: seq<Complex>,
                                    r: int, m: int, a: int, i: int, j: int)
  {
    |out| == |out0|
    && forall p :: 0 <= p < |out| ==>
         out[p] == if Moved(p, m, r, a, i, j) then GetC(inp, (p % m) * r + p / m) else out0[p]
  }

  /** unshuffle(a, b, in, out, r, m) has run: rows a..b-1 are moved. */
  ghost predicate Unshuffled(out: seq<Complex>, out0: seq<Complex>, inp: seq<Complex>, r: int, m: int, a: int, b: int)
  {
    UnshuffleProgress(out, out0, inp, r, m, a, b, 0)
  }

  /** Moving element (i, j) to position i + j*m advances the walk by one. */
  lemma UnshuffleStore(out: seq<Complex>, out': seq<Complex>, out0: seq<Complex>, inp: seq<Complex>,
                       r: int, m: int, a: int, i: int, j: int)
    requires 0 <= a <= i < m && 0 <= j < r && 0 <= i + j * m < |out|
    requires UnshuffleProgress(out, out0, inp, r, m, a, i, j)
    requires out' == out[i + j * m := GetC(inp, i * r + j)]
    ensures UnshuffleProgress(out', out0, inp, r, m, a, i, j + 1)
  {
    DivMod(j, m, i);
    forall p | 0 <= p < |out'|
      ensures out'[p] == if Moved(p, m, r, a, i, j + 1) then GetC(inp, (p % m) * r + p / m) else out0[p]
    {
      if p != i + j * m {
        assert p == (p / m) * m + p % m;
        assert Moved(p, m, r, a, i, j + 1) == Moved(p, m, r, a, i, j);
      }
    }
  }

  /** A finished row is the start of the next one. */
  lemma UnshuffleNextRow(out: seq<Complex>, out0: seq<Complex>, inp: seq<Complex>, r: int, m: int, a: int, i: int)
    requires UnshuffleProgress(out, out0, inp, r, m, a, i, r)
    ensures UnshuffleProgress(out, out0, inp, r, m, a, i + 1, 0)
  {
    forall p | 0 <= p < |out|
      ensures out[p] == if Moved(p, m, r, a, i + 1, 0) then GetC(inp, (p % m) * r + p / m) else out0[p]
    {
      MovedNextRow(p, m, r, a, i);
    }
  }

  lemma MovedNextRow(p: int, m: int, r: int, a: int, i: int)
    ensures Moved(p, m, r, a, i, r) == Moved(p, m, r, a, i + 1, 0)
  {
    if m > 0 && p >= 0 {
      var x, y := p % m, p / m;
      assert Moved(p, m, r, a, i, r) == (a <= x && y < r && (x < i || (x == i && y < r)));
      assert Moved(p, m, r, a, i + 1, 0) == (a <= x && y < r && (x < i + 1 || (x == i + 1 && y < 0)));
    }
  }

  /** Moving rows a..ab-1 and then ab..b-1 moves rows a..b-1. */
  lemma UnshuffleSplit(out0: seq<Complex>, out1: seq<Complex>, out2: seq<Complex>, inp: seq<Complex>,
                       r: int, m: int, a: int, ab: int, b: int)
    requires a <= ab <= b
    requires Unshuffled(out1, out0, inp, r, m, a, ab) && Unshuffled(out2, out1, inp, r, m, ab, b)
    ensures Unshuffled(out2, out0, inp, r, m, a, b)
  {
    forall p | 0 <= p < |out2|
      ensures out2[p] == if Moved(p, m, r, a, b, 0) then GetC(inp, (p % m) * r + p / m) else out0[p]
    {
    }
  }

  /** The addresses of element (i, j): position i + j*m of out is inside
      the r*m outputs, position i*r + j of in inside the b*r inputs. */
  lemma UnshuffleBounds(r: int, m: int, b: int, i: int, j: int)
    requires 0 <= i < b <= m && 0 <= j < r
    ensures 0 <= i + j * m < r * m && 0 <= i * r + j < b * r
  {
    MulMonotone(j, r - 1, m);
    MulMonotone(0, j, m);
    MulMonotone(i, b - 1, r);
    MulMonotone(0, i, r);
  }

  /** One row i of the base case of unshuffle: four elements at a time
      while j < r & ~3, then one at a time. */
  method UnshuffleRow(inp: array<Complex>, out: array<Complex>, ghost out0: seq<Complex>,
                      r: int, m: int, a: int, b: int, i: int)
    requires inp != out && 0 <= a <= i < b <= m && 0 <= r && b * r <= inp.Length && r * m <= out.Length
    requires UnshuffleProgress(out[..], out0, inp[..], r, m, a, i, 0)
    modifies out
    ensures UnshuffleProgress(out[..], out0, inp[..], r, m, a, i + 1, 0)
  {
    var j, ip, jp := UnshuffleRowFours(inp, out, out0, r, m, a, b, i);
    UnshuffleRowRest(inp, out, out0, r, m, a, b, i, j, ip, jp);
    UnshuffleNextRow(out[..], out0, inp[..], r, m, a, i);
  }

  /** The unrolled part of a row of unshuffle: columns 0 .. (r & ~3) - 1. */
  method UnshuffleRowFours(inp: array<Complex>, out: array<Complex>, ghost out0: seq<Complex>,
                           r: int, m: int, a: int, b: int, i: int) returns (j: int, ip: int, jp: int)
    requires inp != out && 0 <= a <= i < b <= m && 0 <= r && b * r <= inp.Length && r * m <= out.Length
    requires UnshuffleProgress(out[..], out0, inp[..], r, m, a, i, 0)
    modifies out
    ensures j == r - r % 4 && ip == i * r + j && jp == i + j * m
    ensures UnshuffleProgress(out[..], out0, inp[..], r, m, a, i, j)
  {
    var r4 := r - r % 4;
    ip := i * r;
    jp := i;
    j := 0;
    while j < r4
      invariant 0 <= j <= r4 && j % 4 == 0 && ip == i * r + j && jp == i + j * m
      invariant UnshuffleProgress(out[..], out0, inp[..], r, m, a, i, j)
    {
      UnshuffleFour(inp, out, out0, r, m, a, b, i, j);
      StepAddress(i, j, m, r, 4, ip, jp);
      jp := jp + 4 * m;
      ip := ip + 4;
      j := j + 4;
    }
  }

  /** The remaining r % 4 columns of a row of unshuffle, one at a time. */
  method UnshuffleRowRest(inp: array<Complex>, out: array<Complex>, ghost out0: seq<Complex>,
                          r: int, m: int, a: int, b: int, i: int, j0: int, ip0: int, jp0: int)
    requires inp != out && 0 <= a <= i < b <= m && 0 <= j0 <= r && b * r <= inp.Length && r * m <= out.Length
    requires ip0 == i * r + j0 && jp0 == i + j0 * m
    requires UnshuffleProgress(out[..], out0, inp[..], r, m, a, i, j0)
    modifies out
    ensures UnshuffleProgress(out[..], out0, inp[..], r, m, a, i, r)
  {
    var j, ip, jp := j0, ip0, jp0;
    while j < r
      invariant j0 <= j <= r && ip == i * r + j && jp == i + j * m
      invariant UnshuffleProgress(out[..], out0, inp[..], r, m, a, i, j)
    {
      MoveElement(inp, out, out0, r, m, a, b, i, j, ip, jp);
      StepAddress(i, j, m, r, 1, ip, jp);
      ip := ip + 1;
      jp := jp + m;
      j := j + 1;
    }
  }

  /** Advancing column j by d moves ip by d and jp by d*m. */
  lemma StepAddress(i: int, j: int, m: int, r: int, d: int, ip: int, jp: int)
    requires ip == i * r + j && jp == i + j * m
    ensures ip + d == i * r + (j + d) && jp + d * m == i + (j + d) * m
  {
  }

  /** jp[0] = ip[0]; jp[m] = ip[1]; jp[2m] = ip[2]; jp[3m] = ip[3]. */
  method UnshuffleFour(inp: array<Complex>, out: array<Complex>, ghost out0: seq<Complex>,
                       r: int, m: int, a: int, b: int, i: int, j: int)
    requires inp != out && 0 <= a <= i < b <= m && 0 <= j && j + 4 <= r
    requires b * r <= inp.Length && r * m <= out.Length
    requires UnshuffleProgress(out[..], out0, inp[..], r, m, a, i, j)
    modifies out
    ensures UnshuffleProgress(out[..], out0, inp[..], r, m, a, i, j + 4)
  {
    var ip, jp := i * r + j, i + j * m;
    MoveElement(inp, out, out0, r, m, a, b, i, j, ip, jp);
    MoveElement(inp, out, out0, r, m, a, b, i, j + 1, ip + 1, jp + m);
    MoveElement(inp, out, out0, r, m, a, b, i, j + 2, ip + 2, jp + 2 * m);
    MoveElement(inp, out, out0, r, m, a, b, i, j + 3, ip + 3, jp + 3 * m);
  }

  /** out[jp] = in[ip] for element (i, j) of the walk, at jp = i + j*m and
      ip = i*r + j. */
  method MoveElement(inp: array<Complex>, out: array<Complex>, ghost out0: seq<Complex>,
                     r: int, m: int, a: int, b: int, i: int, j: int, ip: int, jp: int)
    requires inp != out && 0 <= a <= i < b <= m && 0 <= j < r
    requires b * r <= inp.Length && r * m <= out.Length && ip == i * r + j && jp == i + j * m
    requires UnshuffleProgress(out[..], out0, inp[..], r, m, a, i, j)
    modifies out
    ensures UnshuffleProgress(out[..], out0, inp[..], r, m, a, i, j + 1)
  {
    UnshuffleBounds(r, m, b, i, j);
    ghost var before := out[..];
    out[jp] := inp[ip];
    UnshuffleStore(before, out[..], out0, inp[..], r, m, a, i, j);
  }

  /** unshuffle(a, b, in, out, r, m): for rows a <= i < b (b <= m) and
      columns j < r, out[i + j*m] = in[i*r + j]; nothing else in out
      changes. Below 16 rows it walks them directly, otherwise it halves
      [a, b). */
  method Unshuffle(a: int, b: int, inp: array<Complex>, out: array<Complex>, r: int, m: int)
    requires inp != out && 0 <= a <= b <= m && 0 <= r && b * r <= inp.Length && r * m <= out.Length
    modifies out
    ensures Unshuffled(out[..], old(out[..]), inp[..], r, m, a, b)
    decreases b - a
  {
    if b - a < 16 {
      UnshuffleRows(a, b, inp, out, r, m);
    } else {
      var ab := (a + b) / 2;
      ghost var out0 := out[..];
      MulMonotone(ab, b, r);
      Unshuffle(a, ab, inp, out, r, m);
      ghost var out1 := out[..];
      Unshuffle(ab, b, inp, out, r, m);
      UnshuffleSplit(out0, out1, out[..], inp[..], r, m, a, ab, b);
    }
  }

  /** The base case of unshuffle: rows a..b-1 one after the other. */
  method UnshuffleRows(a: int, b: int, inp: array<Complex>, out: array<Complex>, r: int, m: int)
    requires inp != out && 0 <= a <= b <= m && 0 <= r && b * r <= inp.Length && r * m <= out.Length
    modifies out
    ensures Unshuffled(out[..], old(out[..]), inp[..], r, m, a, b)
  {
    ghost var out0 := out[..];
    var i := a;
    while i < b
      invariant a <= i <= b
      invariant UnshuffleProgress(out[..], out0, inp[..], r, m, a, i, 0)
    {
      UnshuffleRow(inp, out, out0, r, m, a, b, i);
      i := i + 1;
    }
  }

  /** One row of the unrolled kernels fft_unshuffle_2 .. 32: r/2 steps of
      jp[0] = ip[0]; jp[m] = ip[1]; ip += 2; jp += 2*m. */
  method UnshufflePairRow(inp: array<Complex>, out: array<Complex>, ghost out0: seq<Complex>,
                          r: int, m: int, a: int, b: int, i: int)
    requires inp != out && 0 <= a <= i < b <= m && 0 <= r && r % 2 == 0
    requires b * r <= inp.Length && r * m <= out.Length
    requires UnshuffleProgress(out[..], out0, inp[..], r, m, a, i, 0)
    modifies out
    ensures UnshuffleProgress(out[..], out0, inp[..], r, m, a, i + 1, 0)
  {
    var ip := i * r;
    var jp := i;
    var j := 0;
    while j < r
      invariant 0 <= j <= r && j % 2 == 0 && ip == i * r + j && jp == i + j * m
      invariant UnshuffleProgress(out[..], out0, inp[..], r, m, a, i, j)
    {
      MoveElement(inp, out, out0, r, m, a, b, i, j, ip, jp);
      StepAddress(i, j, m, r, 1, ip, jp);
      MoveElement(inp, out, out0, r, m, a, b, i, j + 1, ip + 1, jp + m);
      StepAddress(i, j, m, r, 2, ip, jp);
      ip := ip + 2;
      jp := jp + 2 * m;
      j := j + 2;
    }
    UnshuffleNextRow(out[..], out0, inp[..], r, m, a, i);
  }

  /** The common shape of fft_unshuffle_2 .. 32 for radix r: rows directly
      below 128 of them, otherwise by halving [a, b). */
  method UnshuffleRadix(a: int, b: int, inp: array<Complex>, out: array<Complex>, r: int, m: int)
    requires inp != out && 0 <= a <= b <= m && 0 <= r && r % 2 == 0 && b * r <= inp.Length && r * m <= out.Length
    modifies out
    ensures Unshuffled(out[..], old(out[..]), inp[..], r, m, a, b)
    decreases b - a
  {
    if b - a < 128 {
      UnshufflePairRows(a, b, inp, out, r, m);
    } else {
      var ab := (a + b) / 2;
      ghost var out0 := out[..];
      MulMonotone(ab, b, r);
      UnshuffleRadix(a, ab, inp, out, r, m);
      ghost var out1 := out[..];
      UnshuffleRadix(ab, b, inp, out, r, m);
      UnshuffleSplit(out0, out1, out[..], inp[..], r, m, a, ab, b);
    }
  }

  /** The base case of the unrolled kernels: rows a..b-1 one after the other. */
  method UnshufflePairRows(a: int, b: int, inp: array<Complex>, out: array<Complex>, r: int, m: int)
    requires inp != out && 0 <= a <= b <= m && 0 <= r && r % 2 == 0 && b * r <= inp.Length && r * m <= out.Length
    modifies out
    ensures Unshuffled(out[..], old(out[..]), inp[..], r, m, a, b)
  {
    ghost var out0 := out[..];
    var i := a;
    while i < b
      invariant a <= i <= b
      invariant UnshuffleProgress(out[..], out0, inp[..], r, m, a, i, 0)
    {
      UnshufflePairRow(inp, out, out0, r, m, a, b, i);
      i := i + 1;
    }
  }

  /** fft_unshuffle_2: the same result as unshuffle with r = 2. */
  method FftUnshuffle2(a: int, b: int, inp: array<Complex>, out: array<Complex>, m: int)
    requires inp != out && 0 <= a <= b <= m && b * 2 <= inp.Length && 2 * m <= out.Length
    modifies out
    ensures Unshuffled(out[..], old(out[..]), inp[..], 2, m, a, b)
  {
    UnshuffleRadix(a, b, inp, out, 2, m);
  }

  /** fft_unshuffle_4: the same result as unshuffle with r = 4. */
  method FftUnshuffle4(a: int, b: int, inp: array<Complex>, out: array<Complex>, m: int)
    requires inp != out && 0 <= a <= b <= m && b * 4 <= inp.Length && 4 * m <= out.Length
    modifies out
    ensures Unshuffled(out[..], old(out[..]), inp[..], 4, m, a, b)
  {
    UnshuffleRadix(a, b, inp, out, 4, m);
  }

  /** fft_unshuffle_8: the same result as unshuffle with r = 8. */
  method FftUnshuffle8(a: int, b: int, inp: array<Complex>, out: array<Complex>, m: int)
    requires inp != out && 0 <= a <= b <= m && b * 8 <= inp.Length && 8 * m <= out.Length
    modifies out
    ensures Unshuffled(out[..], old(out[..]), inp[..], 8, m, a, b)
  {
    UnshuffleRadix(a, b, inp, out, 8, m);
  }

  /** fft_unshuffle_16: the same result as unshuffle with r = 16. */
  method FftUnshuffle16(a: int, b: int, inp: array<Complex>, out: array<Complex>, m: int)
    requires inp != out && 0 <= a <= b <= m && b * 16 <= inp.Length && 16 * m <= out.Length
    modifies out
    ensures Unshuffled(out[..], old(out[..]), inp[..], 16, m, a, b)
  {
    UnshuffleRadix(a, b, inp, out, 16, m);
  }

  /** fft_unshuffle_32: the same result as unshuffle with r = 32. */
  method FftUnshuffle32(a: int, b: int, inp: array<Complex>, out: array<Complex>, m: int)
    requires inp != out && 0 <= a <= b <= m && b * 32 <= inp.Length && 32 * m <= out.Length
    modifies out
    ensures Unshuffled(out[..], old(out[..]), inp[..], 32, m, a, b)
  {
    UnshuffleRadix(a, b, inp, out, 32, m);
  }

  /** The whole unshuffle (a = 0, b = m, n = r*m) is a permutation of the n
      elements: output position p takes input (p % m)*r + p / m, and input
      q lands at output (q % r)*m + q / r; the two index maps are inverse
      bijections of [0, n). */
  lemma UnshufflePermutes(r: int, m: int, p: int, q: int)
    requires r > 0 && m > 0
    requires 0 <= p < r * m && q == (p % m) * r + p / m
    ensures 0 <= q < r * m && (q % r) * m + q / r == p
  {
    var i, j := p % m, p / m;
    assert p == j * m + i;
    assert 0 <= j < r by {
      if j >= r {
        MulMonotone(r, j, m);
      }
      if j < 0 {
        MulMonotone(j, -1, m);
      }
    }
    UnshuffleBounds(r, m, m, i, j);
    DivMod(i, r, j);
  }

  /** And the other direction: input q is read by output (q % r)*m + q / r. */
  lemma UnshuffleReachesEveryInput(r: int, m: int, q: int, p: int)
    requires r > 0 && m > 0
    requires 0 <= q < r * m && p == (q % r) * m + q / r
    ensures 0 <= p < r * m && (p % m) * r + p / m == q
  {
    var j, i := q % r, q / r;
    assert q == i * r + j;
    assert 0 <= i < m by {
      if i >= m {
        MulMonotone(m, i, r);
      }
      if i < 0 {
        MulMonotone(i, -1, r);
      }
    }
    UnshuffleBounds(r, m, m, i, j);
    DivMod(j, m, i);
  }

  // ---------------------------------------------------------------------
  // fft_twiddle_gen1: the index l0 into the twiddle table

  /** The walk of l0 over the twiddle table in fft_twiddle_gen1: starting at
      0, add l1 at each of the r steps and subtract nW when it passes nW.
      Returns the slot read at each step: all inside W[0..nW], and the j-th
      is j*l1 modulo nW. */
  method TwiddleIndices(r: nat, l1: int, nW: int) returns (slots: seq<int>)
    requires nW > 0 && 0 <= l1 <= nW
    ensures |slots| == r
    ensures forall j :: 0 <= j < r ==> 0 <= slots[j] <= nW && slots[j] % nW == (j * l1) % nW
  {
    slots := [];
    var l0 := 0;
    ghost var wraps := 0;
    var j := 0;
    while j < r
      invariant 0 <= j <= r && |slots| == j && 0 <= l0 <= nW && l0 == j * l1 - wraps * nW
      invariant forall k :: 0 <= k < j ==> SlotOf(slots[k], k, l1, nW)
    {
      TwiddleStep(l0, j, l1, wraps, nW);
      slots := slots + [l0];
      l0 := l0 + l1;
      if l0 > nW {
        l0 := l0 - nW;
        wraps := wraps + 1;
      }
      j := j + 1;
    }
  }

  /** Slot s of the table is the one for step k: inside W[0..nW] and equal
      to k*l1 modulo nW. */
  predicate SlotOf(s: int, k: int, l1: int, nW: int)
    requires nW > 0
  {
    0 <= s <= nW && s % nW == (k * l1) % nW
  }

  /** One step of the l0 walk: the current l0 is the slot of step j, and
      adding l1 keeps l0 == j*l1 - wraps*nW for j + 1. */
  lemma TwiddleStep(l0: int, j: int, l1: int, wraps: int, nW: int)
    requires nW > 0 && 0 <= l0 <= nW && l0 == j * l1 - wraps * nW
    ensures SlotOf(l0, j, l1, nW)
    ensures l0 + l1 == (j + 1) * l1 - wraps * nW
  {
    ShiftMod(j * l1, wraps, nW);
  }

  lemma ShiftMod(x: int, c: int, n: int)
    requires n > 0
    ensures (x - c * n) % n == x % n
  {
    assert x - c * n == (x / n - c) * n + x % n;
    DivMod(x / n - c, n, x % n);
  }

  /** The l1 of fft_twiddle_gen1 for output k of block i: fft_aux passes
      nWdn = nW/n for a transform of length n = r*m that divides the table
      size nW, so nWdn*i + nWdn*m*k with i < m and k < r lies in [0, nW]
      and the walk above applies. */
  lemma TwiddleStride(nW: nat, n: nat, nWdn: nat, i: nat, m: nat, k: nat, r: nat)
    requires n == r * m && n > 0 && nW % n == 0 && nWdn == nW / n
    requires i < m && k < r
    ensures 0 <= nWdn * i + nWdn * m * k <= nW
  {
    var x := k * m + i;
    GridIndex(m, r, k, i);
    assert nWdn * i + nWdn * m * k == nWdn * x by {
      assert nWdn * m * k == nWdn * (k * m);
    }
    assert nWdn * n == nW by {
      assert nW == n * (nW / n) + nW % n;
    }
    MulMonotone(x, n, nWdn);
    MulMonotone(0, x, nWdn);
  }

  // ---------------------------------------------------------------------
  // fft_base_2 and fft_base_4

  /** z * (-i)^e for e in 0..3: multiplying by -i maps (x, y) to (y, -x). */
  function RotateNegI(z: Complex, e: int): Complex
  {
    match e % 4
    case 0 => z
    case 1 => Complex(z.im, -z.re)
    case 2 => Complex(-z.re, -z.im)
    case _ => Complex(-z.im, z.re)
  }

  /** The k-th output of the exact n-point DFT for n = 2 or 4, where the
      root of unity is -i (n = 4) or -1 = (-i)^2 (n = 2):
      sum over j < n of in[j] * w^(j*k). */
  function DftTerm(inp: seq<Complex>, n: int, k: int, j: nat): Complex
    requires j <= |inp| && (n == 2 || n == 4)
  {
    if j == 0 then Complex(0.0, 0.0)
    else Add(DftTerm(inp, n, k, j - 1), RotateNegI(inp[j - 1], (j - 1) * k * (4 / n)))
  }

  /** fft_base_2: out = (in0 + in1, in0 - in1). */
  function FftBase2(inp: seq<Complex>): (out: seq<Complex>)
    requires |inp| == 2
    ensures |out| == 2
  {
    [Add(inp[0], inp[1]), Sub(inp[0], inp[1])]
  }

  /** fft_base_4: two 2-point butterflies on the even and odd elements,
      then the second stage with the twiddle -i folded into the signs. */
  function FftBase4(inp: seq<Complex>): (out: seq<Complex>)
    requires |inp| == 4
    ensures |out| == 4
  {
    var r1_0, i1_0 := inp[0].re + inp[2].re, inp[0].im + inp[2].im;
    var r1_2, i1_2 := inp[0].re - inp[2].re, inp[0].im - inp[2].im;
    var r1_1, i1_1 := inp[1].re + inp[3].re, inp[1].im + inp[3].im;
    var r1_3, i1_3 := inp[1].re - inp[3].re, inp[1].im - inp[3].im;
    [Complex(r1_0 + r1_1, i1_0 + i1_1),
     Complex(r1_2 + i1_3, i1_2 - r1_3),
     Complex(r1_0 - r1_1, i1_0 - i1_1),
     Complex(r1_2 - i1_3, i1_2 + r1_3)]
  }

  /** fft_base_2 is the exact 2-point DFT. */
  lemma FftBase2IsDft(inp: seq<Complex>, k: int)
    requires |inp| == 2 && 0 <= k < 2
    ensures FftBase2(inp)[k] == DftTerm(inp, 2, k, 2)
  {
    assert DftTerm(inp, 2, k, 1) == inp[0];
    if k == 1 {
      assert RotateNegI(inp[1], 2) == Complex(-inp[1].re, -inp[1].im);
    }
  }

  /** fft_base_4 is the exact 4-point DFT: out[k] = sum over j of
      in[j] * (-i)^(j*k). */
  lemma FftBase4IsDft(inp: seq<Complex>, k: int)
    requires |inp| == 4 && 0 <= k < 4
    ensures FftBase4(inp)[k] == DftTerm(inp, 4, k, 4)
  {
    DftFour(inp, k);
    var x0, x1, x2, x3 := inp[0], inp[1], inp[2], inp[3];
    if k == 0 {
      assert RotateNegI(x1, 0) == x1 && RotateNegI(x2, 0) == x2 && RotateNegI(x3, 0) == x3;
    } else if k == 1 {
      assert RotateNegI(x2, 2) == Complex(-x2.re, -x2.im);
      assert RotateNegI(x3, 3) == Complex(-x3.im, x3.re);
    } else if k == 2 {
      assert RotateNegI(x2, 4) == x2;
      assert RotateNegI(x3, 6) == Complex(-x3.re, -x3.im);
    } else {
      assert RotateNegI(x1, 3) == Complex(-x1.im, x1.re);
      assert RotateNegI(x2, 6) == Complex(-x2.re, -x2.im);
      assert RotateNegI(x3, 9) == Complex(x3.im, -x3.re);
    }
  }

  /** The 4-point sum written out term by term. */
  lemma DftFour(inp: seq<Complex>, k: int)
    requires |inp| == 4
    ensures DftTerm(inp, 4, k, 4)
         == Add(Add(Add(inp[0], RotateNegI(inp[1], k)), RotateNegI(inp[2], 2 * k)), RotateNegI(inp[3], 3 * k))
  {
    var t1 := DftTerm(inp, 4, k, 1);
    assert t1 == inp[0] by {
      assert (1 - 1) * k * (4 / 4) == 0;
      assert DftTerm(inp, 4, k, 0) == Complex(0.0, 0.0);
      assert t1 == Add(Complex(0.0, 0.0), RotateNegI(inp[0], 0));
      assert RotateNegI(inp[0], 0) == inp[0];
    }
    var t2 := DftTerm(inp, 4, k, 2);
    assert t2 == Add(inp[0], RotateNegI(inp[1], k)) by {
      assert (2 - 1) * k * (4 / 4) == k;
    }
    var t3 := DftTerm(inp, 4, k, 3);
    assert t3 == Add(t2, RotateNegI(inp[2], 2 * k)) by {
      assert (3 - 1) * k * (4 / 4) == 2 * k;
    }
    assert DftTerm(inp, 4, k, 4) == Add(t3, RotateNegI(inp[3], 3 * k)) by {
      assert (4 - 1) * k * (4 / 4) == 3 * k;
    }
  }
}
