# Verified model of the OpenCilk small applications

This project is a Dafny model of the computational kernels of the OpenCilk
`smallapps` benchmarks, with proofs of what each kernel computes. The
kernels are:

- **cilk5/fft.c**, a mixed-radix FFT (`fft.dfy`). Modelled are the radix
  choice `factor`, the factor list built by `cilk_fft`, the twiddle table
  `compute_w_coefficients`, the stride permutations `unshuffle` and
  `fft_unshuffle_2/4/8/16/32`, the twiddle index walk of
  `fft_twiddle_gen1`, and the butterflies `fft_base_2` and `fft_base_4`.
- **cilk5/strassen.c**, matrix multiplication (`strassen.dfy`). Modelled
  are the reference `matrixmul`, the recursive `mat_vec_mul`, the
  8-column unrolled naive kernels, the 8-product quadrant recursion
  `MultiplyByDivideAndConquer`, `OptimizedStrassenMultiply` with its
  S1..S8 pre-pass and its combination pass, `cilk_rand`, and the size
  check of `main`. The multiply kernels among them are proved to compute
  A x B (or C + A x B).
- **cilk5/lu.c**, blocked LU (`lu.dfy`). Modelled are `elem_daxmy`,
  `block_schur`, the recursive `schur` (M -= V x W), `block_lower_solve`,
  `lower_solve`/`aux_lower_solve` (a unit lower triangular solve) and
  `invalid_input`. They work over one flat buffer of 16-by-16 blocks
  addressed through `MATRIX`.
- **cilk5/nqueens.c** (`nqueens.dfy`). Modelled are the conflict test `ok`
  and the counting search `nqueens`. The count is proved equal to the
  number of conflict-free completions of the prefix.
- **intel/AveragingFilter_01_07_15/src/AveragingFilter.cpp**
  (`averaging_filter.dfy`). Modelled are `round_up` and the 3x3 box filter
  `process_image_serial`, and `process_image_cilk_for` with its rows done
  in any order.
- **intel/DCT_01_07_15/src/matrix.cpp** (`dct_matrix.dfy`). This is the
  class `matrix_serial`, with its buffer `ptr` and its `row_size`.

Two shared files hold the common ground:

- `arith.dfy` (module `Arith`) has powers of two, the bitwise AND the
  sources use as a test, and the row-major index `r*w + c`.
- `strided.dfy` (module `Strided`) has strided matrix windows, the
  `ELEM(A, an, i, j) = A[i*an + j]` addressing, and the matrix product
  every multiply kernel is measured against.

How the programs are modelled:

- Matrix entries are `int`. The claims about the strassen and lu matrix
  products are equations built from +, - and x alone. The proofs are not
  checked to avoid facts particular to the integers.
- DCT entries are `real`, and FFT values are pairs of reals.
- Every `cilk_spawn`, `cilk_scope`, `cilk_sync` and `cilk_for` becomes
  sequential composition.
- The disjointness of the parallel writes is stated as frame conditions:
  what a call may change, and that nothing else changes.
- Code that changes memory step by step is modelled as methods over
  arrays, with loop invariants. Each such method is proved against a
  specification function or predicate, and that specification is in turn
  related by lemmas to an independent definition, for example the matrix
  product, the discrete Fourier transform, or the set of queen placements.

## Model

| member | source | states |
|---|---|---|
| Fft.RadixTests | cilk5/fft.c:95-102 | the bit tests `(n & 15) == 0`, `(n & 7) == 0`, `(n & 3) == 0`, `(n & 1) == 0` hold exactly when n is divisible by 16, 8, 4, 2 |
| Fft.RadixChain | cilk5/fft.c:95-102 | divisibility by 16 implies divisibility by 8 and so on down, so the first test that succeeds names the largest of these radices dividing n |
| Fft.Factor | cilk5/fft.c:89-118 | returns 1 for n < 2; otherwise a divisor of n in [2, n]: 8 for 64, 128, 256, 1024, 2048, 4096, else 16, 8, 4 or 2 for the first of n%16, n%8, n%4, n%2 that is 0, and for odd n the least divisor above 1 |
| Fft.SmallestOddDivisor | cilk5/fft.c:110-117 | the odd trial division up to n returns the least divisor of odd n greater than 1 (n itself when none is found) |
| Fft.LeastDivisorIsPrime | cilk5/fft.c:110-117 | the least divisor above 1 is prime, and it equals n exactly when n is prime |
| Fft.CollectFactors | cilk5/fft.c:3139-3155 | the do-while of cilk_fft records between 1 and 40 factors (the size of `factors[40]`) for any int n; for n >= 1 their product is n, and for n >= 2 each factor is at least 2 |
| Fft.FactorCountBound | cilk5/fft.c:3139 | a product of k factors that are each at least 2 and is below 2^31 has k <= 30, so the 40 slots are never exceeded |
| Fft.ComputeWCoefficients | cilk5/fft.c:60-83 | after compute_w_coefficients(n, a, b, W) each W[x] is the value of WEntry: slots k and n-k for k in [a, b] hold (cos k, -sin k) and (cos k, sin k), slot n-k winning when they coincide; every other slot is unchanged; all writes stay inside W[0..n] |
| Fft.WEntrySplit | cilk5/fft.c:75-80 | computing [a, ab] and then [ab+1, b] gives the same table as computing [a, b] in one go |
| Fft.WTable | cilk5/fft.c:60-80 | with a = 0 and b = n/2, the range fft asks for, every slot 0..n is written; re W[x] == re W[n-x], and im W[x] == -im W[n-x] unless x == n - x |
| Fft.Unshuffle | cilk5/fft.c:121-157 | for a <= i < b and j < r, out[i + j*m] == in[i*r + j]; every other entry of out is unchanged and in is never written; the base case walks the rows with a four-at-a-time loop and a remainder loop, above 16 rows the range is halved |
| Fft.UnshuffleSplit | cilk5/fft.c:148-154 | unshuffling rows [a, ab) and then [ab, b) is unshuffling [a, b) |
| Fft.UnshuffleRadix | cilk5/fft.c:268-294 | the common shape of the specialised kernels (pairs jp[0] = ip[0], jp[m] = ip[1]; halving above 128 rows) gives the same out as unshuffle with the same r |
| Fft.FftUnshuffle2 | cilk5/fft.c:268-294 | the same result as unshuffle with r = 2 |
| Fft.FftUnshuffle4 | cilk5/fft.c:413-443 | the same result as unshuffle with r = 4 |
| Fft.FftUnshuffle8 | cilk5/fft.c:716-752 | the same result as unshuffle with r = 8 |
| Fft.FftUnshuffle16 | cilk5/fft.c:1394-1445 | the same result as unshuffle with r = 16 |
| Fft.FftUnshuffle32 | cilk5/fft.c:2952-3035 | the same result as unshuffle with r = 32 |
| Fft.UnshufflePermutes | cilk5/fft.c:121-157 | with a = 0, b = m and n = r*m, output position p takes input (p % m)*r + p/m, which lies in [0, n), and that input maps back to p |
| Fft.UnshuffleReachesEveryInput | cilk5/fft.c:121-157 | every input position q < r*m is read by exactly the output position (q % r)*m + q/r: the two index maps are inverse bijections, so the full unshuffle is a permutation |
| Fft.TwiddleIndices | cilk5/fft.c:167-181 | for 0 <= l1 <= nW the walk l0 += l1; if (l0 > nW) l0 -= nW visits r slots, each inside W[0..nW], the j-th congruent to j*l1 modulo nW |
| Fft.TwiddleStride | cilk5/fft.c:190-196 | with nWdn = nW/n for a transform length n = r*m that divides nW (the nW / n that fft_aux passes), the l1 = nWdn*i + nWdn*m*k of block i < m and output k < r lies in [0, nW], the premise of TwiddleIndices |
| Fft.FftBase2IsDft | cilk5/fft.c:210-222 | fft_base_2 computes (x0 + x1, x0 - x1), the exact 2-point DFT sum over j of x[j]*(-1)^(jk) |
| Fft.FftBase4IsDft | cilk5/fft.c:296-334 | fft_base_4 computes out[k] == sum over j of in[j]*(-i)^(jk), the exact 4-point DFT, for every k < 4 |
| Fft.DftFour | cilk5/fft.c:296-334 | the 4-point DFT term unfolded: x0 + x1*(-i)^k + x2*(-i)^(2k) + x3*(-i)^(3k) |
| Arith.PowerOfTwoTest | cilk5/strassen.c:806 | for n >= 1, `(n & (n - 1)) == 0` holds exactly when n is a power of two |
| Arith.BitAndLowMask | cilk5/fft.c:95-102 | `n & (2^k - 1)` is n modulo 2^k |
| Arith.Pow2MultipleOf16 | cilk5/strassen.c:806 | a power of two is a multiple of 16 exactly when it is at least 16 |
| Strided.BlockProd | cilk5/strassen.c:324-417 | entry (qi*h + i, qj*h + j) of A x B on a 2h window is the sum of the two half-size products of quadrant row qi of A and quadrant column qj of B |
| Strided.ProdSplit | cilk5/strassen.c:121-131 | the inner product over h + k terms is the first h terms plus the last k terms |
| Strided.ProdLinearLeft | cilk5/strassen.c:553-562 | a product is linear in its left factor: (Y +- Z) x B == Y x B +- Z x B |
| Strided.ProdLinearRight | cilk5/strassen.c:553-562 | a product is linear in its right factor: A x (Y +- Z) == A x Y +- A x Z |
| Strided.QuadFits | cilk5/strassen.c:483-495 | each quadrant of a window of side 2h that fits its buffer is a window of side h that fits, and its cells are cells of the whole window |
| Strided.QuadDisjoint | cilk5/strassen.c:335-345 | no cell of one quadrant of a window lies in another quadrant, so the four quadrant writes are disjoint |
| Strassen.MatrixMul | cilk5/strassen.c:121-131 | matrixmul leaves C[i][j] == sum over k of A[i][k]*B[k][j] on the n-by-n window with row widths an, bn, cn, and no other entry of C changes |
| Strassen.FastNaive | cilk5/strassen.c:156-216 | for MatrixSize % 8 == 0, the window of C holds A x B, computed eight columns at a time; nothing outside the window changes and A, B are unchanged |
| Strassen.FastAdditiveNaive | cilk5/strassen.c:241-296 | the same, with C := C + A x B |
| Strassen.DivideAndConquer | cilk5/strassen.c:324-417 | for powers of two divisible by 16, C == A x B when AdditiveMode is 0 and C == C0 + A x B otherwise; nothing outside the window changes |
| Strassen.DivideAndConquerCombine | cilk5/strassen.c:347-414 | eight quadrant products, the first into each quadrant in the caller's mode and the second accumulating, leave the whole window holding (C0 +) A x B |
| Strassen.StrassenPrepass | cilk5/strassen.c:533-571 | the pre-pass fills fresh q-by-q matrices with S1 = A21 + A22, S2 = S1 - A11, S3 = A11 - A21, S4 = A12 - S2, S5 = B12 - B11, S6 = B22 - S5, S7 = B22 - B12, S8 = S6 - B21 |
| Strassen.StrassenIdentity | cilk5/strassen.c:553-666 | from the S-sums, S4 x B22 + M5 + T1 == A11 x B12 + A12 x B22, M5 + T2 == A21 x B12 + A22 x B22 and T2 - A22 x S8 == A21 x B11 + A22 x B21 (T1 = S2 x S6 + M2, T2 = T1 + S3 x S7) |
| Strassen.StrassenCombine | cilk5/strassen.c:614-666 | the combination pass, four columns at a time, sets C11 += M2, C12 += M5 + T1, C22 = M5 + T2 and C21 = -C21 + T2 on every cell, touching nothing else |
| Strassen.StrassenCombineCorrect | cilk5/strassen.c:573-666 | the seven products followed by the combination pass leave the 2q window of C holding A x B, and nothing outside it changed |
| Strassen.OptimizedStrassen | cilk5/strassen.c:442-670 | for powers of two divisible by 16, C == A x B on the window; at most 64 wide it uses MultiplyByDivideAndConquer |
| Strassen.MatVecMul | cilk5/strassen.c:83-116 | P[i] == (add ? P0[i] : 0) + sum over j of A[i][j]*V[j] for i < m; no other entry of P changes |
| Strassen.MatVecColumns | cilk5/strassen.c:111-115 | splitting the columns, the second half always accumulates onto what the first half wrote, giving the full row sums |
| Strassen.MatVecRows | cilk5/strassen.c:105-109 | splitting the rows, the two halves write disjoint parts of P |
| Strassen.DotSplit | cilk5/strassen.c:111-115 | a row sum over h + k columns is the sum over the first h plus the sum over the last k |
| Strassen.LcgNext | cilk5/strassen.c:69-73 | the next state rand_nxt*1103515245 + 12345 wraps at 2^64, the width of unsigned long |
| Strassen.RandOutput | cilk5/strassen.c:73 | the value returned, (rand_nxt >> 16) % (RAND_MAX + 1), lies in [0, RAND_MAX] |
| Strassen.LcgLowBitAlternates | cilk5/strassen.c:72 | the lowest bit of the state flips at every step |
| Strassen.Rand.CilkRand | cilk5/strassen.c:69-75 | advances the state by one wrapped LCG step and returns RandOutput of the new state, a value in [0, RAND_MAX] |
| Strassen.MainAcceptsSize | cilk5/strassen.c:806-811 | main accepts n exactly when n is 0 or a power of two divisible by 16: the sizes the recursions are proved for |
| Strassen.StrassenMacroAsWritten | cilk5/strassen.c:440-441 | the macro as written computes the product of A read with row width bn and B read with row width an |
| Strassen.SwappedRowWidths | cilk5/strassen.c:440-441 | with an = n and bn = n + 1, A[1][0] = 1 and B[0][0] = 1 (all else 0), entry (1, 0) of A x B is 1 but the macro as written yields 0 |
| Strassen.StrassenMacro | cilk5/strassen.c:436-441 | the corrected macro leaves C == A x B for row widths an, bn, cn |
| Lu.ElemDaxmy | cilk5/lu.c:151-155 | y[i] := y[i] - a*x[i] for i < n; everything else, x included, is unchanged |
| Lu.BlockSchur | cilk5/lu.c:205-211 | B := B - A x C on a 16-by-16 block; only B changes |
| Lu.BlockLowerSolve | cilk5/lu.c:179-185 | forward substitution leaves B' with L_unit x B' == B0, where L_unit is the strict lower part of L with an implicit unit diagonal; only B changes |
| Lu.LowerSolutionUnique | cilk5/lu.c:179-185 | any two blocks solving that system against the same strict lower part of L are equal, so the diagonal and upper part of L play no role |
| Lu.Schur | cilk5/lu.c:221-260 | for nb a power of two, M := M0 - V x W on the nb-by-nb block matrix; blocks outside M are unchanged |
| Lu.SchurTwoPhases | cilk5/lu.c:244-257 | the first phase (V00, V10 against W00, W01) followed by the second (V01, V11 against W10, W11) gives the full Schur complement on each quadrant |
| Lu.QuadOffsets | cilk5/lu.c:230-242 | block (I, J) of quadrant (qi, qj) is block (qi*h + I, qj*h + J) of the whole matrix, and the 2h-term block sum splits into the two quadrant sums |
| Lu.QuadsApart | cilk5/lu.c:230-242 | the quadrants M00, M01, M10, M11 share no block |
| Lu.LowerSolve | cilk5/lu.c:284-307 | L_unit x M' == M0 on the nb-by-nb block matrix, with L_unit the unit lower triangular matrix read from L; blocks outside M are unchanged |
| Lu.AuxLowerSolve | cilk5/lu.c:268-282 | L00_unit x Ma' == Ma0 and L10 x Ma' + L11_unit x Mb' == Mb0, changing only Ma and Mb |
| Lu.InvalidInput | cilk5/lu.c:417-432 | returns 0 exactly when n >= 16 and n is a power of two, 1 otherwise |
| Lu.AcceptedSize | cilk5/lu.c:470-473 | an accepted n gives nBlocks = n/16, a power of two, and an n*n buffer holds the nBlocks-by-nBlocks block matrix |
| NQueens.Ok | cilk5/nqueens.c:36-48 | returns 1 exactly when no two of the first n queens share a column or a diagonal, 0 otherwise |
| NQueens.NQueens | cilk5/nqueens.c:50-87 | returns Count(n, a[0..j)): 1 for j == n, otherwise the sum over the columns i of count[i], which is the count of the extended board when ok(j+1, b) holds and 0 otherwise; a is not written |
| NQueens.CountIsCompletions | cilk5/nqueens.c:50-87 | for a conflict-free prefix with columns in [0, n), the count equals the number of conflict-free boards of n queens that extend it |
| NQueens.CountsSolutions | cilk5/nqueens.c:17-30 | nqueens(n, 0, a) is the number of ways to place n non-attacking queens on an n-by-n board |
| NQueens.CountBound | cilk5/nqueens.c:50-87 | the count for a prefix of length j is at most n^(n-j) |
| NQueens.ExtendConflictFree | cilk5/nqueens.c:70-76 | extending a conflict-free prefix by a column keeps it conflict-free exactly when the new queen attacks none of the earlier ones |
| NQueens.BranchBySafe | cilk5/nqueens.c:75-77 | count[c] is the count of the extended board when the new queen is safe and 0 otherwise |
| NQueens.FourQueens | cilk5/nqueens.c:18 | nqueens(4, 0, a) == 2 |
| AveragingFilter.RoundUp | intel/AveragingFilter_01_07_15/src/AveragingFilter.cpp:32-34 | the result is a multiple of alignment in [size, size + alignment) |
| AveragingFilter.RoundUpLeast | intel/AveragingFilter_01_07_15/src/AveragingFilter.cpp:32-34 | it is the least multiple of alignment that is at least size |
| AveragingFilter.Mean | intel/AveragingFilter_01_07_15/src/AveragingFilter.cpp:58-69 | the channel value is the floor of the 3x3 sum divided by 9, and it fits a byte |
| AveragingFilter.PadImage | intel/AveragingFilter_01_07_15/src/AveragingFilter.cpp:42-52 | a fresh (w+2)*(h+2) buffer, black everywhere except that image pixel (r, c) sits at padded index (r+1)*(w+2) + (c+1) |
| AveragingFilter.Average | intel/AveragingFilter_01_07_15/src/AveragingFilter.cpp:58-69 | the accumulation over k1, k2 in [-1, 1] gives, per channel, the mean of the 3x3 neighbourhood of the padded pixel; all reads stay in the padded buffer |
| AveragingFilter.FilterRow | intel/AveragingFilter_01_07_15/src/AveragingFilter.cpp:55-71 | padded row i, columns 1..w, of the output buffer holds the filtered pixels; nothing else in it changes |
| AveragingFilter.CopyOut | intel/AveragingFilter_01_07_15/src/AveragingFilter.cpp:72-75 | output row r is padded row r+1, columns 1..w; entries of out past w*h are unchanged |
| AveragingFilter.ProcessImageSerial | intel/AveragingFilter_01_07_15/src/AveragingFilter.cpp:36-80 | out holds the filtered image (each pixel channel the floored mean of its zero-padded 3x3 neighbourhood); img is unchanged |
| AveragingFilter.ProcessImageCilkFor | intel/AveragingFilter_01_07_15/src/AveragingFilter.cpp:82-128 | with the rows filtered in any order that covers 1..h, out holds the same filtered image as the serial version |
| AveragingFilter.UniformInterior | intel/AveragingFilter_01_07_15/src/AveragingFilter.cpp:55-71 | on an image of one colour, every pixel whose neighbourhood lies inside the image keeps that colour |
| DctMatrix.MatrixSerial.constructor | intel/DCT_01_07_15/src/matrix.cpp:6-10 | row_size == size and a fresh buffer of size*size zeros |
| DctMatrix.MatrixSerial.Copy | intel/DCT_01_07_15/src/matrix.cpp:21-26 | the same row_size and entries in a fresh buffer, so later writes to one matrix never reach the other |
| DctMatrix.MatrixSerial.CreateIdentity | intel/DCT_01_07_15/src/matrix.cpp:13-19 | every diagonal entry (i, i) becomes 1 and every other entry is unchanged |
| DctMatrix.ZeroThenIdentity | intel/DCT_01_07_15/src/matrix.cpp:6-19 | on a freshly zeroed matrix, create_identity yields the identity matrix |
| DctMatrix.MatrixSerial.Multiply | intel/DCT_01_07_15/src/matrix.cpp:28-40 | returns a fresh matrix of y.row_size with R[i][j] == sum over k of this[i][k]*y[k][j], using y.row_size as the size; neither operand changes |
| DctMatrix.IdentityUnit | intel/DCT_01_07_15/src/matrix.cpp:13-40 | multiplying by the identity matrix, on either side, gives the same matrix |
| DctMatrix.MatrixSerial.Assign | intel/DCT_01_07_15/src/matrix.cpp:41-49 | copies temp.row_size squared entries of temp into this; this->row_size is not updated and the remaining entries are unchanged |
| DctMatrix.MatrixSerial.Minus | intel/DCT_01_07_15/src/matrix.cpp:50-56 | returns a fresh matrix of row_size whose every entry is -num, whatever the receiver holds |
| DctMatrix.MatrixSerial.Transpose | intel/DCT_01_07_15/src/matrix.cpp:57-64 | output[j][i] == this[i][j] for all i, j < row_size; entries of output past row_size squared are unchanged |
| DctMatrix.TransposeTwice | intel/DCT_01_07_15/src/matrix.cpp:57-64 | transposing twice gives back the original matrix |
| DctMatrix.TransposeOfProduct | intel/DCT_01_07_15/src/matrix.cpp:28-64 | the transpose of A x B is B^T x A^T |

## Left out

- Floating point. FFT and DCT values are exact reals, and strassen and lu entries are integers. Rounding, cancellation and the tolerances of the correctness tests are not modelled.
- Fft.ComputeWCoefficients: the cosine and sine values are parameters of the model, because they come from the C library.
- The floating-point FFT kernels are left out: `fft_base_8/16/32`, `fft_twiddle_2..32`, the accumulation of `fft_twiddle_gen1`, and `fft_aux`. Only the index walk of `fft_twiddle_gen1` is modelled.
- Fft.UnshuffleRadix: the straight-line bodies of `fft_unshuffle_4..32` are modelled as a loop of r/2 identical pair steps, the form they unroll.
- `block_lu`, `block_upper_solve`, `aux_upper_solve`, `upper_solve`, `lu` and `test_result` in cilk5/lu.c are not modelled. They divide by pivots, and their specification holds only over a field with non-zero pivots, up to a floating-point tolerance.
- Concurrency: spawns, syncs and `cilk_for` run sequentially. `process_image_cilk_for` is modelled with its rows in an arbitrary order; interleavings inside a row are not modelled.
- Strassen.OptimizedStrassen: the scratch heap is eleven fresh arrays, not one block carved up with the 32-byte re-alignment. Pointer arithmetic in bytes (`PTR`, `<< 3`) becomes element indices.
- Strassen.Rand.CilkRand: RAND_MAX is a parameter below 2^31, because it comes from the C library; 32767 is only the fallback.
- Strassen.MainAcceptsSize: the `int` size is taken to be non-negative.
- NQueens.Ok: queens are unbounded integers, not `char`. `main` accepts any n, and for n >= 128 the store `b[j] = i` puts a column into a (signed) `char` that cannot hold it, so the model diverges from the program there. The search is exponential in n, so a run of that size would not finish in any case.
- NQueens: of the reference values in the comment, only n = 4 is proved. The larger ones are beyond what the verifier can unfold.
- AveragingFilter.RoundUp: `size_t` overflow of size + alignment - 1 is not modelled.
- AveragingFilter.ProcessImageSerial: the image and the output must be different buffers (the source marks the padded buffers `__restrict`). The `rgb` struct becomes three byte channels.
- The BMP reading and writing of `read_process_write`, and all timing, option parsing, printing, `main` and `usage` functions, are not modelled.
- intel/BlackScholes_12_17_14/src/main.cpp is not part of this model. It generates random floats, prints, and calls code that is not available.
- DctMatrix.MatrixSerial.Transpose: the output must be a different matrix from the receiver; transposing in place would read entries it has already overwritten.
- DctMatrix.MatrixSerial.Assign: the receiver's buffer must hold temp.row_size squared entries, which the source assumes without checking.
- DctMatrix.MatrixSerial.Multiply: the receiver's buffer must hold y.row_size squared entries, which the source assumes without checking.
- The `matrix_serial` destructor frees memory and is not modelled. The commented-out `operator<<` is not code.

## Findings

| source | as written | input that shows it | evidently intended | confidence | as-written member | corrected member |
|---|---|---|---|---|---|---|
| cilk5/strassen.c:440-441 | the macro `strassen(n, A, an, B, bn, C, cn)` expands to `OptimizedStrassenMultiply(C, A, B, n, cn, bn, an)`, which passes bn as A's row width and an as B's | an = 16, bn = 17, A[1][0] = 1, B[0][0] = 1, all other entries 0: entry (1, 0) of the result is 0 instead of 1. The only call (line 823) has an == bn == n, so the program's own run is not affected | `OptimizedStrassenMultiply(C, A, B, n, cn, an, bn)` | not executed | Strassen.StrassenMacroAsWritten, Strassen.SwappedRowWidths | Strassen.StrassenMacro |
