// The 3x3 box filter of the averaging-filter sample: the image is copied
// into a buffer with a one-pixel border of black, every interior pixel of
// that buffer is replaced, channel by channel, by the integer mean of its
// 3x3 neighbourhood, and the interior is copied back out.
// Padded row R, column C lives at index R * (w + 2) + C of a padded buffer;
// image row r, column c at index r * w + c of an image.

module AveragingFilter {
  import opened Arith

  newtype byte = x: int | 0 <= x < 256

  /** One 24-bit pixel. */
  datatype Rgb = Rgb(blue: byte, green: byte, red: byte)

  const Black := Rgb(0, 0, 0)

  /** The allocation alignment of the padded buffers, in bytes. */
  const Alignment := 32

  /** round_up: the size rounded up to the next multiple of the alignment. */
  function RoundUp(size: nat, alignment: nat): (r: nat)
    requires alignment > 0
    ensures r % alignment == 0
    ensures size <= r < size + alignment
  {
    RoundUpBounds(size, alignment, (size + alignment - 1) / alignment);
    ((size + alignment - 1) / alignment) * alignment
  }

  lemma RoundUpBounds(size: nat, alignment: nat, q: int)
    requires alignment > 0 && q == (size + alignment - 1) / alignment
    ensures q >= 0 && (q * alignment) % alignment == 0
    ensures size <= q * alignment < size + alignment
  {
    var n := size + alignment - 1;
    assert n == q * alignment + n % alignment;
    DivMod(q, alignment, 0);
  }

  /** Any multiple of the alignment that holds size bytes is at least
      round_up(size): round_up is the least such multiple. */
  lemma RoundUpLeast(size: nat, alignment: nat, m: nat)
    requires alignment > 0 && m % alignment == 0 && size <= m
    ensures RoundUp(size, alignment) <= m
  {
    var r := RoundUp(size, alignment);
    var a, b := m / alignment, r / alignment;
    assert m == a * alignment && r == b * alignment;
    assert (a + 1) * alignment == m + alignment;
    if b > a {
      MulMonotone(a + 1, b, alignment);
    }
    MulMonotone(b, a, alignment);
  }

  datatype Channel = Blue | Green | Red

  function Get(p: Rgb, ch: Channel): int
  {
    match ch
    case Blue => p.blue as int
    case Green => p.green as int
    case Red => p.red as int
  }

  // ---------------------------------------------------------------------
  // What the filter computes

  /** A w by h image stored row-major: pixel (r, c) at RowMajor(w, r, c),
      which is r * w + c. */
  predicate IsImage(img: seq<Rgb>, w: int, h: int)
  {
    0 <= w && 0 <= h && RowMajor(w, h, 0) <= |img|
  }

  /** The padded image: pixel (R, C) of the (w+2) by (h+2) buffer is image
      pixel (R-1, C-1) inside the border and black on it. */
  function Px(img: seq<Rgb>, w: int, h: int, R: int, C: int): Rgb
    requires IsImage(img, w, h)
  {
    if 1 <= R <= h && 1 <= C <= w then
      RowMajorInside(w, h, R - 1, C - 1);
      img[RowMajor(w, R - 1, C - 1)]
    else
      Black
  }

  /** The channel sum of the first m of the pixels (R, C-1), (R, C), (R, C+1). */
  function RowSum(img: seq<Rgb>, w: int, h: int, R: int, C: int, ch: Channel, m: nat): (s: int)
    requires IsImage(img, w, h) && m <= 3
    ensures 0 <= s <= 255 * m
  {
    if m == 0 then 0 else RowSum(img, w, h, R, C, ch, m - 1) + Get(Px(img, w, h, R, C - 2 + m), ch)
  }

  /** The channel sum over the first m rows R-1, R, R+1 of the 3x3
      neighbourhood of (R, C). */
  function BoxSum(img: seq<Rgb>, w: int, h: int, R: int, C: int, ch: Channel, m: nat): (s: int)
    requires IsImage(img, w, h) && m <= 3
    ensures 0 <= s <= 765 * m
  {
    if m == 0 then 0 else BoxSum(img, w, h, R, C, ch, m - 1) + RowSum(img, w, h, R - 2 + m, C, ch, 3)
  }

  /** The mean of the 3x3 neighbourhood of padded pixel (R, C), rounded
      down; it never exceeds 255, so it fits back into a byte. */
  function Mean(img: seq<Rgb>, w: int, h: int, R: int, C: int, ch: Channel): (v: byte)
    requires IsImage(img, w, h)
    ensures v as int * 9 <= BoxSum(img, w, h, R, C, ch, 3) < v as int * 9 + 9
  {
    (BoxSum(img, w, h, R, C, ch, 3) / 9) as byte
  }

  /** The filtered value of padded pixel (R, C), which is image pixel
      (R-1, C-1). */
  function Filtered(img: seq<Rgb>, w: int, h: int, R: int, C: int): Rgb
    requires IsImage(img, w, h)
  {
    Rgb(Mean(img, w, h, R, C, Blue), Mean(img, w, h, R, C, Green), Mean(img, w, h, R, C, Red))
  }

  /** The address of padded pixel (R, C) in a buffer of rows of w + 2. */
  function PadAt(w: nat, R: nat, C: int): int
  {
    RowMajor(w + 2, R, C)
  }

  /** Every pixel of the w by h image is v. */
  predicate Uniform(img: seq<Rgb>, w: int, h: int, v: Rgb)
    requires IsImage(img, w, h)
  {
    forall R, C :: 1 <= R <= h && 1 <= C <= w ==> Px(img, w, h, R, C) == v
  }

  /** On an image of one colour, a pixel whose whole neighbourhood lies in
      the image keeps its colour: averaging is exact there. */
  lemma UniformInterior(img: seq<Rgb>, w: int, h: int, v: Rgb, R: int, C: int)
    requires IsImage(img, w, h) && Uniform(img, w, h, v)
    requires 2 <= R <= h - 1 && 2 <= C <= w - 1
    ensures Filtered(img, w, h, R, C) == v
  {
    forall ch: Channel
      ensures BoxSum(img, w, h, R, C, ch, 3) == 9 * Get(v, ch)
    {
      UniformRow(img, w, h, v, R - 1, C, ch);
      UniformRow(img, w, h, v, R, C, ch);
      UniformRow(img, w, h, v, R + 1, C, ch);
      assert BoxSum(img, w, h, R, C, ch, 1) == 3 * Get(v, ch);
      assert BoxSum(img, w, h, R, C, ch, 2) == 6 * Get(v, ch);
    }
  }

  lemma UniformRow(img: seq<Rgb>, w: int, h: int, v: Rgb, R: int, C: int, ch: Channel)
    requires IsImage(img, w, h) && Uniform(img, w, h, v)
    requires 1 <= R <= h && 2 <= C <= w - 1
    ensures RowSum(img, w, h, R, C, ch, 3) == 3 * Get(v, ch)
  {
    assert Px(img, w, h, R, C - 1) == v && Px(img, w, h, R, C) == v && Px(img, w, h, R, C + 1) == v;
    assert RowSum(img, w, h, R, C, ch, 1) == Get(v, ch);
    assert RowSum(img, w, h, R, C, ch, 2) == 2 * Get(v, ch);
  }

  /** A padded buffer holding the padded image. */
  ghost predicate Padded(pad: seq<Rgb>, img: seq<Rgb>, w: int, h: int)
    requires IsImage(img, w, h)
  {
    PaddedUpTo(pad, img, w, h, h)
  }

  /** A padded buffer whose rows 1..k hold the image and which is black
      everywhere else. */
  ghost predicate PaddedUpTo(pad: seq<Rgb>, img: seq<Rgb>, w: int, h: int, k: int)
    requires IsImage(img, w, h)
  {
    |pad| == PadAt(w, h + 2, 0) &&
    forall R: nat, C :: R < h + 2 && 0 <= C < w + 2 ==>
      PadAt(w, R, C) < |pad| &&
      pad[PadAt(w, R, C)] == if R <= k then Px(img, w, h, R, C) else Black
  }

  /** Padded row R holds the filtered image row R - 1 in columns 1..w. */
  ghost predicate RowFiltered(pad: seq<Rgb>, img: seq<Rgb>, w: int, h: int, R: int)
    requires IsImage(img, w, h)
  {
    1 <= R <= h &&
    forall C :: 1 <= C <= w ==>
      PadAt(w, R, C) < |pad| && pad[PadAt(w, R, C)] == Filtered(img, w, h, R, C)
  }

  /** Rows 0..k-1 of out hold the filtered image. */
  ghost predicate FilteredUpTo(out: seq<Rgb>, img: seq<Rgb>, w: int, h: int, k: int)
    requires IsImage(img, w, h)
  {
    forall r: nat, c :: r < k && r < h && 0 <= c < w ==>
      RowMajor(w, r, c) < |out| && out[RowMajor(w, r, c)] == Filtered(img, w, h, r + 1, c + 1)
  }

  /** out holds the filtered w by h image. */
  ghost predicate FilteredImage(out: seq<Rgb>, img: seq<Rgb>, w: int, h: int)
    requires IsImage(img, w, h)
  {
    FilteredUpTo(out, img, w, h, h)
  }

  // ---------------------------------------------------------------------
  // The filter

  /** Allocates the zeroed padded buffer and copies the image into its
      interior row by row. */
  method PadImage(img: array<Rgb>, w: int, h: int) returns (pad: array<Rgb>)
    requires IsImage(img[..], w, h)
    ensures fresh(pad)
    ensures Padded(pad[..], img[..], w, h)
  {
    pad := new Rgb[PadAt(w, h + 2, 0)](_ => Black);
    GridBounds(w + 2, h + 2);
    for i := 0 to h
      invariant PaddedUpTo(pad[..], img[..], w, h, i)
    {
      CopyRowIn(img, pad, w, h, i);
    }
  }

  /** The memcpy of image row i into padded row i + 1, columns 1..w. */
  method CopyRowIn(img: array<Rgb>, pad: array<Rgb>, w: int, h: int, i: int)
    requires IsImage(img[..], w, h) && 0 <= i < h && pad != img
    requires PaddedUpTo(pad[..], img[..], w, h, i)
    modifies pad
    ensures PaddedUpTo(pad[..], img[..], w, h, i + 1)
  {
    var rw := w + 2;
    var dst := PadAt(w, i + 1, 1);
    var src := RowMajor(w, i, 0);
    RowStart(w, h, i);
    RowMajorInside(rw, h + 2, i + 1, w);
    RowMajorColumn(rw, i + 1, 1);
    RowMajorColumn(rw, i + 1, w);
    ghost var before := pad[..];
    ghost var image := img[..];
    forall c | 0 <= c < w {
      pad[dst + c] := img[src + c];
    }
    assert img[..] == image;
    forall p | dst <= p < dst + w
      ensures pad[..][p] == img[..][p - dst + src]
    {
      assert pad[dst + (p - dst)] == img[src + (p - dst)];
    }
    RowCopiedIn(pad[..], before, img[..], w, h, i, dst, src);
  }

  /** Copying image row i into padded row i + 1, columns 1..w, and nothing
      else, extends the padding by one row. */
  lemma RowCopiedIn(after: seq<Rgb>, before: seq<Rgb>, img: seq<Rgb>, w: int, h: int, i: int, dst: int, src: int)
    requires IsImage(img, w, h) && 0 <= i < h
    requires PaddedUpTo(before, img, w, h, i) && |after| == |before|
    requires dst == PadAt(w, i + 1, 1) && src == RowMajor(w, i, 0)
    requires 0 <= dst && dst + w <= |after| && 0 <= src && src + w <= |img|
    requires forall p :: dst <= p < dst + w ==> after[p] == img[p - dst + src]
    requires forall p :: 0 <= p < |after| && !(dst <= p < dst + w) ==> after[p] == before[p]
    ensures PaddedUpTo(after, img, w, h, i + 1)
  {
    var rw := w + 2;
    forall R: nat, C | R < h + 2 && 0 <= C < rw
      ensures PadAt(w, R, C) < |after| &&
        after[PadAt(w, R, C)] == if R <= i + 1 then Px(img, w, h, R, C) else Black
    {
      PadCell(rw, w, h, R, C, i);
      if R == i + 1 && 1 <= C <= w {
        RowMajorColumn(w, i, C - 1);
        var p := dst + (C - 1);
        assert dst <= p < dst + w;
        assert after[p] == img[p - dst + src];
      } else {
        assert after[PadAt(w, R, C)] == before[PadAt(w, R, C)];
      }
    }
  }

  /** Row i of a w by h image occupies addresses i*w .. i*w + w - 1. */
  lemma RowStart(w: nat, h: int, i: nat)
    requires i < h
    ensures forall c :: 0 <= c < w ==> RowMajor(w, i, 0) + c == RowMajor(w, i, c)
    ensures RowMajor(w, i, 0) + w <= RowMajor(w, h, 0)
  {
    forall c | 0 <= c < w
      ensures RowMajor(w, i, 0) + c == RowMajor(w, i, c)
    {
      RowMajorColumn(w, i, c);
    }
    RowMajorIs(w, i + 1, 0);
    RowMajorIs(w, h, 0);
    MulMonotone(i + 1, h, w);
  }

  /** Where padded cell (R, C) lies relative to the interior of padded
      row i + 1. */
  lemma PadCell(rw: nat, w: int, h: int, R: nat, C: int, i: nat)
    requires rw == w + 2 && 0 <= w && i < h && R < h + 2 && 0 <= C < rw
    ensures 0 <= RowMajor(rw, R, C) < RowMajor(rw, h + 2, 0)
    ensures R == i + 1 && 1 <= C <= w ==> RowMajor(rw, R, C) == RowMajor(rw, i + 1, 1) + (C - 1)
    ensures !(R == i + 1 && 1 <= C <= w) ==> !(RowMajor(rw, i + 1, 1) <= RowMajor(rw, R, C) < RowMajor(rw, i + 1, 1) + w)
  {
    RowMajorInside(rw, h + 2, R, C);
    RowMajorColumn(rw, i + 1, 1);
    RowMajorColumn(rw, R, C);
    var p := RowMajor(rw, R, C);
    if RowMajor(rw, i + 1, 1) <= p < RowMajor(rw, i + 1, 1) + w {
      RowMajorColumn(rw, i + 1, p - RowMajor(rw, i + 1, 0));
      RowMajorUnique(rw, R, C, i + 1, p - RowMajor(rw, i + 1, 0));
    }
  }

  /** The three accumulations over the 3x3 neighbourhood of the interior
      pixel (i, C), at address j of the padded input, and the division of
      each channel sum by 9. */
  method Average(padIn: array<Rgb>, ghost img: seq<Rgb>, w: int, h: int, i: int, C: int, j: int) returns (px: Rgb)
    requires IsImage(img, w, h) && Padded(padIn[..], img, w, h)
    requires 1 <= i <= h && 1 <= C <= w && j == PadAt(w, i, C)
    ensures px == Filtered(img, w, h, i, C)
  {
    var red, green, blue := 0, 0, 0;
    for k1 := -1 to 2
      invariant red == BoxSum(img, w, h, i, C, Red, k1 + 1)
      invariant green == BoxSum(img, w, h, i, C, Green, k1 + 1)
      invariant blue == BoxSum(img, w, h, i, C, Blue, k1 + 1)
    {
      var pos := j + (k1 * (w + 2));
      red, green, blue := AccumulateRow(padIn, img, w, h, i, C, j, k1, pos, red, green, blue);
    }
    px := Rgb((blue / 9) as byte, (green / 9) as byte, (red / 9) as byte);
  }

  /** The inner loop over k2: adds the three pixels of neighbourhood row
      i + k1, starting at pos - 1, to the channel sums. */
  method AccumulateRow(padIn: array<Rgb>, ghost img: seq<Rgb>, w: int, h: int, i: int, C: int, j: int, k1: int, pos: int,
                       red0: int, green0: int, blue0: int) returns (red: int, green: int, blue: int)
    requires IsImage(img, w, h) && Padded(padIn[..], img, w, h)
    requires 1 <= i <= h && 1 <= C <= w && j == PadAt(w, i, C) && -1 <= k1 <= 1 && pos == j + k1 * (w + 2)
    ensures red == red0 + RowSum(img, w, h, i + k1, C, Red, 3)
    ensures green == green0 + RowSum(img, w, h, i + k1, C, Green, 3)
    ensures blue == blue0 + RowSum(img, w, h, i + k1, C, Blue, 3)
  {
    red, green, blue := red0, green0, blue0;
    for k2 := -1 to 2
      invariant red == red0 + RowSum(img, w, h, i + k1, C, Red, k2 + 1)
      invariant green == green0 + RowSum(img, w, h, i + k1, C, Green, k2 + 1)
      invariant blue == blue0 + RowSum(img, w, h, i + k1, C, Blue, k2 + 1)
    {
      NeighbourIndex(w + 2, h, i, C, k1, k2, j, pos);
      var p := padIn[pos + k2];
      assert p == Px(img, w, h, i + k1, C + k2);
      red := red + p.red as int;
      green := green + p.green as int;
      blue := blue + p.blue as int;
    }
  }

  /** The neighbour (i + k1, C + k2) of the interior pixel (i, C) at address
      j is inside the padded buffer at pos + k2, where pos = j + k1 * rw. */
  lemma NeighbourIndex(rw: nat, h: int, i: nat, C: int, k1: int, k2: int, j: int, pos: int)
    requires 1 <= i <= h && 1 <= C <= rw - 2 && -1 <= k1 <= 1 && -1 <= k2 <= 1
    requires j == RowMajor(rw, i, C) && pos == j + k1 * rw
    ensures 0 <= i + k1 && pos + k2 == RowMajor(rw, i + k1, C + k2)
    ensures 0 <= pos + k2 < RowMajor(rw, h + 2, 0)
  {
    RowMajorInside(rw, h + 2, i + k1, C + k2);
    RowMajorColumn(rw, i, C);
    RowMajorColumn(rw, i + k1, C + k2);
    if k1 == -1 {
      assert k1 * rw + rw == 0;
      RowStep(rw, i - 1);
    } else if k1 == 0 {
      assert k1 * rw == 0;
    } else {
      assert k1 * rw == rw;
      RowStep(rw, i);
    }
  }

  /** The next row starts rw addresses further on. */
  lemma RowStep(rw: nat, r: nat)
    ensures RowMajor(rw, r + 1, 0) == RowMajor(rw, r, 0) + rw
  {
  }

  /** The filtering loop for padded row i: every pixel of columns 1..w of
      the row gets the mean of its neighbourhood in the padded input;
      nothing else in the output buffer changes. */
  method FilterRow(padIn: array<Rgb>, padOut: array<Rgb>, ghost img: seq<Rgb>, w: int, h: int, i: int)
    requires IsImage(img, w, h) && Padded(padIn[..], img, w, h)
    requires padOut.Length == padIn.Length && padOut != padIn
    requires 1 <= i <= h
    modifies padOut
    ensures RowFiltered(padOut[..], img, w, h, i)
    ensures forall p :: 0 <= p < padOut.Length && !(PadAt(w, i, 1) <= p < PadAt(w, i, 1) + w) ==>
      padOut[p] == old(padOut[p])
  {
    var rw := w + 2;
    var x := PadAt(w, i, 1);
    RowMajorInside(rw, h + 2, i, w + 1);
    RowMajorColumn(rw, i, 1);
    RowMajorColumn(rw, i, w + 1);
    for j := x to x + w
      invariant RowFilteredUpTo(padOut[..], img, w, h, i, j - x)
      invariant forall p :: 0 <= p < padOut.Length && !(x <= p < j) ==> padOut[p] == old(padOut[p])
    {
      RowMajorColumn(rw, i, j - x + 1);
      var px := Average(padIn, img, w, h, i, j - x + 1, j);
      ghost var before := padOut[..];
      padOut[j] := px;
      FilterStep(padOut[..], before, img, w, h, i, j - x);
    }
  }

  /** Columns 1..n of padded row i hold the filtered image. */
  ghost predicate RowFilteredUpTo(pad: seq<Rgb>, img: seq<Rgb>, w: int, h: int, i: int, n: int)
    requires IsImage(img, w, h)
  {
    1 <= i <= h &&
    forall C :: 1 <= C <= n ==>
      PadAt(w, i, C) < |pad| && pad[PadAt(w, i, C)] == Filtered(img, w, h, i, C)
  }

  /** Storing the mean for column n + 1 extends the filtered part of the
      row by one column and disturbs none of the earlier ones. */
  lemma FilterStep(after: seq<Rgb>, before: seq<Rgb>, img: seq<Rgb>, w: int, h: int, i: int, n: int)
    requires IsImage(img, w, h) && 1 <= i <= h && 0 <= n < w
    requires RowFilteredUpTo(before, img, w, h, i, n)
    requires PadAt(w, i, n + 1) < |before|
    requires after == before[PadAt(w, i, n + 1) := Filtered(img, w, h, i, n + 1)]
    ensures RowFilteredUpTo(after, img, w, h, i, n + 1)
  {
    forall C | 1 <= C <= n
      ensures PadAt(w, i, C) < PadAt(w, i, n + 1)
    {
      RowMajorColumn(w + 2, i, C);
      RowMajorColumn(w + 2, i, n + 1);
    }
  }

  /** A row filtered before the filtering of padded row i stays filtered. */
  lemma RowKept(after: seq<Rgb>, before: seq<Rgb>, img: seq<Rgb>, w: int, h: int, i: nat, R: nat)
    requires IsImage(img, w, h) && |after| == |before| && 1 <= i <= h && R != i
    requires RowFiltered(before, img, w, h, R)
    requires forall p :: 0 <= p < |after| && !(PadAt(w, i, 1) <= p < PadAt(w, i, 1) + w) ==> after[p] == before[p]
    ensures RowFiltered(after, img, w, h, R)
  {
    var rw := w + 2;
    forall C | 1 <= C <= w
      ensures PadAt(w, R, C) < |after| && after[PadAt(w, R, C)] == Filtered(img, w, h, R, C)
    {
      PadCell(rw, w, h, R, C, i - 1);
    }
  }

  /** Copies columns 1..w of padded rows 1..h into the w by h output. */
  method CopyOut(padOut: array<Rgb>, out: array<Rgb>, ghost img: seq<Rgb>, w: int, h: int)
    requires IsImage(img, w, h) && RowMajor(w, h, 0) <= out.Length && out != padOut
    requires forall R :: 1 <= R <= h ==> RowFiltered(padOut[..], img, w, h, R)
    modifies out
    ensures FilteredImage(out[..], img, w, h)
    ensures forall p :: RowMajor(w, h, 0) <= p < out.Length ==> out[p] == old(out[p])
  {
    for i := 0 to h
      invariant FilteredUpTo(out[..], img, w, h, i)
      invariant forall p :: RowMajor(w, i, 0) <= p < out.Length ==> out[p] == old(out[p])
    {
      CopyRowOut(padOut, out, img, w, h, i);
    }
  }

  /** The memcpy of padded row i + 1, columns 1..w, into output row i. */
  method CopyRowOut(padOut: array<Rgb>, out: array<Rgb>, ghost img: seq<Rgb>, w: int, h: int, i: int)
    requires IsImage(img, w, h) && RowMajor(w, h, 0) <= out.Length && out != padOut && 0 <= i < h
    requires RowFiltered(padOut[..], img, w, h, i + 1)
    requires FilteredUpTo(out[..], img, w, h, i)
    modifies out
    ensures FilteredUpTo(out[..], img, w, h, i + 1)
    ensures forall p :: 0 <= p < out.Length && !(RowMajor(w, i, 0) <= p < RowMajor(w, i, 0) + w) ==> out[p] == old(out[p])
  {
    var dst := RowMajor(w, i, 0);
    var src := PadAt(w, i + 1, 1);
    RowStart(w, h, i);
    var rw := w + 2;
    if w > 0 {
      assert PadAt(w, i + 1, w) < padOut.Length;
      RowMajorColumn(rw, i + 1, 1);
      RowMajorColumn(rw, i + 1, w);
    }
    ghost var before := out[..];
    forall c | 0 <= c < w {
      out[dst + c] := padOut[src + c];
    }
    forall p | dst <= p < dst + w
      ensures out[..][p] == padOut[..][p - dst + src]
    {
      assert out[dst + (p - dst)] == padOut[src + (p - dst)];
    }
    RowCopiedOut(out[..], before, padOut[..], img, w, h, i, dst, src);
  }

  /** Copying padded row i + 1, columns 1..w, into output row i, and
      nothing else, extends the filtered output by one row. */
  lemma RowCopiedOut(after: seq<Rgb>, before: seq<Rgb>, pad: seq<Rgb>, img: seq<Rgb>,
                     w: int, h: int, i: int, dst: int, src: int)
    requires IsImage(img, w, h) && 0 <= i < h && RowMajor(w, h, 0) <= |before| == |after|
    requires RowFiltered(pad, img, w, h, i + 1) && FilteredUpTo(before, img, w, h, i)
    requires dst == RowMajor(w, i, 0) && src == PadAt(w, i + 1, 1)
    requires 0 <= dst && dst + w <= |after| && 0 <= src && (w > 0 ==> src + w <= |pad|)
    requires forall p :: dst <= p < dst + w ==> after[p] == pad[p - dst + src]
    requires forall p :: 0 <= p < |after| && !(dst <= p < dst + w) ==> after[p] == before[p]
    ensures FilteredUpTo(after, img, w, h, i + 1)
  {
    forall r: nat, c | r < i + 1 && r < h && 0 <= c < w
      ensures RowMajor(w, r, c) < |after| && after[RowMajor(w, r, c)] == Filtered(img, w, h, r + 1, c + 1)
    {
      OutCell(w, h, r, c, i);
      if r == i {
        RowMajorColumn(w + 2, i + 1, c + 1);
        RowMajorColumn(w + 2, i + 1, 1);
        var p := dst + c;
        assert dst <= p < dst + w;
        assert after[p] == pad[p - dst + src];
      }
    }
  }

  /** Output cell (r, c) lies before row i when r < i and at column c of
      row i when r == i. */
  lemma OutCell(w: nat, h: int, r: nat, c: int, i: nat)
    requires 0 <= c < w && r <= i < h
    ensures 0 <= RowMajor(w, r, c) < RowMajor(w, h, 0)
    ensures r < i ==> RowMajor(w, r, c) < RowMajor(w, i, 0)
    ensures r == i ==> RowMajor(w, r, c) == RowMajor(w, i, 0) + c
  {
    RowMajorInside(w, h, r, c);
    RowMajorColumn(w, r, c);
    if r < i {
      RowMajorInside(w, i, r, c);
    }
  }

  /** process_image_serial: pads the image, filters padded rows 1..h in
      order and copies the interior into out. */
  method ProcessImageSerial(img: array<Rgb>, out: array<Rgb>, w: int, h: int)
    requires IsImage(img[..], w, h) && RowMajor(w, h, 0) <= out.Length && img != out
    modifies out
    ensures FilteredImage(out[..], img[..], w, h)
    ensures forall p :: RowMajor(w, h, 0) <= p < out.Length ==> out[p] == old(out[p])
  {
    var padIn := PadImage(img, w, h);
    var padOut := new Rgb[PadAt(w, h + 2, 0)](_ => Black);
    for i := 1 to h + 1
      invariant Padded(padIn[..], img[..], w, h) && unchanged(out)
      invariant forall R :: 1 <= R < i ==> RowFiltered(padOut[..], img[..], w, h, R)
    {
      ghost var before := padOut[..];
      FilterRow(padIn, padOut, img[..], w, h, i);
      forall R | 1 <= R < i
        ensures RowFiltered(padOut[..], img[..], w, h, R)
      {
        RowKept(padOut[..], before, img[..], w, h, i, R);
      }
    }
    CopyOut(padOut, out, img[..], w, h);
  }

  /** process_image_cilk_for: the same filter with the iterations of the
      row loop run in parallel. Here the rows are filtered in an arbitrary
      order, each row at least once; every such schedule yields exactly the
      output of the serial filter. */
  method ProcessImageCilkFor(img: array<Rgb>, out: array<Rgb>, w: int, h: int, order: seq<int>)
    requires IsImage(img[..], w, h) && RowMajor(w, h, 0) <= out.Length && img != out
    requires forall t :: 0 <= t < |order| ==> 1 <= order[t] <= h
    requires forall R :: 1 <= R <= h ==> R in order
    modifies out
    ensures FilteredImage(out[..], img[..], w, h)
    ensures forall p :: RowMajor(w, h, 0) <= p < out.Length ==> out[p] == old(out[p])
  {
    var padIn := PadImage(img, w, h);
    var padOut := new Rgb[PadAt(w, h + 2, 0)](_ => Black);
    for t := 0 to |order|
      invariant Padded(padIn[..], img[..], w, h) && unchanged(out)
      invariant forall s :: 0 <= s < t ==> RowFiltered(padOut[..], img[..], w, h, order[s])
    {
      ghost var before := padOut[..];
      FilterRow(padIn, padOut, img[..], w, h, order[t]);
      forall s | 0 <= s < t && order[s] != order[t]
        ensures RowFiltered(padOut[..], img[..], w, h, order[s])
      {
        RowKept(padOut[..], before, img[..], w, h, order[t], order[s]);
      }
    }
    forall R | 1 <= R <= h
      ensures RowFiltered(padOut[..], img[..], w, h, R)
    {
      assert R in order;
      var s :| 0 <= s < |order| && order[s] == R;
    }
    CopyOut(padOut, out, img[..], w, h);
  }
}
