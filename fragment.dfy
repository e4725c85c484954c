/** The "filter-kernel" case that demo/script/paintbrush-0.2-kernel.js keeps
    as an alternative to v0.2's applyMatrix: a fixed 3x3 kernel, normalized,
    applied by an unrolled nine-term sum whose upper and lower rows are
    found from two offsets, and blended into the pixel by kernelAmount. The
    fragment names, but does not define, the pixel loop around it: index,
    imgWidth, thisPixel and params.kernelAmount are parameters here. */
module KernelFragment {
  import opened Pixels
  import opened Color
  import opened Kernel
  import opened Convolution

  /** The kernel the fragment uses: a sharpen whose weights sum to 1. */
  const FragmentKernel: seq<real> := [0.0, -1.0, 0.0, -1.0, 5.0, -1.0, 0.0, -1.0, 0.0]

  /** normalizeMatrix leaves the fragment's kernel as it is. */
  lemma FragmentKernelUnchanged()
    ensures Sum(FragmentKernel) == 1.0
    ensures Normalized(FragmentKernel) == FragmentKernel
  {
    SumOfNine(FragmentKernel);
    NormalizeKeepsUnitSum(FragmentKernel);
  }

  /** The two row offsets as the fragment computes them. */
  function PrevRow(index: int, imgWidth: int): int
  {
    index - (imgWidth - 1) * 4
  }

  function NextRow(index: int, imgWidth: int): int
  {
    index + (imgWidth + 1) * 4
  }

  /** The nine entries applyMatrix reads, in the order of the weights they
      are multiplied by. */
  function Taps(index: int, prevRow: int, nextRow: int): (t: seq<int>)
    ensures |t| == 9
    ensures t[1] == prevRow && t[4] == index && t[7] == nextRow
  {
    [prevRow - 4, prevRow, prevRow + 4, index - 4, index, index + 4, nextRow - 4, nextRow, nextRow + 4]
  }

  predicate InBuffer(data: seq<int>, k: int)
  {
    0 <= k < |data|
  }

  /** The nine samples at t, each times its weight, added up in applyMatrix's order. */
  function NineTerms(data: seq<int>, matrix: seq<real>, t: seq<int>): real
    requires |matrix| == 9 && |t| == 9 && forall k :: 0 <= k < |t| ==> 0 <= t[k] < |data|
  {
    Weighted(data[t[0]], matrix[0]) + Weighted(data[t[1]], matrix[1]) + Weighted(data[t[2]], matrix[2]) +
    Weighted(data[t[3]], matrix[3]) + Weighted(data[t[4]], matrix[4]) + Weighted(data[t[5]], matrix[5]) +
    Weighted(data[t[6]], matrix[6]) + Weighted(data[t[7]], matrix[7]) + Weighted(data[t[8]], matrix[8])
  }

  /** applyMatrix: the nine weighted samples added up, or None when one of
      them lies outside the array (JavaScript reads undefined there, and the
      sum is NaN). */
  function ApplyMatrixF(data: seq<int>, matrix: seq<real>, index: int, prevRow: int, nextRow: int): (r: Option<real>)
    requires |matrix| == 9
    ensures r.Some? <==> forall k :: 0 <= k < 9 ==> InBuffer(data, Taps(index, prevRow, nextRow)[k])
  {
    var t := Taps(index, prevRow, nextRow);
    if forall k :: 0 <= k < 9 ==> InBuffer(data, t[k]) then Some(NineTerms(data, matrix, t)) else None
  }

  /** One channel of the result: the sum blended into the pixel's own value;
      a NaN sum reaches the buffer as NaN, which it stores as 0. */
  function Blended(sum: Option<real>, kernelAmount: real, own: int): real
  {
    match sum
    case None => 0.0
    case Some(v) => FindColorDifference(kernelAmount, v, own as real)
  }

  /** What the case hands to setRGB, as written: all three channels use the
      row offsets computed from the red entry. */
  function FragmentTriple(data: seq<int>, matrix: seq<real>, index: int, imgWidth: int, thisPixel: Pixel, kernelAmount: real): (t: Triple)
    requires |matrix| == 9
  {
    var prevRow, nextRow := PrevRow(index, imgWidth), NextRow(index, imgWidth);
    Triple(Blended(ApplyMatrixF(data, matrix, index, prevRow, nextRow), kernelAmount, thisPixel.r),
           Blended(ApplyMatrixF(data, matrix, index + 1, prevRow, nextRow), kernelAmount, thisPixel.g),
           Blended(ApplyMatrixF(data, matrix, index + 2, prevRow, nextRow), kernelAmount, thisPixel.b))
  }

  /** The "filter-kernel" case: build and normalize the kernel, apply it to
      R, G and B, and write the blended values with setRGB. */
  method KernelCase(data: array<int>, index: nat, imgWidth: int, thisPixel: Pixel, kernelAmount: real, store: real -> int)
    requires index + 2 < data.Length
    modifies data
    ensures data[..] == WithRGB(old(data[..]), index, Some(FragmentTriple(old(data[..]), FragmentKernel, index, imgWidth, thisPixel, kernelAmount)), store)
  {
    var matrix := new real[9] [0.0, -1.0, 0.0, -1.0, 5.0, -1.0, 0.0, -1.0, 0.0];
    assert matrix[..] == FragmentKernel;
    FragmentKernelUnchanged();
    NormalizeMatrix(matrix);
    var m := matrix[..];
    var prevRow := PrevRow(index, imgWidth);
    var nextRow := NextRow(index, imgWidth);
    var tempR := ApplyMatrixF(data[..], m, index, prevRow, nextRow);
    var tempG := ApplyMatrixF(data[..], m, index + 1, prevRow, nextRow);
    var tempB := ApplyMatrixF(data[..], m, index + 2, prevRow, nextRow);
    SetRGB(data, index, Blended(tempR, kernelAmount, thisPixel.r), Blended(tempG, kernelAmount, thisPixel.g),
           Blended(tempB, kernelAmount, thisPixel.b), store);
  }

  /** As written, the offsets land one pixel to the right of the pixels
      directly above and below: the upper and lower samples are columns
      x, x + 1 and x + 2 instead of x - 1, x and x + 1. */
  lemma ShiftedRows(x: nat, y: nat, w: nat, c: nat)
    requires y >= 1
    ensures PrevRow(Entry(x, y, w, c), w) == Entry(x + 1, y - 1, w, c)
    ensures NextRow(Entry(x, y, w, c), w) == Entry(x + 1, y + 1, w, c)
  {
    assert (y - 1) * w == y * w - w;
    assert (y + 1) * w == y * w + w;
  }

  /** At the last interior pixel of a buffer the last sample lies past the
      end of the array, so every channel there is NaN. */
  lemma CornerOutside(data: seq<int>, matrix: seq<real>, w: nat, h: nat, c: nat)
    requires w >= 3 && h >= 3 && |data| == w * h * 4 && |matrix| == 9 && c < 3
    ensures var index := Entry(w - 2, h - 2, w, c);
      ApplyMatrixF(data, matrix, index, PrevRow(index, w), NextRow(index, w)) == None
  {
    var index := Entry(w - 2, h - 2, w, c);
    assert (h - 2) * w == h * w - 2 * w;
    assert NextRow(index, w) + 4 == Entry(0, h, w, c);
    assert Entry(0, h, w, c) == 4 * (h * w) + c;
    assert !InBuffer(data, Taps(index, PrevRow(index, w), NextRow(index, w))[8]);
  }

  /** As written, green and blue read their upper and lower samples from
      the red entries: the rows do not move with the channel. */
  lemma RowsStayRed(index: nat, imgWidth: int, c: nat)
    requires index % 4 == 0 && 0 < c < 3
    ensures var t := Taps(index + c, PrevRow(index, imgWidth), NextRow(index, imgWidth));
      t[4] % 4 == c && t[1] % 4 == 0 && t[7] % 4 == 0
  {
  }

  /** A 4-by-3 image whose only non-zero value is the red of pixel (2, 0). */
  function CornerImage(): (r: seq<int>)
    ensures |r| == 48
    ensures forall k :: 0 <= k < 48 ==> r[k] == if k == 8 then 10 else 0
  {
    seq(48, k => if k == 8 then 10 else 0)
  }

  /** At pixel (1, 1) of that image (entry 20) the sum, as written, picks
      the bright value up with weight -1, although pixel (2, 0) is a
      diagonal neighbour, which the kernel weighs 0. */
  lemma ShiftedWitness()
    ensures ApplyMatrixF(CornerImage(), FragmentKernel, 20, PrevRow(20, 4), NextRow(20, 4)) == Some(-10.0)
  {
    var data := CornerImage();
    assert PrevRow(20, 4) == 8 && NextRow(20, 4) == 40;
    assert Taps(20, 8, 40) == [4, 8, 12, 16, 20, 24, 36, 40, 44];
    assert data[8] == 10 && data[4] == 0 && data[12] == 0 && data[16] == 0 && data[20] == 0 && data[24] == 0 && data[36] == 0 && data[40] == 0 && data[44] == 0;
  }

  /** The corrected rows give 0 there. */
  lemma FixedWitness()
    ensures ApplyMatrixF(CornerImage(), FragmentKernel, 20, 20 - 4 * 4, 20 + 4 * 4) == Some(0.0)
  {
    var data := CornerImage();
    assert Taps(20, 4, 36) == [0, 4, 8, 16, 20, 24, 32, 36, 40];
    assert data[8] == 10 && data[0] == 0 && data[4] == 0 && data[16] == 0 && data[20] == 0 && data[24] == 0 && data[32] == 0 && data[36] == 0 && data[40] == 0;
  }

  /** One channel as evidently meant: the sum over channel c's own entries
      one row up and one row down, blended. */
  function FixedSum(data: seq<int>, matrix: seq<real>, index: int, imgWidth: int, own: int, kernelAmount: real): real
    requires |matrix| == 9
  {
    Blended(ApplyMatrixF(data, matrix, index, index - 4 * imgWidth, index + 4 * imgWidth), kernelAmount, own)
  }

  /** The corrected case's values for setRGB: every channel with its own rows. */
  function FixedTriple(data: seq<int>, matrix: seq<real>, index: int, imgWidth: int, thisPixel: Pixel, kernelAmount: real): Triple
    requires |matrix| == 9
  {
    Triple(FixedSum(data, matrix, index, imgWidth, thisPixel.r, kernelAmount),
           FixedSum(data, matrix, index + 1, imgWidth, thisPixel.g, kernelAmount),
           FixedSum(data, matrix, index + 2, imgWidth, thisPixel.b, kernelAmount))
  }

  /** The entries v0.3 samples around (x, y), in the order of the weights. */
  function ConvTaps(w: nat, h: nat, x: nat, y: nat, c: nat): (t: seq<int>)
    requires c < 3 && InteriorPixel(x, y, w, h)
    ensures |t| == 9 && forall k :: 0 <= k < 9 ==> 0 <= t[k] < w * h * 4
  {
    [TapEntry(w, h, x, y, c, 0, 0, false), TapEntry(w, h, x, y, c, 0, 1, false), TapEntry(w, h, x, y, c, 0, 2, false),
     TapEntry(w, h, x, y, c, 1, 0, false), TapEntry(w, h, x, y, c, 1, 1, false), TapEntry(w, h, x, y, c, 1, 2, false),
     TapEntry(w, h, x, y, c, 2, 0, false), TapEntry(w, h, x, y, c, 2, 1, false), TapEntry(w, h, x, y, c, 2, 2, false)]
  }

  /** With the corrected rows, the nine taps are the pixel's 3x3
      neighbourhood, weight (row, column) for the pixel that many rows and
      columns away. */
  lemma FixedTaps(w: nat, h: nat, x: nat, y: nat, c: nat, index: int)
    requires c < 3 && InteriorPixel(x, y, w, h) && index == Entry(x, y, w, c)
    ensures Taps(index, index - 4 * w, index + 4 * w) == ConvTaps(w, h, x, y, c)
  {
    assert index - 4 * w == Entry(x, y - 1, w, c) by {
      assert (y - 1) * w == y * w - w;
    }
    assert index + 4 * w == Entry(x, y + 1, w, c) by {
      assert (y + 1) * w == y * w + w;
    }
  }

  /** The nine terms over those taps are v0.3's convolution sum. */
  lemma NineTermsConv(data: seq<int>, w: nat, h: nat, matrix: seq<real>, x: nat, y: nat, c: nat)
    requires |data| == w * h * 4 && |matrix| == 9 && c < 3 && InteriorPixel(x, y, w, h)
    ensures NineTerms(data, matrix, ConvTaps(w, h, x, y, c)) == ConvSum(data, w, h, matrix, x, y, c, false)
  {
    ConvSumNine(data, w, h, matrix, x, y, c, false);
  }

  /** With those rows, applyMatrix computes the convolution v0.3's
      applyMatrix computes. */
  lemma FixedRowsConvolve(data: seq<int>, w: nat, h: nat, matrix: seq<real>, x: nat, y: nat, c: nat, index: int)
    requires |data| == w * h * 4 && |matrix| == 9 && c < 3 && InteriorPixel(x, y, w, h)
    requires index == Entry(x, y, w, c)
    ensures ApplyMatrixF(data, matrix, index, index - 4 * w, index + 4 * w) == Some(ConvSum(data, w, h, matrix, x, y, c, false))
  {
    FixedTaps(w, h, x, y, c, index);
    NineTermsConv(data, w, h, matrix, x, y, c);
  }

  /** One channel of the corrected case: the v0.3 convolution of that
      channel, blended by kernelAmount. */
  lemma FixedChannel(data: seq<int>, w: nat, h: nat, matrix: seq<real>, x: nat, y: nat, c: nat, index: int, kernelAmount: real, own: int)
    requires |data| == w * h * 4 && |matrix| == 9 && c < 3 && InteriorPixel(x, y, w, h)
    requires index == Entry(x, y, w, c)
    ensures FixedSum(data, matrix, index, w, own, kernelAmount) ==
      FindColorDifference(kernelAmount, ConvSum(data, w, h, matrix, x, y, c, false), own as real)
  {
    FixedRowsConvolve(data, w, h, matrix, x, y, c, index);
  }

  /** So the corrected case writes the v0.3 convolution of each channel,
      blended by kernelAmount. */
  lemma FixedTripleConvolves(data: seq<int>, w: nat, h: nat, matrix: seq<real>, x: nat, y: nat, thisPixel: Pixel, kernelAmount: real)
    requires |data| == w * h * 4 && |matrix| == 9 && InteriorPixel(x, y, w, h)
    ensures FixedTriple(data, matrix, Entry(x, y, w, 0), w, thisPixel, kernelAmount) ==
      Triple(FindColorDifference(kernelAmount, ConvSum(data, w, h, matrix, x, y, 0, false), thisPixel.r as real),
             FindColorDifference(kernelAmount, ConvSum(data, w, h, matrix, x, y, 1, false), thisPixel.g as real),
             FindColorDifference(kernelAmount, ConvSum(data, w, h, matrix, x, y, 2, false), thisPixel.b as real))
  {
    var index := Entry(x, y, w, 0);
    FixedChannel(data, w, h, matrix, x, y, 0, index, kernelAmount, thisPixel.r);
    FixedChannel(data, w, h, matrix, x, y, 1, index + 1, kernelAmount, thisPixel.g);
    FixedChannel(data, w, h, matrix, x, y, 2, index + 2, kernelAmount, thisPixel.b);
  }
}
