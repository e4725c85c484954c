/** The 3x3 convolution sum that applyMatrix computes in v0.3 and v0.2.
    Both visit h = 0..2 and, inside, w = 0..2, and multiply by the weight
    matrix[w + h * 3]; v0.3 samples the pixel w - 1 columns and h - 1 rows
    away, while v0.2 swaps the two offsets. */
module Convolution {
  import opened Pixels
  import opened Kernel

  /** The pixels applyMatrix's two outer loops visit: everything but the
      one-pixel border. */
  predicate InteriorPixel(x: int, y: int, w: nat, h: nat)
  {
    1 <= x < w - 1 && 1 <= y < h - 1
  }

  /** The entries applyMatrix writes: R, G and B of an interior pixel. */
  predicate Convolvable(k: nat, w: nat, h: nat)
  {
    w > 0 && k % 4 < 3 && InteriorPixel(Col(k, w), Row(k, w), w, h)
  }

  /** Column of the pixel sampled at (h, w) of the kernel loops around x. */
  function SampledX(x: nat, hh: nat, ww: nat, transposed: bool): int
  {
    if transposed then x + hh - 1 else x + ww - 1
  }

  /** Row of the pixel sampled at (h, w) of the kernel loops around y. */
  function SampledY(y: nat, hh: nat, ww: nat, transposed: bool): int
  {
    if transposed then y + ww - 1 else y + hh - 1
  }

  /** The array entry for channel c of that pixel. */
  function TapEntry(w: nat, h: nat, x: nat, y: nat, c: nat, hh: nat, ww: nat, transposed: bool): (e: nat)
    requires InteriorPixel(x, y, w, h) && c < 4 && hh < 3 && ww < 3
    ensures e < w * h * 4
  {
    var x', y' := SampledX(x, hh, ww, transposed), SampledY(y, hh, ww, transposed);
    EntryInRange(x', y', w, h, c);
    Entry(x', y', w, c)
  }

  /** A channel value times its weight. */
  function Weighted(v: int, weight: real): real
  {
    v as real * weight
  }

  /** One weight times the channel value it is paired with. */
  function Term(src: seq<int>, w: nat, h: nat, m: seq<real>, x: nat, y: nat, c: nat, hh: nat, ww: nat, transposed: bool): real
    requires |src| == w * h * 4 && |m| == 9 && c < 3 && InteriorPixel(x, y, w, h) && hh < 3 && ww < 3
  {
    Weighted(src[TapEntry(w, h, x, y, c, hh, ww, transposed)], m[ww + hh * 3])
  }

  /** The running sum once the loops have reached (h, w): every earlier row
      of the kernel and the first w weights of row h. */
  function PartialSum(src: seq<int>, w: nat, h: nat, m: seq<real>, x: nat, y: nat, c: nat, hh: nat, ww: nat, transposed: bool): real
    requires |src| == w * h * 4 && |m| == 9 && c < 3 && InteriorPixel(x, y, w, h)
    requires hh <= 3 && ww <= 3 && (hh == 3 ==> ww == 0)
    decreases hh, ww
  {
    if ww == 0 then
      if hh == 0 then 0.0 else PartialSum(src, w, h, m, x, y, c, hh - 1, 3, transposed)
    else PartialSum(src, w, h, m, x, y, c, hh, ww - 1, transposed) + Term(src, w, h, m, x, y, c, hh, ww - 1, transposed)
  }

  /** The sum for channel c at (x, y), once all nine weights are added. */
  function ConvSum(src: seq<int>, w: nat, h: nat, m: seq<real>, x: nat, y: nat, c: nat, transposed: bool): real
    requires |src| == w * h * 4 && |m| == 9 && c < 3 && InteriorPixel(x, y, w, h)
  {
    PartialSum(src, w, h, m, x, y, c, 3, 0, transposed)
  }

  /** The whole sum, written out term by term. */
  lemma ConvSumNine(src: seq<int>, w: nat, h: nat, m: seq<real>, x: nat, y: nat, c: nat, t: bool)
    requires |src| == w * h * 4 && |m| == 9 && c < 3 && InteriorPixel(x, y, w, h)
    ensures ConvSum(src, w, h, m, x, y, c, t) ==
      Term(src, w, h, m, x, y, c, 0, 0, t) + Term(src, w, h, m, x, y, c, 0, 1, t) + Term(src, w, h, m, x, y, c, 0, 2, t) +
      Term(src, w, h, m, x, y, c, 1, 0, t) + Term(src, w, h, m, x, y, c, 1, 1, t) + Term(src, w, h, m, x, y, c, 1, 2, t) +
      Term(src, w, h, m, x, y, c, 2, 0, t) + Term(src, w, h, m, x, y, c, 2, 1, t) + Term(src, w, h, m, x, y, c, 2, 2, t)
  {
    var r0 := PartialSum(src, w, h, m, x, y, c, 0, 3, t);
    assert r0 == Term(src, w, h, m, x, y, c, 0, 0, t) + Term(src, w, h, m, x, y, c, 0, 1, t) + Term(src, w, h, m, x, y, c, 0, 2, t);
    var r1 := PartialSum(src, w, h, m, x, y, c, 1, 3, t);
    assert r1 == r0 + Term(src, w, h, m, x, y, c, 1, 0, t) + Term(src, w, h, m, x, y, c, 1, 1, t) + Term(src, w, h, m, x, y, c, 1, 2, t);
    var r2 := PartialSum(src, w, h, m, x, y, c, 2, 3, t);
    assert r2 == r1 + Term(src, w, h, m, x, y, c, 2, 0, t) + Term(src, w, h, m, x, y, c, 2, 1, t) + Term(src, w, h, m, x, y, c, 2, 2, t);
  }

  /** Weight (a, b) read transposed is weight (b, a) read as in v0.3. */
  lemma TermSwap(src: seq<int>, w: nat, h: nat, m: seq<real>, x: nat, y: nat, c: nat, a: nat, b: nat)
    requires |src| == w * h * 4 && |m| == 9 && c < 3 && InteriorPixel(x, y, w, h) && a < 3 && b < 3
    requires m[b + a * 3] == m[a + b * 3]
    ensures Term(src, w, h, m, x, y, c, a, b, true) == Term(src, w, h, m, x, y, c, b, a, false)
  {
  }

  /** The two orientations agree on a kernel that is its own transpose, as
      every preset is. */
  lemma ConvSumSymmetric(src: seq<int>, w: nat, h: nat, m: seq<real>, x: nat, y: nat, c: nat)
    requires |src| == w * h * 4 && |m| == 9 && c < 3 && InteriorPixel(x, y, w, h)
    requires m[1] == m[3] && m[2] == m[6] && m[5] == m[7]
    ensures ConvSum(src, w, h, m, x, y, c, true) == ConvSum(src, w, h, m, x, y, c, false)
  {
    ConvSumNine(src, w, h, m, x, y, c, true);
    ConvSumNine(src, w, h, m, x, y, c, false);
    TermSwap(src, w, h, m, x, y, c, 0, 0);
    TermSwap(src, w, h, m, x, y, c, 0, 1);
    TermSwap(src, w, h, m, x, y, c, 0, 2);
    TermSwap(src, w, h, m, x, y, c, 1, 0);
    TermSwap(src, w, h, m, x, y, c, 1, 1);
    TermSwap(src, w, h, m, x, y, c, 1, 2);
    TermSwap(src, w, h, m, x, y, c, 2, 0);
    TermSwap(src, w, h, m, x, y, c, 2, 1);
    TermSwap(src, w, h, m, x, y, c, 2, 2);
  }

  /** Weighting by a + b is weighting by a plus weighting by b. */
  lemma WeightedDistributes(v: int, a: real, b: real)
    ensures Weighted(v, a) + Weighted(v, b) == Weighted(v, a + b)
  {
  }

  /** Where the 3x3 neighbourhood has one value v in channel c, the sum is
      v times the sum of the kernel. */
  lemma ConvFlat(src: seq<int>, w: nat, h: nat, m: seq<real>, x: nat, y: nat, c: nat, v: int, transposed: bool)
    requires |src| == w * h * 4 && |m| == 9 && c < 3 && InteriorPixel(x, y, w, h)
    requires forall hh, ww :: 0 <= hh < 3 && 0 <= ww < 3 ==> src[TapEntry(w, h, x, y, c, hh, ww, transposed)] == v
    ensures ConvSum(src, w, h, m, x, y, c, transposed) == v as real * Sum(m)
  {
    ConvSumNine(src, w, h, m, x, y, c, transposed);
    SumOfNine(m);
    assert ConvSum(src, w, h, m, x, y, c, transposed) ==
      Weighted(v, m[0]) + Weighted(v, m[1]) + Weighted(v, m[2]) + Weighted(v, m[3]) + Weighted(v, m[4]) +
      Weighted(v, m[5]) + Weighted(v, m[6]) + Weighted(v, m[7]) + Weighted(v, m[8]);
    WeightedDistributes(v, m[0], m[1]);
    WeightedDistributes(v, m[0] + m[1], m[2]);
    WeightedDistributes(v, m[0] + m[1] + m[2], m[3]);
    WeightedDistributes(v, m[0] + m[1] + m[2] + m[3], m[4]);
    WeightedDistributes(v, m[0] + m[1] + m[2] + m[3] + m[4], m[5]);
    WeightedDistributes(v, m[0] + m[1] + m[2] + m[3] + m[4] + m[5], m[6]);
    WeightedDistributes(v, m[0] + m[1] + m[2] + m[3] + m[4] + m[5] + m[6], m[7]);
    WeightedDistributes(v, m[0] + m[1] + m[2] + m[3] + m[4] + m[5] + m[6] + m[7], m[8]);
  }

  /** With the sharpen kernel, where the neighbourhood has value v in
      channel c at every tap but (p, q), which has u: the sum is v moved by
      u - v times that tap's weight, 9 at the centre and -1 elsewhere. */
  lemma SharpenOneOff(src: seq<int>, w: nat, h: nat, x: nat, y: nat, c: nat, p: nat, q: nat, v: int, u: int, transposed: bool)
    requires |src| == w * h * 4 && c < 3 && InteriorPixel(x, y, w, h) && p < 3 && q < 3
    requires forall hh, ww :: 0 <= hh < 3 && 0 <= ww < 3 ==>
               src[TapEntry(w, h, x, y, c, hh, ww, transposed)] == if hh == p && ww == q then u else v
    ensures ConvSum(src, w, h, SharpenKernel, x, y, c, transposed) == (v + (u - v) * (if p == 1 && q == 1 then 9 else -1)) as real
  {
    ConvSumNine(src, w, h, SharpenKernel, x, y, c, transposed);
  }

  /** The loops' (h, w) sample the entries TapEntry names. */
  lemma TapAt(w: nat, h: nat, x: nat, y: nat, hh: nat, ww: nat, transposed: bool)
    requires InteriorPixel(x, y, w, h) && hh < 3 && ww < 3
    ensures ConvertCoordinates(SampledX(x, hh, ww, transposed), SampledY(y, hh, ww, transposed), w) * 4 == TapEntry(w, h, x, y, 0, hh, ww, transposed)
    ensures TapEntry(w, h, x, y, 1, hh, ww, transposed) == TapEntry(w, h, x, y, 0, hh, ww, transposed) + 1
    ensures TapEntry(w, h, x, y, 2, hh, ww, transposed) == TapEntry(w, h, x, y, 0, hh, ww, transposed) + 2
  {
  }

  /** One more weight added to a running sum, the pixel being the one at
      entry r. */
  lemma SumStep(src: seq<int>, w: nat, h: nat, m: seq<real>, x: nat, y: nat, c: nat, hh: nat, ww: nat, transposed: bool, sum: real, r: nat)
    requires |src| == w * h * 4 && |m| == 9 && c < 3 && InteriorPixel(x, y, w, h) && hh < 3 && ww < 3
    requires r == TapEntry(w, h, x, y, 0, hh, ww, transposed)
    requires sum == PartialSum(src, w, h, m, x, y, c, hh, ww, transposed)
    ensures r + c < |src|
    ensures sum + Weighted(src[r + c], m[ww + hh * 3]) == PartialSum(src, w, h, m, x, y, c, hh, ww + 1, transposed)
  {
    TapAt(w, h, x, y, hh, ww, transposed);
  }

  /** The body of applyMatrix's innermost loop: weight (h, w) times the
      sampled pixel, added to each channel's sum. */
  method AddTap(src: seq<int>, w: nat, h: nat, matrix: seq<real>, x: nat, y: nat, hh: nat, ww: nat, transposed: bool,
                sumR: real, sumG: real, sumB: real)
    returns (sumR': real, sumG': real, sumB': real)
    requires |src| == w * h * 4 && |matrix| == 9 && InteriorPixel(x, y, w, h) && hh < 3 && ww < 3
    requires sumR == PartialSum(src, w, h, matrix, x, y, 0, hh, ww, transposed)
    requires sumG == PartialSum(src, w, h, matrix, x, y, 1, hh, ww, transposed)
    requires sumB == PartialSum(src, w, h, matrix, x, y, 2, hh, ww, transposed)
    ensures sumR' == PartialSum(src, w, h, matrix, x, y, 0, hh, ww + 1, transposed)
    ensures sumG' == PartialSum(src, w, h, matrix, x, y, 1, hh, ww + 1, transposed)
    ensures sumB' == PartialSum(src, w, h, matrix, x, y, 2, hh, ww + 1, transposed)
  {
    var r := ConvertCoordinates(SampledX(x, hh, ww, transposed), SampledY(y, hh, ww, transposed), w) * 4;
    TapAt(w, h, x, y, hh, ww, transposed);
    SumStep(src, w, h, matrix, x, y, 0, hh, ww, transposed, sumR, r);
    SumStep(src, w, h, matrix, x, y, 1, hh, ww, transposed, sumG, r);
    SumStep(src, w, h, matrix, x, y, 2, hh, ww, transposed, sumB, r);
    sumR' := sumR + Weighted(src[r + 0], matrix[ww + hh * 3]);
    sumG' := sumG + Weighted(src[r + 1], matrix[ww + hh * 3]);
    sumB' := sumB + Weighted(src[r + 2], matrix[ww + hh * 3]);
  }

  /** applyMatrix's two inner loops: the three channel sums at (x, y). */
  method KernelSums(src: seq<int>, w: nat, h: nat, matrix: seq<real>, x: nat, y: nat, transposed: bool)
    returns (sumR: real, sumG: real, sumB: real)
    requires |src| == w * h * 4 && |matrix| == 9 && InteriorPixel(x, y, w, h)
    ensures sumR == ConvSum(src, w, h, matrix, x, y, 0, transposed)
    ensures sumG == ConvSum(src, w, h, matrix, x, y, 1, transposed)
    ensures sumB == ConvSum(src, w, h, matrix, x, y, 2, transposed)
  {
    sumR, sumG, sumB := 0.0, 0.0, 0.0;
    var hh := 0;
    while hh < 3
      invariant 0 <= hh <= 3
      invariant sumR == PartialSum(src, w, h, matrix, x, y, 0, hh, 0, transposed)
      invariant sumG == PartialSum(src, w, h, matrix, x, y, 1, hh, 0, transposed)
      invariant sumB == PartialSum(src, w, h, matrix, x, y, 2, hh, 0, transposed)
    {
      var ww := 0;
      while ww < 3
        invariant 0 <= ww <= 3
        invariant sumR == PartialSum(src, w, h, matrix, x, y, 0, hh, ww, transposed)
        invariant sumG == PartialSum(src, w, h, matrix, x, y, 1, hh, ww, transposed)
        invariant sumB == PartialSum(src, w, h, matrix, x, y, 2, hh, ww, transposed)
      {
        sumR, sumG, sumB := AddTap(src, w, h, matrix, x, y, hh, ww, transposed, sumR, sumG, sumB);
        ww := ww + 1;
      }
      hh := hh + 1;
    }
  }
}
