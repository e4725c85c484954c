/** PaintbrushJS v0.2 (demo/script/paintbrush-0.2.js): applyFilters run in
    place over the pixels, each pixel reading the buffer as the pixels
    before it left it, and applyMatrix, which convolves the very buffer it
    is writing. */
module Paintbrush02 {
  import opened Pixels
  import opened Color
  import opened Kernel
  import opened Convolution
  import opened Params
  import opened Mosaic
  import opened RandomNoise
  import opened Posterize
  import Paintbrush03

  /** The parameters v0.2's processFilters reads, as numbers and strings. */
  datatype Settings02 = Settings02(
    greyscaleAmount: real, matrixAmount: real, mosaicAmount: real, mosaicSize: int,
    noiseAmount: real, noiseType: string, posterizeAreas: Param, posterizeValues: Param,
    sepiaAmount: real, tintAmount: real, tintColor: string)

  /** stepX, stepY and pos of v0.2's mosaic case: the pixel number
      index >> 2 taken modulo the size stands in for the column, so the
      entry read can lie before the buffer or in another block. */
  function AnchorEntry02(index: nat, w: nat, size: int): (pos: int)
    requires w > 0
    ensures pos <= index
    ensures pos % 4 == index % 4
  {
    var p := index / 4;
    var stepX := JsRem(p, size) * 4;
    var stepY := JsRem(p / w, size) * 4;
    BackByWholePixels(index, JsRem(p, size), JsRem(p / w, size), w);
    index - stepX - w * stepY
  }

  /** Going back a whole number of pixels keeps the channel. */
  lemma BackByWholePixels(index: nat, a: nat, b: nat, w: nat)
    ensures index - a * 4 - w * (b * 4) <= index
    ensures (index - a * 4 - w * (b * 4)) % 4 == index % 4
  {
    var q := w * b;
    assert w * (b * 4) == q * 4;
    LemmaDivModUnique(index - a * 4 - q * 4, 4, index / 4 - a - q, index % 4);
  }

  /** The colour the mosaic reads at the anchor: None when the entry is
      before the buffer, where data[pos] is undefined. */
  function AnchorPixel02(cur: seq<int>, index: nat, w: nat, size: int): Option<Pixel>
    requires w > 0 && index + 2 < |cur|
  {
    var pos := AnchorEntry02(index, w, size);
    if pos < 0 then None else Some(PixelAt(cur, pos))
  }

  /** The mosaic case: blend towards the anchor's colour; an undefined
      anchor makes every channel NaN, which the buffer stores as 0. */
  function MosaicPixel02(amount: real, anchor: Option<Pixel>, px: Pixel): Triple
  {
    match anchor
    case None => Triple(0.0, 0.0, 0.0)
    case Some(a) => BlendPixel(amount, TripleOf(a), px)
  }

  /** The noise case: mono noise adds pixel i's first draw to all three
      channels, colour noise one of the other three draws to each. */
  function NoisePixel02(s: Settings02, rand: Draws, px: Pixel, i: nat): Triple
  {
    if IsMono(s.noiseType) then
      var val := Noise02(s.noiseAmount, rand(i, 0));
      NoisePixel(px, val, val, val)
    else
      NoisePixel(px, Noise02(s.noiseAmount, rand(i, 1)), Noise02(s.noiseAmount, rand(i, 2)),
                 Noise02(s.noiseAmount, rand(i, 3)))
  }

  /** A posterize channel of v0.2: the level itself, with no blending; NaN
      is the 0 handed to the store. */
  function PosterizeChannel02(values: Param, areas: Param, c: int): real
    requires IsQuotient(values) && IsQuotient(areas)
  {
    match PosterizeLevel(values, areas, c)
    case None => 0.0
    case Some(level) => level as real
  }

  function PosterizePixel02(s: Settings02, px: Pixel): Triple
    requires IsQuotient(s.posterizeValues) && IsQuotient(s.posterizeAreas)
  {
    Triple(PosterizeChannel02(s.posterizeValues, s.posterizeAreas, px.r),
           PosterizeChannel02(s.posterizeValues, s.posterizeAreas, px.g),
           PosterizeChannel02(s.posterizeValues, s.posterizeAreas, px.b))
  }

  /** What v0.2's applyFilters writes for pixel i of colour px (None: the
      filter has no case); anchor is what the mosaic reads. */
  function PixelOut02(f: Filter, s: Settings02, dest: Pixel, rand: Draws, px: Pixel, anchor: Option<Pixel>, i: nat): Option<Triple>
    requires IsQuotient(s.posterizeValues) && IsQuotient(s.posterizeAreas)
  {
    match f
    case Greyscale =>
      var val := Luminance(px);
      Some(BlendPixel(s.greyscaleAmount, Triple(val, val, val), px))
    case Mosaic => Some(MosaicPixel02(s.mosaicAmount, anchor, px))
    case Noise => Some(NoisePixel02(s, rand, px, i))
    case Posterize => Some(PosterizePixel02(s, px))
    case Sepia => Some(BlendPixel(s.sepiaAmount, SepiaTone(px), px))
    case Tint => Some(BlendPixel(s.tintAmount, TripleOf(dest), px))
    case _ => None
  }

  /** What applyFilters writes at index, reading the buffer cur. */
  function FilterOut02(f: Filter, s: Settings02, dest: Pixel, rand: Draws, cur: seq<int>, index: nat, w: nat): Option<Triple>
    requires index % 4 == 0 && index + 2 < |cur| && w > 0
    requires IsQuotient(s.posterizeValues) && IsQuotient(s.posterizeAreas)
  {
    PixelOut02(f, s, dest, rand, PixelAt(cur, index), AnchorPixel02(cur, index, w, s.mosaicSize), index / 4)
  }

  /** v0.2's applyFilters: what FilterOut02 describes, written through setRGB. */
  method ApplyFilters02(f: Filter, s: Settings02, dest: Pixel, rand: Draws, data: array<int>, index: nat, thisPixel: Pixel, w: nat, store: real -> int)
    requires index % 4 == 0 && index + 2 < data.Length && w > 0
    requires IsQuotient(s.posterizeValues) && IsQuotient(s.posterizeAreas)
    requires thisPixel == PixelAt(data[..], index)
    modifies data
    ensures data[..] == WithRGB(old(data[..]), index, FilterOut02(f, s, dest, rand, old(data[..]), index, w), store)
  {
    ghost var out := FilterOut02(f, s, dest, rand, data[..], index, w);
    var i := index / 4;
    match f
    case Greyscale =>
      var val := Luminance(thisPixel);
      var r, g, b := FindColorDifference(s.greyscaleAmount, val, thisPixel.r as real),
        FindColorDifference(s.greyscaleAmount, val, thisPixel.g as real),
        FindColorDifference(s.greyscaleAmount, val, thisPixel.b as real);
      assert out == Some(Triple(r, g, b));
      SetRGB(data, index, r, g, b, store);
    case Mosaic =>
      var stepX := JsRem(i, s.mosaicSize) * 4;
      var stepY := JsRem(i / w, s.mosaicSize) * 4;
      var pos := index - stepX - w * stepY;
      assert pos == AnchorEntry02(index, w, s.mosaicSize);
      var r, g, b;
      if pos >= 0 {
        r, g, b := FindColorDifference(s.mosaicAmount, data[pos] as real, thisPixel.r as real),
          FindColorDifference(s.mosaicAmount, data[pos + 1] as real, thisPixel.g as real),
          FindColorDifference(s.mosaicAmount, data[pos + 2] as real, thisPixel.b as real);
      } else {
        // data[pos] is undefined before the buffer: NaN, stored as 0
        r, g, b := 0.0, 0.0, 0.0;
      }
      assert out == Some(Triple(r, g, b));
      SetRGB(data, index, r, g, b, store);
    case Noise =>
      var val := Noise02(s.noiseAmount, rand(i, 0));
      if IsMono(s.noiseType) {
        var r, g, b := CheckRGBBoundary(thisPixel.r + val) as real,
          CheckRGBBoundary(thisPixel.g + val) as real,
          CheckRGBBoundary(thisPixel.b + val) as real;
        assert out == Some(Triple(r, g, b));
        SetRGB(data, index, r, g, b, store);
      } else {
        var r, g, b := CheckRGBBoundary(thisPixel.r + Noise02(s.noiseAmount, rand(i, 1))) as real,
          CheckRGBBoundary(thisPixel.g + Noise02(s.noiseAmount, rand(i, 2))) as real,
          CheckRGBBoundary(thisPixel.b + Noise02(s.noiseAmount, rand(i, 3))) as real;
        assert out == Some(Triple(r, g, b));
        SetRGB(data, index, r, g, b, store);
      }
    case Posterize =>
      var r, g, b := PosterizeChannel02(s.posterizeValues, s.posterizeAreas, thisPixel.r),
        PosterizeChannel02(s.posterizeValues, s.posterizeAreas, thisPixel.g),
        PosterizeChannel02(s.posterizeValues, s.posterizeAreas, thisPixel.b);
      assert out == Some(Triple(r, g, b));
      SetRGB(data, index, r, g, b, store);
    case Sepia =>
      var sepia := SepiaTone(thisPixel);
      var r, g, b := FindColorDifference(s.sepiaAmount, sepia.r, thisPixel.r as real),
        FindColorDifference(s.sepiaAmount, sepia.g, thisPixel.g as real),
        FindColorDifference(s.sepiaAmount, sepia.b, thisPixel.b as real);
      assert out == Some(Triple(r, g, b));
      SetRGB(data, index, r, g, b, store);
    case Tint =>
      var r, g, b := FindColorDifference(s.tintAmount, dest.r as real, thisPixel.r as real),
        FindColorDifference(s.tintAmount, dest.g as real, thisPixel.g as real),
        FindColorDifference(s.tintAmount, dest.b as real, thisPixel.b as real);
      assert out == Some(Triple(r, g, b));
      SetRGB(data, index, r, g, b, store);
    case _ =>
  }

  /** applyFilters as a step of the main loop: pixel i, read from the buffer as it stands. */
  function Step02(f: Filter, s: Settings02, dest: Pixel, rand: Draws, w: nat): PixelStep
    requires w > 0 && IsQuotient(s.posterizeValues) && IsQuotient(s.posterizeAreas)
  {
    (cur: seq<int>, i: nat) => if 4 * i + 2 < |cur| then FilterOut02(f, s, dest, rand, cur, 4 * i, w) else None
  }

  /** The buffer once the main loop has run applyFilters on pixels 0 to
      n - 1 in order, each reading the buffer the pixels before it left. */
  function Pass02(f: Filter, s: Settings02, dest: Pixel, rand: Draws, orig: seq<int>, w: nat, store: real -> int, n: nat): (r: seq<int>)
    requires |orig| % 4 == 0 && w > 0 && 4 * n <= |orig|
    requires IsQuotient(s.posterizeValues) && IsQuotient(s.posterizeAreas)
    ensures |r| == |orig|
  {
    Sequential(Step02(f, s, dest, rand, w), orig, store, n)
  }

  /** One more pixel of the pass. */
  lemma Pass02Unfold(f: Filter, s: Settings02, dest: Pixel, rand: Draws, orig: seq<int>, w: nat, store: real -> int, n: nat)
    requires |orig| % 4 == 0 && w > 0 && 0 < n && 4 * n <= |orig|
    requires IsQuotient(s.posterizeValues) && IsQuotient(s.posterizeAreas)
    ensures var prev := Pass02(f, s, dest, rand, orig, w, store, n - 1);
      Pass02(f, s, dest, rand, orig, w, store, n) == WithRGB(prev, 4 * (n - 1), FilterOut02(f, s, dest, rand, prev, 4 * (n - 1), w), store)
  {
  }

  /** processFilters' main loop in v0.2: applyFilters on every pixel in turn. */
  method FilterPass02(f: Filter, s: Settings02, dest: Pixel, rand: Draws, data: array<int>, w: nat, store: real -> int)
    requires data.Length % 4 == 0 && w > 0
    requires IsQuotient(s.posterizeValues) && IsQuotient(s.posterizeAreas)
    modifies data
    ensures data[..] == Pass02(f, s, dest, rand, old(data[..]), w, store, data.Length / 4)
  {
    ghost var orig := data[..];
    var i := 0;
    while i < data.Length / 4
      invariant 0 <= i <= data.Length / 4
      invariant data[..] == Pass02(f, s, dest, rand, orig, w, store, i)
    {
      var index := 4 * i;
      var thisPixel := Pixel(data[index], data[index + 1], data[index + 2]);
      ApplyFilters02(f, s, dest, rand, data, index, thisPixel, w, store);
      Pass02Unfold(f, s, dest, rand, orig, w, store, i + 1);
      i := i + 1;
    }
  }

  /** Entry k as a filter that reads only its own pixel leaves it: R, G
      and B as FilterOut02 says on the original buffer. */
  function PassEntry02(f: Filter, s: Settings02, dest: Pixel, rand: Draws, orig: seq<int>, w: nat, store: real -> int, k: nat): int
    requires |orig| % 4 == 0 && w > 0 && k < |orig|
    requires IsQuotient(s.posterizeValues) && IsQuotient(s.posterizeAreas)
  {
    if k % 4 == 3 then orig[k]
    else match FilterOut02(f, s, dest, rand, orig, 4 * (k / 4), w)
      case None => orig[k]
      case Some(t) => store(TChannel(t, k % 4))
  }

  /** Every pixel filtered on its own, from the original buffer. */
  function PassResult02(f: Filter, s: Settings02, dest: Pixel, rand: Draws, orig: seq<int>, w: nat, store: real -> int): (r: seq<int>)
    requires |orig| % 4 == 0 && w > 0
    requires IsQuotient(s.posterizeValues) && IsQuotient(s.posterizeAreas)
    ensures |r| == |orig|
  {
    Pointwise(Step02(f, s, dest, rand, w), orig, store)
  }

  /** Entry k of the pixel-by-pixel result. */
  lemma PassResult02At(f: Filter, s: Settings02, dest: Pixel, rand: Draws, orig: seq<int>, w: nat, store: real -> int, k: nat)
    requires |orig| % 4 == 0 && w > 0 && k < |orig|
    requires IsQuotient(s.posterizeValues) && IsQuotient(s.posterizeAreas)
    ensures PassResult02(f, s, dest, rand, orig, w, store)[k] == PassEntry02(f, s, dest, rand, orig, w, store, k)
  {
    var p := k / 4;
    LemmaDivModUnique(|orig|, 4, |orig| / 4, 0);
    assert k == 4 * p + k % 4;
    assert 4 * p + 3 < |orig|;
  }

  /** Only the mosaic looks at the anchor. */
  lemma PixelOut02IgnoresAnchor(f: Filter, s: Settings02, dest: Pixel, rand: Draws, px: Pixel, a: Option<Pixel>, b: Option<Pixel>, i: nat)
    requires IsQuotient(s.posterizeValues) && IsQuotient(s.posterizeAreas)
    requires f != Mosaic
    ensures PixelOut02(f, s, dest, rand, px, a, i) == PixelOut02(f, s, dest, rand, px, b, i)
  {
  }

  /** A filter other than the mosaic writes the same into two buffers
      that agree on the pixel. */
  lemma OwnPixelOnly02(f: Filter, s: Settings02, dest: Pixel, rand: Draws, a: seq<int>, b: seq<int>, index: nat, w: nat)
    requires index % 4 == 0 && index + 2 < |a| && index + 2 < |b| && w > 0 && f != Mosaic
    requires IsQuotient(s.posterizeValues) && IsQuotient(s.posterizeAreas)
    requires PixelAt(a, index) == PixelAt(b, index)
    ensures FilterOut02(f, s, dest, rand, a, index, w) == FilterOut02(f, s, dest, rand, b, index, w)
  {
    PixelOut02IgnoresAnchor(f, s, dest, rand, PixelAt(a, index),
      AnchorPixel02(a, index, w, s.mosaicSize), AnchorPixel02(b, index, w, s.mosaicSize), index / 4);
  }

  /** Every filter but the mosaic reads only its own pixel, which the
      pixels before it have not touched: part way through, the in-place
      pass holds the pixel-by-pixel result before n and the original after. */
  lemma Pass02Entrywise(f: Filter, s: Settings02, dest: Pixel, rand: Draws, orig: seq<int>, w: nat, store: real -> int, n: nat)
    requires |orig| % 4 == 0 && w > 0 && 4 * n <= |orig| && f != Mosaic
    requires IsQuotient(s.posterizeValues) && IsQuotient(s.posterizeAreas)
    ensures DoneBefore(Pass02(f, s, dest, rand, orig, w, store, n), PassResult02(f, s, dest, rand, orig, w, store), orig, n)
  {
    var step := Step02(f, s, dest, rand, w);
    forall cur: seq<int>, i: nat | |cur| == |orig| && 4 * i + 2 < |cur| && PixelAt(cur, 4 * i) == PixelAt(orig, 4 * i)
      ensures StepAt(step, cur, i) == step(orig, i)
    {
      OwnPixelOnly02(f, s, dest, rand, cur, orig, 4 * i, w);
    }
    SequentialPointwise(step, orig, store, n);
  }

  /** So for every filter but the mosaic the in-place loop is a pixel-by-pixel map. */
  lemma Pass02Full(f: Filter, s: Settings02, dest: Pixel, rand: Draws, orig: seq<int>, w: nat, store: real -> int)
    requires |orig| % 4 == 0 && w > 0 && f != Mosaic
    requires IsQuotient(s.posterizeValues) && IsQuotient(s.posterizeAreas)
    ensures Pass02(f, s, dest, rand, orig, w, store, |orig| / 4) == PassResult02(f, s, dest, rand, orig, w, store)
  {
    Pass02Entrywise(f, s, dest, rand, orig, w, store, |orig| / 4);
    AllDone(Pass02(f, s, dest, rand, orig, w, store, |orig| / 4), PassResult02(f, s, dest, rand, orig, w, store), orig, |orig| / 4);
  }

  /** Filters with no case in applyFilters leave the buffer, however far the loop has run. */
  lemma {:induction false} Pass02NoCase(f: Filter, s: Settings02, dest: Pixel, rand: Draws, orig: seq<int>, w: nat, store: real -> int, n: nat)
    requires |orig| % 4 == 0 && w > 0 && 4 * n <= |orig|
    requires IsQuotient(s.posterizeValues) && IsQuotient(s.posterizeAreas)
    requires f in {Blur, Edges, Emboss, Matrix, Sharpen}
    ensures Pass02(f, s, dest, rand, orig, w, store, n) == orig
  {
    if n > 0 {
      Pass02NoCase(f, s, dest, rand, orig, w, store, n - 1);
      Pass02Unfold(f, s, dest, rand, orig, w, store, n);
    }
  }

  /** The in-place loop draws bytes and keeps every alpha entry. */
  lemma Pass02Bytes(f: Filter, s: Settings02, dest: Pixel, rand: Draws, orig: seq<int>, w: nat, store: real -> int, n: nat)
    requires |orig| % 4 == 0 && w > 0 && 4 * n <= |orig|
    requires IsQuotient(s.posterizeValues) && IsQuotient(s.posterizeAreas)
    requires IsByteStore(store) && AllBytes(orig)
    ensures var r := Pass02(f, s, dest, rand, orig, w, store, n);
      AllBytes(r) && forall k :: 0 <= k < |r| && k % 4 == 3 ==> r[k] == orig[k]
  {
    SequentialBytes(Step02(f, s, dest, rand, w), orig, store, n);
  }

  /** Noise, entry by entry: the channel plus its draw's noise, clamped. */
  lemma Noise02Entry(s: Settings02, dest: Pixel, rand: Draws, orig: seq<int>, w: nat, store: real -> int, k: nat)
    requires |orig| % 4 == 0 && w > 0 && k < |orig| && k % 4 < 3
    requires IsQuotient(s.posterizeValues) && IsQuotient(s.posterizeAreas)
    requires IsByteStore(store)
    ensures var draw := if IsMono(s.noiseType) then 0 else k % 4 + 1;
      PassResult02(Noise, s, dest, rand, orig, w, store)[k] == CheckRGBBoundary(orig[k] + Noise02(s.noiseAmount, rand(k / 4, draw)))
  {
    var index := 4 * (k / 4);
    assert index <= k < index + 3 && k % 4 == k - index && index / 4 == k / 4;
    var draw := if IsMono(s.noiseType) then 0 else k % 4 + 1;
    var v := CheckRGBBoundary(orig[k] + Noise02(s.noiseAmount, rand(k / 4, draw)));
    assert PassEntry02(Noise, s, dest, rand, orig, w, store, k) == store(v as real);
    PassResult02At(Noise, s, dest, rand, orig, w, store, k);
  }

  /** Posterize with the parameters of n >= 2 levels: each colour entry
      becomes its level, a byte. */
  lemma Posterize02Entry(s: Settings02, dest: Pixel, rand: Draws, orig: seq<int>, w: nat, store: real -> int, k: nat, n: nat)
    requires |orig| % 4 == 0 && w > 0 && k < |orig| && k % 4 < 3
    requires n >= 2 && s.posterizeAreas.Num? && s.posterizeValues.Num?
    requires s.posterizeAreas.n * n as real == 256.0 && s.posterizeValues.n * (n - 1) as real == 255.0
    requires IsByteStore(store) && AllBytes(orig)
    ensures PosterizeLevel(s.posterizeValues, s.posterizeAreas, orig[k]).Some?
    ensures PassResult02(Posterize, s, dest, rand, orig, w, store)[k] == PosterizeLevel(s.posterizeValues, s.posterizeAreas, orig[k]).value
  {
    var index := 4 * (k / 4);
    assert index <= k < index + 3 && k % 4 == k - index;
    assert IsByte(orig[k]);
    PosterizeLevels(s.posterizeValues.n, s.posterizeAreas.n, n, orig[k]);
    var level := PosterizeLevel(s.posterizeValues, s.posterizeAreas, orig[k]).value;
    assert PassEntry02(Posterize, s, dest, rand, orig, w, store, k) == store(level as real);
    PassResult02At(Posterize, s, dest, rand, orig, w, store, k);
  }

  /** Two posterize levels (amount 2: areas 128, values 255) turn every
      colour entry black or white at the midpoint. */
  lemma Posterize02TwoLevels(s: Settings02, dest: Pixel, rand: Draws, orig: seq<int>, w: nat, store: real -> int, k: nat)
    requires |orig| % 4 == 0 && w > 0 && k < |orig| && k % 4 < 3
    requires s.posterizeAreas == Num(128.0) && s.posterizeValues == Num(255.0)
    requires IsByteStore(store) && AllBytes(orig)
    ensures PassResult02(Posterize, s, dest, rand, orig, w, store)[k] == if orig[k] < 128 then 0 else 255
  {
    Posterize02Entry(s, dest, rand, orig, w, store, k, 2);
    assert IsByte(orig[k]);
    PosterizeTwoLevels(orig[k]);
  }

  /** The amount a blending filter of v0.2 reads. */
  function BlendAmount02(f: Filter, s: Settings02): Option<real>
  {
    match f
    case Greyscale => Some(s.greyscaleAmount)
    case Sepia => Some(s.sepiaAmount)
    case Tint => Some(s.tintAmount)
    case _ => None
  }

  /** One entry of a blending filter at amount 0. */
  lemma AmountZeroEntry02(f: Filter, s: Settings02, dest: Pixel, rand: Draws, orig: seq<int>, w: nat, store: real -> int, k: nat)
    requires |orig| % 4 == 0 && w > 0 && k < |orig|
    requires IsQuotient(s.posterizeValues) && IsQuotient(s.posterizeAreas)
    requires BlendAmount02(f, s) == Some(0.0)
    requires IsByteStore(store) && AllBytes(orig)
    ensures PassEntry02(f, s, dest, rand, orig, w, store, k) == orig[k]
  {
    var index := 4 * (k / 4);
    assert index <= k < index + 4 && k % 4 == k - index;
    assert IsByte(orig[k]);
    if k % 4 < 3 {
      var px := PixelAt(orig, index);
      assert FilterOut02(f, s, dest, rand, orig, index, w) == Some(TripleOf(px));
      assert TChannel(TripleOf(px), k % 4) == orig[k] as real;
    }
  }

  /** At amount 0 greyscale, sepia and tint leave a byte buffer as it was. */
  lemma AmountZero02(f: Filter, s: Settings02, dest: Pixel, rand: Draws, orig: seq<int>, w: nat, store: real -> int)
    requires |orig| % 4 == 0 && w > 0
    requires IsQuotient(s.posterizeValues) && IsQuotient(s.posterizeAreas)
    requires BlendAmount02(f, s) == Some(0.0)
    requires IsByteStore(store) && AllBytes(orig)
    ensures Pass02(f, s, dest, rand, orig, w, store, |orig| / 4) == orig
  {
    Pass02Full(f, s, dest, rand, orig, w, store);
    var r := PassResult02(f, s, dest, rand, orig, w, store);
    forall k | 0 <= k < |orig|
      ensures r[k] == orig[k]
    {
      AmountZeroEntry02(f, s, dest, rand, orig, w, store, k);
      PassResult02At(f, s, dest, rand, orig, w, store, k);
    }
  }

  /** When the row width is a multiple of the size (or the size is 0) the
      linear index and the column agree modulo the size, and v0.2 reads
      the anchor v0.3 reads. */
  lemma AnchorsAgree(p: nat, w: nat, size: int)
    requires w > 0 && (size == 0 || w % Abs(size) == 0)
    ensures AnchorEntry02(4 * p, w, size) == 4 * MosaicAnchor(p, w, size)
  {
    assert (4 * p) / 4 == p;
    var jy := JsRem(p / w, size);
    if size != 0 {
      RemAlongRow(p, w, Abs(size));
    }
    assert JsRem(p, size) == JsRem(p % w, size);
    assert w * (jy * 4) == 4 * (jy * w);
  }

  /** Modulo a divisor of the row width, a pixel number and its column agree. */
  lemma RemAlongRow(p: nat, w: nat, m: nat)
    requires w > 0 && m > 0 && w % m == 0
    ensures p % m == (p % w) % m
  {
    var k := w / m;
    assert w == k * m;
    var y, x := p / w, p % w;
    assert p == y * w + x;
    assert y * w == (y * k) * m;
    assert x == (x / m) * m + x % m;
    LemmaDivModUnique(p, m, y * k + x / m, x % m);
  }

  /** Finding: in a row of 7 with size 5 the first pixel of the second row
      (pixel 7) has column 0 but pixel number 7, and 7 % 5 = 2 sends the
      anchor two pixels back and a row up, to entry -8: before the buffer. */
  lemma AnchorBeforeBuffer()
    ensures AnchorEntry02(28, 7, 5) == -8
    ensures MosaicAnchor(7, 7, 5) == 0
  {
    AnchorOf7();
    CorrectAnchorOf7();
  }

  lemma AnchorOf7()
    ensures AnchorEntry02(28, 7, 5) == -8
  {
    assert JsRem(28 / 4, 5) == 2 && JsRem(28 / 4 / 7, 5) == 1;
  }

  lemma CorrectAnchorOf7()
    ensures MosaicAnchor(7, 7, 5) == 0
  {
    assert JsRem(7 / 7, 5) == 1 && JsRem(7 % 7, 5) == 0;
  }

  /** A mosaic pixel whose anchor entry lies before the buffer reads NaN:
      its R, G and B end up as whatever the store makes of 0. */
  lemma MosaicBeforeBuffer(s: Settings02, dest: Pixel, rand: Draws, orig: seq<int>, w: nat, store: real -> int, i: nat, k: nat)
    requires |orig| % 4 == 0 && w > 0 && 4 * i + 3 < |orig| && k / 4 == i && k % 4 < 3
    requires IsQuotient(s.posterizeValues) && IsQuotient(s.posterizeAreas)
    requires AnchorEntry02(4 * i, w, s.mosaicSize) < 0
    ensures Pass02(Mosaic, s, dest, rand, orig, w, store, |orig| / 4)[k] == store(0.0)
  {
    var prev := Pass02(Mosaic, s, dest, rand, orig, w, store, i);
    var t := FilterOut02(Mosaic, s, dest, rand, prev, 4 * i, w);
    assert t == Some(Triple(0.0, 0.0, 0.0));
    Pass02Unfold(Mosaic, s, dest, rand, orig, w, store, i + 1);
    WithRGBAt(prev, 4 * i, t, store, k);
    SequentialSettled(Step02(Mosaic, s, dest, rand, w), orig, store, i, |orig| / 4, k);
  }

  /** ... so in a row of 7 with size 5 pixel 7 turns black (a store
      keeping whole bytes makes 0 of 0), whatever the amount and the image. */
  lemma MosaicBlackPixel(s: Settings02, dest: Pixel, rand: Draws, orig: seq<int>, store: real -> int, k: nat)
    requires |orig| % 4 == 0 && 32 <= |orig| && s.mosaicSize == 5 && 28 <= k < 31
    requires IsQuotient(s.posterizeValues) && IsQuotient(s.posterizeAreas)
    requires IsByteStore(store)
    ensures Pass02(Mosaic, s, dest, rand, orig, 7, store, |orig| / 4)[k] == 0
  {
    AnchorBeforeBuffer();
    MosaicBeforeBuffer(s, dest, rand, orig, 7, store, 7, k);
    var zero := 0;
    assert IsByte(zero) && store(zero as real) == 0;
  }

  /** Finding: pixel 12 in a row of 7 (column 5, row 1) reads the anchor
      at pixel 3 (column 3, row 0), in the block of columns 0 to 4, while
      its own block, columns 5 to 9, starts at pixel 5. */
  lemma AnchorInOtherBlock()
    ensures AnchorEntry02(48, 7, 5) == 12
    ensures Block(5, 5) == 1 && Block(3, 5) == 0
    ensures MosaicAnchor(12, 7, 5) == 5
  {
    AnchorOf12();
    CorrectAnchorOf12();
    BlocksOf5();
  }

  lemma BlocksOf5()
    ensures Block(5, 5) == 1 && Block(3, 5) == 0
  {
  }

  lemma CorrectAnchorOf12()
    ensures MosaicAnchor(12, 7, 5) == 5
  {
    assert JsRem(12 / 7, 5) == 1 && JsRem(12 % 7, 5) == 0;
  }

  lemma AnchorOf12()
    ensures AnchorEntry02(48, 7, 5) == 12
  {
    assert JsRem(48 / 4, 5) == 2 && JsRem(48 / 4 / 7, 5) == 1;
  }

  /** The tint target when the filter is not tint: processFilters leaves it
      undefined, and no other filter reads it. */
  const NoTint := Pixel(0, 0, 0)

  // applyMatrix of v0.2

  /** Step t of applyMatrix's loops, with rows interior rows: column
      1 + t / rows, row 1 + t % rows (the inner loop runs down a column). */
  function StepX(t: nat, rows: nat): nat
    requires rows > 0
  {
    1 + t / rows
  }

  function StepY(t: nat, rows: nat): nat
    requires rows > 0
  {
    1 + t % rows
  }

  /** The number of interior pixels, which the loops visit once each. */
  function Steps(w: nat, h: nat): nat
  {
    if w >= 3 && h >= 3 then (w - 2) * (h - 2) else 0
  }

  /** The step at which the loops reach column x, row y. */
  function StepOf(x: nat, y: nat, h: nat): nat
  {
    if h >= 3 && x >= 1 && y >= 1 then (x - 1) * (h - 2) + (y - 1) else 0
  }

  /** Steps and interior pixels correspond one to one. */
  lemma StepPixel(t: nat, w: nat, h: nat)
    requires t < Steps(w, h)
    ensures h >= 3 && InteriorPixel(StepX(t, h - 2), StepY(t, h - 2), w, h)
    ensures StepOf(StepX(t, h - 2), StepY(t, h - 2), h) == t
  {
    var rows := h - 2;
    assert t == (t / rows) * rows + t % rows;
    if t / rows >= w - 2 {
      MulMonotone(w - 2, t / rows, rows);
    }
  }

  lemma PixelStep(x: nat, y: nat, w: nat, h: nat)
    requires InteriorPixel(x, y, w, h)
    ensures StepOf(x, y, h) < Steps(w, h)
    ensures StepX(StepOf(x, y, h), h - 2) == x && StepY(StepOf(x, y, h), h - 2) == y
  {
    var rows := h - 2;
    LemmaDivModUnique(StepOf(x, y, h), rows, x - 1, y - 1);
    assert StepOf(x, y, h) < x * rows;
    MulMonotone(x, w - 2, rows);
  }

  /** The three numbers v0.2's applyMatrix writes at (x, y): the pixel
      blended by amount towards the sums over the buffer as it is now,
      each weight matrix[w + h * 3] paired with offset (h - 1, w - 1). */
  function MatrixPixel02(cur: seq<int>, w: nat, h: nat, m: seq<real>, amount: real, x: nat, y: nat): Triple
    requires |cur| == w * h * 4 && |m| == 9 && InteriorPixel(x, y, w, h)
  {
    EntryInRange(x, y, w, h, 2);
    var ref := Entry(x, y, w, 0);
    Triple(FindColorDifference(amount, ConvSum(cur, w, h, m, x, y, 0, true), cur[ref] as real),
           FindColorDifference(amount, ConvSum(cur, w, h, m, x, y, 1, true), cur[ref + 1] as real),
           FindColorDifference(amount, ConvSum(cur, w, h, m, x, y, 2, true), cur[ref + 2] as real))
  }

  /** The buffer after the first t steps of applyMatrix's loops, each
      reading the buffer the steps before it left. */
  function InPlace02(orig: seq<int>, w: nat, h: nat, m: seq<real>, amount: real, store: real -> int, t: nat): (r: seq<int>)
    requires |orig| == w * h * 4 && |m| == 9
    ensures |r| == |orig|
  {
    Update02Length(w, h, m, amount, store);
    IterateLength(Update02(w, h, m, amount, store), orig, t);
    Iterate(Update02(w, h, m, amount, store), orig, t)
  }

  /** applyMatrix's loop step as a buffer update. */
  function Update02(w: nat, h: nat, m: seq<real>, amount: real, store: real -> int): BufferUpdate
  {
    (cur: seq<int>, t: nat) => if |cur| == w * h * 4 && |m| == 9 then MatrixWrite02(cur, w, h, m, amount, store, t) else cur
  }

  lemma Update02At(w: nat, h: nat, m: seq<real>, amount: real, store: real -> int, cur: seq<int>, t: nat)
    requires |cur| == w * h * 4 && |m| == 9
    ensures UpdateAt(Update02(w, h, m, amount, store), cur, t) == MatrixWrite02(cur, w, h, m, amount, store, t)
  {
  }

  lemma Update02Length(w: nat, h: nat, m: seq<real>, amount: real, store: real -> int)
    ensures KeepsLength(Update02(w, h, m, amount, store))
  {
    forall cur: seq<int>, t: nat
      ensures |UpdateAt(Update02(w, h, m, amount, store), cur, t)| == |cur|
    {
      if |cur| == w * h * 4 && |m| == 9 {
        Update02At(w, h, m, amount, store, cur, t);
      }
    }
  }

  /** One more step of the loops. */
  lemma InPlaceUnfold(orig: seq<int>, w: nat, h: nat, m: seq<real>, amount: real, store: real -> int, t: nat)
    requires |orig| == w * h * 4 && |m| == 9
    ensures var cur := InPlace02(orig, w, h, m, amount, store, t);
      InPlace02(orig, w, h, m, amount, store, t + 1) == MatrixWrite02(cur, w, h, m, amount, store, t)
  {
    Update02At(w, h, m, amount, store, InPlace02(orig, w, h, m, amount, store, t), t);
  }

  /** Entry k at step u holds what it held at step t when none of the
      steps in between writes it. */
  lemma InPlaceKeptBetween(orig: seq<int>, w: nat, h: nat, m: seq<real>, amount: real, store: real -> int, t: nat, u: nat, k: nat)
    requires |orig| == w * h * 4 && |m| == 9 && k < |orig| && t <= u
    requires forall i {:trigger WrittenAt(k, w, h, i)} :: t <= i < u ==> !WrittenAt(k, w, h, i)
    ensures InPlace02(orig, w, h, m, amount, store, u)[k] == InPlace02(orig, w, h, m, amount, store, t)[k]
  {
    var update := Update02(w, h, m, amount, store);
    Update02Length(w, h, m, amount, store);
    IterateLength(update, orig, t);
    forall cur: seq<int>, i: nat | t <= i < u && k < |cur|
      ensures k < |UpdateAt(update, cur, i)| && UpdateAt(update, cur, i)[k] == cur[k]
    {
      if |cur| == w * h * 4 {
        Update02At(w, h, m, amount, store, cur, i);
        MatrixWrite02Elsewhere(cur, w, h, m, amount, store, i, k);
      }
    }
    IterateKept(update, orig, t, u, k);
  }

  /** Step t of the loops: its pixel written from the buffer cur (there
      is nothing to write past the last step). */
  function MatrixWrite02(cur: seq<int>, w: nat, h: nat, m: seq<real>, amount: real, store: real -> int, t: nat): (r: seq<int>)
    requires |cur| == w * h * 4 && |m| == 9
    ensures |r| == |cur|
  {
    if t >= Steps(w, h) then cur else
    StepPixel(t, w, h);
    var x, y := StepX(t, h - 2), StepY(t, h - 2);
    EntryInRange(x, y, w, h, 2);
    WithRGB(cur, Entry(x, y, w, 0), Some(MatrixPixel02(cur, w, h, m, amount, x, y)), store)
  }

  /** Entry k is one step t writes: a colour entry of an interior pixel
      whose step is t. */
  predicate WrittenAt(k: nat, w: nat, h: nat, t: nat)
  {
    Convolvable(k, w, h) && StepOf(Col(k, w), Row(k, w), h) == t
  }

  /** Step t writes R, G and B of its own pixel and nothing else. */
  lemma MatrixWrite02At(cur: seq<int>, w: nat, h: nat, m: seq<real>, amount: real, store: real -> int, t: nat, k: nat)
    requires |cur| == w * h * 4 && |m| == 9 && k < |cur|
    ensures MatrixWrite02(cur, w, h, m, amount, store, t)[k] ==
      if WrittenAt(k, w, h, t) then store(TChannel(MatrixPixel02(cur, w, h, m, amount, Col(k, w), Row(k, w)), k % 4)) else cur[k]
  {
    if WrittenAt(k, w, h, t) {
      var x, y := Col(k, w), Row(k, w);
      EntryEncode(k, w);
      PixelStep(x, y, w, h);
      MatrixWrite02Own(cur, w, h, m, amount, store, x, y, k % 4);
    } else {
      MatrixWrite02Elsewhere(cur, w, h, m, amount, store, t, k);
    }
  }

  /** The step of (x, y) writes channel c of it as MatrixPixel02 says. */
  lemma MatrixWrite02Own(cur: seq<int>, w: nat, h: nat, m: seq<real>, amount: real, store: real -> int, x: nat, y: nat, c: nat)
    requires |cur| == w * h * 4 && |m| == 9 && InteriorPixel(x, y, w, h) && c < 3
    ensures Entry(x, y, w, c) < |cur|
    ensures MatrixWrite02(cur, w, h, m, amount, store, StepOf(x, y, h))[Entry(x, y, w, c)] ==
      store(TChannel(MatrixPixel02(cur, w, h, m, amount, x, y), c))
  {
    PixelStep(x, y, w, h);
    EntryInRange(x, y, w, h, 2);
    var ref := Entry(x, y, w, 0);
    WithRGBAt(cur, ref, Some(MatrixPixel02(cur, w, h, m, amount, x, y)), store, Entry(x, y, w, c));
  }

  /** Step t leaves every entry it does not write. */
  lemma MatrixWrite02Elsewhere(cur: seq<int>, w: nat, h: nat, m: seq<real>, amount: real, store: real -> int, t: nat, k: nat)
    requires |cur| == w * h * 4 && |m| == 9 && k < |cur| && !WrittenAt(k, w, h, t)
    ensures MatrixWrite02(cur, w, h, m, amount, store, t)[k] == cur[k]
  {
    if t < Steps(w, h) {
      StepPixel(t, w, h);
      var x, y := StepX(t, h - 2), StepY(t, h - 2);
      var ref := Entry(x, y, w, 0);
      EntryInRange(x, y, w, h, 2);
      WithRGBAt(cur, ref, Some(MatrixPixel02(cur, w, h, m, amount, x, y)), store, k);
      if ref <= k < ref + 3 {
        EntryDecode(x, y, w, k - ref);
        assert false;
      }
    }
  }

  /** Entry k part way through the loops: one that no step writes, or
      whose step is still to come, holds its original value. */
  lemma InPlaceBefore(orig: seq<int>, w: nat, h: nat, m: seq<real>, amount: real, store: real -> int, t: nat, k: nat)
    requires |orig| == w * h * 4 && |m| == 9 && k < |orig|
    requires !Convolvable(k, w, h) || t <= StepOf(Col(k, w), Row(k, w), h)
    ensures InPlace02(orig, w, h, m, amount, store, t)[k] == orig[k]
  {
    InPlaceKeptBetween(orig, w, h, m, amount, store, 0, t, k);
  }

  /** Once written, an entry keeps what its own step wrote: no step
      after the entry's own writes it again. */
  lemma InPlaceSettled(orig: seq<int>, w: nat, h: nat, m: seq<real>, amount: real, store: real -> int, t: nat, u: nat, k: nat)
    requires |orig| == w * h * 4 && |m| == 9 && k < |orig|
    requires Convolvable(k, w, h) && StepOf(Col(k, w), Row(k, w), h) < t <= u
    ensures InPlace02(orig, w, h, m, amount, store, u)[k] == InPlace02(orig, w, h, m, amount, store, t)[k]
  {
    InPlaceKeptBetween(orig, w, h, m, amount, store, t, u, k);
  }

  /** What the step of (x, y) writes: its pixel blended towards the sums
      over the buffer as the steps before it left it. */
  lemma InPlaceWritten(orig: seq<int>, w: nat, h: nat, m: seq<real>, amount: real, store: real -> int, x: nat, y: nat, c: nat)
    requires |orig| == w * h * 4 && |m| == 9 && InteriorPixel(x, y, w, h) && c < 3
    ensures Entry(x, y, w, c) < |orig|
    ensures var cur := InPlace02(orig, w, h, m, amount, store, StepOf(x, y, h));
      InPlace02(orig, w, h, m, amount, store, Steps(w, h))[Entry(x, y, w, c)] ==
        store(TChannel(MatrixPixel02(cur, w, h, m, amount, x, y), c))
  {
    var k := Entry(x, y, w, c);
    PixelStep(x, y, w, h);
    EntryInRange(x, y, w, h, c);
    EntryDecode(x, y, w, c);
    InPlaceSettled(orig, w, h, m, amount, store, StepOf(x, y, h) + 1, Steps(w, h), k);
    MatrixWrite02Own(InPlace02(orig, w, h, m, amount, store, StepOf(x, y, h)), w, h, m, amount, store, x, y, c);
  }

  /** The border and every alpha entry come through the loops untouched. */
  lemma InPlaceKept(orig: seq<int>, w: nat, h: nat, m: seq<real>, amount: real, store: real -> int, t: nat, k: nat)
    requires |orig| == w * h * 4 && |m| == 9 && k < |orig| && !Convolvable(k, w, h)
    ensures InPlace02(orig, w, h, m, amount, store, t)[k] == orig[k]
  {
    InPlaceBefore(orig, w, h, m, amount, store, t, k);
  }

  /** The sums at (x, y) read the buffer as it stands: the pixel to its left
      (and every pixel of the columns before) already holds its final,
      filtered value, while the pixel to its right is still the original. */
  lemma InPlaceNeighbours(orig: seq<int>, w: nat, h: nat, m: seq<real>, amount: real, store: real -> int, x: nat, y: nat, c: nat)
    requires |orig| == w * h * 4 && |m| == 9 && InteriorPixel(x, y, w, h) && c < 3
    ensures Entry(x - 1, y, w, c) < |orig| && Entry(x + 1, y, w, c) < |orig|
    ensures var cur := InPlace02(orig, w, h, m, amount, store, StepOf(x, y, h));
      cur[Entry(x - 1, y, w, c)] == InPlace02(orig, w, h, m, amount, store, Steps(w, h))[Entry(x - 1, y, w, c)] &&
      cur[Entry(x + 1, y, w, c)] == orig[Entry(x + 1, y, w, c)]
  {
    var left, right := Entry(x - 1, y, w, c), Entry(x + 1, y, w, c);
    EntryInRange(x - 1, y, w, h, c);
    EntryInRange(x + 1, y, w, h, c);
    EntryDecode(x - 1, y, w, c);
    EntryDecode(x + 1, y, w, c);
    NextColumnStep(x, y, h);
    var here := StepOf(x, y, h);
    PixelStep(x, y, w, h);
    if x >= 2 {
      NextColumnStep(x - 1, y, h);
      assert StepOf(Col(left, w), Row(left, w), h) < here;
      InPlaceSettled(orig, w, h, m, amount, store, here, Steps(w, h), left);
    } else {
      assert !Convolvable(left, w, h);
      InPlaceBefore(orig, w, h, m, amount, store, here, left);
      InPlaceBefore(orig, w, h, m, amount, store, Steps(w, h), left);
    }
    assert here <= StepOf(Col(right, w), Row(right, w), h);
    InPlaceBefore(orig, w, h, m, amount, store, here, right);
  }

  /** The step of a pixel and of its right-hand neighbour are a column's
      height apart. */
  lemma NextColumnStep(x: nat, y: nat, h: nat)
    requires x >= 1 && y >= 1 && h >= 3
    ensures StepOf(x, y, h) + (h - 2) == StepOf(x + 1, y, h)
  {
  }

  /** Writing (x, y) is the step after the one that reached it. */
  lemma InPlaceStep(orig: seq<int>, w: nat, h: nat, m: seq<real>, amount: real, store: real -> int, x: nat, y: nat)
    requires |orig| == w * h * 4 && |m| == 9 && InteriorPixel(x, y, w, h)
    ensures StepOf(x, y, h) < Steps(w, h) && StepOf(x, y + 1, h) == StepOf(x, y, h) + 1
    ensures Entry(x, y, w, 0) + 2 < |orig|
    ensures var cur := InPlace02(orig, w, h, m, amount, store, StepOf(x, y, h));
      InPlace02(orig, w, h, m, amount, store, StepOf(x, y, h) + 1) ==
        WithRGB(cur, Entry(x, y, w, 0), Some(MatrixPixel02(cur, w, h, m, amount, x, y)), store)
  {
    PixelStep(x, y, w, h);
    EntryInRange(x, y, w, h, 2);
    InPlaceUnfold(orig, w, h, m, amount, store, StepOf(x, y, h));
  }

  /** At amount 0 a step writes back the bytes already there. */
  lemma MatrixWrite02AmountZero(cur: seq<int>, w: nat, h: nat, m: seq<real>, store: real -> int, t: nat)
    requires |cur| == w * h * 4 && |m| == 9
    requires IsByteStore(store) && AllBytes(cur)
    ensures MatrixWrite02(cur, w, h, m, 0.0, store, t) == cur
  {
    if t < Steps(w, h) {
      StepPixel(t, w, h);
      var x, y := StepX(t, h - 2), StepY(t, h - 2);
      MatrixPixel02AmountZero(cur, w, h, m, x, y);
      WriteBackOwn(cur, Entry(x, y, w, 0), store);
    }
  }

  /** At amount 0 the blend gives back the pixel's own colour. */
  lemma MatrixPixel02AmountZero(cur: seq<int>, w: nat, h: nat, m: seq<real>, x: nat, y: nat)
    requires |cur| == w * h * 4 && |m| == 9 && InteriorPixel(x, y, w, h)
    ensures Entry(x, y, w, 0) + 2 < |cur|
    ensures MatrixPixel02(cur, w, h, m, 0.0, x, y) == TripleOf(PixelAt(cur, Entry(x, y, w, 0)))
  {
    EntryInRange(x, y, w, h, 2);
  }

  /** At amount 0 the in-place loops leave a byte buffer as it was. */
  lemma InPlaceAmountZero(orig: seq<int>, w: nat, h: nat, m: seq<real>, store: real -> int, t: nat)
    requires |orig| == w * h * 4 && |m| == 9
    requires IsByteStore(store) && AllBytes(orig)
    ensures InPlace02(orig, w, h, m, 0.0, store, t) == orig
  {
    var update := Update02(w, h, m, 0.0, store);
    forall i: nat
      ensures UpdateAt(update, orig, i) == orig
    {
      Update02At(w, h, m, 0.0, store, orig, i);
      MatrixWrite02AmountZero(orig, w, h, m, store, i);
    }
    IterateFixed(update, orig, t);
  }

  /** A step on a byte buffer through a byte store leaves bytes. */
  lemma MatrixWrite02Bytes(cur: seq<int>, w: nat, h: nat, m: seq<real>, amount: real, store: real -> int, t: nat)
    requires |cur| == w * h * 4 && |m| == 9
    requires IsByteStore(store) && AllBytes(cur)
    ensures AllBytes(MatrixWrite02(cur, w, h, m, amount, store, t))
  {
    var next := MatrixWrite02(cur, w, h, m, amount, store, t);
    forall k | 0 <= k < |next|
      ensures IsByte(next[k])
    {
      MatrixWrite02At(cur, w, h, m, amount, store, t, k);
      assert IsByte(cur[k]);
    }
  }

  /** The in-place loops draw bytes, and leave every alpha entry and the
      border as they were. */
  lemma InPlaceBytes(orig: seq<int>, w: nat, h: nat, m: seq<real>, amount: real, store: real -> int, t: nat)
    requires |orig| == w * h * 4 && |m| == 9
    requires IsByteStore(store) && AllBytes(orig)
    ensures var r := InPlace02(orig, w, h, m, amount, store, t);
      AllBytes(r) && forall k :: 0 <= k < |r| && !Convolvable(k, w, h) ==> r[k] == orig[k]
  {
    var update := Update02(w, h, m, amount, store);
    forall cur: seq<int>, i: nat | |cur| == |orig| && AllBytes(cur)
      ensures |UpdateAt(update, cur, i)| == |cur| && AllBytes(UpdateAt(update, cur, i))
    {
      Update02At(w, h, m, amount, store, cur, i);
      MatrixWrite02Bytes(cur, w, h, m, amount, store, i);
    }
    IterateBytes(update, orig, t);
    var r := InPlace02(orig, w, h, m, amount, store, t);
    forall k | 0 <= k < |r| && !Convolvable(k, w, h)
      ensures r[k] == orig[k]
    {
      InPlaceKept(orig, w, h, m, amount, store, t, k);
    }
  }

  /** When the outer loop stops, every step has been taken. */
  lemma LastColumn(i: nat, w: nat, h: nat)
    requires 1 <= i && i >= w - 1 && StepOf(i, 1, h) <= Steps(w, h)
    ensures StepOf(i, 1, h) == Steps(w, h)
  {
    if w >= 3 && h >= 3 {
      MulMonotone(w - 2, i - 1, h - 2);
    }
  }

  /** Down a column the steps count one by one. */
  lemma NextRow(x: nat, y: nat, h: nat)
    requires x >= 1 && y >= 1 && y + 1 < h
    ensures StepOf(x, y + 1, h) == StepOf(x, y, h) + 1
  {
  }

  /** When the inner loop stops at row j, the next column starts where it left off. */
  lemma NextColumn(x: nat, j: nat, h: nat)
    requires x >= 1 && 1 <= j <= (if h >= 2 then h - 1 else 1) && !(j < h - 1)
    ensures StepOf(x, j, h) == StepOf(x + 1, 1, h)
  {
    if h >= 3 {
      assert (x - 1) * (h - 2) + (h - 2) == x * (h - 2);
    }
  }

  /** Every column the outer loop starts is within the steps there are. */
  lemma StepBound(x: nat, w: nat, h: nat)
    requires 1 <= x <= w - 1
    ensures StepOf(x, 1, h) <= Steps(w, h)
  {
    if h >= 3 && w >= 3 {
      MulMonotone(x - 1, w - 2, h - 2);
    }
  }

  /** One pass of applyMatrix's inner loop: the sums at (x, y) over the
      buffer as it is, blended and written back through setRGB. */
  method MatrixStep02(data: array<int>, ghost orig: seq<int>, w: nat, h: nat, m: seq<real>, amount: real, store: real -> int, x: nat, y: nat)
    requires data.Length == w * h * 4 && |orig| == w * h * 4 && |m| == 9 && InteriorPixel(x, y, w, h)
    requires data[..] == InPlace02(orig, w, h, m, amount, store, StepOf(x, y, h))
    modifies data
    ensures StepOf(x, y + 1, h) <= Steps(w, h)
    ensures data[..] == InPlace02(orig, w, h, m, amount, store, StepOf(x, y + 1, h))
  {
    PixelStep(x, y, w, h);
    ghost var cur := data[..];
    var sumR, sumG, sumB := KernelSums(data[..], w, h, m, x, y, true);
    var ref := Entry(x, y, w, 0);
    InPlaceStep(orig, w, h, m, amount, store, x, y);
    var thisPixel := Pixel(data[ref], data[ref + 1], data[ref + 2]);
    SetRGB(data, ref,
      FindColorDifference(amount, sumR, thisPixel.r as real),
      FindColorDifference(amount, sumG, thisPixel.g as real),
      FindColorDifference(amount, sumB, thisPixel.b as real), store);
    assert data[..] == WithRGB(cur, ref, Some(MatrixPixel02(cur, w, h, m, amount, x, y)), store);
  }

  /** v0.2's applyMatrix: the sharpen kernel, normalized, swept over the
      interior column by column, reading and writing the one buffer. */
  method ApplyMatrix02(data: array<int>, w: nat, h: nat, amount: real, store: real -> int)
    requires data.Length == w * h * 4
    modifies data
    ensures data[..] == InPlace02(old(data[..]), w, h, SharpenKernel, amount, store, Steps(w, h))
  {
    var matrix := new real[9];
    matrix[0], matrix[1], matrix[2], matrix[3], matrix[4], matrix[5], matrix[6], matrix[7], matrix[8] :=
      -1.0, -1.0, -1.0, -1.0, 9.0, -1.0, -1.0, -1.0, -1.0;
    assert matrix[..] == SharpenKernel;
    SharpenUnchangedByNormalize();
    NormalizeMatrix(matrix);
    Sweep02(data, w, h, matrix[..], amount, store);
  }

  /** applyMatrix's two outer loops: every interior pixel, column by
      column and down each column, in place. */
  method Sweep02(data: array<int>, w: nat, h: nat, m: seq<real>, amount: real, store: real -> int)
    requires data.Length == w * h * 4 && |m| == 9
    modifies data
    ensures data[..] == InPlace02(old(data[..]), w, h, m, amount, store, Steps(w, h))
  {
    ghost var orig := data[..];
    var i := 1;
    while i < w - 1
      invariant 1 <= i <= if w >= 2 then w - 1 else 1
      invariant StepOf(i, 1, h) <= Steps(w, h)
      invariant data[..] == InPlace02(orig, w, h, m, amount, store, StepOf(i, 1, h))
    {
      SweepColumn02(data, orig, w, h, m, amount, store, i);
      i := i + 1;
      StepBound(i, w, h);
    }
    LastColumn(i, w, h);
  }

  /** applyMatrix's inner loop: down column x, in place. */
  method SweepColumn02(data: array<int>, ghost orig: seq<int>, w: nat, h: nat, m: seq<real>, amount: real, store: real -> int, x: nat)
    requires data.Length == w * h * 4 && |orig| == w * h * 4 && |m| == 9
    requires 1 <= x < w - 1 && StepOf(x, 1, h) <= Steps(w, h)
    requires data[..] == InPlace02(orig, w, h, m, amount, store, StepOf(x, 1, h))
    modifies data
    ensures StepOf(x + 1, 1, h) <= Steps(w, h)
    ensures data[..] == InPlace02(orig, w, h, m, amount, store, StepOf(x + 1, 1, h))
  {
    var j := 1;
    while j < h - 1
      invariant 1 <= j <= if h >= 2 then h - 1 else 1
      invariant StepOf(x, j, h) <= Steps(w, h)
      invariant data[..] == InPlace02(orig, w, h, m, amount, store, StepOf(x, j, h))
    {
      MatrixStep02(data, orig, w, h, m, amount, store, x, j);
      j := j + 1;
    }
    NextColumn(x, j, h);
  }

  /** What v0.2's processFilters puts back on the canvas for one element.
      Blur is the gaussianBlur result, handed in, and skips the main loop;
      matrix runs applyMatrix in place and then the main loop; tint first
      works out its target colour; every filter but blur runs the main
      loop, whose applyFilters has no case for edges, emboss, matrix or
      sharpen. */
  function Processed02(f: Filter, s: Settings02, image: seq<int>, w: nat, h: nat, blurred: seq<int>, rand: Draws, store: real -> int): seq<int>
    requires |image| == w * h * 4 && w > 0
    requires IsQuotient(s.posterizeValues) && IsQuotient(s.posterizeAreas)
  {
    match f
    case Blur => blurred
    case Matrix =>
      var sharpened := InPlace02(image, w, h, SharpenKernel, s.matrixAmount, store, Steps(w, h));
      Pass02(Matrix, s, NoTint, rand, sharpened, w, store, |image| / 4)
    case Tint => Pass02(Tint, s, TintTarget(s.tintColor), rand, image, w, store, |image| / 4)
    case _ => Pass02(f, s, NoTint, rand, image, w, store, |image| / 4)
  }

  /** v0.2's processFilters for one element and one filter class, from the
      image's pixels as initializeBuffer reads them (None when the image
      has no area). */
  method ProcessFilters02(f: Filter, s: Settings02, image: seq<int>, w: nat, h: nat, blurred: seq<int>, rand: Draws, store: real -> int)
    returns (drawn: Option<seq<int>>)
    requires |image| == w * h * 4
    requires IsQuotient(s.posterizeValues) && IsQuotient(s.posterizeAreas)
    ensures drawn.Some? <==> w > 0 && h > 0
    ensures drawn.Some? ==> drawn.value == Processed02(f, s, image, w, h, blurred, rand, store)
  {
    if w == 0 || h == 0 {
      return None;
    }
    var pixels := new int[|image|](k requires 0 <= k < |image| => image[k]);
    assert pixels[..] == image;
    if f == Blur {
      return Some(blurred);
    }
    if f == Matrix {
      ApplyMatrix02(pixels, w, h, s.matrixAmount, store);
    }
    var dest := NoTint;
    if f == Tint {
      dest := TintTarget(s.tintColor);
    }
    FilterPass02(f, s, dest, rand, pixels, w, store);
    drawn := Some(pixels[..]);
  }

  /** The matrix filter draws exactly what applyMatrix's in-place sweep
      leaves: the main loop after it changes nothing. */
  lemma Matrix02IsInPlace(s: Settings02, image: seq<int>, w: nat, h: nat, blurred: seq<int>, rand: Draws, store: real -> int)
    requires |image| == w * h * 4 && w > 0
    requires IsQuotient(s.posterizeValues) && IsQuotient(s.posterizeAreas)
    ensures Processed02(Matrix, s, image, w, h, blurred, rand, store) ==
      InPlace02(image, w, h, SharpenKernel, s.matrixAmount, store, Steps(w, h))
  {
    var sharpened := InPlace02(image, w, h, SharpenKernel, s.matrixAmount, store, Steps(w, h));
    var n := w * h;
    assert |sharpened| == |image| == n * 4;
    assert |image| / 4 == n;
    assert Processed02(Matrix, s, image, w, h, blurred, rand, store) == Pass02(Matrix, s, NoTint, rand, sharpened, w, store, |image| / 4);
    Pass02NoCase(Matrix, s, NoTint, rand, sharpened, w, store, |image| / 4);
  }

  /** Edges, emboss and sharpen have no code in v0.2: the image is drawn back as it was. */
  lemma NoCase02Identity(f: Filter, s: Settings02, image: seq<int>, w: nat, h: nat, blurred: seq<int>, rand: Draws, store: real -> int)
    requires |image| == w * h * 4 && w > 0 && f in {Edges, Emboss, Sharpen}
    requires IsQuotient(s.posterizeValues) && IsQuotient(s.posterizeAreas)
    ensures Processed02(f, s, image, w, h, blurred, rand, store) == image
  {
    Pass02NoCase(f, s, NoTint, rand, image, w, store, |image| / 4);
  }

  /** Every filter but blur, whose result is handed in, draws bytes and
      keeps every alpha entry of the image. */
  lemma ProcessedBytes02(f: Filter, s: Settings02, image: seq<int>, w: nat, h: nat, blurred: seq<int>, rand: Draws, store: real -> int)
    requires |image| == w * h * 4 && w > 0 && f != Blur
    requires IsQuotient(s.posterizeValues) && IsQuotient(s.posterizeAreas)
    requires IsByteStore(store) && AllBytes(image)
    ensures var r := Processed02(f, s, image, w, h, blurred, rand, store);
      |r| == |image| && AllBytes(r) && forall k :: 0 <= k < |r| && k % 4 == 3 ==> r[k] == image[k]
  {
    match f
    case Matrix =>
      Matrix02IsInPlace(s, image, w, h, blurred, rand, store);
      InPlaceBytes(image, w, h, SharpenKernel, s.matrixAmount, store, Steps(w, h));
    case Tint =>
      Pass02Bytes(Tint, s, TintTarget(s.tintColor), rand, image, w, store, |image| / 4);
    case Blur =>
      assert false;
    case _ =>
      Pass02Bytes(f, s, NoTint, rand, image, w, store, |image| / 4);
  }

  /** getFilterParameters' defaults in v0.2. */
  const Defaults02: map<string, Param> := map[
    "blurAmount" := Num(1.0), "greyscaleAmount" := Num(1.0), "mosaicAmount" := Num(1.0),
    "mosaicSize" := Num(5.0), "noiseAmount" := Num(30.0), "noiseType" := Text("mono"),
    "posterizeAmount" := Num(5.0), "sepiaAmount" := Num(1.0), "tintAmount" := Num(0.3),
    "tintColor" := Text("#FFF"), "matrixAmount" := Num(0.2)]

  /** The entries getFilterParameters reads by name. */
  lemma Defaults02Keys()
    ensures "posterizeAmount" in Defaults02 && Defaults02["posterizeAmount"] == Num(5.0)
    ensures "tintColor" in Defaults02 && Defaults02["tintColor"] == Text("#FFF")
  {
  }

  /** The default of five posterize levels gives areas of 51.2 and values of 63.75. */
  lemma DefaultPosterize02(toNumber: string -> real)
    ensures "posterizeAmount" in Defaults02 && !Defaults02["posterizeAmount"].Infinity?
    ensures var amount := NumberOf(Defaults02["posterizeAmount"], toNumber);
      Divide(256.0, amount) == Num(51.2) && Divide(255.0, amount - 1.0) == Num(63.75)
  {
    Defaults02Keys();
  }
}
