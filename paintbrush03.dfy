/** PaintbrushJS v0.3 (paintbrush.js): the per-pixel filters of applyFilters,
    the convolution filters of applyMatrix, and processFilters, which picks
    between them. */
module Paintbrush03 {
  import opened Pixels
  import opened Color
  import opened Kernel
  import opened Convolution
  import opened Params
  import opened Mosaic
  import opened RandomNoise
  import opened Posterize

  /** The parameters processFilters reads, as numbers and strings. */
  datatype Settings = Settings(
    edgesAmount: real, embossAmount: real, greyscaleOpacity: real, matrixAmount: real,
    mosaicOpacity: real, mosaicSize: int, noiseAmount: real, noiseType: string,
    posterizeAreas: Param, posterizeOpacity: real, posterizeValues: Param, sepiaOpacity: real,
    sharpenAmount: real, tintColor: string, tintOpacity: real)

  /** A posterize channel: the blend towards its level; NaN, which the
      buffer stores as 0, is the 0 handed to the store. */
  function PosterizeChannel(opacity: real, values: Param, areas: Param, c: int): real
    requires IsQuotient(values) && IsQuotient(areas)
  {
    match PosterizeLevel(values, areas, c)
    case None => 0.0
    case Some(level) => FindColorDifference(opacity, level as real, c as real)
  }

  /** The noise case: mono noise adds pixel i's first draw to all three
      channels, colour noise one of the other three draws to each. */
  function NoisePixel03(s: Settings, rand: Draws, px: Pixel, i: nat): Triple
  {
    if IsMono(s.noiseType) then
      var val := Noise03(s.noiseAmount, rand(i, 0));
      NoisePixel(px, val, val, val)
    else
      NoisePixel(px, Noise03(s.noiseAmount, rand(i, 1)), Noise03(s.noiseAmount, rand(i, 2)),
                 Noise03(s.noiseAmount, rand(i, 3)))
  }

  /** The posterize case, channel by channel. */
  function PosterizePixel03(s: Settings, px: Pixel): Triple
    requires IsQuotient(s.posterizeValues) && IsQuotient(s.posterizeAreas)
  {
    Triple(PosterizeChannel(s.posterizeOpacity, s.posterizeValues, s.posterizeAreas, px.r),
           PosterizeChannel(s.posterizeOpacity, s.posterizeValues, s.posterizeAreas, px.g),
           PosterizeChannel(s.posterizeOpacity, s.posterizeValues, s.posterizeAreas, px.b))
  }

  /** What applyFilters writes for pixel i of colour px (None: the filter
      has no case and writes nothing); anchor is the colour a mosaic reads
      at the pixel's anchor. Mono noise uses pixel i's first draw; colour
      noise makes four and uses the last three. */
  function PixelOut(f: Filter, s: Settings, dest: Pixel, rand: Draws, px: Pixel, anchor: Pixel, i: nat): Option<Triple>
    requires IsQuotient(s.posterizeValues) && IsQuotient(s.posterizeAreas)
  {
    match f
    case Greyscale =>
      var val := Luminance(px);
      Some(BlendPixel(s.greyscaleOpacity, Triple(val, val, val), px))
    case Mosaic => Some(BlendPixel(s.mosaicOpacity, TripleOf(anchor), px))
    case Noise => Some(NoisePixel03(s, rand, px, i))
    case Posterize => Some(PosterizePixel03(s, px))
    case Sepia => Some(BlendPixel(s.sepiaOpacity, SepiaTone(px), px))
    case Tint => Some(BlendPixel(s.tintOpacity, TripleOf(dest), px))
    case _ => None
  }

  /** The entry of the mosaic anchor of the pixel at index. */
  function AnchorEntry(index: nat, w: nat, size: int): (pos: nat)
    requires w > 0
    ensures pos % 4 == 0 && pos <= index - index % 4
  {
    4 * MosaicAnchor(index / 4, w, size)
  }

  /** What applyFilters writes at index, reading the buffer cur. */
  function FilterOut(f: Filter, s: Settings, dest: Pixel, rand: Draws, cur: seq<int>, index: nat, w: nat): Option<Triple>
    requires index % 4 == 0 && index + 2 < |cur| && w > 0
    requires IsQuotient(s.posterizeValues) && IsQuotient(s.posterizeAreas)
  {
    PixelOut(f, s, dest, rand, PixelAt(cur, index), PixelAt(cur, AnchorEntry(index, w, s.mosaicSize)), index / 4)
  }

  /** applyFilters: what FilterOut describes, written through setRGB. */
  method ApplyFilters(f: Filter, s: Settings, dest: Pixel, rand: Draws, data: array<int>, index: nat, thisPixel: Pixel, w: nat, store: real -> int)
    requires index % 4 == 0 && index + 2 < data.Length && w > 0
    requires IsQuotient(s.posterizeValues) && IsQuotient(s.posterizeAreas)
    requires thisPixel == PixelAt(data[..], index)
    modifies data
    ensures data[..] == WithRGB(old(data[..]), index, FilterOut(f, s, dest, rand, old(data[..]), index, w), store)
  {
    ghost var out := FilterOut(f, s, dest, rand, data[..], index, w);
    var i := index / 4;
    match f
    case Greyscale =>
      var val := Luminance(thisPixel);
      var r, g, b := FindColorDifference(s.greyscaleOpacity, val, thisPixel.r as real),
        FindColorDifference(s.greyscaleOpacity, val, thisPixel.g as real),
        FindColorDifference(s.greyscaleOpacity, val, thisPixel.b as real);
      assert out == Some(Triple(r, g, b));
      SetRGB(data, index, r, g, b, store);
    case Mosaic =>
      var pos := AnchorEntry(index, w, s.mosaicSize);
      var r, g, b := FindColorDifference(s.mosaicOpacity, data[pos] as real, thisPixel.r as real),
        FindColorDifference(s.mosaicOpacity, data[pos + 1] as real, thisPixel.g as real),
        FindColorDifference(s.mosaicOpacity, data[pos + 2] as real, thisPixel.b as real);
      assert out == Some(Triple(r, g, b));
      SetRGB(data, index, r, g, b, store);
    case Noise =>
      var val := Noise03(s.noiseAmount, rand(i, 0));
      if IsMono(s.noiseType) {
        var r, g, b := CheckRGBBoundary(thisPixel.r + val) as real,
          CheckRGBBoundary(thisPixel.g + val) as real,
          CheckRGBBoundary(thisPixel.b + val) as real;
        assert out == Some(Triple(r, g, b));
        SetRGB(data, index, r, g, b, store);
      } else {
        var r, g, b := CheckRGBBoundary(thisPixel.r + Noise03(s.noiseAmount, rand(i, 1))) as real,
          CheckRGBBoundary(thisPixel.g + Noise03(s.noiseAmount, rand(i, 2))) as real,
          CheckRGBBoundary(thisPixel.b + Noise03(s.noiseAmount, rand(i, 3))) as real;
        assert out == Some(Triple(r, g, b));
        SetRGB(data, index, r, g, b, store);
      }
    case Posterize =>
      var r, g, b := PosterizeChannel(s.posterizeOpacity, s.posterizeValues, s.posterizeAreas, thisPixel.r),
        PosterizeChannel(s.posterizeOpacity, s.posterizeValues, s.posterizeAreas, thisPixel.g),
        PosterizeChannel(s.posterizeOpacity, s.posterizeValues, s.posterizeAreas, thisPixel.b);
      assert out == Some(Triple(r, g, b));
      SetRGB(data, index, r, g, b, store);
    case Sepia =>
      var sepia := SepiaTone(thisPixel);
      var r, g, b := FindColorDifference(s.sepiaOpacity, sepia.r, thisPixel.r as real),
        FindColorDifference(s.sepiaOpacity, sepia.g, thisPixel.g as real),
        FindColorDifference(s.sepiaOpacity, sepia.b, thisPixel.b as real);
      assert out == Some(Triple(r, g, b));
      SetRGB(data, index, r, g, b, store);
    case Tint =>
      var r, g, b := FindColorDifference(s.tintOpacity, dest.r as real, thisPixel.r as real),
        FindColorDifference(s.tintOpacity, dest.g as real, thisPixel.g as real),
        FindColorDifference(s.tintOpacity, dest.b as real, thisPixel.b as real);
      assert out == Some(Triple(r, g, b));
      SetRGB(data, index, r, g, b, store);
    case _ =>
  }

  /** Entry k after the main loop, stated on the buffer as it was before:
      R, G and B of pixel k / 4 as FilterOut says, reading the original
      pixels, and alpha, or all four when FilterOut writes nothing, kept. */
  function PassEntry(f: Filter, s: Settings, dest: Pixel, rand: Draws, orig: seq<int>, w: nat, store: real -> int, k: nat): int
    requires |orig| % 4 == 0 && w > 0 && k < |orig|
    requires IsQuotient(s.posterizeValues) && IsQuotient(s.posterizeAreas)
  {
    if k % 4 == 3 then orig[k]
    else match FilterOut(f, s, dest, rand, orig, 4 * (k / 4), w)
      case None => orig[k]
      case Some(t) => store(TChannel(t, k % 4))
  }

  /** The buffer after the main loop of processFilters. */
  function PassResult(f: Filter, s: Settings, dest: Pixel, rand: Draws, orig: seq<int>, w: nat, store: real -> int): (r: seq<int>)
    requires |orig| % 4 == 0 && w > 0
    requires IsQuotient(s.posterizeValues) && IsQuotient(s.posterizeAreas)
    ensures |r| == |orig|
    ensures forall k :: 0 <= k < |orig| && k % 4 == 3 ==> r[k] == orig[k]
  {
    seq(|orig|, k requires 0 <= k < |orig| => PassEntry(f, s, dest, rand, orig, w, store, k))
  }

  /** A mosaic anchor has already been visited when a later pixel reads it,
      and keeps its colour: its own anchor is itself, and a byte blended
      with itself and stored is the same byte. */
  lemma AnchorKeepsColour(s: Settings, dest: Pixel, rand: Draws, orig: seq<int>, w: nat, store: real -> int, index: nat, c: nat)
    requires |orig| % 4 == 0 && w > 0 && index % 4 == 0 && index < |orig| && c < 3
    requires IsQuotient(s.posterizeValues) && IsQuotient(s.posterizeAreas)
    requires IsByteStore(store) && AllBytes(orig)
    ensures var pos := AnchorEntry(index, w, s.mosaicSize);
      pos + c < |orig| && PassEntry(Mosaic, s, dest, rand, orig, w, store, pos + c) == orig[pos + c]
  {
    var pos := AnchorEntry(index, w, s.mosaicSize);
    MosaicAnchorFixed(index / 4, w, s.mosaicSize);
    var k := pos + c;
    assert k / 4 == pos / 4 && k % 4 == c && 4 * (k / 4) == pos;
    assert AnchorEntry(pos, w, s.mosaicSize) == pos;
    var px := PixelAt(orig, pos);
    assert FilterOut(Mosaic, s, dest, rand, orig, pos, w) == Some(BlendPixel(s.mosaicOpacity, TripleOf(px), px));
    assert BlendPixel(s.mosaicOpacity, TripleOf(px), px) == TripleOf(px);
    assert IsByte(orig[k]);
  }

  /** The same for the anchor's three channels together. */
  lemma AnchorPixelKept(s: Settings, dest: Pixel, rand: Draws, orig: seq<int>, w: nat, store: real -> int, index: nat)
    requires |orig| % 4 == 0 && w > 0 && index % 4 == 0 && index < |orig|
    requires IsQuotient(s.posterizeValues) && IsQuotient(s.posterizeAreas)
    requires IsByteStore(store) && AllBytes(orig)
    ensures var pos := AnchorEntry(index, w, s.mosaicSize);
      pos + 2 < |orig| && PixelAt(PassResult(Mosaic, s, dest, rand, orig, w, store), pos) == PixelAt(orig, pos)
  {
    var pos := AnchorEntry(index, w, s.mosaicSize);
    var final := PassResult(Mosaic, s, dest, rand, orig, w, store);
    AnchorKeepsColour(s, dest, rand, orig, w, store, index, 0);
    AnchorKeepsColour(s, dest, rand, orig, w, store, index, 1);
    AnchorKeepsColour(s, dest, rand, orig, w, store, index, 2);
    assert final[pos] == PassEntry(Mosaic, s, dest, rand, orig, w, store, pos);
    assert final[pos + 1] == PassEntry(Mosaic, s, dest, rand, orig, w, store, pos + 1);
    assert final[pos + 2] == PassEntry(Mosaic, s, dest, rand, orig, w, store, pos + 2);
  }

  /** Only the mosaic looks at the anchor. */
  lemma PixelOutIgnoresAnchor(f: Filter, s: Settings, dest: Pixel, rand: Draws, px: Pixel, a: Pixel, b: Pixel, i: nat)
    requires IsQuotient(s.posterizeValues) && IsQuotient(s.posterizeAreas)
    requires f != Mosaic
    ensures PixelOut(f, s, dest, rand, px, a, i) == PixelOut(f, s, dest, rand, px, b, i)
  {
  }

  /** A mosaic pixel part way through the loop sees its anchor as it was:
      either the pixel itself, untouched so far, or an earlier pixel that
      kept its colour. */
  lemma MosaicReadsOriginal(s: Settings, dest: Pixel, rand: Draws, orig: seq<int>, w: nat, store: real -> int, cur: seq<int>, i: nat)
    requires |orig| % 4 == 0 && w > 0 && 4 * i + 3 < |orig|
    requires IsQuotient(s.posterizeValues) && IsQuotient(s.posterizeAreas)
    requires IsByteStore(store) && AllBytes(orig)
    requires DoneBefore(cur, PassResult(Mosaic, s, dest, rand, orig, w, store), orig, i)
    ensures var pos := AnchorEntry(4 * i, w, s.mosaicSize); PixelAt(cur, pos) == PixelAt(orig, pos)
  {
    var index := 4 * i;
    var final := PassResult(Mosaic, s, dest, rand, orig, w, store);
    var pos := AnchorEntry(index, w, s.mosaicSize);
    if pos < index {
      AnchorPixelKept(s, dest, rand, orig, w, store, index);
      DonePixelKept(cur, final, orig, i, pos);
    } else {
      CurrentPixelUntouched(cur, final, orig, i);
    }
  }

  /** Part way through the loop, pixel i reads what it would have read
      from the original buffer: only the mosaic looks past the pixel
      itself, and it finds its anchor unchanged. */
  lemma PassReadsOriginal(f: Filter, s: Settings, dest: Pixel, rand: Draws, orig: seq<int>, w: nat, store: real -> int, cur: seq<int>, i: nat)
    requires |orig| % 4 == 0 && w > 0 && 4 * i < |orig|
    requires IsQuotient(s.posterizeValues) && IsQuotient(s.posterizeAreas)
    requires f == Mosaic ==> IsByteStore(store) && AllBytes(orig)
    requires DoneBefore(cur, PassResult(f, s, dest, rand, orig, w, store), orig, i)
    ensures FilterOut(f, s, dest, rand, cur, 4 * i, w) == FilterOut(f, s, dest, rand, orig, 4 * i, w)
  {
    var index := 4 * i;
    CurrentPixelUntouched(cur, PassResult(f, s, dest, rand, orig, w, store), orig, i);
    var pos := AnchorEntry(index, w, s.mosaicSize);
    if f == Mosaic {
      MosaicReadsOriginal(s, dest, rand, orig, w, store, cur, i);
    } else {
      PixelOutIgnoresAnchor(f, s, dest, rand, PixelAt(orig, index), PixelAt(cur, pos), PixelAt(orig, pos), i);
    }
  }

  /** Writing pixel i as FilterOut says moves the loop on by one pixel. */
  lemma PassStep(f: Filter, s: Settings, dest: Pixel, rand: Draws, orig: seq<int>, w: nat, store: real -> int, cur: seq<int>, i: nat)
    requires |orig| % 4 == 0 && w > 0 && 4 * i < |orig|
    requires IsQuotient(s.posterizeValues) && IsQuotient(s.posterizeAreas)
    requires DoneBefore(cur, PassResult(f, s, dest, rand, orig, w, store), orig, i)
    ensures DoneBefore(WithRGB(cur, 4 * i, FilterOut(f, s, dest, rand, orig, 4 * i, w), store),
                       PassResult(f, s, dest, rand, orig, w, store), orig, i + 1)
  {
    var t := FilterOut(f, s, dest, rand, orig, 4 * i, w);
    var next := WithRGB(cur, 4 * i, t, store);
    var final := PassResult(f, s, dest, rand, orig, w, store);
    forall k | 0 <= k < |next|
      ensures next[k] == if k / 4 < i + 1 then final[k] else orig[k]
    {
      WithRGBAt(cur, 4 * i, t, store, k);
      if k / 4 == i {
        assert 4 * (k / 4) == 4 * i;
        assert final[k] == PassEntry(f, s, dest, rand, orig, w, store, k);
      }
    }
  }

  /** processFilters' main loop: applyFilters on every pixel in turn. */
  method FilterPass(f: Filter, s: Settings, dest: Pixel, rand: Draws, data: array<int>, w: nat, store: real -> int)
    requires data.Length % 4 == 0 && w > 0
    requires IsQuotient(s.posterizeValues) && IsQuotient(s.posterizeAreas)
    requires f == Mosaic ==> IsByteStore(store) && AllBytes(data[..])
    modifies data
    ensures data[..] == PassResult(f, s, dest, rand, old(data[..]), w, store)
  {
    ghost var orig := data[..];
    ghost var final := PassResult(f, s, dest, rand, orig, w, store);
    var i := 0;
    while i < data.Length / 4
      invariant 0 <= i <= data.Length / 4
      invariant DoneBefore(data[..], final, orig, i)
    {
      var index := 4 * i;
      ghost var cur := data[..];
      var thisPixel := Pixel(data[index], data[index + 1], data[index + 2]);
      ApplyFilters(f, s, dest, rand, data, index, thisPixel, w, store);
      PassReadsOriginal(f, s, dest, rand, orig, w, store, cur, i);
      PassStep(f, s, dest, rand, orig, w, store, cur, i);
      i := i + 1;
    }
    AllDone(data[..], final, orig, i);
  }

  /** The three numbers applyMatrix writes for the interior pixel (x, y):
      the buffer's pixel blended by amount towards the image's sums. */
  function MatrixPixel(cur: seq<int>, image: seq<int>, w: nat, h: nat, m: seq<real>, amount: real, x: nat, y: nat): Triple
    requires |image| == w * h * 4 && |cur| == |image| && |m| == 9 && InteriorPixel(x, y, w, h)
  {
    EntryInRange(x, y, w, h, 2);
    var ref := Entry(x, y, w, 0);
    Triple(FindColorDifference(amount, ConvSum(image, w, h, m, x, y, 0, false), cur[ref] as real),
           FindColorDifference(amount, ConvSum(image, w, h, m, x, y, 1, false), cur[ref + 1] as real),
           FindColorDifference(amount, ConvSum(image, w, h, m, x, y, 2, false), cur[ref + 2] as real))
  }

  /** Entry k after applyMatrix: R, G and B of an interior pixel are blended
      by amount towards the convolution of the image around it; the border
      and every alpha entry stay as they were. */
  function MatrixEntry(cur: seq<int>, image: seq<int>, w: nat, h: nat, m: seq<real>, amount: real, store: real -> int, k: nat): int
    requires |image| == w * h * 4 && |cur| == |image| && |m| == 9 && k < |cur|
  {
    if Convolvable(k, w, h) then
      store(FindColorDifference(amount, ConvSum(image, w, h, m, Col(k, w), Row(k, w), k % 4, false), cur[k] as real))
    else cur[k]
  }

  /** The buffer after applyMatrix. */
  function Convolved(cur: seq<int>, image: seq<int>, w: nat, h: nat, m: seq<real>, amount: real, store: real -> int): (r: seq<int>)
    requires |image| == w * h * 4 && |cur| == |image| && |m| == 9
    ensures |r| == |cur|
    ensures forall k :: 0 <= k < |cur| && !Convolvable(k, w, h) ==> r[k] == cur[k]
  {
    seq(|cur|, k requires 0 <= k < |cur| => MatrixEntry(cur, image, w, h, m, amount, store, k))
  }

  /** applyMatrix's loops part way: column x, row y is done when x < i, or
      x == i and y < j. */
  ghost predicate MatrixDone(cur: seq<int>, final: seq<int>, orig: seq<int>, w: nat, i: int, j: int)
  {
    |cur| == |orig| && |final| == |orig| &&
    forall k :: 0 <= k < |cur| ==>
      w > 0 && cur[k] == if Col(k, w) < i || (Col(k, w) == i && Row(k, w) < j) then final[k] else orig[k]
  }

  /** What the loops do not write is final from the start. */
  ghost predicate BorderKept(final: seq<int>, orig: seq<int>, w: nat, h: nat)
  {
    |final| == |orig| && forall k :: 0 <= k < |orig| && !Convolvable(k, w, h) ==> final[k] == orig[k]
  }

  /** Before the loops: column 0 and the top of column 1 are border. */
  lemma MatrixStart(final: seq<int>, orig: seq<int>, w: nat, h: nat)
    requires |orig| == w * h * 4 && BorderKept(final, orig, w, h)
    ensures MatrixDone(orig, final, orig, w, 1, 1)
  {
  }

  /** The pixel the inner loop is at has not been written yet. */
  lemma MatrixPixelUntouched(cur: seq<int>, final: seq<int>, orig: seq<int>, w: nat, h: nat, i: nat, j: nat)
    requires |orig| == w * h * 4 && InteriorPixel(i, j, w, h)
    requires MatrixDone(cur, final, orig, w, i, j)
    ensures ConvertCoordinates(i, j, w) * 4 + 2 < |orig|
    ensures PixelAt(cur, ConvertCoordinates(i, j, w) * 4) == PixelAt(orig, ConvertCoordinates(i, j, w) * 4)
  {
    EntryInRange(i, j, w, h, 2);
    EntryDecode(i, j, w, 0);
    EntryDecode(i, j, w, 1);
    EntryDecode(i, j, w, 2);
  }

  /** Writing pixel (i, j) moves the inner loop on by one row. */
  lemma MatrixStep(cur: seq<int>, orig: seq<int>, image: seq<int>, w: nat, h: nat, m: seq<real>, amount: real, store: real -> int, i: nat, j: nat)
    requires |image| == w * h * 4 && |orig| == |image| && |m| == 9 && InteriorPixel(i, j, w, h)
    requires MatrixDone(cur, Convolved(orig, image, w, h, m, amount, store), orig, w, i, j)
    ensures ConvertCoordinates(i, j, w) * 4 + 2 < |cur|
    ensures MatrixDone(WithRGB(cur, ConvertCoordinates(i, j, w) * 4, Some(MatrixPixel(orig, image, w, h, m, amount, i, j)), store),
                       Convolved(orig, image, w, h, m, amount, store), orig, w, i, j + 1)
  {
    var ref := ConvertCoordinates(i, j, w) * 4;
    EntryInRange(i, j, w, h, 2);
    var t := MatrixPixel(orig, image, w, h, m, amount, i, j);
    var next := WithRGB(cur, ref, Some(t), store);
    var final := Convolved(orig, image, w, h, m, amount, store);
    forall k | 0 <= k < |next|
      ensures next[k] == if Col(k, w) < i || (Col(k, w) == i && Row(k, w) < j + 1) then final[k] else orig[k]
    {
      WithRGBAt(cur, ref, Some(t), store, k);
      EntryEncode(k, w);
      if Col(k, w) == i && Row(k, w) == j {
        assert k == ref + k % 4;
        assert final[k] == MatrixEntry(orig, image, w, h, m, amount, store, k);
      } else {
        assert !(ref <= k < ref + 3) by {
          if ref <= k < ref + 3 {
            EntryDecode(i, j, w, k - ref);
          }
        }
      }
    }
  }

  /** At the bottom of column i the rest of the column is border, and so is
      the top of column i + 1. */
  lemma MatrixNextColumn(cur: seq<int>, final: seq<int>, orig: seq<int>, w: nat, h: nat, i: int, j: int)
    requires |orig| == w * h * 4 && BorderKept(final, orig, w, h)
    requires MatrixDone(cur, final, orig, w, i, j) && j >= h - 1 && j >= 1
    ensures MatrixDone(cur, final, orig, w, i + 1, 1)
  {
  }

  /** Past the last interior column everything is final. */
  lemma MatrixAllDone(cur: seq<int>, final: seq<int>, orig: seq<int>, w: nat, h: nat, i: int)
    requires |orig| == w * h * 4 && BorderKept(final, orig, w, h)
    requires MatrixDone(cur, final, orig, w, i, 1) && i >= w - 1
    ensures cur == final
  {
    forall k | 0 <= k < |cur|
      ensures cur[k] == final[k]
    {
      EntryEncode(k, w);
    }
  }

  /** applyMatrix: every interior pixel, column by column, blended towards
      the convolution of the unfiltered image; the buffer's own pixel is
      read before it is written. */
  method ApplyMatrix(image: seq<int>, data: array<int>, w: nat, h: nat, matrix: seq<real>, amount: real, store: real -> int)
    requires |image| == w * h * 4 && data.Length == |image| && |matrix| == 9
    modifies data
    ensures data[..] == Convolved(old(data[..]), image, w, h, matrix, amount, store)
  {
    ghost var orig := data[..];
    ghost var final := Convolved(orig, image, w, h, matrix, amount, store);
    MatrixStart(final, orig, w, h);
    var i := 1;
    while i < w - 1
      invariant 1 <= i
      invariant MatrixDone(data[..], final, orig, w, i, 1)
    {
      var j := 1;
      while j < h - 1
        invariant 1 <= j
        invariant MatrixDone(data[..], final, orig, w, i, j)
      {
        var sumR, sumG, sumB := KernelSums(image, w, h, matrix, i, j, false);
        var ref := ConvertCoordinates(i, j, w) * 4;
        ghost var cur := data[..];
        MatrixPixelUntouched(cur, final, orig, w, h, i, j);
        var thisPixel := Pixel(data[ref], data[ref + 1], data[ref + 2]);
        SetRGB(data, ref,
          FindColorDifference(amount, sumR, thisPixel.r as real),
          FindColorDifference(amount, sumG, thisPixel.g as real),
          FindColorDifference(amount, sumB, thisPixel.b as real), store);
        assert data[..] == WithRGB(cur, ref, Some(MatrixPixel(orig, image, w, h, matrix, amount, i, j)), store);
        MatrixStep(cur, orig, image, w, h, matrix, amount, store, i, j);
        j := j + 1;
      }
      MatrixNextColumn(data[..], final, orig, w, h, i, j);
      i := i + 1;
    }
    MatrixAllDone(data[..], final, orig, w, h, i);
  }

  /** The opacity a blending filter reads, if it has one. */
  function BlendOpacity(f: Filter, s: Settings): Option<real>
  {
    match f
    case Greyscale => Some(s.greyscaleOpacity)
    case Mosaic => Some(s.mosaicOpacity)
    case Posterize => Some(s.posterizeOpacity)
    case Sepia => Some(s.sepiaOpacity)
    case Tint => Some(s.tintOpacity)
    case _ => None
  }

  /** One entry of the pass at opacity 0 is the entry as it was. */
  lemma OpacityZeroEntry(f: Filter, s: Settings, dest: Pixel, rand: Draws, orig: seq<int>, w: nat, store: real -> int, k: nat)
    requires |orig| % 4 == 0 && w > 0 && k < |orig|
    requires IsQuotient(s.posterizeValues) && IsQuotient(s.posterizeAreas)
    requires BlendOpacity(f, s) == Some(0.0) && (f == Posterize ==> s.posterizeValues.Num?)
    requires IsByteStore(store) && AllBytes(orig)
    ensures PassEntry(f, s, dest, rand, orig, w, store, k) == orig[k]
  {
    var index := 4 * (k / 4);
    assert index <= k < index + 4 && k % 4 == k - index;
    assert IsByte(orig[k]);
    if k % 4 < 3 {
      var px := PixelAt(orig, index);
      assert FilterOut(f, s, dest, rand, orig, index, w) == Some(TripleOf(px)) by {
        if f == Posterize {
          assert PosterizeLevel(s.posterizeValues, s.posterizeAreas, px.r).Some?;
          assert PosterizeLevel(s.posterizeValues, s.posterizeAreas, px.g).Some?;
          assert PosterizeLevel(s.posterizeValues, s.posterizeAreas, px.b).Some?;
        }
      }
      assert TChannel(TripleOf(px), k % 4) == orig[k] as real;
    }
  }

  /** At opacity 0 a blending filter leaves a byte buffer as it was;
      posterize needs at least two levels, as more do not give NaN. */
  lemma OpacityZeroIdentity(f: Filter, s: Settings, dest: Pixel, rand: Draws, orig: seq<int>, w: nat, store: real -> int)
    requires |orig| % 4 == 0 && w > 0
    requires IsQuotient(s.posterizeValues) && IsQuotient(s.posterizeAreas)
    requires BlendOpacity(f, s) == Some(0.0) && (f == Posterize ==> s.posterizeValues.Num?)
    requires IsByteStore(store) && AllBytes(orig)
    ensures PassResult(f, s, dest, rand, orig, w, store) == orig
  {
    var r := PassResult(f, s, dest, rand, orig, w, store);
    forall k | 0 <= k < |orig|
      ensures r[k] == orig[k]
    {
      OpacityZeroEntry(f, s, dest, rand, orig, w, store, k);
    }
  }

  /** One entry of the pass with noise amount 0. */
  lemma NoiseZeroEntry(s: Settings, dest: Pixel, rand: Draws, orig: seq<int>, w: nat, store: real -> int, k: nat)
    requires |orig| % 4 == 0 && w > 0 && k < |orig|
    requires IsQuotient(s.posterizeValues) && IsQuotient(s.posterizeAreas)
    requires s.noiseAmount == 0.0 && IsByteStore(store) && AllBytes(orig)
    ensures PassEntry(Noise, s, dest, rand, orig, w, store, k) == orig[k]
  {
    var index := 4 * (k / 4);
    assert index <= k < index + 4 && k % 4 == k - index;
    assert IsByte(orig[k]);
    var i := index / 4;
    assert Noise03(0.0, rand(i, 0)) == 0 && Noise03(0.0, rand(i, 1)) == 0;
    assert Noise03(0.0, rand(i, 2)) == 0 && Noise03(0.0, rand(i, 3)) == 0;
  }

  /** Noise of amount 0 changes nothing, whatever the draws. */
  lemma NoiseZeroIdentity(s: Settings, dest: Pixel, rand: Draws, orig: seq<int>, w: nat, store: real -> int)
    requires |orig| % 4 == 0 && w > 0
    requires IsQuotient(s.posterizeValues) && IsQuotient(s.posterizeAreas)
    requires s.noiseAmount == 0.0 && IsByteStore(store) && AllBytes(orig)
    ensures PassResult(Noise, s, dest, rand, orig, w, store) == orig
  {
    var r := PassResult(Noise, s, dest, rand, orig, w, store);
    forall k | 0 <= k < |orig|
      ensures r[k] == orig[k]
    {
      NoiseZeroEntry(s, dest, rand, orig, w, store, k);
    }
  }

  /** A colour entry after noise: the clamped sum of the channel and a
      noise value, the same draw for all three channels in mono mode and
      draws 1, 2 and 3 of the pixel otherwise. */
  lemma NoiseEntry(s: Settings, dest: Pixel, rand: Draws, orig: seq<int>, w: nat, store: real -> int, k: nat)
    requires |orig| % 4 == 0 && w > 0 && k < |orig| && k % 4 < 3
    requires IsQuotient(s.posterizeValues) && IsQuotient(s.posterizeAreas)
    ensures var draw := if IsMono(s.noiseType) then 0 else k % 4 + 1;
      PassEntry(Noise, s, dest, rand, orig, w, store, k) ==
      store(CheckRGBBoundary(orig[k] + Noise03(s.noiseAmount, rand(k / 4, draw))) as real)
  {
    var index := 4 * (k / 4);
    assert index <= k < index + 3 && k % 4 == k - index && index / 4 == k / 4;
  }

  /** Filters without a case in applyFilters: the main loop keeps the
      buffer. In v0.3 only edges runs that loop, after its convolution. */
  lemma NoCaseKeeps(f: Filter, s: Settings, dest: Pixel, rand: Draws, orig: seq<int>, w: nat, store: real -> int)
    requires |orig| % 4 == 0 && w > 0
    requires IsQuotient(s.posterizeValues) && IsQuotient(s.posterizeAreas)
    requires f in {Blur, Edges, Emboss, Matrix, Sharpen}
    ensures PassResult(f, s, dest, rand, orig, w, store) == orig
  {
    var r := PassResult(f, s, dest, rand, orig, w, store);
    forall k | 0 <= k < |orig|
      ensures r[k] == orig[k]
    {
      assert r[k] == PassEntry(f, s, dest, rand, orig, w, store, k);
    }
  }

  /** A colour entry of full greyscale: the stored luminance of its pixel. */
  lemma GreyscaleFullEntry(s: Settings, dest: Pixel, rand: Draws, orig: seq<int>, w: nat, store: real -> int, k: nat)
    requires |orig| % 4 == 0 && w > 0 && k < |orig| && k % 4 < 3
    requires IsQuotient(s.posterizeValues) && IsQuotient(s.posterizeAreas)
    requires s.greyscaleOpacity == 1.0
    ensures 4 * (k / 4) + 2 < |orig|
    ensures PassEntry(Greyscale, s, dest, rand, orig, w, store, k) == store(Luminance(PixelAt(orig, 4 * (k / 4))))
  {
  }

  /** Full greyscale: R, G and B of every pixel all become the stored
      luminance of the original pixel. */
  lemma GreyscaleFull(s: Settings, dest: Pixel, rand: Draws, orig: seq<int>, w: nat, store: real -> int, i: nat)
    requires |orig| % 4 == 0 && w > 0 && 4 * i < |orig|
    requires IsQuotient(s.posterizeValues) && IsQuotient(s.posterizeAreas)
    requires s.greyscaleOpacity == 1.0
    ensures var r, v := PassResult(Greyscale, s, dest, rand, orig, w, store), store(Luminance(PixelAt(orig, 4 * i)));
      r[4 * i] == v && r[4 * i + 1] == v && r[4 * i + 2] == v
  {
    var r := PassResult(Greyscale, s, dest, rand, orig, w, store);
    assert (4 * i) / 4 == i && (4 * i + 1) / 4 == i && (4 * i + 2) / 4 == i;
    assert (4 * i) % 4 == 0 && (4 * i + 1) % 4 == 1 && (4 * i + 2) % 4 == 2;
    GreyscaleFullEntry(s, dest, rand, orig, w, store, 4 * i);
    GreyscaleFullEntry(s, dest, rand, orig, w, store, 4 * i + 1);
    GreyscaleFullEntry(s, dest, rand, orig, w, store, 4 * i + 2);
  }

  /** Full tint: every pixel takes the tint colour. */
  lemma TintFull(s: Settings, dest: Pixel, rand: Draws, orig: seq<int>, w: nat, store: real -> int, k: nat)
    requires |orig| % 4 == 0 && w > 0 && k < |orig| && k % 4 < 3
    requires IsQuotient(s.posterizeValues) && IsQuotient(s.posterizeAreas)
    requires s.tintOpacity == 1.0 && IsByteStore(store) && IsByte(dest.r) && IsByte(dest.g) && IsByte(dest.b)
    ensures PassResult(Tint, s, dest, rand, orig, w, store)[k] == Channel(dest, k % 4)
  {
    var r := PassResult(Tint, s, dest, rand, orig, w, store);
    assert r[k] == PassEntry(Tint, s, dest, rand, orig, w, store, k);
  }

  /** Posterize with amount 2 (areas 128, values 255) at opacity 1: every
      colour channel ends black below 128 and white from 128. */
  lemma PosterizeTwoLevels03(s: Settings, dest: Pixel, rand: Draws, orig: seq<int>, w: nat, store: real -> int, k: nat)
    requires |orig| % 4 == 0 && w > 0 && k < |orig| && k % 4 < 3
    requires s.posterizeAreas == Num(128.0) && s.posterizeValues == Num(255.0) && s.posterizeOpacity == 1.0
    requires IsByteStore(store) && AllBytes(orig)
    ensures PassResult(Posterize, s, dest, rand, orig, w, store)[k] == if orig[k] < 128 then 0 else 255
  {
    var r := PassResult(Posterize, s, dest, rand, orig, w, store);
    var index := 4 * (k / 4);
    assert index <= k < index + 3 && k % 4 == k - index;
    assert r[k] == PassEntry(Posterize, s, dest, rand, orig, w, store, k);
    assert IsByte(orig[k]);
    PosterizeTwoLevels(orig[k]);
    var level := if orig[k] < 128 then 0 else 255;
    assert PosterizeChannel(1.0, Num(255.0), Num(128.0), orig[k]) == level as real;
    StoreByte(store, level);
  }

  /** Full mosaic: every pixel takes the colour its anchor had. */
  lemma MosaicFull(s: Settings, dest: Pixel, rand: Draws, orig: seq<int>, w: nat, store: real -> int, p: nat, c: nat)
    requires |orig| % 4 == 0 && w > 0 && 4 * p + 3 < |orig| && c < 3
    requires IsQuotient(s.posterizeValues) && IsQuotient(s.posterizeAreas)
    requires s.mosaicOpacity == 1.0 && IsByteStore(store) && AllBytes(orig)
    ensures 4 * MosaicAnchor(p, w, s.mosaicSize) + c < |orig|
    ensures PassResult(Mosaic, s, dest, rand, orig, w, store)[4 * p + c] == orig[4 * MosaicAnchor(p, w, s.mosaicSize) + c]
  {
    var k := 4 * p + c;
    var r := PassResult(Mosaic, s, dest, rand, orig, w, store);
    assert k / 4 == p && k % 4 == c && 4 * (k / 4) == 4 * p;
    var pos := AnchorEntry(4 * p, w, s.mosaicSize);
    assert pos == 4 * MosaicAnchor(p, w, s.mosaicSize);
    var a := PixelAt(orig, pos);
    assert FilterOut(Mosaic, s, dest, rand, orig, 4 * p, w) == Some(BlendPixel(1.0, TripleOf(a), PixelAt(orig, 4 * p)));
    assert TChannel(BlendPixel(1.0, TripleOf(a), PixelAt(orig, 4 * p)), c) == orig[pos + c] as real;
    assert IsByte(orig[pos + c]);
    assert r[k] == PassEntry(Mosaic, s, dest, rand, orig, w, store, k);
  }

  /** Full mosaic: two pixels of one size-by-size block end up alike. */
  lemma MosaicBlocksUniform(s: Settings, dest: Pixel, rand: Draws, orig: seq<int>, w: nat, store: real -> int, p: nat, q: nat, c: nat)
    requires |orig| % 4 == 0 && w > 0 && 4 * p + 3 < |orig| && 4 * q + 3 < |orig| && c < 3
    requires IsQuotient(s.posterizeValues) && IsQuotient(s.posterizeAreas)
    requires s.mosaicOpacity == 1.0 && IsByteStore(store) && AllBytes(orig)
    requires Block(p % w, s.mosaicSize) == Block(q % w, s.mosaicSize) && Block(p / w, s.mosaicSize) == Block(q / w, s.mosaicSize)
    ensures var r := PassResult(Mosaic, s, dest, rand, orig, w, store); r[4 * p + c] == r[4 * q + c]
  {
    MosaicFull(s, dest, rand, orig, w, store, p, c);
    MosaicFull(s, dest, rand, orig, w, store, q, c);
    MosaicSameBlock(p, q, w, s.mosaicSize);
  }

  /** A convolution at amount 0 leaves a byte buffer as it was. */
  lemma ConvolvedAmountZero(cur: seq<int>, image: seq<int>, w: nat, h: nat, m: seq<real>, store: real -> int)
    requires |image| == w * h * 4 && |cur| == |image| && |m| == 9
    requires IsByteStore(store) && AllBytes(cur)
    ensures Convolved(cur, image, w, h, m, 0.0, store) == cur
  {
    var r := Convolved(cur, image, w, h, m, 0.0, store);
    forall k | 0 <= k < |cur|
      ensures r[k] == cur[k]
    {
      assert r[k] == MatrixEntry(cur, image, w, h, m, 0.0, store, k);
      assert IsByte(cur[k]);
    }
  }

  /** Where the image is flat, value v in channel c all around the pixel,
      the convolution is v times the kernel's sum. */
  lemma ConvolvedFlat(cur: seq<int>, image: seq<int>, w: nat, h: nat, m: seq<real>, amount: real, store: real -> int, k: nat, v: int)
    requires |image| == w * h * 4 && |cur| == |image| && |m| == 9 && k < |cur| && Convolvable(k, w, h)
    requires forall hh, ww :: 0 <= hh < 3 && 0 <= ww < 3 ==>
               image[TapEntry(w, h, Col(k, w), Row(k, w), k % 4, hh, ww, false)] == v
    ensures Convolved(cur, image, w, h, m, amount, store)[k] == store(FindColorDifference(amount, v as real * Sum(m), cur[k] as real))
  {
    var r := Convolved(cur, image, w, h, m, amount, store);
    assert r[k] == MatrixEntry(cur, image, w, h, m, amount, store, k);
    ConvFlat(image, w, h, m, Col(k, w), Row(k, w), k % 4, v, false);
  }

  /** The edge detector sums to 0: on a flat area it fades the pixel towards
      black, and at full amount the pixel is black. */
  lemma EdgesOnFlat(cur: seq<int>, image: seq<int>, w: nat, h: nat, amount: real, store: real -> int, k: nat, v: int)
    requires |image| == w * h * 4 && |cur| == |image| && k < |cur| && Convolvable(k, w, h)
    requires forall hh, ww :: 0 <= hh < 3 && 0 <= ww < 3 ==>
               image[TapEntry(w, h, Col(k, w), Row(k, w), k % 4, hh, ww, false)] == v
    ensures Convolved(cur, image, w, h, EdgesKernel, amount, store)[k] == store((1.0 - amount) * cur[k] as real)
  {
    PresetSums();
    ConvolvedFlat(cur, image, w, h, EdgesKernel, amount, store, k, v);
  }

  /** A kernel summing to 1 (emboss, sharpen) keeps a flat area of the
      unfiltered image as it is, at any amount. */
  lemma UnitKernelOnFlat(image: seq<int>, w: nat, h: nat, m: seq<real>, amount: real, store: real -> int, k: nat, v: int)
    requires |image| == w * h * 4 && |m| == 9 && Sum(m) == 1.0 && k < |image| && Convolvable(k, w, h)
    requires IsByteStore(store) && IsByte(v)
    requires forall hh, ww :: 0 <= hh < 3 && 0 <= ww < 3 ==>
               image[TapEntry(w, h, Col(k, w), Row(k, w), k % 4, hh, ww, false)] == v
    ensures Convolved(image, image, w, h, m, amount, store)[k] == v
  {
    ConvolvedFlat(image, image, w, h, m, amount, store, k, v);
    EntryEncode(k, w);
    assert TapEntry(w, h, Col(k, w), Row(k, w), k % 4, 1, 1, false) == k;
    assert image[k] == v;
    assert v as real * Sum(m) == v as real;
    assert FindColorDifference(amount, v as real * Sum(m), image[k] as real) == v as real;
  }

  /** The tint target when the filter is not tint: processFilters leaves it
      undefined, and no other filter reads it. */
  const NoTint := Pixel(0, 0, 0)

  /** What processFilters puts back on the canvas for one element: None when
      the image has no area and initializeBuffer gives no pixels. Blur is the
      gaussianBlur result, handed in; the other convolution filters are
      applyMatrix with their preset kernel and amount; every filter but
      blur, emboss, matrix and sharpen then runs the main loop, edges
      included. */
  function Processed03(f: Filter, s: Settings, image: seq<int>, w: nat, h: nat, blurred: seq<int>, rand: Draws, store: real -> int): seq<int>
    requires |image| == w * h * 4 && w > 0
    requires IsQuotient(s.posterizeValues) && IsQuotient(s.posterizeAreas)
  {
    match f
    case Blur => blurred
    case Edges => PassResult(Edges, s, NoTint, rand, Convolved(image, image, w, h, EdgesKernel, s.edgesAmount, store), w, store)
    case Emboss => Convolved(image, image, w, h, EmbossKernel, s.embossAmount, store)
    case Matrix => Convolved(image, image, w, h, BoxBlurKernel, s.matrixAmount, store)
    case Sharpen => Convolved(image, image, w, h, SharpenKernel, s.sharpenAmount, store)
    case Tint => PassResult(Tint, s, TintTarget(s.tintColor), rand, image, w, store)
    case _ => PassResult(f, s, NoTint, rand, image, w, store)
  }

  /** processFilters for one element and one filter class, from the image's
      pixels as initializeBuffer reads them. */
  method ProcessFilters(f: Filter, s: Settings, image: seq<int>, w: nat, h: nat, blurred: seq<int>, rand: Draws, store: real -> int)
    returns (drawn: Option<seq<int>>)
    requires |image| == w * h * 4
    requires IsQuotient(s.posterizeValues) && IsQuotient(s.posterizeAreas)
    requires IsByteStore(store) && AllBytes(image)
    ensures drawn.Some? <==> w > 0 && h > 0
    ensures drawn.Some? ==> drawn.value == Processed03(f, s, image, w, h, blurred, rand, store)
  {
    if w == 0 || h == 0 {
      return None;
    }
    var pixels := new int[|image|](k requires 0 <= k < |image| => image[k]);
    assert pixels[..] == image;
    if f == Blur {
      return Some(blurred);
    }
    if f == Edges {
      ApplyMatrix(image, pixels, w, h, EdgesKernel, s.edgesAmount, store);
    }
    if f == Emboss {
      ApplyMatrix(image, pixels, w, h, EmbossKernel, s.embossAmount, store);
    }
    if f == Matrix {
      ApplyMatrix(image, pixels, w, h, BoxBlurKernel, s.matrixAmount, store);
    }
    if f == Sharpen {
      ApplyMatrix(image, pixels, w, h, SharpenKernel, s.sharpenAmount, store);
    }
    var dest := NoTint;
    if f == Tint {
      dest := TintTarget(s.tintColor);
    }
    if f != Emboss && f != Matrix && f != Sharpen {
      FilterPass(f, s, dest, rand, pixels, w, store);
    }
    drawn := Some(pixels[..]);
  }

  /** Edges' main loop changes nothing: what is drawn is the convolution. */
  lemma EdgesIsConvolution(s: Settings, image: seq<int>, w: nat, h: nat, blurred: seq<int>, rand: Draws, store: real -> int)
    requires |image| == w * h * 4 && w > 0
    requires IsQuotient(s.posterizeValues) && IsQuotient(s.posterizeAreas)
    ensures Processed03(Edges, s, image, w, h, blurred, rand, store) == Convolved(image, image, w, h, EdgesKernel, s.edgesAmount, store)
  {
    var c := Convolved(image, image, w, h, EdgesKernel, s.edgesAmount, store);
    NoCaseKeeps(Edges, s, NoTint, rand, c, w, store);
  }

  /** One entry of the pass is a byte. */
  lemma PassEntryByte(f: Filter, s: Settings, dest: Pixel, rand: Draws, orig: seq<int>, w: nat, store: real -> int, k: nat)
    requires |orig| % 4 == 0 && w > 0 && k < |orig|
    requires IsQuotient(s.posterizeValues) && IsQuotient(s.posterizeAreas)
    requires IsByteStore(store) && AllBytes(orig)
    ensures IsByte(PassEntry(f, s, dest, rand, orig, w, store, k))
  {
    assert IsByte(orig[k]);
  }

  /** The main loop draws bytes. */
  lemma PassBytes(f: Filter, s: Settings, dest: Pixel, rand: Draws, orig: seq<int>, w: nat, store: real -> int)
    requires |orig| % 4 == 0 && w > 0
    requires IsQuotient(s.posterizeValues) && IsQuotient(s.posterizeAreas)
    requires IsByteStore(store) && AllBytes(orig)
    ensures AllBytes(PassResult(f, s, dest, rand, orig, w, store))
  {
    var r := PassResult(f, s, dest, rand, orig, w, store);
    forall k | 0 <= k < |r| ensures IsByte(r[k]) {
      PassEntryByte(f, s, dest, rand, orig, w, store, k);
    }
  }

  /** applyMatrix draws bytes. */
  lemma ConvolvedBytes(cur: seq<int>, image: seq<int>, w: nat, h: nat, m: seq<real>, amount: real, store: real -> int)
    requires |image| == w * h * 4 && |cur| == |image| && |m| == 9
    requires IsByteStore(store) && AllBytes(cur)
    ensures AllBytes(Convolved(cur, image, w, h, m, amount, store))
  {
    var r := Convolved(cur, image, w, h, m, amount, store);
    forall k | 0 <= k < |r| ensures IsByte(r[k]) {
      assert r[k] == MatrixEntry(cur, image, w, h, m, amount, store, k);
      assert IsByte(cur[k]);
    }
  }

  /** Every filter but blur, whose result is handed in, draws bytes and
      keeps every alpha entry of the image. */
  lemma ProcessedBytes(f: Filter, s: Settings, image: seq<int>, w: nat, h: nat, blurred: seq<int>, rand: Draws, store: real -> int)
    requires |image| == w * h * 4 && w > 0 && f != Blur
    requires IsQuotient(s.posterizeValues) && IsQuotient(s.posterizeAreas)
    requires IsByteStore(store) && AllBytes(image)
    ensures var r := Processed03(f, s, image, w, h, blurred, rand, store);
      |r| == |image| && AllBytes(r) && forall k :: 0 <= k < |r| && k % 4 == 3 ==> r[k] == image[k]
  {
    match f
    case Edges =>
      var c := Convolved(image, image, w, h, EdgesKernel, s.edgesAmount, store);
      ConvolvedBytes(image, image, w, h, EdgesKernel, s.edgesAmount, store);
      PassBytes(Edges, s, NoTint, rand, c, w, store);
      assert forall k :: 0 <= k < |image| && k % 4 == 3 ==> !Convolvable(k, w, h);
    case Emboss =>
      ConvolvedBytes(image, image, w, h, EmbossKernel, s.embossAmount, store);
      assert forall k :: 0 <= k < |image| && k % 4 == 3 ==> !Convolvable(k, w, h);
    case Matrix =>
      ConvolvedBytes(image, image, w, h, BoxBlurKernel, s.matrixAmount, store);
      assert forall k :: 0 <= k < |image| && k % 4 == 3 ==> !Convolvable(k, w, h);
    case Sharpen =>
      ConvolvedBytes(image, image, w, h, SharpenKernel, s.sharpenAmount, store);
      assert forall k :: 0 <= k < |image| && k % 4 == 3 ==> !Convolvable(k, w, h);
    case Tint =>
      PassBytes(Tint, s, TintTarget(s.tintColor), rand, image, w, store);
    case _ =>
      PassBytes(f, s, NoTint, rand, image, w, store);
  }

  /** getFilterParameters' defaults in v0.3. */
  const Defaults03: map<string, Param> := map[
    "blurAmount" := Num(1.0), "edgesAmount" := Num(1.0), "embossAmount" := Num(0.25),
    "greyscaleOpacity" := Num(1.0), "matrixAmount" := Num(1.0), "mosaicOpacity" := Num(1.0),
    "mosaicSize" := Num(5.0), "noiseAmount" := Num(30.0), "noiseType" := Text("mono"),
    "posterizeAmount" := Num(5.0), "posterizeOpacity" := Num(1.0), "sepiaOpacity" := Num(1.0),
    "sharpenAmount" := Num(0.25), "tintColor" := Text("#FFF"), "tintOpacity" := Num(0.3)]

  /** The entries getFilterParameters reads by name. */
  lemma Defaults03Keys()
    ensures "posterizeAmount" in Defaults03 && Defaults03["posterizeAmount"] == Num(5.0)
    ensures "tintColor" in Defaults03 && Defaults03["tintColor"] == Text("#FFF")
  {
  }

  /** The default of five posterize levels gives areas of 51.2 and
      values of 63.75, which are what PosterizeLevels asks for. */
  lemma DefaultPosterize03(toNumber: string -> real)
    ensures "posterizeAmount" in Defaults03 && !Defaults03["posterizeAmount"].Infinity?
    ensures var amount := NumberOf(Defaults03["posterizeAmount"], toNumber);
      Divide(256.0, amount) == Num(51.2) && Divide(255.0, amount - 1.0) == Num(63.75)
    ensures 51.2 * 5 as real == 256.0 && 63.75 * (5 - 1) as real == 255.0
  {
    Defaults03Keys();
  }
}
