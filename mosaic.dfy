/** The mosaic anchor of v0.3: every pixel takes the colour of the top-left
    pixel of the size-by-size block it lies in. */
module Mosaic {
  import opened Pixels

  function Abs(n: int): nat
  {
    if n < 0 then -n else n
  }

  /** `a % b` in JavaScript for a non-negative dividend: the remainder takes
      the dividend's sign, so it is a % |b|. A zero divisor gives NaN, which
      v0.3's `if` that tests the remainder treats as it treats 0, and which
      v0.2's `<< 2` turns into 0. */
  function JsRem(a: nat, b: int): (r: nat)
    ensures r <= a
    ensures b != 0 ==> r < Abs(b)
  {
    if b == 0 then 0 else a % Abs(b)
  }

  /** Taking off the remainder leaves a multiple of the divisor. */
  lemma RemoveRem(a: nat, b: int)
    requires b != 0
    ensures a - JsRem(a, b) == Abs(b) * (a / Abs(b))
    ensures (a - JsRem(a, b)) / Abs(b) == a / Abs(b)
    ensures JsRem(a - JsRem(a, b), b) == 0
  {
    var m := Abs(b);
    assert a == m * (a / m) + a % m;
    LemmaDivModUnique(a - a % m, m, a / m, 0);
  }

  /** `pos`, stepY, stepY1, stepX and stepX1 of the mosaic case: the pixel
      number of the anchor of pixel pos, in a row of w pixels. */
  function MosaicAnchor(pos: nat, w: nat, size: int): (a: nat)
    requires w > 0
    ensures a <= pos
  {
    var stepY := pos / w;
    var stepY1 := JsRem(stepY, size);
    var stepX := pos % w;
    var stepX1 := JsRem(stepX, size);
    MulMonotone(stepY1, stepY, w);
    assert pos == stepX + stepY * w;
    pos - stepY1 * w - stepX1
  }

  /** The anchor is the pixel whose column and row are pos's, each rounded
      down to a multiple of the size. */
  lemma MosaicAnchorAt(pos: nat, w: nat, size: int)
    requires w > 0
    ensures var x, y := pos % w, pos / w;
      MosaicAnchor(pos, w, size) == ConvertCoordinates(x - JsRem(x, size), y - JsRem(y, size), w)
    ensures MosaicAnchor(pos, w, size) % w == pos % w - JsRem(pos % w, size)
    ensures MosaicAnchor(pos, w, size) / w == pos / w - JsRem(pos / w, size)
  {
    var x, y := pos % w, pos / w;
    var y1 := JsRem(y, size);
    assert (y - y1) * w == y * w - y1 * w;
    assert MosaicAnchor(pos, w, size) == ConvertCoordinates(x - JsRem(x, size), y - y1, w);
    CoordinatesRoundTrip(x - JsRem(x, size), y - y1, w);
  }

  /** A size of 0 (NaN remainders) or of 1 leaves every pixel where it is. */
  lemma MosaicTrivialSize(pos: nat, w: nat, size: int)
    requires w > 0 && Abs(size) <= 1
    ensures MosaicAnchor(pos, w, size) == pos
  {
  }

  /** The anchor of an anchor is itself. */
  lemma MosaicAnchorFixed(pos: nat, w: nat, size: int)
    requires w > 0
    ensures MosaicAnchor(MosaicAnchor(pos, w, size), w, size) == MosaicAnchor(pos, w, size)
  {
    MosaicAnchorAt(pos, w, size);
    var a := MosaicAnchor(pos, w, size);
    MosaicAnchorAt(a, w, size);
    if size != 0 {
      RemoveRem(pos % w, size);
      RemoveRem(pos / w, size);
    }
  }

  /** Block number of a coordinate: which size-wide stripe it falls in. */
  function Block(v: nat, size: int): nat
  {
    if size == 0 then v else v / Abs(size)
  }

  /** Two pixels share an anchor exactly when they lie in the same block. */
  lemma MosaicSameBlock(p: nat, q: nat, w: nat, size: int)
    requires w > 0
    ensures MosaicAnchor(p, w, size) == MosaicAnchor(q, w, size) <==>
            Block(p % w, size) == Block(q % w, size) && Block(p / w, size) == Block(q / w, size)
  {
    MosaicAnchorAt(p, w, size);
    MosaicAnchorAt(q, w, size);
    var ap, aq := MosaicAnchor(p, w, size), MosaicAnchor(q, w, size);
    CoordinatesOfPixel(ap, w);
    CoordinatesOfPixel(aq, w);
    if size != 0 {
      RemoveRem(p % w, size);
      RemoveRem(q % w, size);
      RemoveRem(p / w, size);
      RemoveRem(q / w, size);
    }
  }
}
