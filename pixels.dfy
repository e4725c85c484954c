/** The pixel buffer shared by every version of PaintbrushJS: a canvas
    ImageData array, flat, row-major, four entries (R, G, B, A) per pixel. */
module Pixels {

  /** One pixel's colour as the filters read it (`thisPixel`). */
  datatype Pixel = Pixel(r: int, g: int, b: int)

  /** The three numbers a filter hands to the buffer for R, G and B. */
  datatype Triple = Triple(r: real, g: real, b: real)

  predicate IsByte(v: int) { 0 <= v <= 255 }

  predicate AllBytes(s: seq<int>) { forall k :: 0 <= k < |s| ==> IsByte(s[k]) }

  /** The conversion a Uint8ClampedArray applies to a number stored in it,
      left abstract: whatever it is, it lands in the byte range and keeps a
      whole byte as it is. */
  ghost predicate IsByteStore(store: real -> int)
  {
    && (forall x: real :: IsByte(store(x)))
    && (forall k: int :: IsByte(k) ==> store(k as real) == k)
  }

  /** convertCoordinates: the pixel number of column x, row y. */
  function ConvertCoordinates(x: int, y: int, w: int): int
  {
    x + y * w
  }

  /** The inverse of ConvertCoordinates on a row of width w. */
  lemma CoordinatesRoundTrip(x: int, y: int, w: int)
    requires w > 0 && 0 <= x < w && 0 <= y
    ensures ConvertCoordinates(x, y, w) >= 0
    ensures ConvertCoordinates(x, y, w) % w == x
    ensures ConvertCoordinates(x, y, w) / w == y
  {
    var p := x + y * w;
    assert p == y * w + x;
    assert 0 <= x < w;
    LemmaDivModUnique(p, w, y, x);
  }

  /** Every pixel number comes from exactly one (column, row). */
  lemma CoordinatesOfPixel(p: int, w: int)
    requires w > 0 && p >= 0
    ensures 0 <= p % w < w && p / w >= 0
    ensures ConvertCoordinates(p % w, p / w, w) == p
  {
  }

  lemma LemmaDivModUnique(p: int, w: int, q: int, r: int)
    requires w > 0 && 0 <= r < w && p == q * w + r
    ensures p / w == q && p % w == r
  {
    var q', r' := p / w, p % w;
    assert q' * w + r' == q * w + r;
    var d := q' - q;
    assert d * w == r - r' by {
      assert d * w == q' * w - q * w;
    }
    if d >= 1 {
      MulMonotone(1, d, w);
    }
  }

  /** Column and row of the pixel that holds array entry k. */
  function Col(k: nat, w: nat): nat
    requires w > 0
  {
    (k / 4) % w
  }

  function Row(k: nat, w: nat): nat
    requires w > 0
  {
    (k / 4) / w
  }

  /** The array entry for channel c of the pixel at (x, y). */
  function Entry(x: nat, y: nat, w: nat, c: nat): nat
  {
    4 * (x + y * w) + c
  }

  /** An entry's (column, row, channel) identify it: the decoding of Entry. */
  lemma EntryDecode(x: nat, y: nat, w: nat, c: nat)
    requires w > 0 && x < w && c < 4
    ensures Entry(x, y, w, c) % 4 == c
    ensures Col(Entry(x, y, w, c), w) == x
    ensures Row(Entry(x, y, w, c), w) == y
  {
    var p := x + y * w;
    LemmaDivModUnique(4 * p + c, 4, p, c);
    CoordinatesRoundTrip(x, y, w);
  }

  /** An entry is rebuilt from its decoding. */
  lemma EntryEncode(k: nat, w: nat)
    requires w > 0
    ensures Col(k, w) < w
    ensures Entry(Col(k, w), Row(k, w), w, k % 4) == k
  {
    CoordinatesOfPixel(k / 4, w);
  }

  /** Entries of a w-by-h buffer: (x, y) in range keeps every channel in range. */
  lemma EntryInRange(x: nat, y: nat, w: nat, h: nat, c: nat)
    requires x < w && y < h && c < 4
    ensures Entry(x, y, w, c) < w * h * 4
  {
    assert y * w <= (h - 1) * w by {
      MulMonotone(y, h - 1, w);
    }
    assert (h - 1) * w == h * w - w;
    assert x + y * w <= w * h - 1;
  }

  lemma MulMonotone(a: nat, b: nat, w: nat)
    requires a <= b
    ensures a * w <= b * w
  {
  }

  /** The pixel whose red channel is at array entry index. */
  function PixelAt(s: seq<int>, index: nat): Pixel
    requires index + 2 < |s|
  {
    Pixel(s[index], s[index + 1], s[index + 2])
  }

  /** The bytes a buffer holds after Triple t was written through store. */
  function Stored(store: real -> int, t: Triple): Pixel
  {
    Pixel(store(t.r), store(t.g), store(t.b))
  }

  function Channel(p: Pixel, c: nat): int
    requires c < 3
  {
    if c == 0 then p.r else if c == 1 then p.g else p.b
  }

  function TripleOf(p: Pixel): Triple
  {
    Triple(p.r as real, p.g as real, p.b as real)
  }

  /** A byte store keeps a whole byte v. */
  lemma StoreByte(store: real -> int, v: int)
    requires IsByteStore(store) && IsByte(v)
    ensures store(v as real) == v
  {
  }

  /** Storing whole bytes keeps them: a pixel written back unchanged is unchanged. */
  lemma StoreKeepsBytes(store: real -> int, p: Pixel)
    requires IsByteStore(store)
    requires IsByte(p.r) && IsByte(p.g) && IsByte(p.b)
    ensures Stored(store, TripleOf(p)) == p
  {
  }

  /** setRGB: write three numbers into R, G and B of the pixel at index,
      through the buffer's store; alpha and every other entry stay. */
  method SetRGB(data: array<int>, index: nat, r: real, g: real, b: real, store: real -> int)
    requires index + 2 < data.Length
    modifies data
    ensures data[..] == old(data[..])[index := store(r)][index + 1 := store(g)][index + 2 := store(b)]
  {
    data[index] := store(r);
    data[index + 1] := store(g);
    data[index + 2] := store(b);
  }

  /** The buffer after setRGB wrote t, through store, at index; None
      (a filter with no case) leaves it as it is. */
  function WithRGB(s: seq<int>, index: nat, t: Option<Triple>, store: real -> int): (r: seq<int>)
    requires index + 2 < |s|
    ensures |r| == |s|
  {
    match t
    case None => s
    case Some(t) => s[index := store(t.r)][index + 1 := store(t.g)][index + 2 := store(t.b)]
  }

  /** Writing R, G and B of pixel i changes exactly the entries whose pixel
      is i and whose channel is not alpha. */
  lemma WritePixel(s: seq<int>, i: nat, p: Pixel)
    requires 4 * i + 2 < |s|
    ensures var r := s[4 * i := p.r][4 * i + 1 := p.g][4 * i + 2 := p.b];
      forall k :: 0 <= k < |s| ==> r[k] == if k / 4 == i && k % 4 < 3 then Channel(p, k % 4) else s[k]
  {
    var r := s[4 * i := p.r][4 * i + 1 := p.g][4 * i + 2 := p.b];
    forall k | 0 <= k < |s|
      ensures r[k] == if k / 4 == i && k % 4 < 3 then Channel(p, k % 4) else s[k]
    {
      if k / 4 == i {
        assert 4 * i <= k < 4 * i + 4;
        assert k % 4 == k - 4 * i;
      } else {
        assert k != 4 * i && k != 4 * i + 1 && k != 4 * i + 2;
      }
    }
  }

  /** The pixel number of (x, y) is p exactly when p's column and row are x and y. */
  lemma PixelOfCoordinates(p: nat, w: nat, x: nat, y: nat)
    requires w > 0 && x < w
    ensures p == ConvertCoordinates(x, y, w) <==> p % w == x && p / w == y
  {
    if p == ConvertCoordinates(x, y, w) {
      CoordinatesRoundTrip(x, y, w);
    }
    if p % w == x && p / w == y {
      CoordinatesOfPixel(p, w);
    }
  }

  /** Component c (0 = R, 1 = G, 2 = B) of a triple. */
  function TChannel(t: Triple, c: nat): real
    requires c < 3
  {
    if c == 0 then t.r else if c == 1 then t.g else t.b
  }

  /** Writing a pixel's own bytes back through a byte store changes nothing. */
  lemma WriteBackOwn(s: seq<int>, index: nat, store: real -> int)
    requires index + 2 < |s| && IsByteStore(store) && AllBytes(s)
    ensures WithRGB(s, index, Some(TripleOf(PixelAt(s, index))), store) == s
  {
    assert IsByte(s[index]) && IsByte(s[index + 1]) && IsByte(s[index + 2]);
    StoreKeepsBytes(store, PixelAt(s, index));
  }

  /** Entry k after WithRGB: one of the three written, or what was there. */
  lemma WithRGBAt(s: seq<int>, index: nat, t: Option<Triple>, store: real -> int, k: nat)
    requires index + 2 < |s| && k < |s|
    ensures WithRGB(s, index, t, store)[k] ==
      if t.Some? && index <= k < index + 3 then store(TChannel(t.value, k - index)) else s[k]
  {
  }

  /** Writing pixel i leaves the entries of every other pixel. */
  lemma WithRGBElsewhere(s: seq<int>, i: nat, t: Option<Triple>, store: real -> int, k: nat)
    requires 4 * i + 2 < |s| && k < |s| && k / 4 != i
    ensures WithRGB(s, 4 * i, t, store)[k] == s[k]
  {
  }

  /** Writing through a byte store keeps a byte buffer bytes, and its alpha entries as they were. */
  lemma WithRGBBytes(s: seq<int>, i: nat, t: Option<Triple>, store: real -> int)
    requires 4 * i + 2 < |s| && IsByteStore(store) && AllBytes(s)
    ensures var r := WithRGB(s, 4 * i, t, store);
      AllBytes(r) && forall k :: 0 <= k < |r| && k % 4 == 3 ==> r[k] == s[k]
  {
    var r := WithRGB(s, 4 * i, t, store);
    forall k | 0 <= k < |r|
      ensures IsByte(r[k]) && (k % 4 == 3 ==> r[k] == s[k])
    {
      WithRGBAt(s, 4 * i, t, store, k);
      if 4 * i <= k < 4 * i + 3 {
        assert k % 4 == k - 4 * i;
      }
    }
  }

  /** One step of a loop over the buffer: the buffer after step t, from
      the buffer as the steps before it left it. */
  type BufferUpdate = (seq<int>, nat) -> seq<int>

  /** What update makes of cur at step t. */
  function UpdateAt(update: BufferUpdate, cur: seq<int>, t: nat): seq<int>
  {
    update(cur, t)
  }

  /** The buffer after the first t steps of the loop. */
  function Iterate(update: BufferUpdate, orig: seq<int>, t: nat): seq<int>
  {
    if t == 0 then orig else UpdateAt(update, Iterate(update, orig, t - 1), t - 1)
  }

  /** No step changes the length of the buffer. */
  ghost predicate KeepsLength(update: BufferUpdate)
  {
    forall cur: seq<int>, t: nat {:trigger UpdateAt(update, cur, t)} :: |UpdateAt(update, cur, t)| == |cur|
  }

  lemma {:induction false} IterateLength(update: BufferUpdate, orig: seq<int>, t: nat)
    requires KeepsLength(update)
    ensures |Iterate(update, orig, t)| == |orig|
  {
    if t > 0 {
      IterateLength(update, orig, t - 1);
    }
  }

  /** An entry that none of the steps t to u - 1 writes holds at step u
      what it held at step t. */
  lemma {:induction false} IterateKept(update: BufferUpdate, orig: seq<int>, t: nat, u: nat, k: nat)
    requires t <= u && k < |Iterate(update, orig, t)|
    requires forall cur: seq<int>, i: nat {:trigger UpdateAt(update, cur, i)} ::
      t <= i < u && k < |cur| ==> k < |UpdateAt(update, cur, i)| && UpdateAt(update, cur, i)[k] == cur[k]
    ensures k < |Iterate(update, orig, u)| && Iterate(update, orig, u)[k] == Iterate(update, orig, t)[k]
  {
    if u > t {
      IterateKept(update, orig, t, u - 1, k);
    }
  }

  /** A loop whose every step leaves the original buffer as it is leaves it
      however far it runs. */
  lemma {:induction false} IterateFixed(update: BufferUpdate, orig: seq<int>, t: nat)
    requires forall i: nat {:trigger UpdateAt(update, orig, i)} :: UpdateAt(update, orig, i) == orig
    ensures Iterate(update, orig, t) == orig
  {
    if t > 0 {
      IterateFixed(update, orig, t - 1);
    }
  }

  /** A loop whose every step keeps a byte buffer bytes draws bytes. */
  lemma {:induction false} IterateBytes(update: BufferUpdate, orig: seq<int>, t: nat)
    requires AllBytes(orig)
    requires forall cur: seq<int>, i: nat {:trigger UpdateAt(update, cur, i)} ::
      |cur| == |orig| && AllBytes(cur) ==> |UpdateAt(update, cur, i)| == |cur| && AllBytes(UpdateAt(update, cur, i))
    ensures |Iterate(update, orig, t)| == |orig| && AllBytes(Iterate(update, orig, t))
  {
    if t > 0 {
      IterateBytes(update, orig, t - 1);
    }
  }

  /** What a loop over the pixels writes at pixel i, reading the buffer
      as it stands (None: nothing). */
  type PixelStep = (seq<int>, nat) -> Option<Triple>

  /** The buffer once a loop has run step on pixels 0 to n - 1 in order,
      each step reading the buffer the steps before it left. */
  function Sequential(step: PixelStep, orig: seq<int>, store: real -> int, n: nat): (r: seq<int>)
    requires 4 * n <= |orig|
    ensures |r| == |orig|
  {
    if n == 0 then orig
    else
      var prev := Sequential(step, orig, store, n - 1);
      WithRGB(prev, 4 * (n - 1), step(prev, n - 1), store)
  }

  /** One more step of the loop. */
  lemma SequentialUnfold(step: PixelStep, orig: seq<int>, store: real -> int, n: nat)
    requires 0 < n && 4 * n <= |orig|
    ensures var prev := Sequential(step, orig, store, n - 1);
      Sequential(step, orig, store, n) == WithRGB(prev, 4 * (n - 1), step(prev, n - 1), store)
  {
  }

  /** A pixel is written at its own step only: later steps leave it. */
  lemma {:induction false} SequentialSettled(step: PixelStep, orig: seq<int>, store: real -> int, i: nat, n: nat, k: nat)
    requires i < n && 4 * n <= |orig| && k / 4 == i
    ensures Sequential(step, orig, store, n)[k] == Sequential(step, orig, store, i + 1)[k]
  {
    if n > i + 1 {
      SequentialSettled(step, orig, store, i, n - 1, k);
      var prev := Sequential(step, orig, store, n - 1);
      WithRGBElsewhere(prev, n - 1, step(prev, n - 1), store, k);
    }
  }

  /** Through a byte store the loop keeps a byte buffer bytes, and its
      alpha entries as they were. */
  lemma {:induction false} SequentialBytes(step: PixelStep, orig: seq<int>, store: real -> int, n: nat)
    requires 4 * n <= |orig| && IsByteStore(store) && AllBytes(orig)
    ensures var r := Sequential(step, orig, store, n);
      AllBytes(r) && forall k :: 0 <= k < |r| && k % 4 == 3 ==> r[k] == orig[k]
  {
    if n > 0 {
      var prev := Sequential(step, orig, store, n - 1);
      SequentialBytes(step, orig, store, n - 1);
      WithRGBBytes(prev, n - 1, step(prev, n - 1), store);
    }
  }

  /** Every pixel written by step reading the original buffer: the loop
      as a pixel-by-pixel map. */
  function Pointwise(step: PixelStep, orig: seq<int>, store: real -> int): (r: seq<int>)
    ensures |r| == |orig|
  {
    seq(|orig|, k requires 0 <= k < |orig| =>
      if k % 4 == 3 then orig[k]
      else match step(orig, k / 4)
        case None => orig[k]
        case Some(t) => store(TChannel(t, k % 4)))
  }

  /** What step writes at pixel i reading cur. */
  function StepAt(step: PixelStep, cur: seq<int>, i: nat): Option<Triple>
  {
    step(cur, i)
  }

  /** What step writes at a pixel depends on that pixel's colour alone. */
  ghost predicate ReadsOwnPixel(step: PixelStep, orig: seq<int>)
  {
    forall cur: seq<int>, i: nat {:trigger StepAt(step, cur, i)} ::
      |cur| == |orig| && 4 * i + 2 < |cur| && PixelAt(cur, 4 * i) == PixelAt(orig, 4 * i) ==> StepAt(step, cur, i) == step(orig, i)
  }

  /** A loop whose steps read only their own pixel, which no earlier step
      has touched, is the pixel-by-pixel map as far as it has run. */
  lemma {:induction false} SequentialPointwise(step: PixelStep, orig: seq<int>, store: real -> int, n: nat)
    requires 4 * n <= |orig| && ReadsOwnPixel(step, orig)
    ensures DoneBefore(Sequential(step, orig, store, n), Pointwise(step, orig, store), orig, n)
  {
    var final := Pointwise(step, orig, store);
    if n > 0 {
      var prev := Sequential(step, orig, store, n - 1);
      SequentialPointwise(step, orig, store, n - 1);
      CurrentPixelUntouched(prev, final, orig, n - 1);
      var t := step(orig, n - 1);
      assert StepAt(step, prev, n - 1) == t;
      var next := Sequential(step, orig, store, n);
      SequentialUnfold(step, orig, store, n);
      forall k | 0 <= k < |orig|
        ensures next[k] == if k / 4 < n then final[k] else orig[k]
      {
        WithRGBAt(prev, 4 * (n - 1), t, store, k);
        if k / 4 == n - 1 {
          assert 4 * (n - 1) <= k < 4 * (n - 1) + 4 && k % 4 == k - 4 * (n - 1);
        }
      }
    }
  }

  /** A buffer part way through a pass over its pixels: entries of pixels
      before i hold their final values, the others their original ones. */
  ghost predicate DoneBefore(cur: seq<int>, final: seq<int>, orig: seq<int>, i: nat)
  {
    |cur| == |orig| && |final| == |orig| &&
    forall k :: 0 <= k < |cur| ==> cur[k] == if k / 4 < i then final[k] else orig[k]
  }

  /** Once every pixel is done the buffer is the final one. */
  lemma AllDone(cur: seq<int>, final: seq<int>, orig: seq<int>, i: nat)
    requires DoneBefore(cur, final, orig, i) && |orig| <= 4 * i
    ensures cur == final
  {
    forall k | 0 <= k < |cur|
      ensures cur[k] == final[k]
    {
      assert k / 4 < i;
    }
  }

  /** A pixel before i that the pass leaves as it was reads as it was. */
  lemma DonePixelKept(cur: seq<int>, final: seq<int>, orig: seq<int>, i: nat, pos: nat)
    requires DoneBefore(cur, final, orig, i)
    requires pos % 4 == 0 && pos < 4 * i && pos + 2 < |orig|
    requires PixelAt(final, pos) == PixelAt(orig, pos)
    ensures PixelAt(cur, pos) == PixelAt(orig, pos)
  {
    assert pos / 4 < i && (pos + 1) / 4 < i && (pos + 2) / 4 < i;
  }

  /** The pixel the loop is at has not been touched. */
  lemma CurrentPixelUntouched(cur: seq<int>, final: seq<int>, orig: seq<int>, i: nat)
    requires DoneBefore(cur, final, orig, i) && 4 * i + 2 < |orig|
    ensures PixelAt(cur, 4 * i) == PixelAt(orig, 4 * i)
  {
    var index := 4 * i;
    assert index / 4 == i && (index + 1) / 4 == i && (index + 2) / 4 == i;
  }

  datatype Option<T> = None | Some(value: T)
}
