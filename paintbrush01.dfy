/** PaintbrushJS v0.1 (demo/paintbrush.js): greyscale, noise, sepia and tint
    written straight into the pixel array, one pixel at a time, plus the
    colour decoding and the parameter object of that version. */
module Paintbrush01 {
  import opened Pixels
  import opened Color
  import opened Params
  import opened RandomNoise

  /** The parameters v0.1's applyFilters reads, as numbers and strings. */
  datatype Settings01 = Settings01(
    greyscaleAmount: real, noiseAmount: real, noiseType: string,
    sepiaAmount: real, tintAmount: real, tintColor: string)

  /** JavaScript's `s.substring(a, b)` for a <= b: both ends held to the length. */
  function Substring(s: string, a: nat, b: nat): (t: string)
    requires a <= b
    ensures |t| <= b - a
    ensures b <= |s| ==> t == s[a..b]
  {
    var lo := if a < |s| then a else |s|;
    var hi := if b < |s| then b else |s|;
    s[lo..hi]
  }

  /** createColor of v0.1: a string of length 7 or 4 loses its first
      character, whatever it is; a three-character remainder has each
      character doubled. */
  function CreateColor01(src: string): string
  {
    var s := if |src| == 7 || |src| == 4 then Substring(src, 1, |src|) else src;
    if |s| == 3 then
      Substring(s, 0, 1) + Substring(s, 0, 1) + Substring(s, 1, 2) + Substring(s, 1, 2) + Substring(s, 2, 3) + Substring(s, 2, 3)
    else s
  }

  /** What v0.1's createColor does, in words: drop the first character of
      a 7- or 4-character string, double a 3-character remainder, keep
      any other remainder. */
  lemma CreateColor01Meaning(src: string)
    ensures var s := if |src| == 7 || |src| == 4 then src[1..] else src;
      && (|s| == 3 ==> CreateColor01(src) == [s[0], s[0], s[1], s[1], s[2], s[2]])
      && (|s| != 3 ==> CreateColor01(src) == s)
  {
  }

  /** On well-formed colours, "#rgb", "rgb", "#rrggbb" and "rrggbb", v0.1's
      createColor agrees with the later versions'. */
  lemma CreateColor01Agrees(s: string)
    requires (|s| == 3 || |s| == 6) && AllHex(s)
    ensures CreateColor01(s) == CreateColor(s)
    ensures CreateColor01("#" + s) == CreateColor("#" + s)
  {
    if |s| == 3 {
      CreateColor01Three(s);
    } else {
      CreateColor01Six(s);
    }
  }

  lemma CreateColor01Six(s: string)
    requires |s| == 6 && AllHex(s)
    ensures CreateColor01(s) == s && CreateColor(s) == s
    ensures CreateColor01("#" + s) == s && CreateColor("#" + s) == s
  {
    assert IsHexDigit(s[0]);
    assert ("#" + s)[1..] == s;
    CreateColorHashOptional(s);
  }

  lemma CreateColor01Three(s: string)
    requires |s| == 3 && AllHex(s)
    ensures CreateColor01(s) == [s[0], s[0], s[1], s[1], s[2], s[2]] && CreateColor(s) == CreateColor01(s)
    ensures CreateColor01("#" + s) == CreateColor01(s) && CreateColor("#" + s) == CreateColor(s)
  {
    assert IsHexDigit(s[0]);
    assert ("#" + s)[1..] == s;
    CreateColor01Meaning(s);
    CreateColor01Meaning("#" + s);
    CreateColorHashOptional(s);
    ShorthandExpanded(s);
  }

  /** ... but a four-character colour without '#' is cut to three and
      expanded, where the later versions keep it whole. */
  lemma CreateColor01DropsAnyFirst(s: string)
    requires |s| == 4 && s[0] != '#'
    ensures |CreateColor01(s)| == 6 && CreateColor(s) == s
  {
  }

  /** v0.1's tint target: getRGB of the three parseInt(…, 16) results;
      None is a NaN. */
  datatype Dest01 = Dest01(r: Option<nat>, g: Option<nat>, b: Option<nat>)

  /** The tint decode: the hex value of characters 0-2, 2-4 and 4-6 of
      createColor's output. */
  function TintTarget01(color: string): Dest01
  {
    var src := CreateColor01(color);
    Dest01(ParseHex(Substring(src, 0, 2)), ParseHex(Substring(src, 2, 4)), ParseHex(Substring(src, 4, 6)))
  }

  /** parseInt of at most two characters, read in base 16, is below 256. */
  lemma ShortHexByte(s: string)
    requires |s| <= 2
    ensures ParseHex(s).Some? ==> ParseHex(s).value < 256
  {
    var n := HexPrefixLength(s);
    if n > 0 {
      assert |s[..n]| == n;
      assert Pow16(n) <= 256 by {
        assert Pow16(1) == 16 && Pow16(2) == 256;
      }
    }
  }

  /** Each channel of the tint target, whatever the colour string, is a
      NaN or a byte. */
  lemma TintTarget01Bytes(color: string)
    ensures var d := TintTarget01(color);
      && (d.r.Some? ==> d.r.value < 256) && (d.g.Some? ==> d.g.value < 256) && (d.b.Some? ==> d.b.value < 256)
  {
    var src := CreateColor01(color);
    ShortHexByte(Substring(src, 0, 2));
    ShortHexByte(Substring(src, 2, 4));
    ShortHexByte(Substring(src, 4, 6));
  }

  /** Two hex digits read as one byte. */
  lemma HexPairValue(s: string)
    requires |s| == 2 && AllHex(s)
    ensures ParseHex(s) == Some(HexValue(s))
  {
    ParseHexDigits(s);
  }

  /** For six hex digits, with or without '#', v0.1 decodes the same
      target as v0.2 and v0.3 do with their 24-bit split. */
  lemma TintSix01(s: string)
    requires |s| == 6 && AllHex(s)
    ensures var p := TintTarget(s);
      && TintTarget01(s) == Dest01(Some(p.r), Some(p.g), Some(p.b))
      && TintTarget01("#" + s) == TintTarget01(s)
  {
    CreateColor01Six(s);
    assert TintTarget(s) == Pixel(HexValue(s[..2]), HexValue(s[2..4]), HexValue(s[4..])) by {
      TintSixDigits(s);
    }
    assert TintTarget01(s) == Dest01(ParseHex(s[..2]), ParseHex(s[2..4]), ParseHex(s[4..])) by {
      assert s[4..6] == s[4..];
    }
    assert AllHex(s[..2]) && AllHex(s[2..4]) && AllHex(s[4..]) by {
      assert forall i :: 0 <= i < 2 ==> s[..2][i] == s[i] && s[2..4][i] == s[i + 2] && s[4..][i] == s[i + 4];
    }
    HexPairValue(s[..2]);
    HexPairValue(s[2..4]);
    HexPairValue(s[4..]);
  }

  /** The default tint colour "#FFF" is white for v0.1 too. */
  lemma DefaultTint01IsWhite()
    ensures TintTarget01("#FFF") == Dest01(Some(255), Some(255), Some(255))
  {
    var short, long := "FFF", "FFFFFF";
    assert AllHex(short) && AllHex(long);
    assert "#FFF" == "#" + short;
    CreateColor01Three(short);
    assert CreateColor01("#FFF") == long;
    CreateColor01Six(long);
    TintSix01(long);
    assert TintTarget01("#FFF") == TintTarget01(long);
    DefaultTintIsWhite();
    assert TintTarget("#FFF") == TintTarget(long) by {
      ShorthandExpanded(short);
      CreateColorHashOptional(short);
    }
  }

  /** A tint channel: the blend towards the target; a NaN target makes the
      blend NaN, which the byte array stores as 0. */
  function TintChannel01(amount: real, d: Option<nat>, c: int): real
  {
    match d
    case None => 0.0
    case Some(v) => FindColorDifference(amount, v as real, c as real)
  }

  /** The noise added to channel c (0, 1, 2) of pixel i: mono noise uses
      the pixel's first draw for all three, colour noise draws once more
      per channel. */
  function NoiseDraw01(s: Settings01, rand: Draws, i: nat, c: nat): int
  {
    if IsMono(s.noiseType) then Noise01(s.noiseAmount, rand(i, 0)) else Noise01(s.noiseAmount, rand(i, c + 1))
  }

  /** What v0.1's applyFilters writes for pixel i of colour px (None: the
      filter has no case). Noise is added without clamping; the store does
      what clamping there is. */
  function PixelOut01(f: Filter, s: Settings01, dest: Dest01, rand: Draws, px: Pixel, i: nat): Option<Triple>
  {
    match f
    case Greyscale =>
      var val := Luminance(px);
      Some(BlendPixel(s.greyscaleAmount, Triple(val, val, val), px))
    case Noise =>
      Some(Triple((px.r + NoiseDraw01(s, rand, i, 0)) as real, (px.g + NoiseDraw01(s, rand, i, 1)) as real,
                  (px.b + NoiseDraw01(s, rand, i, 2)) as real))
    case Tint =>
      Some(Triple(TintChannel01(s.tintAmount, dest.r, px.r), TintChannel01(s.tintAmount, dest.g, px.g),
                  TintChannel01(s.tintAmount, dest.b, px.b)))
    case Sepia => Some(BlendPixel(s.sepiaAmount, SepiaTone(px), px))
    case _ => None
  }

  /** What applyFilters writes at index, reading the buffer cur. */
  function FilterOut01(f: Filter, s: Settings01, dest: Dest01, rand: Draws, cur: seq<int>, index: nat): Option<Triple>
    requires index + 2 < |cur|
  {
    PixelOut01(f, s, dest, rand, PixelAt(cur, index), index / 4)
  }

  /** v0.1's applyFilters at index: the three colour entries written
      directly, each through the array's store. */
  method ApplyFilters01(f: Filter, s: Settings01, dest: Dest01, rand: Draws, data: array<int>, index: nat, thisPixel: Pixel, store: real -> int)
    requires index % 4 == 0 && index + 2 < data.Length
    requires thisPixel == PixelAt(data[..], index)
    modifies data
    ensures data[..] == WithRGB(old(data[..]), index, FilterOut01(f, s, dest, rand, old(data[..]), index), store)
  {
    ghost var out := PixelOut01(f, s, dest, rand, thisPixel, index / 4);
    var i := index / 4;
    match f
    case Greyscale =>
      var val := Luminance(thisPixel);
      var r, g, b := FindColorDifference(s.greyscaleAmount, val, thisPixel.r as real),
        FindColorDifference(s.greyscaleAmount, val, thisPixel.g as real),
        FindColorDifference(s.greyscaleAmount, val, thisPixel.b as real);
      assert out == Some(Triple(r, g, b));
      WriteRGB(data, index, r, g, b, store);
    case Noise =>
      var val := Noise01(s.noiseAmount, rand(i, 0));
      var r, g, b;
      if IsMono(s.noiseType) {
        r, g, b := (thisPixel.r + val) as real, (thisPixel.g + val) as real, (thisPixel.b + val) as real;
      } else {
        r, g, b := (thisPixel.r + Noise01(s.noiseAmount, rand(i, 1))) as real,
          (thisPixel.g + Noise01(s.noiseAmount, rand(i, 2))) as real,
          (thisPixel.b + Noise01(s.noiseAmount, rand(i, 3))) as real;
      }
      assert out == Some(Triple(r, g, b));
      WriteRGB(data, index, r, g, b, store);
    case Tint =>
      var r, g, b := TintChannel01(s.tintAmount, dest.r, thisPixel.r),
        TintChannel01(s.tintAmount, dest.g, thisPixel.g),
        TintChannel01(s.tintAmount, dest.b, thisPixel.b);
      assert out == Some(Triple(r, g, b));
      WriteRGB(data, index, r, g, b, store);
    case Sepia =>
      var sepia := SepiaTone(thisPixel);
      var r, g, b := FindColorDifference(s.sepiaAmount, sepia.r, thisPixel.r as real),
        FindColorDifference(s.sepiaAmount, sepia.g, thisPixel.g as real),
        FindColorDifference(s.sepiaAmount, sepia.b, thisPixel.b as real);
      assert out == Some(Triple(r, g, b));
      WriteRGB(data, index, r, g, b, store);
    case _ =>
  }

  /** The three assignments `pixels.data[index] = …` to `pixels.data[index + 2] = …`. */
  method WriteRGB(data: array<int>, index: nat, r: real, g: real, b: real, store: real -> int)
    requires index + 2 < data.Length
    modifies data
    ensures data[..] == WithRGB(old(data[..]), index, Some(Triple(r, g, b)), store)
  {
    data[index] := store(r);
    data[index + 1] := store(g);
    data[index + 2] := store(b);
  }

  /** applyFilters as a step of the main loop: pixel i, read from the buffer as it stands. */
  function Step01(f: Filter, s: Settings01, dest: Dest01, rand: Draws): PixelStep
  {
    (cur: seq<int>, i: nat) => if 4 * i + 2 < |cur| then PixelOut01(f, s, dest, rand, PixelAt(cur, 4 * i), i) else None
  }

  /** The buffer once the main loop has run applyFilters on pixels 0 to n - 1. */
  function Pass01(f: Filter, s: Settings01, dest: Dest01, rand: Draws, orig: seq<int>, store: real -> int, n: nat): (r: seq<int>)
    requires 4 * n <= |orig|
    ensures |r| == |orig|
  {
    Sequential(Step01(f, s, dest, rand), orig, store, n)
  }

  /** One more pixel of the loop. */
  lemma Pass01Unfold(f: Filter, s: Settings01, dest: Dest01, rand: Draws, orig: seq<int>, store: real -> int, n: nat)
    requires 0 < n && 4 * n <= |orig|
    ensures var prev := Pass01(f, s, dest, rand, orig, store, n - 1);
      Pass01(f, s, dest, rand, orig, store, n) == WithRGB(prev, 4 * (n - 1), FilterOut01(f, s, dest, rand, prev, 4 * (n - 1)), store)
  {
    assert (4 * (n - 1)) / 4 == n - 1;
  }

  /** v0.1's main loop: applyFilters on every pixel in turn. */
  method FilterPass01(f: Filter, s: Settings01, dest: Dest01, rand: Draws, data: array<int>, store: real -> int)
    requires data.Length % 4 == 0
    modifies data
    ensures data[..] == Pass01(f, s, dest, rand, old(data[..]), store, data.Length / 4)
  {
    ghost var orig := data[..];
    var i := 0;
    while i < data.Length / 4
      invariant 0 <= i <= data.Length / 4
      invariant data[..] == Pass01(f, s, dest, rand, orig, store, i)
    {
      FilterStep01(f, s, dest, rand, data, orig, store, i);
      i := i + 1;
    }
  }

  /** One pass of the main loop: pixel i read and filtered. */
  method FilterStep01(f: Filter, s: Settings01, dest: Dest01, rand: Draws, data: array<int>, ghost orig: seq<int>, store: real -> int, i: nat)
    requires 4 * i + 4 <= data.Length == |orig|
    requires data[..] == Pass01(f, s, dest, rand, orig, store, i)
    modifies data
    ensures data[..] == Pass01(f, s, dest, rand, orig, store, i + 1)
  {
    var index := 4 * i;
    var thisPixel := Pixel(data[index], data[index + 1], data[index + 2]);
    ApplyFilters01(f, s, dest, rand, data, index, thisPixel, store);
    Pass01Unfold(f, s, dest, rand, orig, store, i + 1);
  }

  /** Entry k after every pixel has been filtered on its own. */
  function PassEntry01(f: Filter, s: Settings01, dest: Dest01, rand: Draws, orig: seq<int>, store: real -> int, k: nat): int
    requires |orig| % 4 == 0 && k < |orig|
  {
    if k % 4 == 3 then orig[k]
    else
      EntryPixel(orig, k);
      match PixelOut01(f, s, dest, rand, PixelAt(orig, 4 * (k / 4)), k / 4)
      case None => orig[k]
      case Some(t) => store(TChannel(t, k % 4))
  }

  /** The pixel of entry k lies inside the buffer. */
  lemma EntryPixel(orig: seq<int>, k: nat)
    requires |orig| % 4 == 0 && k < |orig|
    ensures 4 * (k / 4) + 3 < |orig|
  {
    LemmaDivModUnique(|orig|, 4, |orig| / 4, 0);
    assert k == 4 * (k / 4) + k % 4;
  }

  /** Every filter of v0.1 reads only its own pixel, which the pixels
      before it do not touch: the in-place loop is the pixel-by-pixel map. */
  lemma Pass01Entry(f: Filter, s: Settings01, dest: Dest01, rand: Draws, orig: seq<int>, store: real -> int, k: nat)
    requires |orig| % 4 == 0 && k < |orig|
    ensures Pass01(f, s, dest, rand, orig, store, |orig| / 4)[k] == PassEntry01(f, s, dest, rand, orig, store, k)
  {
    var step := Step01(f, s, dest, rand);
    forall cur: seq<int>, i: nat | |cur| == |orig| && 4 * i + 2 < |cur| && PixelAt(cur, 4 * i) == PixelAt(orig, 4 * i)
      ensures StepAt(step, cur, i) == step(orig, i)
    {
    }
    SequentialPointwise(step, orig, store, |orig| / 4);
    AllDone(Pass01(f, s, dest, rand, orig, store, |orig| / 4), Pointwise(step, orig, store), orig, |orig| / 4);
    EntryPixel(orig, k);
  }

  /** Greyscale at amount 1 gives pixel i the same value, its luminance, in
      R, G and B. */
  lemma GreyscaleFull01(s: Settings01, dest: Dest01, rand: Draws, orig: seq<int>, store: real -> int, i: nat)
    requires |orig| % 4 == 0 && 4 * i < |orig| && s.greyscaleAmount == 1.0
    ensures var r, v := Pass01(Greyscale, s, dest, rand, orig, store, |orig| / 4), store(Luminance(PixelAt(orig, 4 * i)));
      r[4 * i] == v && r[4 * i + 1] == v && r[4 * i + 2] == v
  {
    assert (4 * i) / 4 == i && (4 * i + 1) / 4 == i && (4 * i + 2) / 4 == i;
    assert (4 * i) % 4 == 0 && (4 * i + 1) % 4 == 1 && (4 * i + 2) % 4 == 2;
    Pass01Entry(Greyscale, s, dest, rand, orig, store, 4 * i);
    Pass01Entry(Greyscale, s, dest, rand, orig, store, 4 * i + 1);
    Pass01Entry(Greyscale, s, dest, rand, orig, store, 4 * i + 2);
  }

  /** Noise adds its draw to each colour entry, unclamped before the store:
      mono noise one draw for the whole pixel, colour noise one per channel. */
  lemma Noise01Entry(s: Settings01, dest: Dest01, rand: Draws, orig: seq<int>, store: real -> int, k: nat)
    requires |orig| % 4 == 0 && k < |orig| && k % 4 < 3
    ensures Pass01(Noise, s, dest, rand, orig, store, |orig| / 4)[k] == store((orig[k] + NoiseDraw01(s, rand, k / 4, k % 4)) as real)
    ensures IsMono(s.noiseType) ==> NoiseDraw01(s, rand, k / 4, k % 4) == Noise01(s.noiseAmount, rand(k / 4, 0))
  {
    EntryPixel(orig, k);
    var px := PixelAt(orig, 4 * (k / 4));
    assert Channel(px, k % 4) == orig[k] by {
      assert k == 4 * (k / 4) + k % 4;
    }
    assert TChannel(PixelOut01(Noise, s, dest, rand, px, k / 4).value, k % 4) ==
      (Channel(px, k % 4) + NoiseDraw01(s, rand, k / 4, k % 4)) as real;
    Pass01Entry(Noise, s, dest, rand, orig, store, k);
  }

  /** Tint blends each colour entry towards its target channel; a NaN
      channel is stored as 0. */
  lemma Tint01Entry(s: Settings01, dest: Dest01, rand: Draws, orig: seq<int>, store: real -> int, k: nat)
    requires |orig| % 4 == 0 && k < |orig| && k % 4 < 3
    ensures var d := if k % 4 == 0 then dest.r else if k % 4 == 1 then dest.g else dest.b;
      Pass01(Tint, s, dest, rand, orig, store, |orig| / 4)[k] == store(TintChannel01(s.tintAmount, d, orig[k]))
  {
    Pass01Entry(Tint, s, dest, rand, orig, store, k);
    EntryPixel(orig, k);
    assert k == 4 * (k / 4) + k % 4;
  }

  /** The loop draws bytes and keeps every alpha entry. */
  lemma Pass01Bytes(f: Filter, s: Settings01, dest: Dest01, rand: Draws, orig: seq<int>, store: real -> int, n: nat)
    requires 4 * n <= |orig| && IsByteStore(store) && AllBytes(orig)
    ensures var r := Pass01(f, s, dest, rand, orig, store, n);
      AllBytes(r) && forall k :: 0 <= k < |r| && k % 4 == 3 ==> r[k] == orig[k]
  {
    SequentialBytes(Step01(f, s, dest, rand), orig, store, n);
  }

  /** Filters with no case in v0.1's applyFilters, blur among them, leave
      the buffer, however far the loop has run. */
  lemma {:induction false} Pass01NoCase(f: Filter, s: Settings01, dest: Dest01, rand: Draws, orig: seq<int>, store: real -> int, n: nat)
    requires 4 * n <= |orig| && f !in {Greyscale, Noise, Sepia, Tint}
    ensures Pass01(f, s, dest, rand, orig, store, n) == orig
  {
    if n > 0 {
      Pass01NoCase(f, s, dest, rand, orig, store, n - 1);
      SequentialUnfold(Step01(f, s, dest, rand), orig, store, n);
    }
  }

  /** The tint target when the filter is not tint: processFilters leaves it
      undefined, and no other filter reads it. */
  const NoDest := Dest01(None, None, None)

  /** What v0.1's processFilters puts back on the canvas for one element:
      blur is the gaussianBlur result, handed in, which the main loop then
      visits without a case; tint works out its target first; every filter
      runs the main loop. */
  function Processed01(f: Filter, s: Settings01, image: seq<int>, blurred: seq<int>, rand: Draws, store: real -> int): seq<int>
    requires |image| % 4 == 0 && |blurred| % 4 == 0
  {
    match f
    case Blur => Pass01(Blur, s, NoDest, rand, blurred, store, |blurred| / 4)
    case Tint => Pass01(Tint, s, TintTarget01(s.tintColor), rand, image, store, |image| / 4)
    case _ => Pass01(f, s, NoDest, rand, image, store, |image| / 4)
  }

  /** v0.1's processFilters for one element, from the pixels initializeBuffer
      reads (None: the image has no area and there are no pixels). */
  method ProcessFilters01(f: Filter, s: Settings01, image: seq<int>, w: nat, h: nat, blurred: seq<int>, rand: Draws, store: real -> int)
    returns (drawn: Option<seq<int>>)
    requires |image| == w * h * 4 && |blurred| == |image|
    ensures drawn.Some? <==> w > 0 && h > 0
    ensures drawn.Some? ==> drawn.value == Processed01(f, s, image, blurred, rand, store)
  {
    if w == 0 || h == 0 {
      return None;
    }
    var pixels := new int[|image|](k requires 0 <= k < |image| => image[k]);
    assert pixels[..] == image;
    if f == Blur {
      pixels := new int[|blurred|](k requires 0 <= k < |blurred| => blurred[k]);
      assert pixels[..] == blurred;
    }
    var dest := NoDest;
    if f == Tint {
      dest := TintTarget01(s.tintColor);
    }
    FilterPass01(f, s, dest, rand, pixels, store);
    drawn := Some(pixels[..]);
  }

  /** Blur draws the blurred pixels: the main loop over them changes nothing. */
  lemma Blur01IsBlurred(s: Settings01, image: seq<int>, blurred: seq<int>, rand: Draws, store: real -> int)
    requires |image| % 4 == 0 && |blurred| % 4 == 0
    ensures Processed01(Blur, s, image, blurred, rand, store) == blurred
  {
    Pass01NoCase(Blur, s, NoDest, rand, blurred, store, |blurred| / 4);
  }

  /** Every filter draws bytes from bytes and keeps every alpha entry. */
  lemma ProcessedBytes01(f: Filter, s: Settings01, image: seq<int>, blurred: seq<int>, rand: Draws, store: real -> int)
    requires |image| % 4 == 0 && |blurred| % 4 == 0
    requires IsByteStore(store) && AllBytes(image) && AllBytes(blurred)
    ensures var r := Processed01(f, s, image, blurred, rand, store);
      AllBytes(r) && forall k :: 0 <= k < |r| && k % 4 == 3 ==> r[k] == (if f == Blur then blurred[k] else image[k])
  {
    match f
    case Blur => Pass01Bytes(Blur, s, NoDest, rand, blurred, store, |blurred| / 4);
    case Tint => Pass01Bytes(Tint, s, TintTarget01(s.tintColor), rand, image, store, |image| / 4);
    case _ => Pass01Bytes(f, s, NoDest, rand, image, store, |image| / 4);
  }

  /** getFilterParameters' defaults in v0.1. */
  const Defaults01: map<string, Param> := map[
    "blurAmount" := Num(1.0), "greyscaleAmount" := Num(1.0), "noiseAmount" := Num(30.0),
    "noiseType" := Text("mono"), "sepiaAmount" := Num(1.0), "tintAmount" := Num(0.3),
    "tintColor" := Text("#FFF")]

  /** createParameter: params, with filterName set to the attribute's text
      when the attribute is truthy. */
  function CreateParameter01(data: Option<string>, filterName: string, params: map<string, Param>): (r: map<string, Param>)
    ensures r.Keys == if Truthy(data) then params.Keys + {filterName} else params.Keys
    ensures forall name :: name in r ==> r[name] == if Truthy(data) && name == filterName then Text(data.value) else params[name]
  {
    if Truthy(data) then params[filterName := Text(data.value)] else params
  }

  /** One createParameter call: the attribute read and the key written. */
  datatype Call01 = Call01(attribute: string, key: string)

  /** The createParameter calls of v0.1's getFilterParameters in order; the
      code writes the data-pb-tint-colour attribute to "tintColour". */
  function Calls01(colourKey: string): seq<Call01>
  {
    [Call01("data-pb-blur-amount", "blurAmount"), Call01("data-pb-greyscale-amount", "greyscaleAmount"),
     Call01("data-pb-noise-amount", "noiseAmount"), Call01("data-pb-noise-type", "noiseType"),
     Call01("data-pb-sepia-amount", "sepiaAmount"), Call01("data-pb-tint-amount", "tintAmount"),
     Call01("data-pb-tint-color", "tintColor"), Call01("data-pb-tint-colour", colourKey)]
  }

  /** params after the calls, one after the other. */
  function Created01(calls: seq<Call01>, attrs: Attributes, params: map<string, Param>): map<string, Param>
  {
    if calls == [] then params
    else
      var last := calls[|calls| - 1];
      CreateParameter01(GetAttribute(attrs, last.attribute), last.key, Created01(calls[..|calls| - 1], attrs, params))
  }

  /** Reference reading: the text of the LAST call for key whose attribute is truthy. */
  function LastWrite01(calls: seq<Call01>, attrs: Attributes, key: string): Option<string>
  {
    if calls == [] then None
    else
      var last := calls[|calls| - 1];
      if last.key == key && Truthy(GetAttribute(attrs, last.attribute)) then Some(attrs[last.attribute])
      else LastWrite01(calls[..|calls| - 1], attrs, key)
  }

  /** Every key after the calls holds the last truthy attribute written to
      it, or its value before the calls; no call adds a key whose attribute
      is not truthy. */
  lemma {:induction false} CreatedValue01(calls: seq<Call01>, attrs: Attributes, params: map<string, Param>, key: string)
    ensures key in Created01(calls, attrs, params) <==> key in params || LastWrite01(calls, attrs, key).Some?
    ensures key in Created01(calls, attrs, params) ==>
      Created01(calls, attrs, params)[key] == if LastWrite01(calls, attrs, key).Some? then Text(LastWrite01(calls, attrs, key).value) else params[key]
    decreases |calls|
  {
    if calls != [] {
      CreatedValue01(calls[..|calls| - 1], attrs, params, key);
    }
  }

  /** The object v0.1's getFilterParameters returns, with the key the
      data-pb-tint-colour attribute is written to as a parameter. */
  function FilterParameters01(attrs: Attributes, colourKey: string): map<string, Param>
  {
    Created01(Calls01(colourKey), attrs, Defaults01)
  }

  /** Every default survives, and the only key added is the colour key,
      when data-pb-tint-colour is truthy. */
  lemma FilterParameters01Keys(attrs: Attributes, colourKey: string)
    requires colourKey !in Defaults01
    ensures FilterParameters01(attrs, colourKey).Keys ==
      Defaults01.Keys + (if Truthy(GetAttribute(attrs, "data-pb-tint-colour")) then {colourKey} else {})
  {
    var p := FilterParameters01(attrs, colourKey);
    var calls := Calls01(colourKey);
    forall key | key in p
      ensures key in Defaults01 || key == colourKey
    {
      CreatedValue01(calls, attrs, Defaults01, key);
      if key !in Defaults01 && key != colourKey {
        NoWrite01(calls, attrs, key);
      }
    }
    forall key | key in Defaults01
      ensures key in p
    {
      CreatedValue01(calls, attrs, Defaults01, key);
    }
    CreatedValue01(calls, attrs, Defaults01, colourKey);
    LastTwo01(attrs, colourKey, colourKey);
  }

  /** Calls that never write key leave nothing for it. */
  lemma {:induction false} NoWrite01(calls: seq<Call01>, attrs: Attributes, key: string)
    requires forall k :: 0 <= k < |calls| ==> calls[k].key != key
    ensures LastWrite01(calls, attrs, key) == None
    decreases |calls|
  {
    if calls != [] {
      NoWrite01(calls[..|calls| - 1], attrs, key);
    }
  }

  /** What the last two calls leave for a key the first six do not write. */
  lemma LastTwo01(attrs: Attributes, colourKey: string, key: string)
    requires key !in {"blurAmount", "greyscaleAmount", "noiseAmount", "noiseType", "sepiaAmount", "tintAmount"}
    ensures LastWrite01(Calls01(colourKey), attrs, key) ==
      if colourKey == key && Truthy(GetAttribute(attrs, "data-pb-tint-colour")) then Some(attrs["data-pb-tint-colour"])
      else if key == "tintColor" && Truthy(GetAttribute(attrs, "data-pb-tint-color")) then Some(attrs["data-pb-tint-color"])
      else None
  {
    var calls := Calls01(colourKey);
    assert calls[..7][..6] == calls[..6];
    NoWrite01(calls[..6], attrs, key);
  }

  /** With the key the code writes, the tint colour comes from
      data-pb-tint-color or the default alone: data-pb-tint-colour only adds
      a "tintColour" entry that nothing reads. */
  lemma TintColourIgnored01(attrs: Attributes)
    ensures var p := FilterParameters01(attrs, "tintColour");
      && "tintColor" in p
      && p["tintColor"] == (if Truthy(GetAttribute(attrs, "data-pb-tint-color")) then Text(attrs["data-pb-tint-color"]) else Text("#FFF"))
      && ("tintColour" in p <==> Truthy(GetAttribute(attrs, "data-pb-tint-colour")))
  {
    CreatedValue01(Calls01("tintColour"), attrs, Defaults01, "tintColor");
    CreatedValue01(Calls01("tintColour"), attrs, Defaults01, "tintColour");
    LastTwo01(attrs, "tintColour", "tintColor");
    LastTwo01(attrs, "tintColour", "tintColour");
  }

  /** An element that spells only the British attribute keeps the white default. */
  lemma ColourOnly01()
    ensures var p := FilterParameters01(map["data-pb-tint-colour" := "#F00"], "tintColour");
      "tintColor" in p && p["tintColor"] == Text("#FFF")
  {
    TintColourIgnored01(map["data-pb-tint-colour" := "#F00"]);
  }

  /** Written to "tintColor", as the alias is evidently meant, the British
      spelling is honoured and wins over the American one. */
  lemma TintColourHonoured01(attrs: Attributes)
    ensures var p := FilterParameters01(attrs, "tintColor");
      && "tintColor" in p
      && p["tintColor"] == (if Truthy(GetAttribute(attrs, "data-pb-tint-colour")) then Text(attrs["data-pb-tint-colour"])
                            else if Truthy(GetAttribute(attrs, "data-pb-tint-color")) then Text(attrs["data-pb-tint-color"])
                            else Text("#FFF"))
  {
    CreatedValue01(Calls01("tintColor"), attrs, Defaults01, "tintColor");
    LastTwo01(attrs, "tintColor", "tintColor");
  }
}
