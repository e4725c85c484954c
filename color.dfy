/** Colour arithmetic that v0.2 and v0.3 share word for word (and, for the
    blend rule and the greyscale and sepia weights, v0.1 as well). */
module Color {
  import opened Pixels

  /** findColorDifference: move from src towards dest by the fraction dif. */
  function FindColorDifference(dif: real, dest: real, src: real): (r: real)
    ensures dif == 0.0 ==> r == src
    ensures dif == 1.0 ==> r == dest
    ensures dest == src ==> r == src
    ensures r - src == dif * (dest - src)
  {
    dif * dest + (1.0 - dif) * src
  }

  /** For an opacity in [0, 1] the blend lies between its two ends. */
  lemma BlendBetween(dif: real, dest: real, src: real)
    requires 0.0 <= dif <= 1.0
    ensures src <= dest ==> src <= FindColorDifference(dif, dest, src) <= dest
    ensures dest <= src ==> dest <= FindColorDifference(dif, dest, src) <= src
  {
    var r := FindColorDifference(dif, dest, src);
    if src <= dest {
      MulNonNeg(dif, dest - src);
      MulNonNeg(1.0 - dif, dest - src);
      assert dest - r == (1.0 - dif) * (dest - src);
    } else {
      MulNonNeg(dif, src - dest);
      MulNonNeg(1.0 - dif, src - dest);
      assert r - dest == (1.0 - dif) * (src - dest);
    }
  }

  lemma MulNonNeg(a: real, b: real)
    requires a >= 0.0 && b >= 0.0
    ensures a * b >= 0.0
  {
  }

  /** The blend of one pixel towards a target colour, channel by channel,
      as every opacity-weighted filter writes it. */
  function BlendPixel(dif: real, dest: Triple, src: Pixel): (t: Triple)
    ensures dif == 0.0 ==> t == TripleOf(src)
    ensures dif == 1.0 ==> t == dest
    ensures dest == TripleOf(src) ==> t == dest
  {
    Triple(FindColorDifference(dif, dest.r, src.r as real),
           FindColorDifference(dif, dest.g, src.g as real),
           FindColorDifference(dif, dest.b, src.b as real))
  }

  /** checkRGBBoundary: clamp to the byte range. */
  function CheckRGBBoundary(val: int): (r: int)
    ensures IsByte(r)
    ensures IsByte(val) ==> r == val
    ensures val < 0 ==> r == 0
    ensures val > 255 ==> r == 255
  {
    if val < 0 then 0 else if val > 255 then 255 else val
  }

  /** Clamping twice is clamping once. */
  lemma CheckRGBBoundaryIdempotent(val: int)
    ensures CheckRGBBoundary(CheckRGBBoundary(val)) == CheckRGBBoundary(val)
  {
  }

  /** parseInt applied to a number, for 1e-6 <= |x| < 1e21 (and x = 0): its
      integer part, truncated toward zero. Outside that range JavaScript
      prints the number in exponent form and parseInt reads its leading
      digits, which this function does not follow. */
  function Trunc(x: real): (n: int)
    ensures x >= 0.0 ==> 0.0 <= x - n as real < 1.0
    ensures x < 0.0 ==> 0.0 <= n as real - x < 1.0
  {
    if x >= 0.0 then x.Floor else -((-x).Floor)
  }

  /** The greyscale value of a pixel. */
  function Luminance(p: Pixel): real
  {
    p.r as real * 0.21 + p.g as real * 0.71 + p.b as real * 0.07
  }

  /** The greyscale weights add up to 0.99, not 1: a grey pixel comes out
      one percent darker, so mid-grey 128 becomes 126.72. */
  lemma LuminanceOfGrey(v: int)
    ensures Luminance(Pixel(v, v, v)) == 0.99 * v as real
    ensures v > 0 ==> Luminance(Pixel(v, v, v)) < v as real
  {
  }

  /** The sepia matrix, one row per channel: the targets every version's
      sepia case blends towards (paintbrush.js:233-235,
      demo/script/paintbrush-0.2.js:322-324, demo/paintbrush.js:259-261). */
  function SepiaTone(p: Pixel): Triple
  {
    var r, g, b := p.r as real, p.g as real, p.b as real;
    Triple(r * 0.393 + g * 0.769 + b * 0.189,
           r * 0.349 + g * 0.686 + b * 0.168,
           r * 0.272 + g * 0.534 + b * 0.131)
  }

  /** The characters JavaScript's `.` refuses to match. */
  predicate IsLineTerminator(c: char)
  {
    c == '\n' || c == '\r' || c == '\U{2028}' || c == '\U{2029}'
  }

  /** `src.replace(/(.)/g, '$1$1')`: double every character a `.` matches. */
  function DoubleChars(s: string): (t: string)
    ensures |t| >= |s|
    ensures (forall i :: 0 <= i < |s| ==> !IsLineTerminator(s[i])) ==>
              |t| == 2 * |s| && forall i :: 0 <= i < |s| ==> t[2 * i] == s[i] && t[2 * i + 1] == s[i]
  {
    if s == [] then []
    else (if IsLineTerminator(s[0]) then [s[0]] else [s[0], s[0]]) + DoubleChars(s[1..])
  }

  /** `src.replace(/^#/, '')`: drop one leading '#', if there is one. */
  function StripHash(s: string): (t: string)
    ensures |s| > 0 && s[0] == '#' ==> t == s[1..]
    ensures (|s| == 0 || s[0] != '#') ==> t == s
  {
    if |s| > 0 && s[0] == '#' then s[1..] else s
  }

  /** createColor of v0.2 and v0.3. */
  function CreateColor(src: string): string
  {
    var s := StripHash(src);
    if |s| == 3 then DoubleChars(s) else s
  }

  /** What createColor promises: one leading '#' goes, a three-character
      remainder has each character doubled, any other remainder is kept. */
  lemma CreateColorMeaning(src: string)
    ensures var s := StripHash(src);
      && (|s| == 3 && (forall i :: 0 <= i < 3 ==> !IsLineTerminator(s[i])) ==>
            CreateColor(src) == [s[0], s[0], s[1], s[1], s[2], s[2]])
      && (|s| != 3 ==> CreateColor(src) == s)
  {
    var s := StripHash(src);
    if |s| == 3 && (forall i :: 0 <= i < 3 ==> !IsLineTerminator(s[i])) {
      var t := DoubleChars(s);
      assert |t| == 6;
      assert t == [s[0], s[0], s[1], s[1], s[2], s[2]] by {
        assert t[0] == s[0] && t[1] == s[0];
        assert t[2] == s[1] && t[3] == s[1];
        assert t[4] == s[2] && t[5] == s[2];
      }
    }
  }

  /** With or without its '#', a colour means the same. */
  lemma CreateColorHashOptional(s: string)
    requires |s| == 0 || s[0] != '#'
    ensures CreateColor("#" + s) == CreateColor(s)
  {
    assert ("#" + s)[1..] == s;
  }

  predicate IsHexDigit(c: char)
  {
    ('0' <= c <= '9') || ('a' <= c <= 'f') || ('A' <= c <= 'F')
  }

  function HexDigit(c: char): (d: nat)
    requires IsHexDigit(c)
    ensures d < 16
  {
    if '0' <= c <= '9' then c as nat - '0' as nat
    else if 'a' <= c <= 'f' then c as nat - 'a' as nat + 10
    else c as nat - 'A' as nat + 10
  }

  predicate AllHex(s: string)
  {
    forall i :: 0 <= i < |s| ==> IsHexDigit(s[i])
  }

  function Pow16(n: nat): (p: nat)
    ensures p > 0
  {
    if n == 0 then 1 else 16 * Pow16(n - 1)
  }

  /** The number a string of hex digits spells, most significant first. */
  function HexValue(s: string): (v: nat)
    requires AllHex(s)
    ensures v < Pow16(|s|)
  {
    if s == [] then 0 else HexValue(s[..|s| - 1]) * 16 + HexDigit(s[|s| - 1])
  }

  /** Reading a + b is reading a, shifting by |b| digits and adding b. */
  lemma {:induction false} HexValueAppend(a: string, b: string)
    requires AllHex(a) && AllHex(b)
    ensures AllHex(a + b)
    ensures HexValue(a + b) == HexValue(a) * Pow16(|b|) + HexValue(b)
  {
    assert AllHex(a + b) by {
      forall i | 0 <= i < |a + b| ensures IsHexDigit((a + b)[i]) {
        if i < |a| { assert (a + b)[i] == a[i]; } else { assert (a + b)[i] == b[i - |a|]; }
      }
    }
    if b == [] {
      assert a + b == a;
    } else {
      var b' := b[..|b| - 1];
      assert (a + b)[..|a + b| - 1] == a + b';
      assert (a + b)[|a + b| - 1] == b[|b| - 1];
      HexValueAppend(a, b');
      var A, P, B', d := HexValue(a), Pow16(|b'|), HexValue(b'), HexDigit(b[|b| - 1]);
      assert HexValue(a + b) == HexValue(a + b') * 16 + d;
      assert HexValue(b) == B' * 16 + d by { assert b[..|b| - 1] == b'; }
      ShiftDigit(A, P, B', d);
    }
  }

  /** One more digit at the end multiplies the front by 16 more. */
  lemma ShiftDigit(a: nat, p: nat, b: nat, d: nat)
    ensures (a * p + b) * 16 + d == a * (16 * p) + (b * 16 + d)
  {
  }

  /** How many leading characters of s are hex digits. */
  function HexPrefixLength(s: string): (n: nat)
    ensures n <= |s|
    ensures AllHex(s[..n])
    ensures n < |s| ==> !IsHexDigit(s[n])
  {
    if s == [] || !IsHexDigit(s[0]) then 0
    else
      var n := 1 + HexPrefixLength(s[1..]);
      assert s[..n] == [s[0]] + s[1..][..n - 1];
      n
  }

  /** parseInt(s, 16): the value of the longest leading run of hex digits;
      None (NaN) when s does not start with one. */
  function ParseHex(s: string): (v: Option<nat>)
    ensures s == [] || !IsHexDigit(s[0]) <==> v == None
  {
    var n := HexPrefixLength(s);
    if n == 0 then None else Some(HexValue(s[..n]))
  }

  /** On a string made only of hex digits, parseInt reads all of it. */
  lemma ParseHexDigits(s: string)
    requires AllHex(s) && s != []
    ensures ParseHex(s) == Some(HexValue(s))
  {
    HexPrefixAll(s);
    assert s[..|s|] == s;
  }

  lemma {:induction false} HexPrefixAll(s: string)
    requires AllHex(s)
    ensures HexPrefixLength(s) == |s|
  {
    if s != [] {
      assert AllHex(s[1..]) by {
        forall i | 0 <= i < |s[1..]| ensures IsHexDigit(s[1..][i]) { assert s[1..][i] == s[i + 1]; }
      }
      HexPrefixAll(s[1..]);
    }
  }

  /** The tint target of v0.2 and v0.3,
      `{r: (src & 0xFF0000) >> 16, g: (src & 0x00FF00) >> 8, b: src & 0x0000FF}`:
      the bit operators see the low 32 bits of src, and each mask and shift
      picks one byte of them. A NaN src is 0 to the bit operators, so an
      unparsable colour is black. */
  function SplitRGB(src: Option<nat>): Pixel
  {
    var v := if src.Some? then src.value % 0x1_0000_0000 else 0;
    Pixel((v / 0x10000) % 256, (v / 0x100) % 256, v % 256)
  }

  /** Taking the low 32 bits first does not change the three bytes. */
  lemma SplitRGBBytes(n: nat)
    ensures SplitRGB(Some(n)) == Pixel((n / 0x10000) % 256, (n / 0x100) % 256, n % 256)
  {
    ModDivMod(n, 0x10000, 256, 0x100);
    ModDivMod(n, 0x100, 256, 0x1_0000);
    ModDivMod(n, 1, 256, 0x100_0000);
  }

  /** Reducing modulo d * b * k, then dividing by d and reducing modulo b,
      is the same as dividing by d and reducing modulo b. */
  lemma ModDivMod(n: nat, d: nat, b: nat, k: nat)
    requires d > 0 && b > 0 && k > 0
    ensures ((n % (d * b * k)) / d) % b == (n / d) % b
  {
    var big := d * b * k;
    var q := n / big;
    var m := n % big;
    assert n == q * big + m;
    assert q * big == (q * b * k) * d;
    assert 0 <= m;
    assert n / d == q * b * k + m / d by {
      assert n == (q * b * k + m / d) * d + m % d;
      LemmaDivModUnique(n, d, q * b * k + m / d, m % d);
    }
    assert (n / d) % b == (m / d) % b by {
      assert q * b * k + m / d == (q * k + (m / d) / b) * b + (m / d) % b;
      LemmaDivModUnique(n / d, b, q * k + (m / d) / b, (m / d) % b);
    }
  }

  /** Each tint channel is a byte; for a number below 2^24 the three bytes
      put back together give the number again. */
  lemma SplitRGBRoundTrip(n: nat)
    ensures var p := SplitRGB(Some(n)); IsByte(p.r) && IsByte(p.g) && IsByte(p.b)
    ensures n < 0x100_0000 ==> var p := SplitRGB(Some(n)); p.r * 0x10000 + p.g * 0x100 + p.b == n
  {
    SplitRGBBytes(n);
    if n < 0x100_0000 {
      var hi, mid := n / 0x10000, n / 0x100;
      assert n == mid * 256 + n % 256;
      assert mid == hi * 256 + mid % 256 by {
        assert mid / 256 == hi;
      }
      assert hi < 256;
    }
  }

  /** The tint target decoded from a colour string, as v0.2 and v0.3 do. */
  function TintTarget(color: string): Pixel
  {
    SplitRGB(ParseHex(CreateColor(color)))
  }

  /** Three bytes put together are split back into the same three bytes. */
  lemma SplitThreeBytes(hi: nat, mid: nat, lo: nat)
    requires hi < 256 && mid < 256 && lo < 256
    ensures SplitRGB(Some((hi * 256 + mid) * 256 + lo)) == Pixel(hi, mid, lo)
  {
    var n := (hi * 256 + mid) * 256 + lo;
    SplitRGBBytes(n);
    LemmaDivModUnique(n, 256, hi * 256 + mid, lo);
    LemmaDivModUnique(n / 256, 256, hi, mid);
    assert n == hi * 65536 + (mid * 256 + lo);
    LemmaDivModUnique(n, 65536, hi, mid * 256 + lo);
  }

  /** Six hex digits read as three two-digit bytes. */
  lemma HexSix(s: string)
    requires |s| == 6 && AllHex(s)
    ensures AllHex(s[..2]) && AllHex(s[2..4]) && AllHex(s[4..])
    ensures HexValue(s) == (HexValue(s[..2]) * 256 + HexValue(s[2..4])) * 256 + HexValue(s[4..])
  {
    var a, b, c := s[..2], s[2..4], s[4..];
    assert forall i :: 0 <= i < 2 ==> a[i] == s[i] && b[i] == s[i + 2] && c[i] == s[i + 4];
    HexValueAppend(a, b);
    HexValueAppend(a + b, c);
    assert a + b + c == s;
    assert Pow16(2) == 256;
  }

  /** A six-digit colour, with or without its '#', tints towards the three
      bytes its digit pairs spell. */
  lemma TintSixDigits(s: string)
    requires |s| == 6 && AllHex(s)
    ensures TintTarget(s) == Pixel(HexValue(s[..2]), HexValue(s[2..4]), HexValue(s[4..]))
    ensures TintTarget("#" + s) == TintTarget(s)
  {
    assert IsHexDigit(s[0]);
    CreateColorHashOptional(s);
    assert CreateColor(s) == s;
    HexColorBytes(s);
  }

  /** parseInt(s, 16) split into bytes, for six hex digits. */
  lemma HexColorBytes(s: string)
    requires |s| == 6 && AllHex(s)
    ensures AllHex(s[..2]) && AllHex(s[2..4]) && AllHex(s[4..])
    ensures SplitRGB(ParseHex(s)) == Pixel(HexValue(s[..2]), HexValue(s[2..4]), HexValue(s[4..]))
  {
    ParseHexDigits(s);
    HexSix(s);
    assert Pow16(|s[..2]|) == 256;
    SplitThreeBytes(HexValue(s[..2]), HexValue(s[2..4]), HexValue(s[4..]));
  }

  /** Two equal hex digits spell 17 times the digit. */
  lemma HexPair(c: char)
    requires IsHexDigit(c)
    ensures AllHex([c, c]) && HexValue([c, c]) == 17 * HexDigit(c)
  {
    assert [c, c][..1] == [c];
    assert [c][..0] == [];
  }

  /** createColor expands a three-digit shorthand by doubling. */
  lemma ShorthandExpanded(s: string)
    requires |s| == 3 && AllHex(s)
    ensures CreateColor(s) == [s[0], s[0], s[1], s[1], s[2], s[2]]
  {
    assert s[0] != '#';
    CreateColorMeaning(s);
  }

  /** The shorthand #abc means #aabbcc: each channel is 17 times its digit. */
  lemma TintThreeDigits(s: string)
    requires |s| == 3 && AllHex(s)
    ensures TintTarget(s) == Pixel(17 * HexDigit(s[0]), 17 * HexDigit(s[1]), 17 * HexDigit(s[2]))
    ensures TintTarget("#" + s) == TintTarget(s)
  {
    CreateColorHashOptional(s);
    ShorthandExpanded(s);
    DoubledBytes(s[0], s[1], s[2]);
  }

  lemma DoubledBytes(a: char, b: char, c: char)
    requires IsHexDigit(a) && IsHexDigit(b) && IsHexDigit(c)
    ensures SplitRGB(ParseHex([a, a, b, b, c, c])) == Pixel(17 * HexDigit(a), 17 * HexDigit(b), 17 * HexDigit(c))
  {
    var d := [a, a, b, b, c, c];
    HexColorBytes(d);
    assert d[..2] == [a, a] && d[2..4] == [b, b] && d[4..] == [c, c];
    HexPair(a);
    HexPair(b);
    HexPair(c);
  }

  /** The default tint colour "#FFF" is white. */
  lemma DefaultTintIsWhite()
    ensures TintTarget("#FFF") == Pixel(255, 255, 255)
  {
    assert AllHex("FFF");
    assert "#FFF" == "#" + "FFF";
    TintThreeDigits("FFF");
  }
}
