/** Posterize as v0.2 and v0.3 compute it:
    `parseInt(posterizeValues * parseInt(c / posterizeAreas))`. */
module Posterize {
  import opened Pixels
  import opened Color
  import opened Params

  /** What a posterize parameter can hold: a non-zero number or the
      Infinity of a division by zero (getFilterParameters' 256 / amount
      and 255 / (amount - 1) are never 0). */
  predicate IsQuotient(p: Param)
  {
    p.Infinity? || (p.Num? && p.n != 0.0)
  }

  /** parseInt(posterizeValues * parseInt(c / posterizeAreas)). Infinite
      areas put every channel in band 0; infinite values make the product
      NaN or infinite, and parseInt of either is NaN, here None. */
  function PosterizeLevel(values: Param, areas: Param, c: int): Option<int>
    requires IsQuotient(values) && IsQuotient(areas)
  {
    var band := if areas.Infinity? then 0 else Trunc(c as real / areas.n);
    if values.Infinity? then None else Some(Trunc(values.n * band as real))
  }

  /** The band of a byte when the areas are 256 / n: c * n / 256, below n. */
  lemma PosterizeBand(a: real, n: nat, c: int)
    requires n >= 1 && a * n as real == 256.0 && IsByte(c)
    ensures Trunc(c as real / a) == c * n / 256 < n
  {
    var q := c as real / a;
    assert q == (c * n) as real / 256.0 by {
      assert q * a == c as real;
      assert (c * n) as real == c as real * n as real;
    }
    var k := c * n / 256;
    assert c * n == 256 * k + (c * n) % 256;
    assert k as real <= q < k as real + 1.0;
    assert c * n < 256 * n by { MulMonotone(c, 255, n); }
  }

  /** With the parameters getFilterParameters derives from n >= 2 levels,
      every byte turns into a byte. */
  lemma PosterizeLevels(v: real, a: real, n: nat, c: int)
    requires n >= 2 && a * n as real == 256.0 && v * (n - 1) as real == 255.0 && IsByte(c)
    ensures PosterizeLevel(Num(v), Num(a), c).Some?
    ensures IsByte(PosterizeLevel(Num(v), Num(a), c).value)
  {
    PosterizeBand(a, n, c);
    var band := c * n / 256;
    assert v > 0.0;
    assert 0.0 <= v * band as real <= 255.0 by {
      MulNonNeg(v, band as real);
      MulNonNeg(v, (n - 1 - band) as real);
      assert v * (n - 1 - band) as real == 255.0 - v * band as real;
    }
  }

  /** Black stays black. */
  lemma PosterizeBlack(v: real, a: real, n: nat)
    requires n >= 2 && a * n as real == 256.0 && v * (n - 1) as real == 255.0
    ensures PosterizeLevel(Num(v), Num(a), 0) == Some(0)
  {
    assert v != 0.0;
    PosterizeBand(a, n, 0);
    assert v * 0 as real == 0.0;
    assert Trunc(0.0) == 0;
  }

  /** For up to 256 levels white stays white. */
  lemma PosterizeWhite(v: real, a: real, n: nat)
    requires 2 <= n <= 256 && a * n as real == 256.0 && v * (n - 1) as real == 255.0
    ensures PosterizeLevel(Num(v), Num(a), 255) == Some(255)
  {
    assert v != 0.0;
    PosterizeBand(a, n, 255);
    LemmaDivModUnique(255 * n, 256, n - 1, 256 - n);
    var band := Trunc(255 as real / a);
    assert band == n - 1;
    assert PosterizeLevel(Num(v), Num(a), 255).value == Trunc(v * band as real);
    assert v * band as real == 255.0;
    assert Trunc(255.0) == 255;
  }



  /** The default posterize sends every byte to 0, 63, 127, 191 or 255,
      by its fifth of the byte range. */
  lemma DefaultPosterizeLevels(c: int)
    requires IsByte(c)
    ensures PosterizeLevel(Num(63.75), Num(51.2), c) ==
      Some(if c < 52 then 0 else if c < 103 then 63 else if c < 154 then 127 else if c < 205 then 191 else 255)
  {
    PosterizeBand(51.2, 5, c);
    var band := c * 5 / 256;
    assert band == if c < 52 then 0 else if c < 103 then 1 else if c < 154 then 2 else if c < 205 then 3 else 4;
    assert Trunc(63.75 * 0 as real) == 0 && Trunc(63.75 * 1 as real) == 63 && Trunc(63.75 * 2 as real) == 127;
    assert Trunc(63.75 * 3 as real) == 191 && Trunc(63.75 * 4 as real) == 255;
  }

  /** Posterize with two levels (areas 128, values 255) turns every byte
      black or white: below 128 black, from 128 white. */
  lemma PosterizeTwoLevels(c: int)
    requires IsByte(c)
    ensures PosterizeLevel(Num(255.0), Num(128.0), c) == Some(if c < 128 then 0 else 255)
  {
    PosterizeBand(128.0, 2, c);
    assert Trunc(255.0 * 0 as real) == 0 && Trunc(255.0 * 1 as real) == 255;
  }
}
