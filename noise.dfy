/** The noise functions of the three versions, with the random draw made a
    parameter, and the noise type test they share. */
module RandomNoise {
  import opened Pixels
  import opened Color

  /** ToInt32: the low 32 bits of an integer, read as a signed number. */
  function Int32(k: int): (r: int)
    ensures -0x8000_0000 <= r < 0x8000_0000
    ensures -0x8000_0000 <= k < 0x8000_0000 ==> r == k
  {
    (k + 0x8000_0000) % 0x1_0000_0000 - 0x8000_0000
  }

  /** A pixel with noise vr, vg and vb added to its channels, each clamped
      to the byte range. */
  function NoisePixel(px: Pixel, vr: int, vg: int, vb: int): Triple
  {
    Triple(CheckRGBBoundary(px.r + vr) as real, CheckRGBBoundary(px.g + vg) as real,
           CheckRGBBoundary(px.b + vb) as real)
  }

  /** noise: `Math.floor((noiseValue >> 1) - (Math.random() * noiseValue))`,
      the random draw r given. `>> 1` halves ToInt32 of the amount,
      rounding down. */
  function Noise03(amount: real, r: real): int
  {
    ((Int32(Trunc(amount)) / 2) as real - r * amount).Floor
  }

  /** For a whole amount n below 2^31 and a draw in [0, 1) the noise lies
      between n / 2 - n and n / 2 (n / 2 rounded down), and is n / 2 for a
      draw of 0: the default 30 gives values from -15 to 15. */
  lemma Noise03Range(n: nat, r: real)
    requires n < 0x8000_0000 && 0.0 <= r < 1.0
    ensures n / 2 - n <= Noise03(n as real, r) <= n / 2
    ensures r == 0.0 ==> Noise03(n as real, r) == n / 2
  {
    var amount := n as real;
    assert Trunc(amount) == n;
    MulNonNeg(r, amount);
    MulNonNeg(1.0 - r, amount);
    assert (1.0 - r) * amount == amount - r * amount;
    Between(n / 2, n, r * amount);
  }

  /** Taking p in [0, n] off k lands in [k - n, k]. */
  lemma Between(k: int, n: int, p: real)
    requires 0.0 <= p <= n as real
    ensures (k - n) as real <= k as real - p <= k as real
  {
  }

  /** The noise type that adds one value to all three channels. */
  predicate IsMono(noiseType: string)
  {
    noiseType == "mono" || noiseType == "monochrome"
  }

  /** Math.random as the model sees it: rand(i, k) is the k-th draw made
      while pixel i is filtered. */
  type Draws = (nat, nat) -> real

  lemma FloorMonotone(a: real, b: real)
    requires a <= b
    ensures a.Floor <= b.Floor
  {
  }

  /** v0.2's noise: `Math.floor(noiseValue / 2 - (Math.random() * noiseValue))`. */
  function Noise02(amount: real, r: real): int
  {
    (amount / 2.0 - r * amount).Floor
  }

  /** For an amount n >= 0 and a draw in [0, 1) v0.2's noise lies between
      floor(-n / 2) and floor(n / 2). */
  lemma Noise02Range(n: real, r: real)
    requires n >= 0.0 && 0.0 <= r < 1.0
    ensures (-n / 2.0).Floor <= Noise02(n, r) <= (n / 2.0).Floor
  {
    MulNonNeg(r, n);
    MulNonNeg(1.0 - r, n);
    assert (1.0 - r) * n == n - r * n;
    FloorMonotone(-n / 2.0, n / 2.0 - r * n);
    FloorMonotone(n / 2.0 - r * n, n / 2.0);
  }

  /** v0.1's noise: `Math.floor((Math.random() * noiseValue / 2) - noiseValue / 2)`. */
  function Noise01(amount: real, r: real): int
  {
    (r * amount / 2.0 - amount / 2.0).Floor
  }

  /** For an amount n > 0 and a draw in [0, 1) v0.1's noise lies between
      floor(-n / 2) and -1: it never brightens. */
  lemma Noise01Range(n: real, r: real)
    requires n > 0.0 && 0.0 <= r < 1.0
    ensures (-n / 2.0).Floor <= Noise01(n, r) <= -1
  {
    var p := r * n;
    MulNonNeg(r, n);
    assert p < n by { MulPos(1.0 - r, n); assert (1.0 - r) * n == n - p; }
    var x := p / 2.0 - n / 2.0;
    assert -n / 2.0 <= x < 0.0;
    FloorMonotone(-n / 2.0, x);
    assert x.Floor as real <= x;
  }

  lemma MulPos(a: real, b: real)
    requires a > 0.0 && b > 0.0
    ensures a * b > 0.0
  {
  }
}
