/** Convolution kernels: the preset 3x3 matrices and normalizeMatrix, which
    is the same code in v0.3, v0.2 and the kernel fragment. */
module Kernel {

  /** The running total normalizeMatrix's first loop builds, entry by entry. */
  function Sum(m: seq<real>): real
  {
    if m == [] then 0.0 else Sum(m[..|m| - 1]) + m[|m| - 1]
  }

  /** Every entry divided by d. */
  function DivideAll(m: seq<real>, d: real): (r: seq<real>)
    requires d != 0.0
    ensures |r| == |m|
    ensures forall i :: 0 <= i < |m| ==> r[i] * d == m[i]
  {
    seq(|m|, i requires 0 <= i < |m| => m[i] / d)
  }

  /** The matrix normalizeMatrix leaves behind: each entry over the original sum. */
  function Normalized(m: seq<real>): seq<real>
    requires Sum(m) != 0.0
  {
    DivideAll(m, Sum(m))
  }

  /** Dividing every entry by d divides the sum by d. */
  lemma {:induction false} SumDivideAll(m: seq<real>, d: real)
    requires d != 0.0
    ensures Sum(DivideAll(m, d)) == Sum(m) / d
  {
    if m != [] {
      var m' := m[..|m| - 1];
      assert DivideAll(m, d)[..|m| - 1] == DivideAll(m', d);
      SumDivideAll(m', d);
      assert Sum(DivideAll(m, d)) == Sum(m') / d + m[|m| - 1] / d;
    }
  }

  /** A matrix with a non-zero sum sums to 1 once normalized. */
  lemma NormalizedSumsToOne(m: seq<real>)
    requires Sum(m) != 0.0
    ensures Sum(Normalized(m)) == 1.0
  {
    SumDivideAll(m, Sum(m));
    assert Sum(m) / Sum(m) == 1.0;
  }

  /** A matrix that already sums to 1 is left as it is. */
  lemma NormalizeKeepsUnitSum(m: seq<real>)
    requires Sum(m) == 1.0
    ensures Normalized(m) == m
  {
    assert forall i :: 0 <= i < |m| ==> Normalized(m)[i] == m[i];
  }

  /** normalizeMatrix: divide every entry, in place, by the sum of all of them. */
  method NormalizeMatrix(matrix: array<real>)
    requires Sum(matrix[..]) != 0.0
    modifies matrix
    ensures matrix[..] == Normalized(old(matrix[..]))
  {
    var j := 0.0;
    for i := 0 to matrix.Length
      invariant j == Sum(matrix[..i])
    {
      assert matrix[..i + 1][..i] == matrix[..i];
      j := j + matrix[i];
    }
    assert matrix[..matrix.Length] == matrix[..];
    ghost var original := matrix[..];
    for i := 0 to matrix.Length
      invariant forall k :: 0 <= k < i ==> matrix[k] == original[k] / j
      invariant forall k :: i <= k < matrix.Length ==> matrix[k] == original[k]
    {
      matrix[i] := matrix[i] / j;
    }
  }

  /** The preset kernels of v0.3's processFilters. */
  const EdgesKernel: seq<real> := [0.0, 1.0, 0.0, 1.0, -4.0, 1.0, 0.0, 1.0, 0.0]
  const EmbossKernel: seq<real> := [-2.0, -1.0, 0.0, -1.0, 1.0, 1.0, 0.0, 1.0, 2.0]
  const BoxBlurKernel: seq<real> := [0.111, 0.111, 0.111, 0.111, 0.111, 0.111, 0.111, 0.111, 0.111]
  const SharpenKernel: seq<real> := [-1.0, -1.0, -1.0, -1.0, 9.0, -1.0, -1.0, -1.0, -1.0]

  /** The sums of the presets: emboss and sharpen keep brightness, the box
      blur with its rounded weights loses a tenth of a percent, and the edge
      detector sums to 0, so normalizing it would divide by zero. */
  lemma PresetSums()
    ensures Sum(EmbossKernel) == 1.0
    ensures Sum(SharpenKernel) == 1.0
    ensures Sum(BoxBlurKernel) == 0.999
    ensures Sum(EdgesKernel) == 0.0
  {
    assert EmbossKernel[..8] == [-2.0, -1.0, 0.0, -1.0, 1.0, 1.0, 0.0, 1.0];
    assert SharpenKernel[..8] == [-1.0, -1.0, -1.0, -1.0, 9.0, -1.0, -1.0, -1.0];
    assert BoxBlurKernel[..8] == [0.111, 0.111, 0.111, 0.111, 0.111, 0.111, 0.111, 0.111];
    assert EdgesKernel[..8] == [0.0, 1.0, 0.0, 1.0, -4.0, 1.0, 0.0, 1.0];
    SumOfNine(EmbossKernel);
    SumOfNine(SharpenKernel);
    SumOfNine(BoxBlurKernel);
    SumOfNine(EdgesKernel);
  }

  /** The sum of a 3x3 matrix, written out. */
  lemma SumOfNine(m: seq<real>)
    requires |m| == 9
    ensures Sum(m) == m[0] + m[1] + m[2] + m[3] + m[4] + m[5] + m[6] + m[7] + m[8]
  {
    assert m[..1][..0] == [];
    assert Sum(m[..1]) == m[0];
    assert m[..2][..1] == m[..1];
    assert Sum(m[..2]) == Sum(m[..1]) + m[1];
    assert m[..3][..2] == m[..2];
    assert Sum(m[..3]) == Sum(m[..2]) + m[2];
    assert m[..4][..3] == m[..3];
    assert Sum(m[..4]) == Sum(m[..3]) + m[3];
    assert m[..5][..4] == m[..4];
    assert Sum(m[..5]) == Sum(m[..4]) + m[4];
    assert m[..6][..5] == m[..5];
    assert Sum(m[..6]) == Sum(m[..5]) + m[5];
    assert m[..7][..6] == m[..6];
    assert Sum(m[..7]) == Sum(m[..6]) + m[6];
    assert m[..8][..7] == m[..7];
    assert Sum(m[..8]) == Sum(m[..7]) + m[7];
    assert m[..8] == m[..|m| - 1];
    assert Sum(m) == Sum(m[..8]) + m[8];
  }

  /** The sharpen kernel v0.2 normalizes before use comes out unchanged. */
  lemma SharpenUnchangedByNormalize()
    ensures Sum(SharpenKernel) != 0.0
    ensures Normalized(SharpenKernel) == SharpenKernel
  {
    PresetSums();
    NormalizeKeepsUnitSum(SharpenKernel);
  }
}
