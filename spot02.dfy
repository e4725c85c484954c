/** The in-place reading of the v0.2 convolution on one small image. */
module InPlaceSpot {
  import opened Pixels
  import opened Color
  import opened Kernel
  import opened Convolution
  import Paintbrush02
  import Paintbrush03

  /** A 4 x 3 image, grey 100 in every entry but the red of pixel (1, 1),
      110. Its interior is pixels (1, 1) and (2, 1), side by side. */
  ghost predicate IsSpot(img: seq<int>)
  {
    |img| == 48 && forall k :: 0 <= k < |img| ==> img[k] == if k == 20 then 110 else 100
  }

  /** Such an image exists. */
  function SpotImage(): (r: seq<int>)
    ensures IsSpot(r)
  {
    seq(48, k => if k == 20 then 110 else 100)
  }

  /** The sums around (1, 1): red 9 * 110 - 8 * 100 = 190, green and blue
      flat at 100. */
  lemma SpotSums(img: seq<int>)
    requires IsSpot(img)
    ensures ConvSum(img, 4, 3, SharpenKernel, 1, 1, 0, true) == 190.0
    ensures ConvSum(img, 4, 3, SharpenKernel, 1, 1, 1, true) == 100.0
    ensures ConvSum(img, 4, 3, SharpenKernel, 1, 1, 2, true) == 100.0
  {
    assert ConvSum(img, 4, 3, SharpenKernel, 1, 1, 0, true) == 190.0 by {
      SharpenOneOff(img, 4, 3, 1, 1, 0, 1, 1, 100, 110, true);
    }
    assert ConvSum(img, 4, 3, SharpenKernel, 1, 1, 1, true) == 100.0 by {
      SharpenOneOff(img, 4, 3, 1, 1, 1, 1, 1, 100, 100, true);
    }
    SharpenOneOff(img, 4, 3, 1, 1, 2, 1, 1, 100, 100, true);
  }

  /** The first step reads and writes pixel (1, 1), entries 20 to 22. */
  lemma FirstStepPixel(cur: seq<int>, store: real -> int)
    requires |cur| == 48
    ensures Paintbrush02.MatrixWrite02(cur, 4, 3, SharpenKernel, 1.0, store, 0) ==
      WithRGB(cur, 20, Some(Paintbrush02.MatrixPixel02(cur, 4, 3, SharpenKernel, 1.0, 1, 1)), store)
  {
    Paintbrush02.StepPixel(0, 4, 3);
    assert Paintbrush02.StepX(0, 1) == 1 && Paintbrush02.StepY(0, 1) == 1;
    assert Entry(1, 1, 4, 0) == 20;
  }

  lemma SpotPixel(img: seq<int>)
    requires IsSpot(img)
    ensures Paintbrush02.MatrixPixel02(img, 4, 3, SharpenKernel, 1.0, 1, 1) == Triple(190.0, 100.0, 100.0)
  {
    SpotSums(img);
    assert img[20] == 110 && img[21] == 100 && img[22] == 100;
  }

  lemma SpotWrite(img: seq<int>, store: real -> int)
    requires IsSpot(img) && IsByteStore(store)
    ensures WithRGB(img, 20, Some(Triple(190.0, 100.0, 100.0)), store) == img[20 := 190]
  {
    StoreByte(store, 190);
    StoreByte(store, 100);
    assert img[21] == 100 && img[22] == 100;
  }

  /** Step 0 sharpens (1, 1) and writes 190 into its red. */
  lemma SpotFirstStep(img: seq<int>, store: real -> int)
    requires IsSpot(img) && IsByteStore(store)
    ensures Paintbrush02.InPlace02(img, 4, 3, SharpenKernel, 1.0, store, 1) == img[20 := 190]
  {
    assert Paintbrush02.InPlace02(img, 4, 3, SharpenKernel, 1.0, store, 0) == img;
    Paintbrush02.InPlaceUnfold(img, 4, 3, SharpenKernel, 1.0, store, 0);
    FirstStepPixel(img, store);
    SpotPixel(img);
    SpotWrite(img, store);
  }

  /** The red sum around (2, 1) once step 0 has run: 9 * 100 - 7 * 100 - 190. */
  lemma SpotSecondSum(img: seq<int>)
    requires IsSpot(img)
    ensures ConvSum(img[20 := 190], 4, 3, SharpenKernel, 2, 1, 0, true) == 10.0
  {
    SharpenOneOff(img[20 := 190], 4, 3, 2, 1, 0, 0, 1, 100, 190, true);
  }

  lemma SpotSecondPixel(img: seq<int>)
    requires IsSpot(img)
    ensures TChannel(Paintbrush02.MatrixPixel02(img[20 := 190], 4, 3, SharpenKernel, 1.0, 2, 1), 0) == 10.0
  {
    SpotSecondSum(img);
    assert img[20 := 190][24] == 100;
  }

  lemma SpotTwoSteps(img: seq<int>, store: real -> int)
    requires IsSpot(img) && IsByteStore(store)
    ensures Paintbrush02.InPlace02(img, 4, 3, SharpenKernel, 1.0, store, 2) ==
      Paintbrush02.MatrixWrite02(img[20 := 190], 4, 3, SharpenKernel, 1.0, store, 1)
  {
    SpotFirstStep(img, store);
    Paintbrush02.InPlaceUnfold(img, 4, 3, SharpenKernel, 1.0, store, 1);
  }

  lemma SpotSecondWrite(img: seq<int>, store: real -> int)
    requires IsSpot(img) && IsByteStore(store)
    ensures Paintbrush02.MatrixWrite02(img[20 := 190], 4, 3, SharpenKernel, 1.0, store, 1)[24] == 10
  {
    assert Paintbrush02.StepOf(2, 1, 3) == 1 && Entry(2, 1, 4, 0) == 24;
    Paintbrush02.MatrixWrite02Own(img[20 := 190], 4, 3, SharpenKernel, 1.0, store, 2, 1, 0);
    SpotSecondPixel(img);
    StoreByte(store, 10);
  }

  /** Finding: step 1 sharpens (2, 1) reading the red of (1, 1) that step 0
      has just written, and comes to 10. */
  lemma SpotInPlace(img: seq<int>, store: real -> int)
    requires IsSpot(img) && IsByteStore(store)
    ensures Paintbrush02.Steps(4, 3) == 2
    ensures Paintbrush02.InPlace02(img, 4, 3, SharpenKernel, 1.0, store, Paintbrush02.Steps(4, 3))[24] == 10
  {
    SpotTwoSteps(img, store);
    SpotSecondWrite(img, store);
  }

  /** The red sum around (2, 1) over the unfiltered image: 9 * 100 - 7 * 100 - 110. */
  lemma SpotCopySum(img: seq<int>)
    requires IsSpot(img)
    ensures ConvSum(img, 4, 3, SharpenKernel, 2, 1, 0, false) == 90.0
  {
    SharpenOneOff(img, 4, 3, 2, 1, 0, 1, 0, 100, 110, false);
  }

  /** Entry 24 of v0.3's result is red of (2, 1), sharpened over the image. */
  lemma SpotCopyEntry(img: seq<int>, store: real -> int)
    requires |img| == 48
    ensures Paintbrush03.Convolved(img, img, 4, 3, SharpenKernel, 1.0, store)[24] ==
      store(FindColorDifference(1.0, ConvSum(img, 4, 3, SharpenKernel, 2, 1, 0, false), img[24] as real))
  {
    assert Col(24, 4) == 2 && Row(24, 4) == 1 && Convolvable(24, 4, 3);
    assert Paintbrush03.Convolved(img, img, 4, 3, SharpenKernel, 1.0, store)[24] ==
      Paintbrush03.MatrixEntry(img, img, 4, 3, SharpenKernel, 1.0, store, 24);
  }

  /** ... where v0.3, reading its sums from a copy of the image, writes 90. */
  lemma SpotFromCopy(img: seq<int>, store: real -> int)
    requires IsSpot(img) && IsByteStore(store)
    ensures Paintbrush03.Convolved(img, img, 4, 3, SharpenKernel, 1.0, store)[24] == 90
  {
    SpotCopyEntry(img, store);
    SpotCopySum(img);
    assert img[24] == 100;
    assert FindColorDifference(1.0, 90.0, 100.0) == 90.0;
    StoreByte(store, 90);
  }
}
