/**
 * The label-size classifier: the name banner's size tier (0 to 3) chosen from the width of the
 * rendered video surface relative to the width of the compositor canvas.
 */
module LabelSize {

  /** The banner's size tier, `0 | 1 | 2 | 3` as its state is typed. */
  type Tier = t: nat | t <= 3

  /** `width / canvasWidth >= bound` is `width >= bound * canvasWidth` when the canvas is wider than 0. */
  lemma RatioAtLeast(width: real, canvasWidth: real, bound: real)
    requires canvasWidth > 0.0
    ensures width / canvasWidth >= bound <==> width >= bound * canvasWidth
  {
  }

  /** `width / canvasWidth > bound` is `width > bound * canvasWidth` when the canvas is wider than 0. */
  lemma RatioAbove(width: real, canvasWidth: real, bound: real)
    requires canvasWidth > 0.0
    ensures width / canvasWidth > bound <==> width > bound * canvasWidth
  {
  }

  /**
   * `getSize`: tier 3 when the surface spans at least half the canvas, 2 above a quarter, 1 above
   * 15 percent and 0 otherwise; the bands are stated without division, as multiples of the canvas width.
   */
  function GetSize(width: real, canvasWidth: real): (tier: Tier)
    requires canvasWidth > 0.0
    ensures tier == 3 <==> width >= 0.5 * canvasWidth
    ensures tier == 2 <==> 0.25 * canvasWidth < width < 0.5 * canvasWidth
    ensures tier == 1 <==> 0.15 * canvasWidth < width <= 0.25 * canvasWidth
    ensures tier == 0 <==> width <= 0.15 * canvasWidth
  {
    RatioAtLeast(width, canvasWidth, 0.5);
    RatioAbove(width, canvasWidth, 0.25);
    RatioAbove(width, canvasWidth, 0.15);
    var widthAsPercentage := width / canvasWidth;
    if widthAsPercentage >= 0.5 then 3
    else if widthAsPercentage > 0.25 then 2
    else if widthAsPercentage > 0.15 then 1
    else 0
  }

  /** On a fixed canvas a wider surface never gets a smaller label. */
  lemma GetSizeMonotone(narrow: real, wide: real, canvasWidth: real)
    requires canvasWidth > 0.0
    requires narrow <= wide
    ensures GetSize(narrow, canvasWidth) <= GetSize(wide, canvasWidth)
  {
  }

  /** The tier depends on the ratio alone: scaling surface and canvas together leaves it unchanged. */
  lemma GetSizeScaleInvariant(width: real, canvasWidth: real, k: real)
    requires canvasWidth > 0.0
    requires k > 0.0
    ensures GetSize(k * width, k * canvasWidth) == GetSize(width, canvasWidth)
  {
  }

  /** The boundaries belong to the lower band except at one half: a quarter gives 1, 15 percent gives 0. */
  lemma GetSizeBoundaries(canvasWidth: real)
    requires canvasWidth > 0.0
    ensures GetSize(0.5 * canvasWidth, canvasWidth) == 3
    ensures GetSize(0.25 * canvasWidth, canvasWidth) == 1
    ensures GetSize(0.15 * canvasWidth, canvasWidth) == 0
  {
  }

  /** A 120 pixel surface on a 400 pixel canvas (ratio 0.3) gets tier 2. */
  lemma GetSizeExample()
    ensures GetSize(120.0, 400.0) == 2
    ensures GetSize(200.0, 400.0) == 3
    ensures GetSize(100.0, 400.0) == 1
    ensures GetSize(60.0, 400.0) == 0
  {
  }
}
