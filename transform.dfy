/**
 * The arithmetic of panning and zooming: converting a screen-space drag into a
 * grid-space translation, clamping a zoom multiplier so that the scaled base
 * line gap stays inside the configured range, the translation shift that keeps
 * the focal point fixed, and the level-of-detail multiplier that keeps the
 * rendered gap between major lines inside the band from 128 to 256 points.
 */
module Transform {

  const LowerBand: real := 128.0
  const UpperBand: real := 256.0

  /** Pan: a screen-space drag (dx, dy) moves the translation by the drag
      divided by the scale, so that the grid moves by a fixed distance on
      screen whatever the zoom level. */
  function Panned(tx: real, ty: real, dx: real, dy: real, scale: real): (t: (real, real))
    requires scale != 0.0
    ensures (t.0 - tx) * scale == dx && (t.1 - ty) * scale == dy
  {
    (tx + dx / scale, ty + dy / scale)
  }

  /** Two drags in a row move the translation as much as their sum does. */
  lemma PanAdditive(tx: real, ty: real, a: real, b: real, c: real, d: real, scale: real)
    requires scale != 0.0
    ensures var t1 := Panned(tx, ty, a, b, scale);
            Panned(t1.0, t1.1, c, d, scale) == Panned(tx, ty, a + c, b + d, scale)
  {
    assert a / scale + c / scale == (a + c) / scale;
    assert b / scale + d / scale == (b + d) / scale;
  }

  /** The base gap at this scale, scale * lineSpacing, lies within the
      bounds a zoom enforces. */
  predicate GapWithin(scale: real, lineSpacing: real, smallest: real, largest: real)
  {
    smallest <= scale * lineSpacing <= largest
  }

  /** Zoom, step 1: the multiplier actually applied. The gap
      scale * m * lineSpacing is moved onto the nearer bound when it falls
      outside [smallest, largest], the lower bound being tested first. */
  function ClampMultiplier(scale: real, lineSpacing: real, smallest: real, largest: real, m: real): real
    requires scale * lineSpacing != 0.0
  {
    if scale * m * lineSpacing < smallest then smallest / (scale * lineSpacing)
    else if scale * m * lineSpacing > largest then largest / (scale * lineSpacing)
    else m
  }

  /** The clamped multiplier puts the gap on the lower bound when the
      requested one falls below it, on the upper bound when it lies above,
      and leaves the request alone in between; when the bounds are ordered
      the resulting gap always lies between them, and when they are positive
      so does the gap. */
  lemma ClampMultiplierBounds(scale: real, lineSpacing: real, smallest: real, largest: real, m: real)
    requires scale * lineSpacing != 0.0
    ensures var r := ClampMultiplier(scale, lineSpacing, smallest, largest, m);
            (scale * m * lineSpacing < smallest ==> scale * r * lineSpacing == smallest) &&
            (smallest <= scale * m * lineSpacing && scale * m * lineSpacing > largest ==>
               scale * r * lineSpacing == largest) &&
            (smallest <= scale * m * lineSpacing <= largest ==> r == m) &&
            (smallest <= largest ==> smallest <= scale * r * lineSpacing <= largest) &&
            (0.0 < smallest && 0.0 < largest ==> scale * r * lineSpacing > 0.0)
  {
    if scale * m * lineSpacing < smallest {
      DividedBack(smallest, scale, lineSpacing);
    } else if scale * m * lineSpacing > largest {
      DividedBack(largest, scale, lineSpacing);
    }
  }

  lemma DividedBack(gap: real, scale: real, lineSpacing: real)
    requires scale * lineSpacing != 0.0
    ensures scale * (gap / (scale * lineSpacing)) * lineSpacing == gap
  {
    calc {
      scale * (gap / (scale * lineSpacing)) * lineSpacing;
      (scale * lineSpacing) * (gap / (scale * lineSpacing));
      gap;
    }
  }

  /** Zoom, step 2, on one axis: the change in the number of grid points the
      viewport extent shows, old scale to new, weighted by where the focal
      point sits within the viewport. */
  function Displacement(extent: real, scale: real, m: real, proportion: real): real
    requires scale != 0.0 && m != 0.0
  {
    (extent / (scale * m) - extent / scale) * proportion
  }

  /** On one axis, the translation minus the focal point's screen coordinate
      divided by the scale: the quantity a zoom about that point keeps. */
  function FocalOffset(translation: real, p: real, scale: real): real
    requires scale != 0.0
  {
    translation - p / scale
  }

  /** With proportion = p / extent, the displacement is p/(scale*m) - p/scale,
      so translation - p / scale is the same before and after the zoom. */
  lemma FocalPointFixed(t: real, extent: real, scale: real, m: real, newScale: real, p: real)
    requires extent != 0.0 && scale != 0.0 && m != 0.0 && newScale == scale * m
    ensures Displacement(extent, scale, m, p / extent) == p / newScale - p / scale
    ensures FocalOffset(t + Displacement(extent, scale, m, p / extent), p, newScale) == FocalOffset(t, p, scale)
  {
    var q := p / extent;
    assert extent * q == p;
    calc {
      Displacement(extent, scale, m, q);
      (extent / (scale * m) - extent / scale) * q;
      (extent * q) / (scale * m) - (extent * q) / scale;
      p / (scale * m) - p / scale;
    }
  }

  /** Zooming by 2.5 about the centre of an 800-point-wide viewport at scale 1
      shifts the translation by -240 on that axis: the displacement does not
      vanish at the centre. */
  lemma CentreZoomShifts()
    ensures Displacement(800.0, 1.0, 2.5, 400.0 / 800.0) == -240.0
  {
    FocalPointFixed(0.0, 800.0, 1.0, 2.5, 2.5, 400.0);
  }

  /** The rendered gap between major lines lies in the band [128, 256]. */
  predicate InBand(lineSpacing: real, scale: real, spacing: real)
  {
    LowerBand <= lineSpacing * scale * spacing <= UpperBand
  }

  /** A zoom leaves the translation where it is exactly when the focal point
      is at 0 on that axis or the clamped multiplier is 1. */
  lemma DisplacementZeroIff(extent: real, scale: real, m: real, p: real)
    requires extent != 0.0 && scale != 0.0 && m != 0.0
    ensures Displacement(extent, scale, m, p / extent) == 0.0 <==> p == 0.0 || m == 1.0
  {
    FocalPointFixed(0.0, extent, scale, m, scale * m, p);
    var d := p / (scale * m) - p / scale;
    assert d * (scale * m) == p * (1.0 - m);
    if d == 0.0 {
      assert p * (1.0 - m) == 0.0;
    }
  }

  /** Zoom, step 3: the level-of-detail multiplier. With g the gap the current
      multiplier gives, lineSpacing * scale * spacing, the new multiplier makes
      the gap 128 when g >= 256, 256 when g <= 128, and keeps the multiplier
      otherwise. */
  function CalculateScaleSpacing(lineSpacing: real, scale: real, spacing: real): real
    requires lineSpacing * scale != 0.0
  {
    var adjustedLineSpacing := lineSpacing * scale * spacing;
    if adjustedLineSpacing >= UpperBand then
      LowerBand / (lineSpacing * scale)
    else if adjustedLineSpacing <= LowerBand then
      UpperBand / (lineSpacing * scale)
    else
      spacing
  }

  /** The three cases of the level-of-detail multiplier, and the band they
      guarantee: one call always lands the gap in [128, 256], and the
      multiplier stays positive for a positive lineSpacing * scale. */
  lemma ScaleSpacingBand(lineSpacing: real, scale: real, spacing: real)
    requires lineSpacing * scale != 0.0
    ensures var r := CalculateScaleSpacing(lineSpacing, scale, spacing);
            (lineSpacing * scale * spacing >= UpperBand ==> lineSpacing * scale * r == LowerBand) &&
            (lineSpacing * scale * spacing <= LowerBand ==> lineSpacing * scale * r == UpperBand) &&
            (LowerBand < lineSpacing * scale * spacing < UpperBand ==> r == spacing) &&
            InBand(lineSpacing, scale, r) &&
            (lineSpacing * scale > 0.0 ==> r > 0.0)
  {
    var g := lineSpacing * scale;
    if g * spacing >= UpperBand {
      assert g * (LowerBand / g) == LowerBand;
    } else if g * spacing <= LowerBand {
      assert g * (UpperBand / g) == UpperBand;
    }
  }

  /** From the initial state (line spacing 40, scale 1, multiplier 1) one
      recomputation puts the rendered gap exactly on 256, the upper end of
      the band: the band is closed at both ends. */
  lemma UpperEdgeReached()
    ensures 40.0 * 1.0 * CalculateScaleSpacing(40.0, 1.0, 1.0) == UpperBand
  {
  }

  /** Recomputing the multiplier leaves it alone exactly when the gap lies
      strictly inside the band: at either end of the band it jumps to the other. */
  lemma ScaleSpacingStableIff(lineSpacing: real, scale: real, spacing: real)
    requires lineSpacing * scale != 0.0
    ensures var r := CalculateScaleSpacing(lineSpacing, scale, spacing);
            CalculateScaleSpacing(lineSpacing, scale, r) == r <==>
            LowerBand < lineSpacing * scale * r < UpperBand
    ensures var r := CalculateScaleSpacing(lineSpacing, scale, spacing);
            (lineSpacing * scale * r == LowerBand ==>
               lineSpacing * scale * CalculateScaleSpacing(lineSpacing, scale, r) == UpperBand) &&
            (lineSpacing * scale * r == UpperBand ==>
               lineSpacing * scale * CalculateScaleSpacing(lineSpacing, scale, r) == LowerBand)
  {
    var r := CalculateScaleSpacing(lineSpacing, scale, spacing);
    ScaleSpacingBand(lineSpacing, scale, spacing);
    ScaleSpacingBand(lineSpacing, scale, r);
  }
}
