/**
 * The view model of the infinite grid: the mutable pan/zoom state, the three
 * entry points that update it (pan, zoom about a point, viewport resize) and
 * the two read-only operations that turn it into drawing paths.
 */
module InfiniteGrid {
  import opened Geometry
  import opened Transform
  import opened Stepping

  /** Radius of the origin marker drawn by the major grid. */
  const MarkerRadius: real := 5.0

  /** The minor grid has five lines per major cell. */
  const MinorDivisions: real := 5.0

  /** A viewport size is taken when both components are finite and the area
      is at least 1. */
  predicate AcceptsScreenSize(screenSize: RawSize)
  {
    screenSize.width.Finite? && screenSize.height.Finite? &&
    Area(Size(screenSize.width.value, screenSize.height.value)) >= 1.0
  }

  function Area(size: Size): real
  {
    size.width * size.height
  }

  /** A zoom is committed when the multiplier is finite and the focal point
      divided by the viewport size is finite on both axes. */
  predicate ZoomCommits(multiplier: Float, point: RawPoint, size: Size)
  {
    multiplier.Finite? &&
    Quotient(point.x, size.width).Finite? && Quotient(point.y, size.height).Finite?
  }

  /** Before any viewport size is accepted the size is zero, and then every
      zoom aborts whatever the multiplier and focal point. */
  lemma ZeroViewportAborts(multiplier: Float, point: RawPoint)
    ensures !ZoomCommits(multiplier, point, Size(0.0, 0.0))
  {
  }

  class InfiniteGridVM {
    /** Screen points per grid unit. */
    var gScale: real
    /** The focal point of the last committed zoom. */
    var sInteractionPoint: Point
    /** The last accepted viewport size; zero until one is accepted. */
    var sSize: Size
    /** Offset of the grid's origin from the viewport centre. */
    var sTranslation: Point
    /** Level-of-detail multiplier on top of the scale. */
    var scaleSpacing: real
    /** Base gap between major lines, 40 times the base scale. */
    const sLineSpacing: real
    /** Bounds on gScale * sLineSpacing enforced by a zoom. */
    const smallestAllowedLineGap: real
    const largestAllowedLineGap: real

    /** The state invariant: positive constants and scale, a positive
        level-of-detail multiplier, and a viewport either unset (zero) or of
        area at least 1. */
    ghost predicate Valid()
      reads this
    {
      sLineSpacing > 0.0 && smallestAllowedLineGap > 0.0 && largestAllowedLineGap > 0.0 &&
      gScale > 0.0 && scaleSpacing > 0.0 &&
      (sSize == Size(0.0, 0.0) || Area(sSize) >= 1.0)
    }

    constructor (baseScale: real := 1.0, smallestAllowedLineGap: real, largestAllowedLineGap: real)
      requires baseScale > 0.0 && smallestAllowedLineGap > 0.0 && largestAllowedLineGap > 0.0
      ensures Valid()
      ensures sLineSpacing == 40.0 * baseScale
      ensures this.smallestAllowedLineGap == smallestAllowedLineGap
      ensures this.largestAllowedLineGap == largestAllowedLineGap
      ensures gScale == 1.0 && scaleSpacing == 1.0
      ensures sInteractionPoint == Point(0.0, 0.0) && sTranslation == Point(0.0, 0.0)
      ensures sSize == Size(0.0, 0.0)
    {
      gScale := 1.0;
      sInteractionPoint := Point(0.0, 0.0);
      sSize := Size(0.0, 0.0);
      sTranslation := Point(0.0, 0.0);
      scaleSpacing := 1.0;
      sLineSpacing := 40.0 * baseScale;
      this.smallestAllowedLineGap := smallestAllowedLineGap;
      this.largestAllowedLineGap := largestAllowedLineGap;
    }

    /** Pan by a screen-space drag. A drag with a non-finite component is
        dropped; otherwise the translation moves by the drag divided by the
        scale. Nothing else changes. */
    method UpdateTranslation(newTranslation: RawSize)
      requires Valid()
      modifies this`sTranslation
      ensures Valid()
      ensures !(newTranslation.width.Finite? && newTranslation.height.Finite?) ==>
                sTranslation == old(sTranslation)
      ensures newTranslation.width.Finite? && newTranslation.height.Finite? ==>
                var t := Panned(old(sTranslation).x, old(sTranslation).y,
                                newTranslation.width.value, newTranslation.height.value, gScale);
                sTranslation == Point(t.0, t.1)
      ensures newTranslation.width.Finite? && newTranslation.height.Finite? ==>
                (sTranslation.x - old(sTranslation).x) * gScale == newTranslation.width.value &&
                (sTranslation.y - old(sTranslation).y) * gScale == newTranslation.height.value
    {
      if !(newTranslation.width.Finite? && newTranslation.height.Finite?) {
        return;
      }
      var t := Panned(sTranslation.x, sTranslation.y,
                      newTranslation.width.value, newTranslation.height.value, gScale);
      sTranslation := Point(t.0, t.1);
    }

    /** Zoom by a multiplier about a focal point in screen coordinates.
        Aborts, changing nothing, when the multiplier is non-finite or the
        focal point divided by the viewport size is (in particular while the
        viewport is still zero). Otherwise clamps the multiplier, shifts the
        translation so that translation - point / scale is kept, multiplies
        the scale, records the focal point and recomputes the level-of-detail
        multiplier for the new scale. */
    method UpdateScale(newScale: Float, interactionPoint: RawPoint)
      requires Valid()
      modifies this`gScale, this`sTranslation, this`sInteractionPoint, this`scaleSpacing
      ensures Valid()
      ensures !ZoomCommits(newScale, interactionPoint, sSize) ==>
                gScale == old(gScale) && sTranslation == old(sTranslation) &&
                sInteractionPoint == old(sInteractionPoint) && scaleSpacing == old(scaleSpacing)
      ensures ZoomCommits(newScale, interactionPoint, sSize) ==>
                var m := ClampMultiplier(old(gScale), sLineSpacing, smallestAllowedLineGap,
                                         largestAllowedLineGap, newScale.value);
                gScale == old(gScale) * m &&
                sTranslation == Point(
                  old(sTranslation).x + Displacement(sSize.width, old(gScale), m,
                                                     interactionPoint.x.value / sSize.width),
                  old(sTranslation).y + Displacement(sSize.height, old(gScale), m,
                                                     interactionPoint.y.value / sSize.height)) &&
                sInteractionPoint == Point(interactionPoint.x.value, interactionPoint.y.value) &&
                scaleSpacing == CalculateScaleSpacing(sLineSpacing, gScale, old(scaleSpacing))
      ensures ZoomCommits(newScale, interactionPoint, sSize) &&
              smallestAllowedLineGap <= largestAllowedLineGap ==>
                GapWithin(gScale, sLineSpacing, smallestAllowedLineGap, largestAllowedLineGap)
      ensures ZoomCommits(newScale, interactionPoint, sSize) ==>
                FocalOffset(sTranslation.x, interactionPoint.x.value, gScale) ==
                  FocalOffset(old(sTranslation).x, interactionPoint.x.value, old(gScale)) &&
                FocalOffset(sTranslation.y, interactionPoint.y.value, gScale) ==
                  FocalOffset(old(sTranslation).y, interactionPoint.y.value, old(gScale))
      ensures ZoomCommits(newScale, interactionPoint, sSize) ==>
                InBand(sLineSpacing, gScale, scaleSpacing)
    {
      if !newScale.Finite? {
        return;
      }

      ghost var oldScale, oldTranslation, oldSpacing := gScale, sTranslation, scaleSpacing;
      var scaleMultiplier :=
        ClampMultiplier(gScale, sLineSpacing, smallestAllowedLineGap, largestAllowedLineGap, newScale.value);
      assert oldScale * scaleMultiplier > 0.0 && scaleMultiplier > 0.0 by {
        ClampMultiplierBounds(gScale, sLineSpacing, smallestAllowedLineGap, largestAllowedLineGap, newScale.value);
        PositiveFactor(gScale, scaleMultiplier, sLineSpacing);
      }

      var oldInteractionProportion := RawPoint(Quotient(interactionPoint.x, sSize.width),
                                               Quotient(interactionPoint.y, sSize.height));
      if !(oldInteractionProportion.x.Finite? && oldInteractionProportion.y.Finite?) {
        return;
      }

      // old and new displayed extents, their difference, weighted by the proportion
      var displacedTopLeftGridPoints := Size(
        Displacement(sSize.width, gScale, scaleMultiplier, oldInteractionProportion.x.value),
        Displacement(sSize.height, gScale, scaleMultiplier, oldInteractionProportion.y.value));

      sTranslation := Point(sTranslation.x + displacedTopLeftGridPoints.width,
                            sTranslation.y + displacedTopLeftGridPoints.height);
      gScale := gScale * scaleMultiplier;
      ghost var newScaleValue := gScale;
      assert newScaleValue == oldScale * scaleMultiplier;
      PositiveProduct(sLineSpacing, newScaleValue);
      sInteractionPoint := Point(interactionPoint.x.value, interactionPoint.y.value);
      scaleSpacing := CalculateScaleSpacing(sLineSpacing, gScale, scaleSpacing);

      PositiveProduct(oldScale, sLineSpacing);
      assert InBand(sLineSpacing, gScale, scaleSpacing) && scaleSpacing > 0.0 by {
        ScaleSpacingBand(sLineSpacing, gScale, oldSpacing);
      }
      assert smallestAllowedLineGap <= largestAllowedLineGap ==>
               GapWithin(gScale, sLineSpacing, smallestAllowedLineGap, largestAllowedLineGap) by {
        ClampedGap(oldScale, sLineSpacing, smallestAllowedLineGap, largestAllowedLineGap,
                   newScale.value, scaleMultiplier, gScale);
      }
      assert FocalOffset(sTranslation.x, interactionPoint.x.value, gScale) ==
               FocalOffset(oldTranslation.x, interactionPoint.x.value, oldScale) by {
        FocalPointFixed(oldTranslation.x, sSize.width, oldScale, scaleMultiplier, gScale, interactionPoint.x.value);
      }
      assert FocalOffset(sTranslation.y, interactionPoint.y.value, gScale) ==
               FocalOffset(oldTranslation.y, interactionPoint.y.value, oldScale) by {
        FocalPointFixed(oldTranslation.y, sSize.height, oldScale, scaleMultiplier, gScale, interactionPoint.y.value);
      }
    }

    /** Take a new viewport size, unless a component is non-finite or the
        area is below 1, in which case the previous size is kept. */
    method SetScreenSize(screenSize: RawSize)
      requires Valid()
      modifies this`sSize
      ensures Valid()
      ensures AcceptsScreenSize(screenSize) ==>
                sSize == Size(screenSize.width.value, screenSize.height.value)
      ensures !AcceptsScreenSize(screenSize) ==> sSize == old(sSize)
    {
      if !(screenSize.width.Finite? && screenSize.height.Finite?) {
        return;
      }
      var size := Size(screenSize.width.value, screenSize.height.value);
      if Area(size) < 1.0 {
        return;
      }
      sSize := size;
    }

    /** Where both grids are centred: half the viewport plus the translation,
        the translation taken as screen points without scaling. */
    function GridCenter(): Point
      reads this
    {
      Point(sSize.width / 2.0 + sTranslation.x, sSize.height / 2.0 + sTranslation.y)
    }

    /** The on-screen gap between major lines. */
    function MajorStep(): real
      reads this
    {
      sLineSpacing * gScale * scaleSpacing
    }

    /** The on-screen gap between minor lines, a fifth of the major gap. */
    function MinorStep(): real
      reads this
    {
      MajorStep() / MinorDivisions
    }

    /** The major grid. Empty when the scale is not positive. Otherwise the
        origin marker, a circle of radius 5 at the grid centre, and the lines
        stepped from that centre by sLineSpacing * gScale * scaleSpacing.
        The loops end only for a positive step, hence the precondition, which
        every valid state meets. */
    method DrawGrid() returns (path: Path)
      requires gScale > 0.0 ==> MajorStep() > 0.0
      ensures gScale <= 0.0 ==> path == EmptyPath
      ensures gScale > 0.0 ==> path.marker == Some(Circle(GridCenter(), MarkerRadius))
      ensures gScale > 0.0 ==> path.lines == GridLines(sSize, GridCenter(), MajorStep())
    {
      path := EmptyPath;
      if gScale <= 0.0 {
        return path;
      }
      var adjustedLineSpacing := MajorStep();
      var centerX := sSize.width / 2.0 + sTranslation.x;
      var centerY := sSize.height / 2.0 + sTranslation.y;
      path := path.(marker := Some(Circle(Point(centerX, centerY), MarkerRadius)));
      var lines := DrawLines(sSize, Point(centerX, centerY), adjustedLineSpacing);
      path := path.(lines := path.lines + lines);
    }

    /** The minor grid: no marker, and the lines stepped by a fifth of the
        major step. Empty when the scale is not positive. */
    method DrawSmallGrid() returns (path: Path)
      requires gScale > 0.0 ==> MajorStep() > 0.0
      ensures gScale <= 0.0 ==> path == EmptyPath
      ensures gScale > 0.0 ==> path.marker == None
      ensures gScale > 0.0 ==> path.lines == GridLines(sSize, GridCenter(), MinorStep())
    {
      path := EmptyPath;
      if gScale <= 0.0 {
        return path;
      }
      var smallSquareSpacing := MinorStep();
      var centerX := sSize.width / 2.0 + sTranslation.x;
      var centerY := sSize.height / 2.0 + sTranslation.y;
      var lines := DrawLines(sSize, Point(centerX, centerY), smallSquareSpacing);
      path := path.(lines := path.lines + lines);
    }

    /** Every valid state can be drawn: its major step is positive. */
    lemma ValidDrawable()
      requires Valid()
      ensures MajorStep() > 0.0
    {
    }
  }

  /** The clamp's bound restated for the scale it produces. */
  lemma ClampedGap(scale: real, lineSpacing: real, smallest: real, largest: real,
                   m: real, r: real, newScale: real)
    requires scale * lineSpacing != 0.0
    requires r == ClampMultiplier(scale, lineSpacing, smallest, largest, m) && newScale == scale * r
    ensures smallest <= largest ==> GapWithin(newScale, lineSpacing, smallest, largest)
  {
    ClampMultiplierBounds(scale, lineSpacing, smallest, largest, m);
  }

  lemma PositiveProduct(a: real, b: real)
    requires a > 0.0 && b > 0.0
    ensures a * b > 0.0
  {
  }

  /** A positive gap scale * m * lineSpacing with positive scale and line
      spacing means a positive new scale scale * m. */
  lemma PositiveFactor(scale: real, m: real, lineSpacing: real)
    requires scale > 0.0 && lineSpacing > 0.0 && scale * m * lineSpacing > 0.0
    ensures scale * m > 0.0 && m > 0.0
  {
  }
}
