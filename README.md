# InfiniteGridVM in Dafny

A model of the view model behind an infinite, pannable and zoomable 2D grid
(`InfiniteGridVM`). The view model keeps five pieces of state:

- `gScale`: screen points per grid unit;
- `sTranslation`: the translation;
- `sSize`: the viewport size;
- `scaleSpacing`: a level-of-detail multiplier;
- `sInteractionPoint`: the last focal point.

It also holds three constants:

- `sLineSpacing`, which is 40 times the base scale;
- the smallest allowed line gap;
- the largest allowed line gap.

Its public operations are:

- pan (`updateTranslation`);
- zoom about a focal point (`updateScale`), which clamps the multiplier, keeps the focal point fixed and recomputes the level-of-detail multiplier with `calculateScaleSpacing`;
- viewport resize (`setScreenSize`);
- drawing the major grid (`drawGrid`) and the minor grid (`drawSmallGrid`).

The project has four modules, one file each:

- `Geometry` (`geometry.dfy`): points, sizes and segments. It also has `Float`, which models a `CGFloat` as the view model's `isFinite` checks see it: a finite real or a non-finite value. `Quotient` models a division that may turn non-finite.
- `Transform` (`transform.dfy`): the pure arithmetic. This covers the pan step (`Panned`) and the zoom clamp (`ClampMultiplier`). It covers the per-axis displacement of a zoom (`Displacement`) and the quantity a zoom keeps (`FocalOffset`). It also covers `CalculateScaleSpacing`. Each of these has lemmas that state what it guarantees.
- `Stepping` (`stepping.dfy`): the line geometry. `SteppedDown` and `SteppedUp` are recursive specifications of the cursor positions one drawing loop visits. `GridLines` puts together the segments of all four loops. `DrawLines` is the method with the four `while` loops, proved to emit exactly `GridLines`. Both draw operations share it, because their loops differ only in the step.
- `InfiniteGrid` (`infinite_grid_vm.dfy`): the class `InfiniteGridVM`, with its fields, the invariant `Valid`, the constructor and the five operations as methods.

## Model

| member | source | states |
|---|---|---|
| Geometry.Quotient | Mapping/Mapping/InfiniteGrid/View/InfiniteGridVM.swift:45-46 | dividing a possibly non-finite value by a size component gives a finite result exactly when the value is finite and the divisor is non-zero; the finite result times the divisor gives back the value |
| Transform.Panned | Mapping/Mapping/InfiniteGrid/View/InfiniteGridVM.swift:32 | the new translation minus the old, times the scale, is exactly the screen-space drag, on each axis |
| Transform.PanAdditive | Mapping/Mapping/InfiniteGrid/View/InfiniteGridVM.swift:32 | two drags in a row move the translation exactly as far as one drag by their sum |
| Transform.ClampMultiplierBounds | Mapping/Mapping/InfiniteGrid/View/InfiniteGridVM.swift:38-43 | a requested gap `scale*m*lineSpacing` below the smallest bound is moved onto it, and one above the largest bound (but not below the smallest) onto the largest; a gap within the bounds keeps the requested multiplier; with ordered bounds the gap ends up inside them; with positive bounds the gap stays positive |
| Transform.FocalPointFixed | Mapping/Mapping/InfiniteGrid/View/InfiniteGridVM.swift:45-55 | the displacement, with proportion `p/extent`, equals `p/(scale*m) - p/scale`; so `translation - p/scale` is the same before and after a zoom by `m` |
| Transform.CentreZoomShifts | Mapping/Mapping/InfiniteGrid/View/InfiniteGridVM.swift:48-51 | zooming by 2.5 about the centre of an 800-point viewport at scale 1 moves the translation by -240 on that axis: the displacement does not vanish at the centre |
| Transform.DisplacementZeroIff | Mapping/Mapping/InfiniteGrid/View/InfiniteGridVM.swift:48-51 | a zoom leaves the translation unchanged on an axis if and only if the focal point is at 0 on that axis or the clamped multiplier is 1 |
| Transform.ScaleSpacingBand | Mapping/Mapping/InfiniteGrid/View/InfiniteGridVM.swift:73-83 | after one recomputation the rendered gap is 128 when the old gap was >= 256, 256 when it was <= 128, and otherwise the multiplier is unchanged; so the gap always lies in the closed band [128, 256], and the multiplier stays positive |
| Transform.ScaleSpacingStableIff | Mapping/Mapping/InfiniteGrid/View/InfiniteGridVM.swift:73-83 | recomputing a freshly computed multiplier leaves it unchanged if and only if the gap lies strictly between 128 and 256; at exactly 128 it jumps to 256 and at exactly 256 it jumps to 128 |
| Transform.UpperEdgeReached | Mapping/Mapping/InfiniteGrid/View/InfiniteGridVM.swift:76-79 | from line spacing 40, scale 1 and multiplier 1 the recomputed gap is exactly 256, so the upper end of the band is reached |
| Stepping.SteppedDownAt | Mapping/Mapping/InfiniteGrid/View/InfiniteGridVM.swift:102-107 | the k-th position the downward loop visits is `start - k*sp`, and it is >= 0 |
| Stepping.SteppedDownStops | Mapping/Mapping/InfiniteGrid/View/InfiniteGridVM.swift:103 | the downward loop stops at the first negative position: `start - n*sp < 0` for the number n of lines it emits |
| Stepping.SteppedDownCount | Mapping/Mapping/InfiniteGrid/View/InfiniteGridVM.swift:102-107 | the downward loop emits `floor(start/sp) + 1` lines from a start >= 0, and none from a negative start |
| Stepping.SteppedUpAt | Mapping/Mapping/InfiniteGrid/View/InfiniteGridVM.swift:108-113 | the k-th position the upward loop visits is `start + k*sp`, and it is below the bound |
| Stepping.SteppedUpStops | Mapping/Mapping/InfiniteGrid/View/InfiniteGridVM.swift:109 | the upward loop stops at the first position >= the bound |
| Stepping.SteppedUpCount | Mapping/Mapping/InfiniteGrid/View/InfiniteGridVM.swift:108-113 | the upward loop emits `-floor((start - bound)/sp)` lines, which is `ceil((bound - start)/sp)`, from a start < bound, and none otherwise |
| Stepping.SteppedDownReaches | Mapping/Mapping/InfiniteGrid/View/InfiniteGridVM.swift:102-107 | every `start - k*sp` that is still >= 0 is visited, as the k-th position |
| Stepping.SteppedUpReaches | Mapping/Mapping/InfiniteGrid/View/InfiniteGridVM.swift:108-113 | every `start + k*sp` that is still below the bound is visited, as the k-th position |
| Stepping.LatticeCovered | Mapping/Mapping/InfiniteGrid/View/InfiniteGridVM.swift:102-113 | every lattice position `c + k*sp` (for any integer k) that lies in [0, bound) is visited: by the downward loop when k <= 0, and by the upward loop from `c + sp` when k >= 1 |
| Stepping.CentredLineCounts | Mapping/Mapping/InfiniteGrid/View/InfiniteGridVM.swift:102-113 | with the centre at 400 in an 800-wide viewport and spacing 40, 11 vertical lines are emitted at or left of the centre and 9 right of it |
| Stepping.MinorRefinesMajorDown | Mapping/Mapping/InfiniteGrid/View/InfiniteGridVM.swift:139-149 | stepping down by sp/5 passes through every major position left of the centre: the k-th major one is the 5k-th minor one |
| Stepping.MinorRefinesMajorUp | Mapping/Mapping/InfiniteGrid/View/InfiniteGridVM.swift:139-155 | stepping up by sp/5 from `c + sp/5` passes through every major position right of the centre: the k-th major one is the (5k+4)-th minor one |
| Stepping.LinesAt | Mapping/Mapping/InfiniteGrid/View/InfiniteGridVM.swift:104-105 | one segment is emitted per visited position, in order: a vertical line from y = 0 to the viewport height, or a horizontal line from x = 0 to the viewport width |
| Stepping.AxisShowsLattice | Mapping/Mapping/InfiniteGrid/View/InfiniteGridVM.swift:102-113 | on one axis, the two loops emit the line at every lattice position `c + k*sp` that lies inside the viewport |
| Stepping.GridShowsLattice | Mapping/Mapping/InfiniteGrid/View/InfiniteGridVM.swift:102-126 | the drawn grid contains the vertical line at every `centerX + k*sp` in [0, width) and the horizontal line at every `centerY + k*sp` in [0, height) |
| Stepping.EmitDown | Mapping/Mapping/InfiniteGrid/View/InfiniteGridVM.swift:103-107 | one iteration of a downward loop emits the line at the cursor and moves it down by sp, keeping what has been emitted plus what remains to be emitted the same; the remaining count strictly decreases |
| Stepping.EmitUp | Mapping/Mapping/InfiniteGrid/View/InfiniteGridVM.swift:109-113 | the same for an upward loop |
| Stepping.DrawLines | Mapping/Mapping/InfiniteGrid/View/InfiniteGridVM.swift:102-126 | the four loops terminate for a positive step and emit exactly `GridLines`: vertical lines stepping left from the centre, then right from centre + sp, then horizontal lines towards y = 0, then towards the height |
| InfiniteGrid.ZeroViewportAborts | Mapping/Mapping/InfiniteGrid/View/InfiniteGridVM.swift:45-46 | while the viewport size is still zero, every zoom aborts |
| InfiniteGrid.ClampedGap | Mapping/Mapping/InfiniteGrid/View/InfiniteGridVM.swift:39-55 | the scale a committed zoom produces puts `gScale*sLineSpacing` within ordered bounds |
| InfiniteGrid.InfiniteGridVM.constructor | Mapping/Mapping/InfiniteGrid/View/InfiniteGridVM.swift:12-26 | the initial state is scale 1, multiplier 1, zero size, translation and focal point, with the line spacing set to 40 times the base scale; the invariant holds |
| InfiniteGrid.InfiniteGridVM.UpdateTranslation | Mapping/Mapping/InfiniteGrid/View/InfiniteGridVM.swift:28-33 | a drag with a non-finite component changes nothing; otherwise the translation moves by exactly the drag divided by the scale, and nothing else changes |
| InfiniteGrid.InfiniteGridVM.UpdateScale | Mapping/Mapping/InfiniteGrid/View/InfiniteGridVM.swift:35-59 | a zoom aborts without changing any field when the multiplier or the focal proportion is non-finite. Otherwise it commits four fields: the scale is multiplied by the clamped multiplier, the translation is shifted by the displacement, the focal point is recorded, and the multiplier is recomputed for the new scale. After a commit `gScale*sLineSpacing` lies within ordered gap bounds, `translation - p/scale` is kept on both axes, the rendered gap lies in [128, 256], and the scale stays positive whatever multiplier was requested |
| InfiniteGrid.InfiniteGridVM.SetScreenSize | Mapping/Mapping/InfiniteGrid/View/InfiniteGridVM.swift:62-71 | the size is taken exactly when both components are finite and the area is at least 1; otherwise it is kept; nothing else changes |
| InfiniteGrid.InfiniteGridVM.DrawGrid | Mapping/Mapping/InfiniteGrid/View/InfiniteGridVM.swift:86-129 | with a non-positive scale the path is empty; otherwise it holds the radius-5 origin marker at `(width/2 + tx, height/2 + ty)` and exactly the grid lines stepped from there by `sLineSpacing*gScale*scaleSpacing`; the state is not changed |
| InfiniteGrid.InfiniteGridVM.DrawSmallGrid | Mapping/Mapping/InfiniteGrid/View/InfiniteGridVM.swift:131-171 | with a non-positive scale the path is empty; otherwise it has no marker and exactly the grid lines stepped by a fifth of the major step; the state is not changed |
| InfiniteGrid.InfiniteGridVM.ValidDrawable | Mapping/Mapping/InfiniteGrid/View/InfiniteGridVM.swift:94 | in every state that satisfies the invariant the major step is positive, so both draw operations may be called and their loops terminate |

## Behaviour of the code worth noting

- The level-of-detail band is closed at both ends: a gap of exactly 256 is reached (`UpperEdgeReached`).
- One recomputation always lands the gap in [128, 256], because the new multiplier is computed from the target gap (`ScaleSpacingBand`). At each end of the band the recomputation flips to the other end (`ScaleSpacingStableIff`).
- A zoom about the viewport centre still moves the translation (`CentreZoomShifts`). The displacement is `p/(s*m) - p/s`, which is zero only for `p = 0` or `m = 1` (`DisplacementZeroIff`).
- With the centre at 400, spacing 40 and width 800 the right-hand loop emits 9 lines: it starts at 440 and stops before 800 (`CentredLineCounts`).
- The area check `width * height < 1` accepts a size with two negative components, for example (-2, -2).

## Left out

- SwiftUI's `Path`, `addArc` and `Angle`: a path is modelled as an optional circle, the origin marker, followed by a sequence of straight segments. Each `move`/`addLine` pair becomes one segment.
- `withAnimation(.easeIn(duration: 0.8))`: presentation only. The commit is modelled as immediate.
- `ObservableObject`, `@Published` and `@MainActor`: change notification and thread affinity; they have no effect on the state.
- `CGFloat` is modelled as an exact `real`. IEEE rounding, overflow to infinity and NaN are not modelled. `isFinite` is modelled by the `Float` input type, distinguishing only finite from non-finite.
- The operators between `CGPoint` and `CGSize` (`/`, `*`, `-`, `+=`) are extensions that are not part of this model. They are taken to act component-wise.
- Any claim that the focal point keeps its on-screen position in the drawn grid is left out. The draw code adds `sTranslation` to the centre in screen units, while pan and zoom treat it as grid units. Only the algebraic identity is proved (`FocalPointFixed`).
- InfiniteGrid.InfiniteGridVM.constructor: requires a positive base scale and positive gap bounds, which the source does not check. Every other operation then keeps the invariant `Valid`: positive scale, line spacing, multiplier and gap bounds, and a size that is either zero or has area at least 1. The other methods require `Valid()`, so states reachable only from non-positive arguments are not modelled.
- InfiniteGrid.InfiniteGridVM.DrawGrid: requires the step to be positive when the scale is. With a non-positive step and a positive scale the source's loops do not terminate for a viewport of positive width and height. Every state satisfying `Valid` meets this requirement (`ValidDrawable`).
- InfiniteGrid.InfiniteGridVM.DrawSmallGrid: the same precondition as `DrawGrid`, for the same reason.
