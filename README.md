# DimoLogo in Dafny

DimoLogo draws a looping logo animation: a water drop pops up above a
horizontal line, overshoots its size, settles, falls through the line while
stretching into a teardrop and fading out, and the line ripples three times as
the drop passes. Everything follows from one scalar animation time. This
project models, with `real` in place of `CGFloat`:

- the phase schedule (`updateTimes`), which derives eleven time boundaries
  from the animation duration (module `Schedule`);
- the drop geometry of both view revisions (`drawWaterDrop`, `waterDrop`) and
  of the range-parameterised `WaterDrop` struct (`draw`, `path`): its center,
  radius, circle or teardrop shape, and opacity (modules `Element`,
  `LogoView`, `LegacyView`);
- the line geometry (`drawLine`): a bar whose middle point alone is pushed by
  the first ripple range holding the time, thickened into two contours
  (module `Line`, and `DrawLine` in both view classes);
- the clock: `time` and its reset-past-the-end setter, the clamped `progress`
  getter and setter, `play`, `stop`, `fire`, the legacy 50 ms timer step, and
  the sizes `layoutSubviews` scales from a reference length (module `Clock`
  and the two `DimoLogoView` classes).

Closed ranges are an `Interval` subset type whose bounds are ordered, because
Swift's `lo...hi` traps otherwise. Shapes are values (`Circle`, `Drop` holding
a `Teardrop`, `LinePoints`, `LineOutline`) instead of Bezier paths. Each view
is a class whose fields the methods update, with `modifies` frames naming
exactly the fields written. Each drawing routine is written once as the Swift
code computes it and once through the `WaterDrop` struct, and lemmas prove the
two agree (`LogoView.DrawWaterDropIsElementDraw`,
`LegacyView.LegacyDropIsCoreDrop`). `drawLine` keeps its `for` loop with
`break` and is proved against the function `Line.LineGeometry`.

The code divides by range lengths without guarding against zero. The model
keeps that behaviour, so drawing requires a positive duration, and
`LogoView.ZeroDurationNeverDrawable` and `Element.DefaultNeverDrawable` show
that a zero duration, or the struct's default `0...0` ranges, divide by zero.
There is no zero-length fallback in the code, so there is none in the model.

With the default duration 1.2 and pause 0.15, the clock over exact `real`
arithmetic reaches 1.35 after 27 ticks, and the 28th tick (1.40 > 1.35)
resets it to 0 (`Clock.DefaultCycle`). This case sits exactly on the reset
threshold, so in `CGFloat` rounding decides it: there `1.2 + 0.15` is just
below 1.35 and 27 additions of 0.05 land just above it, so the code as
compiled resets on the 27th tick. The exact-arithmetic cycle holds only over
`real` (see "Left out").

The first `layoutSubviews` turns the ripple peaks `[12, -8, 6]` into
`[12, 8, 6]` for a 60-point view, because every ratio in
`LineStretchLengthsRatio` is positive. The model keeps this as written and
states it in `LogoView.SizesAtBaseReference`.

## Model

| member | source | states |
|---|---|---|
| Geometry.Offset | DimoLogo/Classes/Core/DimoLogoView.swift:20-24 | the moved point differs from the original by exactly (dx, dy) |
| Geometry.OffsetInverse | DimoLogo/Classes/Core/DimoLogoView.swift:20-24 | offsetting by (-dx, -dy) undoes an offset by (dx, dy) |
| Geometry.OffsetCompose | DimoLogo/Classes/Core/DimoLogoView.swift:20-24 | two offsets add up to one |
| Geometry.Length | DimoLogo/Classes/Core/DimoLogoView.swift:10-18 | a range's length is non-negative, zero exactly for a one-point range, and the lower bound plus the length is the upper bound |
| Geometry.Fraction | Element.swift:46-48 | the elapsed share of a positive-length range is in [0, 1] inside it, 0 at its lower bound, 1 at its upper bound, below 0 before it and above 1 after it |
| Geometry.FractionMonotone | Element.swift:46-48 | a later time never gives a smaller elapsed share |
| Geometry.Clamp01 | DimoLogo/Classes/Core/DimoLogoView.swift:92 | `max(0, min(x, 1))` lies in [0, 1], is x inside it, 0 below it and 1 above it |
| Element.LinePoints.Offsetting | Element.swift:15-17 | every x is kept and every y moves by exactly dy |
| Element.OffsettingZero | Element.swift:15-17 | offsetting by 0 is the identity |
| Element.OffsettingCompose | Element.swift:15-17 | two vertical offsets compose into one, so the bottom contour is the top one moved by a line width |
| Element.WaterDrop.Center | Element.swift:41-49 | x is half the width; the base point while standing; past the move range the mirror image of the base about the middle; in between, between the two |
| Element.WaterDrop.Radius | Element.swift:51-59 | 0 at the expand start, `arcRadius + bounceSize` at its end (expand wins at the shared end), `arcRadius` at the shrink end and outside both ranges, within [0, arcRadius + bounceSize] |
| Element.WaterDrop.Alpha | Element.swift:66-70 | 1 up to the fade start, in [0, 1] inside the fade range, 0 at its end and negative after it |
| Element.WaterDrop.StretchProgress | Element.swift:72-73 | at most 1, 0 at the stretch start, 1 from the stretch end on, non-negative after the start |
| Element.WaterDrop.Path | Element.swift:82-93 | apex straight above the center by radius plus stretched length; curve ends on the center's horizontal at ±radius; control points the control offset above them |
| Element.WaterDrop.Draw | Element.swift:40-75 | a circle exactly while the round range holds the time, with the computed center and radius; otherwise the teardrop of the stretch progress around the computed center, with the computed opacity |
| Element.DefaultNeverDrawable | Element.swift:22-38 | with the default `0...0` ranges every time divides by a zero length |
| Element.PositiveLengthsDrawable | Element.swift:40-75 | with positive-length ranges every time can be drawn |
| Element.AlphaNonIncreasing | Element.swift:66-70 | the opacity never rises as time goes on |
| Element.StretchNonDecreasing | Element.swift:72-73 | the stretch never shrinks as time goes on |
| Element.RadiusRamps | Element.swift:51-59 | the radius never shrinks while the expand range holds the time and never grows while only the shrink range holds it |
| Element.CenterNonDecreasing | Element.swift:41-49 | once the move has begun, a later time never puts the drop higher while its base is in the upper half |
| Element.PathSymmetric | Element.swift:82-93 | the teardrop is mirror-symmetric about its center's vertical, and its apex is at or above the arc top for a non-negative stretch |
| Schedule.ScheduleFor | DimoLogo/Classes/Core/DimoLogoView.swift:176-189 | the drop's fade and the third ripple both end at the duration, the stretch starts with the first ripple, and the fade starts where the first ripple ends |
| Schedule.ScheduleOrdered | DimoLogo/Classes/Core/DimoLogoView.swift:176-189 | the boundaries are ordered 0 <= 0.125d <= 0.15d <= 0.5d <= 0.8d <= 0.85d <= 0.875d <= d, and all ranges can be built, exactly when d >= 0 |
| Schedule.ScheduleSpread | DimoLogo/Classes/Core/DimoLogoView.swift:176-189 | every divided range has positive length exactly when d > 0 |
| Schedule.LineRanges | DimoLogo/Classes/Core/DimoLogoView.swift:255-257 | three ranges, each starting where the previous ends |
| Schedule.LineRangesTile | DimoLogo/Classes/Core/DimoLogoView.swift:255-257 | the ripple ranges cover exactly [0.5d, d], and for d > 0 two of them share only an end point |
| Line.FirstContaining | DimoLogo/Classes/Core/DimoLogoView.swift:259-271 | the index where the loop breaks: no earlier range holds the time, and the found one does |
| Line.Fold | DimoLogo/Classes/Core/DimoLogoView.swift:264-267 | maps [0, 1] into [0, 1/2]: 0 at both ends, 1/2 at the middle |
| Line.FoldSymmetric | DimoLogo/Classes/Core/DimoLogoView.swift:264-267 | the fold is symmetric: the way back mirrors the way out |
| Line.CenterShift | DimoLogo/Classes/Core/DimoLogoView.swift:259-271 | no shift when no range holds the time, at most half the found peak, none at either end of the found range |
| Line.HalfScaleBound | DimoLogo/Classes/Core/DimoLogoView.swift:268 | a peak times a folded progress is at most half the peak in size |
| Line.LineGeometry | DimoLogo/Classes/Core/DimoLogoView.swift:245-292 | ends at the margins on the middle line less half a width, middle point at half the width moved by the shift, bottom contour the top one moved by a line width |
| Clock.WrapTime | DimoLogo/Classes/Core/DimoLogoView.swift:105-111 | a value past `duration + interval` becomes 0, any other is kept, so a non-negative value stays within the cycle |
| Clock.ProgressOf | DimoLogo/Classes/Core/DimoLogoView.swift:96-102 | in [0, 1]; 0 for a non-positive duration; time / duration inside the cycle; 1 past the end and 0 before the start |
| Clock.TimeForProgress | DimoLogo/Classes/Core/DimoLogoView.swift:90-94 | the stored time lies in [0, duration] for a non-negative duration and pause |
| Clock.ProgressRoundTrip | DimoLogo/Classes/Core/DimoLogoView.swift:89-103 | after setting `progress` to p, reading it gives `clamp(p, 0, 1)` |
| Clock.Tick | DimoLogo/Classes/Core/DimoLogoView.swift:309-312 | a tick adds exactly 0.05 unless that passes the cycle end, when the time becomes 0 |
| Clock.TickLandsInCycle | DimoLogo/Classes/Core/DimoLogoView.swift:105-111 | a tick from a time of at least -0.05 lands in [0, duration + interval] |
| Clock.TicksAdd | DimoLogo/Classes/Core/DimoLogoView.swift:309-312 | a ticks followed by b ticks are a + b ticks |
| Clock.TicksRamp | DimoLogo/Classes/Core/DimoLogoView.swift:309-312 | from 0, n ticks that fit in the cycle give exactly n × 0.05 |
| Clock.DefaultCycle | DimoLogo/Classes/Core/DimoLogoView.swift:105-111 | with 1.2 and 0.15, 27 ticks give 1.35, the 28th resets to 0, and the clock repeats every 28 ticks |
| LogoView.Reference | DimoLogo/Classes/Core/DimoLogoView.swift:154-155 | the reference is `max(min(w, h), 60)`: at least 60 and at least the shorter side, and equal to one of the two |
| LogoView.ScaledBy | DimoLogo/Classes/Core/DimoLogoView.swift:167 | the scaled list has the ratios' length, and each entry is its ratio times the reference |
| LogoView.SizesFor | DimoLogo/Classes/Core/DimoLogoView.swift:157-171 | three ripple peaks; every size non-negative for a non-negative reference |
| LogoView.SizesAtBaseReference | DimoLogo/Classes/Core/DimoLogoView.swift:27-44 | at 60 the sizes are 5, 4, 4, 14, 5, 3, 1 and ripples [12, 8, 6], unlike the initial [12, -8, 6]; other references scale these proportionally |
| LogoView.DropFor | DimoLogo/Classes/Core/DimoLogoView.swift:201-208 | the drawing code's ranges: expand ends where shrink starts, standing spans both, moving starts where standing ends, stretching starts where the circle ends |
| LogoView.WaterDropPath | DimoLogo/Classes/Core/DimoLogoView.swift:296-307 | apex straight above the center by radius plus stretch times progress, curve ends a radius either side on the center's level, control points the control offset above them |
| LogoView.WaterDropCenter | DimoLogo/Classes/Core/DimoLogoView.swift:201-217 | x is half the width, and the base point while the no-move range holds the time |
| LogoView.WaterDropRadius | DimoLogo/Classes/Core/DimoLogoView.swift:219-227 | radius 0 at time 0, and the plain arc radius outside the pop and repop ranges |
| LogoView.WaterDropGeometry | DimoLogo/Classes/Core/DimoLogoView.swift:201-243 | a circle exactly while the no-stretch range holds the time; otherwise a teardrop of the plain radius around the computed center, opaque before the fade begins |
| LogoView.WaterDropCenterAgrees | DimoLogo/Classes/Core/DimoLogoView.swift:201-217 | the center `drawWaterDrop` computes is `WaterDrop.center` with the same ranges |
| LogoView.WaterDropRadiusAgrees | DimoLogo/Classes/Core/DimoLogoView.swift:219-227 | the radius `drawWaterDrop` computes is `WaterDrop.radius` with the same ranges |
| LogoView.DrawWaterDropIsElementDraw | DimoLogo/Classes/Core/DimoLogoView.swift:201-243 | `drawWaterDrop` draws exactly what `WaterDrop.draw` draws with the same ranges and sizes |
| LogoView.ZeroDurationNeverDrawable | DimoLogo/Classes/Core/DimoLogoView.swift:212-227 | with a zero duration every time divides by a zero length |
| LogoView.DropAtStart | DimoLogo/Classes/Core/DimoLogoView.swift:219-233 | at time 0 the drop is a circle of radius 0 at its base point |
| LogoView.DropRadiusProfile | DimoLogo/Classes/Core/DimoLogoView.swift:219-233 | up to 0.5d a circle; the radius ramps linearly from 0 at 0 to radius plus bounce at 0.125d, linearly back to the radius at 0.15d, and stays there; within [0, radius + bounce] |
| LogoView.DropCenterPath | DimoLogo/Classes/Core/DimoLogoView.swift:201-217 | x is half the width; the base y up to 0.15d; after 0.15d the base y plus twice its height above the middle times `min(1, (t - 0.15d) / 0.7d)`; its mirror about the middle from 0.85d on; between the two in between |
| LogoView.DropTeardropPhase | DimoLogo/Classes/Core/DimoLogoView.swift:229-242 | after 0.5d a teardrop of the plain radius, ends at ±radius, apex raised by radius plus stretch × min(1, (t - 0.5d) / 0.375d), alpha 1 before 0.8d and 1 - (t - 0.8d) / 0.2d after, 0 at d and negative later |
| LogoView.DropAtCycleEnd | DimoLogo/Classes/Core/DimoLogoView.swift:229-242 | at d the teardrop is fully stretched, fully faded and at the mirror position |
| LogoView.LineShape | DimoLogo/Classes/Core/DimoLogoView.swift:245-292 | ends at the margins, bottom contour a line width below the top one, middle point moved by the ripple shift |
| LogoView.FirstOfThree | DimoLogo/Classes/Core/DimoLogoView.swift:259-271 | the loop stops at the first of the three ranges holding the time, or runs out |
| LogoView.LineStill | DimoLogo/Classes/Core/DimoLogoView.swift:259-271 | no shift outside [0.5d, d] or at 0.5d, 0.8d, 0.9d and d |
| LogoView.LineFirstRipple | DimoLogo/Classes/Core/DimoLogoView.swift:259-271 | on [0.5d, 0.8d] the shift is the first peak times the folded progress, at most half the peak |
| LogoView.LineSecondRipple | DimoLogo/Classes/Core/DimoLogoView.swift:259-271 | on (0.8d, 0.9d] the shift is the second peak times the folded progress, at most half the peak |
| LogoView.LineThirdRipple | DimoLogo/Classes/Core/DimoLogoView.swift:259-271 | on (0.9d, d] the shift is the third peak times the folded progress, at most half the peak |
| LogoView.DimoLogoView.constructor | DimoLogo/Classes/Core/DimoLogoView.swift:122-126 | initial sizes, duration 1.2, pause 0.15, time 0, stopped, schedule in step with the duration |
| LogoView.DimoLogoView.UpdateTimes | DimoLogo/Classes/Core/DimoLogoView.swift:176-189 | the schedule fields become the schedule for the current duration |
| LogoView.DimoLogoView.SetAnimationDuration | DimoLogo/Classes/Core/DimoLogoView.swift:83-87 | the schedule is recomputed with every duration assignment |
| LogoView.DimoLogoView.Progress | DimoLogo/Classes/Core/DimoLogoView.swift:96-102 | in [0, 1], 0 for a non-positive duration, time / duration inside the cycle |
| LogoView.DimoLogoView.SetTime | DimoLogo/Classes/Core/DimoLogoView.swift:105-111 | the stored time is the assigned value, wrapped to 0 past the cycle end |
| LogoView.DimoLogoView.SetProgress | DimoLogo/Classes/Core/DimoLogoView.swift:90-95 | the clock is stopped, a redraw requested, the time is the clamped progress times the duration, and reading progress back gives the clamped value |
| LogoView.DimoLogoView.Play | DimoLogo/Classes/Core/DimoLogoView.swift:140-145 | the clock is running afterwards, whether or not it was before |
| LogoView.DimoLogoView.Stop | DimoLogo/Classes/Core/DimoLogoView.swift:147-150 | the clock is stopped afterwards, whether or not it was before |
| LogoView.DimoLogoView.Fire | DimoLogo/Classes/Core/DimoLogoView.swift:309-312 | callable only while the clock runs (the display link calls it); one tick of the time, a redraw requested, and from any time of at least -0.05 the time lands within the cycle, as `Clock.TickLandsInCycle` states |
| LogoView.DimoLogoView.LayoutSubviews | DimoLogo/Classes/Core/DimoLogoView.swift:152-174 | every size becomes the reference length of the bounds times its ratio |
| LogoView.DimoLogoView.DrawLine | DimoLogo/Classes/Core/DimoLogoView.swift:245-292 | the loop with `break` yields exactly the line geometry of the current schedule, sizes and time |
| LogoView.DimoLogoView.Draw | DimoLogo/Classes/Core/DimoLogoView.swift:191-199 | the drop and the line for the current time |
| LegacyView.LegacySizes | DimoLogo/Classes/DimoLogoView.swift:28-32 | the fixed sizes plus the gap, bounce and ripples given |
| LegacyView.LegacyDefaultsAreInitialSizes | DimoLogo/Classes/DimoLogoView.swift:28-58 | the first revision's defaults are the later revision's initial sizes |
| LegacyView.WaterDropPath | DimoLogo/Classes/DimoLogoView.swift:205-216 | apex 5 + 4 × progress above the center, curve ends 5 either side on its level, control points 4 above them |
| LegacyView.WaterDropCenter | DimoLogo/Classes/DimoLogoView.swift:110-126 | x is half the width, and the base point while the no-move range holds the time |
| LegacyView.WaterDropRadius | DimoLogo/Classes/DimoLogoView.swift:128-136 | radius 0 at time 0, and 5 outside the pop and repop ranges |
| LegacyView.WaterDropGeometry | DimoLogo/Classes/DimoLogoView.swift:110-152 | a circle exactly while the no-stretch range holds the time; otherwise a teardrop of radius 5 around the computed center, opaque before the fade begins |
| LegacyView.LegacyDropIsCoreDrop | DimoLogo/Classes/DimoLogoView.swift:110-152 | the first revision's drop equals the later revision's drop and `WaterDrop.draw` with the same sizes |
| LegacyView.LegacyDropPhases | DimoLogo/Classes/DimoLogoView.swift:128-150 | radius ramping linearly from 0 at 0 to 5 + bounce at 0.125d, back to 5 at 0.15d, and 5 after; after 0.5d apex 5 + 4 × stretch progress above the center, control points 4 above the ends, unclamped alpha from 0.8d |
| LegacyView.DimoLogoView.constructor | DimoLogo/Classes/DimoLogoView.swift:47-64 | duration 1.2, time 0, gap 14, bounce 1, ripples [12, -8, 6], pause 0.15, schedule in step |
| LegacyView.DimoLogoView.UpdateTimes | DimoLogo/Classes/DimoLogoView.swift:85-98 | the schedule fields become the schedule for the current duration |
| LegacyView.DimoLogoView.SetAnimationDuration | DimoLogo/Classes/DimoLogoView.swift:47-51 | the schedule is recomputed with every duration assignment |
| LegacyView.DimoLogoView.Tick | DimoLogo/Classes/DimoLogoView.swift:65-74 | the timer step is the later revision's tick, requests a redraw, and keeps the time within the cycle |
| LegacyView.DimoLogoView.DrawLine | DimoLogo/Classes/DimoLogoView.swift:154-203 | the loop yields the line geometry with margin 5 and line width 3 |
| LegacyView.DimoLogoView.Draw | DimoLogo/Classes/DimoLogoView.swift:100-108 | the drop and the line for the current time |

## Left out

- Painting: `UIBezierPath` curves and arcs, `CGContext.addArc`/`drawPath`, `fill(with:alpha:)`, `setFill`/`setStroke`, and `foregroundColor` with its `didSet`. Shapes are kept as the points and values handed to these calls.
- The control points of the line's quadratic curves (`offset(offsetX: ±16)`) and the arc angles: these only shape the painted outline.
- Timer plumbing: `DisplayLinkWrapper`, `CADisplayLink` and its 20 fps rate, and SwiftyTimer's `Timer.every(50.ms)` with its weak capture. A tick is the method `Fire` (later revision) or `Tick` (first revision); `running` stands for `displayLink != nil`, and `Fire` requires it, so a stopped clock (after `Stop` or `SetProgress`) does not tick.
- `setNeedsDisplay()` is recorded as the flag `needsDisplay`; the redraw it triggers is left out.
- `draw(_:)`'s early return when there is no graphics context.
- `intrinsicContentSize`, `init(coder:)` (which only traps) and `deinit` (which only calls `stop`).
- `DimoLogo/Classes/HUD.swift` and `Example/DimoLogo/ViewController.swift` are not part of this model: a progress-HUD wrapper and an example host app.
- Floating point: `real` replaces `CGFloat`, so rounding is not modelled, and a division by a zero-length range, which gives infinity or NaN in `CGFloat`, is excluded by the positive-duration preconditions instead.
- The generic downcast in `ClosedRange.length`: the length is `hi - lo`.
- Clock.DefaultCycle: proves the 28-tick cycle over exact `real` arithmetic. The comparison `1.40 > 1.35` is decided by rounding in `CGFloat` (binary64), where the sum of 27 ticks already exceeds `1.2 + 0.15`, so the compiled code repeats every 27 ticks.
- Element.WaterDrop.Radius: `(a + b) * elapsed / length` is written as `(a + b)` times the elapsed share; the two are equal over `real`, which `LogoView.WaterDropRadiusAgrees` relies on.
- LogoView.DimoLogoView.DrawLine: requires a positive duration although only the range that holds the time is divided by; with a zero duration the time 0 still divides by zero, and any other time draws a straight line.
- LegacyView.DimoLogoView.DrawLine: requires at least three ripple peaks. The loop reads `maxOffsets[i]` before it tests range `i`, so a list of k < 3 peaks traps only when none of the first k ranges holds the time; a one-peak list with the time in the first range draws without trapping, and the model does not cover that case.
- LegacyView.DimoLogoView.Draw: requires at least three ripple peaks because it calls `DrawLine`, whose line above gives the reason; a shorter list that the source draws without trapping is not covered.
