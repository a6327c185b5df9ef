# RoundedHorizontalProgressBar in Dafny

A model of `RoundedHorizontalProgressBar`, an Android view that draws a progress value
in [0, 100] as a pill-shaped track with a rounded fill on top of it. The model covers:

- the clamping of progress values, for Int and for Float;
- the two `setProgress` overloads, animated and not;
- the geometry `onDraw` computes for the track and the fill, with and without
  "low progress compensation" (a dot that grows into a bar);
- how the progress is saved into, and restored from, a `Bundle`.

Layout:

- `bar_math.dfy` (module `BarMath`): Kotlin `Int` as `Int32`, `min`, the two `clamp` overloads,
  and `Float.toInt()` (truncation toward zero, saturating at the Int bounds).
- `bar_geometry.dfy` (module `BarGeometry`): `onDraw`'s geometry as pure functions returning
  `Segment(x1, x2, y, thickness)` records for the track and the fill, and lemmas about where
  they lie and how they move with progress.
- `bar_state.dfy` (module `BarState`): the saved-state `Bundle`, the restore path, and a run of
  animation updates as a sequence of values (`AfterTicks`).
- `progress_bar.dfy` (module `ProgressBar`): the class `RoundedHorizontalProgressBar`. Its
  fields are `progress`, `radius`, `center`, the paints' stroke widths, the animators it has
  started and a count of redraw requests. Its methods update them in place and are specified
  by the functions above.
- `wrappers.dfy` (module `Wrappers`): `Option`, for nullable references and a missing Bundle key.

Kotlin `Float` is modelled by `real`. A line, as `canvas.drawLine` receives it, is a `Segment`.
A round cap paints half the thickness beyond each end, and `PaintedWithin` checks that against
the view's rectangle.

Three behaviours of the code shape the model:

- `init` itself does not clamp the initial progress. It stores the attribute value
  raw (line 52) and calls the Float `setProgress(progress)` with its default `animated = true`
  (line 64). That starts an animator toward the clamped value. The model records the run and
  leaves `progress` raw; the first value the animator delivers is a separate
  `OnAnimationUpdate`, and only that clamps the progress.
- A new animated `setProgress` does not cancel the running animator. It replaces the
  `animator` reference (line 107), and every animator's listener keeps calling the
  non-animated setter. The model keeps every started run in `animators`, and
  `OnAnimationUpdate` does not ask which run a value came from. A newer run does not
  stop an older one, in the code or in the model.
- Restore calls the public Int setter with its default `animated = true` (line 146). It starts
  an animator toward the saved value. The model records the run and leaves `progress` as it
  was; the animator's values arrive as later `OnAnimationUpdate` calls. A Bundle without the
  "progress" key restores toward 0, because `getInt` defaults to 0. A state that is not a Bundle
  changes nothing.

## Model

| member | source | states |
|---|---|---|
| BarMath.Min | app/src/main/java/com/example/progressbartest/RoundedHorizontalProgressBar.kt:124-126 | the result is one of the two arguments and no larger than either |
| BarMath.ClampInt | app/src/main/java/com/example/progressbartest/RoundedHorizontalProgressBar.kt:128-130 | the result lies in [low, high] when low <= high, equals value when value is already in range, and is always one of value, low, high |
| BarMath.ClampIntIdempotent | app/src/main/java/com/example/progressbartest/RoundedHorizontalProgressBar.kt:128-130 | clamping an Int twice gives the same as clamping it once |
| BarMath.ClampIntIsNearest | app/src/main/java/com/example/progressbartest/RoundedHorizontalProgressBar.kt:128-130 | the clamped Int is the point of [low, high] nearest to the value |
| BarMath.ClampFloat | app/src/main/java/com/example/progressbartest/RoundedHorizontalProgressBar.kt:131-133 | the Float clamp lies in [low, high] when low <= high, equals value when already in range, and is one of value, low, high |
| BarMath.ClampFloatIdempotent | app/src/main/java/com/example/progressbartest/RoundedHorizontalProgressBar.kt:131-133 | clamping a Float twice gives the same as clamping it once |
| BarMath.ClampFloatIsNearest | app/src/main/java/com/example/progressbartest/RoundedHorizontalProgressBar.kt:131-133 | the clamped Float is the point of [low, high] nearest to the value |
| BarMath.ClampFloatMonotone | app/src/main/java/com/example/progressbartest/RoundedHorizontalProgressBar.kt:131-133 | the Float clamp preserves order |
| BarMath.ClampProgress | app/src/main/java/com/example/progressbartest/RoundedHorizontalProgressBar.kt:104 | `clamp(value, 0f, 100f)` lies in [0, 100] and keeps a value already there |
| BarMath.IntThenFloatClamp | app/src/main/java/com/example/progressbartest/RoundedHorizontalProgressBar.kt:99-104 | the Int clamp followed by the Float clamp equals a single clamp of the value |
| BarMath.FloatToInt | app/src/main/java/com/example/progressbartest/RoundedHorizontalProgressBar.kt:138 | `progress.toInt()` rounds toward zero (within one below a non-negative value, within one above a negative one) and saturates at the Int bounds |
| BarMath.FloatToIntWhole | app/src/main/java/com/example/progressbartest/RoundedHorizontalProgressBar.kt:138 | a whole number converts to itself |
| BarMath.FloatToIntProgress | app/src/main/java/com/example/progressbartest/RoundedHorizontalProgressBar.kt:138 | a progress in [0, 100] converts to its floor, an Int in [0, 100] |
| BarGeometry.Radius | app/src/main/java/com/example/progressbartest/RoundedHorizontalProgressBar.kt:70 | for non-negative sizes the radius is non-negative, at most half the width and half the height, and exactly half of one of them |
| BarGeometry.Center | app/src/main/java/com/example/progressbartest/RoundedHorizontalProgressBar.kt:71 | the center is half the height: as far from the top as from the bottom, inside the view |
| BarGeometry.Track | app/src/main/java/com/example/progressbartest/RoundedHorizontalProgressBar.kt:70-74 | the track lies on the center line, is as thick as the view's smaller side, its start is not right of its end, and its round caps paint exactly [0, width] inside the view |
| BarGeometry.UncompensatedFill | app/src/main/java/com/example/progressbartest/RoundedHorizontalProgressBar.kt:87-90 | without compensation the fill starts where the track starts, on the same line and as thick; for progress in [0, 100] it ends within the track and paints inside the view |
| BarGeometry.CompensatedEndPoint | app/src/main/java/com/example/progressbartest/RoundedHorizontalProgressBar.kt:78 | for progress in [0, 100] the compensated end point lies in [0, width - radius], never past the track's right end |
| BarGeometry.CompensatedFill | app/src/main/java/com/example/progressbartest/RoundedHorizontalProgressBar.kt:76-86 | with compensation the fill is on the center line and ends at the end point; it is a line of positive length exactly when the end point is past one radius, and otherwise a dot whose thickness is twice the end point; for progress in [0, 100] it is either a full-thickness line from the track's start to a point right of it, or a zero-length dot whose diameter is twice its position and no thicker than the track; either way it ends within the track and paints inside the view |
| BarGeometry.Render | app/src/main/java/com/example/progressbartest/RoundedHorizontalProgressBar.kt:67-92 | the track is `Track` (from radius to width - radius, its caps painting exactly [0, width]); the compensation flag selects the compensated fill, otherwise the uncompensated one; the fill shares the track's center line; the track is twice the radius thick; at progress 100 the fill is exactly the track; for progress in [0, 100] the fill ends within the track, is no thicker than it, and both lines paint inside the view, in either mode |
| BarGeometry.UncompensatedFillEnds | app/src/main/java/com/example/progressbartest/RoundedHorizontalProgressBar.kt:87-90 | at progress 0 the fill ends at radius; at progress 100 it is exactly the track |
| BarGeometry.UncompensatedFillMonotone | app/src/main/java/com/example/progressbartest/RoundedHorizontalProgressBar.kt:89 | the uncompensated fill's end does not decrease as progress grows |
| BarGeometry.CompensatedFillFull | app/src/main/java/com/example/progressbartest/RoundedHorizontalProgressBar.kt:76-86 | with compensation, progress 100 draws exactly the track, in either branch |
| BarGeometry.CompensatedReachMonotone | app/src/main/java/com/example/progressbartest/RoundedHorizontalProgressBar.kt:76-86 | the right edge the compensated fill paints does not decrease as progress grows, across the switch from dot to line |
| BarGeometry.CompensatedBoundaryIsDot | app/src/main/java/com/example/progressbartest/RoundedHorizontalProgressBar.kt:80-86 | an end point of exactly one radius takes the dot branch |
| BarGeometry.ScenarioUncompensatedHalf | app/src/main/java/com/example/progressbartest/RoundedHorizontalProgressBar.kt:87-90 | 200 x 40, no compensation, progress 50: fill from 20 to 100, thickness 40 |
| BarGeometry.ScenarioCompensatedDot | app/src/main/java/com/example/progressbartest/RoundedHorizontalProgressBar.kt:76-86 | 200 x 40, compensation, progress 5: a dot at 9 with thickness 18 |
| BarGeometry.ScenarioCompensatedLine | app/src/main/java/com/example/progressbartest/RoundedHorizontalProgressBar.kt:76-86 | 200 x 40, compensation, progress 50: a line from 20 to 90, thickness 40 |
| BarState.GetProgressInt | app/src/main/java/com/example/progressbartest/RoundedHorizontalProgressBar.kt:146 | `getInt("progress")` is the stored Int, or 0 when the key is missing |
| BarState.IntSetterTarget | app/src/main/java/com/example/progressbartest/RoundedHorizontalProgressBar.kt:99-101 | the Int setter's target lies in [0, 100], is the value itself when in range, and equals one Float clamp of the value |
| BarState.SavedState | app/src/main/java/com/example/progressbartest/RoundedHorizontalProgressBar.kt:136-141 | the saved state is a Bundle holding a progress Int and the given view state; a progress in [0, 100] saves as its floor, an Int in [0, 100] |
| BarState.RestoreTarget | app/src/main/java/com/example/progressbartest/RoundedHorizontalProgressBar.kt:142-148 | restore targets a value exactly when the state is a Bundle; that target lies in [0, 100] and is the stored Int itself when the Int is in range |
| BarState.ForwardedState | app/src/main/java/com/example/progressbartest/RoundedHorizontalProgressBar.kt:142-149 | a Bundle hands on its "superState"; any other state, null included, is handed on as is |
| BarState.SaveRestoreRoundTrip | app/src/main/java/com/example/progressbartest/RoundedHorizontalProgressBar.kt:136-148 | restoring a saved progress in [0, 100] targets its floor, within one below it, and hands back the saved view state |
| BarState.SaveRestoreWhole | app/src/main/java/com/example/progressbartest/RoundedHorizontalProgressBar.kt:136-148 | a whole-number progress in [0, 100] restores to exactly itself |
| BarState.RestoreMissingKey | app/src/main/java/com/example/progressbartest/RoundedHorizontalProgressBar.kt:146 | a Bundle without "progress" restores toward 0 |
| BarState.AfterTicks | app/src/main/java/com/example/progressbartest/RoundedHorizontalProgressBar.kt:110-113 | after at least one animation update the progress lies in [0, 100], even if it started out of range |
| BarState.LastTickWins | app/src/main/java/com/example/progressbartest/RoundedHorizontalProgressBar.kt:110-113 | after a run of animation updates the progress is the last one, clamped; no updates leave it unchanged |
| BarState.TicksStayBetween | app/src/main/java/com/example/progressbartest/RoundedHorizontalProgressBar.kt:110-113 | updates between low and high leave the progress between their clamped values |
| BarState.TicksPreserveDirection | app/src/main/java/com/example/progressbartest/RoundedHorizontalProgressBar.kt:110-113 | non-decreasing updates give a non-decreasing progress |
| BarState.TicksEndingAtTarget | app/src/main/java/com/example/progressbartest/RoundedHorizontalProgressBar.kt:110-113 | if the last update delivers the run's target, the progress is exactly that target |
| ProgressBar.RoundedHorizontalProgressBar.constructor | app/src/main/java/com/example/progressbartest/RoundedHorizontalProgressBar.kt:34-65 | the styled values are stored, progress keeps the raw initial value, and one animator from it to its clamped value is started |
| ProgressBar.RoundedHorizontalProgressBar.SetProgressFloat | app/src/main/java/com/example/progressbartest/RoundedHorizontalProgressBar.kt:103-122 | non-animated: progress becomes the clamped value (so in [0, 100]), one redraw is requested, nothing else changes; animated: progress is untouched and a run from it to the clamped value is added |
| ProgressBar.RoundedHorizontalProgressBar.SetProgressInt | app/src/main/java/com/example/progressbartest/RoundedHorizontalProgressBar.kt:99-101 | as the Float setter, with the Int setter's target |
| ProgressBar.RoundedHorizontalProgressBar.OnAnimationUpdate | app/src/main/java/com/example/progressbartest/RoundedHorizontalProgressBar.kt:110-113 | an update sets progress as one tick of `AfterTicks` does, in [0, 100], whichever animator sent it |
| ProgressBar.RoundedHorizontalProgressBar.OnDraw | app/src/main/java/com/example/progressbartest/RoundedHorizontalProgressBar.kt:67-92 | radius, center and stroke widths become those of `Render`, the track then the fill are drawn (nothing when the canvas is null), and for a progress in range both paint inside the view |
| ProgressBar.RoundedHorizontalProgressBar.OnSaveInstanceState | app/src/main/java/com/example/progressbartest/RoundedHorizontalProgressBar.kt:136-141 | returns the saved Bundle; for a progress in range, restoring it targets the progress's floor |
| ProgressBar.RoundedHorizontalProgressBar.OnRestoreInstanceState | app/src/main/java/com/example/progressbartest/RoundedHorizontalProgressBar.kt:142-150 | progress is unchanged; a Bundle starts an animator toward its target and any other state starts none; returns the state handed on to the view |
| ProgressBar.SetProgressTwice | app/src/main/java/com/example/progressbartest/RoundedHorizontalProgressBar.kt:118-120 | two non-animated sets with the same value leave the same progress as one |
| ProgressBar.SaveAndRestore | app/src/main/java/com/example/progressbartest/RoundedHorizontalProgressBar.kt:136-150 | a view saved at a whole progress in [0, 100] and restored into another view starts an animator toward exactly that progress, leaves that view's progress and redraw count unchanged, and the view state comes back |

## Left out

- `ValueAnimator` and `DecelerateInterpolator` (lines 107-117) are platform classes. The model
  records each started run (from, to, duration) and treats every delivered value as a call
  of the update listener. It does not model timing, easing, or whether a run converges to
  its target. `TicksEndingAtTarget` states the result only under the assumption that the
  last update carries the target.
- `RoundedHorizontalProgressBar.constructor`, the animated branch of `SetProgressFloat` and
  `SetProgressInt`, and `OnRestoreInstanceState`: `ValueAnimator.start()` delivers its first
  value synchronously, and with a zero duration it jumps straight to the end value. The model
  treats that first value as a separate, later `OnAnimationUpdate` call, so these members
  leave `progress` unchanged.
- Cancellation of an earlier animator is not modelled, because the code does none. A stale
  animator's updates still apply.
- A negative `animationDurationInMillis` is stored as given. The platform's reaction to a
  negative duration is not part of this model.
- Attribute loading through `obtainStyledAttributes` (lines 35-55). The constructor takes the
  colours, the duration, the compensation flag and the initial progress as parameters.
- Paint anti-aliasing and stroke caps (lines 57-61): they set rendering flags and no state the
  model reads. The round cap enters only through `PaintedWithin`.
- `onMeasure` (lines 94-97) only passes the sizes through.
- `postInvalidate()` is recorded as a count of redraw requests. The view's own saved state
  (`super.onSaveInstanceState()`) is an opaque `Parcelable` passed through.
- IEEE `Float` rounding: all geometry uses exact `real` arithmetic. Ints convert to reals
  exactly, and `toInt()` of NaN does not arise.
- `MainActivity.kt` is host wiring with a random value and a click listener. It is not part
  of this model.
