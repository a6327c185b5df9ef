/**
 * RoundedHorizontalProgressBar: the view object. It keeps the progress, the two
 * paints and the animators it has started, and its methods update them in place.
 * The arithmetic it uses lives in BarMath, the drawing geometry in BarGeometry and
 * the saved-state format in BarState.
 */
module ProgressBar {
  import opened Wrappers
  import opened BarMath
  import opened BarGeometry
  import opened BarState

  /** A ValueAnimator as the view configures it: from the current progress to the clamped target. */
  datatype AnimationRun = AnimationRun(from: real, to: real, durationMs: int)

  /** One `canvas.drawLine` call: the line and the colour of the paint drawn with. */
  datatype DrawCall = DrawCall(segment: Segment, color: int)

  /** The stroke width `progressPaint` is given at construction. */
  const InitialProgressStrokeWidth: real := 20.0

  class RoundedHorizontalProgressBar {
    /** `progressBgPaint.color` and `progressPaint.color`, fixed at construction. */
    const bgColor: int
    const progressColor: int
    /** `animationDuration`, in milliseconds. */
    const animationDuration: int
    const compensateLowProgress: bool

    var progress: real
    var radius: real
    var center: real
    /** `progressBgPaint.strokeWidth` and `progressPaint.strokeWidth`. */
    var bgStrokeWidth: real
    var progressStrokeWidth: real
    /**
     * Every ValueAnimator started so far, oldest first; the `animator` field is the
     * last. None is ever cancelled, so each may still deliver updates.
     */
    var animators: seq<AnimationRun>
    /** How many times `postInvalidate()` has been called. */
    var redrawRequests: nat

    /** The progress lies in [0, 100]. */
    predicate InRange()
      reads this
    {
      0.0 <= progress <= 100.0
    }

    /**
     * The view with its styled attributes already read. The initial progress is
     * stored as given and then passed to the animated Float setter, so it is not
     * clamped until the first animation update arrives.
     */
    constructor (bgColor: int, progressColor: int, animationDurationMs: Int32,
                 compensateWhenProgressIsLow: bool, initialProgress: Int32)
      ensures this.bgColor == bgColor && this.progressColor == progressColor
      ensures animationDuration == animationDurationMs
      ensures compensateLowProgress == compensateWhenProgressIsLow
      ensures progress == initialProgress as real
      ensures animators == [AnimationRun(initialProgress as real, ClampProgress(initialProgress as real), animationDurationMs)]
      ensures redrawRequests == 0
      ensures radius == 0.0 && center == 0.0
      ensures bgStrokeWidth == 0.0 && progressStrokeWidth == InitialProgressStrokeWidth
    {
      this.bgColor := bgColor;
      this.progressColor := progressColor;
      animationDuration := animationDurationMs;
      compensateLowProgress := compensateWhenProgressIsLow;
      progress := initialProgress as real;
      radius, center := 0.0, 0.0;
      bgStrokeWidth := 0.0;
      progressStrokeWidth := InitialProgressStrokeWidth;
      animators := [];
      redrawRequests := 0;
      new;
      SetProgressFloat(progress, true);
    }

    /**
     * `setProgress(value: Float, animated)`. Animated: start a new animator from
     * the current progress to the clamped value, leaving the progress as it is.
     * Not animated: store the clamped value and request a redraw.
     */
    method SetProgressFloat(value: real, animated: bool)
      modifies this`progress, this`animators, this`redrawRequests
      ensures animated ==>
        progress == old(progress) && redrawRequests == old(redrawRequests) &&
        animators == old(animators) + [AnimationRun(old(progress), ClampProgress(value), animationDuration)]
      ensures !animated ==>
        progress == ClampProgress(value) && InRange() &&
        animators == old(animators) && redrawRequests == old(redrawRequests) + 1
    {
      var clampedValue := ClampFloat(value, ProgressLow as real, ProgressHigh as real);
      if animated {
        animators := animators + [AnimationRun(progress, clampedValue, animationDuration)];
      } else {
        progress := clampedValue;
        redrawRequests := redrawRequests + 1;
      }
    }

    /** `setProgress(value: Int, animated)`: clamp the Int, then call the Float setter. */
    method SetProgressInt(value: Int32, animated: bool)
      modifies this`progress, this`animators, this`redrawRequests
      ensures animated ==>
        progress == old(progress) && redrawRequests == old(redrawRequests) &&
        animators == old(animators) + [AnimationRun(old(progress), IntSetterTarget(value), animationDuration)]
      ensures !animated ==>
        progress == IntSetterTarget(value) && InRange() &&
        animators == old(animators) && redrawRequests == old(redrawRequests) + 1
    {
      SetProgressFloat(ClampInt(value, ProgressLow, ProgressHigh) as real, animated);
    }

    /**
     * The update listener every animator carries: each animated value goes through
     * the non-animated setter. Nothing checks which animator the value came from.
     */
    method OnAnimationUpdate(animatedValue: real)
      modifies this`progress, this`animators, this`redrawRequests
      ensures progress == AfterTicks(old(progress), [animatedValue]) && InRange()
      ensures animators == old(animators) && redrawRequests == old(redrawRequests) + 1
    {
      SetProgressFloat(animatedValue, false);
    }

    /**
     * `onDraw`: recompute radius and center from the view's size, set the paints'
     * stroke widths, and draw the track and then the fill (nothing is drawn when
     * the canvas is null).
     */
    method OnDraw(width: Int32, height: Int32, canvasPresent: bool) returns (drawn: seq<DrawCall>)
      modifies this`radius, this`center, this`bgStrokeWidth, this`progressStrokeWidth
      ensures var f := Render(width, height, progress, compensateLowProgress);
        radius == f.radius && center == f.center &&
        bgStrokeWidth == f.track.thickness && progressStrokeWidth == f.fill.thickness &&
        drawn == if canvasPresent then [DrawCall(f.track, bgColor), DrawCall(f.fill, progressColor)] else []
      ensures 0 <= width && 0 <= height && InRange() ==>
        forall k :: 0 <= k < |drawn| ==> PaintedWithin(drawn[k].segment, width, height)
    {
      ghost var f := Render(width, height, progress, compensateLowProgress);
      radius := Min(width, height) as real / 2.0;
      center := height as real / 2.0;
      bgStrokeWidth := 2.0 * radius;
      var track := Segment(radius, width as real - radius, center, bgStrokeWidth);
      assert track == f.track;
      var fill: Segment;
      if compensateLowProgress {
        var compensationRegion := radius;
        var endPoint := (width as real - radius) * (progress / 100.0);
        assert endPoint == CompensatedEndPoint(width, height, progress);
        if endPoint > compensationRegion {
          progressStrokeWidth := 2.0 * radius;
          fill := Segment(radius, endPoint, center, progressStrokeWidth);
        } else {
          progressStrokeWidth := 2.0 * endPoint;
          fill := Segment(endPoint, endPoint, center, progressStrokeWidth);
        }
        assert fill == CompensatedFill(width, height, progress);
      } else {
        progressStrokeWidth := 2.0 * radius;
        var endPoint := radius + (width as real - 2.0 * radius) * (progress / 100.0);
        fill := Segment(radius, endPoint, center, progressStrokeWidth);
        assert fill == UncompensatedFill(width, height, progress);
      }
      assert fill == f.fill;
      drawn := if canvasPresent then [DrawCall(track, bgColor), DrawCall(fill, progressColor)] else [];
    }

    /** `onSaveInstanceState`: a Bundle with the truncated progress and the view's own state. */
    method OnSaveInstanceState(superState: Option<Parcelable>) returns (state: Parcelable)
      ensures state == SavedState(progress, superState)
      ensures InRange() ==> RestoreTarget(Some(state)) == Some(progress.Floor as real)
    {
      state := Bundle(Some(FloatToInt(progress)), superState);
      if InRange() {
        SaveRestoreRoundTrip(progress, superState);
      }
    }

    /**
     * `onRestoreInstanceState`: a Bundle's Int goes to the public Int setter with
     * its default `animated = true`, so an animator toward it is started and the
     * progress itself is left alone; any other state changes nothing. Returns what
     * is handed on to the view's own restore.
     */
    method OnRestoreInstanceState(state: Option<Parcelable>) returns (forwarded: Option<Parcelable>)
      modifies this`progress, this`animators, this`redrawRequests
      ensures progress == old(progress) && redrawRequests == old(redrawRequests)
      ensures RestoreTarget(state).None? ==> animators == old(animators)
      ensures RestoreTarget(state).Some? ==>
        animators == old(animators) + [AnimationRun(old(progress), RestoreTarget(state).value, animationDuration)]
      ensures forwarded == ForwardedState(state)
    {
      forwarded := state;
      if state.Some? && state.value.Bundle? {
        var bundle := state.value;
        SetProgressInt(GetProgressInt(bundle), true);
        forwarded := bundle.superState;
      }
    }
  }

  /**
   * Calling the non-animated setter twice with the same value leaves the same
   * progress as calling it once; only the redraw count differs.
   */
  method SetProgressTwice(bar: RoundedHorizontalProgressBar, value: real) returns (once: real, twice: real)
    modifies bar`progress, bar`animators, bar`redrawRequests
    ensures once == twice == ClampProgress(value) == bar.progress
    ensures bar.animators == old(bar.animators) && bar.redrawRequests == old(bar.redrawRequests) + 2
  {
    bar.SetProgressFloat(value, false);
    once := bar.progress;
    bar.SetProgressFloat(value, false);
    twice := bar.progress;
  }

  /**
   * A view saved at a whole progress and restored into another view starts an
   * animator toward exactly that progress; the view's own state is handed back.
   */
  method SaveAndRestore(k: Int32, target: RoundedHorizontalProgressBar, superState: Option<Parcelable>)
    returns (saved: Parcelable, forwarded: Option<Parcelable>)
    requires 0 <= k <= 100
    modifies target`progress, target`animators, target`redrawRequests
    ensures target.animators == old(target.animators) + [AnimationRun(old(target.progress), k as real, target.animationDuration)]
    ensures target.progress == old(target.progress) && target.redrawRequests == old(target.redrawRequests)
    ensures forwarded == superState
  {
    var bar := new RoundedHorizontalProgressBar(0, 0, 300, false, 0);
    bar.SetProgressInt(k, false);
    saved := bar.OnSaveInstanceState(superState);
    forwarded := target.OnRestoreInstanceState(Some(saved));
    SaveRestoreWhole(k, superState);
  }
}
