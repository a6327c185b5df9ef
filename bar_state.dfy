/**
 * The progress value as it crosses a save/restore boundary, and as a run of
 * animation updates sets it.
 *
 * `onSaveInstanceState` writes a Bundle holding `progress.toInt()` under the key
 * "progress" and the view's own state under "superState". `onRestoreInstanceState`
 * hands a Bundle's Int to the public `setProgress(Int)` and passes the rest on;
 * any other state is passed on untouched.
 */
module BarState {
  import opened Wrappers
  import opened BarMath

  /**
   * A saved state as the view sees it: a Bundle with an optional "progress" Int
   * and an optional nested "superState", or any other Parcelable, which the
   * model treats as an opaque token.
   */
  datatype Parcelable =
    | Bundle(progress: Option<Int32>, superState: Option<Parcelable>)
    | Foreign(token: int)

  /** `bundle.getInt("progress")`: the stored Int, or 0 when the key is missing. */
  function GetProgressInt(bundle: Parcelable): (r: Int32)
    requires bundle.Bundle?
    ensures bundle.progress.Some? ==> r == bundle.progress.value
    ensures bundle.progress.None? ==> r == 0
  {
    bundle.progress.GetOr(0)
  }

  /** The value the public `setProgress(value: Int)` hands to the Float setter, clamped there once more. */
  function IntSetterTarget(value: Int32): (r: real)
    ensures 0.0 <= r <= 100.0
    ensures 0 <= value <= 100 ==> r == value as real
    ensures r == ClampProgress(value as real)
  {
    IntThenFloatClamp(value);
    ClampProgress(ClampInt(value, ProgressLow, ProgressHigh) as real)
  }

  /** The Bundle `onSaveInstanceState` returns for a given progress and view state. */
  function SavedState(progress: real, superState: Option<Parcelable>): (s: Parcelable)
    ensures s.Bundle? && s.progress.Some? && s.superState == superState
    ensures 0.0 <= progress <= 100.0 ==> 0 <= s.progress.value <= 100 && s.progress.value == progress.Floor
  {
    if 0.0 <= progress <= 100.0 then
      FloatToIntProgress(progress);
      Bundle(Some(FloatToInt(progress)), superState)
    else
      Bundle(Some(FloatToInt(progress)), superState)
  }

  /** The target `onRestoreInstanceState` passes to the setter: only a Bundle carries one. */
  function RestoreTarget(state: Option<Parcelable>): (t: Option<real>)
    ensures t.Some? <==> state.Some? && state.value.Bundle?
    ensures t.Some? ==> 0.0 <= t.value <= 100.0
    ensures state.Some? && state.value.Bundle? && 0 <= GetProgressInt(state.value) <= 100 ==>
      t == Some(GetProgressInt(state.value) as real)
  {
    match state
    case Some(b) =>
      if b.Bundle? then Some(IntSetterTarget(GetProgressInt(b))) else None
    case None => None
  }

  /** The state `onRestoreInstanceState` hands on to the view's own restore. */
  function ForwardedState(state: Option<Parcelable>): (f: Option<Parcelable>)
    ensures state.Some? && state.value.Bundle? ==> f == state.value.superState
    ensures !(state.Some? && state.value.Bundle?) ==> f == state
  {
    match state
    case Some(b) => if b.Bundle? then b.superState else state
    case None => state
  }

  /**
   * Restoring a saved progress in [0, 100] targets its whole part, which is the
   * progress itself when it was a whole number; the view's state comes back as saved.
   */
  lemma SaveRestoreRoundTrip(progress: real, superState: Option<Parcelable>)
    requires 0.0 <= progress <= 100.0
    ensures RestoreTarget(Some(SavedState(progress, superState))) == Some(progress.Floor as real)
    ensures ForwardedState(Some(SavedState(progress, superState))) == superState
    ensures var t := RestoreTarget(Some(SavedState(progress, superState))).value;
      t <= progress < t + 1.0
  {
    FloatToIntProgress(progress);
    var k := FloatToInt(progress);
    assert 0 <= k <= 100;
    assert IntSetterTarget(k) == k as real;
  }

  /** For a whole-number progress in [0, 100] the round trip is exact. */
  lemma SaveRestoreWhole(k: Int32, superState: Option<Parcelable>)
    requires 0 <= k <= 100
    ensures RestoreTarget(Some(SavedState(k as real, superState))) == Some(k as real)
  {
    SaveRestoreRoundTrip(k as real, superState);
  }

  /** A Bundle that lacks the "progress" key restores toward 0. */
  lemma RestoreMissingKey(superState: Option<Parcelable>)
    ensures RestoreTarget(Some(Bundle(None, superState))) == Some(0.0)
  {
  }

  // ---------------------------------------------------------------------
  // Animation updates
  // ---------------------------------------------------------------------

  /**
   * The progress after a ValueAnimator delivers `ticks` to the update listener,
   * each of which calls `setProgress(value, false)` in turn. After at least one
   * update the progress lies in [0, 100], whatever it was before.
   */
  function AfterTicks(progress: real, ticks: seq<real>): (r: real)
    ensures ticks != [] ==> 0.0 <= r <= 100.0
    decreases |ticks|
  {
    if ticks == [] then progress else AfterTicks(ClampProgress(ticks[0]), ticks[1..])
  }

  /** Only the last update counts, clamped; no updates leave the progress alone. */
  lemma {:induction false} LastTickWins(progress: real, ticks: seq<real>)
    ensures ticks == [] ==> AfterTicks(progress, ticks) == progress
    ensures ticks != [] ==> AfterTicks(progress, ticks) == ClampProgress(ticks[|ticks| - 1])
    decreases |ticks|
  {
    if ticks != [] {
      LastTickWins(ClampProgress(ticks[0]), ticks[1..]);
    }
  }

  /**
   * Updates that stay between `low` and `high` leave the progress between their
   * clamped values.
   */
  lemma TicksStayBetween(progress: real, ticks: seq<real>, low: real, high: real)
    requires ticks != [] && low <= high
    requires forall i :: 0 <= i < |ticks| ==> low <= ticks[i] <= high
    ensures ClampProgress(low) <= AfterTicks(progress, ticks) <= ClampProgress(high)
  {
    LastTickWins(progress, ticks);
    var last := ticks[|ticks| - 1];
    ClampFloatMonotone(low, last, 0.0, 100.0);
    ClampFloatMonotone(last, high, 0.0, 100.0);
  }

  /**
   * Non-decreasing updates give a non-decreasing progress: after the first i
   * updates it is at most what it is after the first j, for 1 <= i <= j.
   */
  lemma TicksPreserveDirection(progress: real, ticks: seq<real>, i: nat, j: nat)
    requires forall a, b :: 0 <= a <= b < |ticks| ==> ticks[a] <= ticks[b]
    requires 1 <= i <= j <= |ticks|
    ensures AfterTicks(progress, ticks[..i]) <= AfterTicks(progress, ticks[..j])
  {
    LastTickWins(progress, ticks[..i]);
    LastTickWins(progress, ticks[..j]);
    ClampFloatMonotone(ticks[i - 1], ticks[j - 1], 0.0, 100.0);
  }

  /** An update delivering the run's clamped target leaves the progress exactly there. */
  lemma TicksEndingAtTarget(progress: real, ticks: seq<real>, target: real)
    requires 0.0 <= target <= 100.0
    ensures AfterTicks(progress, ticks + [target]) == target
  {
    LastTickWins(progress, ticks + [target]);
  }
}
