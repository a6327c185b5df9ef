/**
 * The numeric helpers of RoundedHorizontalProgressBar: `min` on Ints, the two
 * `clamp` overloads, and Kotlin's `Float.toInt()` used when the state is saved.
 * Kotlin `Int` is a 32-bit integer; Kotlin `Float` is modelled by `real`.
 */
module BarMath {

  const IntMin: int := -0x8000_0000
  const IntMax: int := 0x7fff_ffff

  /** Kotlin `Int`. */
  type Int32 = x: int | IntMin <= x <= IntMax

  /** The range a progress value is clamped to. */
  const ProgressLow: Int32 := 0
  const ProgressHigh: Int32 := 100

  function AbsInt(x: int): nat { if x < 0 then -x else x }

  function Abs(x: real): real { if x < 0.0 then -x else x }

  /** `min(a, b)`: the smaller of the two. */
  function Min(a: Int32, b: Int32): (r: Int32)
    ensures r <= a && r <= b
    ensures r == a || r == b
  {
    if a < b then a else b
  }

  /** `clamp(value: Int, low, high)`. */
  function ClampInt(value: Int32, low: Int32, high: Int32): (r: Int32)
    ensures low <= high ==> low <= r <= high
    ensures low <= value <= high ==> r == value
    ensures r == value || r == low || r == high
  {
    if value < low then low else if value > high then high else value
  }

  /** `clamp(value: Float, low, high)`. */
  function ClampFloat(value: real, low: real, high: real): (r: real)
    ensures low <= high ==> low <= r <= high
    ensures low <= value <= high ==> r == value
    ensures r == value || r == low || r == high
  {
    if value < low then low else if value > high then high else value
  }

  /** The clamp used for every progress value: `clamp(value, 0f, 100f)`. */
  function ClampProgress(value: real): (r: real)
    ensures 0.0 <= r <= 100.0
    ensures 0.0 <= value <= 100.0 ==> r == value
  {
    ClampFloat(value, ProgressLow as real, ProgressHigh as real)
  }

  /**
   * Kotlin `Float.toInt()`: rounds toward zero, and saturates at the Int bounds.
   */
  function FloatToInt(x: real): (r: Int32)
    ensures 0.0 <= x < IntMax as real ==> r as real <= x < r as real + 1.0
    ensures IntMin as real < x <= 0.0 ==> r as real - 1.0 < x <= r as real
    ensures IntMax as real <= x ==> r == IntMax
    ensures x <= IntMin as real ==> r == IntMin
  {
    if x >= IntMax as real then IntMax
    else if x <= IntMin as real then IntMin
    else if x >= 0.0 then x.Floor
    else -((-x).Floor)
  }

  // ---------------------------------------------------------------------
  // Properties of the clamps
  // ---------------------------------------------------------------------

  /** Clamping an already clamped Int changes nothing. */
  lemma ClampIntIdempotent(value: Int32, low: Int32, high: Int32)
    requires low <= high
    ensures ClampInt(ClampInt(value, low, high), low, high) == ClampInt(value, low, high)
  {
  }

  /** The Int clamp picks the point of [low, high] nearest to `value`. */
  lemma ClampIntIsNearest(value: Int32, low: Int32, high: Int32, y: Int32)
    requires low <= y <= high
    ensures AbsInt(ClampInt(value, low, high) - value) <= AbsInt(y - value)
  {
  }

  /** Clamping an already clamped Float changes nothing. */
  lemma ClampFloatIdempotent(value: real, low: real, high: real)
    requires low <= high
    ensures ClampFloat(ClampFloat(value, low, high), low, high) == ClampFloat(value, low, high)
  {
  }

  /** The Float clamp picks the point of [low, high] nearest to `value`. */
  lemma ClampFloatIsNearest(value: real, low: real, high: real, y: real)
    requires low <= y <= high
    ensures Abs(ClampFloat(value, low, high) - value) <= Abs(y - value)
  {
  }

  /** The Float clamp never reverses the order of two values. */
  lemma ClampFloatMonotone(a: real, b: real, low: real, high: real)
    requires low <= high
    requires a <= b
    ensures ClampFloat(a, low, high) <= ClampFloat(b, low, high)
  {
  }

  /**
   * The public Int setter clamps the Int and then the private Float setter clamps
   * the converted value again; together they are one clamp of the value.
   */
  lemma IntThenFloatClamp(value: Int32)
    ensures ClampProgress(ClampInt(value, ProgressLow, ProgressHigh) as real) == ClampProgress(value as real)
  {
  }

  /** `toInt()` gives back a whole number unchanged. */
  lemma FloatToIntWhole(k: Int32)
    ensures FloatToInt(k as real) == k
  {
  }

  /** A progress value in [0, 100] saves as an Int in [0, 100], its whole part. */
  lemma FloatToIntProgress(x: real)
    requires 0.0 <= x <= 100.0
    ensures 0 <= FloatToInt(x) <= 100
    ensures FloatToInt(x) == x.Floor
  {
  }
}
