/** The last step of `calculateAngle`, which folds an angle magnitude into [0, 180]. */
module Geometry {

  /**
   * The magnitude, in degrees, of the difference of the two `atan2` bearings
   * from the middle point to the outer ones: |atan2(c - b) - atan2(a - b)| * 180 / pi.
   * Each bearing lies in (-180, 180], so the magnitude lies in [0, 360].
   * The trigonometry itself is supplied from outside the model.
   */
  type Sweep = d: real | 0.0 <= d <= 360.0

  /** A Euclidean distance, supplied from outside the model (it needs a square root). */
  type Distance = d: real | 0.0 <= d

  /**
   * `if (angle > 180.0) angle = 360 - angle`: the result is the smaller of
   * the two ways round, so it is an angle in [0, 180].
   */
  function CalculateAngle(sweep: Sweep): (angle: real)
    ensures 0.0 <= angle <= 180.0
    ensures angle == sweep || angle == 360.0 - sweep
    ensures angle <= sweep && angle <= 360.0 - sweep
  {
    if sweep > 180.0 then 360.0 - sweep else sweep
  }
}
