/**
 * Conversion of a needle angle (degrees clockwise from straight up) into a
 * calibrated reading: a two-branch linear map over the arc that crosses
 * 0/360 degrees, then a clip into the value range.
 */
module AngleMap {

  datatype Calibration = Calibration(minAngle: real, maxAngle: real, minValue: real, maxValue: real)

  /** The sweep starts at minAngle, wraps through 0 and ends at maxAngle. */
  predicate Valid(c: Calibration)
  {
    0.0 <= c.maxAngle < c.minAngle < 360.0 && c.minValue < c.maxValue
  }

  /** The meter every script is calibrated for: 225 deg reads 0, 137 deg reads 120. */
  const Meter := Calibration(225.0, 137.0, 0.0, 120.0)

  /** `arc_span`: the angular length of the sweep. */
  function ArcSpan(c: Calibration): (r: real)
    requires Valid(c)
    ensures c.maxAngle < r < 360.0
  {
    360.0 - c.minAngle + c.maxAngle
  }

  /** The formula used when the angle is at or past minAngle. */
  function UpperBranch(c: Calibration, angle: real): real
    requires Valid(c)
  {
    (angle - c.minAngle) * (c.maxValue - c.minValue) / ArcSpan(c)
  }

  /** The formula used when the angle lies before minAngle (after the wrap). */
  function LowerBranch(c: Calibration, angle: real): real
    requires Valid(c)
  {
    (angle + (360.0 - c.minAngle)) * (c.maxValue - c.minValue) / ArcSpan(c)
  }

  /** The value before clipping. */
  function RawValue(c: Calibration, angle: real): real
    requires Valid(c)
  {
    if angle >= c.minAngle then UpperBranch(c, angle) else LowerBranch(c, angle)
  }

  /** `np.clip(v, lo, hi)`. */
  function Clip(v: real, lo: real, hi: real): (r: real)
    requires lo <= hi
    ensures lo <= r <= hi
    ensures lo <= v <= hi ==> r == v
    ensures v < lo ==> r == lo
    ensures v > hi ==> r == hi
  {
    if v < lo then lo else if v > hi then hi else v
  }

  lemma ClipMonotone(v: real, w: real, lo: real, hi: real)
    requires v <= w && lo <= hi
    ensures Clip(v, lo, hi) <= Clip(w, lo, hi)
  {
  }

  /** The reading for a detected angle (rounding to two decimals is not modelled). */
  function GaugeValue(c: Calibration, angle: real): (r: real)
    requires Valid(c)
    ensures c.minValue <= r <= c.maxValue
  {
    Clip(RawValue(c, angle), c.minValue, c.maxValue)
  }

  /**
   * Reference definition: how far clockwise the angle lies from minAngle,
   * for angles in [0, 360).
   */
  function Sweep(c: Calibration, angle: real): real
  {
    if angle >= c.minAngle then angle - c.minAngle else angle + 360.0 - c.minAngle
  }

  lemma ScaleMonotone(x: real, y: real, k: real, s: real)
    requires x <= y && 0.0 <= k && 0.0 < s
    ensures x * k / s <= y * k / s
  {
    assert x * k <= y * k;
  }

  lemma ScaleSub(x: real, y: real, k: real, s: real)
    requires 0.0 < s
    ensures x * k / s - y * k / s == (x - y) * k / s
  {
  }

  /** The unclipped value is the clockwise distance from minAngle, scaled to the value range. */
  lemma RawIsScaledSweep(c: Calibration, angle: real)
    requires Valid(c) && 0.0 <= angle < 360.0
    ensures 0.0 <= Sweep(c, angle) < 360.0
    ensures RawValue(c, angle) == Sweep(c, angle) * (c.maxValue - c.minValue) / ArcSpan(c)
  {
  }

  /**
   * Monotone along the sweep: an angle that lies further clockwise from
   * minAngle never reads less, both unclipped and clipped.
   */
  lemma MonotoneAlongSweep(c: Calibration, a: real, b: real)
    requires Valid(c) && 0.0 <= a < 360.0 && 0.0 <= b < 360.0
    requires Sweep(c, a) <= Sweep(c, b)
    ensures RawValue(c, a) <= RawValue(c, b)
    ensures GaugeValue(c, a) <= GaugeValue(c, b)
  {
    RawMonotone(c, a, b);
    ClipMonotone(RawValue(c, a), RawValue(c, b), c.minValue, c.maxValue);
  }

  lemma RawMonotone(c: Calibration, a: real, b: real)
    requires Valid(c) && 0.0 <= a < 360.0 && 0.0 <= b < 360.0
    requires Sweep(c, a) <= Sweep(c, b)
    ensures RawValue(c, a) <= RawValue(c, b)
  {
    var k, s := c.maxValue - c.minValue, ArcSpan(c);
    var sa, sb := Sweep(c, a), Sweep(c, b);
    RawIsScaledSweep(c, a);
    RawIsScaledSweep(c, b);
    ScaleMonotone(sa, sb, k, s);
    assert RawValue(c, a) == sa * k / s && RawValue(c, b) == sb * k / s;
  }

  /** Within each branch the value is nondecreasing in the angle. */
  lemma MonotoneWithinBranch(c: Calibration, a: real, b: real)
    requires Valid(c) && 0.0 <= a <= b < 360.0
    requires (a >= c.minAngle) == (b >= c.minAngle)
    ensures RawValue(c, a) <= RawValue(c, b)
    ensures GaugeValue(c, a) <= GaugeValue(c, b)
  {
    MonotoneAlongSweep(c, a, b);
  }

  /**
   * Continuity across the wrap: both formulas give (360 - minAngle) * range / span
   * at the seam, and an angle d degrees short of 360 reads exactly d * range / span
   * less than angle 0.
   */
  lemma ContinuousAtWrap(c: Calibration, d: real)
    requires Valid(c) && 0.0 < d <= 360.0 - c.minAngle
    ensures UpperBranch(c, 360.0) == LowerBranch(c, 0.0)
    ensures LowerBranch(c, 0.0) == (360.0 - c.minAngle) * (c.maxValue - c.minValue) / ArcSpan(c)
    ensures RawValue(c, 0.0) - RawValue(c, 360.0 - d) == d * (c.maxValue - c.minValue) / ArcSpan(c)
  {
    ScaleSub(360.0 - c.minAngle, 360.0 - d - c.minAngle, c.maxValue - c.minValue, ArcSpan(c));
  }

  /**
   * The ends of the sweep: minAngle reads 0 and maxAngle reads the full range
   * (the formula carries no minValue offset); an angle in the dead zone
   * between maxAngle and minAngle reads more than the full range.
   */
  lemma SweepEnds(c: Calibration, dead: real)
    requires Valid(c) && c.maxAngle < dead < c.minAngle
    ensures RawValue(c, c.minAngle) == 0.0
    ensures RawValue(c, c.maxAngle) == c.maxValue - c.minValue
    ensures RawValue(c, dead) > c.maxValue - c.minValue
  {
    var range := c.maxValue - c.minValue;
    var s := ArcSpan(c);
    assert RawValue(c, c.maxAngle) == s * range / s;
    var x := dead + 360.0 - c.minAngle;
    assert x > s;
    assert x * range - s * range > 0.0 by { assert x * range - s * range == (x - s) * range; }
    assert x * range / s - range == (x * range - s * range) / s;
    assert RawValue(c, dead) == x * range / s;
  }

  /** With the meter's own calibration a needle in the dead zone reads the maximum. */
  lemma DeadZoneReadsMaximum(angle: real)
    requires Meter.maxAngle < angle < Meter.minAngle
    ensures GaugeValue(Meter, angle) == Meter.maxValue
  {
    SweepEnds(Meter, angle);
  }

  /** Worked values for the meter: 225 reads 0, 0 reads 135*120/272, 180 reads 315*120/272 and clips to 120. */
  lemma MeterExamples()
    ensures ArcSpan(Meter) == 272.0
    ensures GaugeValue(Meter, 225.0) == 0.0
    ensures GaugeValue(Meter, 0.0) == 135.0 * 120.0 / 272.0
    ensures RawValue(Meter, 180.0) == 315.0 * 120.0 / 272.0
    ensures GaugeValue(Meter, 180.0) == 120.0
  {
  }
}
