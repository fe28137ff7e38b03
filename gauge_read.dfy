/**
 * The computation one processing cycle performs on a decoded image: the
 * reading, its text form, and the display blur kernel.
 */
module GaugeRead {
  import opened AngleMap
  import opened Needle

  /** `val`: the sentinel -1 when no line is detected, else the clipped value. */
  datatype Reading = NoNeedle | Measured(value: real)

  /** The number the alert step receives. */
  function NumericValue(r: Reading): (v: real)
    ensures r.NoNeedle? ==> v == -1.0
  {
    if r.NoNeedle? then -1.0 else r.value
  }

  /**
   * The reading for the detector's segments. `angleOf` stands for the
   * `atan2` step: the angle, clockwise from straight up, of the vector
   * from the centre to the tip.
   */
  function ReadGauge(c: Calibration, segs: seq<Segment>, angleOf: Point -> real): (r: Reading)
    requires Valid(c)
    ensures r.NoNeedle? <==> segs == []
    ensures r.Measured? ==> c.minValue <= r.value <= c.maxValue
    ensures r.Measured? ==> r.value == GaugeValue(c, angleOf(Tip(segs[Longest(segs)])))
  {
    if segs == [] then NoNeedle
    else Measured(GaugeValue(c, angleOf(Tip(segs[Longest(segs)]))))
  }

  /**
   * `str(val)`: the integer sentinel prints as "-1"; a measured value prints
   * through `format`, which stands for `str(round(v, 2))` on a float.
   */
  function ValueText(r: Reading, format: real -> string): string
  {
    if r.NoNeedle? then "-1" else format(r.value)
  }

  /** Whether an integer is odd, Python `k % 2 == 1` (floor modulus agrees for divisor 2). */
  predicate IsOdd(k: int)
  {
    k % 2 == 1
  }

  /** `k = blur_kernel if blur_kernel % 2 == 1 else blur_kernel + 1`: the nearest odd size not below it. */
  function OddKernel(blurKernel: int): (k: int)
    ensures IsOdd(k)
    ensures k == blurKernel || k == blurKernel + 1
    ensures IsOdd(blurKernel) ==> k == blurKernel
  {
    if IsOdd(blurKernel) then blurKernel else blurKernel + 1
  }
}
