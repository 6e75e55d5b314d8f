/** The distance estimators of the repository. All of them apply the pinhole
    relation distance = known size * focal length / size in pixels, but each
    program guards the division differently:
      - test-1/test.py has no guard and adds a calibration offset of 0.3,
      - websoc/server.py and test.py return `None` for a size <= 0 and round,
      - captive_portal/app.py returns -1 for a size of exactly 0. */
module Estimators {
  import opened Common

  /** True when `a` is what rounding `x` to two decimals may produce. */
  predicate RoundedFrom(a: real, x: real)
  {
    x - 1.0 / 200.0 < a <= x + 1.0 / 200.0
  }

  /** Python's `round(x, 2)` taken over the reals, ties rounded upward. */
  function Round2(x: real): (r: real)
    ensures RoundedFrom(r, x)
    ensures x >= 0.0 ==> r >= 0.0
  {
    ((x * 100.0 + 0.5).Floor as real) / 100.0
  }

  // ---- test-1/test.py -------------------------------------------------------

  const CalibrationOffset: real := 0.3

  /** `calculate_distance`: the raw pinhole distance and the adjusted one.
      The source divides without a guard; a zero width raises there, so the
      model asks for a non-zero width and the caller models the error. */
  function CalculateDistance(bboxWidth: int, focalLength: real, knownWidth: real): (r: (real, real))
    requires bboxWidth != 0
    ensures r.0 * (bboxWidth as real) == knownWidth * focalLength
    ensures r.1 - r.0 == CalibrationOffset
  {
    var distance := knownWidth * focalLength / (bboxWidth as real);
    (distance, distance + CalibrationOffset)
  }

  // ---- websoc/server.py -----------------------------------------------------

  const KnownHeightObj: real := 1.5
  const LiveFocalLength: real := 50.0
  const FeetPerMeter: real := 3.281

  /** `calculate_distance(bbox_height)`: the distance in feet, rounded to two
      decimals, or `None` when the height is not positive. */
  function LiveDistance(bboxHeight: int): (r: Option<real>)
    ensures r.None? <==> bboxHeight <= 0
    ensures r.Some? ==> r.value >= 0.0
    ensures r.Some? ==> RoundedFrom(r.value, KnownHeightObj * LiveFocalLength * FeetPerMeter / (bboxHeight as real))
  {
    if bboxHeight > 0 then
      var meters := KnownHeightObj * LiveFocalLength / (bboxHeight as real);
      Some(Round2(meters * FeetPerMeter))
    else None
  }

  // ---- test.py --------------------------------------------------------------

  const RoiFocalLength: real := 250.0
  const KnownObjectWidth: real := 1.7

  /** `estimate_distance(bbox_width)`: the distance in meters rounded to two
      decimals, or `None` when the width is not positive. */
  function WidthDistance(bboxWidth: int): (r: Option<real>)
    ensures r.None? <==> bboxWidth <= 0
    ensures r.Some? ==> r.value >= 0.0
    ensures r.Some? ==> RoundedFrom(r.value, KnownObjectWidth * RoiFocalLength / (bboxWidth as real))
  {
    if bboxWidth > 0 then Some(Round2(KnownObjectWidth * RoiFocalLength / (bboxWidth as real)))
    else None
  }

  // ---- captive_portal/app.py ------------------------------------------------

  /** `estimate_distance(focal_length, real_height, bbox_height)`: -1 for a
      height of exactly zero, the pinhole distance for any other height. */
  function HeightDistance(focalLength: real, realHeight: real, bboxHeight: int): (r: real)
    ensures bboxHeight == 0 ==> r == -1.0
    ensures bboxHeight != 0 ==> r * (bboxHeight as real) == focalLength * realHeight
  {
    if bboxHeight != 0 then (focalLength * realHeight) / (bboxHeight as real) else -1.0
  }

  // ---- comparing the guards -------------------------------------------------

  /** On a non-zero size the unguarded raw distance of test-1 and the
      captive-portal estimate are the same number. */
  lemma PinholeAgreement(size: int, focalLength: real, knownSize: real)
    requires size != 0
    ensures CalculateDistance(size, focalLength, knownSize).0 == HeightDistance(focalLength, knownSize, size)
  {
    var a := CalculateDistance(size, focalLength, knownSize).0;
    var b := HeightDistance(focalLength, knownSize, size);
    assert (a - b) * (size as real) == 0.0;
  }

  /** A negative size: the `> 0` guards report an unknown distance while the
      captive portal's `!= 0` guard lets a negative distance through. */
  lemma {:induction false} NegativeSizeSplitsGuards(focalLength: real, knownSize: real, size: int)
    requires focalLength > 0.0 && knownSize > 0.0
    requires size < 0
    ensures LiveDistance(size).None? && WidthDistance(size).None?
    ensures HeightDistance(focalLength, knownSize, size) < 0.0
  {
    var r := HeightDistance(focalLength, knownSize, size);
    assert r * (size as real) == focalLength * knownSize;
    assert focalLength * knownSize > 0.0 by {
      assert focalLength * knownSize > 0.0 * knownSize;
    }
    if r >= 0.0 {
      assert false;
    }
  }

  /** A zero size: every guarded estimator returns its sentinel. */
  lemma ZeroSizeSentinels(focalLength: real, knownSize: real)
    ensures LiveDistance(0) == None && WidthDistance(0) == None
    ensures HeightDistance(focalLength, knownSize, 0) == -1.0
  {
  }

  /** The captive portal's sentinel is ambiguous: the configured constants
      (focal length 700, height 1.5) map a height of -1050 to -1 as well. */
  lemma CaptiveSentinelAmbiguous()
    ensures HeightDistance(700.0, 1.5, -1050) == HeightDistance(700.0, 1.5, 0)
  {
  }

  /** On a positive size every estimator yields a non-negative distance; the
      rounded ones stay within half a hundredth of the pinhole value. */
  lemma PositiveSizeAgreement(size: int)
    requires size > 0
    ensures WidthDistance(size).Some? && LiveDistance(size).Some?
    ensures HeightDistance(RoiFocalLength, KnownObjectWidth, size) >= 0.0
    ensures RoundedFrom(WidthDistance(size).value, HeightDistance(RoiFocalLength, KnownObjectWidth, size))
  {
    var h := HeightDistance(RoiFocalLength, KnownObjectWidth, size);
    assert h * (size as real) == KnownObjectWidth * RoiFocalLength;
    assert h == KnownObjectWidth * RoiFocalLength / (size as real);
  }
}
