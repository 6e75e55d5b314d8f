/** The per-frame warning selection of `generate_frames` in test.py: a box
    raises the accident warning when its label is watched and its centre
    lies in the region of interest; the last such box supplies the distance
    shown with the warning. */
module RoiWarning {
  import opened Common
  import opened Estimators
  import opened Detections

  const MaskRows: nat := 480
  const MaskColumns: nat := 640
  const WatchedLabels: seq<string> := ["person", "dog", "cat", "car", "truck"]

  /** A detected box with its class name. */
  datatype LabeledBox = LabeledBox(className: string, box: Box)

  /** What the loop has gathered so far: `accident_warning` and
      `detected_distance`. */
  datatype Scan = Scan(warning: bool, distance: Option<real>)

  /** The integer centre `((x1 + x2) // 2, (y1 + y2) // 2)`; Python's `//`
      rounds toward negative infinity, as Dafny's `/` does for a positive
      divisor. */
  function Center(b: Box): (c: (int, int))
    ensures 2 * c.0 <= b.x1 + b.x2 < 2 * c.0 + 2
    ensures 2 * c.1 <= b.y1 + b.y2 < 2 * c.1 + 2
  {
    ((b.x1 + b.x2) / 2, (b.y1 + b.y2) / 2)
  }

  /** NumPy indexing along an axis of length `n`: an index in [-n, n) is
      valid, a negative one counting from the end; anything else raises
      `IndexError`. */
  function AxisIndex(i: int, n: nat): (r: Option<int>)
    ensures r.Some? <==> -(n as int) <= i < n
    ensures r.Some? ==> 0 <= r.value < n && (r.value == i || r.value == i + n)
  {
    if 0 <= i < n then Some(i) else if -(n as int) <= i < 0 then Some(i + n) else None
  }

  /** `is_inside_roi(x, y)`: the filled region-of-interest mask read at row
      `y`, column `x`. The rasterised trapezium is left abstract as `mask`;
      `None` is the `IndexError` of a point off the 480x640 mask. */
  function InsideRoi(mask: (int, int) -> bool, x: int, y: int): (r: Option<bool>)
    ensures r.Some? <==> -480 <= y < 480 && -640 <= x < 640
    ensures 0 <= y < 480 && 0 <= x < 640 ==> r == Some(mask(y, x))
  {
    match (AxisIndex(y, MaskRows), AxisIndex(x, MaskColumns))
    case (Some(row), Some(column)) => Some(mask(row, column))
    case _ => None
  }

  /** The box's class name is one of the labels the warning watches. */
  predicate Watched(b: LabeledBox)
  {
    b.className in WatchedLabels
  }

  /** How one box fares in the loop body: not watched, watched with its
      centre off the mask (the lookup raises), outside the ROI, or inside. */
  datatype Verdict = Ignored | Raises | Outside | Inside

  function Classify(mask: (int, int) -> bool, b: LabeledBox): (v: Verdict)
    ensures v.Ignored? <==> !Watched(b)
    ensures v.Raises? <==> Watched(b) && InsideRoi(mask, Center(b.box).0, Center(b.box).1).None?
    ensures v.Inside? <==> Watched(b) && InsideRoi(mask, Center(b.box).0, Center(b.box).1) == Some(true)
  {
    if !Watched(b) then Ignored
    else match InsideRoi(mask, Center(b.box).0, Center(b.box).1)
      case None => Raises
      case Some(inside) => if inside then Inside else Outside
  }

  /** A watched box whose centre lies off the mask: looking it up raises. */
  predicate OffMask(mask: (int, int) -> bool, b: LabeledBox)
  {
    Classify(mask, b) == Raises
  }

  /** The warning condition: watched label and centre inside the ROI. */
  predicate Qualifies(mask: (int, int) -> bool, b: LabeledBox)
  {
    Classify(mask, b) == Inside
  }

  /** A box that ends the loop as written: its centre is off the mask, or
      it qualifies with no distance, so formatting the distance raises. */
  predicate CrashesAsWritten(mask: (int, int) -> bool, b: LabeledBox)
  {
    OffMask(mask, b) || (Qualifies(mask, b) && WidthDistance(Width(b.box)).None?)
  }

  /** `k` is the last qualifying box. */
  predicate IsLastQualifying(mask: (int, int) -> bool, boxes: seq<LabeledBox>, k: int)
  {
    && 0 <= k < |boxes|
    && Qualifies(mask, boxes[k])
    && forall j :: k < j < |boxes| ==> !Qualifies(mask, boxes[j])
  }

  /** The loop of `generate_frames` AS WRITTEN: a qualifying box whose
      distance is `None` (width <= 0) reaches `f"Dist: {distance:.2f}m"`,
      which raises `TypeError` and ends the stream (`None`). */
  function ScanFrameAsWritten(mask: (int, int) -> bool, boxes: seq<LabeledBox>): (r: Option<Scan>)
    ensures r.None? <==> exists i :: 0 <= i < |boxes| && CrashesAsWritten(mask, boxes[i])
    ensures r.Some? ==> (r.value.warning <==> exists i :: 0 <= i < |boxes| && Qualifies(mask, boxes[i]))
    ensures r.Some? && r.value.warning ==> r.value.distance.Some?
    ensures r.Some? && !r.value.warning ==> r.value.distance.None?
    decreases |boxes|
  {
    if |boxes| == 0 then Some(Scan(false, None))
    else
      var n := |boxes| - 1;
      var b := boxes[n];
      var prefix := boxes[..n];
      assert forall i :: 0 <= i < n ==> boxes[i] == prefix[i];
      match ScanFrameAsWritten(mask, prefix)
      case None => None
      case Some(acc) =>
        match Classify(mask, b)
        case Ignored => Some(acc)
        case Raises => None
        case Outside => Some(acc)
        case Inside =>
          match WidthDistance(Width(b.box))
          case None => None
          case Some(d) => Some(Scan(true, Some(d)))
  }

  /** The trapezium `ROI_POINTS` with corners (100, 300), (500, 300),
      (600, 480) and (50, 480): rows 300 to 480, between the left edge
      from (100, 300) to (50, 480) and the right edge from (500, 300) to
      (600, 480). */
  predicate InTrapezium(x: int, y: int)
  {
    && 300 <= y <= 480
    && 180 * x >= 180 * 100 - 50 * (y - 300)
    && 180 * x <= 180 * 500 + 100 * (y - 300)
  }

  /** A person whose box has zero width, centred at (320, 400) inside the
      trapezium, on any mask that covers the trapezium: the loop as written
      ends the stream, the corrected loop raises the warning with an
      unknown distance and suppresses the overlay. */
  lemma ZeroWidthPersonEndsStream(mask: (int, int) -> bool)
    requires forall row, column :: InTrapezium(column, row) ==> mask(row, column)
    ensures var boxes := [LabeledBox("person", Box(320, 350, 320, 450))];
            && ScanFrameAsWritten(mask, boxes).None?
            && ScanFrame(mask, boxes) == Some(Scan(true, None))
            && !ShowsWarning(ScanFrame(mask, boxes).value)
  {
    var boxes := [LabeledBox("person", Box(320, 350, 320, 450))];
    assert Center(boxes[0].box) == (320, 400);
    assert InTrapezium(320, 400);
    assert boxes[..0] == [];
    assert Watched(boxes[0]);
  }

  /** The loop of `generate_frames` with the distance text drawn only when
      the distance is known, as the truthiness test of the overlay expects. */
  function ScanFrame(mask: (int, int) -> bool, boxes: seq<LabeledBox>): (r: Option<Scan>)
    ensures r.None? <==> exists i :: 0 <= i < |boxes| && OffMask(mask, boxes[i])
    ensures r.Some? ==> (r.value.warning <==> exists i :: 0 <= i < |boxes| && Qualifies(mask, boxes[i]))
    ensures r.Some? && !r.value.warning ==> r.value.distance.None?
    decreases |boxes|
  {
    if |boxes| == 0 then Some(Scan(false, None))
    else
      var n := |boxes| - 1;
      var b := boxes[n];
      var prefix := boxes[..n];
      assert forall i :: 0 <= i < n ==> boxes[i] == prefix[i];
      match ScanFrame(mask, prefix)
      case None => None
      case Some(acc) =>
        match Classify(mask, b)
        case Ignored => Some(acc)
        case Raises => None
        case Outside => Some(acc)
        case Inside => Some(Scan(true, WidthDistance(Width(b.box))))
  }

  /** The distance reported with a warning is the estimate of the last
      qualifying box in detector order. */
  lemma {:induction false} DistanceFromLastQualifying(mask: (int, int) -> bool, boxes: seq<LabeledBox>)
    requires ScanFrame(mask, boxes).Some? && ScanFrame(mask, boxes).value.warning
    ensures exists k :: IsLastQualifying(mask, boxes, k)
                        && ScanFrame(mask, boxes).value.distance == WidthDistance(Width(boxes[k].box))
    decreases |boxes|
  {
    var n := |boxes| - 1;
    var prefix := boxes[..n];
    ScanStep(mask, boxes);
    if Qualifies(mask, boxes[n]) {
      assert IsLastQualifying(mask, boxes, n);
    } else {
      DistanceFromLastQualifying(mask, prefix);
      var k :| IsLastQualifying(mask, prefix, k)
               && ScanFrame(mask, prefix).value.distance == WidthDistance(Width(prefix[k].box));
      LastQualifyingExtends(mask, boxes, k);
    }
  }

  /** One step of the scan: the last box either qualifies and sets the
      result, or leaves the prefix's result in place. */
  lemma ScanStep(mask: (int, int) -> bool, boxes: seq<LabeledBox>)
    requires |boxes| > 0 && ScanFrame(mask, boxes).Some?
    ensures var n := |boxes| - 1;
            && ScanFrame(mask, boxes[..n]).Some?
            && (Qualifies(mask, boxes[n]) ==>
                  ScanFrame(mask, boxes).value == Scan(true, WidthDistance(Width(boxes[n].box))))
            && (!Qualifies(mask, boxes[n]) ==> ScanFrame(mask, boxes) == ScanFrame(mask, boxes[..n]))
  {
  }

  /** Appending a box that does not qualify keeps the last qualifying box. */
  lemma LastQualifyingExtends(mask: (int, int) -> bool, boxes: seq<LabeledBox>, k: int)
    requires |boxes| > 0 && !Qualifies(mask, boxes[|boxes| - 1])
    requires IsLastQualifying(mask, boxes[..|boxes| - 1], k)
    ensures IsLastQualifying(mask, boxes, k) && boxes[..|boxes| - 1][k] == boxes[k]
  {
    var prefix := boxes[..|boxes| - 1];
    assert forall j :: k < j < |prefix| ==> prefix[j] == boxes[j];
  }

  /** At most one box is the last qualifying one. */
  lemma LastQualifyingIsUnique(mask: (int, int) -> bool, boxes: seq<LabeledBox>, a: int, b: int)
    requires IsLastQualifying(mask, boxes, a) && IsLastQualifying(mask, boxes, b)
    ensures a == b
  {
  }

  /** The overlay condition: a warning and a truthy distance; an
      unknown distance or one that rounded to 0.0 suppresses it. */
  predicate ShowsWarning(s: Scan)
  {
    s.warning && s.distance.Some? && s.distance.value != 0.0
  }

  /** Whenever the loop as written survives the frame, the corrected loop
      gives the same result. */
  lemma {:induction false} CorrectionAgreesWhenNoCrash(mask: (int, int) -> bool, boxes: seq<LabeledBox>)
    requires ScanFrameAsWritten(mask, boxes).Some?
    ensures ScanFrame(mask, boxes) == ScanFrameAsWritten(mask, boxes)
    decreases |boxes|
  {
    if |boxes| > 0 {
      CorrectionAgreesWhenNoCrash(mask, boxes[..|boxes| - 1]);
    }
  }

  /** The overlay shows exactly when some box qualifies and the last
      qualifying box has a known, non-zero rounded distance. */
  lemma OverlayFollowsLastQualifying(mask: (int, int) -> bool, boxes: seq<LabeledBox>, k: int)
    requires ScanFrame(mask, boxes).Some?
    requires IsLastQualifying(mask, boxes, k)
    ensures ShowsWarning(ScanFrame(mask, boxes).value)
            <==> WidthDistance(Width(boxes[k].box)).Some? && WidthDistance(Width(boxes[k].box)).value != 0.0
  {
    var r := ScanFrame(mask, boxes).value;
    DistanceFromLastQualifying(mask, boxes);
    var k' :| IsLastQualifying(mask, boxes, k') && r.distance == WidthDistance(Width(boxes[k'].box));
    LastQualifyingIsUnique(mask, boxes, k, k');
  }
}
