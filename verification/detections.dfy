/** The per-frame logic of `process_frames` in test-1/test.py: the class
    allow-list of each camera, the reference width and focal length it picks,
    and the detection record it builds for every kept box. */
module Detections {
  import opened Common
  import opened Estimators

  /** A bounding box in pixel coordinates, corners (x1, y1) and (x2, y2). */
  datatype Box = Box(x1: int, y1: int, x2: int, y2: int)

  /** One box as the detector reports it: class id, confidence, corners. */
  datatype RawBox = RawBox(cls: int, conf: real, box: Box)

  /** One stored detection, as written to the camera's JSON file. */
  datatype Detection = Detection(
    className: string,
    confidence: real,
    originalDistance: real,
    adjustedDistance: real,
    bbox: Box,
    timestamp: real)

  /** CAM1 watches for obstacles, CAM2 for vehicles. */
  datatype Camera = Cam1 | Cam2

  const ObstacleClasses: seq<int> := [0, 1, 2, 3, 5, 7]
  const VehicleClasses: seq<int> := [2, 3, 5, 7]
  const FocalLengthCam1: real := 100.0
  const FocalLengthCam2: real := 100.0
  const KnownWidthPerson: real := 0.6
  const KnownWidthVehicle: real := 1.5
  /** COCO class id of "person". */
  const PersonClass: int := 0

  function Width(b: Box): int
  {
    b.x2 - b.x1
  }

  /** The allow-list test of `process_frames`. */
  predicate Allowed(cam: Camera, cls: int)
  {
    if cam == Cam1 then cls in ObstacleClasses else cls in VehicleClasses
  }

  /** Every vehicle class is also an obstacle class, but not conversely. */
  lemma VehicleClassesAreObstacles()
    ensures forall c :: Allowed(Cam2, c) ==> Allowed(Cam1, c)
    ensures Allowed(Cam1, PersonClass) && !Allowed(Cam2, PersonClass)
  {
  }

  function ReferenceWidth(cam: Camera, cls: int): real
  {
    if cam == Cam1 && cls == PersonClass then KnownWidthPerson else KnownWidthVehicle
  }

  function FocalLength(cam: Camera): real
  {
    if cam == Cam1 then FocalLengthCam1 else FocalLengthCam2
  }

  /** The boxes `process_frames` keeps, in detector order. */
  function Kept(cam: Camera, raw: seq<RawBox>): (r: seq<RawBox>)
    ensures |r| <= |raw|
    ensures forall b :: b in r ==> b in raw && Allowed(cam, b.cls)
    ensures forall b :: b in raw && Allowed(cam, b.cls) ==> b in r
  {
    if |raw| == 0 then []
    else (if Allowed(cam, raw[0].cls) then [raw[0]] else []) + Kept(cam, raw[1..])
  }

  /** `Kept` is the list comprehension's filter: a single box stays exactly
      when its class is allowed, and filtering a concatenation filters each
      part in place, so the kept boxes keep detector order. */
  lemma {:induction false} KeptIsOrderedFilter(cam: Camera, x: RawBox, a: seq<RawBox>, b: seq<RawBox>)
    ensures Kept(cam, [x]) == (if Allowed(cam, x.cls) then [x] else [])
    ensures Kept(cam, a + b) == Kept(cam, a) + Kept(cam, b)
    decreases |a|
  {
    assert [x][1..] == [];
    if |a| == 0 {
      assert a + b == b;
    } else {
      var head := if Allowed(cam, a[0].cls) then [a[0]] else [];
      calc {
        Kept(cam, a + b);
        { assert (a + b)[0] == a[0] && (a + b)[1..] == a[1..] + b; }
        head + Kept(cam, a[1..] + b);
        { KeptIsOrderedFilter(cam, x, a[1..], b); }
        head + (Kept(cam, a[1..]) + Kept(cam, b));
        (head + Kept(cam, a[1..])) + Kept(cam, b);
        Kept(cam, a) + Kept(cam, b);
      }
    }
  }

  /** No kept box has zero width, so no division by zero happens. */
  predicate Measurable(boxes: seq<RawBox>)
  {
    forall i :: 0 <= i < |boxes| ==> Width(boxes[i].box) != 0
  }

  /** `d` is the record `process_frames` stores for the box `b` seen by
      camera `cam` at time `now`, with class names looked up in `names`. */
  predicate Describes(cam: Camera, d: Detection, b: RawBox, names: int -> string, now: real)
  {
    && d.className == names(b.cls)
    && d.confidence == b.conf
    && d.bbox == b.box
    && d.timestamp == now
    && d.originalDistance * (Width(b.box) as real) == ReferenceWidth(cam, b.cls) * FocalLength(cam)
    && d.adjustedDistance == d.originalDistance + CalibrationOffset
  }

  function Record(cam: Camera, b: RawBox, names: int -> string, now: real): (d: Detection)
    requires Width(b.box) != 0
    ensures Describes(cam, d, b, names, now)
  {
    var (original, adjusted) := CalculateDistance(Width(b.box), FocalLength(cam), ReferenceWidth(cam, b.cls));
    Detection(names(b.cls), b.conf, original, adjusted, b.box, now)
  }

  /** One record per box, in order. */
  function Records(cam: Camera, boxes: seq<RawBox>, names: int -> string, now: real): (ds: seq<Detection>)
    requires Measurable(boxes)
    ensures |ds| == |boxes|
    ensures forall i :: 0 <= i < |ds| ==> Describes(cam, ds[i], boxes[i], names, now)
  {
    if |boxes| == 0 then []
    else [Record(cam, boxes[0], names, now)] + Records(cam, boxes[1..], names, now)
  }

  /** One pass of the detection loop over the detector's boxes. A kept box of
      zero width makes the division raise, which ends the worker thread
      before the camera file is written; nothing drawn or collected before it
      survives, so the outcome is `None` whenever such a box exists.
      Otherwise there is one record per kept box, in detector order. */
  function ProcessFrame(cam: Camera, raw: seq<RawBox>, names: int -> string, now: real): (r: Option<seq<Detection>>)
    ensures r.Some? <==> Measurable(Kept(cam, raw))
    ensures r.Some? ==> |r.value| == |Kept(cam, raw)|
    ensures r.Some? ==> forall i :: 0 <= i < |r.value| ==> Describes(cam, r.value[i], Kept(cam, raw)[i], names, now)
  {
    var kept := Kept(cam, raw);
    if Measurable(kept) then Some(Records(cam, kept, names, now)) else None
  }

  /** The reference widths and focal lengths in use: CAM1 takes 0.6 m for a
      person and 1.5 m for anything else, CAM2 always 1.5 m, both with a
      focal length of 100 pixels. */
  lemma DistancesFollowConfiguration(cam: Camera, raw: seq<RawBox>, names: int -> string, now: real, i: int)
    requires ProcessFrame(cam, raw, names, now).Some?
    requires 0 <= i < |ProcessFrame(cam, raw, names, now).value|
    ensures Allowed(cam, Kept(cam, raw)[i].cls)
    ensures ConfiguredRecord(cam, ProcessFrame(cam, raw, names, now).value[i], Kept(cam, raw)[i])
  {
    var kept := Kept(cam, raw);
    var d := ProcessFrame(cam, raw, names, now).value[i];
    assert kept[i] in kept;
    assert Describes(cam, d, kept[i], names, now);
  }

  /** The configured constants written out. */
  predicate ConfiguredRecord(cam: Camera, d: Detection, b: RawBox)
  {
    && d.originalDistance * (Width(b.box) as real) == (if cam == Cam1 && b.cls == 0 then 0.6 else 1.5) * 100.0
    && d.adjustedDistance == d.originalDistance + 0.3
  }
}
