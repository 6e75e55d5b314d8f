/** `update_combined_data` and the `/data` fallback of test-1/test.py: the
    closest distance per camera (0 when the camera saw nothing) and the total
    distance that adds the fixed separation of the two cameras. */
module Aggregator {
  import opened Common
  import opened Detections
  import Json

  /** Distance between the two cameras, in meters. */
  const CameraDistance: real := 1.0

  /** The combined record written to the combined-detections file. */
  datatype Combined = Combined(
    cam1: seq<Detection>,
    cam2: seq<Detection>,
    closestObstacle: real,
    closestVehicle: real,
    cameraDistance: real,
    total: real,
    timestamp: real)

  /** `c` is the smallest adjusted distance in `ds`, or 0 when `ds` is empty. */
  predicate IsClosest(ds: seq<Detection>, c: real)
  {
    if |ds| == 0 then c == 0.0
    else
      && (exists i :: 0 <= i < |ds| && ds[i].adjustedDistance == c)
      && (forall i :: 0 <= i < |ds| ==> c <= ds[i].adjustedDistance)
  }

  /** At most one number is the closest distance of a detection set. */
  lemma ClosestIsUnique(ds: seq<Detection>, a: real, b: real)
    requires IsClosest(ds, a) && IsClosest(ds, b)
    ensures a == b
  {
    if |ds| > 0 {
      var i :| 0 <= i < |ds| && ds[i].adjustedDistance == a;
      var j :| 0 <= j < |ds| && ds[j].adjustedDistance == b;
      assert a <= ds[j].adjustedDistance && b <= ds[i].adjustedDistance;
    }
  }

  /** The running minimum of the loop in `update_combined_data`, scanning
      left to right; `None` stands for the initial `float('inf')`. */
  function RunningMin(ds: seq<Detection>): (m: Option<real>)
    ensures m.None? <==> |ds| == 0
    ensures m.Some? ==> IsClosest(ds, m.value)
    decreases |ds|
  {
    if |ds| == 0 then None
    else
      var m := RunningMin(ds[..|ds| - 1]);
      var d := ds[|ds| - 1].adjustedDistance;
      if m.None? || d < m.value then Some(d) else m
  }

  /** The running minimum with "no detection" mapped to 0. */
  function Closest(ds: seq<Detection>): (c: real)
    ensures IsClosest(ds, c)
  {
    match RunningMin(ds)
    case None => 0.0
    case Some(m) => m
  }

  /** The combined record for two detection sets, stamped `now`. */
  function Combine(cam1: seq<Detection>, cam2: seq<Detection>, now: real): (r: Combined)
    ensures r.cam1 == cam1 && r.cam2 == cam2
    ensures IsClosest(cam1, r.closestObstacle) && IsClosest(cam2, r.closestVehicle)
    ensures r.cameraDistance == CameraDistance
    ensures r.total == r.closestObstacle + r.closestVehicle + r.cameraDistance
    ensures r.timestamp == now
  {
    var obstacle := Closest(cam1);
    var vehicle := Closest(cam2);
    Combined(cam1, cam2, obstacle, vehicle, CameraDistance, obstacle + vehicle + CameraDistance, now)
  }

  /** How `update_combined_data` reads a camera file: a missing file is an
      empty set, a corrupt one raises (`None`). */
  function ReadDetections(f: FileState<seq<Detection>>): (r: Option<seq<Detection>>)
    ensures r.None? <==> f.Corrupt?
    ensures f.Missing? ==> r == Some([])
    ensures f.Present? ==> r == Some(f.content)
  {
    match f
    case Missing => Some([])
    case Corrupt => None
    case Present(ds) => Some(ds)
  }

  /** One run of `update_combined_data`: the new state of the combined file.
      An unreadable camera file raises inside the `try`, which is caught and
      logged, so the combined file keeps its previous state. */
  function UpdateCombined(f1: FileState<seq<Detection>>, f2: FileState<seq<Detection>>,
                          previous: FileState<Combined>, now: real): (r: FileState<Combined>)
    ensures f1.Corrupt? || f2.Corrupt? ==> r == previous
    ensures !f1.Corrupt? && !f2.Corrupt? ==>
              && r.Present?
              && r.content.cam1 == ReadDetections(f1).value
              && r.content.cam2 == ReadDetections(f2).value
              && IsClosest(r.content.cam1, r.content.closestObstacle)
              && IsClosest(r.content.cam2, r.content.closestVehicle)
              && r.content.cameraDistance == CameraDistance
              && r.content.total == r.content.closestObstacle + r.content.closestVehicle + CameraDistance
              && r.content.timestamp == now
    ensures !f1.Corrupt? && !f2.Corrupt? ==>
              r == Present(Combine(ReadDetections(f1).value, ReadDetections(f2).value, now))
  {
    match (ReadDetections(f1), ReadDetections(f2))
    case (Some(cam1), Some(cam2)) => Present(Combine(cam1, cam2, now))
    case _ => previous
  }

  /** The record `/data` serves before any combined file exists. */
  function DefaultRecord(now: real): (r: Combined)
    ensures r.cam1 == [] && r.cam2 == []
    ensures IsClosest(r.cam1, r.closestObstacle) && IsClosest(r.cam2, r.closestVehicle)
    ensures r.cameraDistance == CameraDistance
    ensures r.total == r.closestObstacle + r.closestVehicle + r.cameraDistance
    ensures r.timestamp == now
  {
    Combined([], [], 0.0, 0.0, CameraDistance, CameraDistance, now)
  }

  /** `/data` of the publisher: the combined file as stored, or the default
      record when there is none yet; a corrupt file makes the handler raise
      (`None`, an HTTP 500). */
  function GetData(file: FileState<Combined>, now: real): (r: Option<Combined>)
    ensures r.None? <==> file.Corrupt?
    ensures file.Present? ==> r == Some(file.content)
    ensures file.Missing? ==> r.Some? && r.value.total == r.value.cameraDistance == CameraDistance
    ensures file.Missing? ==> r.Some? && r.value.cam1 == [] && r.value.cam2 == []
    ensures file.Missing? ==> r == Some(DefaultRecord(now))
  {
    match file
    case Missing => Some(DefaultRecord(now))
    case Corrupt => None
    case Present(c) => Some(c)
  }

  /** The fallback record is exactly what aggregating two empty cameras gives. */
  lemma FallbackIsEmptyAggregate(now: real)
    ensures DefaultRecord(now) == Combine([], [], now)
  {
  }

  /** An empty camera contributes nothing but the separation constant. */
  lemma EmptyCameraDefaultsToZero(cam1: seq<Detection>, now: real)
    ensures Combine(cam1, [], now).closestVehicle == 0.0
    ensures Combine(cam1, [], now).total == Closest(cam1) + CameraDistance
    ensures Combine([], cam1, now).closestObstacle == 0.0
    ensures Combine([], cam1, now).total == Closest(cam1) + CameraDistance
  {
  }

  /** Aggregating the same inputs twice gives the same record up to its
      timestamp. */
  lemma AggregationIsIdempotent(cam1: seq<Detection>, cam2: seq<Detection>, t1: real, t2: real)
    ensures Combine(cam1, cam2, t1).(timestamp := t2) == Combine(cam1, cam2, t2)
  {
  }

  /** The total never exceeds the adjusted distances of any pair of
      detections, one per camera, plus the separation. */
  lemma TotalIsAtMostAnyPair(cam1: seq<Detection>, cam2: seq<Detection>, now: real, i: int, j: int)
    requires 0 <= i < |cam1| && 0 <= j < |cam2|
    ensures Combine(cam1, cam2, now).total
            <= cam1[i].adjustedDistance + cam2[j].adjustedDistance + CameraDistance
  {
  }

  /** With non-negative distances the total is at least the separation. */
  lemma TotalAtLeastSeparation(cam1: seq<Detection>, cam2: seq<Detection>, now: real)
    requires forall i :: 0 <= i < |cam1| ==> cam1[i].adjustedDistance >= 0.0
    requires forall i :: 0 <= i < |cam2| ==> cam2[i].adjustedDistance >= 0.0
    ensures Combine(cam1, cam2, now).total >= CameraDistance
  {
    var r := Combine(cam1, cam2, now);
    if |cam1| > 0 {
      var i :| 0 <= i < |cam1| && cam1[i].adjustedDistance == r.closestObstacle;
    }
    if |cam2| > 0 {
      var j :| 0 <= j < |cam2| && cam2[j].adjustedDistance == r.closestVehicle;
    }
  }

  /** One person 2.0 m away on CAM1 and nothing on CAM2 gives closest
      distances 2.0 and 0 and a total of 3.0. */
  lemma PersonOnlyScenario(person: Detection, now: real)
    requires person.adjustedDistance == 2.0
    ensures Combine([person], [], now).closestObstacle == 2.0
    ensures Combine([person], [], now).closestVehicle == 0.0
    ensures Combine([person], [], now).total == 3.0
  {
  }

  // ---- JSON form of the record --------------------------------------------

  const KeyCam1: string := "cam1_detections"
  const KeyCam2: string := "cam2_detections"
  const KeyClosestObstacle: string := "closest_obstacle_distance"
  const KeyClosestVehicle: string := "closest_vehicle_distance"
  const KeyCameraDistance: string := "camera_distance"
  const KeyTotal: string := "total_distance"
  const KeyTimestamp: string := "timestamp"

  function EncodeBox(b: Box): Json.Value
  {
    Json.Arr([Json.Num(b.x1 as real), Json.Num(b.y1 as real), Json.Num(b.x2 as real), Json.Num(b.y2 as real)])
  }

  function EncodeDetection(d: Detection): Json.Value
  {
    Json.Obj(map[
      "class" := Json.Str(d.className),
      "confidence" := Json.Num(d.confidence),
      "original_distance" := Json.Num(d.originalDistance),
      "adjusted_distance" := Json.Num(d.adjustedDistance),
      "bbox" := EncodeBox(d.bbox),
      "timestamp" := Json.Num(d.timestamp)])
  }

  function EncodeDetections(ds: seq<Detection>): Json.Value
  {
    Json.Arr(seq(|ds|, i requires 0 <= i < |ds| => EncodeDetection(ds[i])))
  }

  /** The JSON object the combined record is stored and served as. */
  function Encode(c: Combined): (o: Json.Object)
    ensures o.Keys == {KeyCam1, KeyCam2, KeyClosestObstacle, KeyClosestVehicle,
                       KeyCameraDistance, KeyTotal, KeyTimestamp}
  {
    map[
      KeyCam1 := EncodeDetections(c.cam1),
      KeyCam2 := EncodeDetections(c.cam2),
      KeyClosestObstacle := Json.Num(c.closestObstacle),
      KeyClosestVehicle := Json.Num(c.closestVehicle),
      KeyCameraDistance := Json.Num(c.cameraDistance),
      KeyTotal := Json.Num(c.total),
      KeyTimestamp := Json.Num(c.timestamp)]
  }

  // ---- reading the record back ---------------------------------------------

  /** A JSON number read back as a float. */
  function NumOf(v: Json.Value): (r: Option<real>)
    ensures r.Some? <==> v.Num?
    ensures r.Some? ==> v == Json.Num(r.value)
  {
    if v.Num? then Some(v.n) else None
  }

  /** A JSON number read back as an int: only an integral number is one. */
  function IntOf(v: Json.Value): (r: Option<int>)
    ensures r.Some? ==> v == Json.Num(r.value as real)
  {
    if v.Num? && v.n.Floor as real == v.n then Some(v.n.Floor) else None
  }

  /** The four corners of a stored box. */
  function DecodeBox(v: Json.Value): (r: Option<Box>)
    ensures r.Some? ==> EncodeBox(r.value) == v
  {
    if v.Arr? && |v.items| == 4 then
      match (IntOf(v.items[0]), IntOf(v.items[1]), IntOf(v.items[2]), IntOf(v.items[3]))
      case (Some(x1), Some(y1), Some(x2), Some(y2)) => Some(Box(x1, y1, x2, y2))
      case _ => None
    else None
  }

  const DetectionKeys: set<string> :=
    {"class", "confidence", "original_distance", "adjusted_distance", "bbox", "timestamp"}

  /** One stored detection: an object with the six fields of its record,
      further fields ignored. */
  function DecodeDetection(v: Json.Value): (r: Option<Detection>)
    ensures r.Some? ==> v.Obj? && DetectionKeys <= v.fields.Keys
  {
    if v.Obj? && DetectionKeys <= v.fields.Keys then
      var f := v.fields;
      match (f["class"], NumOf(f["confidence"]), NumOf(f["original_distance"]),
             NumOf(f["adjusted_distance"]), DecodeBox(f["bbox"]), NumOf(f["timestamp"]))
      case (Str(name), Some(conf), Some(original), Some(adjusted), Some(b), Some(t)) =>
        Some(Detection(name, conf, original, adjusted, b, t))
      case _ => None
    else None
  }

  /** A stored list of detections: every element must decode. */
  function DecodeDetections(items: seq<Json.Value>): (r: Option<seq<Detection>>)
    ensures r.Some? ==> |r.value| == |items|
  {
    if |items| == 0 then Some([])
    else
      match (DecodeDetection(items[0]), DecodeDetections(items[1..]))
      case (Some(d), Some(ds)) => Some([d] + ds)
      case _ => None
  }

  const RecordKeys: set<string> :=
    {KeyCam1, KeyCam2, KeyClosestObstacle, KeyClosestVehicle, KeyCameraDistance, KeyTotal, KeyTimestamp}

  /** The combined record read back from its JSON object. */
  function Decode(o: Json.Object): (r: Option<Combined>)
    ensures r.Some? ==> RecordKeys <= o.Keys
  {
    if RecordKeys <= o.Keys && o[KeyCam1].Arr? && o[KeyCam2].Arr? then
      match (DecodeDetections(o[KeyCam1].items), DecodeDetections(o[KeyCam2].items),
             NumOf(o[KeyClosestObstacle]), NumOf(o[KeyClosestVehicle]), NumOf(o[KeyCameraDistance]),
             NumOf(o[KeyTotal]), NumOf(o[KeyTimestamp]))
      case (Some(cam1), Some(cam2), Some(obstacle), Some(vehicle), Some(separation), Some(total), Some(t)) =>
        Some(Combined(cam1, cam2, obstacle, vehicle, separation, total, t))
      case _ => None
    else None
  }

  /** A stored box reads back as itself. */
  lemma BoxRoundTrip(b: Box)
    ensures DecodeBox(EncodeBox(b)) == Some(b)
  {
    var v := EncodeBox(b);
    assert v.items[0] == Json.Num(b.x1 as real) && v.items[1] == Json.Num(b.y1 as real);
    assert v.items[2] == Json.Num(b.x2 as real) && v.items[3] == Json.Num(b.y2 as real);
  }

  /** A stored detection reads back as itself. */
  lemma DetectionRoundTrip(d: Detection)
    ensures DecodeDetection(EncodeDetection(d)) == Some(d)
  {
    BoxRoundTrip(d.bbox);
  }

  /** A stored list of detections reads back as itself, in order. */
  lemma {:induction false} DetectionsRoundTrip(ds: seq<Detection>)
    ensures DecodeDetections(EncodeDetections(ds).items) == Some(ds)
    decreases |ds|
  {
    var items := EncodeDetections(ds).items;
    if |ds| > 0 {
      assert items[1..] == EncodeDetections(ds[1..]).items;
      DetectionRoundTrip(ds[0]);
      DetectionsRoundTrip(ds[1..]);
      assert [ds[0]] + ds[1..] == ds;
    }
  }

  /** The combined record survives `json.dump` and `json.load`: reading
      back its JSON object gives the same record. */
  lemma RecordRoundTrip(c: Combined)
    ensures Decode(Encode(c)) == Some(c)
  {
    var o := Encode(c);
    assert o[KeyCam1] == EncodeDetections(c.cam1) && o[KeyCam2] == EncodeDetections(c.cam2);
    DetectionsRoundTrip(c.cam1);
    DetectionsRoundTrip(c.cam2);
  }
}
