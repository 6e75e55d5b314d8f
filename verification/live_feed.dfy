/** The annotation step of `generate_feed` in websoc/server.py: only boxes
    whose class name is in the camera's list are annotated, their distance
    comes from the height `y2 - y1`, and the caption carries the distance
    only when it is truthy. */
module LiveFeed {
  import opened Common
  import opened Estimators
  import opened Detections
  import opened RoiWarning

  /** The list of the first stream (`/video_feed/cam1`). */
  const Vehicles: seq<string> := ["car", "truck", "bus", "motorbike"]
  /** The list of the second stream (`/video_feed/cam2`). */
  const AnimalsHumans: seq<string> := ["person", "dog", "cat", "cow", "horse", "sheep"]

  /** The text drawn above a box: the class name alone, or with the
      distance in feet. */
  datatype Caption = Bare(name: string) | WithDistance(name: string, feet: real)

  datatype Annotation = Annotation(box: Box, caption: Caption)

  function Height(b: Box): int
  {
    b.y2 - b.y1
  }

  /** `f"{label}: {distance} ft" if distance else label`: both `None` and
      `0.0` are falsy. */
  function CaptionFor(name: string, distance: Option<real>): (c: Caption)
    ensures c.name == name
    ensures c.WithDistance? <==> distance.Some? && distance.value != 0.0
    ensures c.WithDistance? ==> c.feet == distance.value
  {
    if distance.Some? && distance.value != 0.0 then WithDistance(name, distance.value) else Bare(name)
  }

  /** The boxes whose class name is in `classes`, in detector order. */
  function Selected(boxes: seq<LabeledBox>, classes: seq<string>): (r: seq<LabeledBox>)
    ensures |r| <= |boxes|
    ensures forall b :: b in r ==> b in boxes && b.className in classes
    ensures forall b :: b in boxes && b.className in classes ==> b in r
  {
    if |boxes| == 0 then []
    else (if boxes[0].className in classes then [boxes[0]] else []) + Selected(boxes[1..], classes)
  }

  /** `Selected` is the loop's filter: a single box is drawn exactly when
      its class is listed, and selecting from a concatenation selects from
      each part in place, so drawn boxes keep detector order. */
  lemma {:induction false} SelectedIsOrderedFilter(x: LabeledBox, a: seq<LabeledBox>, b: seq<LabeledBox>, classes: seq<string>)
    ensures Selected([x], classes) == (if x.className in classes then [x] else [])
    ensures Selected(a + b, classes) == Selected(a, classes) + Selected(b, classes)
    decreases |a|
  {
    assert [x][1..] == [];
    if |a| == 0 {
      assert a + b == b;
    } else {
      var head := if a[0].className in classes then [a[0]] else [];
      calc {
        Selected(a + b, classes);
        { assert (a + b)[0] == a[0] && (a + b)[1..] == a[1..] + b; }
        head + Selected(a[1..] + b, classes);
        { SelectedIsOrderedFilter(x, a[1..], b, classes); }
        head + (Selected(a[1..], classes) + Selected(b, classes));
        (head + Selected(a[1..], classes)) + Selected(b, classes);
        Selected(a, classes) + Selected(b, classes);
      }
    }
  }

  /** `a` is what `generate_feed` draws for `b`. */
  predicate Annotates(a: Annotation, b: LabeledBox)
  {
    a.box == b.box && a.caption == CaptionFor(b.className, LiveDistance(Height(b.box)))
  }

  function Annotations(boxes: seq<LabeledBox>): (r: seq<Annotation>)
    ensures |r| == |boxes|
    ensures forall i :: 0 <= i < |r| ==> Annotates(r[i], boxes[i])
  {
    if |boxes| == 0 then []
    else [Annotation(boxes[0].box, CaptionFor(boxes[0].className, LiveDistance(Height(boxes[0].box))))]
         + Annotations(boxes[1..])
  }

  /** The annotations drawn on one frame for a camera watching `classes`:
      one per selected box, in detector order, each captioned with a watched
      class name. */
  function AnnotateFrame(boxes: seq<LabeledBox>, classes: seq<string>): (r: seq<Annotation>)
    ensures |r| == |Selected(boxes, classes)|
    ensures forall i :: 0 <= i < |r| ==> Annotates(r[i], Selected(boxes, classes)[i])
    ensures forall i :: 0 <= i < |r| ==> r[i].caption.name in classes
  {
    var selected := Selected(boxes, classes);
    var r := Annotations(selected);
    assert forall i :: 0 <= i < |r| ==> selected[i] in selected && r[i].caption.name == selected[i].className;
    r
  }

  /** A caption shows a distance exactly when the box has a positive height
      and the rounded distance is not 0.0. */
  lemma CaptionShowsDistance(a: Annotation, b: LabeledBox)
    requires Annotates(a, b)
    ensures a.caption.WithDistance? <==> Height(b.box) > 0 && LiveDistance(Height(b.box)).value != 0.0
  {
  }

  /** The two streams watch disjoint lists, so no box is annotated on both. */
  lemma ClassListsDisjoint()
    ensures forall s :: s in Vehicles ==> s !in AnimalsHumans
  {
  }

  /** A box of height at most zero, or one so tall that its distance rounds
      to 0.00 ft, is captioned with its class name alone. */
  lemma BareCaptionCases(name: string, h: int)
    requires h <= 0 || h > 50000
    ensures CaptionFor(name, LiveDistance(h)).Bare?
  {
    if h > 50000 {
      var x := KnownHeightObj * LiveFocalLength / (h as real) * FeetPerMeter;
      assert KnownHeightObj * LiveFocalLength / (h as real) < 0.0015 by {
        assert (h as real) * 0.0015 > 75.0;
      }
      assert x < 0.005;
      assert (x * 100.0 + 0.5).Floor == 0;
    }
  }
}
