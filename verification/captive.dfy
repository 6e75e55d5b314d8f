/** The detection loop of captive_portal/app.py: every detected box, of any
    class, gets a distance estimate from its height. */
module CaptivePortal {
  import opened Estimators
  import opened Detections
  import opened LiveFeed

  const FocalLength: real := 700.0
  const KnownHeight: real := 1.5

  /** The estimate printed and sent for each box, in detector order. */
  function Estimates(boxes: seq<Box>): (r: seq<real>)
    ensures |r| == |boxes|
    ensures forall i :: 0 <= i < |r| && Height(boxes[i]) == 0 ==> r[i] == -1.0
    ensures forall i :: 0 <= i < |r| && Height(boxes[i]) != 0 ==>
              r[i] * (Height(boxes[i]) as real) == FocalLength * KnownHeight
  {
    seq(|boxes|, i requires 0 <= i < |boxes| => HeightDistance(FocalLength, KnownHeight, Height(boxes[i])))
  }

  /** A box drawn upside down (y2 < y1) gets a negative distance instead of
      the sentinel. */
  lemma InvertedBoxGivesNegativeDistance(boxes: seq<Box>, i: int)
    requires 0 <= i < |boxes| && Height(boxes[i]) < 0
    ensures Estimates(boxes)[i] < 0.0
  {
    NegativeSizeSplitsGuards(FocalLength, KnownHeight, Height(boxes[i]));
  }
}
