/** The two per-camera threads of test-1/test.py taken one iteration at a
    time: `capture_camera_feed` (read, resize, drop-oldest enqueue, reconnect
    on a failed read) and `process_frames` (pop a frame, detect, write the
    camera file, drop-oldest enqueue of the result, re-aggregate). */
module Pipeline {
  import opened Common
  import opened FrameQueue
  import opened Detections
  import opened Aggregator

  // ---- capture_camera_feed -------------------------------------------------

  /** What one `cap.read()` returned. */
  datatype ReadOutcome<F> = Frame(frame: F) | NoFrame

  /** The capture thread: whether it is still looping, and how many times it
      has reopened the stream. */
  datatype Feed = Feed(running: bool, reconnects: nat)

  /** Start of the thread: a stream that does not open ends it at once;
      there is no retry in that case. */
  function StartFeed(isOpened: bool): (f: Feed)
    ensures f.running <==> isOpened
    ensures f.reconnects == 0
  {
    Feed(isOpened, 0)
  }

  /** One loop iteration. A failed read reopens the stream and leaves the
      queue alone; a frame is resized and put with drop-oldest. */
  function CaptureStep<F>(feed: Feed, q: seq<F>, read: ReadOutcome<F>, resize: F -> F): (r: (Feed, seq<F>))
    requires |q| <= Capacity
    ensures |r.1| <= Capacity
    ensures r.0.running == feed.running
    ensures !feed.running ==> r == (feed, q)
    ensures feed.running && read.NoFrame? ==> r.1 == q && r.0.reconnects == feed.reconnects + 1
    ensures feed.running && read.Frame? ==>
              && r.0.reconnects == feed.reconnects
              && r.1 == Newest(q + [resize(read.frame)], Capacity)
  {
    if !feed.running then (feed, q)
    else match read
      case NoFrame => (feed.(reconnects := feed.reconnects + 1), q)
      case Frame(f) => (feed, Enqueue(q, resize(f)))
  }

  /** A read that fails once and then succeeds costs exactly one reconnect,
      and the next frame read becomes the newest queued frame. */
  lemma ReconnectThenFrame<F>(feed: Feed, q: seq<F>, f: F, resize: F -> F)
    requires feed.running && |q| <= Capacity
    ensures var (feed1, q1) := CaptureStep(feed, q, NoFrame, resize);
            var (feed2, q2) := CaptureStep(feed1, q1, Frame(f), resize);
            && feed2.reconnects == feed.reconnects + 1
            && q2[|q2| - 1] == resize(f)
            && q2 == Newest(q + [resize(f)], Capacity)
  {
  }

  /** The frame one read delivers to the queue, resized: none for a failed
      read. */
  function Received<F>(read: ReadOutcome<F>, resize: F -> F): (r: seq<F>)
    ensures |r| <= 1
  {
    if read.Frame? then [resize(read.frame)] else []
  }

  /** The frames a run of reads delivers, resized, in read order. */
  function Delivered<F>(run: seq<ReadOutcome<F>>, resize: F -> F): (r: seq<F>)
    ensures |r| <= |run|
  {
    if |run| == 0 then [] else Received(run[0], resize) + Delivered(run[1..], resize)
  }

  /** How many reads of a run failed. */
  function Failures<F>(run: seq<ReadOutcome<F>>): (r: nat)
    ensures r <= |run|
  {
    if |run| == 0 then 0 else (if run[0].NoFrame? then 1 else 0) + Failures(run[1..])
  }

  /** The capture thread over a whole run of reads, one `CaptureStep` per
      read. */
  function CaptureRun<F>(feed: Feed, q: seq<F>, run: seq<ReadOutcome<F>>, resize: F -> F): (r: (Feed, seq<F>))
    requires |q| <= Capacity
    ensures |r.1| <= Capacity
    ensures r.0.running == feed.running
    decreases |run|
  {
    if |run| == 0 then (feed, q)
    else
      var step := CaptureStep(feed, q, run[0], resize);
      CaptureRun(step.0, step.1, run[1..], resize)
  }

  /** A stream that did not open ends the thread before its loop: whatever
      the reads would have been, the feed stays stopped, never reconnects,
      and never touches the queue. */
  lemma {:induction false} UnopenedFeedStaysStopped<F>(q: seq<F>, run: seq<ReadOutcome<F>>, resize: F -> F)
    requires |q| <= Capacity
    ensures CaptureRun(StartFeed(false), q, run, resize) == (Feed(false, 0), q)
    decreases |run|
  {
    if |run| > 0 {
      UnopenedFeedStaysStopped(q, run[1..], resize);
    }
  }

  /** One step of an open stream, in terms of what the read delivers. */
  lemma StepReceives<F>(feed: Feed, q: seq<F>, read: ReadOutcome<F>, resize: F -> F)
    requires feed.running && |q| <= Capacity
    ensures CaptureStep(feed, q, read, resize).1 == Newest(q + Received(read, resize), Capacity)
  {
    if read.NoFrame? {
      assert q + Received(read, resize) == q;
    }
  }

  /** An open stream, over any run of reads, reconnects once per failed
      read. */
  lemma {:induction false} CaptureRunReconnects<F>(feed: Feed, q: seq<F>, run: seq<ReadOutcome<F>>, resize: F -> F)
    requires feed.running && |q| <= Capacity
    ensures CaptureRun(feed, q, run, resize).0.reconnects == feed.reconnects + Failures(run)
    decreases |run|
  {
    if |run| > 0 {
      var step := CaptureStep(feed, q, run[0], resize);
      CaptureRunReconnects(step.0, step.1, run[1..], resize);
    }
  }

  /** An open stream, over any run of reads, leaves in the queue the newest
      `Capacity` of the frames it held and the frames delivered, in read
      order. */
  lemma {:induction false} CaptureRunKeepsNewest<F>(feed: Feed, q: seq<F>, run: seq<ReadOutcome<F>>, resize: F -> F)
    requires feed.running && |q| <= Capacity
    ensures CaptureRun(feed, q, run, resize).1 == Newest(q + Delivered(run, resize), Capacity)
    decreases |run|
  {
    if |run| == 0 {
      assert q + Delivered(run, resize) == q;
    } else {
      var step := CaptureStep(feed, q, run[0], resize);
      var head := Received(run[0], resize);
      var tail := Delivered(run[1..], resize);
      calc {
        CaptureRun(feed, q, run, resize).1;
        CaptureRun(step.0, step.1, run[1..], resize).1;
        { CaptureRunKeepsNewest(step.0, step.1, run[1..], resize); }
        Newest(step.1 + tail, Capacity);
        { StepReceives(feed, q, run[0], resize); }
        Newest(Newest(q + head, Capacity) + tail, Capacity);
        { NewestAppend(q + head, tail); }
        Newest((q + head) + tail, Capacity);
        { assert (q + head) + tail == q + (head + tail); }
        Newest(q + Delivered(run, resize), Capacity);
      }
    }
  }

  // ---- process_frames -------------------------------------------------------

  /** The state one camera's worker shares with its capture thread, its
      stream consumers and the aggregator. */
  datatype Station<F> = Station(
    alive: bool,
    frames: seq<F>,
    results: seq<(F, seq<Detection>)>,
    file: FileState<seq<Detection>>)

  /** Both cameras and the combined file. */
  datatype World<F> = World(cam1: Station<F>, cam2: Station<F>, combined: FileState<Combined>)

  predicate Bounded<F>(s: Station<F>)
  {
    |s.frames| <= Capacity && |s.results| <= Capacity
  }

  function StationOf<F>(w: World<F>, cam: Camera): Station<F>
  {
    if cam == Cam1 then w.cam1 else w.cam2
  }

  function Other(cam: Camera): Camera
  {
    if cam == Cam1 then Cam2 else Cam1
  }

  function WithStation<F>(w: World<F>, cam: Camera, s: Station<F>): (r: World<F>)
    ensures StationOf(r, cam) == s
    ensures StationOf(r, Other(cam)) == StationOf(w, Other(cam))
    ensures r.combined == w.combined
  {
    if cam == Cam1 then w.(cam1 := s) else w.(cam2 := s)
  }

  /** What one iteration of `process_frames` does to its own camera. With
      an empty queue it only sleeps. Otherwise it pops the oldest frame and
      runs the detector on it; a zero-width kept box ends the thread; else
      the camera file is overwritten with the new detections and the frame
      and its detections are put on the result queue with drop-oldest. */
  function Cycle<F>(s: Station<F>, cam: Camera, detect: F -> seq<RawBox>,
                    names: int -> string, now: real): (r: Station<F>)
    requires Bounded(s)
    ensures Bounded(r)
    ensures !s.alive || |s.frames| == 0 ==> r == s
    ensures s.alive && |s.frames| > 0 ==>
              var outcome := ProcessFrame(cam, detect(s.frames[0]), names, now);
              && r.frames == s.frames[1..]
              && (r.alive <==> outcome.Some?)
              && (outcome.None? ==> r.file == s.file && r.results == s.results)
              && (outcome.Some? ==>
                    && r.file == Present(outcome.value)
                    && r.results == Newest(s.results + [(s.frames[0], outcome.value)], Capacity))
  {
    if !s.alive || |s.frames| == 0 then s
    else
      var frame := s.frames[0];
      match ProcessFrame(cam, detect(frame), names, now)
      case None => s.(alive := false, frames := s.frames[1..])
      case Some(ds) =>
        s.(frames := s.frames[1..], results := Enqueue(s.results, (frame, ds)), file := Present(ds))
  }

  /** True when the cycle processed a frame to the end. */
  predicate Completed<F>(s: Station<F>, r: Station<F>)
  {
    s.alive && |s.frames| > 0 && r.alive
  }

  /** One iteration of `process_frames` for camera `cam` in the whole
      world: the camera's own cycle, then, when it completed, a run of
      `update_combined_data` over both camera files. */
  function WorkerStep<F>(w: World<F>, cam: Camera, detect: F -> seq<RawBox>,
                         names: int -> string, now: real): (r: World<F>)
    requires Bounded(StationOf(w, cam))
    ensures StationOf(r, cam) == Cycle(StationOf(w, cam), cam, detect, names, now)
    ensures StationOf(r, Other(cam)) == StationOf(w, Other(cam))
    ensures Completed(StationOf(w, cam), StationOf(r, cam)) ==>
              r.combined == UpdateCombined(r.cam1.file, r.cam2.file, w.combined, now)
    ensures !Completed(StationOf(w, cam), StationOf(r, cam)) ==> r.combined == w.combined
  {
    var s := StationOf(w, cam);
    var s' := Cycle(s, cam, detect, names, now);
    var w' := WithStation(w, cam, s');
    if Completed(s, s') then w'.(combined := UpdateCombined(w'.cam1.file, w'.cam2.file, w.combined, now))
    else w'
  }

  /** After a successful cycle of either camera the combined file holds the
      total recomputed from both current camera files, never an increment of
      the previous total. */
  lemma WorkerCycleRecomputesTotal<F>(w: World<F>, cam: Camera, detect: F -> seq<RawBox>,
                                      names: int -> string, now: real)
    requires Bounded(StationOf(w, cam))
    requires StationOf(w, cam).alive && |StationOf(w, cam).frames| > 0
    requires ProcessFrame(cam, detect(StationOf(w, cam).frames[0]), names, now).Some?
    requires !StationOf(w, Other(cam)).file.Corrupt?
    ensures var r := WorkerStep(w, cam, detect, names, now);
            && r.combined.Present?
            && r.combined.content.total
               == Closest(r.combined.content.cam1) + Closest(r.combined.content.cam2) + CameraDistance
            && (cam == Cam1 ==> r.combined.content.cam1 == r.cam1.file.content)
            && (cam == Cam2 ==> r.combined.content.cam2 == r.cam2.file.content)
  {
    var r := WorkerStep(w, cam, detect, names, now);
    var c := r.combined.content;
    ClosestIsUnique(c.cam1, c.closestObstacle, Closest(c.cam1));
    ClosestIsUnique(c.cam2, c.closestVehicle, Closest(c.cam2));
  }
}
