# Two-camera distance pipeline and its relays, modelled in Dafny

The system reads two network camera streams, runs an object detector on
each frame, turns bounding boxes into distances with the pinhole relation
(known size × focal length ÷ size in pixels), and fuses the two cameras'
closest distances into a "total distance" record. A publisher serves that
record at `/data`. Two relays poll the publisher and republish its data:
`client.py` republishes the record, and `admin.py` also mirrors evidence
images. Three smaller programs in the repository apply the same distance
rule, each with its own guard.

This project models the decision rules under that plumbing as pure Dafny
functions over immutable values:

- `Estimators` (`estimators.dfy`) holds the four distance estimators side by side. These are
  `calculate_distance` of `test-1/test.py` (no guard, +0.3 offset),
  `calculate_distance` of `websoc/server.py` (`None` when the height is ≤ 0, in feet, rounded),
  `estimate_distance` of `test.py` (`None` when the width is ≤ 0, rounded), and
  `estimate_distance` of `captive_portal/app.py` (-1 when the height is exactly 0). The module's lemmas
  compare the guards.
- `FrameQueue` (`frame_queue.dfy`): the capacity-10 `queue.Queue` with the
  drop-oldest `put` used by all four queues of `test-1/test.py`.
- `Detections` (`detections.dfy`): the class allow-lists of CAM1 and CAM2, the reference width and focal length, and the
  detection record `process_frames` builds for each kept box.
- `Aggregator` (`aggregator.dfy`): `update_combined_data`, the `/data`
  fallback record, and the JSON form of the combined record.
- `Pipeline` (`pipeline.dfy`): one iteration of `capture_camera_feed` and
  one of `process_frames` (pop, detect, write the camera file, enqueue the
  result, re-aggregate), over a world holding both cameras and the combined
  file.
- `Relay`, `ClientRelay`, `AdminRelay` (`relay.dfy`, `client_relay.dfy`,
  `admin_relay.dfy`): each poll iteration is a step from the previous
  relay state and the observed HTTP outcomes to the next state. The modules also model
  the start-up load of the persisted file and the serving handlers: the `/data`
  overlay, and the three-level `/image` fallback.
- `RoiWarning` (`roi_warning.dfy`): the per-frame accident-warning
  selection of `test.py`.
- `LiveFeed` (`live_feed.dfy`): the label filter and caption choice of
  `websoc/server.py`.
- `CaptivePortal` (`captive.dfy`): the per-box estimates of
  `captive_portal/app.py`.
- `Common`, `Json`, `Text` (`common.dfy`, `json.dfy`, `text.dfy`): `Option`, file state, loop-step outcome,
  JSON values, `os.path.basename`, and decimal rendering of ints.

How the model represents the original program:

- A Python exception that ends a thread becomes `Step.Halted(state)`. The
  state is frozen there, and the web handlers keep serving it.
- Every HTTP call becomes an abstract outcome. `Relay.Poll` is a status code with a
  decoded or undecodable body, or a `RequestException`. `AdminRelay.Fetch`
  covers raw image bytes.
- A file becomes a `FileState`: missing, corrupt, or present.
- The image directory is a map from file name to bytes. For `/image`, the directory
  listing with modification times is an input.
- Clock readings are parameters. The detector, the frame resize and the
  rasterised region-of-interest mask are function parameters.
- `GetData` of `client.py` returns the cache unchanged (`ClientRelay.GetData`).
  In a value model, the promise that serving does not mutate the cache holds by construction.

Behaviour of the code worth noting:

- An unreadable per-camera file does not count as an empty detection set.
  `json.load` raises inside the `try` of `update_combined_data`, so that run
  is skipped and the combined file keeps its previous content
  (`Aggregator.UpdateCombined`).
- `calculate_distance` of `test-1/test.py` returns no sentinel. A kept box
  of zero width makes the division raise, which ends that camera's worker
  thread (`Detections.ProcessFrame` returns `None`; `Pipeline.Cycle` marks
  the station dead).
- `admin.py` drops both closest-distance fields from the relayed record. It
  also runs the image phases after a non-200 `/data` answer. It skips them only
  when the data request itself raised.

## Model

| member | source | states |
|---|---|---|
| Estimators.CalculateDistance | test-1/test.py:70-80 | the raw distance times the box width is known width × focal length, and the adjusted distance exceeds the raw one by exactly 0.3; a non-zero width is required because the source divides unguarded |
| Estimators.LiveDistance | websoc/server.py:157-166 | `None` exactly when the height is ≤ 0; otherwise a non-negative value within half a hundredth of 1.5 × 50 × 3.281 ÷ height (feet, rounded to two decimals) |
| Estimators.WidthDistance | test.py:29-34 | `None` exactly when the width is ≤ 0; otherwise a non-negative value within half a hundredth of 1.7 × 250 ÷ width |
| Estimators.HeightDistance | captive_portal/app.py:17-18 | -1 for a height of exactly 0; for every other height, result × height = focal length × real height |
| Estimators.PinholeAgreement | captive_portal/app.py:18 | on any non-zero size, the unguarded raw distance of test-1 and the captive-portal estimate are the same number |
| Estimators.NegativeSizeSplitsGuards | captive_portal/app.py:18 | for a negative size, the `> 0` guards report an unknown distance, while the `!= 0` guard yields a negative distance |
| Estimators.ZeroSizeSentinels | websoc/server.py:161-166 | a zero size gives `None` from both rounding estimators and -1 from the captive portal |
| Estimators.CaptiveSentinelAmbiguous | captive_portal/app.py:13-18 | with focal length 700 and height 1.5, a height of -1050 yields the same -1 as the zero-height sentinel |
| Estimators.PositiveSizeAgreement | test.py:29-34 | on a positive width the rounded estimate is present and within half a hundredth of the exact pinhole distance |
| FrameQueue.Enqueue | test-1/test.py:111-118 | the result holds at most 10 items, the new item is last, and the result is the newest 10 of old queue + item; only a full queue loses its front item |
| FrameQueue.PushAllKeepsNewest | test-1/test.py:42-45 | after any sequence of puts, the queue is the newest 10 of everything seen, in push order |
| FrameQueue.PushesFromEmpty | test-1/test.py:189-195 | n puts into an empty queue leave the last min(n, 10) items in push order |
| FrameQueue.Dequeue | test-1/test.py:127-128 | a pop fails exactly on an empty queue and otherwise returns the front item and the rest |
| FrameQueue.DrainIsFifo | test-1/test.py:267-269 | repeated pops hand the items out oldest first |
| FrameQueue.PushThenDrain | test-1/test.py:263-278 | draining after n puts yields exactly the newest min(n, 10) items, in push order |
| Detections.VehicleClassesAreObstacles | test-1/test.py:35-39 | every CAM2 class is a CAM1 class; "person" is watched by CAM1 only |
| Detections.Kept | test-1/test.py:144-145 | a box is kept exactly when its class is in its camera's allow-list |
| Detections.KeptIsOrderedFilter | test-1/test.py:139-145 | a single box is kept exactly when its class is allowed, and filtering a concatenation filters each part in place, so kept boxes stay in detector order |
| Detections.Record | test-1/test.py:174-182 | the record carries the class name, confidence, box and time, and its distances follow the pinhole relation with the 0.3 offset |
| Detections.ProcessFrame | test-1/test.py:137-182 | fails exactly when a kept box has zero width; otherwise one record per kept box, in detector order, each describing its box |
| Detections.DistancesFollowConfiguration | test-1/test.py:152-162 | CAM1 uses 0.6 m for class 0 and 1.5 m for other classes, CAM2 always uses 1.5 m, and both use a focal length of 100 |
| Aggregator.RunningMin | test-1/test.py:222-232 | the left-to-right running minimum is absent exactly for an empty set, and otherwise is an element's adjusted distance that no element undercuts |
| Aggregator.Closest | test-1/test.py:234-239 | the closest distance is the minimum adjusted distance, or 0 when the camera saw nothing |
| Aggregator.ClosestIsUnique | test-1/test.py:222-239 | a detection set has only one closest distance |
| Aggregator.Combine | test-1/test.py:241-253 | both detection lists pass through unchanged, each closest value is the camera's minimum (or 0), and the total is the sum of the two closests and the camera distance 1.0 |
| Aggregator.ReadDetections | test-1/test.py:208-220 | a missing camera file reads as an empty set, a corrupt one raises, and a present one yields its content |
| Aggregator.UpdateCombined | test-1/test.py:203-260 | a corrupt camera file leaves the combined file untouched; otherwise the file holds the aggregate of the two camera contents (a missing file counting as empty): both lists, each closest distance, camera distance 1.0, their sum as total, stamped `now` |
| Aggregator.GetData | test-1/test.py:307-327 | serves the stored record; with no file it serves exactly the fallback record (empty lists, total = camera distance = 1.0); a corrupt file is an error |
| Aggregator.DefaultRecord | test-1/test.py:319-327 | the fallback is a consistent record for two empty cameras: empty lists, closest distances that are those of empty sets (0), camera distance 1.0, total = closests + camera distance, stamped `now` |
| Aggregator.FallbackIsEmptyAggregate | test-1/test.py:319-327 | the fallback record equals the aggregate of two empty cameras |
| Aggregator.EmptyCameraDefaultsToZero | test-1/test.py:234-242 | an empty camera contributes 0 and leaves total = other closest + camera distance |
| Aggregator.AggregationIsIdempotent | test-1/test.py:203-253 | aggregating unchanged inputs twice gives the same record up to its timestamp |
| Aggregator.TotalIsAtMostAnyPair | test-1/test.py:222-242 | the total is at most any CAM1 distance + any CAM2 distance + camera distance |
| Aggregator.TotalAtLeastSeparation | test-1/test.py:242 | with non-negative distances, the total is at least the camera distance |
| Aggregator.PersonOnlyScenario | test-1/test.py:222-242 | a single CAM1 detection at 2.0 and an empty CAM2 give closests 2.0 and 0 and a total of 3.0 |
| Aggregator.Encode | test-1/test.py:245-253 | the combined record is a JSON object with exactly the seven keys of the source |
| Aggregator.DetectionsRoundTrip | test-1/test.py:186 | a stored list of detections reads back as the same detections, in order |
| Aggregator.RecordRoundTrip | test-1/test.py:245-257 | reading the stored JSON object back gives the same combined record: its JSON form loses nothing |
| Pipeline.UnopenedFeedStaysStopped | test-1/test.py:94-98 | a stream that does not open ends the capture thread before its loop: over any run of reads the feed stays stopped, never reconnects, and never changes the queue |
| Pipeline.CaptureRunReconnects | test-1/test.py:100-106 | over any run of reads, an open stream reconnects exactly once per failed read |
| Pipeline.CaptureRunKeepsNewest | test-1/test.py:100-119 | over any run of reads, an open stream leaves in the queue the newest 10 of the frames it held and the resized frames delivered, in read order |
| Pipeline.CaptureStep | test-1/test.py:100-119 | a failed read reconnects and leaves the queue alone; a frame is resized and put with drop-oldest |
| Pipeline.ReconnectThenFrame | test-1/test.py:100-118 | one failed read followed by a frame costs exactly one reconnect, and the frame becomes the newest queued item |
| Pipeline.Cycle | test-1/test.py:126-200 | an empty queue changes nothing; otherwise the oldest frame is popped; a failed detection pass kills the worker and keeps the old file; a successful one overwrites the camera file and enqueues the result with drop-oldest |
| Pipeline.WorkerStep | test-1/test.py:122-198 | the other camera is untouched, and the combined file is recomputed exactly when the cycle completed |
| Pipeline.WorkerCycleRecomputesTotal | test-1/test.py:198-242 | after a completed cycle, the combined total is recomputed from the two current camera files, and the camera's own file feeds it |
| Text.Basename | test-1/admin.py:79 | the result has no '/', is a suffix of the path, and is preceded by a '/' when shorter than the path |
| Text.IntToDecimal | test-1/client.py:46 | renders an int as decimal digits with no leading zero that read back as the number, with a leading '-' before the digits of its magnitude when it is negative |
| Text.DecimalRoundTrip | test-1/client.py:46 | reading the rendered digits back gives the number |
| Relay.FailureStatus | test-1/client.py:34-50 | the status is "Error: HTTP <code>" for a non-200 answer and "Connection error: …" for a raised request or an undecodable 200 body; there is no status exactly for a parsed 200 body |
| Relay.MarkDisconnected | test-1/client.py:45-50 | sets status and `connected = False` and keeps every other field |
| Relay.MarkConnected | test-1/client.py:36-40 | adds status "Connected" and `connected = True` to the fetched object, keeping its other fields |
| Relay.DisconnectKeepsData | test-1/admin.py:65-67 | a failure changes no data field |
| Relay.LoadPersisted | test-1/client.py:295-302 | the persisted file replaces the defaults only when it exists and parses |
| ClientRelay.InitialCacheIsFallbackRecord | test-1/client.py:16-26 | the initial cache is the publisher's fallback record marked "Initializing" and not connected, with total = camera distance = 1.0 |
| ClientRelay.Start | test-1/client.py:295-302 | at start-up the cache is the persisted content when the file loads, and the defaults otherwise |
| ClientRelay.Poll | test-1/client.py:29-52 | a 200 object replaces the cache wholesale, marked connected, and is persisted; a 200 non-object ends the thread; every failure changes only status and `connected`, and leaves the file alone |
| ClientRelay.GetData | test-1/client.py:61-64 | `/data` serves the cache exactly as stored: no field is added, dropped or recomputed on the way out |
| ClientRelay.PersistOnlyOnSuccess | test-1/client.py:36-44 | the file changes only on success and then holds exactly the new cache, which a restart reloads |
| ClientRelay.StaleButAvailable | test-1/client.py:45-50 | after a success and then a failure, `/data` shows `connected = False`, the error status, and exactly the data fields of the success |
| ClientRelay.Http500Scenario | test-1/client.py:45-47 | an HTTP 500 gives status "Error: HTTP 500", `connected = False`, and unchanged data fields |
| ClientRelay.RelaysPublisherRecord | test-1/client.py:36-40 | after polling a publisher record, the client serves its total and closest distances, marked connected, and the served object reads back as that very record |
| AdminRelay.Start | test-1/admin.py:181-190 | at start-up the cache is the persisted content or the defaults, there is no monitor image or path, and the file and image directory are those found on disk |
| AdminRelay.InitialCacheIsFallbackRecord | test-1/admin.py:22-31 | the initial cache is the publisher's fallback record without its closest distances, marked "Initializing" and not connected, with an empty `latest_images` and total = camera distance = 1.0 |
| AdminRelay.FreshCache | test-1/admin.py:46-60 | the cache drops both closest distances, is marked connected, and carries `latest_images` over from the previous cache, or uses [] when it had none |
| AdminRelay.DataPhase | test-1/admin.py:43-67 | a raised request updates only status and `connected` and skips the image phases; a non-200 answer updates them and continues; a 200 object is cached and persisted |
| AdminRelay.PathOf | test-1/admin.py:78 | an entry has a path exactly when it is an object whose `path` is a string, and that string is the path |
| AdminRelay.DownloadImage | test-1/admin.py:121-131 | the download succeeds exactly on a 200 answer, whose bytes are then stored; otherwise the store is unchanged |
| AdminRelay.DownloadOne | test-1/admin.py:78-82 | adds at most the file `name`, changes no existing file, and leaves `name` with a local copy unless the server refused it |
| AdminRelay.DownloadAll | test-1/admin.py:77-82 | the loop fails exactly when an entry lacks a string path, and it never changes an existing file |
| AdminRelay.DownloadsOnlyListed | test-1/admin.py:77-82 | only files named after listed entries are added, so at most one per entry |
| AdminRelay.DownloadsComplete | test-1/admin.py:77-82 | after the loop, every listed entry has a local copy, unless the server refused it |
| AdminRelay.DirectoryNamesNeverFetched | test-1/admin.py:79-82 | a name that denotes the cache directory itself counts as existing, so the loop never creates a file of that name |
| AdminRelay.FirstFive | test-1/admin.py:77 | takes the first min(n, 5) entries |
| AdminRelay.AdoptFirst | test-1/admin.py:84-92 | after the downloads, the first entry's local copy becomes the monitor image, its name the monitor path, and the list time the last update; a directory name raises; with no local copy nothing changes |
| AdminRelay.ListItemsPhase | test-1/admin.py:76-92 | on a list, the phase raises exactly when an entry among the first five lacks a path or the first names the directory; it adds only files named after those five, at most five, and adopts the first entry's local copy as the monitor image |
| AdminRelay.FirstListedBecomesMonitor | test-1/admin.py:76-92 | when the first five entries have paths and the first is cached or handed over by the server, it becomes the monitor image stamped with the list time, unless its name denotes the directory, which ends the thread |
| AdminRelay.ListPhase | test-1/admin.py:69-95 | only a 200 parsed answer changes anything: it replaces `latest_images`; the phase ends the thread exactly when the body is neither a list nor an empty string, an entry among the first five lacks a string path, or the first entry names the cache directory; at most 5 new files appear, all named after the first five entries; the first entry's local copy, when present, becomes the monitor image and stamps the list time, and otherwise the monitor fields are unchanged |
| AdminRelay.MonitorPhase | test-1/admin.py:97-112 | nothing happens before the refresh interval has passed; on a 200 answer the image becomes the monitor image, is stored as `monitor_<seconds>.jpg`, which becomes the monitor path, and `last_image_update` becomes that `now` |
| AdminRelay.MonitorFileName | test-1/admin.py:105 | the name is "monitor_", then the decimal seconds, then ".jpg" |
| AdminRelay.MonitorNamesAreDistinct | test-1/admin.py:105-107 | the monitor file name is injective in its seconds stamp: equal names come from the same second |
| AdminRelay.ImagePhases | test-1/admin.py:69-112 | the image phases change `latest_images` only on a 200 parsed answer, to whatever JSON value it holds, never the file, and add only listed files and the monitor file |
| AdminRelay.Poll | test-1/admin.py:39-118 | the persisted file changes only when `/data` delivered an object, and then holds exactly the fresh cache built from it, marked connected |
| AdminRelay.RequestErrorSkipsImages | test-1/admin.py:114-116 | a raised data request skips both image phases and changes only status and `connected` |
| AdminRelay.HttpErrorStillRunsImages | test-1/admin.py:65-74 | after a non-200 data answer, the data fields are kept but the list phase still replaces `latest_images` |
| AdminRelay.PollAddsFewFiles | test-1/admin.py:69-109 | one poll adds only files from the first five listed images plus the monitor file, so at most 6 files |
| AdminRelay.GetData | test-1/admin.py:140-146 | `/data` is the cache plus `monitor_image_path` exactly when a path is set; every cached field is unchanged |
| AdminRelay.NewestJpeg | test-1/admin.py:164-168 | picks a .jpg/.jpeg entry with the greatest modification time, the earliest listed among ties, and picks none exactly when no such entry exists |
| AdminRelay.GetMonitorImage | test-1/admin.py:155-178 | serves the in-memory image exactly when it is non-empty, otherwise the newest cached JPEG, otherwise a placeholder |
| RoiWarning.Center | test.py:60-63 | the centre is the floor midpoint of each axis |
| RoiWarning.AxisIndex | test.py:24-26 | a mask index is valid exactly in [-n, n), with negative indices counted from the end |
| RoiWarning.InsideRoi | test.py:22-26 | the lookup raises exactly for points off the 480×640 mask; on the mask it reads the mask |
| RoiWarning.Classify | test.py:66-69 | a box is ignored exactly when its label is not watched, raises exactly when it is watched and its centre is off the mask, and counts as inside exactly when it is watched and the mask is set at its centre |
| RoiWarning.ScanFrameAsWritten | test.py:54-77 | as written, the loop raises exactly when some box is watched with its centre off the mask, or qualifies with no distance; when it survives, the warning is set exactly when some box qualifies, and then the distance is known |
| RoiWarning.ZeroWidthPersonEndsStream | test.py:66-76 | on any mask covering the trapezium, a zero-width person centred at (320, 400) ends the as-written stream; the corrected scan gives a warning with an unknown distance and no overlay |
| RoiWarning.ScanFrame | test.py:48-77 | the scan raises exactly when a watched box has its centre off the mask; the warning is set exactly when some box has a watched label and a centre inside the ROI |
| RoiWarning.DistanceFromLastQualifying | test.py:69-71 | the reported distance is the estimate of the last qualifying box |
| RoiWarning.CorrectionAgreesWhenNoCrash | test.py:54-77 | whenever the as-written loop survives, the corrected loop gives the same result |
| RoiWarning.OverlayFollowsLastQualifying | test.py:80-84 | the overlay shows exactly when the last qualifying box has a known, non-zero distance |
| LiveFeed.CaptionFor | websoc/server.py:191 | the caption includes the distance exactly when it is neither `None` nor 0.0 |
| LiveFeed.Selected | websoc/server.py:184 | a box is annotated exactly when its class name is in the camera's list |
| LiveFeed.SelectedIsOrderedFilter | websoc/server.py:179-184 | a single box is drawn exactly when its label is listed, and selecting from a concatenation selects from each part in place, so drawn boxes stay in detector order |
| LiveFeed.AnnotateFrame | websoc/server.py:179-192 | one annotation per selected box, in detector order, with the distance taken from the height y2 - y1 |
| LiveFeed.CaptionShowsDistance | websoc/server.py:185-191 | a caption shows a distance exactly when the height is positive and the rounded distance is not 0.0 |
| LiveFeed.ClassListsDisjoint | websoc/server.py:152-154 | the vehicle list and the animals-and-humans list share no label |
| LiveFeed.BareCaptionCases | websoc/server.py:161-191 | a height ≤ 0, or one above 50000 pixels whose distance rounds to 0.00, gets the bare class name |
| CaptivePortal.Estimates | captive_portal/app.py:26-31 | every box gets an estimate, with no class filter: -1 for a zero height, otherwise estimate × height = 700 × 1.5 |
| CaptivePortal.InvertedBoxGivesNegativeDistance | captive_portal/app.py:17-31 | a box with y2 < y1 gets a negative distance, not the sentinel |

## Left out

- Flask routing, `render_template`, and the HTML and JavaScript templates of `create_templates`: these are UI and framework code.
- OpenCV capture, resize, drawing and JPEG encoding; YOLO inference; and the PIL placeholder image. These are foreign libraries. The detector, the resize and the ROI rasterisation are function parameters, and the placeholder is a constant reply.
- Truncation of the detector's float coordinates by `int()`: the detector's output is taken as integer corners.
- `requests` calls, JSON encoding and decoding, and `os.path`/`listdir`/`getmtime`: these are I/O, so they appear as abstract outcomes and inputs.
- Threads, `while True` loops, `time.sleep`, and `time.time()`: each loop iteration is one step function, and every clock reading is a parameter. One `now` stamps all detections of a frame, where the source reads the clock per detection.
- Interleaving between threads and atomicity of file writes: each step is sequential. The `except queue.Empty` branch of the drop-oldest put cannot be reached without a concurrent consumer.
- The multipart byte framing of the streaming generators, the stream loop of websoc's `generate_feed`, and the ESP32 HTTP notification and printing in `captive_portal/app.py`.
- `save_obstacle_image` in test-1/test.py: it is never called.
- server.py: its only logic is a class-id membership test inside a streaming loop.
- The commented-out first version in websoc/server.py: it is dead code.
- Exceptions outside the modelled ones. These include file-write errors, a persisted relay file holding valid JSON that is not an object, and camera files holding records without `adjusted_distance`. The worker writes those files itself.
- `requests` versions before 2.27, where `JSONDecodeError` is not a `RequestException`: an undecodable 200 body would then end the relay thread instead of being reported as a connection error.
- AdminRelay.MonitorNamesAreDistinct: the seconds stamp of each poll is a free input, tied neither to `now` nor to earlier polls, so the model does not establish that successive saves get distinct names; in the source that follows from the sleep between iterations and a clock that does not go backwards.
- IEEE floating point: distances are Dafny reals, and `float('inf')` is `None`.
- Estimators.Round2: rounds ties upward over the reals, unlike Python's `round` on binary floats. Its contract promises only to land within half a hundredth.
- Estimators.LiveDistance: the contract promises a value within half a hundredth of the exact distance, not Python's exact rounded float.
- Estimators.WidthDistance: the contract promises a value within half a hundredth of the exact distance, not Python's exact rounded float.
- LiveFeed.CaptionFor: the caption keeps the number, not its Python `str()` rendering.

## Findings

| source | as written | input that shows it | evidently intended | confidence | as-written member | corrected member |
|---|---|---|---|---|---|---|
| test.py:76 | the label of a qualifying box formats `distance` with `:.2f` even when `estimate_distance` returned `None`. That raises `TypeError` and ends the video stream. | a "person" box from (320, 350) to (320, 450): width 0, centre (320, 400), which lies inside the trapezium (100, 300), (500, 300), (600, 480), (50, 480) (lemma `RoiWarning.ZeroWidthPersonEndsStream`) | the box is drawn without a distance, and `detected_distance` stays `None`, so the falsy test on line 80 suppresses the overlay | high; not executed | RoiWarning.ScanFrameAsWritten | RoiWarning.ScanFrame |
