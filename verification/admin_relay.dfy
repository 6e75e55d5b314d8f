/** test-1/admin.py: the relay that also mirrors evidence images. Each
    iteration of `fetch_data_thread` runs three phases: the `/data` poll,
    the `/obstacle_images` list with at most five downloads, and the
    `/monitor_image` refresh when the refresh interval has elapsed. */
module AdminRelay {
  import opened Common
  import opened Json
  import opened Relay
  import Text
  import Aggregator

  type Bytes = seq<int>

  const RefreshInterval: real := 1.0
  /** `image_list[:5]`: at most this many images are considered per poll. */
  const DownloadCap: nat := 5
  const KeyLatestImages: string := "latest_images"
  const KeyMonitorImagePath: string := "monitor_image_path"
  const KeyPath: string := "path"

  /** The relay's memory: `latest_data`, the persisted file, the monitor
      image globals and the files of the local image cache directory. */
  datatype AdminState = AdminState(
    cache: Object,
    file: FileState<Object>,
    monitorImage: Option<Bytes>,
    monitorPath: Option<string>,
    lastImageUpdate: real,
    images: map<string, Bytes>)

  /** The answer to a request for raw image bytes. */
  datatype Fetch = Fetched(code: int, content: Bytes) | FetchFailed

  /** Everything one iteration observes from outside: the three answers,
      the image server's answer for each file name, and the clock readings
      (`time.time()` in the list phase, at the monitor check, and the whole
      seconds used to name the monitor file). */
  datatype Inputs = Inputs(
    data: Relay.Poll,
    imageList: Relay.Poll,
    server: string -> Fetch,
    monitor: Fetch,
    listTime: real,
    now: real,
    stamp: int)

  /** Python truthiness of the optional globals. */
  predicate HasImage(image: Option<Bytes>)
  {
    image.Some? && |image.value| > 0
  }

  predicate HasPath(path: Option<string>)
  {
    path.Some? && |path.value| > 0
  }

  /** `latest_data` before anything is fetched. */
  function InitialCache(now: real): Object
  {
    map[
      Aggregator.KeyCam1 := Arr([]),
      Aggregator.KeyCam2 := Arr([]),
      Aggregator.KeyCameraDistance := Num(1.0),
      Aggregator.KeyTotal := Num(1.0),
      Aggregator.KeyTimestamp := Num(now),
      KeyStatus := Str(StatusInitializing),
      KeyConnected := Bool(false),
      KeyLatestImages := Arr([])]
  }

  /** The initial cache is the publisher's fallback record without its two
      closest distances, marked as initializing and not connected, with an
      empty `latest_images`: no detections and a total equal to the camera
      separation. */
  lemma InitialCacheIsFallbackRecord(now: real)
    ensures InitialCache(now)
            == MarkDisconnected(Aggregator.Encode(Aggregator.DefaultRecord(now))
                                  - {Aggregator.KeyClosestObstacle, Aggregator.KeyClosestVehicle},
                                StatusInitializing)[KeyLatestImages := Arr([])]
    ensures InitialCache(now)[Aggregator.KeyTotal] == InitialCache(now)[Aggregator.KeyCameraDistance] == Num(1.0)
  {
    var e := Aggregator.Encode(Aggregator.DefaultRecord(now));
    assert Aggregator.EncodeDetections([]) == Arr([]);
    var m := MarkDisconnected(e - {Aggregator.KeyClosestObstacle, Aggregator.KeyClosestVehicle},
                              StatusInitializing)[KeyLatestImages := Arr([])];
    assert m.Keys == InitialCache(now).Keys;
  }

  /** Start-up: the persisted file when it loads, no monitor image yet, and
      whatever the image directory already holds. */
  function Start(file: FileState<Object>, images: map<string, Bytes>, now: real): (s: AdminState)
    ensures file.Present? ==> s.cache == file.content
    ensures !file.Present? ==> s.cache == InitialCache(now)
    ensures !HasImage(s.monitorImage) && !HasPath(s.monitorPath) && s.lastImageUpdate == 0.0
    ensures s.images == images && s.file == file
  {
    AdminState(LoadPersisted(InitialCache(now), file), file, None, None, 0.0, images)
  }

  // ---- phase 1: /data ---------------------------------------------------

  /** The keys of a fetched object that the data phase drops or overwrites. */
  const DroppedOrSet: set<string> :=
    {Aggregator.KeyClosestObstacle, Aggregator.KeyClosestVehicle, KeyStatus, KeyConnected, KeyLatestImages}

  /** The cache built from a fetched object: both closest distances removed,
      marked connected, and `latest_images` carried over from the previous
      cache (an empty list when it had none). */
  function FreshCache(data: Object, previous: Object): (r: Object)
    ensures r.Keys == (data.Keys - {Aggregator.KeyClosestObstacle, Aggregator.KeyClosestVehicle})
                      + {KeyStatus, KeyConnected, KeyLatestImages}
    ensures r[KeyStatus] == Str(StatusConnected) && r[KeyConnected] == Bool(true)
    ensures r[KeyLatestImages] == (if KeyLatestImages in previous then previous[KeyLatestImages] else Arr([]))
    ensures forall k :: k in data && k !in DroppedOrSet ==> r[k] == data[k]
  {
    var kept := data - {Aggregator.KeyClosestObstacle, Aggregator.KeyClosestVehicle};
    var images := if KeyLatestImages in previous then previous[KeyLatestImages] else Arr([]);
    MarkConnected(kept)[KeyLatestImages := images]
  }

  /** The `/data` phase. The boolean says whether the iteration goes on to
      the image phases: a `RequestException` from the data request jumps to
      the outer `except` and skips them, a non-200 answer does not. */
  function DataPhase(s: AdminState, p: Relay.Poll): (r: (Step<AdminState>, bool))
    ensures r.1 ==> r.0.Running?
    ensures r.1 <==> p.Answered? && (p.code != OkCode || (p.body.Parsed? && p.body.value.Obj?))
    ensures FailureStatus(p).Some? ==>
              r.0.state == s.(cache := MarkDisconnected(s.cache, FailureStatus(p).value))
    ensures FailureStatus(p).None? && p.body.value.Obj? ==>
              && r.0.state.cache == FreshCache(p.body.value.fields, s.cache)
              && r.0.state.file == Present(r.0.state.cache)
              && r.0.state.images == s.images
              && r.0.state.monitorPath == s.monitorPath
    ensures FailureStatus(p).None? && !p.body.value.Obj? ==> r.0 == Halted(s)
    ensures r.0.state.images == s.images
  {
    match FailureStatus(p)
    case Some(status) =>
      (Running(s.(cache := MarkDisconnected(s.cache, status))), p.Answered? && p.code != OkCode)
    case None =>
      match p.body.value
      case Obj(data) =>
        var cache := FreshCache(data, s.cache);
        (Running(s.(cache := cache, file := Present(cache))), true)
      case _ => (Halted(s), false)
  }

  // ---- phase 2: /obstacle_images and downloads ----------------------------

  /** `img_info['path']` when it is a string; anything else raises a
      `KeyError` or `TypeError` that ends the thread. */
  function PathOf(v: Value): (r: Option<string>)
    ensures r.Some? <==> v.Obj? && KeyPath in v.fields && v.fields[KeyPath].Str?
    ensures r.Some? ==> v.fields[KeyPath] == Str(r.value)
  {
    if v.Obj? && KeyPath in v.fields && v.fields[KeyPath].Str? then Some(v.fields[KeyPath].s) else None
  }

  /** Names whose `os.path.join(IMAGE_CACHE_DIR, name)` is a directory, which
      `os.path.exists` reports as present. */
  predicate IsDirName(name: string)
  {
    name == "" || name == "." || name == ".."
  }

  predicate Exists(images: map<string, Bytes>, name: string)
  {
    IsDirName(name) || name in images
  }

  /** The cache-file name of a listed image. */
  function LocalName(v: Value): string
    requires PathOf(v).Some?
  {
    Text.Basename(PathOf(v).value)
  }

  /** `download_image`: true exactly on a 200 answer, whose bytes are then
      stored under `name`; the store is untouched otherwise. */
  function DownloadImage(answer: Fetch, images: map<string, Bytes>, name: string): (r: (bool, map<string, Bytes>))
    ensures r.0 <==> answer.Fetched? && answer.code == OkCode
    ensures r.0 ==> r.1 == images[name := answer.content]
    ensures !r.0 ==> r.1 == images
  {
    if answer.Fetched? && answer.code == OkCode then (true, images[name := answer.content])
    else (false, images)
  }

  /** One turn of the download loop: `name` is requested only when it has
      no local copy. */
  function DownloadOne(images: map<string, Bytes>, name: string, server: string -> Fetch): (r: map<string, Bytes>)
    ensures Keeps(images, r) && r.Keys - images.Keys <= {name}
    ensures Exists(r, name) || !(server(name).Fetched? && server(name).code == OkCode)
  {
    if Exists(images, name) then images else DownloadImage(server(name), images, name).1
  }

  /** The download loop over the listed images, in order; an entry without
      a string `path` raises and ends the thread. */
  function DownloadAll(items: seq<Value>, images: map<string, Bytes>, server: string -> Fetch): (r: Step<map<string, Bytes>>)
    ensures r.Running? <==> forall i :: 0 <= i < |items| ==> PathOf(items[i]).Some?
    ensures Keeps(images, r.state)
    decreases |items|
  {
    if |items| == 0 then Running(images)
    else match PathOf(items[0])
      case None => Halted(images)
      case Some(path) =>
        var next := DownloadOne(images, Text.Basename(path), server);
        var rest := DownloadAll(items[1..], next, server);
        KeepsTransitive(images, next, rest.state);
        assert forall i :: 1 <= i < |items| ==> items[i] == items[1..][i - 1];
        rest
  }

  /** `b` holds every file of `a`, with the same contents. */
  predicate Keeps(a: map<string, Bytes>, b: map<string, Bytes>)
  {
    a.Keys <= b.Keys && forall k :: k in a ==> b[k] == a[k]
  }

  lemma KeepsTransitive(a: map<string, Bytes>, b: map<string, Bytes>, c: map<string, Bytes>)
    requires Keeps(a, b) && Keeps(b, c)
    ensures Keeps(a, c)
  {
  }

  /** The names of the listed entries that have a string `path`. */
  function ListedNames(items: seq<Value>): (r: set<string>)
    ensures |r| <= |items|
    ensures forall v :: v in items && PathOf(v).Some? ==> LocalName(v) in r
    decreases |items|
  {
    if |items| == 0 then {}
    else
      var rest := ListedNames(items[1..]);
      assert forall v :: v in items ==> v == items[0] || v in items[1..];
      match PathOf(items[0])
      case None => rest
      case Some(path) =>
        AddOneCard(rest, Text.Basename(path));
        rest + {Text.Basename(path)}
  }

  lemma AddOneCard<T>(s: set<T>, x: T)
    ensures |s + {x}| <= |s| + 1
  {
    if x in s {
      assert s + {x} == s;
    }
  }

  /** The loop only ever adds files named after listed entries, so it adds
      at most as many files as there are entries. */
  lemma {:induction false} DownloadsOnlyListed(items: seq<Value>, images: map<string, Bytes>, server: string -> Fetch)
    ensures DownloadAll(items, images, server).state.Keys - images.Keys <= ListedNames(items)
    ensures |DownloadAll(items, images, server).state.Keys - images.Keys| <= |items|
    decreases |items|
  {
    var r := DownloadAll(items, images, server).state;
    if |items| > 0 && PathOf(items[0]).Some? {
      var next := DownloadOne(images, LocalName(items[0]), server);
      DownloadsOnlyListed(items[1..], next, server);
    }
    SubsetCard(r.Keys - images.Keys, ListedNames(items));
  }

  lemma SubsetCard<T>(a: set<T>, b: set<T>)
    requires a <= b
    ensures |a| <= |b|
  {
    assert b == a + (b - a);
  }

  predicate Accepted(answer: Fetch)
  {
    answer.Fetched? && answer.code == OkCode
  }

  /** `name` has a local copy, or the server would not hand it over. */
  predicate Settled(images: map<string, Bytes>, server: string -> Fetch, name: string)
  {
    Exists(images, name) || !Accepted(server(name))
  }

  /** After a loop that did not raise, every listed entry has a local copy,
      unless the server refused it. */
  lemma {:induction false} DownloadsComplete(items: seq<Value>, images: map<string, Bytes>, server: string -> Fetch)
    requires DownloadAll(items, images, server).Running?
    ensures forall i :: 0 <= i < |items| ==> Settled(DownloadAll(items, images, server).state, server, LocalName(items[i]))
    decreases |items|
  {
    if |items| > 0 {
      var name := LocalName(items[0]);
      var next := DownloadOne(images, name, server);
      var r := DownloadAll(items, images, server).state;
      assert r == DownloadAll(items[1..], next, server).state;
      DownloadsComplete(items[1..], next, server);
      assert Settled(next, server, name);
      assert Settled(r, server, name);
      forall i | 1 <= i < |items|
        ensures Settled(r, server, LocalName(items[i]))
      {
        assert items[i] == items[1..][i - 1];
      }
    }
  }

  /** `image_list[:5]`. */
  function FirstFive(items: seq<Value>): (r: seq<Value>)
    ensures |r| == Min(|items|, DownloadCap) && r == items[..|r|]
  {
    if |items| <= DownloadCap then items else items[..DownloadCap]
  }

  /** The names the list phase may download for the answer `p`. */
  function ListedBy(p: Relay.Poll): set<string>
  {
    if p.Answered? && p.code == OkCode && p.body.Parsed? && p.body.value.Arr?
    then ListedNames(FirstFive(p.body.value.items)) else {}
  }

  /** A 200 answer whose body parsed. */
  predicate ListAnswered(p: Relay.Poll)
  {
    p.Answered? && p.code == OkCode && p.body.Parsed?
  }

  /** Whether a parsed list answer ends the thread: `[:5]` of anything but
      a list or a string raises, so does iterating over a non-empty string,
      so does an entry among the first five without a string `path`, and so
      does reading the first entry's local copy when its name denotes the
      cache directory itself. */
  predicate ListEndsThread(list: Value)
  {
    match list
    case Arr(items) =>
      || (exists i :: 0 <= i < |FirstFive(items)| && PathOf(FirstFive(items)[i]).None?)
      || (|items| > 0 && PathOf(items[0]).Some? && IsDirName(LocalName(items[0])))
    case Str(text) => |text| > 0
    case _ => true
  }

  /** The local name of the first listed entry, when the list phase got a
      list whose first entry has a string `path`. */
  function FirstListed(p: Relay.Poll): (r: Option<string>)
    ensures r.Some? ==> ListAnswered(p) && p.body.value.Arr? && |p.body.value.items| > 0
                        && PathOf(p.body.value.items[0]).Some? && r.value == LocalName(p.body.value.items[0])
  {
    if ListAnswered(p) && p.body.value.Arr? && |p.body.value.items| > 0 && PathOf(p.body.value.items[0]).Some?
    then Some(LocalName(p.body.value.items[0])) else None
  }

  /** The monitor-image step of the list phase, after the downloads: the
      first entry's local copy, when there is one, becomes the monitor image
      and stamps `last_image_update`; reading a name that denotes the cache
      directory raises. */
  function AdoptFirst(s: AdminState, items: seq<Value>, listTime: real): (r: Step<AdminState>)
    requires |items| > 0 ==> PathOf(items[0]).Some?
    ensures r.state.cache == s.cache && r.state.file == s.file && r.state.images == s.images
    ensures r.Halted? <==> |items| > 0 && IsDirName(LocalName(items[0]))
    ensures r.Running? && |items| > 0 && LocalName(items[0]) in s.images ==>
              && r.state.monitorImage == Some(s.images[LocalName(items[0])])
              && r.state.monitorPath == Some(LocalName(items[0]))
              && r.state.lastImageUpdate == listTime
    ensures !(r.Running? && |items| > 0 && LocalName(items[0]) in s.images) ==> r.state == s
  {
    if |items| == 0 then Running(s)
    else
      var name := LocalName(items[0]);
      if !Exists(s.images, name) then Running(s)
      else if IsDirName(name) then Halted(s)
      else Running(s.(monitorImage := Some(s.images[name]), monitorPath := Some(name),
                      lastImageUpdate := listTime))
  }

  /** The list phase on a list: the downloads of its first five entries,
      then the monitor-image step. */
  function ListItemsPhase(s: AdminState, items: seq<Value>, server: string -> Fetch, listTime: real): (r: Step<AdminState>)
    ensures r.state.cache == s.cache && r.state.file == s.file
    ensures Keeps(s.images, r.state.images)
    ensures r.state.images.Keys - s.images.Keys <= ListedNames(FirstFive(items))
    ensures |r.state.images.Keys - s.images.Keys| <= DownloadCap
    ensures r.Halted? <==> ListEndsThread(Arr(items))
    ensures r.Running? && |items| > 0 && LocalName(items[0]) in r.state.images ==>
              && r.state.monitorImage == Some(r.state.images[LocalName(items[0])])
              && r.state.monitorPath == Some(LocalName(items[0]))
              && r.state.lastImageUpdate == listTime
    ensures !(r.Running? && |items| > 0 && LocalName(items[0]) in r.state.images) ==>
              && r.state.monitorImage == s.monitorImage
              && r.state.monitorPath == s.monitorPath
              && r.state.lastImageUpdate == s.lastImageUpdate
  {
    var firstFive := FirstFive(items);
    var downloaded := DownloadAll(firstFive, s.images, server);
    DownloadsOnlyListed(firstFive, s.images, server);
    var s2 := s.(images := downloaded.state);
    if downloaded.Halted? then Halted(s2)
    else
      assert |items| > 0 ==> firstFive[0] == items[0];
      AdoptFirst(s2, items, listTime)
  }

  /** The list phase. A `RequestException`, an undecodable body or a non-200
      answer changes nothing. A 200 answer replaces `latest_images`; a list
      then drives the downloads of its first five entries and, when the
      first entry has a local copy, makes that copy the monitor image. */
  function ListPhase(s: AdminState, p: Relay.Poll, server: string -> Fetch, listTime: real): (r: Step<AdminState>)
    ensures !ListAnswered(p) ==> r == Running(s)
    ensures ListAnswered(p) ==> r.state.cache == s.cache[KeyLatestImages := p.body.value]
    ensures r.state.file == s.file
    ensures Keeps(s.images, r.state.images)
    ensures |r.state.images.Keys - s.images.Keys| <= DownloadCap
    ensures r.state.images.Keys - s.images.Keys <= ListedBy(p)
    ensures r.state.monitorPath != s.monitorPath ==> r.state.lastImageUpdate == listTime
    ensures r.Halted? <==> ListAnswered(p) && ListEndsThread(p.body.value)
    ensures r.Running? && FirstListed(p).Some? && FirstListed(p).value in r.state.images ==>
              && r.state.monitorImage == Some(r.state.images[FirstListed(p).value])
              && r.state.monitorPath == FirstListed(p)
              && r.state.lastImageUpdate == listTime
    ensures !(r.Running? && FirstListed(p).Some? && FirstListed(p).value in r.state.images) ==>
              && r.state.monitorImage == s.monitorImage
              && r.state.monitorPath == s.monitorPath
              && r.state.lastImageUpdate == s.lastImageUpdate
  {
    if !ListAnswered(p) then Running(s)
    else
      var list := p.body.value;
      var s1 := s.(cache := s.cache[KeyLatestImages := list]);
      match list
      case Arr(items) => ListItemsPhase(s1, items, server, listTime)
      case Str(text) =>
        if |text| == 0 then Running(s1) else Halted(s1)
      case _ => Halted(s1)
  }

  /** A listed name that denotes the cache directory itself (a path ending
      in '/', or "." or "..") counts as present, so the loop never fetches
      it and never creates a file of that name. */
  lemma {:induction false} DirectoryNamesNeverFetched(items: seq<Value>, images: map<string, Bytes>,
                                                      server: string -> Fetch, name: string)
    requires IsDirName(name)
    ensures name in DownloadAll(items, images, server).state ==> name in images
    decreases |items|
  {
    if |items| > 0 && PathOf(items[0]).Some? {
      var next := DownloadOne(images, LocalName(items[0]), server);
      assert name in next ==> name in images;
      DirectoryNamesNeverFetched(items[1..], next, server, name);
    }
  }

  /** The first listed entry ends up with a local copy when the loop
      survives and the entry was cached already or the server hands it
      over. */
  lemma FirstEntryCached(items: seq<Value>, images: map<string, Bytes>, server: string -> Fetch)
    requires |items| > 0 && DownloadAll(FirstFive(items), images, server).Running?
    requires PathOf(items[0]).Some? && !IsDirName(LocalName(items[0]))
    requires LocalName(items[0]) in images || Accepted(server(LocalName(items[0])))
    ensures LocalName(items[0]) in DownloadAll(FirstFive(items), images, server).state
  {
    var firstFive := FirstFive(items);
    assert firstFive[0] == items[0];
    DownloadsComplete(firstFive, images, server);
  }

  /** A list whose first five entries all have paths and whose first entry
      the server hands over (or that is already cached) makes that entry's
      file the monitor image, unless its name denotes the cache directory,
      which ends the thread. */
  lemma FirstListedBecomesMonitor(s: AdminState, items: seq<Value>, server: string -> Fetch, listTime: real)
    requires |items| > 0
    requires forall i :: 0 <= i < |FirstFive(items)| ==> PathOf(FirstFive(items)[i]).Some?
    requires PathOf(items[0]).Some?
    requires LocalName(items[0]) in s.images || Accepted(server(LocalName(items[0])))
    ensures var r := ListItemsPhase(s, items, server, listTime);
            && (r.Halted? <==> IsDirName(LocalName(items[0])))
            && (r.Running? ==> r.state.monitorPath == Some(LocalName(items[0]))
                               && r.state.monitorImage == Some(r.state.images[LocalName(items[0])])
                               && r.state.lastImageUpdate == listTime)
  {
    assert FirstFive(items)[0] == items[0];
    if !IsDirName(LocalName(items[0])) {
      FirstEntryCached(items, s.images, server);
    }
  }

  // ---- phase 3: /monitor_image -----------------------------------------------

  /** The file name `monitor_<seconds>.jpg` of a saved monitor image. */
  function MonitorFileName(stamp: int): (r: string)
    ensures |r| == |Text.IntToDecimal(stamp)| + 12
    ensures r[..8] == "monitor_" && Text.EndsWith(r, ".jpg")
    ensures r[8..|r| - 4] == Text.IntToDecimal(stamp)
  {
    var digits := Text.IntToDecimal(stamp);
    var r := "monitor_" + digits + ".jpg";
    assert r[8..|r| - 4] == digits;
    r
  }

  /** Monitor images saved in different seconds get different names: equal
      names come from the same second. */
  lemma MonitorNamesAreDistinct(a: int, b: int)
    requires MonitorFileName(a) == MonitorFileName(b)
    ensures a == b
  {
    var da, db := Text.IntToDecimal(a), Text.IntToDecimal(b);
    assert da == db;
    if a >= 0 && b < 0 {
      assert false;
    } else if a < 0 && b >= 0 {
      assert false;
    } else if a < 0 {
      assert da[1..] == db[1..];
    }
  }

  /** The monitor refresh: only when `now - lastImageUpdate` has reached the
      refresh interval is the image requested; a 200 answer becomes the
      monitor image, is saved under a timestamped name, and moves
      `lastImageUpdate` to `now`. */
  function MonitorPhase(s: AdminState, answer: Fetch, now: real, stamp: int): (r: AdminState)
    ensures now - s.lastImageUpdate < RefreshInterval ==> r == s
    ensures r.cache == s.cache && r.file == s.file
    ensures r.images.Keys <= s.images.Keys + {MonitorFileName(stamp)}
    ensures r != s ==> now - s.lastImageUpdate >= RefreshInterval && answer.Fetched? && answer.code == OkCode
    ensures now - s.lastImageUpdate >= RefreshInterval && answer.Fetched? && answer.code == OkCode ==>
              && r.lastImageUpdate == now
              && r.monitorImage == Some(answer.content)
              && r.monitorPath.Some?
              && r.monitorPath.value in r.images
              && r.images[r.monitorPath.value] == answer.content
              && r.images.Keys == s.images.Keys + {r.monitorPath.value}
              && r.monitorPath == Some(MonitorFileName(stamp))
              && r.images == s.images[MonitorFileName(stamp) := answer.content]
  {
    if now - s.lastImageUpdate >= RefreshInterval && answer.Fetched? && answer.code == OkCode then
      var name := MonitorFileName(stamp);
      s.(monitorImage := Some(answer.content), images := s.images[name := answer.content],
         monitorPath := Some(name), lastImageUpdate := now)
    else s
  }

  // ---- the whole iteration -----------------------------------------------

  /** The list phase followed, when it did not raise, by the monitor
      phase. */
  function ImagePhases(t: AdminState, inputs: Inputs): (r: Step<AdminState>)
    ensures ListAnswered(inputs.imageList) ==> r.state.cache == t.cache[KeyLatestImages := inputs.imageList.body.value]
    ensures !ListAnswered(inputs.imageList) ==> r.state.cache == t.cache
    ensures r.state.file == t.file
    ensures r.state.images.Keys - t.images.Keys <= ListedBy(inputs.imageList) + {MonitorFileName(inputs.stamp)}
  {
    match ListPhase(t, inputs.imageList, inputs.server, inputs.listTime)
    case Halted(u) => Halted(u)
    case Running(u) => Running(MonitorPhase(u, inputs.monitor, inputs.now, inputs.stamp))
  }

  /** One iteration of `fetch_data_thread`. The persisted file changes
      only when `/data` delivered an object, and then holds that object
      marked connected. */
  function Poll(s: AdminState, inputs: Inputs): (r: Step<AdminState>)
    ensures r.state.file != s.file ==>
              && FailureStatus(inputs.data).None?
              && r.state.file.Present?
              && KeyConnected in r.state.file.content
              && r.state.file.content[KeyConnected] == Bool(true)
    ensures FailureStatus(inputs.data).None? && inputs.data.body.value.Obj? ==>
              r.state.file == Present(FreshCache(inputs.data.body.value.fields, s.cache))
  {
    var (afterData, goOn) := DataPhase(s, inputs.data);
    if !goOn then afterData else ImagePhases(afterData.state, inputs)
  }

  /** A data request that raised (or a 200 body that does not parse, which
      raises the same way) skips both image phases: only `status` and
      `connected` change. */
  lemma RequestErrorSkipsImages(s: AdminState, inputs: Inputs)
    requires inputs.data.Unreachable? || (inputs.data.code == OkCode && inputs.data.body.Undecodable?)
    ensures FailureStatus(inputs.data).Some?
    ensures Poll(s, inputs) == Running(s.(cache := MarkDisconnected(s.cache, FailureStatus(inputs.data).value)))
  {
  }

  /** A non-200 `/data` answer: `status` and `connected` change, the data
      fields are kept, yet the image phases still run, so `latest_images`
      follows a 200 list answer. */
  lemma HttpErrorStillRunsImages(s: AdminState, inputs: Inputs)
    requires inputs.data.Answered? && inputs.data.code != OkCode
    ensures var r := Poll(s, inputs).state;
            && r.cache[KeyConnected] == Bool(false)
            && r.cache[KeyStatus] == Str(FailureStatus(inputs.data).value)
            && (forall k :: k in s.cache && k != KeyStatus && k != KeyConnected && k != KeyLatestImages ==>
                  k in r.cache && r.cache[k] == s.cache[k])
            && (ListAnswered(inputs.imageList) ==> r.cache[KeyLatestImages] == inputs.imageList.body.value)
            && r.file == s.file
  {
    var status := FailureStatus(inputs.data).value;
    var afterData := DataPhase(s, inputs.data).0.state;
    assert afterData.cache == MarkDisconnected(s.cache, status) && afterData.file == s.file;
    DisconnectedKeepsData(s.cache, status, inputs.imageList);
  }

  /** The cache of a failed data phase followed by a list phase keeps every
      data field. */
  lemma DisconnectedKeepsData(cache: Object, status: string, list: Relay.Poll)
    ensures var c1 := MarkDisconnected(cache, status);
            var c2 := if ListAnswered(list) then c1[KeyLatestImages := list.body.value] else c1;
            && c2[KeyConnected] == Bool(false)
            && c2[KeyStatus] == Str(status)
            && (forall k :: k in cache && k != KeyStatus && k != KeyConnected && k != KeyLatestImages ==>
                  k in c2 && c2[k] == cache[k])
  {
  }

  /** Every file a poll adds to the image directory is one of the first five
      listed images or the freshly saved monitor image. */
  lemma PollAddsFewFiles(s: AdminState, inputs: Inputs)
    ensures Poll(s, inputs).state.images.Keys - s.images.Keys
            <= ListedBy(inputs.imageList) + {MonitorFileName(inputs.stamp)}
    ensures |Poll(s, inputs).state.images.Keys - s.images.Keys| <= DownloadCap + 1
  {
    var added := Poll(s, inputs).state.images.Keys - s.images.Keys;
    var listed := ListedBy(inputs.imageList);
    if listed != {} {
      var items := FirstFive(inputs.imageList.body.value.items);
      assert |listed| <= |items| <= DownloadCap;
    }
    SubsetCard(added, listed + {MonitorFileName(inputs.stamp)});
    AddOneCard(listed, MonitorFileName(inputs.stamp));
  }

  // ---- serving ----------------------------------------------------------

  /** `/data`: a copy of the cache with `monitor_image_path` added exactly
      when a monitor path is set; the cache itself is not touched. */
  function GetData(s: AdminState): (r: Object)
    ensures HasPath(s.monitorPath) ==> r.Keys == s.cache.Keys + {KeyMonitorImagePath}
    ensures HasPath(s.monitorPath) ==> r[KeyMonitorImagePath] == Str(s.monitorPath.value)
    ensures !HasPath(s.monitorPath) ==> r == s.cache
    ensures forall k :: k in s.cache && k != KeyMonitorImagePath ==> k in r && r[k] == s.cache[k]
  {
    if HasPath(s.monitorPath) then s.cache[KeyMonitorImagePath := Str(s.monitorPath.value)] else s.cache
  }

  /** One entry of `os.listdir(IMAGE_CACHE_DIR)` with its modification time
      and contents. */
  datatype DirEntry = DirEntry(name: string, mtime: real, content: Bytes)

  /** Where the `/image` response came from. */
  datatype ImageReply = FromMemory(bytes: Bytes) | FromDirectory(entry: DirEntry) | Placeholder

  predicate IsJpegName(name: string)
  {
    Text.EndsWith(name, ".jpg") || Text.EndsWith(name, ".jpeg")
  }

  /** The entry the descending stable sort by modification time puts first,
      among the JPEG entries from index `from` on: one with the greatest
      modification time, the earliest in listing order among equals. */
  function NewestJpeg(listing: seq<DirEntry>, from: nat): (r: Option<nat>)
    requires from <= |listing|
    ensures r.None? <==> forall j :: from <= j < |listing| ==> !IsJpegName(listing[j].name)
    ensures r.Some? ==> from <= r.value < |listing| && IsJpegName(listing[r.value].name)
    ensures r.Some? ==> forall j :: from <= j < |listing| && IsJpegName(listing[j].name) ==>
              listing[j].mtime <= listing[r.value].mtime
    ensures r.Some? ==> forall j :: from <= j < r.value && IsJpegName(listing[j].name) ==>
              listing[j].mtime < listing[r.value].mtime
    decreases |listing| - from
  {
    if from == |listing| then None
    else
      var rest := NewestJpeg(listing, from + 1);
      if !IsJpegName(listing[from].name) then rest
      else if rest.None? || listing[from].mtime >= listing[rest.value].mtime then Some(from)
      else rest
  }

  /** `/image`: the in-memory monitor image when it is non-empty, else the
      newest JPEG of the cache directory, else a placeholder; some image is
      always returned. */
  function GetMonitorImage(image: Option<Bytes>, listing: seq<DirEntry>): (r: ImageReply)
    ensures r.FromMemory? <==> HasImage(image)
    ensures r.FromMemory? ==> r.bytes == image.value
    ensures r.Placeholder? <==> !HasImage(image) && forall j :: 0 <= j < |listing| ==> !IsJpegName(listing[j].name)
    ensures r.FromDirectory? ==>
              && r.entry in listing
              && IsJpegName(r.entry.name)
              && forall j :: 0 <= j < |listing| && IsJpegName(listing[j].name) ==> listing[j].mtime <= r.entry.mtime
  {
    if HasImage(image) then FromMemory(image.value)
    else match NewestJpeg(listing, 0)
      case Some(k) => FromDirectory(listing[k])
      case None => Placeholder
  }
}
