/** test-1/client.py: a relay that polls the publisher's `/data` once per
    interval, keeps the last good record (stale but available when the
    publisher fails), persists it on every success and serves it as is. */
module ClientRelay {
  import opened Common
  import opened Json
  import opened Relay
  import Aggregator

  /** The relay's memory (`latest_data`) and its persisted file. */
  datatype ClientState = ClientState(cache: Object, file: FileState<Object>)

  /** `latest_data` before anything is fetched, stamped `now`. */
  function InitialCache(now: real): Object
  {
    map[
      Aggregator.KeyCam1 := Arr([]),
      Aggregator.KeyCam2 := Arr([]),
      Aggregator.KeyClosestObstacle := Num(0.0),
      Aggregator.KeyClosestVehicle := Num(0.0),
      Aggregator.KeyCameraDistance := Num(1.0),
      Aggregator.KeyTotal := Num(1.0),
      Aggregator.KeyTimestamp := Num(now),
      KeyStatus := Str(StatusInitializing),
      KeyConnected := Bool(false)]
  }

  /** The initial cache is the publisher's own fallback record, marked as
      initializing and not connected: no obstacle, no vehicle, and a total
      equal to the camera separation. */
  lemma InitialCacheIsFallbackRecord(now: real)
    ensures InitialCache(now)
            == MarkDisconnected(Aggregator.Encode(Aggregator.DefaultRecord(now)), StatusInitializing)
    ensures InitialCache(now)[Aggregator.KeyTotal] == InitialCache(now)[Aggregator.KeyCameraDistance] == Num(1.0)
  {
    var e := Aggregator.Encode(Aggregator.DefaultRecord(now));
    assert Aggregator.EncodeDetections([]) == Arr([]);
    var m := MarkDisconnected(e, StatusInitializing);
    assert m.Keys == InitialCache(now).Keys;
  }

  /** Start-up: the defaults, replaced by the persisted file when it loads. */
  function Start(file: FileState<Object>, now: real): (s: ClientState)
    ensures file.Present? ==> s.cache == file.content
    ensures !file.Present? ==> s.cache == InitialCache(now)
    ensures s.file == file
  {
    ClientState(LoadPersisted(InitialCache(now), file), file)
  }

  /** One iteration of `fetch_data_thread`. A 200 answer holding a JSON
      object replaces the cache wholesale by that object marked connected
      and writes it to the file. A 200 answer holding any other JSON value
      makes the `data['status'] = ...` assignment raise, which is not a
      `RequestException`, so the thread ends. Every other outcome sets only
      `status` and `connected`. */
  function Poll(s: ClientState, p: Relay.Poll): (r: Step<ClientState>)
    ensures FailureStatus(p).Some? ==>
              r == Running(s.(cache := MarkDisconnected(s.cache, FailureStatus(p).value)))
    ensures p.Answered? && p.code == OkCode && p.body.Parsed? && p.body.value.Obj? ==>
              && r.Running?
              && r.state.cache == MarkConnected(p.body.value.fields)
              && r.state.file == Present(r.state.cache)
    ensures p.Answered? && p.code == OkCode && p.body.Parsed? && !p.body.value.Obj? ==>
              r == Halted(s)
  {
    match FailureStatus(p)
    case Some(status) => Running(s.(cache := MarkDisconnected(s.cache, status)))
    case None =>
      match p.body.value
      case Obj(data) =>
        var cache := MarkConnected(data);
        Running(ClientState(cache, Present(cache)))
      case _ => Halted(s)
  }

  /** `/data`: the cache as it stands, with nothing added or recomputed; in
      particular no closest distance the publisher did not send. */
  function GetData(s: ClientState): (r: Object)
    ensures r == s.cache
  {
    s.cache
  }

  /** The file is written only by a successful poll, and then with exactly
      the new cache; so a restart right after it recovers that cache. */
  lemma {:induction false} PersistOnlyOnSuccess(s: ClientState, p: Relay.Poll, now: real)
    requires Poll(s, p).Running?
    ensures var r := Poll(s, p).state;
            && (r.file != s.file ==> FailureStatus(p).None? && r.file == Present(r.cache))
            && (FailureStatus(p).None? ==> Start(r.file, now).cache == r.cache)
  {
    if FailureStatus(p).None? {
      assert p.body.value.Obj?;
    }
  }

  /** Stale but available: after a successful poll delivering `data`, a
      failing poll leaves `/data` with `connected = False`, an error status,
      and exactly the data fields of `data`. */
  lemma StaleButAvailable(s: ClientState, data: Object, failure: Relay.Poll)
    requires FailureStatus(failure).Some?
    ensures var s1 := Poll(s, Answered(OkCode, Parsed(Obj(data)))).state;
            var r := Poll(s1, failure);
            && r.Running?
            && GetData(r.state)[KeyConnected] == Bool(false)
            && GetData(r.state)[KeyStatus] == Str(FailureStatus(failure).value)
            && SameData(GetData(r.state), data)
            && r.state.file == Present(MarkConnected(data))
  {
  }

  /** A publisher answering HTTP 500: an error status, not connected, and
      the cached distance fields untouched. */
  lemma Http500Scenario(s: ClientState, body: Decoded)
    ensures var r := Poll(s, Answered(500, body));
            && r.Running?
            && r.state.cache[KeyStatus] == Str("Error: HTTP 500")
            && r.state.cache[KeyConnected] == Bool(false)
            && (forall k :: k in s.cache && k != KeyStatus && k != KeyConnected ==> r.state.cache[k] == s.cache[k])
  {
    var d := Text.NatToDecimal(500);
    assert d == Text.NatToDecimal(50) + [Text.DigitChar(0)];
    assert Text.NatToDecimal(50) == Text.NatToDecimal(5) + [Text.DigitChar(0)];
    assert d == "500";
  }

  /** What the client serves after polling a publisher whose combined record
      is `c`: that record's fields, marked connected. */
  lemma RelaysPublisherRecord(s: ClientState, c: Aggregator.Combined)
    ensures var r := Poll(s, Answered(OkCode, Parsed(Obj(Aggregator.Encode(c)))));
            && r.Running?
            && GetData(r.state)[Aggregator.KeyTotal] == Num(c.total)
            && GetData(r.state)[Aggregator.KeyClosestObstacle] == Num(c.closestObstacle)
            && GetData(r.state)[KeyConnected] == Bool(true)
            && Aggregator.Decode(GetData(r.state)) == Some(c)
  {
    var e := Aggregator.Encode(c);
    var m := MarkConnected(e);
    assert forall k :: k in Aggregator.RecordKeys ==> k in m && m[k] == e[k];
    Aggregator.RecordRoundTrip(c);
  }
}
