/** What test-1/client.py and test-1/admin.py share: the outcome of one HTTP
    poll of the publisher, the status strings they write, the way they mark
    the cache connected or disconnected, and the start-up load of the
    persisted cache file. */
module Relay {
  import opened Common
  import opened Json
  import Text

  /** How one `requests.get` of a JSON endpoint ended: an answer with its
      status code and what `response.json()` would make of its body, or a
      `RequestException` (timeout, refused connection, ...). */
  datatype Poll = Answered(code: int, body: Decoded) | Unreachable(reason: string)

  const OkCode: int := 200
  const KeyStatus: string := "status"
  const KeyConnected: string := "connected"
  const StatusConnected: string := "Connected"
  const StatusInitializing: string := "Initializing"
  const HttpErrorPrefix: string := "Error: HTTP "
  const ConnectionErrorPrefix: string := "Connection error: "

  /** The status text after a poll that did not deliver a JSON object:
      `None` exactly for a 200 answer whose body parsed. A 200 body that
      does not parse raises `requests.exceptions.JSONDecodeError`, itself a
      `RequestException`, so it is reported like an unreachable server. */
  function FailureStatus(p: Poll): (r: Option<string>)
    ensures r.None? <==> p.Answered? && p.code == OkCode && p.body.Parsed?
    ensures p.Answered? && p.code != OkCode ==>
              r == Some(HttpErrorPrefix + Text.IntToDecimal(p.code))
    ensures p.Unreachable? ==> r == Some(ConnectionErrorPrefix + p.reason)
    ensures p.Answered? && p.code == OkCode && p.body.Undecodable? ==>
              r == Some(ConnectionErrorPrefix + p.body.error)
  {
    match p
    case Unreachable(reason) => Some(ConnectionErrorPrefix + reason)
    case Answered(code, body) =>
      if code != OkCode then Some(HttpErrorPrefix + Text.IntToDecimal(code))
      else match body
        case Undecodable(e) => Some(ConnectionErrorPrefix + e)
        case Parsed(_) => None
  }

  /** The two assignments of the failure branches: `status` and
      `connected = False`; every other field is kept. */
  function MarkDisconnected(cache: Object, status: string): (r: Object)
    ensures r.Keys == cache.Keys + {KeyStatus, KeyConnected}
    ensures r[KeyStatus] == Str(status) && r[KeyConnected] == Bool(false)
    ensures forall k :: k in cache && k != KeyStatus && k != KeyConnected ==> r[k] == cache[k]
  {
    cache[KeyStatus := Str(status)][KeyConnected := Bool(false)]
  }

  /** The two assignments of the success branch on the fetched object. */
  function MarkConnected(data: Object): (r: Object)
    ensures r.Keys == data.Keys + {KeyStatus, KeyConnected}
    ensures r[KeyStatus] == Str(StatusConnected) && r[KeyConnected] == Bool(true)
    ensures forall k :: k in data && k != KeyStatus && k != KeyConnected ==> r[k] == data[k]
  {
    data[KeyStatus := Str(StatusConnected)][KeyConnected := Bool(true)]
  }

  /** Two caches agree on every data field, i.e. on everything but the two
      connectivity fields. */
  predicate SameData(a: Object, b: Object)
  {
    && a.Keys - {KeyStatus, KeyConnected} == b.Keys - {KeyStatus, KeyConnected}
    && forall k :: k in a && k in b && k != KeyStatus && k != KeyConnected ==> a[k] == b[k]
  }

  /** Marking a cache disconnected keeps its data. */
  lemma DisconnectKeepsData(cache: Object, status: string)
    ensures SameData(MarkDisconnected(cache, status), cache)
  {
  }

  /** Start-up in `main`: the persisted file replaces the defaults when it
      exists and parses; a missing file or a `JSONDecodeError` leaves the
      defaults. */
  function LoadPersisted(defaults: Object, file: FileState<Object>): (r: Object)
    ensures file.Present? ==> r == file.content
    ensures file.Missing? || file.Corrupt? ==> r == defaults
  {
    if file.Present? then file.content else defaults
  }
}
