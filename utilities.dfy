/**
 * Request helpers of baseapp/utilities.go: correlation parameters taken from
 * request headers, the redaction of authentication headers while a request
 * is logged, the listen address, pagination defaults and JSON responses.
 */
module Utilities {
  import opened Wrappers
  import opened Bytes
  import opened Http

  // ---------------------------------------------------------------------------
  // Correlation parameters
  // ---------------------------------------------------------------------------

  /** `log.CorrelationParam`: the identifiers that tie log lines to one request. */
  datatype CorrelationParam = CorrelationParam(
    correlationId: string,
    scenarioId: string,
    scenarioName: string,
    sessionId: string)

  const CorrelationIdHeader := "x-correlation-id"
  const ScenarioIdHeader := "x-scenario-id"
  const ScenarioNameHeader := "x-scenario-name"
  const SessionIdHeader := "x-session-id"

  /**
   * Without an `x-correlation-id` the service's default parameters are used
   * (`defaultParams` stands for `log.GetDefaultCorrelationParams`); otherwise
   * the four headers are copied as they are.
   */
  function GetHttpCorrelationParams(
    h: HeaderMap, serviceName: string, defaultParams: string -> CorrelationParam): (c: CorrelationParam)
    ensures FirstValue(h, CorrelationIdHeader) == "" ==> c == defaultParams(serviceName)
    ensures FirstValue(h, CorrelationIdHeader) != "" ==>
      && c.correlationId == FirstValue(h, CorrelationIdHeader)
      && c.scenarioId == FirstValue(h, ScenarioIdHeader)
      && c.scenarioName == FirstValue(h, ScenarioNameHeader)
      && c.sessionId == FirstValue(h, SessionIdHeader)
  {
    var correlationId := FirstValue(h, CorrelationIdHeader);
    if correlationId == "" then
      defaultParams(serviceName)
    else
      CorrelationParam(
        correlationId,
        FirstValue(h, ScenarioIdHeader),
        FirstValue(h, ScenarioNameHeader),
        FirstValue(h, SessionIdHeader))
  }

  /** The headers a caller sends to propagate c; empty identifiers are not sent. */
  function CorrelationHeaders(c: CorrelationParam): HeaderMap
  {
    var h0: HeaderMap := map[CorrelationIdHeader := [c.correlationId]];
    var h1 := if c.scenarioId == "" then h0 else h0[ScenarioIdHeader := [c.scenarioId]];
    var h2 := if c.scenarioName == "" then h1 else h1[ScenarioNameHeader := [c.scenarioName]];
    if c.sessionId == "" then h2 else h2[SessionIdHeader := [c.sessionId]]
  }

  /**
   * Propagated parameters are read back unchanged, whatever other headers
   * the request carries, as long as the correlation id is not empty.
   */
  lemma CorrelationRoundTrip(
    c: CorrelationParam, other: HeaderMap, serviceName: string, defaultParams: string -> CorrelationParam)
    requires c.correlationId != ""
    requires CorrelationIdHeader !in other && ScenarioIdHeader !in other
    requires ScenarioNameHeader !in other && SessionIdHeader !in other
    ensures GetHttpCorrelationParams(other + CorrelationHeaders(c), serviceName, defaultParams) == c
  {
  }

  // ---------------------------------------------------------------------------
  // Redaction of authentication headers in PrintRequest
  // ---------------------------------------------------------------------------

  const RedactedValue := "---redacted---"

  /** The header map and the saved originals (`popList`) after the redaction loop. */
  datatype RedactState = RedactState(header: HeaderMap, popList: map<string, seq<string>>)

  /**
   * One turn of the redaction loop: a key whose current value list is
   * non-empty has that list saved and is set to the single value
   * "---redacted---"; a key without values is skipped.
   */
  function RedactStep(s: RedactState, key: string): RedactState
  {
    var val := ValuesOf(s.header, key);
    if |val| != 0 then RedactState(s.header[key := [RedactedValue]], s.popList[key := val])
    else s
  }

  /**
   * The redaction loop over `AuthHeaderKeyList`. Each turn reads the header as
   * the earlier turns left it, so a key listed twice saves the redacted value.
   */
  function RedactPass(h: HeaderMap, keys: seq<string>): RedactState
    decreases |keys|
  {
    if keys == [] then RedactState(h, map[])
    else RedactStep(RedactPass(h, keys[..|keys| - 1]), keys[|keys| - 1])
  }

  /** What a logged header shows under key k: the marker if k is listed and has values. */
  function RedactedView(h: HeaderMap, keys: seq<string>, k: string): seq<string>
  {
    if k in keys && |ValuesOf(h, k)| > 0 then [RedactedValue] else ValuesOf(h, k)
  }

  predicate NoDuplicates(keys: seq<string>)
  {
    forall i, j :: 0 <= i < j < |keys| ==> keys[i] != keys[j]
  }

  /**
   * While the request is logged, each listed key with values reads
   * "---redacted---"; listed keys without values and unlisted keys are as
   * before, and no key appears or disappears.
   */
  lemma {:induction false} RedactPassHeader(h: HeaderMap, keys: seq<string>)
    ensures RedactPass(h, keys).header.Keys == h.Keys
    ensures forall k :: ValuesOf(RedactPass(h, keys).header, k) == RedactedView(h, keys, k)
    decreases |keys|
  {
    if keys != [] {
      var init, key := keys[..|keys| - 1], keys[|keys| - 1];
      RedactPassHeader(h, init);
      assert keys == init + [key];
      var prev := RedactPass(h, init);
      forall k ensures ValuesOf(RedactPass(h, keys).header, k) == RedactedView(h, keys, k) {
        assert k in keys <==> k in init || k == key;
        assert ValuesOf(prev.header, k) == RedactedView(h, init, k);
      }
    }
  }

  /** The keys saved are exactly the listed keys that had values, each with a non-empty list. */
  lemma {:induction false} RedactPassSaved(h: HeaderMap, keys: seq<string>)
    ensures forall k :: k in RedactPass(h, keys).popList <==> k in keys && |ValuesOf(h, k)| > 0
    ensures forall k :: k in RedactPass(h, keys).popList ==> |RedactPass(h, keys).popList[k]| > 0
    decreases |keys|
  {
    if keys != [] {
      var init, key := keys[..|keys| - 1], keys[|keys| - 1];
      RedactPassSaved(h, init);
      RedactPassHeader(h, init);
      assert keys == init + [key];
      var prev := RedactPass(h, init);
      assert ValuesOf(prev.header, key) == RedactedView(h, init, key);
      forall k ensures k in RedactPass(h, keys).popList <==> k in keys && |ValuesOf(h, k)| > 0 {
        assert k in keys <==> k in init || k == key;
      }
    }
  }

  /** Without repeated keys each saved list is the original one. */
  lemma {:induction false} RedactPassSavesOriginals(h: HeaderMap, keys: seq<string>)
    requires NoDuplicates(keys)
    ensures forall k :: k in RedactPass(h, keys).popList ==> RedactPass(h, keys).popList[k] == ValuesOf(h, k)
    decreases |keys|
  {
    if keys != [] {
      var init, key := keys[..|keys| - 1], keys[|keys| - 1];
      assert NoDuplicates(init);
      RedactPassSavesOriginals(h, init);
      RedactPassHeader(h, init);
      assert key !in init;
      assert ValuesOf(RedactPass(h, init).header, key) == ValuesOf(h, key);
    }
  }

  /**
   * Putting the saved lists back (`Del` then `Add` of each saved value)
   * leaves each saved key holding its saved list: the logged header
   * overridden by the saved map.
   */
  function Restored(logged: HeaderMap, popList: map<string, seq<string>>): HeaderMap
  {
    logged + popList
  }

  /** With no repeated key the header ends exactly as it was before logging. */
  lemma RedactRestoreIdentity(h: HeaderMap, keys: seq<string>)
    requires NoDuplicates(keys)
    ensures var s := RedactPass(h, keys); Restored(s.header, s.popList) == h
  {
    var s := RedactPass(h, keys);
    RedactPassHeader(h, keys);
    RedactPassSaved(h, keys);
    RedactPassSavesOriginals(h, keys);
    var r := Restored(s.header, s.popList);
    forall k | k in h ensures k in r && r[k] == h[k] {
      if k !in s.popList {
        assert ValuesOf(s.header, k) == ValuesOf(h, k);
      }
    }
  }

  /**
   * A key listed twice loses its value: the second pass saves the redacted
   * list, so after the request is logged the header keeps "---redacted---".
   */
  lemma {:induction false} DuplicateKeyKeepsRedaction(h: HeaderMap, keys: seq<string>, i: nat, j: nat)
    requires i < j < |keys| && keys[i] == keys[j] && |ValuesOf(h, keys[i])| > 0
    ensures var s := RedactPass(h, keys);
      keys[i] in Restored(s.header, s.popList) && Restored(s.header, s.popList)[keys[i]] == [RedactedValue]
    decreases |keys|
  {
    var init, key := keys[..|keys| - 1], keys[|keys| - 1];
    assert keys == init + [key];
    var k := keys[i];
    var prev := RedactPass(h, init);
    RedactPassHeader(h, init);
    assert ValuesOf(prev.header, k) == RedactedView(h, init, k);
    if j == |keys| - 1 {
      assert init[i] == k;
    } else {
      DuplicateKeyKeepsRedaction(h, init, i, j);
      assert init[i] == k;
    }
  }

  /** The first loop of `PrintRequest`: redact the listed keys, returning the saved lists. */
  method RedactAuthHeaders(h: Header, authKeys: seq<string>) returns (popList: map<string, seq<string>>)
    modifies h
    ensures RedactState(h.entries, popList) == RedactPass(old(h.entries), authKeys)
  {
    popList := map[];
    for i := 0 to |authKeys|
      invariant RedactPass(old(h.entries), authKeys[..i]) == RedactState(h.entries, popList)
    {
      var key := authKeys[i];
      var val := h.Values(key);
      if |val| != 0 {
        popList := popList[key := val];
        h.Set(key, RedactedValue);
      }
      assert authKeys[..i + 1][..i] == authKeys[..i];
    }
    assert authKeys[..|authKeys|] == authKeys;
  }

  /** The inner restore step: `Del(key)` then `Add(key, v)` for each saved v. */
  method ReplaceValues(h: Header, key: string, values: seq<string>)
    requires |values| > 0
    modifies h
    ensures h.entries == old(h.entries)[key := values]
  {
    h.Del(key);
    for j := 0 to |values|
      invariant j == 0 ==> h.entries == old(h.entries) - {key}
      invariant j > 0 ==> h.entries == old(h.entries)[key := values[..j]]
    {
      h.Add(key, values[j]);
      assert values[..j + 1] == values[..j] + [values[j]];
    }
    assert values[..|values|] == values;
  }

  /** The second loop of `PrintRequest`: put every saved list back, in any key order. */
  method RestoreAuthHeaders(h: Header, popList: map<string, seq<string>>)
    requires forall k :: k in popList ==> |popList[k]| > 0
    modifies h
    ensures h.entries == Restored(old(h.entries), popList)
  {
    var remaining := popList.Keys;
    while remaining != {}
      invariant remaining <= popList.Keys
      invariant h.entries == old(h.entries) + (popList - remaining)
      decreases remaining
    {
      var key :| key in remaining;
      ghost var done := popList - remaining;
      ReplaceValues(h, key, popList[key]);
      remaining := remaining - {key};
      assert popList - remaining == done[key := popList[key]];
    }
    assert popList - {} == popList;
  }

  /**
   * The header handling of `PrintRequest`: redact the listed keys, log the
   * header (returned here as `logged`), then restore the saved lists.
   */
  method PrintRequest(h: Header, authKeys: seq<string>) returns (logged: HeaderMap)
    modifies h
    ensures logged == RedactPass(old(h.entries), authKeys).header
    ensures h.entries == Restored(logged, RedactPass(old(h.entries), authKeys).popList)
    ensures NoDuplicates(authKeys) ==> h.entries == old(h.entries)
  {
    var popList := RedactAuthHeaders(h, authKeys);
    logged := h.entries;
    RedactPassSaved(old(h.entries), authKeys);
    RestoreAuthHeaders(h, popList);
    if NoDuplicates(authKeys) {
      RedactRestoreIdentity(old(h.entries), authKeys);
    }
  }

  // ---------------------------------------------------------------------------
  // Listen address
  // ---------------------------------------------------------------------------

  /** `fmt.Sprintf("%v:%v", host, port)`, with the port given as its printed form. */
  function GetPort(host: string, port: string): (addr: string)
    ensures |addr| == |host| + 1 + |port|
    ensures addr[..|host|] == host && addr[|host|] == ':' && addr[|host| + 1..] == port
  {
    host + ":" + port
  }

  /** The index of the last c in s, if any. */
  function LastIndexOf(s: string, c: char): (r: Option<nat>)
    ensures r.None? ==> c !in s
    ensures r.Some? ==> r.value < |s| && s[r.value] == c
    ensures r.Some? ==> forall j :: r.value < j < |s| ==> s[j] != c
    decreases |s|
  {
    if s == [] then None
    else if s[|s| - 1] == c then Some(|s| - 1)
    else LastIndexOf(s[..|s| - 1], c)
  }

  /** Splitting an address at its last colon: the part before it and the part after it. */
  function SplitAtLastColon(addr: string): Option<(string, string)>
  {
    match LastIndexOf(addr, ':')
    case None => None
    case Some(i) => Some((addr[..i], addr[i + 1..]))
  }

  /** A port without a colon is recovered, with the host, from the address GetPort builds. */
  lemma GetPortSplitsBack(host: string, port: string)
    requires ':' !in port
    ensures SplitAtLastColon(GetPort(host, port)) == Some((host, port))
  {
  }

  // ---------------------------------------------------------------------------
  // Pagination defaults
  // ---------------------------------------------------------------------------

  /** `Filter`: page number, page size, sort key and an optional direction. */
  datatype Filter = Filter(pageNo: int, limit: int, sortBy: string, asc: Option<bool>)

  const DefaultPageNo := 1
  const DefaultLimit := 10

  const DecodePrefix := "baseapp.SetDefault : "
  const EncodePrefix := "app.SetDefault : "

  /** The two transformer failures, wrapped under the prefixes the source uses. */
  datatype PaginationError = DecodeFailed(cause: string) | EncodeFailed(cause: string)
  {
    /**
     * `fmt.Errorf` wrapping: the cause's text comes last, behind the prefix of
     * the step that failed.
     */
    function Message(): (m: string)
      ensures |m| > |cause| && m[|m| - |cause|..] == cause
      ensures DecodeFailed? ==> |m| >= |DecodePrefix| && m[..|DecodePrefix|] == DecodePrefix
      ensures EncodeFailed? ==> |m| >= |EncodePrefix| && m[..|EncodePrefix|] == EncodePrefix
      ensures DecodeFailed? ==> m == DecodePrefix + cause
      ensures EncodeFailed? ==> m == EncodePrefix + cause
    {
      match this
      case DecodeFailed(c) => DecodePrefix + c
      case EncodeFailed(c) => EncodePrefix + c
    }
  }

  /**
   * g is f with the pagination defaults applied: each unusable field
   * replaced by its default, each usable one kept.
   */
  ghost predicate DefaultsApplied(f: Filter, g: Filter, defaultSortBy: string)
  {
    && (if f.pageNo <= 0 then g.pageNo == DefaultPageNo else g.pageNo == f.pageNo)
    && (if f.limit <= 0 then g.limit == DefaultLimit else g.limit == f.limit)
    && (if f.sortBy == "" then g.sortBy == defaultSortBy else g.sortBy == f.sortBy)
    && (if f.asc.None? then g.asc == Some(true) else g.asc == f.asc)
  }

  /**
   * `SetDefaultPagination`. `decoded` is what the JSON transformer made of
   * the caller's filter; `encode` is the transformer writing the defaulted
   * filter back into it, returning its error if it fails. `written` is the
   * filter handed to that second transformer.
   */
  method SetDefaultPagination(
    decoded: Result<Filter, string>, defaultSortBy: string, encode: Filter -> Option<string>)
    returns (written: Option<Filter>, err: Option<PaginationError>)
    ensures decoded.Failure? ==> written.None? && err == Some(DecodeFailed(decoded.error))
    ensures decoded.Success? ==>
      && written.Some?
      && DefaultsApplied(decoded.value, written.value, defaultSortBy)
      && err == match encode(written.value)
                case None => None
                case Some(e) => Some(EncodeFailed(e))
  {
    if decoded.Failure? {
      return None, Some(DecodeFailed(decoded.error));
    }
    var filter := decoded.value;
    if filter.pageNo <= 0 {
      filter := filter.(pageNo := DefaultPageNo);
    }
    if filter.limit <= 0 {
      filter := filter.(limit := DefaultLimit);
    }
    if filter.sortBy == "" {
      filter := filter.(sortBy := defaultSortBy);
    }
    if filter.asc.None? {
      filter := filter.(asc := Some(true));
    }
    written := Some(filter);
    match encode(filter) {
      case None => err := None;
      case Some(e) => err := Some(EncodeFailed(e));
    }
  }

  /** After the defaults, the page number and size are positive and a direction is set. */
  lemma DefaultsAreUsable(f: Filter, g: Filter, defaultSortBy: string)
    requires DefaultsApplied(f, g, defaultSortBy)
    ensures g.pageNo >= 1 && g.limit >= 1 && g.asc.Some?
    ensures defaultSortBy != "" ==> g.sortBy != ""
  {
  }

  /** Applying the defaults twice is applying them once. */
  lemma DefaultsIdempotent(f: Filter, g: Filter, defaultSortBy: string)
    requires DefaultsApplied(f, g, defaultSortBy)
    ensures DefaultsApplied(g, g, defaultSortBy)
  {
  }

  /** A filter whose fields are all usable is left as it is. */
  lemma DefaultsKeepUsableFilter(f: Filter, g: Filter, defaultSortBy: string)
    requires f.pageNo > 0 && f.limit > 0 && f.sortBy != "" && f.asc.Some?
    requires DefaultsApplied(f, g, defaultSortBy)
    ensures g == f
  {
  }

  // ---------------------------------------------------------------------------
  // JSON responses
  // ---------------------------------------------------------------------------

  const ContentTypeHeader := "Content-Type"
  const JsonContentType := "application/json"
  const StatusOK := 200

  /** A response body: raw bytes sent as they are, or a value to be marshalled. */
  datatype ResponseBody<V> = RawBytes(bytes: seq<Byte>) | Marshalled(value: V)

  /** The bytes sent for a body; `marshal` stands for `json.Marshal`. */
  function BodyBytes<V>(body: ResponseBody<V>, marshal: V -> Option<seq<Byte>>): seq<Byte>
    requires body.Marshalled? ==> marshal(body.value).Some?
  {
    match body
    case RawBytes(b) => b
    case Marshalled(v) => marshal(v).value
  }

  /** A JSON response on the wire: the content type, then the status, then the body. */
  function JsonResponse(statusCode: int, blob: seq<Byte>): (events: seq<WriterEvent>)
  {
    [HeaderAdded(ContentTypeHeader, JsonContentType), StatusWritten(statusCode), BodyWritten(blob)]
  }

  /**
   * `WriteJsonWithStatusCode`. A body that fails to marshal makes the source
   * panic, so the caller must supply one that marshals.
   */
  method WriteJsonWithStatusCode<V>(
    w: ResponseWriter, statusCode: int, body: ResponseBody<V>, marshal: V -> Option<seq<Byte>>)
    requires body.Marshalled? ==> marshal(body.value).Some?
    modifies w
    ensures w.events == old(w.events) + JsonResponse(statusCode, BodyBytes(body, marshal))
  {
    var blob: seq<Byte>;
    if body.RawBytes? {
      blob := body.bytes;
    } else {
      blob := marshal(body.value).value;
    }
    w.AddHeader(ContentTypeHeader, JsonContentType);
    w.WriteHeader(statusCode);
    var _ := w.Write(blob);
  }

  /** `WriteJson`: a JSON response with status 200. */
  method WriteJson<V>(w: ResponseWriter, body: ResponseBody<V>, marshal: V -> Option<seq<Byte>>)
    requires body.Marshalled? ==> marshal(body.value).Some?
    modifies w
    ensures w.events == old(w.events) + JsonResponse(StatusOK, BodyBytes(body, marshal))
  {
    WriteJsonWithStatusCode(w, StatusOK, body, marshal);
  }
}
