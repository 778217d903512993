/**
 * The parts of Go's net/http that the baseapp package drives: the header
 * map, which requests share by reference, and a response writer that
 * records, in order, every call made on it.
 */
module Http {
  import opened Bytes

  type HeaderMap = map<string, seq<string>>

  /** `Header.Values(key)`: the value list under key, empty when absent. */
  function ValuesOf(h: HeaderMap, key: string): seq<string>
  {
    if key in h then h[key] else []
  }

  /** `Header.Get(key)`: the first value under key, "" when there is none. */
  function FirstValue(h: HeaderMap, key: string): string
  {
    if key in h && |h[key]| > 0 then h[key][0] else ""
  }

  /**
   * An `http.Header` updated in place. Keys are compared exactly as given:
   * the canonicalisation that net/textproto applies to keys is not part of
   * this model.
   */
  class Header {
    var entries: HeaderMap

    constructor (entries: HeaderMap)
      ensures this.entries == entries
    {
      this.entries := entries;
    }

    function Values(key: string): seq<string>
      reads this
    {
      ValuesOf(entries, key)
    }

    /** `Header.Set`: replaces the list under key by the single value. */
    method Set(key: string, value: string)
      modifies this
      ensures entries == old(entries)[key := [value]]
    {
      entries := entries[key := [value]];
    }

    /** `Header.Del`: removes key. */
    method Del(key: string)
      modifies this
      ensures entries == old(entries) - {key}
    {
      entries := entries - {key};
    }

    /** `Header.Add`: appends value to the list under key. */
    method Add(key: string, value: string)
      modifies this
      ensures entries == old(entries)[key := ValuesOf(old(entries), key) + [value]]
    {
      entries := entries[key := ValuesOf(entries, key) + [value]];
    }
  }

  /** One thing a handler sent through an `http.ResponseWriter`. */
  datatype WriterEvent =
    | HeaderAdded(key: string, value: string)
    | StatusWritten(code: int)
    | BodyWritten(chunk: seq<Byte>)

  /** An `http.ResponseWriter` as the calls made on it, in order; what `net/http` then sends is not modelled. */
  class ResponseWriter {
    var events: seq<WriterEvent>

    constructor ()
      ensures events == []
    {
      events := [];
    }

    /** `w.Header().Add(key, value)`. */
    method AddHeader(key: string, value: string)
      modifies this
      ensures events == old(events) + [HeaderAdded(key, value)]
    {
      events := events + [HeaderAdded(key, value)];
    }

    /** `w.WriteHeader(code)`. */
    method WriteHeader(code: int)
      modifies this
      ensures events == old(events) + [StatusWritten(code)]
    {
      events := events + [StatusWritten(code)];
    }

    /** `w.Write(chunk)`; the whole chunk is accepted. */
    method Write(chunk: seq<Byte>) returns (n: int)
      modifies this
      ensures events == old(events) + [BodyWritten(chunk)]
      ensures n == |chunk|
    {
      events := events + [BodyWritten(chunk)];
      n := |chunk|;
    }
  }
}
