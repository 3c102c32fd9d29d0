/**
 * What a client's `_req` hands on to its transport, and the one thing `_req`
 * itself does to it: put the API key into the body when the key is too long
 * to travel in a header (`client.py`, `monitoring/client.py`).
 */
module Requests {
  import opened PyValues

  /** `MAX_API_KEY_LENGTH`. */
  const MaxApiKeyLength := 500

  /** A Python dict object; an update through one reference is seen through all of them. */
  class PyDict {
    var entries: map<string, Value>

    constructor(entries: map<string, Value>)
      ensures this.entries == entries
    {
      this.entries := entries;
    }
  }

  /** The entries of an optional dict object (`None` for Python None). */
  function Contents(d: PyDict?): Option<map<string, Value>>
    reads d
  {
    if d == null then None else Some(d.entries)
  }

  /** The arguments of one `transport.req(is_search, path, meth, params, data, request_options)`
      call; `request_options` are passed through untouched and are not modelled. */
  datatype Request = Request(
    isSearch: bool,
    path: string,
    meth: string,
    params: Option<map<string, Value>>,
    data: Option<map<string, Value>>)

  /** The body `_req` sends: with `apiKey` added iff the key is longer than `MaxApiKeyLength`. */
  function WithApiKey(apiKey: string, data: Option<map<string, Value>>): (r: Option<map<string, Value>>)
    ensures |apiKey| <= MaxApiKeyLength ==> r == data
    ensures |apiKey| > MaxApiKeyLength ==>
      && r.Some?
      && r.value.Keys == (if data.Some? then data.value.Keys else {}) + {"apiKey"}
      && r.value["apiKey"] == VStr(apiKey)
      && (data.Some? ==> forall k :: k in data.value && k != "apiKey" ==> r.value[k] == data.value[k])
  {
    if |apiKey| > MaxApiKeyLength then
      var body := if data.None? then map[] else data.value;
      Some(body["apiKey" := VStr(apiKey)])
    else data
  }

  /** The key travels in the body exactly when it is longer than 500 characters: a key of
      exactly 500 characters is not added. */
  lemma ApiKeyThreshold(apiKey: string, data: Option<map<string, Value>>)
    requires data.None? || "apiKey" !in data.value
    ensures (WithApiKey(apiKey, data).Some? && "apiKey" in WithApiKey(apiKey, data).value)
            <==> |apiKey| > MaxApiKeyLength
  {
  }

  /** The body step of both clients' `_req`: `data` is updated in place, or created when
      it is None and the key is long. */
  method InjectApiKey(apiKey: string, data: PyDict?) returns (sent: PyDict?)
    modifies data
    ensures data != null || |apiKey| <= MaxApiKeyLength ==> sent == data
    ensures data == null && |apiKey| > MaxApiKeyLength ==> sent != null && fresh(sent)
    ensures Contents(sent) == WithApiKey(apiKey, old(Contents(data)))
  {
    sent := data;
    if |apiKey| > MaxApiKeyLength {
      if sent == null {
        sent := new PyDict(map[]);
      }
      sent.entries := sent.entries["apiKey" := VStr(apiKey)];
    }
  }
}
