/**
 * The client of `client.py`: it sets the host lists and static headers on its
 * transport, builds API-key bodies and log parameters, and its `_req` adds a
 * long API key to the body before handing the request to the transport.
 *
 * The transport object is created here (the `_transport is None` case);
 * `Transport` itself is not part of this model, only the attributes the client
 * assigns on it.  What `Transport.req` does with a request is not modelled: a
 * method returns the `Request` it hands over.
 */
module LegacyClient {
  import opened PyValues
  import opened Requests
  import opened ApiKeys

  /** The attributes `Client.__init__` assigns on its transport. */
  class Transport {
    var readHosts: seq<string>
    var writeHosts: seq<string>
    var headers: map<string, string>

    constructor() {
      readHosts := [];
      writeHosts := [];
      headers := map[];
    }
  }

  /** `'monitoring.validandgo.com/%s' % app_id`. */
  function DefaultHost(appId: string): (h: string)
    ensures "monitoring.validandgo.com/" <= h && h[|"monitoring.validandgo.com/"|..] == appId
  {
    "monitoring.validandgo.com/" + appId
  }

  class Client {
    const transport: Transport
    const appId: string
    const apiKey: string

    /** `Client(app_id, api_key, hosts)`.  A `hosts` of None or [] selects the default host,
        listed twice (once as primary, once as the only fallback); `random.shuffle` of the
        one-element fallback list leaves it as it is. */
    constructor(appId: string, apiKey: string, hosts: Option<seq<string>>,
                sdkVersion: string, pythonVersion: string)
      ensures fresh(transport)
      ensures this.appId == appId && this.apiKey == apiKey
      ensures hosts.None? || hosts.value == [] ==>
        && |transport.readHosts| == 2 && |transport.writeHosts| == 2
        && (forall i :: 0 <= i < 2 ==> transport.readHosts[i] == DefaultHost(appId))
        && (forall i :: 0 <= i < 2 ==> transport.writeHosts[i] == DefaultHost(appId))
      ensures hosts.Some? && hosts.value != [] ==>
        transport.readHosts == hosts.value && transport.writeHosts == hosts.value
      ensures transport.headers.Keys == {"X-Monitoring-Application-Id", "Content-Type", "Accept-Encoding", "User-Agent"}
      ensures transport.headers["X-Monitoring-Application-Id"] == appId
      ensures transport.headers["Content-Type"] == "gzip" && transport.headers["Accept-Encoding"] == "gzip"
      ensures transport.headers["User-Agent"] ==
        "Monitoring for Python (" + sdkVersion + "); Python (" + pythonVersion + ")"
    {
      var t := new Transport();
      if hosts.None? || hosts.value == [] {
        var fallbacks := [DefaultHost(appId)];
        t.readHosts := [DefaultHost(appId)];
        t.readHosts := t.readHosts + fallbacks;
        t.writeHosts := [DefaultHost(appId)];
        t.writeHosts := t.writeHosts + fallbacks;
      } else {
        t.readHosts := hosts.value;
        t.writeHosts := hosts.value;
      }
      t.headers := map[
        "X-Monitoring-Application-Id" := appId,
        "Content-Type" := "gzip",
        "Accept-Encoding" := "gzip",
        "User-Agent" := "Monitoring for Python (" + sdkVersion + "); Python (" + pythonVersion + ")"];
      transport := t;
      this.appId := appId;
      this.apiKey := apiKey;
    }

    /** `_req`: the request handed to `self._transport.req`, with the key added to the body
        (in place) when it is longer than `MAX_API_KEY_LENGTH`. */
    method Req(isSearch: bool, path: string, meth: string, params: Option<map<string, Value>>, data: PyDict?)
      returns (request: Request)
      modifies data
      ensures request == Request(isSearch, path, meth, params, WithApiKey(apiKey, old(Contents(data))))
      ensures data != null ==> Contents(data) == request.data
    {
      var sent := InjectApiKey(apiKey, data);
      request := Request(isSearch, path, meth, params, Contents(sent));
    }

    /** `add_api_key(obj, validity, max_queries_per_ip_per_hour, max_hits_per_query, indexes)`:
        POST /1/keys with the key body; a dict `obj` is the very object sent. */
    method AddApiKey(obj: KeyArg, validity: Value, maxQueriesPerIpPerHour: Value,
                     maxHitsPerQuery: Value, indexes: Value)
      returns (request: Request)
      modifies if obj.DictArg? then {obj.dict} else {}
      ensures !request.isSearch && request.path == "/1/keys" && request.meth == "POST" && request.params.None?
      ensures request.data == WithApiKey(apiKey, Some(WithLimits(old(InitialEntries(obj)), validity,
                                                                 maxQueriesPerIpPerHour, maxHitsPerQuery, indexes)))
      ensures obj.DictArg? ==> Some(obj.dict.entries) == request.data
    {
      var body := BuildKeyBody(obj, validity, maxQueriesPerIpPerHour, maxHitsPerQuery, indexes);
      request := Req(false, "/1/keys", "POST", None, body);
    }

    /** `update_api_key(api_key, obj, ...)`: PUT /1/keys/<api_key> with the key body. */
    method UpdateApiKey(key: string, obj: KeyArg, validity: Value, maxQueriesPerIpPerHour: Value,
                        maxHitsPerQuery: Value, indexes: Value)
      returns (request: Request)
      modifies if obj.DictArg? then {obj.dict} else {}
      ensures !request.isSearch && request.path == KeyPath(key) && request.meth == "PUT" && request.params.None?
      ensures request.data == WithApiKey(apiKey, Some(WithLimits(old(InitialEntries(obj)), validity,
                                                                 maxQueriesPerIpPerHour, maxHitsPerQuery, indexes)))
      ensures obj.DictArg? ==> Some(obj.dict.entries) == request.data
    {
      var body := BuildKeyBody(obj, validity, maxQueriesPerIpPerHour, maxHitsPerQuery, indexes);
      request := Req(false, KeyPath(key), "PUT", None, body);
    }

    /** `get_logs(offset, length, type)`: GET /1/logs with exactly these three parameters. */
    method GetLogs(offset: Value, length: Value, logType: Value) returns (request: Request)
      ensures !request.isSearch && request.path == "/1/logs" && request.meth == "GET"
      ensures request.params.Some? && request.params.value.Keys == {"offset", "length", "type"}
      ensures request.params.value["offset"] == offset && request.params.value["length"] == length
      ensures request.params.value["type"] == logType
      ensures request.data == WithApiKey(apiKey, None)
    {
      request := Req(false, "/1/logs", "GET", Some(map["offset" := offset, "length" := length, "type" := logType]), null);
    }
  }
}
