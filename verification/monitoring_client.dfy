/**
 * The client of `monitoring/client.py`: it is built from a transporter and a
 * configuration object that the two share, reads its credentials from that
 * configuration, and builds API-key bodies and log parameters like the older
 * client.
 *
 * `Requester` and `Transporter` are not part of this model: each is reduced to
 * what it is constructed from.  `_req` ends by calling `self._transport.req`,
 * an attribute this class never sets; only the body augmentation before that
 * call is modelled, and a method returns the request it would hand over.
 */
module MonitoringClient {
  import opened PyValues
  import opened Requests
  import opened ApiKeys
  import Configs
  import UserAgents

  class Requester {
    constructor() {}
  }

  class Transporter {
    const requester: Requester
    const config: Configs.MonitoringConfig

    constructor(requester: Requester, config: Configs.MonitoringConfig)
      ensures this.requester == requester && this.config == config
    {
      this.requester := requester;
      this.config := config;
    }
  }

  class Client {
    const transporter: Transporter
    const config: Configs.MonitoringConfig

    constructor(transporter: Transporter, config: Configs.MonitoringConfig)
      ensures this.transporter == transporter && this.config == config
    {
      this.transporter := transporter;
      this.config := config;
    }

    /** The `app_id` property: read from the configuration at each access. */
    function AppId(): (r: string)
      reads config
      ensures r == config.appId
    {
      config.appId
    }

    /** The `api_key` property: read from the configuration at each access. */
    function ApiKey(): (r: string)
      reads config
      ensures r == config.apiKey
    {
      config.apiKey
    }

    /** `Client.connect_with_config(config)`: a new requester and transporter, and a client,
        all sharing the one configuration object. */
    static method ConnectWithConfig(config: Configs.MonitoringConfig) returns (client: Client)
      ensures fresh(client) && fresh(client.transporter) && fresh(client.transporter.requester)
      ensures client.config == config && client.transporter.config == config
    {
      var requester := new Requester();
      var transporter := new Transporter(requester, config);
      client := new Client(transporter, config);
    }

    /** `Client.connect(app_id, api_key)`: one `MonitoringConfig`, shared by the transporter
        and the client; the configuration's KeyError and AssertionError pass through. */
    static method Connect(appId: Option<Scalar>, apiKey: Option<Scalar>, env: map<string, string>,
                          userAgent: UserAgents.UserAgent)
      returns (r: Result<Client, PyError>)
      ensures Configs.ResolveCredentials(appId, apiKey, env).Err? ==>
              r == Err(Configs.ResolveCredentials(appId, apiKey, env).error)
      ensures Configs.ResolveCredentials(appId, apiKey, env).Ok? ==>
              && r.Ok? && fresh(r.value) && fresh(r.value.config)
              && r.value.transporter.config == r.value.config
              && r.value.config.InitializedFor(Configs.ResolveCredentials(appId, apiKey, env).value.0,
                                               Configs.ResolveCredentials(appId, apiKey, env).value.1,
                                               userAgent.value)
              && r.value.AppId() == Str(Configs.ResolveCredentials(appId, apiKey, env).value.0)
              && r.value.ApiKey() == Str(Configs.ResolveCredentials(appId, apiKey, env).value.1)
    {
      var config := Configs.MonitoringConfig.New(appId, apiKey, env, userAgent);
      if config.Err? {
        return Err(config.error);
      }
      var client := ConnectWithConfig(config.value);
      r := Ok(client);
    }

    /** The body augmentation of `_req`, and the request it then hands on. */
    method Req(isSearch: bool, path: string, meth: string, params: Option<map<string, Value>>, data: PyDict?)
      returns (request: Request)
      modifies data
      ensures request == Request(isSearch, path, meth, params, WithApiKey(config.apiKey, old(Contents(data))))
      ensures data != null ==> Contents(data) == request.data
    {
      var sent := InjectApiKey(config.apiKey, data);
      request := Request(isSearch, path, meth, params, Contents(sent));
    }

    /** `add_api_key(obj, validity, max_queries_per_ip_per_hour, max_hits_per_query, indexes)`. */
    method AddApiKey(obj: KeyArg, validity: Value, maxQueriesPerIpPerHour: Value,
                     maxHitsPerQuery: Value, indexes: Value)
      returns (request: Request)
      modifies if obj.DictArg? then {obj.dict} else {}
      ensures !request.isSearch && request.path == "/1/keys" && request.meth == "POST" && request.params.None?
      ensures request.data == WithApiKey(config.apiKey, Some(WithLimits(old(InitialEntries(obj)), validity,
                                                                        maxQueriesPerIpPerHour, maxHitsPerQuery, indexes)))
      ensures obj.DictArg? ==> Some(obj.dict.entries) == request.data
    {
      var body := BuildKeyBody(obj, validity, maxQueriesPerIpPerHour, maxHitsPerQuery, indexes);
      request := Req(false, "/1/keys", "POST", None, body);
    }

    /** `update_api_key(api_key, obj, ...)`. */
    method UpdateApiKey(key: string, obj: KeyArg, validity: Value, maxQueriesPerIpPerHour: Value,
                        maxHitsPerQuery: Value, indexes: Value)
      returns (request: Request)
      modifies if obj.DictArg? then {obj.dict} else {}
      ensures !request.isSearch && request.path == KeyPath(key) && request.meth == "PUT" && request.params.None?
      ensures request.data == WithApiKey(config.apiKey, Some(WithLimits(old(InitialEntries(obj)), validity,
                                                                        maxQueriesPerIpPerHour, maxHitsPerQuery, indexes)))
      ensures obj.DictArg? ==> Some(obj.dict.entries) == request.data
    {
      var body := BuildKeyBody(obj, validity, maxQueriesPerIpPerHour, maxHitsPerQuery, indexes);
      request := Req(false, KeyPath(key), "PUT", None, body);
    }

    /** `get_logs(offset, length, type)`. */
    method GetLogs(offset: Value, length: Value, logType: Value) returns (request: Request)
      ensures !request.isSearch && request.path == "/1/logs" && request.meth == "GET"
      ensures request.params.Some? && request.params.value.Keys == {"offset", "length", "type"}
      ensures request.params.value["offset"] == offset && request.params.value["length"] == length
      ensures request.params.value["type"] == logType
      ensures request.data == WithApiKey(config.apiKey, None)
    {
      request := Req(false, "/1/logs", "GET", Some(map["offset" := offset, "length" := length, "type" := logType]), null);
    }
  }
}
