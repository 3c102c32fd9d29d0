/**
 * Client configuration (`monitoring/configs.py`): credentials with their
 * environment-variable fallback, timeout defaults, static headers and the
 * fixed host list built from the application id.
 *
 * `Config` (abstract, with `build_hosts` left to subclasses) and its only
 * subclass `MonitoringConfig` are one class here.  The process environment is
 * the parameter `env`.  `Host` and `HostsCollection` are not part of this
 * model: a host is the triple handed to the `Host` constructor and the
 * collection is the list handed to `HostsCollection`.
 */
module Configs {
  import opened PyValues
  import UserAgents

  const AppIdVariable := "VALIDANDGO_APP_ID"
  const ApiKeyVariable := "VALIDANDGO_API_KEY"

  const DefaultReadTimeout := 5        // seconds
  const DefaultWriteTimeout := 30      // seconds
  const DefaultConnectTimeout := 2     // seconds
  const DefaultWaitBeforeRetry := 100000  // microseconds
  const DefaultBatchSize := 1000

  /** `CallType.READ` and `CallType.WRITE`, the two members `build_hosts` names. */
  datatype CallType = Read | Write

  /** The arguments of one `Host(url, priority, accept)` call; `None` leaves the
      constructor's own default in place. */
  datatype Host = Host(url: string, priority: Option<int>, accept: Option<CallType>)

  /** `MonitoringConfig.build_hosts()` for the (stringified) application id. */
  function BuildHosts(appId: string): (r: seq<Host>)
    ensures |r| == 5
    ensures forall i :: 0 <= i < |r| ==> appId <= r[i].url && |appId| < |r[i].url|
    ensures r[0].accept == Some(Read) && r[0].priority == Some(10)
    ensures r[1].accept == Some(Write) && r[1].priority == Some(10)
    ensures forall i :: 2 <= i < |r| ==> r[i].priority.None? && r[i].accept.None?
  {
    [ Host(appId + "-dsn.validandgo.net", Some(10), Some(Read)),
      Host(appId + ".validandgo.net", Some(10), Some(Write)),
      Host(appId + "-1.validandgonet.com", None, None),
      Host(appId + "-2.validandgonet.com", None, None),
      Host(appId + "-3.validandgonet.com", None, None) ]
  }

  lemma SameStemDiffers(stem: string, s: string, t: string)
    requires s != t
    ensures stem + s != stem + t
  {
    assert (stem + s)[|stem|..] == s;
    assert (stem + t)[|stem|..] == t;
  }

  /** The five host names are pairwise distinct, and they determine the application id. */
  lemma BuildHostsDistinct(appId: string, other: string)
    ensures forall i, j :: 0 <= i < j < 5 ==> BuildHosts(appId)[i].url != BuildHosts(appId)[j].url
    ensures BuildHosts(appId) == BuildHosts(other) ==> appId == other
  {
    var suffixes := ["-dsn.validandgo.net", ".validandgo.net", "-1.validandgonet.com",
                     "-2.validandgonet.com", "-3.validandgonet.com"];
    var r := BuildHosts(appId);
    forall i, j | 0 <= i < j < 5 ensures r[i].url != r[j].url {
      assert r[i].url == appId + suffixes[i] && r[j].url == appId + suffixes[j];
      assert suffixes[i] != suffixes[j] by {
        if |suffixes[i]| == |suffixes[j]| {
          assert suffixes[i][1] != suffixes[j][1];
        }
      }
      SameStemDiffers(appId, suffixes[i], suffixes[j]);
    }
    if BuildHosts(appId) == BuildHosts(other) {
      var u := BuildHosts(appId)[1].url;
      assert u == appId + suffixes[1] && u == other + suffixes[1];
      assert u[..|u| - |suffixes[1]|] == appId;
      assert u[..|u| - |suffixes[1]|] == other;
    }
  }

  /** `x` if given, else the environment variable `name` (KeyError when unset). */
  function FromEnvironment(x: Option<Scalar>, name: string, env: map<string, string>): (r: Option<Scalar>)
    ensures x.Some? ==> r == x
    ensures x.None? ==> (r.Some? <==> name in env)
    ensures x.None? && name in env ==> r == Some(Text(env[name]))
  {
    if x.Some? then x else if name in env then Some(Text(env[name])) else None
  }

  /** The first lines of `Config.__init__`: environment fallback, then `assert app_id`
      on the value as given (not on `str(app_id)`). */
  function ResolveCredentials(appId: Option<Scalar>, apiKey: Option<Scalar>, env: map<string, string>)
    : (r: Result<(Scalar, Scalar), PyError>)
    ensures appId.None? && AppIdVariable !in env ==> r == Err(KeyError(AppIdVariable))
    ensures (appId.Some? || AppIdVariable in env) && apiKey.None? && ApiKeyVariable !in env
            ==> r == Err(KeyError(ApiKeyVariable))
    ensures r.Ok? <==>
            FromEnvironment(appId, AppIdVariable, env).Some? &&
            FromEnvironment(apiKey, ApiKeyVariable, env).Some? &&
            ScalarTruthy(FromEnvironment(appId, AppIdVariable, env).value)
    ensures r.Ok? ==> r.value == (FromEnvironment(appId, AppIdVariable, env).value,
                                  FromEnvironment(apiKey, ApiKeyVariable, env).value)
    ensures r.Err? && !r.error.KeyError? ==> r.error == AssertionError("app_id cannot be empty.")
    ensures FromEnvironment(appId, AppIdVariable, env).Some? && FromEnvironment(apiKey, ApiKeyVariable, env).Some? &&
            !ScalarTruthy(FromEnvironment(appId, AppIdVariable, env).value)
            ==> r == Err(AssertionError("app_id cannot be empty."))
  {
    var a := FromEnvironment(appId, AppIdVariable, env);
    var k := FromEnvironment(apiKey, ApiKeyVariable, env);
    if a.None? then Err(KeyError(AppIdVariable))
    else if k.None? then Err(KeyError(ApiKeyVariable))
    else if !ScalarTruthy(a.value) then Err(AssertionError("app_id cannot be empty."))
    else Ok((a.value, k.value))
  }

  /** The check is on the value given: an `app_id` of 0 is refused although `str(0)` is "0". */
  lemma ZeroAppIdRefused(apiKey: Scalar, env: map<string, string>)
    ensures Str(Number(0)) == "0"
    ensures ResolveCredentials(Some(Number(0)), Some(apiKey), env) == Err(AssertionError("app_id cannot be empty."))
  {
  }

  class MonitoringConfig {
    var appId: string
    var apiKey: string
    var readTimeout: int
    var writeTimeout: int
    var connectTimeout: int
    var waitTaskTimeBeforeRetry: int
    var hosts: seq<Host>
    var headers: map<string, Scalar>
    var batchSize: int

    /** The state `MonitoringConfig(app_id, api_key)` leaves behind for the resolved credentials
        and the User-Agent value of that moment. */
    ghost predicate InitializedFor(appId: Scalar, apiKey: Scalar, userAgent: string)
      reads this
    {
      && this.appId == Str(appId) && this.apiKey == Str(apiKey)
      && readTimeout == DefaultReadTimeout && writeTimeout == DefaultWriteTimeout
      && connectTimeout == DefaultConnectTimeout
      && waitTaskTimeBeforeRetry == DefaultWaitBeforeRetry
      && hosts == BuildHosts(Str(appId))
      && headers.Keys == {"X-Validandgo-Application-Id", "X-Validandgo-API-Key", "User-Agent", "Content-Type"}
      && headers["X-Validandgo-Application-Id"] == appId
      && headers["X-Validandgo-API-Key"] == apiKey
      && headers["User-Agent"] == Text(userAgent)
      && headers["Content-Type"] == Text("application/json")
      && batchSize == DefaultBatchSize
    }

    /** `Config.__init__` then `MonitoringConfig.__init__`, once the credentials are resolved. */
    constructor(appId: Scalar, apiKey: Scalar, userAgent: UserAgents.UserAgent)
      ensures InitializedFor(appId, apiKey, userAgent.value)
    {
      this.appId := Str(appId);
      this.apiKey := Str(apiKey);
      readTimeout := DefaultReadTimeout;
      writeTimeout := DefaultWriteTimeout;
      connectTimeout := DefaultConnectTimeout;
      waitTaskTimeBeforeRetry := DefaultWaitBeforeRetry;
      hosts := BuildHosts(Str(appId));
      headers := map[
        "X-Validandgo-Application-Id" := appId,
        "X-Validandgo-API-Key" := apiKey,
        "User-Agent" := Text(userAgent.value),
        "Content-Type" := Text("application/json")];
      batchSize := DefaultBatchSize;
    }

    /** `MonitoringConfig(app_id, api_key)`, with its KeyError and AssertionError paths. */
    static method New(appId: Option<Scalar>, apiKey: Option<Scalar>, env: map<string, string>,
                      userAgent: UserAgents.UserAgent)
      returns (r: Result<MonitoringConfig, PyError>)
      ensures ResolveCredentials(appId, apiKey, env).Err? ==>
              r == Err(ResolveCredentials(appId, apiKey, env).error)
      ensures ResolveCredentials(appId, apiKey, env).Ok? ==>
              && r.Ok? && fresh(r.value)
              && r.value.InitializedFor(ResolveCredentials(appId, apiKey, env).value.0,
                                        ResolveCredentials(appId, apiKey, env).value.1, userAgent.value)
    {
      var credentials := ResolveCredentials(appId, apiKey, env);
      if credentials.Err? {
        return Err(credentials.error);
      }
      var config := new MonitoringConfig(credentials.value.0, credentials.value.1, userAgent);
      r := Ok(config);
    }
  }
}
