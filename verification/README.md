# Valid&GO monitoring SDK for Python — a Dafny model of its request-building core

This project models the part of the monitoring SDK that decides what is sent
to the service, not how it is sent:

- the URL helpers (`safe`, `endpoint`, `rotate`, `urlify`, `encode`,
  `get_items`);
- the process-wide User-Agent string;
- the configuration object. It resolves credentials from the arguments or
  the environment, sets the timeouts and headers, and builds the fixed host
  list from the application id;
- the two client classes. `client.py` is the older client, which creates its
  own transport. `monitoring/client.py` is built from a transporter and a
  configuration. Both build API-key bodies and log queries, and both add a
  long API key to the request body. The headers that `client.py` sets never
  hold the key. The configuration of `monitoring/configs.py` also keeps it in
  its `X-Validandgo-API-Key` header;
- the application object of `monitoring-python/application.py`, whose
  requests all live below `/applications/<escaped name>`, and its
  cursor-paging iterator.

Layout, one module per file:

| file | module | source |
|---|---|---|
| `py_values.dfy` | `PyValues` | Python values, truthiness and `str()` as the code uses them |
| `helpers.dfy` | `Helpers` | `monitoring/helpers.py` |
| `user_agent.dfy` | `UserAgents` | `monitoring/user_agent.py` |
| `configs.dfy` | `Configs` | `monitoring/configs.py` |
| `requests.dfy` | `Requests` | the `_req` of both clients: key injection, and the request handed to the transport |
| `api_keys.dfy` | `ApiKeys` | the key-body lines shared by `add_api_key` and `update_api_key` in both clients |
| `legacy_client.dfy` | `LegacyClient` | `client.py` |
| `monitoring_client.dfy` | `MonitoringClient` | `monitoring/client.py` |
| `application.dfy` | `Applications` | `monitoring-python/application.py` |

How Python maps onto Dafny:

- A Python dict that the code mutates in place becomes a `PyDict` object, so
  aliasing is kept. This covers the `obj` of `add_api_key` and the `data` of
  `_req`.
- Values are a `Value` datatype, with Python truthiness as `Truthy`.
- A raised exception is the `Err` case of a `Result`.
- `StopIteration` is `None`.
- The thing handed to the transport is a `Request` value, which the
  request-building methods return.
- `safe` is modelled down to the bytes. `quote(str(e), safe='')` is UTF-8
  encoding (RFC 3629) followed by percent-encoding of every byte outside
  the unreserved set of section 2.3 of RFC 3986, written as upper-case
  `%HH`. This unreserved set, with `~` in it, is the one `urllib.parse.quote`
  uses from Python 3.7 on. Python 3.0 to 3.6, and Python 2, also escape `~`.

## Model

| member | source | states |
|---|---|---|
| `PyValues.NatToDecimal` | monitoring/configs.py:20 | `str()` of a natural number is a non-empty string of decimal digits, with no leading zero and a single digit exactly below ten |
| `PyValues.NatToDecimalRoundTrip` | monitoring/configs.py:20 | reading the digits back gives the number: `str()` of an integer loses nothing |
| `PyValues.Str` | monitoring/helpers.py:68 | `str()` of a string is the string itself; `str()` of an int starts with '-' exactly when it is negative, and the rest is digits |
| `Helpers.Utf8Char` | monitoring/helpers.py:68 | a character encodes to 1 to 4 bytes: ASCII as its own byte, any other character only as bytes ≥ 0x80 |
| `Helpers.Utf8Append` | monitoring/helpers.py:68 | encoding a concatenation is concatenating the encodings |
| `Helpers.Utf8CharDecodes` | monitoring/helpers.py:68 | the first byte of a character's encoding announces its length, and the bytes decode back to the code point |
| `Helpers.Utf8Injective` | monitoring/helpers.py:68 | distinct strings have distinct UTF-8 encodings |
| `Helpers.QuoteLength` | monitoring/helpers.py:63-68 | escaping n bytes gives between n and 3n characters |
| `Helpers.QuoteWellEscaped` | monitoring/helpers.py:63-68 | escaped output holds only unreserved characters and '%' followed by two upper-case hex digits |
| `Helpers.QuoteDecodes` | monitoring/helpers.py:63-68 | percent-decoding the escaped bytes gives the bytes back |
| `Helpers.QuoteEscapesEach` | monitoring/helpers.py:63-68 | bytes that are all reserved become exactly one `%HH` triple each, in order |
| `Helpers.Safe` | monitoring/helpers.py:63-68 | `safe(e)` is well escaped and contains no '/', '?' or '#', so it is always one path segment; its length is between len(s) and 12·len(s) |
| `Helpers.SafeDecodes` | monitoring/helpers.py:63-68 | percent-decoding `safe(s)` gives the UTF-8 bytes of `s` |
| `Helpers.SafeInjective` | monitoring/helpers.py:63-68 | distinct strings have distinct `safe` forms |
| `Helpers.SafeAppend` | monitoring/helpers.py:63-68 | `safe` works character by character: `safe(s + t) == safe(s) + safe(t)` |
| `Helpers.SafeChar` | monitoring/helpers.py:63-68 | an unreserved character is kept; any other character becomes one `%HH` per UTF-8 byte |
| `Helpers.SafeKeepsUnreserved` | monitoring/helpers.py:63-68 | a string of unreserved characters comes back unchanged |
| `Helpers.SafeNumber` | monitoring/helpers.py:63-68 | `safe` of an integer is its decimal text, unchanged |
| `Helpers.EncodeArgs` | monitoring/helpers.py:90-97 | `endpoint` formats with one argument per input, in order, the i-th being `safe(str(args[i]))` |
| `Helpers.FormatEscape` | monitoring/helpers.py:99 | text written with doubled braces is printed literally by `str.format`, and the rest of the template is formatted as before |
| `Helpers.RenderFormats` | monitoring/helpers.py:99 | with at least as many arguments as `{}` fields, `str.format` gives the template's literal text with the i-th field replaced by the i-th argument; surplus arguments are ignored |
| `Helpers.RenderTooFewArgs` | monitoring/helpers.py:99 | with fewer arguments than `{}` fields, `str.format` raises IndexError |
| `Helpers.EndpointFills` | monitoring/helpers.py:87-99 | `endpoint(path, *args)` fills each `{}` field with the escaped argument, or raises IndexError when arguments are missing |
| `Helpers.FormatLiteral` | monitoring/helpers.py:99 | a template without braces formats to itself |
| `Helpers.Endpoint` | monitoring/helpers.py:87-99 | a path without braces comes back unchanged, whatever the arguments |
| `Helpers.SliceIndex` | monitoring/helpers.py:106 | Python slice bounds: a negative index counts from the end, and out-of-range bounds are clamped to the list |
| `Helpers.Rotate` | monitoring/helpers.py:101-106 | `rotate(l, n)` keeps the length and the multiset of elements |
| `Helpers.RotateAt` | monitoring/helpers.py:101-106 | for 0 ≤ n ≤ len, element i of the result is `l[(i + n) mod len]` |
| `Helpers.RotateIdentity` | monitoring/helpers.py:101-106 | rotating by 0 or by the length gives the list back |
| `Helpers.RotateExample` | monitoring/helpers.py:102-105 | `rotate([1, 2, 3], 2) == [3, 1, 2]` |
| `Helpers.RotateInverse` | monitoring/helpers.py:101-106 | rotating by n and then by len − n gives the list back |
| `Helpers.RotateNegative` | monitoring/helpers.py:101-106 | rotating by −m equals rotating by len − m |
| `Helpers.Encode` | monitoring/helpers.py:56-60 | on Python 3, `encode` returns its argument unchanged |
| `Helpers.Urlify` | monitoring/helpers.py:71-85 | the result of `urlify` holds no bool and no list at any depth; it is a dict exactly when the argument is one, with the same keys |
| `Helpers.UrlifyCases` | monitoring/helpers.py:56-85 | `urlify` keeps a dict's keys and urlifies each value, turns a list into its JSON text and a bool into 'true'/'false', and passes anything else through `encode` unchanged |
| `Helpers.UrlifyKeepsUrlParam` | monitoring/helpers.py:71-85 | a value with no bool and no list at any depth is left unchanged |
| `Helpers.UrlifyIdempotent` | monitoring/helpers.py:71-85 | `urlify(urlify(e)) == urlify(e)` |
| `Helpers.GetItems` | monitoring/helpers.py:109-119 | `get_items` yields no pair for None, and otherwise exactly the dictionary's (key, value) pairs |
| `UserAgents.InitialValue` | monitoring/user_agent.py:6-7 | the initial value starts with 'Valid&GO for Python (' and holds both versions and 33 fixed characters |
| `UserAgents.Segment` | monitoring/user_agent.py:19 | one `add` appends '; ', the segment, ' (', the version and ')' |
| `UserAgents.Accumulate` | monitoring/user_agent.py:15-19 | successive `add` calls never drop what was there, and each adds at least five characters |
| `UserAgents.AccumulateInOrder` | monitoring/user_agent.py:15-19 | successive `add` calls append exactly their segments, in call order |
| `UserAgents.UserAgent.constructor` | monitoring/user_agent.py:6-7 | the class attribute starts at the initial value |
| `UserAgents.UserAgent.Get` | monitoring/user_agent.py:9-13 | `get` returns the current value and changes nothing |
| `UserAgents.UserAgent.Add` | monitoring/user_agent.py:15-19 | `add` extends the value by exactly one segment; the old value stays a prefix |
| `Configs.BuildHosts` | monitoring/configs.py:59-68 | five hosts, each named by the application id plus a suffix: the first is READ with priority 10, the second WRITE with priority 10, the last three use the defaults |
| `Configs.BuildHostsDistinct` | monitoring/configs.py:59-68 | the five host names are pairwise distinct, and the host list determines the application id |
| `Configs.FromEnvironment` | monitoring/configs.py:17-18 | a given argument is kept; a missing one is the environment variable's value, and is missing exactly when the variable is unset |
| `Configs.ResolveCredentials` | monitoring/configs.py:14-22 | a missing argument falls back to its environment variable (KeyError when that is unset, app id first); when both are found, a falsy app id is refused with AssertionError('app_id cannot be empty.'); otherwise both values are kept |
| `Configs.ZeroAppIdRefused` | monitoring/configs.py:20-22 | the assertion tests the value given, so an app id of 0 is refused although `str(0)` is '0' |
| `Configs.MonitoringConfig.constructor` | monitoring/configs.py:20-57 | stringified credentials; timeouts 5, 30 and 2 seconds; retry wait 100000 µs; the host list of `build_hosts`; four headers, with the credentials as given and the current User-Agent; batch size 1000 |
| `Configs.MonitoringConfig.New` | monitoring/configs.py:14-57 | `MonitoringConfig(app_id, api_key)` raises exactly the errors `ResolveCredentials` gives; otherwise it is a fresh configuration with the stringified resolved credentials, the three timeouts, the retry wait, the host list, exactly the four headers with their values, and the batch size |
| `Requests.WithApiKey` | client.py:326-331 | the body sent is unchanged when the key has at most 500 characters; otherwise it is the body (or a new dict) with 'apiKey' set to the key and every other entry kept |
| `Requests.ApiKeyThreshold` | client.py:326-331 | the key travels in the body exactly when it is longer than `MAX_API_KEY_LENGTH`; a key of exactly 500 characters does not |
| `Requests.InjectApiKey` | monitoring/client.py:330-335 | the caller's dict is updated in place (or a new one is created when there is none and the key is long); its entries become `WithApiKey` of the old ones |
| `ApiKeys.WithLimits` | client.py:249-261 | each limit is set when its argument is not None, 0 included; `indexes` is set only when truthy; no other key is touched |
| `ApiKeys.AddApiKeyDefaults` | client.py:214-218 | with `add_api_key`'s defaults the three limits are always present, as 0 |
| `ApiKeys.UpdateApiKeyDefaults` | client.py:266-270 | with `update_api_key`'s defaults the dict is sent as it came |
| `ApiKeys.FalsyIndexesIgnored` | client.py:260-261 | a falsy `indexes` never adds the key |
| `ApiKeys.BuildKeyBody` | client.py:249-261 | a dict `obj` is updated in place and is the body itself; any other `obj` becomes a fresh `{'acl': obj}`; the entries are `WithLimits` of those |
| `ApiKeys.KeyPath` | client.py:315 | the update path is '/1/keys/' followed by the key, not escaped |
| `LegacyClient.DefaultHost` | client.py:66-69 | the default host is 'monitoring.validandgo.com/' followed by the app id |
| `LegacyClient.Client.constructor` | client.py:56-89 | without hosts, both host lists are the default host twice (primary plus the one-element fallback list); otherwise both are the given list; the four transport headers; the credentials are stored |
| `LegacyClient.Client.Req` | client.py:326-331 | the request handed to the transport carries the path, method and params as given, and the body after key injection; the caller's dict sees the injection |
| `LegacyClient.Client.AddApiKey` | client.py:214-263 | POST /1/keys (not a search), body `WithLimits` of `obj` and then key injection; a dict `obj` is the object sent |
| `LegacyClient.Client.UpdateApiKey` | client.py:266-316 | PUT on `KeyPath(api_key)` with the same body rules |
| `LegacyClient.Client.GetLogs` | client.py:162-171 | GET /1/logs with exactly the parameters offset, length and type, and no body unless the key is long |
| `MonitoringClient.Client.constructor` | monitoring/client.py:74-84 | the client keeps the transporter and configuration it is given |
| `MonitoringClient.Client.AppId` | monitoring/client.py:60-64 | `app_id` is read from the configuration at each access |
| `MonitoringClient.Client.ApiKey` | monitoring/client.py:67-71 | `api_key` is read from the configuration at each access |
| `MonitoringClient.Client.ConnectWithConfig` | monitoring/client.py:97-107 | a new requester, transporter and client, where the transporter and the client share the one configuration object |
| `MonitoringClient.Client.Connect` | monitoring/client.py:88-94 | the configuration's errors pass through; otherwise a fresh client and a fresh configuration, shared with the transporter and set up in full as `MonitoringConfig.New` states, whose `app_id` and `api_key` are the resolved credentials |
| `MonitoringClient.Client.Req` | monitoring/client.py:330-335 | key injection on the body, with the key read from the configuration |
| `MonitoringClient.Client.AddApiKey` | monitoring/client.py:218-267 | POST /1/keys with the key body and injection, as in the older client |
| `MonitoringClient.Client.UpdateApiKey` | monitoring/client.py:270-320 | PUT on `KeyPath(api_key)` with the key body and injection |
| `MonitoringClient.Client.GetLogs` | monitoring/client.py:177-186 | GET /1/logs with exactly offset, length and type |
| `Applications.IndexIterator.constructor` | monitoring-python/application.py:40-47 | the iterator keeps the index's page source and the initial cursor |
| `Applications.IndexIterator.LoadNextPage` | monitoring-python/application.py:67-70 | the page the cursor names is fetched, `pos` restarts at 0, and the cursor becomes that page's cursor (None when it has none) |
| `Applications.IndexIterator.Iter` | monitoring-python/application.py:49-51 | `__iter__` loads the first page with the initial cursor; the hits still to come are all hits of the page chain, in order |
| `Applications.IndexIterator.SkipUsedPages` | monitoring-python/application.py:57-63 | loading pages while the current one is used up and the cursor is set neither loses nor returns a hit; it stops at a page with a hit left or at the last page; with a hit left on the current page it loads nothing |
| `Applications.IndexIterator.Next` | monitoring-python/application.py:56-65 | `next` returns the first hit still to come, with `pos` pointing just past it; while the current page has a hit left, it returns that hit and keeps the page and the cursor; it skips used-up and empty pages while the cursor is set; it stops exactly when no hit is left, and then every hit of the chain has been returned once, in order; `pos <= len(hits)` is kept throughout |
| `Applications.RequestPath` | monitoring-python/application.py:82 | the application path is '/applications/' followed by one escaped segment that decodes to the name |
| `Applications.ModelPath` | monitoring-python/application.py:106 | a model sub-path is '/' followed by one escaped segment that decodes to the model name |
| `Applications.ModelPathsDistinct` | monitoring-python/application.py:159-162 | two (application, model) pairs share a request path exactly when they are the same pair |
| `Applications.Application.constructor` | monitoring-python/application.py:79-82 | the application keeps its client and name, and its path is `RequestPath(name)` |
| `Applications.Application.Req` | monitoring-python/application.py:159-162 | every request goes to the application path followed by the sub-path, through the client's `_req` |
| `Applications.Application.AddModel` | monitoring-python/application.py:98-113 | PUT on the model path, with a new dict of the four model fields |
| `Applications.Application.GetModel` | monitoring-python/application.py:117-123 | a search GET on the model path; an empty name is not refused |
| `Applications.Application.DeleteModel` | monitoring-python/application.py:127-136 | an empty name raises MonitoringException('model_name cannot be empty') and sends nothing; otherwise DELETE on the model path |
| `Applications.Application.SelectModel` | monitoring-python/application.py:138-147 | the same guard, and, as written, the same DELETE request |

## Left out

- The transport layer. `Transport`, `Transporter`, `Requester`, `Host`, `HostsCollection`, `CallType` and `Verb` are not part of this model. Sending, retries, host failover, timeouts and JSON encoding of bodies are not modelled. A method returns the request it would hand to the transport.
- `MonitoringClient.Client.Req`: `_req` in `monitoring/client.py` ends with `self._transport.req`, but this class never sets `_transport`, so the call itself would fail with AttributeError. Only the body augmentation before that call is modelled.
- `MonitoringClient.Client.AddApiKey`, `MonitoringClient.Client.UpdateApiKey`, `MonitoringClient.Client.GetLogs`: each returns the request `_req` would pass on, and does not model the AttributeError at its end.
- Default argument values are not Dafny defaults. Each modelled method takes the arguments it models explicitly, and `AddApiKeyDefaults` and `UpdateApiKeyDefaults` state what the Python defaults give. The `_transport` argument of `client.py`'s constructor is not one of them (see the next line).
- `LegacyClient.Client.constructor`: the constructor always creates its transport, which is the `_transport is None` case. A caller-supplied `_transport` would be used as it is, and its host lists and headers would be overwritten in place (client.py:56, 63). That case is not modelled, nor is the aliasing it brings.
- The process environment, the SDK version, the Python version and `json.dumps(e, cls=CustomJSONEncoder)` are parameters (`env`, `sdkVersion`, `pythonVersion`, `dumps`). The JSON text itself is not modelled.
- `random.shuffle` in `client.py` runs on a one-element list, where it changes nothing, so it is not modelled as randomness.
- After `Client.__init__` in `client.py`, `read_hosts` and `write_hosts` share the caller's `hosts` list object. The model copies the value, so a later mutation seen through both names is not captured.
- All Python 2 branches (`PY2`, `unicode`, `iteritems`) and the `deprecated` decorator are left out. `Encode` models `encode` on Python 3, where it is the identity.
- `Helpers.Format`: `str.format` is modelled for `{}` fields and the `{{`/`}}` escapes. Named, numbered or formatted fields are reported as `UnsupportedField` instead of being interpreted.
- `str()` is modelled for strings and integers. Floats, tuples and other objects passed to `safe`, `endpoint` or the configuration are not.
- `Applications.IndexIterator.Iter` requires that the cursors, followed from the initial one, reach a page without a cursor after finitely many pages. Against a source that never stops, Python's `next` would loop or iterate forever, which a terminating method cannot express.
- A `browse_from` answer without a `'hits'` key raises KeyError in `next` (monitoring-python/application.py:58). The model's `Page` always has a hit list, so that error is not modelled.
- `IndexIterator.__next__` only forwards to `next`, so it has no separate model. Calling `next` before `__iter__` (an AttributeError in Python) is excluded by `Next`'s precondition.
- `Application.create`, `browse_models` (which returns the string 'TODO'), `__repr__`, and `init_application` in both clients (which refers to undefined names) are not modelled.
- The other methods of both clients are not modelled, nor is the `headers` property of `client.py`:
  - `list_api_keys`, `get_api_key`, `delete_api_key`, `restore_api_key` and `is_alive` are each a single `_req` call with a fixed or key-suffixed path.
  - `delete_application`, `move_application` and `copy_application` send to `'/application/%s' % safe(name)`. `move_application` and `copy_application` also build a body dict with the operation and destination, and `copy_application` adds `scope` when it is given (client.py:105-141). Their path segment has the properties proved for `Helpers.Safe`.
  - `monitoring_session` returns a `Session` object, and `Session` is not part of this model (client.py:143-149).
  - `create_application` goes through `Application(...).create` (client.py:182-193) or `Application.create` (monitoring/client.py:110-124), which is not modelled either.
- `request_options` is passed through untouched by every method, and it is not modelled.
