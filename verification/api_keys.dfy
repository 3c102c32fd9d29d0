/**
 * The body of an API-key creation or update (`add_api_key`, `update_api_key`
 * in `client.py` and in `monitoring/client.py`, four copies of the same
 * lines): `obj` is either a dict, updated in place, or anything else, taken
 * as the ACL list and wrapped as `{'acl': obj}`.
 */
module ApiKeys {
  import opened PyValues
  import opened Requests

  type NonDict = v: Value | !v.VDict? witness VNone

  /** The `obj` argument: a dict object, or any other value. */
  datatype KeyArg = DictArg(dict: PyDict) | AclArg(acl: NonDict)

  const LimitKeys: set<string> := {"validity", "maxQueriesPerIPPerHour", "maxHitsPerQuery", "indexes"}

  /** `name` ends up as `v` when `applies`, else as it was in `prior` (present or absent). */
  predicate SetWhen(prior: map<string, Value>, post: map<string, Value>, name: string, applies: bool, v: Value) {
    if applies then name in post && post[name] == v
    else (name in post <==> name in prior) && (name in prior ==> post[name] == prior[name])
  }

  /** The dict after the limit and index lines: a limit is set whenever its argument is not None
      (0 included), `indexes` only when truthy, and no other key is touched. */
  function WithLimits(entries: map<string, Value>, validity: Value, maxQueriesPerIpPerHour: Value,
                      maxHitsPerQuery: Value, indexes: Value): (r: map<string, Value>)
    ensures SetWhen(entries, r, "validity", validity != VNone, validity)
    ensures SetWhen(entries, r, "maxQueriesPerIPPerHour", maxQueriesPerIpPerHour != VNone, maxQueriesPerIpPerHour)
    ensures SetWhen(entries, r, "maxHitsPerQuery", maxHitsPerQuery != VNone, maxHitsPerQuery)
    ensures SetWhen(entries, r, "indexes", Truthy(indexes), indexes)
    ensures forall k :: k !in LimitKeys ==> (k in r <==> k in entries)
    ensures forall k :: k in entries && k !in LimitKeys ==> r[k] == entries[k]
  {
    var e1 := if validity != VNone then entries["validity" := validity] else entries;
    var e2 := if maxQueriesPerIpPerHour != VNone then e1["maxQueriesPerIPPerHour" := maxQueriesPerIpPerHour] else e1;
    var e3 := if maxHitsPerQuery != VNone then e2["maxHitsPerQuery" := maxHitsPerQuery] else e2;
    if Truthy(indexes) then e3["indexes" := indexes] else e3
  }

  /** The dict `obj` stands for before the limits are applied. */
  function InitialEntries(obj: KeyArg): map<string, Value>
    reads if obj.DictArg? then {obj.dict} else {}
  {
    if obj.DictArg? then obj.dict.entries else map["acl" := obj.acl]
  }

  /** With `add_api_key`'s defaults (0, 0, 0, None) the three limits are always present. */
  lemma AddApiKeyDefaults(entries: map<string, Value>)
    ensures var r := WithLimits(entries, VInt(0), VInt(0), VInt(0), VNone);
      && r["validity"] == VInt(0) && r["maxQueriesPerIPPerHour"] == VInt(0) && r["maxHitsPerQuery"] == VInt(0)
      && ("indexes" in r <==> "indexes" in entries)
  {
  }

  /** With `update_api_key`'s defaults (all None) the dict is sent as it came. */
  lemma UpdateApiKeyDefaults(entries: map<string, Value>)
    ensures WithLimits(entries, VNone, VNone, VNone, VNone) == entries
  {
    var r := WithLimits(entries, VNone, VNone, VNone, VNone);
    forall k | k in LimitKeys ensures (k in r <==> k in entries) && (k in entries ==> r[k] == entries[k]) {
      assert SetWhen(entries, r, k, false, VNone);
    }
  }

  /** A falsy `indexes` (None, [], '', 0) never adds the key. */
  lemma FalsyIndexesIgnored(entries: map<string, Value>, validity: Value, maxQueries: Value,
                            maxHits: Value, indexes: Value)
    requires !Truthy(indexes) && "indexes" !in entries
    ensures "indexes" !in WithLimits(entries, validity, maxQueries, maxHits, indexes)
  {
  }

  /** The body that `add_api_key` and `update_api_key` of both clients build: the dict
      object that is then sent. */
  method BuildKeyBody(obj: KeyArg, validity: Value, maxQueriesPerIpPerHour: Value,
                      maxHitsPerQuery: Value, indexes: Value)
    returns (body: PyDict)
    modifies if obj.DictArg? then {obj.dict} else {}
    ensures obj.DictArg? ==> body == obj.dict
    ensures obj.AclArg? ==> fresh(body)
    ensures body.entries ==
      WithLimits(old(InitialEntries(obj)), validity, maxQueriesPerIpPerHour, maxHitsPerQuery, indexes)
  {
    if obj.DictArg? {
      body := obj.dict;
    } else {
      body := new PyDict(map["acl" := obj.acl]);
    }
    if validity != VNone {
      body.entries := body.entries["validity" := validity];
    }
    if maxQueriesPerIpPerHour != VNone {
      body.entries := body.entries["maxQueriesPerIPPerHour" := maxQueriesPerIpPerHour];
    }
    if maxHitsPerQuery != VNone {
      body.entries := body.entries["maxHitsPerQuery" := maxHitsPerQuery];
    }
    if Truthy(indexes) {
      body.entries := body.entries["indexes" := indexes];
    }
  }

  /** `'/1/keys/%s' % api_key`: the key is inserted as it is, without percent-encoding. */
  function KeyPath(apiKey: string): (r: string)
    ensures "/1/keys/" <= r && r[|"/1/keys/"|..] == apiKey
  {
    "/1/keys/" + apiKey
  }
}
