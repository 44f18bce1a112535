/**
 * The environment reader with its memo cache
 * (src/infrastructure/env/defaultEnv.provider.ts). `process.env` is a
 * parameter of each read; a key whose value is `undefined` is an absent key.
 */
module Environment {
  import opened Wrappers
  import Http

  /** Key names (an EnvKey member's value is taken to be its own name). */
  const PORT := "PORT"
  const NODE_ENV := "NODE_ENV"
  const MONGODB_URI := "MONGODB_URI"
  const MONGODB_CORE_DBNAME := "MONGODB_CORE_DBNAME"
  const LOGGER_LEVEL := "LOGGER_LEVEL"
  const OTEL_EXPORTER_OTLP_TRACES_ENDPOINT := "OTEL_EXPORTER_OTLP_TRACES_ENDPOINT"
  const PROMETHEUS_PORT := "PROMETHEUS_PORT"
  const APPLICATION_NAME := "APPLICATION_NAME"
  const APPLICATION_VERSION := "APPLICATION_VERSION"
  const SERVER_CONTEXT_PATH := "SERVER_CONTEXT_PATH"
  const IDM_AUTH_SERVICE_URL := "IDM_AUTH_SERVICE_URL"
  const IDM_AUTH_APPLICATION_REALM_PUBLIC_UUID := "IDM_AUTH_APPLICATION_REALM_PUBLIC_UUID"

  /** The defaults table. */
  const Defaults: map<string, string> := map[
    PORT := "3000",
    NODE_ENV := "development",
    MONGODB_URI := "mongodb://localhost:27017",
    MONGODB_CORE_DBNAME := "idm-core-db",
    LOGGER_LEVEL := "info",
    OTEL_EXPORTER_OTLP_TRACES_ENDPOINT := "http://jaeger:4318/v1/traces",
    PROMETHEUS_PORT := "9090",
    APPLICATION_NAME := "koa-inversify-framework",
    APPLICATION_VERSION := "1.0.0",
    SERVER_CONTEXT_PATH := "/",
    IDM_AUTH_SERVICE_URL := "https://idm-auth.io/api",
    IDM_AUTH_APPLICATION_REALM_PUBLIC_UUID := "UNDEFINED"
  ]

  function Lookup(m: map<string, string>, key: string): Option<string> {
    if key in m then Some(m[key]) else None
  }

  /** `process.env[key] || defaults[key]`: a non-empty environment value, else the default. */
  function FromEnvironment(environment: map<string, string>, key: string): (r: Option<string>)
    ensures Http.Truthy(Lookup(environment, key)) ==> r == Lookup(environment, key)
    ensures !Http.Truthy(Lookup(environment, key)) ==> r == Lookup(Defaults, key)
  {
    var v := Lookup(environment, key);
    if Http.Truthy(v) then v else Lookup(Defaults, key)
  }

  /** What one `get(key)` returns, and the cache it leaves. */
  datatype Read = Read(value: Option<string>, cache: map<string, string>)

  /** `get(key)`: a non-empty cached value is returned as is; otherwise the environment or
      default value is cached and returned. */
  function GetStep(cache: map<string, string>, environment: map<string, string>, key: string): (r: Read)
    ensures Http.Truthy(Lookup(cache, key)) ==> r.value == Lookup(cache, key) && r.cache == cache
    ensures !Http.Truthy(Lookup(cache, key)) ==> r.value == FromEnvironment(environment, key)
    ensures forall k :: k != key ==> Lookup(r.cache, k) == Lookup(cache, k)
    ensures Lookup(r.cache, key) == if Http.Truthy(Lookup(cache, key)) then Lookup(cache, key) else r.value
  {
    var value := Lookup(cache, key);
    if !Http.Truthy(value) then
      var read := FromEnvironment(environment, key);
      Read(read, if read.Some? then cache[key := read.value] else cache - {key})
    else Read(value, cache)
  }

  /** With the environment unchanged, a second `get(key)` returns what the first did and
      leaves the cache as the first left it. */
  lemma {:induction false} GetIsStable(cache: map<string, string>, environment: map<string, string>, key: string)
    ensures var first := GetStep(cache, environment, key);
            var second := GetStep(first.cache, environment, key);
            second.value == first.value && Lookup(second.cache, key) == Lookup(first.cache, key)
  {
    var first := GetStep(cache, environment, key);
    if !Http.Truthy(Lookup(cache, key)) && !Http.Truthy(first.value) {
      assert !Http.Truthy(Lookup(first.cache, key));
    }
  }

  /** After `setMemValue(k, v)` with `v` non-empty, `get(k)` is `v` whatever the environment. */
  lemma SetThenGet(cache: map<string, string>, environment: map<string, string>, key: string, v: string)
    requires v != ""
    ensures GetStep(cache[key := v], environment, key).value == Some(v)
  {
  }

  /** After `clearMemCache()`, `get(k)` reads the environment and defaults again. */
  lemma ClearThenGet(environment: map<string, string>, key: string)
    ensures GetStep(map[], environment, key).value == FromEnvironment(environment, key)
  {
  }

  /** Without an environment value the documented defaults apply. */
  lemma DocumentedDefaults()
    ensures FromEnvironment(map[], SERVER_CONTEXT_PATH) == Some("/")
    ensures FromEnvironment(map[], MONGODB_CORE_DBNAME) == Some("idm-core-db")
    ensures FromEnvironment(map[], IDM_AUTH_APPLICATION_REALM_PUBLIC_UUID) == Some("UNDEFINED")
  {
  }

  /** AbstractEnv: the memo cache. */
  class Env {
    var memCache: map<string, string>

    constructor ()
      ensures memCache == map[]
    {
      memCache := map[];
    }

    method SetMemValue(key: string, value: string)
      modifies this
      ensures memCache == old(memCache)[key := value]
    {
      memCache := memCache[key := value];
    }

    method ClearMemCache()
      modifies this
      ensures memCache == map[]
    {
      memCache := map[];
    }

    method Get(environment: map<string, string>, key: string) returns (value: Option<string>)
      modifies this
      ensures value == GetStep(old(memCache), environment, key).value
      ensures memCache == GetStep(old(memCache), environment, key).cache
    {
      value := Lookup(memCache, key);
      if !Http.Truthy(value) {
        var fromEnv := Lookup(environment, key);
        value := if Http.Truthy(fromEnv) then fromEnv else Lookup(Defaults, key);
        memCache := if value.Some? then memCache[key := value.value] else memCache - {key};
      }
    }
  }
}
