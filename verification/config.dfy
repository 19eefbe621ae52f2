/** Start-up configuration: each setting is an environment variable with a
    fallback, resolved with JavaScript `env.X || default` (server.js lines
    12-14). An unset variable reads as `undefined` and an empty one as `""`;
    both are falsy, so both fall back to the default. */
module Config {
  import opened JsValues

  /** The process environment: variable name to value. */
  type Env = map<string, string>

  const DefaultPort: real := 5000.0
  const DefaultMongoUri: string := "mongodb://localhost:27017/commingsoon"
  /** The wildcard frontend URL, which admits every origin. */
  const AnyOrigin: string := "*"

  /** The resolved settings. `port` keeps the JavaScript value the server
      passes on: the environment's string, or the number 5000. */
  datatype Settings = Settings(port: JsValue, mongoUri: string, frontendUrl: string)

  /** `process.env[key]`: a string when set, `undefined` when not. */
  function EnvVar(env: Env, key: string): (v: JsValue)
    ensures key in env ==> v == Str(env[key])
    ensures key !in env ==> v == Undefined
  {
    if key in env then Str(env[key]) else Undefined
  }

  /** True when the variable is set to a non-empty string, i.e. when
      `env.X || default` keeps the environment's value. */
  predicate IsSet(env: Env, key: string) {
    key in env && env[key] != ""
  }

  /** `env.X || default` for a string default, as a string. */
  function StringSetting(env: Env, key: string, default: string): (r: string)
    ensures IsSet(env, key) ==> r == env[key]
    ensures !IsSet(env, key) ==> r == default
  {
    match Or(EnvVar(env, key), Str(default))
    case Str(s) => s
    case _ => default
  }

  /** Resolves the three settings of server.js lines 12-14. */
  function Resolve(env: Env): (cfg: Settings)
    ensures IsSet(env, "PORT") ==> cfg.port == Str(env["PORT"])
    ensures !IsSet(env, "PORT") ==> cfg.port == Num(DefaultPort)
    ensures Truthy(cfg.port)
    ensures IsSet(env, "MONGO_URI") ==> cfg.mongoUri == env["MONGO_URI"]
    ensures !IsSet(env, "MONGO_URI") ==> cfg.mongoUri == DefaultMongoUri
    ensures IsSet(env, "FRONTEND_URL") ==> cfg.frontendUrl == env["FRONTEND_URL"]
    ensures !IsSet(env, "FRONTEND_URL") ==> cfg.frontendUrl == AnyOrigin
    ensures cfg.frontendUrl != ""
  {
    Settings(
      Or(EnvVar(env, "PORT"), Num(DefaultPort)),
      StringSetting(env, "MONGO_URI", DefaultMongoUri),
      StringSetting(env, "FRONTEND_URL", AnyOrigin))
  }
}
