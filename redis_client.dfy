/** The Celery worker's Redis connection, made once at import time: settings
    read from the environment, then a bounded connect-and-ping loop. */
module RedisClient {
  import opened Outcomes
  import opened Retry

  const MaxAttempts: nat := 10
  const DelayMillis: nat := 3000
  const Database: nat := 2

  datatype Settings = Settings(host: string, db: nat, username: Option<string>, password: Option<string>)

  /** `os.environ.get(name)`. */
  function EnvGet(env: map<string, string>, name: string): Option<string>
  {
    if name in env then Some(env[name]) else None
  }

  function AppEnv(env: map<string, string>): string
  {
    if "APP_ENV" in env then env["APP_ENV"] else "dev"
  }

  /** Connection settings: credentials are sent only in the "prod" environment. */
  function ConnectionSettings(env: map<string, string>): (s: Settings)
    ensures (s.username.Some? || s.password.Some?) ==> AppEnv(env) == "prod"
    ensures AppEnv(env) == "prod" ==>
              s.username == EnvGet(env, "REDIS_USERNAME") && s.password == EnvGet(env, "REDIS_PASSWORD")
    ensures s.host == (if "REDIS_HOST" in env then env["REDIS_HOST"] else "redis")
    ensures s.db == 2
  {
    var prod := AppEnv(env) == "prod";
    Settings(
      if "REDIS_HOST" in env then env["REDIS_HOST"] else "redis",
      Database,
      if prod then EnvGet(env, "REDIS_USERNAME") else None,
      if prod then EnvGet(env, "REDIS_PASSWORD") else None)
  }

  /** The import-time loop: `ping(k)` is what constructing the client and
      pinging the server gives on try k. Only redis-py's `ConnectionError` is
      retried; after the tenth such failure the loop calls `sys.exit(1)`,
      whose argument `sysExitCode` records. Any other exception propagates at
      once (`Escaped`) and ends the process uncaught. `r` is the module-level
      client left bound after the loop. */
  method Connect<T>(ping: nat -> Attempt<T>)
    returns (res: Supervised<T>, steps: seq<Step>, r: Option<T>, sysExitCode: Option<int>)
    ensures Describes(res, steps, ping, MaxAttempts, DelayMillis, false)
    ensures r.Some? <==> res.Live?
    ensures res.Live? ==> r == Some(res.conn)
    ensures sysExitCode.Some? <==> res.Exhausted?
    ensures sysExitCode.Some? ==> sysExitCode.value == 1
  {
    res, steps := Supervise(ping, MaxAttempts, DelayMillis, false);
    r := if res.Live? then Some(res.conn) else None;
    sysExitCode := if res.Exhausted? then Some(1) else None;
  }
}
