/** Application settings read from the process environment, which is
    modelled as a finite map from variable names to values. */
module Config {
  import opened Wrappers
  import opened Strings

  type Env = map<string, string>

  /** `os.getenv(key, default)`: a set variable wins even when it is empty. */
  function EnvOr(env: Env, key: string, default: string): (r: string)
    ensures key in env ==> r == env[key]
    ensures key !in env ==> r == default
  {
    if key in env then env[key] else default
  }

  /** `os.getenv(key) or None`: an unset or empty variable reads as absent. */
  function NonEmptyEnv(env: Env, key: string): (r: Option<string>)
    ensures r.Some? <==> key in env && env[key] != ""
    ensures r.Some? ==> r.value == env[key]
  {
    if key in env && env[key] != "" then Some(env[key]) else None
  }

  /** The spellings `_get_bool` accepts as true, after strip and lower. */
  const TrueWords: set<string> := {"1", "true", "yes", "on"}

  /** `Config._get_bool`: the default when unset, otherwise whether the
      stripped, lower-cased value is one of the true words. */
  function GetBool(env: Env, key: string, default: bool): (r: bool)
    ensures key !in env ==> r == default
    ensures key in env ==> (r <==> Lower(Strip(env[key])) in TrueWords)
  {
    if key !in env then default else Lower(Strip(env[key])) in TrueWords
  }

  /** Setting a flag to "false" or "0" turns it off whatever its default,
      and "True" with padding turns it on. */
  lemma GetBoolSpellings(key: string, default: bool)
    ensures !GetBool(map[key := "false"], key, default)
    ensures !GetBool(map[key := "0"], key, default)
    ensures GetBool(map[key := " True "], key, default)
  {
    StripNoSpace("false", StrBlank);
    StripNoSpace("0", StrBlank);
    assert TrimLeft(" True ", StrBlank) == TrimLeft("True ", StrBlank) == "True ";
    assert TrimRight("True ", StrBlank) == TrimRight("True", StrBlank) == "True";
    assert Lower("True") == "true";
  }

  /** `Config._get_int`: the default when unset or when `int()` rejects the
      value, otherwise the value read. */
  function GetInt(env: Env, key: string, default: int): (r: int)
    ensures key !in env ==> r == default
    ensures key in env && ParseInt(env[key]).None? ==> r == default
    ensures key in env && ParseInt(env[key]).Some? ==> r == ParseInt(env[key]).value
  {
    if key !in env then default
    else match ParseInt(env[key])
      case Some(n) => n
      case None => default
  }

  /** A variable holding the decimal text of `n`, alone or padded with the
      white space `int()` skips, reads as `n`. */
  lemma GetIntShown(env: Env, key: string, n: int, default: int)
    requires key in env && IntStrip(env[key]) == ShowInt(n)
    ensures GetInt(env, key, default) == n
  {
    ParseIntIgnoresPadding(env[key]);
    ParseShowInt(n);
  }

  /** A variable that holds no ASCII digit at all reads as the default. */
  lemma GetIntNoDigits(env: Env, key: string, default: int)
    requires key in env && forall k :: 0 <= k < |env[key]| ==> !IsDigit(env[key][k])
    ensures GetInt(env, key, default) == default
  {
    var s := env[key];
    var t := IntStrip(s);
    StripContained(s, IntBlank);
    if |t| > 0 && IsDigit(t[0]) {
      ContainsCharIn(s, t, 0);
    }
    if |t| > 1 && IsDigit(t[1]) {
      ContainsCharIn(s, t, 1);
    }
  }

  const DefaultModel: string := "gpt-3.5-turbo"

  /** `(os.getenv("OPENAI_MODEL") or "gpt-3.5-turbo").strip() or "gpt-3.5-turbo"`. */
  function OpenAIModel(env: Env): (r: string)
    ensures r != [] && Strip(r) == r
    ensures "OPENAI_MODEL" in env && Strip(env["OPENAI_MODEL"]) != "" ==> r == Strip(env["OPENAI_MODEL"])
    ensures "OPENAI_MODEL" !in env || Strip(env["OPENAI_MODEL"]) == "" ==> r == DefaultModel
  {
    StripNoSpace(DefaultModel, StrBlank);
    var raw := if "OPENAI_MODEL" in env && env["OPENAI_MODEL"] != "" then env["OPENAI_MODEL"] else DefaultModel;
    var stripped := Strip(raw);
    StripIdempotent(raw, StrBlank);
    if stripped != "" then stripped else DefaultModel
  }

  /** The Celery URL derived from the Redis settings. */
  function RedisUrl(host: string, port: int): (url: string)
    ensures |url| == 11 + |host| + |ShowInt(port)|
    ensures url[..8] == "redis://" && url[|url| - 2..] == "/0"
  {
    "redis://" + host + ":" + ShowInt(port) + "/0"
  }

  /** The derived URL names the host and, after a colon, a port that reads
      back as the configured one. */
  lemma RedisUrlParts(host: string, port: int)
    ensures var url := RedisUrl(host, port);
      && url[8..8 + |host|] == host && url[8 + |host|] == ':'
      && ParseInt(url[9 + |host|..|url| - 2]) == Some(port)
  {
    var url := RedisUrl(host, port);
    var shown := ShowInt(port);
    var head := "redis://" + host + ":";
    assert url == head + (shown + "/0");
    assert url[|head|..|head| + |shown|] == shown;
    assert url[8..8 + |host|] == host;
    ParseShowInt(port);
  }

  /** The fields `Config.__init__` assigns, grouped as its comments group
      them. The poll interval, a float, is not among them. */
  datatype Settings = Settings(
    databaseUrl: string,
    db: DbSettings,
    appEnv: string,
    servicePort: int,
    openai: OpenAISettings,
    celery: CelerySettings,
    longPolling: LongPollingSettings)

  datatype DbSettings = DbSettings(
    poolSize: int, maxOverflow: int, poolTimeout: int, poolRecycle: int,
    echo: bool, sslMode: Option<string>)

  datatype OpenAISettings = OpenAISettings(apiKeyRaw: Option<string>, model: string)

  datatype CelerySettings = CelerySettings(
    redisHost: string, redisPort: int,
    brokerUrl: string, resultBackend: string,
    taskSerializer: string, resultSerializer: string, acceptContent: string,
    timezone: string, enableUtc: bool, taskTrackStarted: bool, workerConcurrency: int)

  datatype LongPollingSettings = LongPollingSettings(
    defaultTimeout: int,
    maxClientConnections: int,
    globalMaxConnections: int,
    rateLimitInterval: int,
    rateLimitRequests: int)

  /** `Config.__init__` over the environment `env`. */
  function Load(env: Env): (c: Settings)
    ensures c.openai.model != [] && Strip(c.openai.model) == c.openai.model
    ensures c.db.sslMode != Some("") && c.openai.apiKeyRaw != Some("")
  {
    Settings(
      databaseUrl := EnvOr(env, "DATABASE_URL", "sqlite:///:memory:"),
      db := LoadDb(env),
      appEnv := EnvOr(env, "APP_ENV", "development"),
      servicePort := GetInt(env, "SERVICE_PORT", 8000),
      openai := OpenAISettings(NonEmptyEnv(env, "OPENAI_API_KEY"), OpenAIModel(env)),
      celery := LoadCelery(env),
      longPolling := LoadLongPolling(env))
  }

  function LoadDb(env: Env): DbSettings {
    DbSettings(
      poolSize := GetInt(env, "DB_POOL_SIZE", 5),
      maxOverflow := GetInt(env, "DB_MAX_OVERFLOW", 10),
      poolTimeout := GetInt(env, "DB_POOL_TIMEOUT", 30),
      poolRecycle := GetInt(env, "DB_POOL_RECYCLE", 1800),
      echo := GetBool(env, "DB_ECHO", false),
      sslMode := NonEmptyEnv(env, "DB_SSL_MODE"))
  }

  /** Redis and Celery settings: explicit Celery URLs take precedence over
      the URL derived from the Redis host and port. */
  function LoadCelery(env: Env): CelerySettings {
    var host := EnvOr(env, "REDIS_HOST", "localhost");
    var port := GetInt(env, "REDIS_PORT", 6379);
    CelerySettings(
      redisHost := host,
      redisPort := port,
      brokerUrl := EnvOr(env, "CELERY_BROKER_URL", RedisUrl(host, port)),
      resultBackend := EnvOr(env, "CELERY_RESULT_BACKEND", RedisUrl(host, port)),
      taskSerializer := EnvOr(env, "CELERY_TASK_SERIALIZER", "json"),
      resultSerializer := EnvOr(env, "CELERY_RESULT_SERIALIZER", "json"),
      acceptContent := EnvOr(env, "CELERY_ACCEPT_CONTENT", "json"),
      timezone := EnvOr(env, "CELERY_TIMEZONE", "UTC"),
      enableUtc := GetBool(env, "CELERY_ENABLE_UTC", true),
      taskTrackStarted := GetBool(env, "CELERY_TASK_TRACK_STARTED", true),
      workerConcurrency := GetInt(env, "CELERY_WORKER_CONCURRENCY", 4))
  }

  function LoadLongPolling(env: Env): LongPollingSettings {
    LongPollingSettings(
      defaultTimeout := GetInt(env, "LONG_POLLING_DEFAULT_TIMEOUT", 30),
      maxClientConnections := GetInt(env, "LONG_POLLING_MAX_CLIENT_CONNECTIONS", 5),
      globalMaxConnections := GetInt(env, "LONG_POLLING_GLOBAL_MAX_CONNECTIONS", 1000),
      rateLimitInterval := GetInt(env, "LONG_POLLING_RATE_LIMIT_INTERVAL", 60),
      rateLimitRequests := GetInt(env, "LONG_POLLING_RATE_LIMIT_REQUESTS", 100))
  }

  datatype ConfigError = MissingApiKey(message: string)

  /** The `OPENAI_API_KEY` property: the stored key unchanged, or a
      `ValueError` when it is absent or blank. */
  function OpenAIApiKey(c: Settings): (r: Result<string, ConfigError>)
    ensures r.Ok? <==> c.openai.apiKeyRaw.Some? && Strip(c.openai.apiKeyRaw.value) != ""
    ensures r.Ok? ==> r.value == c.openai.apiKeyRaw.value
  {
    if c.openai.apiKeyRaw.None? || Strip(c.openai.apiKeyRaw.value) == "" then
      Err(MissingApiKey("OPENAI_API_KEY is not configured. Set the OPENAI_API_KEY environment variable."))
    else Ok(c.openai.apiKeyRaw.value)
  }

  /** End to end: the key is available exactly when the variable holds a
      non-blank value, and then it is that value, padding included. */
  lemma ApiKeyFromEnv(env: Env)
    ensures OpenAIApiKey(Load(env)).Ok?
            <==> "OPENAI_API_KEY" in env && Strip(env["OPENAI_API_KEY"]) != ""
    ensures OpenAIApiKey(Load(env)).Ok? ==> OpenAIApiKey(Load(env)).value == env["OPENAI_API_KEY"]
  {
    var c := Load(env);
    if "OPENAI_API_KEY" in env && env["OPENAI_API_KEY"] == "" {
      assert Strip(env["OPENAI_API_KEY"]) == "";
    }
  }

  /** Each Celery URL is its variable when that is set, else derived from the
      Redis host and port as read. */
  lemma CeleryUrls(env: Env)
    ensures var c := Load(env).celery;
      && c.brokerUrl == (if "CELERY_BROKER_URL" in env then env["CELERY_BROKER_URL"] else RedisUrl(c.redisHost, c.redisPort))
      && c.resultBackend == (if "CELERY_RESULT_BACKEND" in env then env["CELERY_RESULT_BACKEND"] else RedisUrl(c.redisHost, c.redisPort))
  {
  }

  /** With nothing set, the documented defaults. */
  lemma LoadDefaults()
    ensures var c := Load(map[]);
      && c.longPolling == LongPollingSettings(30, 5, 1000, 60, 100)
      && c.db.sslMode == None
      && c.openai.model == "gpt-3.5-turbo"
      && c.celery.brokerUrl == "redis://localhost:6379/0"
      && c.celery.resultBackend == "redis://localhost:6379/0"
      && c.celery.enableUtc && c.celery.taskTrackStarted
      && OpenAIApiKey(c).Err?
  {
    DefaultRedisUrl();
  }

  lemma DefaultRedisUrl()
    ensures RedisUrl("localhost", 6379) == "redis://localhost:6379/0"
  {
    ShowInt6379();
  }

  lemma ShowInt6379()
    ensures ShowInt(6379) == "6379"
  {
    assert ShowNat(6) == "6";
    assert ShowNat(63) == "63";
    assert ShowNat(637) == "637";
    assert ShowNat(6379) == ShowNat(637) + [DigitChar(9)];
  }

  lemma OverriddenRedisUrl()
    ensures RedisUrl("redis.example", 6380) == "redis://redis.example:6380/0"
  {
    ShowInt6380();
  }

  lemma ShowInt6380()
    ensures ShowInt(6380) == "6380"
  {
    assert ShowNat(6) == "6";
    assert ShowNat(63) == "63";
    assert ShowNat(638) == "638";
    assert ShowNat(6380) == ShowNat(638) + [DigitChar(0)];
  }

  /** The override scenario of the Celery configuration: the broker URL is
      derived from the overridden Redis host and port, the explicit backend
      wins, and "false" and "0" switch the flags off. */
  lemma LoadCeleryOverrides(env: Env)
    requires "REDIS_HOST" in env && env["REDIS_HOST"] == "redis.example"
    requires "REDIS_PORT" in env && env["REDIS_PORT"] == "6380"
    requires "CELERY_BROKER_URL" !in env
    requires "CELERY_RESULT_BACKEND" in env && env["CELERY_RESULT_BACKEND"] == "redis://custom-backend:6379/2"
    requires "CELERY_ENABLE_UTC" in env && env["CELERY_ENABLE_UTC"] == "false"
    requires "CELERY_TASK_TRACK_STARTED" in env && env["CELERY_TASK_TRACK_STARTED"] == "0"
    ensures var c := Load(env).celery;
      && c.redisPort == 6380
      && c.brokerUrl == "redis://redis.example:6380/0"
      && c.resultBackend == "redis://custom-backend:6379/2"
      && !c.enableUtc && !c.taskTrackStarted
  {
    ShowInt6380();
    OverriddenRedisUrl();
    StripNoSpace("6380", IntBlank);
    GetIntShown(env, "REDIS_PORT", 6380, 6379);
    GetBoolSpellings("CELERY_ENABLE_UTC", true);
    GetBoolSpellings("CELERY_TASK_TRACK_STARTED", true);
    assert GetBool(env, "CELERY_ENABLE_UTC", true) == GetBool(map["CELERY_ENABLE_UTC" := "false"], "CELERY_ENABLE_UTC", true);
    assert GetBool(env, "CELERY_TASK_TRACK_STARTED", true) == GetBool(map["CELERY_TASK_TRACK_STARTED" := "0"], "CELERY_TASK_TRACK_STARTED", true);
  }
}
