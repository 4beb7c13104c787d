/**
 * Application settings, read once from the process environment.
 * Construction is a function of the environment map; a missing upstream
 * URL and a value `int()` or `float()` refuses are its error paths.
 */
module Config {
  import opened Wrappers
  import opened Text

  type Env = map<string, string>

  /** Parsing of a float literal (`float(s)`), given from outside: `None` is its `ValueError`. */
  type FloatParser = string -> Option<real>

  datatype Settings = Settings(
    llmApiUrl: string,
    llmModel: string,
    llmMaxTokens: int,
    llmTemperature: real,
    corsOrigins: seq<string>,
    host: string,
    port: int,
    rateLimit: string)

  datatype ConfigError =
    | MissingApiUrl
    | InvalidInt(key: string, value: string)
    | InvalidFloat(key: string, value: string)

  const DefaultModel := "Qwen2.5-1.5B-Instruct"
  const DefaultMaxTokens := "150"
  const DefaultTemperature := "0.7"
  const DefaultCorsOrigins := "http://localhost:5173,http://localhost:3000"
  const DefaultHost := "127.0.0.1"
  const DefaultPort := "8000"
  const DefaultRateLimit := "30/minute"

  /** `os.getenv(key, default)`: the value when the key is set (even to ""), else the default. */
  function GetEnv(env: Env, key: string, default: string): string {
    if key in env then env[key] else default
  }

  /** The `CORS_ORIGINS` value split at commas. */
  function CorsOrigins(env: Env): seq<string> {
    Split(GetEnv(env, "CORS_ORIGINS", DefaultCorsOrigins), ',')
  }

  /** Whether every value that must be parsed parses. */
  predicate ParsesAll(env: Env, parseFloat: FloatParser) {
    && ParseInt(GetEnv(env, "LLM_MAX_TOKENS", DefaultMaxTokens)).Some?
    && parseFloat(GetEnv(env, "LLM_TEMPERATURE", DefaultTemperature)).Some?
    && ParseInt(GetEnv(env, "PORT", DefaultPort)).Some?
  }

  predicate HasApiUrl(env: Env) {
    "LLM_API_URL" in env && env["LLM_API_URL"] != ""
  }

  /**
   * The settings constructor. Slots are filled in the order the source
   * assigns them, so the first failing one decides the error.
   */
  function LoadSettings(env: Env, parseFloat: FloatParser): (r: Result<Settings, ConfigError>)
    ensures !HasApiUrl(env) <==> r == Failure(MissingApiUrl)
    ensures r.Success? ==> ParsesAll(env, parseFloat)
    ensures HasApiUrl(env) && ParsesAll(env, parseFloat) ==> r.Success?
    ensures r.Success? ==> r.value.llmApiUrl == env["LLM_API_URL"]
    ensures r.Success? ==> forall k :: 0 <= k < |r.value.corsOrigins| ==> ',' !in r.value.corsOrigins[k]
    ensures r.Failure? && r.error.InvalidInt? ==> r.error.key in {"LLM_MAX_TOKENS", "PORT"}
  {
    var url := GetEnv(env, "LLM_API_URL", "");
    if url == "" then Failure(MissingApiUrl)
    else
      var model := GetEnv(env, "LLM_MODEL", DefaultModel);
      var maxTokensText := GetEnv(env, "LLM_MAX_TOKENS", DefaultMaxTokens);
      match ParseInt(maxTokensText)
      case None => Failure(InvalidInt("LLM_MAX_TOKENS", maxTokensText))
      case Some(maxTokens) =>
        var temperatureText := GetEnv(env, "LLM_TEMPERATURE", DefaultTemperature);
        match parseFloat(temperatureText)
        case None => Failure(InvalidFloat("LLM_TEMPERATURE", temperatureText))
        case Some(temperature) =>
          var origins := CorsOrigins(env);
          SplitSpec(GetEnv(env, "CORS_ORIGINS", DefaultCorsOrigins), ',');
          var host := GetEnv(env, "HOST", DefaultHost);
          var portText := GetEnv(env, "PORT", DefaultPort);
          match ParseInt(portText)
          case None => Failure(InvalidInt("PORT", portText))
          case Some(port) =>
            Success(Settings(url, model, maxTokens, temperature, origins, host, port,
                             GetEnv(env, "RATE_LIMIT", DefaultRateLimit)))
  }

  lemma ParseDefaultMaxTokens()
    ensures ParseInt(DefaultMaxTokens) == Some(150)
  {
    assert NatToString(150) == DefaultMaxTokens;
    ParseIntOfIntToString(150);
  }

  lemma ParseDefaultPort()
    ensures ParseInt(DefaultPort) == Some(8000)
  {
    assert NatToString(8000) == DefaultPort;
    ParseIntOfIntToString(8000);
  }

  /** The default origin list is the two local development servers. */
  lemma DefaultCorsList()
    ensures Split(DefaultCorsOrigins, ',') == ["http://localhost:5173", "http://localhost:3000"]
  {
    SplitInTwo(DefaultCorsOrigins, "http://localhost:5173", "http://localhost:3000", ',');
  }

  /**
   * With the URL set and none of the other keys, every slot takes its
   * default: the model name, 150 tokens, the two local origins,
   * 127.0.0.1:8000 and 30 requests a minute.
   */
  lemma DefaultsWhenUnset(env: Env, parseFloat: FloatParser)
    requires HasApiUrl(env)
    requires "LLM_MODEL" !in env && "LLM_MAX_TOKENS" !in env && "LLM_TEMPERATURE" !in env
    requires "CORS_ORIGINS" !in env && "HOST" !in env && "PORT" !in env && "RATE_LIMIT" !in env
    requires parseFloat(DefaultTemperature).Some?
    ensures LoadSettings(env, parseFloat) == Success(Settings(
      env["LLM_API_URL"], "Qwen2.5-1.5B-Instruct", 150, parseFloat(DefaultTemperature).value,
      ["http://localhost:5173", "http://localhost:3000"], "127.0.0.1", 8000, "30/minute"))
  {
    ParseDefaultMaxTokens();
    ParseDefaultPort();
    DefaultCorsList();
  }

  /** A key that is unset takes its default, whatever the other keys hold. */
  lemma UnsetKeyDefaults(env: Env, parseFloat: FloatParser)
    requires LoadSettings(env, parseFloat).Success?
    ensures var s := LoadSettings(env, parseFloat).value;
      && ("LLM_MODEL" !in env ==> s.llmModel == "Qwen2.5-1.5B-Instruct")
      && ("LLM_MAX_TOKENS" !in env ==> s.llmMaxTokens == 150)
      && ("LLM_TEMPERATURE" !in env ==> Some(s.llmTemperature) == parseFloat(DefaultTemperature))
      && ("CORS_ORIGINS" !in env ==> s.corsOrigins == ["http://localhost:5173", "http://localhost:3000"])
      && ("HOST" !in env ==> s.host == "127.0.0.1")
      && ("PORT" !in env ==> s.port == 8000)
      && ("RATE_LIMIT" !in env ==> s.rateLimit == "30/minute")
  {
    ParseDefaultMaxTokens();
    ParseDefaultPort();
    DefaultCorsList();
  }

  /** A key that is set overrides its default, whatever the other keys hold. */
  lemma SetKeysOverride(env: Env, parseFloat: FloatParser)
    requires LoadSettings(env, parseFloat).Success?
    ensures var s := LoadSettings(env, parseFloat).value;
      && ("LLM_MODEL" in env ==> s.llmModel == env["LLM_MODEL"])
      && ("LLM_MAX_TOKENS" in env ==> Some(s.llmMaxTokens) == ParseInt(env["LLM_MAX_TOKENS"]))
      && ("LLM_TEMPERATURE" in env ==> Some(s.llmTemperature) == parseFloat(env["LLM_TEMPERATURE"]))
      && ("CORS_ORIGINS" in env ==> s.corsOrigins == Split(env["CORS_ORIGINS"], ','))
      && ("HOST" in env ==> s.host == env["HOST"])
      && ("PORT" in env ==> Some(s.port) == ParseInt(env["PORT"]))
      && ("RATE_LIMIT" in env ==> s.rateLimit == env["RATE_LIMIT"])
  {
  }

  /**
   * The origin list is the comma split of its source text: rejoining it
   * gives the text back, and n commas give n + 1 origins.
   */
  lemma CorsOriginsRoundTrip(env: Env)
    ensures Join(CorsOrigins(env), ',') == GetEnv(env, "CORS_ORIGINS", DefaultCorsOrigins)
    ensures |CorsOrigins(env)| == Count(GetEnv(env, "CORS_ORIGINS", DefaultCorsOrigins), ',') + 1
  {
    JoinSplit(GetEnv(env, "CORS_ORIGINS", DefaultCorsOrigins), ',');
    SplitSpec(GetEnv(env, "CORS_ORIGINS", DefaultCorsOrigins), ',');
  }

  /** An empty or blank token limit is refused by `int()`, so construction fails on it. */
  lemma EmptyIntRejected(env: Env, parseFloat: FloatParser)
    requires HasApiUrl(env)
    requires "LLM_MAX_TOKENS" in env && AllSpace(env["LLM_MAX_TOKENS"])
    ensures LoadSettings(env, parseFloat) == Failure(InvalidInt("LLM_MAX_TOKENS", env["LLM_MAX_TOKENS"]))
  {
  }

  /**
   * An empty or blank port is refused by `int()` too; construction gets that
   * far only when the token limit and the temperature parse.
   */
  lemma EmptyPortRejected(env: Env, parseFloat: FloatParser)
    requires HasApiUrl(env)
    requires ParseInt(GetEnv(env, "LLM_MAX_TOKENS", DefaultMaxTokens)).Some?
    requires parseFloat(GetEnv(env, "LLM_TEMPERATURE", DefaultTemperature)).Some?
    requires "PORT" in env && AllSpace(env["PORT"])
    ensures LoadSettings(env, parseFloat) == Failure(InvalidInt("PORT", env["PORT"]))
  {
  }
}
