/**
 * The service's configuration: read from the process environment with a
 * default for every setting, then validated as a whole.
 *
 * The environment is a map from variable names to values (a name that is
 * absent reads as the empty string, as with os.Getenv); the integer and
 * boolean parsers are partial functions passed in as parameters.
 */
module Config {
  import opened Wrappers

  const MinPort: int := 1
  const MaxPort: int := 65535

  const DefaultGrpcPort: int := 9090
  const DefaultMetricsPort: int := 9091
  const DefaultLogLevel: string := "info"

  /** The accepted logging levels. */
  const LogLevels: set<string> := {"debug", "info", "warn", "error"}

  /** Environment variable names. */
  const GrpcPortKey: string := "GRPC_PORT"
  const MetricsPortKey: string := "METRICS_PORT"
  const LogLevelKey: string := "LOG_LEVEL"
  const AuthEnabledKey: string := "AUTH_ENABLED"
  const AuthIssuerKey: string := "AUTH_ISSUER"
  const AuthAudienceKey: string := "AUTH_AUDIENCE"
  const AuthJwksUrlKey: string := "AUTH_JWKS_URL"

  datatype ServiceConfig = ServiceConfig(
    grpcPort: int,
    metricsPort: int,
    logLevel: string,
    authEnabled: bool,
    authIssuer: string,
    authAudience: string,
    authJwksUrl: string)

  datatype ConfigError =
    | InvalidGrpcPort(port: int)
    | InvalidMetricsPort(port: int)
    | InvalidLogLevel(level: string)
    | MissingAuthIssuer
    | MissingAuthAudience

  /** Load's error wraps the validation error. */
  datatype LoadError = InvalidConfiguration(cause: ConfigError)

  type Environment = map<string, string>
  type IntParser = string -> Option<int>
  type BoolParser = string -> Option<bool>

  predicate ValidPort(port: int) {
    MinPort <= port <= MaxPort
  }

  /** The checks run in a fixed order: gRPC port, metrics port, log level,
      then (only when authentication is enabled) issuer and audience. The
      first failing check decides the error; the JWKS URL is never checked. */
  function Validate(c: ServiceConfig): (r: Outcome<ConfigError>)
    ensures r.Pass? <==>
              && ValidPort(c.grpcPort)
              && ValidPort(c.metricsPort)
              && c.logLevel in LogLevels
              && (c.authEnabled ==> c.authIssuer != "" && c.authAudience != "")
    ensures !ValidPort(c.grpcPort) ==> r == Fail(InvalidGrpcPort(c.grpcPort))
    ensures ValidPort(c.grpcPort) && !ValidPort(c.metricsPort) ==> r == Fail(InvalidMetricsPort(c.metricsPort))
    ensures ValidPort(c.grpcPort) && ValidPort(c.metricsPort) && c.logLevel !in LogLevels ==>
              r == Fail(InvalidLogLevel(c.logLevel))
    ensures r == Fail(MissingAuthIssuer) <==>
              ValidPort(c.grpcPort) && ValidPort(c.metricsPort) && c.logLevel in LogLevels
              && c.authEnabled && c.authIssuer == ""
    ensures r == Fail(MissingAuthAudience) <==>
              ValidPort(c.grpcPort) && ValidPort(c.metricsPort) && c.logLevel in LogLevels
              && c.authEnabled && c.authIssuer != "" && c.authAudience == ""
  {
    if c.grpcPort < MinPort || c.grpcPort > MaxPort then
      Fail(InvalidGrpcPort(c.grpcPort))
    else if c.metricsPort < MinPort || c.metricsPort > MaxPort then
      Fail(InvalidMetricsPort(c.metricsPort))
    else if c.logLevel !in LogLevels then
      Fail(InvalidLogLevel(c.logLevel))
    else if c.authEnabled && c.authIssuer == "" then
      Fail(MissingAuthIssuer)
    else if c.authEnabled && c.authAudience == "" then
      Fail(MissingAuthAudience)
    else
      Pass
  }

  /** With authentication disabled the issuer, audience and JWKS URL are
      never inspected: changing them cannot change the verdict. */
  lemma ValidateIgnoresAuthFieldsWhenDisabled(c: ServiceConfig, issuer: string, audience: string, jwksUrl: string)
    requires !c.authEnabled
    ensures Validate(c.(authIssuer := issuer, authAudience := audience, authJwksUrl := jwksUrl)) == Validate(c)
  {
  }

  /** The configurations the repository's tests expect to be refused. */
  lemma ValidateRejectsTestConfigs()
    ensures Validate(ServiceConfig(0, 9000, "info", false, "", "", "")) == Fail(InvalidGrpcPort(0))
    ensures Validate(ServiceConfig(9000, 70000, "info", false, "", "", "")) == Fail(InvalidMetricsPort(70000))
    ensures Validate(ServiceConfig(9000, 9001, "verbose", false, "", "", "")) == Fail(InvalidLogLevel("verbose"))
    ensures Validate(ServiceConfig(9000, 9001, "info", true, "", "api", "")) == Fail(MissingAuthIssuer)
    ensures Validate(ServiceConfig(9000, 9001, "info", true, "https://issuer.example.com", "", "")) == Fail(MissingAuthAudience)
  {
  }

  // ---------------------------------------------------------------------
  // Reading the environment
  // ---------------------------------------------------------------------

  /** os.Getenv: the value of a variable, or "" when it is not set. */
  function Getenv(env: Environment, key: string): (value: string)
    ensures key !in env ==> value == ""
    ensures key in env ==> value == env[key]
  {
    if key in env then env[key] else ""
  }

  /** The variable's value when it is non-empty, otherwise the default. */
  function GetEnvString(env: Environment, key: string, default: string): (value: string)
    ensures value == default || (key in env && value == env[key] && value != "")
    ensures Getenv(env, key) != "" ==> value == env[key]
  {
    var v := Getenv(env, key);
    if v != "" then v else default
  }

  /** The variable's value parsed as an integer; the default when the
      variable is empty or does not parse. */
  function GetEnvInt(env: Environment, key: string, default: int, parseInt: IntParser): (value: int)
    ensures value == default || (Getenv(env, key) != "" && parseInt(Getenv(env, key)) == Some(value))
    ensures Getenv(env, key) != "" && parseInt(Getenv(env, key)).Some? ==>
              value == parseInt(Getenv(env, key)).value
  {
    var v := Getenv(env, key);
    if v != "" then
      match parseInt(v)
      case Some(n) => n
      case None => default
    else
      default
  }

  /** The variable's value parsed as a boolean; the default when the
      variable is empty or does not parse. */
  function GetEnvBool(env: Environment, key: string, default: bool, parseBool: BoolParser): (value: bool)
    ensures value == default || (Getenv(env, key) != "" && parseBool(Getenv(env, key)) == Some(value))
    ensures Getenv(env, key) != "" && parseBool(Getenv(env, key)).Some? ==>
              value == parseBool(Getenv(env, key)).value
  {
    var v := Getenv(env, key);
    if v != "" then
      match parseBool(v)
      case Some(b) => b
      case None => default
    else
      default
  }

  /** A variable that fails to parse falls back to the default, as the
      repository's test of "notanint" expects. */
  lemma GetEnvIntParseFailure(env: Environment, key: string, default: int, parseInt: IntParser)
    requires key in env && parseInt(env[key]) == None
    ensures GetEnvInt(env, key, default, parseInt) == default
  {
  }

  // ---------------------------------------------------------------------
  // Loading
  // ---------------------------------------------------------------------

  /** The seven variables the configuration is read from. */
  const ConfigKeys: set<string> :=
    {GrpcPortKey, MetricsPortKey, LogLevelKey, AuthEnabledKey, AuthIssuerKey, AuthAudienceKey, AuthJwksUrlKey}

  /** The configuration as read from the environment, before validation:
      each field comes from its own variable and falls back to its own
      default when that variable is unset or empty, or, for a number or a
      boolean, when its value does not parse. */
  function FromEnvironment(env: Environment, parseInt: IntParser, parseBool: BoolParser): (c: ServiceConfig)
    ensures Getenv(env, GrpcPortKey) == "" || parseInt(Getenv(env, GrpcPortKey)).None? ==> c.grpcPort == DefaultGrpcPort
    ensures Getenv(env, MetricsPortKey) == "" || parseInt(Getenv(env, MetricsPortKey)).None? ==> c.metricsPort == DefaultMetricsPort
    ensures Getenv(env, LogLevelKey) == "" ==> c.logLevel == DefaultLogLevel
    ensures Getenv(env, AuthEnabledKey) == "" || parseBool(Getenv(env, AuthEnabledKey)).None? ==> !c.authEnabled
    ensures Getenv(env, AuthIssuerKey) == "" ==> c.authIssuer == ""
    ensures Getenv(env, AuthAudienceKey) == "" ==> c.authAudience == ""
    ensures Getenv(env, AuthJwksUrlKey) == "" ==> c.authJwksUrl == ""
    ensures Getenv(env, LogLevelKey) != "" ==> c.logLevel == env[LogLevelKey]
    ensures Getenv(env, AuthIssuerKey) != "" ==> c.authIssuer == env[AuthIssuerKey]
    ensures Getenv(env, AuthAudienceKey) != "" ==> c.authAudience == env[AuthAudienceKey]
    ensures Getenv(env, AuthJwksUrlKey) != "" ==> c.authJwksUrl == env[AuthJwksUrlKey]
    ensures Getenv(env, GrpcPortKey) != "" && parseInt(env[GrpcPortKey]).Some? ==>
              c.grpcPort == parseInt(env[GrpcPortKey]).value
    ensures Getenv(env, MetricsPortKey) != "" && parseInt(env[MetricsPortKey]).Some? ==>
              c.metricsPort == parseInt(env[MetricsPortKey]).value
    ensures Getenv(env, AuthEnabledKey) != "" && parseBool(env[AuthEnabledKey]).Some? ==>
              c.authEnabled == parseBool(env[AuthEnabledKey]).value
  {
    ServiceConfig(
      grpcPort := GetEnvInt(env, GrpcPortKey, DefaultGrpcPort, parseInt),
      metricsPort := GetEnvInt(env, MetricsPortKey, DefaultMetricsPort, parseInt),
      logLevel := GetEnvString(env, LogLevelKey, DefaultLogLevel),
      authEnabled := GetEnvBool(env, AuthEnabledKey, false, parseBool),
      authIssuer := GetEnvString(env, AuthIssuerKey, ""),
      authAudience := GetEnvString(env, AuthAudienceKey, ""),
      authJwksUrl := GetEnvString(env, AuthJwksUrlKey, ""))
  }

  /** Only the seven configuration variables matter: two environments that
      agree on them load the same configuration. */
  lemma FromEnvironmentReadsOnlyConfigKeys(env: Environment, other: Environment, parseInt: IntParser, parseBool: BoolParser)
    requires forall k :: k in ConfigKeys ==> Getenv(env, k) == Getenv(other, k)
    ensures FromEnvironment(env, parseInt, parseBool) == FromEnvironment(other, parseInt, parseBool)
  {
  }

  /** Reads every setting from the environment and validates the result:
      a loaded configuration is always valid, and Load fails exactly when
      validation of the read configuration fails, with that error. */
  function Load(env: Environment, parseInt: IntParser, parseBool: BoolParser): (r: Result<ServiceConfig, LoadError>)
    ensures r.Success? ==> r.value == FromEnvironment(env, parseInt, parseBool) && Validate(r.value).Pass?
    ensures r.Failure? <==> Validate(FromEnvironment(env, parseInt, parseBool)).Fail?
    ensures r.Failure? ==> r.error == InvalidConfiguration(Validate(FromEnvironment(env, parseInt, parseBool)).error)
  {
    var cfg := FromEnvironment(env, parseInt, parseBool);
    match Validate(cfg)
    case Fail(e) => Failure(InvalidConfiguration(e))
    case Pass => Success(cfg)
  }

  /** With the seven configuration variables unset or empty, whatever else
      the environment holds, Load succeeds with the defaults: ports 9090 and
      9091, log level "info", authentication off and empty authentication
      strings, whatever the parsers are. */
  lemma LoadDefaults(env: Environment, parseInt: IntParser, parseBool: BoolParser)
    requires forall k :: k in ConfigKeys && k in env ==> env[k] == ""
    ensures Load(env, parseInt, parseBool) == Success(ServiceConfig(9090, 9091, "info", false, "", "", ""))
  {
  }

  /** The settings of the repository's override test, as they would be set
      in a process environment. */
  const OverrideSettings: map<string, string> := map[
    GrpcPortKey := "5000", MetricsPortKey := "6000", LogLevelKey := "debug",
    AuthEnabledKey := "true", AuthIssuerKey := "https://issuer.example.com",
    AuthAudienceKey := "nist-api", AuthJwksUrlKey := "https://issuer.example.com/jwks.json"]

  /** Every setting can be overridden from the environment: with the
      override test's seven settings present, whatever else the environment
      holds, they load as given. */
  lemma LoadOverrides(env: Environment, parseInt: IntParser, parseBool: BoolParser)
    requires forall k :: k in OverrideSettings ==> k in env && env[k] == OverrideSettings[k]
    requires parseInt("5000") == Some(5000) && parseInt("6000") == Some(6000)
    requires parseBool("true") == Some(true)
    ensures Load(env, parseInt, parseBool) == Success(ServiceConfig(
      5000, 6000, "debug", true, "https://issuer.example.com", "nist-api", "https://issuer.example.com/jwks.json"))
  {
  }

  /** GRPC_PORT=0 makes Load fail with the gRPC port error. */
  lemma LoadRejectsPortZero(env: Environment, parseInt: IntParser, parseBool: BoolParser)
    requires GrpcPortKey in env && env[GrpcPortKey] == "0" && parseInt("0") == Some(0)
    ensures Load(env, parseInt, parseBool) == Failure(InvalidConfiguration(InvalidGrpcPort(0)))
  {
  }
}
