/**
  Configuration loading (config.go). The process environment is an input:
  a map from variable name to value, where a missing name reads as the
  empty string, exactly as `os.Getenv` does. `log.Fatal` becomes a
  `Failure` result instead of a process exit.
 */
module Configuration {
  import opened Wrappers

  const DefaultPort := "8080"

  const ApiUrlVar := "MINIFLUX_API_URL"
  const ApiTokenVar := "MINIFLUX_API_TOKEN"
  const PortVar := "PORT"
  const DaemonVar := "DAEMON"

  const MissingCredentialsMessage := "MINIFLUX_API_URL and MINIFLUX_API_TOKEN must be set"

  type Env = map<string, string>

  /** The application configuration; never changed after loading. */
  datatype Config = Config(apiUrl: string, apiToken: string, port: string, daemon: bool)

  /** The fatal startup error, with the message the program logs before exiting. */
  datatype Fatal = Fatal(message: string)

  /** `os.Getenv`: an unset variable and a variable set to "" are the same. */
  function Getenv(env: Env, key: string): string
  {
    if key in env then env[key] else ""
  }

  /** Reads the four variables; the URL and the token are required. */
  function LoadConfig(env: Env): (r: Result<Config, Fatal>)
    ensures r.Failure? <==> Getenv(env, ApiUrlVar) == "" || Getenv(env, ApiTokenVar) == ""
    ensures r.Failure? ==> r.error == Fatal(MissingCredentialsMessage)
    ensures r.Success? ==> r.value.apiUrl == Getenv(env, ApiUrlVar) && r.value.apiUrl != ""
    ensures r.Success? ==> r.value.apiToken == Getenv(env, ApiTokenVar) && r.value.apiToken != ""
    ensures r.Success? ==> r.value.port != ""
    ensures r.Success? && Getenv(env, PortVar) == "" ==> r.value.port == DefaultPort
    ensures r.Success? && Getenv(env, PortVar) != "" ==> r.value.port == Getenv(env, PortVar)
    ensures r.Success? ==> (r.value.daemon <==> Getenv(env, DaemonVar) == "true")
  {
    var apiUrl := Getenv(env, ApiUrlVar);
    var apiToken := Getenv(env, ApiTokenVar);
    if apiUrl == "" || apiToken == "" then
      Failure(Fatal(MissingCredentialsMessage))
    else
      var port := if Getenv(env, PortVar) == "" then DefaultPort else Getenv(env, PortVar);
      Success(Config(apiUrl, apiToken, port, Getenv(env, DaemonVar) == "true"))
  }

  /** An environment that spells out a configuration, with the daemon flag as "true" or "false". */
  function EnvOf(c: Config): Env
  {
    map[ApiUrlVar := c.apiUrl, ApiTokenVar := c.apiToken, PortVar := c.port,
        DaemonVar := if c.daemon then "true" else "false"]
  }

  /** Every configuration that loading can produce is read back from its own environment. */
  lemma LoadConfigRoundTrip(c: Config)
    requires c.apiUrl != "" && c.apiToken != "" && c.port != ""
    ensures LoadConfig(EnvOf(c)) == Success(c)
  {
  }

  /** Variables other than the four that are read have no influence on the result. */
  lemma LoadConfigReadsOnlyItsVariables(env1: Env, env2: Env)
    requires Getenv(env1, ApiUrlVar) == Getenv(env2, ApiUrlVar)
    requires Getenv(env1, ApiTokenVar) == Getenv(env2, ApiTokenVar)
    requires Getenv(env1, PortVar) == Getenv(env2, PortVar)
    requires Getenv(env1, DaemonVar) == Getenv(env2, DaemonVar)
    ensures LoadConfig(env1) == LoadConfig(env2)
  {
  }

  /** Only the exact string "true" selects daemon mode: "TRUE", "1" and an unset DAEMON do not. */
  lemma DaemonNeedsExactTrue(env: Env)
    requires Getenv(env, ApiUrlVar) != "" && Getenv(env, ApiTokenVar) != ""
    ensures LoadConfig(env[DaemonVar := "TRUE"]).value.daemon == false
    ensures LoadConfig(env[DaemonVar := "1"]).value.daemon == false
    ensures LoadConfig(env - {DaemonVar}).value.daemon == false
    ensures LoadConfig(env[DaemonVar := "true"]).value.daemon == true
  {
  }
}
