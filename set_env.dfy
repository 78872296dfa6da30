/**
 * The build script that writes the Angular environment file: it picks the
 * environment from its first argument, reads the matching `.env` file when
 * there is one and otherwise falls back to the process's variables with
 * per-environment defaults, and writes the settings into the environment
 * file for that environment.
 *
 * The file system is a parameter: `envFile` is the parsed content of the
 * `.env` file when it exists.  Process variables are a map; JavaScript's
 * `x || fallback` on a variable takes the fallback when the variable is
 * missing or empty.  The model gives the path and the settings written and
 * whether the production warning is printed; the text layout of the
 * generated file and the console output are not modelled.
 */
module SetEnv {
  import opened Options
  import opened Strings

  const PROD_API_URL := "https://el-pollo-empoderado-backend-production.up.railway.app/"
  const STAGING_API_URL := "https://el-pollo-empoderado-backend-staging.up.railway.app/"
  const LOCAL_API_URL := "http://localhost:8080"
  const DEFAULT_API_PREFIX := "/api"
  const DEFAULT_TOKEN_KEY := "admin_token"
  const APP_NAME := "El Pollo Empoderado"
  const DEV_SUFFIX := " [DEV]"

  /** The settings written into the environment file. */
  datatype EnvironmentSettings = EnvironmentSettings(
    production: bool,
    apiUrl: string,
    apiPrefix: string,
    apiVersion: string,
    appName: string,
    enableDebug: bool,
    tokenKey: string)

  /** What one run of the script produces. */
  datatype Output = Output(path: string, settings: EnvironmentSettings, warnsLocalhost: bool)

  /** `value || fallback` for a variable that may be missing. */
  function Or(value: Option<string>, fallback: string): (r: string)
    ensures value.Some? && value.value != "" ==> r == value.value
    ensures value.None? || value.value == "" ==> r == fallback
  {
    if value.Some? && value.value != "" then value.value else fallback
  }

  function Lookup(vars: map<string, string>, key: string): Option<string> {
    if key in vars then Some(vars[key]) else None
  }

  /** The environment: the first argument, or "local" when it is missing or
      empty. */
  function SelectEnvironment(arg: Option<string>): (environment: string)
    ensures environment != ""
    ensures arg.Some? && arg.value != "" ==> environment == arg.value
  {
    Or(arg, "local")
  }

  function EnvFileName(environment: string): (name: string)
    ensures environment == "prod" ==> name == ".env.prod"
    ensures environment == "dev" ==> name == ".env.dev"
    ensures environment != "prod" && environment != "dev" ==> name == ".env"
  {
    if environment == "prod" then ".env.prod" else if environment == "dev" then ".env.dev" else ".env"
  }

  function OutputPath(environment: string): (path: string)
    ensures path == "src/environments/environment.prod.ts" <==> environment == "prod"
    ensures path == "src/environments/environment.ts" <==> environment != "prod"
  {
    if environment == "prod" then "src/environments/environment.prod.ts" else "src/environments/environment.ts"
  }

  function DefaultApiUrl(environment: string): string {
    if environment == "prod" then PROD_API_URL
    else if environment == "dev" then STAGING_API_URL
    else LOCAL_API_URL
  }

  /** The configuration built from the process's variables when the `.env`
      file is missing. */
  function SystemConfig(environment: string, vars: map<string, string>): (config: map<string, string>)
    ensures config.Keys == {"PRODUCTION", "API_URL", "API_PREFIX", "API_VERSION", "APP_NAME", "ENABLE_DEBUG", "TOKEN_KEY"}
    ensures forall k :: k in config && k in vars && vars[k] != "" ==> config[k] == vars[k]
  {
    var isProd, isDev := environment == "prod", environment == "dev";
    map[
      "PRODUCTION" := Or(Lookup(vars, "PRODUCTION"), if isProd then "true" else "false"),
      "API_URL" := Or(Lookup(vars, "API_URL"), DefaultApiUrl(environment)),
      "API_PREFIX" := Or(Lookup(vars, "API_PREFIX"), DEFAULT_API_PREFIX),
      "API_VERSION" := Or(Lookup(vars, "API_VERSION"), ""),
      "APP_NAME" := Or(Lookup(vars, "APP_NAME"), APP_NAME + (if isDev then DEV_SUFFIX else "")),
      "ENABLE_DEBUG" := Or(Lookup(vars, "ENABLE_DEBUG"), if isProd then "false" else "true"),
      "TOKEN_KEY" := Or(Lookup(vars, "TOKEN_KEY"), DEFAULT_TOKEN_KEY)]
  }

  /** The key holds a non-empty value, which `||` keeps. */
  predicate Configured(source: map<string, string>, key: string) {
    key in source && source[key] != ""
  }

  /** The settings the template writes for a configuration; each text
      setting has its own fallback for a missing or empty entry. */
  function Settings(environment: string, config: map<string, string>): (s: EnvironmentSettings)
    ensures s.production <==> Lookup(config, "PRODUCTION") == Some("true") || environment == "prod"
    ensures !s.enableDebug <==> Lookup(config, "ENABLE_DEBUG") == Some("false")
    ensures s.apiUrl != "" && s.apiPrefix != "" && s.appName != "" && s.tokenKey != ""
    ensures Configured(config, "API_URL") ==> s.apiUrl == config["API_URL"]
    ensures Configured(config, "API_PREFIX") ==> s.apiPrefix == config["API_PREFIX"]
    ensures Configured(config, "API_VERSION") ==> s.apiVersion == config["API_VERSION"]
    ensures Configured(config, "APP_NAME") ==> s.appName == config["APP_NAME"]
    ensures Configured(config, "TOKEN_KEY") ==> s.tokenKey == config["TOKEN_KEY"]
  {
    EnvironmentSettings(
      Lookup(config, "PRODUCTION") == Some("true") || environment == "prod",
      Or(Lookup(config, "API_URL"), LOCAL_API_URL),
      Or(Lookup(config, "API_PREFIX"), DEFAULT_API_PREFIX),
      Or(Lookup(config, "API_VERSION"), ""),
      Or(Lookup(config, "APP_NAME"), APP_NAME),
      Lookup(config, "ENABLE_DEBUG") != Some("false"),
      Or(Lookup(config, "TOKEN_KEY"), DEFAULT_TOKEN_KEY))
  }

  /** One run: `envFile` is the parsed `.env` file of the chosen environment
      when it exists, `vars` the process's variables. */
  function Run(arg: Option<string>, envFile: Option<map<string, string>>, vars: map<string, string>): (out: Output)
    ensures out.path == OutputPath(SelectEnvironment(arg))
    ensures envFile.Some? ==> out.settings == Settings(SelectEnvironment(arg), envFile.value) && !out.warnsLocalhost
  {
    var environment := SelectEnvironment(arg);
    var config := if envFile.Some? then envFile.value else SystemConfig(environment, vars);
    var warns := envFile.None? && environment == "prod" && Contains(config["API_URL"], "localhost");
    Output(OutputPath(environment), Settings(environment, config), warns)
  }

  /** Without a `.env` file: production is on exactly for the "prod"
      environment or a PRODUCTION variable that is exactly "true"; debugging is
      off exactly when ENABLE_DEBUG is exactly "false", or when it is unset in
      "prod"; the warning is printed exactly in "prod" with an API URL that
      mentions localhost. */
  lemma SystemFlags(arg: Option<string>, vars: map<string, string>)
    ensures var environment, out := SelectEnvironment(arg), Run(arg, None, vars);
      && (out.settings.production <==> environment == "prod" || Lookup(vars, "PRODUCTION") == Some("true"))
      && (!out.settings.enableDebug <==>
            Lookup(vars, "ENABLE_DEBUG") == Some("false")
            || (environment == "prod" && (Lookup(vars, "ENABLE_DEBUG") == None || Lookup(vars, "ENABLE_DEBUG") == Some(""))))
      && (out.warnsLocalhost <==> environment == "prod" && Contains(out.settings.apiUrl, "localhost"))
  {
    var environment := SelectEnvironment(arg);
    var config := SystemConfig(environment, vars);
    assert Lookup(config, "PRODUCTION") == Some(config["PRODUCTION"]);
    assert Lookup(config, "ENABLE_DEBUG") == Some(config["ENABLE_DEBUG"]);
    assert Lookup(config, "API_URL") == Some(config["API_URL"]);
  }

  /** Without a `.env` file and without variables every setting takes the
      default of its environment. */
  lemma Defaults(arg: Option<string>)
    ensures var environment, s := SelectEnvironment(arg), Run(arg, None, map[]).settings;
      && s.production == (environment == "prod")
      && s.enableDebug == (environment != "prod")
      && s.apiUrl == DefaultApiUrl(environment)
      && s.apiPrefix == "/api" && s.apiVersion == "" && s.tokenKey == "admin_token"
      && s.appName == (if environment == "dev" then "El Pollo Empoderado [DEV]" else "El Pollo Empoderado")
  {
    var environment := SelectEnvironment(arg);
    var config := SystemConfig(environment, map[]);
    assert Lookup(config, "PRODUCTION") == Some(config["PRODUCTION"]);
    assert Lookup(config, "ENABLE_DEBUG") == Some(config["ENABLE_DEBUG"]);
    assert Lookup(config, "API_URL") == Some(config["API_URL"]);
    assert Lookup(config, "APP_NAME") == Some(config["APP_NAME"]);
  }

  /** Every text setting that is set to a non-empty value, in the `.env`
      file when there is one and otherwise in the process's variables, is
      written as it is. */
  lemma ConfiguredValuesWritten(arg: Option<string>, envFile: Option<map<string, string>>, vars: map<string, string>)
    ensures var source, s := (if envFile.Some? then envFile.value else vars), Run(arg, envFile, vars).settings;
      && (Configured(source, "API_URL") ==> s.apiUrl == source["API_URL"])
      && (Configured(source, "API_PREFIX") ==> s.apiPrefix == source["API_PREFIX"])
      && (Configured(source, "API_VERSION") ==> s.apiVersion == source["API_VERSION"])
      && (Configured(source, "APP_NAME") ==> s.appName == source["APP_NAME"])
      && (Configured(source, "TOKEN_KEY") ==> s.tokenKey == source["TOKEN_KEY"])
  {
    if envFile.None? {
      var config := SystemConfig(SelectEnvironment(arg), vars);
      assert "API_URL" in config && "API_PREFIX" in config && "API_VERSION" in config;
      assert "APP_NAME" in config && "TOKEN_KEY" in config;
    }
  }

  /** With no argument the script builds the local environment. */
  lemma NoArgumentIsLocal(envFile: Option<map<string, string>>, vars: map<string, string>)
    ensures SelectEnvironment(None) == "local" && SelectEnvironment(Some("")) == "local"
    ensures EnvFileName(SelectEnvironment(None)) == ".env"
    ensures Run(None, envFile, vars).path == "src/environments/environment.ts"
  {
  }
}
