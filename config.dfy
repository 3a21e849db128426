/**
 * The application configuration object (src/config/index.ts): the API base URL chosen
 * from environment variables, the environment flags, and the authentication constants.
 * `process.env` is modelled as a map from variable name to value; an unset variable is
 * a missing key.
 */
module AppConfig {
  import opened Wrappers
  import opened Js

  type Environment = map<string, string>

  const DefaultDevApiUrl := "http://localhost:3000/api"
  const DefaultProdApiUrl := "https://your-production-api.com/api"
  const DefaultVersion := "0.0.1"

  /** authConfig: one hour, five minutes, five attempts, fifteen minutes (milliseconds). */
  const TokenExpiration := 1 * 60 * 60 * 1000
  const RefreshThreshold := 5 * 60 * 1000
  const MaxLoginAttempts := 5
  const LockoutDuration := 15 * 60 * 1000

  datatype AuthConfig = AuthConfig(
    tokenExpiration: int,
    refreshThreshold: int,
    maxLoginAttempts: int,
    lockoutDuration: int)

  datatype Config = Config(
    apiUrl: string,
    env: string,
    version: string,
    isProduction: bool,
    isDevelopment: bool,
    authConfig: AuthConfig)

  function DevApiUrl(env: Environment): (url: string) {
    Or(Get(env, "REACT_APP_DEV_API_URL"), DefaultDevApiUrl)
  }

  function ProdApiUrl(env: Environment): (url: string) {
    Or(Get(env, "REACT_APP_PROD_API_URL"), DefaultProdApiUrl)
  }

  /** The `config` object built from the environment. */
  function MakeConfig(env: Environment): (c: Config)
    // REACT_APP_API_URL wins whenever it is set to a non-empty value
    ensures Truthy(Get(env, "REACT_APP_API_URL")) ==> c.apiUrl == env["REACT_APP_API_URL"]
    // otherwise the production URL exactly when the environment is 'production'
    ensures !Truthy(Get(env, "REACT_APP_API_URL")) ==>
      c.apiUrl == (if Get(env, "REACT_APP_ENV") == Some("production") then ProdApiUrl(env) else DevApiUrl(env))
    ensures c.apiUrl != "" && c.env != "" && c.version != ""
    ensures !(c.isProduction && c.isDevelopment)
    ensures c.isProduction ==> c.env == "production"
    ensures c.isDevelopment ==> c.env == "development"
    ensures c.authConfig.tokenExpiration > c.authConfig.refreshThreshold > 0
    ensures c.authConfig == AuthConfig(3600000, 300000, 5, 900000)
  {
    var appEnv := Get(env, "REACT_APP_ENV");
    Config(
      Or(Get(env, "REACT_APP_API_URL"), if appEnv == Some("production") then ProdApiUrl(env) else DevApiUrl(env)),
      Or(appEnv, "development"),
      Or(Get(env, "REACT_APP_VERSION"), DefaultVersion),
      appEnv == Some("production"),
      appEnv == Some("development"),
      AuthConfig(TokenExpiration, RefreshThreshold, MaxLoginAttempts, LockoutDuration))
  }

  /** With REACT_APP_ENV unset, `env` reads 'development' while neither flag is raised. */
  lemma UnsetEnvironmentIsNeitherFlagged(env: Environment)
    requires "REACT_APP_ENV" !in env
    ensures MakeConfig(env).env == "development"
    ensures !MakeConfig(env).isDevelopment && !MakeConfig(env).isProduction
    ensures !Truthy(Get(env, "REACT_APP_API_URL")) ==> MakeConfig(env).apiUrl == DevApiUrl(env)
  {
  }

  /** Any environment value other than 'production' selects the development URL. */
  lemma NonProductionUsesDevUrl(env: Environment)
    requires !Truthy(Get(env, "REACT_APP_API_URL"))
    requires Get(env, "REACT_APP_ENV") != Some("production")
    ensures MakeConfig(env).apiUrl == DevApiUrl(env)
    ensures "REACT_APP_DEV_API_URL" !in env ==> MakeConfig(env).apiUrl == DefaultDevApiUrl
  {
  }
}
