/** auth/meli/auth_config.py: the OAuth2 client configuration and the token-request
    payloads built from it (section 4.1.3 of RFC 6749 for the authorization-code grant,
    section 6 for the refresh grant). */
module AuthConfig {
  import opened Common
  import opened Config

  datatype AuthConfig = AuthConfig(clientId: string, clientSecret: string, redirectUri: string, code: string)

  /** `AuthConfig.__init__`: reads CLIENT_ID, CLIENT_SECRET, REDIRECT_URI and CODE in that
      order; the first missing one raises ConfigError carrying the VariableNotFound
      message. Both subclasses run it, so the refresh configuration needs CODE too. */
  function LoadAuthConfig(env: map<string, string>): (r: Result<AuthConfig>)
    ensures r.Ok? <==> && GetVar(env, "CLIENT_ID").Ok? && GetVar(env, "CLIENT_SECRET").Ok?
                       && GetVar(env, "REDIRECT_URI").Ok? && GetVar(env, "CODE").Ok?
    ensures r.Ok? ==>
              && "CLIENT_ID" in env && "CLIENT_SECRET" in env && "REDIRECT_URI" in env && "CODE" in env
              && r.value == AuthConfig(env["CLIENT_ID"], env["CLIENT_SECRET"], env["REDIRECT_URI"], env["CODE"])
    ensures GetVar(env, "CLIENT_ID").Err? ==> r == Err(ConfigError(NotFoundMessage("CLIENT_ID")))
    ensures GetVar(env, "CLIENT_ID").Ok? && GetVar(env, "CLIENT_SECRET").Err? ==>
              r == Err(ConfigError(NotFoundMessage("CLIENT_SECRET")))
    ensures GetVar(env, "CLIENT_ID").Ok? && GetVar(env, "CLIENT_SECRET").Ok? && GetVar(env, "REDIRECT_URI").Err? ==>
              r == Err(ConfigError(NotFoundMessage("REDIRECT_URI")))
    ensures (GetVar(env, "CLIENT_ID").Ok? && GetVar(env, "CLIENT_SECRET").Ok? && GetVar(env, "REDIRECT_URI").Ok?
             && GetVar(env, "CODE").Err?) ==> r == Err(ConfigError(NotFoundMessage("CODE")))
  {
    var id := GetVar(env, "CLIENT_ID");
    if id.Err? then Err(ConfigError(id.error.message)) else
    var secret := GetVar(env, "CLIENT_SECRET");
    if secret.Err? then Err(ConfigError(secret.error.message)) else
    var uri := GetVar(env, "REDIRECT_URI");
    if uri.Err? then Err(ConfigError(uri.error.message)) else
    var code := GetVar(env, "CODE");
    if code.Err? then Err(ConfigError(code.error.message)) else
    Ok(AuthConfig(id.value, secret.value, uri.value, code.value))
  }

  /** The three configuration classes: the base, ConnectionConfig and RefreshConfig. */
  datatype ConfigKind = BaseConfig | ConnectionConfig | RefreshConfig

  /** `get_data()`: None for the base class; for the subclasses a new form dictionary. */
  function GetData(kind: ConfigKind, cfg: AuthConfig): (r: Option<map<string, string>>)
    ensures kind == BaseConfig <==> r.None?
    ensures kind == ConnectionConfig ==>
              && r.Some?
              && r.value.Keys == {"grant_type", "client_id", "client_secret", "code", "redirect_uri"}
              && r.value["grant_type"] == "authorization_code" && r.value["code"] == cfg.code
    ensures kind == RefreshConfig ==>
              && r.Some?
              && r.value.Keys == {"grant_type", "client_id", "client_secret", "redirect_uri"}
              && r.value["grant_type"] == "refresh_token"
    ensures r.Some? ==> r.value["client_id"] == cfg.clientId && r.value["client_secret"] == cfg.clientSecret
                        && r.value["redirect_uri"] == cfg.redirectUri
  {
    match kind
    case BaseConfig => None
    case ConnectionConfig =>
      Some(map["grant_type" := "authorization_code", "client_id" := cfg.clientId,
               "client_secret" := cfg.clientSecret, "code" := cfg.code,
               "redirect_uri" := cfg.redirectUri])
    case RefreshConfig =>
      Some(map["grant_type" := "refresh_token", "client_id" := cfg.clientId,
               "client_secret" := cfg.clientSecret, "redirect_uri" := cfg.redirectUri])
  }

  /** The parameters section 4.1.3 of RFC 6749 requires of an authorization-code token
      request from a client that authenticates with its id and secret. */
  predicate IsAuthorizationCodeRequest(form: map<string, string>)
  {
    && "grant_type" in form && form["grant_type"] == "authorization_code"
    && "code" in form && "redirect_uri" in form && "client_id" in form && "client_secret" in form
  }

  /** The parameters section 6 of RFC 6749 requires of a refresh request. */
  predicate IsRefreshRequest(form: map<string, string>)
  {
    && "grant_type" in form && form["grant_type"] == "refresh_token"
    && "refresh_token" in form && "client_id" in form && "client_secret" in form
  }

  lemma ConnectionDataIsAuthorizationCodeRequest(cfg: AuthConfig)
    ensures IsAuthorizationCodeRequest(GetData(ConnectionConfig, cfg).value)
  {
  }

  /** The refresh configuration on its own is not yet a refresh request: the refresh
      token is added by the request class; with it, it is. */
  lemma RefreshDataNeedsToken(cfg: AuthConfig, refreshToken: string)
    ensures !IsRefreshRequest(GetData(RefreshConfig, cfg).value)
    ensures IsRefreshRequest(GetData(RefreshConfig, cfg).value["refresh_token" := refreshToken])
  {
  }
}
