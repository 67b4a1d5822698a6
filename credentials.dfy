/** Credential resolution of `TelegramClientManager.__init__`: the three
    environment variables are read, a bot token makes a missing application
    identity default to "0", and without a bot token both the api id and the
    api hash must be present. */
module Credentials {
  import opened Wrappers

  /** The process environment after `.env` has been loaded: a variable that is
      not set has no key. */
  type Env = map<string, string>

  const BotTokenKey := "BOT_TOKEN"
  const ApiIdKey := "API_ID"
  const ApiHashKey := "API_HASH"

  /** The placeholder application identity used for bot-only connections. */
  const Placeholder := "0"

  const MissingCredentials := "Either BOT_TOKEN or (API_ID and API_HASH) must be set in .env file"

  datatype AuthenticationError = AuthenticationError(message: string)

  /** The resolved credentials the manager keeps. The bot token is kept as it
      was read (it may be absent or empty); the api id stays a string. */
  datatype Credentials = Credentials(botToken: Option<string>, apiId: string, apiHash: string)

  /** `os.getenv(key)`. */
  function Getenv(env: Env, key: string): Option<string> {
    if key in env then Some(env[key]) else None
  }

  /** Python truthiness of an optional string: `None` and `""` are false. */
  predicate Truthy(s: Option<string>) {
    s.Some? && s.value != ""
  }

  /** Python's `s or fallback` on an optional string. */
  function OrElse(s: Option<string>, fallback: string): string {
    if Truthy(s) then s.value else fallback
  }

  /** Both parts of the application identity are non-empty. */
  predicate Usable(c: Credentials) {
    c.apiId != "" && c.apiHash != ""
  }

  /** The decision `__init__` takes on the environment. */
  function Resolve(env: Env): (r: Result<Credentials, AuthenticationError>)
    // a bot token always lets construction succeed, whatever API_ID and API_HASH are
    ensures Truthy(Getenv(env, BotTokenKey)) ==> r.Success?
    // without a bot token, construction fails exactly when API_ID or API_HASH is absent or empty
    ensures !Truthy(Getenv(env, BotTokenKey)) ==>
              (r.Failure? <==> !Truthy(Getenv(env, ApiIdKey)) || !Truthy(Getenv(env, ApiHashKey)))
    ensures r.Failure? ==> r.error == AuthenticationError(MissingCredentials)
    // the bot token is stored as it was read
    ensures r.Success? ==> r.value.botToken == Getenv(env, BotTokenKey)
    // present values are kept unchanged
    ensures r.Success? && Truthy(Getenv(env, ApiIdKey)) ==> r.value.apiId == env[ApiIdKey]
    ensures r.Success? && Truthy(Getenv(env, ApiHashKey)) ==> r.value.apiHash == env[ApiHashKey]
    // an absent or empty value is replaced by the placeholder (only a bot token gets this far)
    ensures r.Success? && !Truthy(Getenv(env, ApiIdKey)) ==> r.value.apiId == Placeholder
    ensures r.Success? && !Truthy(Getenv(env, ApiHashKey)) ==> r.value.apiHash == Placeholder
    ensures r.Success? ==> Usable(r.value)
  {
    var botToken := Getenv(env, BotTokenKey);
    var apiId := Getenv(env, ApiIdKey);
    var apiHash := Getenv(env, ApiHashKey);
    if Truthy(botToken) then
      Success(Credentials(botToken, OrElse(apiId, Placeholder), OrElse(apiHash, Placeholder)))
    else if !Truthy(apiId) || !Truthy(apiHash) then
      Failure(AuthenticationError(MissingCredentials))
    else
      Success(Credentials(botToken, apiId.value, apiHash.value))
  }

  /** The environment that holds exactly the given credentials. */
  function EnvOf(c: Credentials): Env {
    var ids := map[ApiIdKey := c.apiId, ApiHashKey := c.apiHash];
    if c.botToken.Some? then ids[BotTokenKey := c.botToken.value] else ids
  }

  /** Resolution is a fixpoint on what it produces: resolving an environment
      that holds resolved credentials gives them back unchanged, so nothing is
      defaulted twice. */
  lemma ResolveIsStable(env: Env)
    requires Resolve(env).Success?
    ensures Resolve(EnvOf(Resolve(env).value)) == Resolve(env)
  {
  }

  /** Without a bot token, a complete pair of environment values is stored
      exactly as read: nothing is defaulted and the api id stays a string. */
  lemma UserCredentialsKeptVerbatim(env: Env)
    requires !Truthy(Getenv(env, BotTokenKey))
    requires Truthy(Getenv(env, ApiIdKey)) && Truthy(Getenv(env, ApiHashKey))
    ensures Resolve(env) == Success(Credentials(Getenv(env, BotTokenKey), env[ApiIdKey], env[ApiHashKey]))
  {
  }

  /** A bot token with nothing else set resolves to the placeholder identity. */
  lemma BotTokenOnly(token: string)
    requires token != ""
    ensures Resolve(map[BotTokenKey := token]) == Success(Credentials(Some(token), Placeholder, Placeholder))
  {
  }

  /** An empty environment, and one whose only bot token is the empty string,
      both fail construction. */
  lemma NothingSetFails()
    ensures Resolve(map[]).Failure?
    ensures Resolve(map[BotTokenKey := ""]).Failure?
  {
  }
}
