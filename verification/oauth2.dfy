/**
 * The credential lifecycle of OAuth2Wrapper.swift: an in-memory credential,
 * the keychain and a fresh OAuth2 authorization, tried in that order.
 *
 * The collaborators the wrapper calls (the OAuthSwift client, the keychain's
 * write outcome, the JSON encoder and decoder, the library's clock-based
 * expiry check, the UUID generator) are given as an `Env`: what they answer
 * during one call. The asynchronous completion becomes the method's single
 * result.
 */
module OAuth2 {
  import opened Wrappers
  import opened Errors
  import opened Config

  type byte = bv8

  /**
   * The library's credential, reduced to the fields the wrapper's decisions
   * touch. The expiry is seconds since 1970, as `timeIntervalSince1970`.
   */
  datatype Credential = Credential(
    oauthToken: string,
    oauthRefreshToken: string,
    oauthTokenExpiresAt: Option<real>)

  /** The settings the wrapper reads: the loader's six-field record and five policy fields. */
  datatype WrapperConfig = WrapperConfig(
    settings: OAuth2WrapperConfig,
    KeychainLabel: string,
    AddToKeychain: bool,
    ResponseType: string,
    AllowMissingState: bool,
    AllowNullExpires: bool)

  /** The OAuth2 client object GetNewAccessToken builds and retains. */
  datatype OAuth2Swift = OAuth2Swift(
    consumerKey: string,
    consumerSecret: string,
    authorizeUrl: string,
    accessTokenUrl: string,
    responseType: string,
    allowMissingStateCheck: bool)

  /** An interaction with a collaborator, as a test double would record it. */
  datatype Call =
    | KeychainRead(key: string)
    | Authorize(client: OAuth2Swift, callbackURL: string, scope: string, state: string)
    | KeychainWrite(key: string, data: seq<byte>)

  /** What the collaborators answer during one call. */
  datatype Env = Env(
    authorization: Result<Credential, Error>,   // outcome of the client's authorize exchange
    state: string,                               // the new UUID sent as OAuth2 state
    encode: Credential -> seq<byte>,             // JSONEncoder
    decode: seq<byte> -> Result<Credential, Error>,  // JSONDecoder
    keychainWriteOk: bool,                       // whether the keychain accepts the write
    tokenExpired: Credential -> bool)            // the library's isTokenExpired()

  /**
   * The library reports a token expired only when it has an expiry date;
   * the wrapper relies on this when it force-unwraps that date.
   */
  ghost predicate ExpiryNeedsTimestamp(env: Env)
  {
    forall c :: env.tokenExpired(c) ==> c.oauthTokenExpiresAt.Some?
  }

  /** The wrapper's mutable state: memory cache, keychain and retained client. */
  datatype WrapperState = WrapperState(
    credentials: Option<Credential>,
    keychain: map<string, seq<byte>>,
    oauth2: Option<OAuth2Swift>)

  /** One call's outcome: the completion's value, the new state, the calls made. */
  datatype Step = Step(result: Result<Credential, Error>, after: WrapperState, calls: seq<Call>)

  /**
   * The wrapper's expiry policy: the library's answer, except that with
   * AllowNullExpires an expiry before 1.0 s after the epoch (what a missing
   * `expires_in` decodes to) does not count as expired.
   */
  function IsExpired(c: Credential, tokenExpired: bool, allowNullExpires: bool): (expired: bool)
    requires tokenExpired ==> c.oauthTokenExpiresAt.Some?
    ensures expired ==> tokenExpired
    ensures !allowNullExpires ==> expired == tokenExpired
    ensures allowNullExpires && tokenExpired ==> (expired <==> c.oauthTokenExpiresAt.value >= 1.0)
  {
    var isExpired := tokenExpired;
    if isExpired && allowNullExpires then
      var dt := c.oauthTokenExpiresAt.value;
      if dt < 1.0 then false else isExpired
    else
      isExpired
  }

  /** The policy applied to a credential with the library's answer for it. */
  predicate Expired(cfg: WrapperConfig, env: Env, c: Credential)
    requires ExpiryNeedsTimestamp(env)
  {
    IsExpired(c, env.tokenExpired(c), cfg.AllowNullExpires)
  }

  function NewClient(cfg: WrapperConfig): OAuth2Swift
  {
    OAuth2Swift(cfg.settings.ClientID, cfg.settings.ClientSecret, cfg.settings.AuthURL,
                cfg.settings.TokenURL, cfg.ResponseType, cfg.AllowMissingState)
  }

  function AuthorizeCall(cfg: WrapperConfig, env: Env): Call
  {
    Authorize(NewClient(cfg), cfg.settings.CallbackURL, cfg.settings.Scope, env.state)
  }

  /** GetNewAccessToken: build and retain a client, authorize, cache a new credential. */
  function NewAccessToken(cfg: WrapperConfig, s: WrapperState, env: Env): Step
  {
    var retained := s.(oauth2 := Some(NewClient(cfg)));
    var calls := [AuthorizeCall(cfg, env)];
    match env.authorization
    case Success(c) => Step(Success(c), retained.(credentials := Some(c)), calls)
    case Failure(e) => Step(Failure(e), retained, calls)
  }

  /** getStore: persist a new credential under the keychain label, then cache it. */
  function Store(cfg: WrapperConfig, s: WrapperState, env: Env, rsp: Result<Credential, Error>): Step
  {
    match rsp
    case Failure(e) => Step(Failure(e), s, [])
    case Success(c) =>
      var data := env.encode(c);
      var calls := [KeychainWrite(cfg.KeychainLabel, data)];
      if !env.keychainWriteOk then
        Step(Failure(WrapperError(KeychainError)), s, calls)
      else
        Step(Success(c), s.(keychain := s.keychain[cfg.KeychainLabel := data], credentials := Some(c)), calls)
  }

  /** The in-memory credential exists and is not expired. */
  predicate CacheHit(cfg: WrapperConfig, s: WrapperState, env: Env)
    requires ExpiryNeedsTimestamp(env)
  {
    s.credentials.Some? && !Expired(cfg, env, s.credentials.value)
  }

  /** GetAccessToken: memory, then keychain (when enabled), then a fresh authorization. */
  function AccessToken(cfg: WrapperConfig, s: WrapperState, env: Env): Step
    requires ExpiryNeedsTimestamp(env)
  {
    var key := cfg.KeychainLabel;
    if CacheHit(cfg, s, env) then
      Step(Success(s.credentials.value), s, [])
    else if !cfg.AddToKeychain then
      NewAccessToken(cfg, s, env)
    else
      var read := [KeychainRead(key)];
      if key in s.keychain && env.decode(s.keychain[key]).Failure? then
        Step(Failure(env.decode(s.keychain[key]).error), s, read)
      else if key in s.keychain && !Expired(cfg, env, env.decode(s.keychain[key]).value) then
        Step(Success(env.decode(s.keychain[key]).value), s, read)
      else
        var renewed := NewAccessToken(cfg, s, env);
        var stored := Store(cfg, renewed.after, env, renewed.result);
        Step(stored.result, stored.after, read + renewed.calls + stored.calls)
  }

  class OAuth2Wrapper {
    var oauth2: Option<OAuth2Swift>
    var credentials: Option<Credential>
    /** The process-wide keychain, keyed by label. */
    var keychain: map<string, seq<byte>>
    /** Every collaborator call made so far. */
    ghost var calls: seq<Call>
    const config: WrapperConfig

    function State(): WrapperState
      reads this
    {
      WrapperState(credentials, keychain, oauth2)
    }

    /** A new wrapper: no cached credential, no client, the keychain as found. */
    constructor (config: WrapperConfig, keychain: map<string, seq<byte>>)
      ensures this.config == config
      ensures State() == WrapperState(None, keychain, None) && calls == []
    {
      this.config := config;
      this.keychain := keychain;
      oauth2 := None;
      credentials := None;
      calls := [];
    }

    method GetAccessToken(env: Env) returns (r: Result<Credential, Error>)
      requires ExpiryNeedsTimestamp(env)
      modifies this
      ensures var st := AccessToken(config, old(State()), env);
              r == st.result && State() == st.after && calls == old(calls) + st.calls
    {
      var key := config.KeychainLabel;
      if credentials.Some? {
        var creds := credentials.value;
        if !IsExpired(creds, env.tokenExpired(creds), config.AllowNullExpires) {
          return Success(creds);
        }
      }
      if !config.AddToKeychain {
        r := GetNewAccessToken(env);
        return;
      }
      calls := calls + [KeychainRead(key)];
      if key in keychain {
        var decoded := env.decode(keychain[key]);
        if decoded.Failure? {
          return Failure(decoded.error);
        }
        var creds := decoded.value;
        if !IsExpired(creds, env.tokenExpired(creds), config.AllowNullExpires) {
          return Success(creds);
        }
      }
      var rsp := GetNewAccessToken(env);
      r := GetStore(env, rsp);
    }

    /** The completion GetAccessToken hands to GetNewAccessToken when the keychain is on. */
    method GetStore(env: Env, rsp: Result<Credential, Error>) returns (r: Result<Credential, Error>)
      modifies this
      ensures var st := Store(config, old(State()), env, rsp);
              r == st.result && State() == st.after && calls == old(calls) + st.calls
    {
      match rsp {
        case Failure(error) =>
          return Failure(error);
        case Success(creds) =>
          var data := env.encode(creds);
          calls := calls + [KeychainWrite(config.KeychainLabel, data)];
          var ok := env.keychainWriteOk;
          if ok {
            keychain := keychain[config.KeychainLabel := data];
          }
          if !ok {
            return Failure(WrapperError(KeychainError));
          }
          credentials := Some(creds);
          return Success(creds);
      }
    }

    method GetNewAccessToken(env: Env) returns (r: Result<Credential, Error>)
      modifies this
      ensures var st := NewAccessToken(config, old(State()), env);
              r == st.result && State() == st.after && calls == old(calls) + st.calls
    {
      var state := env.state;
      var client := NewClient(config);
      oauth2 := Some(client);
      calls := calls + [Authorize(client, config.settings.CallbackURL, config.settings.Scope, state)];
      match env.authorization {
        case Success(credential) =>
          credentials := Some(credential);
          r := Success(credential);
        case Failure(error) =>
          r := Failure(error);
      }
    }
  }
}
