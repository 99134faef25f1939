/**
 * What GetAccessToken and GetNewAccessToken promise, stated over the
 * specification functions that the wrapper's methods are proved to follow.
 */
module OAuth2Properties {
  import opened Wrappers
  import opened Errors
  import opened OAuth2

  /** The calls include an authorization exchange. */
  predicate Authorized(calls: seq<Call>)
  {
    exists c :: c in calls && c.Authorize?
  }

  /** The calls include a keychain read. */
  predicate ReadKeychain(calls: seq<Call>)
  {
    exists c :: c in calls && c.KeychainRead?
  }

  /** The calls include a keychain write. */
  predicate WroteKeychain(calls: seq<Call>)
  {
    exists c :: c in calls && c.KeychainWrite?
  }

  /** GetAccessToken gets past the memory cache and the keychain to a fresh authorization. */
  predicate ReachesAuthorization(cfg: WrapperConfig, s: WrapperState, env: Env)
    requires ExpiryNeedsTimestamp(env)
  {
    var key := cfg.KeychainLabel;
    && !CacheHit(cfg, s, env)
    && (!cfg.AddToKeychain
        || key !in s.keychain
        || (env.decode(s.keychain[key]).Success? && Expired(cfg, env, env.decode(s.keychain[key]).value)))
  }


  /** A usable cached credential is returned as is: no I/O, no authorization, no state change. */
  lemma CachedCredentialReturned(cfg: WrapperConfig, s: WrapperState, env: Env)
    requires ExpiryNeedsTimestamp(env)
    requires s.credentials.Some? && !Expired(cfg, env, s.credentials.value)
    ensures AccessToken(cfg, s, env) == Step(Success(s.credentials.value), s, [])
  {
  }

  /** With the keychain off the result is exactly GetNewAccessToken's, and the keychain is untouched. */
  lemma KeychainDisabledMeansFreshAuthorization(cfg: WrapperConfig, s: WrapperState, env: Env)
    requires ExpiryNeedsTimestamp(env)
    requires !cfg.AddToKeychain && !CacheHit(cfg, s, env)
    ensures var st := AccessToken(cfg, s, env);
            && st == NewAccessToken(cfg, s, env)
            && st.after.keychain == s.keychain
            && !ReadKeychain(st.calls) && !WroteKeychain(st.calls)
  {
  }

  /** Stored bytes that do not decode fail the call with the decoder's error; no authorization follows. */
  lemma UndecodableStoredCredentialFails(cfg: WrapperConfig, s: WrapperState, env: Env)
    requires ExpiryNeedsTimestamp(env)
    requires cfg.AddToKeychain && !CacheHit(cfg, s, env)
    requires cfg.KeychainLabel in s.keychain && env.decode(s.keychain[cfg.KeychainLabel]).Failure?
    ensures var st := AccessToken(cfg, s, env);
            && st.result == Failure(env.decode(s.keychain[cfg.KeychainLabel]).error)
            && st.after == s
            && st.calls == [KeychainRead(cfg.KeychainLabel)]
  {
  }

  /** A stored credential that decodes and is not expired is returned; the memory cache is not filled. */
  lemma StoredCredentialReturned(cfg: WrapperConfig, s: WrapperState, env: Env, c: Credential)
    requires ExpiryNeedsTimestamp(env)
    requires cfg.AddToKeychain && !CacheHit(cfg, s, env)
    requires cfg.KeychainLabel in s.keychain && env.decode(s.keychain[cfg.KeychainLabel]) == Success(c)
    requires !Expired(cfg, env, c)
    ensures var st := AccessToken(cfg, s, env);
            && st.result == Success(c)
            && st.after == s
            && !Authorized(st.calls)
  {
  }

  /**
   * GetNewAccessToken always authorizes, whatever the cache and keychain
   * hold, with a client built from the configuration, which it retains; the
   * result is the authorization's, cached on success.
   */
  lemma NewAccessTokenAlwaysAuthorizes(cfg: WrapperConfig, s: WrapperState, env: Env)
    ensures var st := NewAccessToken(cfg, s, env);
            && |st.calls| == 1 && st.calls[0].Authorize?
            && st.calls[0].client.consumerKey == cfg.settings.ClientID
            && st.calls[0].client.consumerSecret == cfg.settings.ClientSecret
            && st.calls[0].client.authorizeUrl == cfg.settings.AuthURL
            && st.calls[0].client.accessTokenUrl == cfg.settings.TokenURL
            && st.calls[0].client.responseType == cfg.ResponseType
            && st.calls[0].client.allowMissingStateCheck == cfg.AllowMissingState
            && st.calls[0].callbackURL == cfg.settings.CallbackURL
            && st.calls[0].scope == cfg.settings.Scope
            && st.calls[0].state == env.state
            && st.after.oauth2 == Some(st.calls[0].client)
            && st.result == env.authorization
            && st.after.keychain == s.keychain
            && st.after.credentials == (if env.authorization.Success? then Some(env.authorization.value)
                                        else s.credentials)
  {
  }

  /**
   * GetAccessToken authorizes exactly when neither memory nor keychain
   * yields a usable credential (nor a decode error), and reads the keychain
   * exactly when memory fails and the keychain is enabled.
   */
  lemma AuthorizesExactlyWhenNeeded(cfg: WrapperConfig, s: WrapperState, env: Env)
    requires ExpiryNeedsTimestamp(env)
    ensures var st := AccessToken(cfg, s, env);
            && (Authorized(st.calls) <==> ReachesAuthorization(cfg, s, env))
            && (ReadKeychain(st.calls) <==> !CacheHit(cfg, s, env) && cfg.AddToKeychain)
  {
    var st := AccessToken(cfg, s, env);
    if ReachesAuthorization(cfg, s, env) {
      assert AuthorizeCall(cfg, env) in st.calls;
    }
    if !CacheHit(cfg, s, env) && cfg.AddToKeychain {
      assert st.calls[0] == KeychainRead(cfg.KeychainLabel);
    }
  }

  /**
   * After a fresh authorization with the keychain on and a successful write,
   * the keychain maps the label to the encoded credential and nothing else
   * changed, memory holds the credential, and it is the result.
   */
  lemma FreshCredentialPersisted(cfg: WrapperConfig, s: WrapperState, env: Env, c: Credential)
    requires ExpiryNeedsTimestamp(env)
    requires ReachesAuthorization(cfg, s, env) && cfg.AddToKeychain
    requires env.authorization == Success(c) && env.keychainWriteOk
    ensures var st := AccessToken(cfg, s, env);
            && st.result == Success(c)
            && st.after.credentials == Some(c)
            && cfg.KeychainLabel in st.after.keychain
            && st.after.keychain[cfg.KeychainLabel] == env.encode(c)
            && (forall k :: k != cfg.KeychainLabel ==>
                  (k in st.after.keychain <==> k in s.keychain) &&
                  (k in s.keychain ==> st.after.keychain[k] == s.keychain[k]))
  {
  }

  /**
   * A failed keychain write turns the call into a keychainError, although
   * the new credential is already cached in memory and the keychain is
   * unchanged.
   */
  lemma KeychainWriteFailureReported(cfg: WrapperConfig, s: WrapperState, env: Env, c: Credential)
    requires ExpiryNeedsTimestamp(env)
    requires ReachesAuthorization(cfg, s, env) && cfg.AddToKeychain
    requires env.authorization == Success(c) && !env.keychainWriteOk
    ensures var st := AccessToken(cfg, s, env);
            && st.result == Failure(WrapperError(KeychainError))
            && st.after.credentials == Some(c)
            && st.after.keychain == s.keychain
  {
  }

  /** An authorization error reaches the caller unchanged; memory and keychain keep their contents. */
  lemma AuthorizationFailurePassedThrough(cfg: WrapperConfig, s: WrapperState, env: Env, e: Error)
    requires ExpiryNeedsTimestamp(env)
    requires ReachesAuthorization(cfg, s, env)
    requires env.authorization == Failure(e)
    ensures var st := AccessToken(cfg, s, env);
            && st.result == Failure(e)
            && st.after.credentials == s.credentials
            && st.after.keychain == s.keychain
            && !WroteKeychain(st.calls)
  {
  }

  /** No key other than the configured label is ever written. */
  lemma OnlyLabelWritten(cfg: WrapperConfig, s: WrapperState, env: Env, k: string)
    requires ExpiryNeedsTimestamp(env)
    requires k != cfg.KeychainLabel
    ensures var st := AccessToken(cfg, s, env);
            && (k in st.after.keychain <==> k in s.keychain)
            && (k in s.keychain ==> st.after.keychain[k] == s.keychain[k])
  {
  }

  /**
   * The decoder recovers the credential the authorization delivered from its
   * encoding (an assumption about the JSON library, made only for the one
   * credential a call may write).
   */
  predicate WrittenCredentialRoundTrips(env: Env)
  {
    env.authorization.Success? ==> env.decode(env.encode(env.authorization.value)) == env.authorization
  }

  /**
   * With the keychain on, the cached credential is also the one the keychain
   * holds under the label.
   */
  ghost predicate Durable(cfg: WrapperConfig, decode: seq<byte> -> Result<Credential, Error>, s: WrapperState)
  {
    cfg.AddToKeychain && s.credentials.Some? ==>
      cfg.KeychainLabel in s.keychain && decode(s.keychain[cfg.KeychainLabel]) == Success(s.credentials.value)
  }

  /** Durability is kept by every call whose keychain write (if any) succeeds. */
  lemma DurabilityPreserved(cfg: WrapperConfig, s: WrapperState, env: Env)
    requires ExpiryNeedsTimestamp(env) && WrittenCredentialRoundTrips(env)
    requires Durable(cfg, env.decode, s)
    requires env.keychainWriteOk
    ensures Durable(cfg, env.decode, AccessToken(cfg, s, env).after)
  {
  }

  /**
   * From a durable state, a successful GetAccessToken with the keychain on
   * returns a credential that the keychain holds under the label.
   */
  lemma SuccessIsDurable(cfg: WrapperConfig, s: WrapperState, env: Env)
    requires ExpiryNeedsTimestamp(env) && WrittenCredentialRoundTrips(env)
    requires Durable(cfg, env.decode, s)
    requires cfg.AddToKeychain
    ensures var st := AccessToken(cfg, s, env);
            st.result.Success? ==>
              cfg.KeychainLabel in st.after.keychain &&
              env.decode(st.after.keychain[cfg.KeychainLabel]) == st.result
  {
  }

  /**
   * A failed write breaks durability: the credential cached before the write
   * is served by the next call, with no keychain access, although the
   * keychain never received it.
   */
  lemma UnpersistedCredentialServedAfterWriteFailure(cfg: WrapperConfig, s: WrapperState, env: Env,
                                                    next: Env, c: Credential)
    requires ExpiryNeedsTimestamp(env) && ExpiryNeedsTimestamp(next)
    requires ReachesAuthorization(cfg, s, env) && cfg.AddToKeychain
    requires env.authorization == Success(c) && !env.keychainWriteOk
    requires !Expired(cfg, env, c) && !Expired(cfg, next, c)
    ensures var st := AccessToken(cfg, s, env);
            && st.result == Failure(WrapperError(KeychainError))
            && !Durable(cfg, env.decode, st.after)
            && AccessToken(cfg, st.after, next) == Step(Success(c), st.after, [])
  {
  }

  /** `later` happens after `earlier`: expiry only advances, the decoder is the same. */
  ghost predicate Later(earlier: Env, later: Env)
  {
    && (forall c :: earlier.tokenExpired(c) ==> later.tokenExpired(c))
    && (forall b :: later.decode(b) == earlier.decode(b))
  }

  /** A credential the policy finds expired stays expired in every later call. */
  lemma ExpiryPersists(cfg: WrapperConfig, earlier: Env, later: Env, c: Credential)
    requires ExpiryNeedsTimestamp(earlier) && ExpiryNeedsTimestamp(later)
    requires Later(earlier, later)
    ensures Expired(cfg, earlier, c) ==> Expired(cfg, later, c)
  {
  }

  /**
   * A credential GetAccessToken just returned is returned again by the next
   * call, without authorization, as long as it has not expired meanwhile.
   */
  lemma SecondCallServedWithoutAuthorization(cfg: WrapperConfig, s: WrapperState, env: Env,
                                             next: Env, c: Credential)
    requires ExpiryNeedsTimestamp(env) && ExpiryNeedsTimestamp(next)
    requires Later(env, next)
    requires AccessToken(cfg, s, env).result == Success(c)
    requires !Expired(cfg, next, c)
    ensures var st := AccessToken(cfg, s, env);
            var st2 := AccessToken(cfg, st.after, next);
            st2.result == Success(c) && !Authorized(st2.calls)
  {
    // A call served from the keychain leaves memory as it was: expired then,
    // so expired now, and the next call reaches the same keychain entry.
    if s.credentials.Some? {
      ExpiryPersists(cfg, env, next, s.credentials.value);
    }
  }
}
